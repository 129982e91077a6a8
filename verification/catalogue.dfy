/**
 * The catalogue exports of logic/iaimportexport.py and
 * logic/iaimportexport_with_orders.py: entities, departments, equipment
 * classes, equipment and routes, each a record per row of its collection.
 * The order variant writes entities and routes once per order (their
 * definitions are in `Orders`), drops the inspection classes in favour of
 * one inspection work centre per department, and adds the manual-operation
 * classes to the equipment with the department of their equipment.
 */
module Catalogue {
  import opened Wrappers
  import opened PyStr
  import opened PyDict
  import opened ListToDict
  import opened Records
  import opened Classifier
  import Orders

  // ---------------------------------------------------------------------
  // export_entities, export_departments, export_ca_equipment, export_ca_routes

  /** A record of `export_entities`. */
  datatype EntityRow = EntityRow(identity: string, name: string, vendorCode: string)

  /** `export_entities`: each entity under its identity, which is also its vendor code. */
  function ExportEntities(entities: seq<Entity>): (r: seq<EntityRow>)
    ensures |r| == |entities|
    ensures forall i | 0 <= i < |r| ::
      r[i].identity == entities[i].identity && r[i].name == entities[i].name && r[i].vendorCode == r[i].identity
  {
    seq(|entities|, i requires 0 <= i < |entities| => EntityRow(entities[i].identity, entities[i].name, entities[i].identity))
  }

  /**
   * The order variant's entity records are the base records, each once per
   * order of its entity, the order in front of the identity and the vendor
   * code.
   */
  lemma OrderEntitiesPrefixBase(entities: seq<Entity>, entityOrders: map<string, set<string>>, rec: Orders.OrderEntity)
    ensures rec in Orders.ExportEntities(entities, entityOrders) <==>
      exists i, o :: 0 <= i < |entities| && o in Orders.OrdersOf(entityOrders, entities[i].identity)
        && rec.identity == o + "_" + ExportEntities(entities)[i].identity
        && rec.vendorCode == o + "_" + ExportEntities(entities)[i].vendorCode
        && rec.name == ExportEntities(entities)[i].name
  {
    Orders.ExportEntitiesMembers(entities, entityOrders, rec);
  }

  /** A record of `export_departments`. */
  datatype DepartmentRow = DepartmentRow(identity: string, name: string)

  /** `export_departments`, alike in both variants: each department's identity and name. */
  function ExportDepartments(departments: seq<Department>): (r: seq<DepartmentRow>)
    ensures |r| == |departments|
    ensures forall i | 0 <= i < |r| :: r[i].identity == departments[i].identity && r[i].name == departments[i].name
  {
    seq(|departments|, i requires 0 <= i < |departments| => DepartmentRow(departments[i].identity, departments[i].name))
  }

  /** A record of `export_ca_equipment`: a work centre. */
  datatype ClassRow = ClassRow(identity: string, className: string)

  /** The base `export_ca_equipment`: each equipment class as a work centre. */
  function ExportCaEquipment(classes: seq<EquipmentClass>): (r: seq<ClassRow>)
    ensures |r| == |classes|
    ensures forall i | 0 <= i < |r| :: r[i].identity == classes[i].identity && r[i].className == classes[i].name
  {
    seq(|classes|, i requires 0 <= i < |classes| => ClassRow(classes[i].identity, classes[i].name))
  }

  /** A record of the base `export_ca_routes`. */
  datatype RouteRow = RouteRow(identity: string, assembly: string, name: string)

  /** The base `export_ca_routes`: each route under its identity, which is also its name, with its entity. */
  function ExportCaRoutes(routes: seq<Route>, entities: map<Id, Entity>): (r: seq<RouteRow>)
    requires forall i | 0 <= i < |routes| :: routes[i].entityId in entities
    ensures |r| == |routes|
    ensures forall i | 0 <= i < |r| ::
      r[i].identity == routes[i].identity && r[i].name == r[i].identity
      && r[i].assembly == entities[routes[i].entityId].identity
  {
    seq(|routes|, i requires 0 <= i < |routes| =>
      RouteRow(routes[i].identity, entities[routes[i].entityId].identity, routes[i].identity))
  }

  /**
   * The order variant's route records are the base records, each once per
   * order of the route's entity, the order in front of the identity and the
   * entity; the name stays the route's identity.
   */
  lemma OrderRoutesPrefixBase(routes: seq<Route>, entities: map<Id, Entity>, entityOrders: map<string, set<string>>,
                              rec: Orders.OrderRoute)
    requires forall i | 0 <= i < |routes| :: routes[i].entityId in entities
    ensures rec in Orders.RoutesReport(routes, entities, entityOrders) <==>
      exists i, o :: 0 <= i < |routes| && o in Orders.OrdersOf(entityOrders, ExportCaRoutes(routes, entities)[i].assembly)
        && rec.identity == o + "_" + ExportCaRoutes(routes, entities)[i].identity
        && rec.assembly == o + "_" + ExportCaRoutes(routes, entities)[i].assembly
        && rec.name == ExportCaRoutes(routes, entities)[i].name
  {
    var base := ExportCaRoutes(routes, entities);
    Orders.RoutesReportMembers(routes, entities, entityOrders, rec);
    if rec in Orders.RoutesReport(routes, entities, entityOrders) {
      OrderRoutesToBase(routes, entities, entityOrders, rec);
    }
    if exists i, o :: 0 <= i < |routes| && o in Orders.OrdersOf(entityOrders, base[i].assembly)
        && rec.identity == o + "_" + base[i].identity && rec.assembly == o + "_" + base[i].assembly && rec.name == base[i].name {
      OrderRoutesFromBase(routes, entities, entityOrders, rec);
    }
  }

  /** A base record with one of its entity's orders in front is an order record of that route. */
  lemma OrderRoutesFromBase(routes: seq<Route>, entities: map<Id, Entity>, entityOrders: map<string, set<string>>,
                            rec: Orders.OrderRoute)
    requires forall i | 0 <= i < |routes| :: routes[i].entityId in entities
    requires exists i, o :: (0 <= i < |routes| && o in Orders.OrdersOf(entityOrders, ExportCaRoutes(routes, entities)[i].assembly)
      && rec.identity == o + "_" + ExportCaRoutes(routes, entities)[i].identity
      && rec.assembly == o + "_" + ExportCaRoutes(routes, entities)[i].assembly
      && rec.name == ExportCaRoutes(routes, entities)[i].name)
    ensures exists i, o :: (0 <= i < |routes| && o in Orders.OrdersOf(entityOrders, Orders.RouteEntity(routes[i], entities))
      && rec == Orders.RouteRecord(routes[i], entities, o))
  {
    var base := ExportCaRoutes(routes, entities);
    var i, o :| 0 <= i < |routes| && o in Orders.OrdersOf(entityOrders, base[i].assembly)
      && rec.identity == o + "_" + base[i].identity && rec.assembly == o + "_" + base[i].assembly && rec.name == base[i].name;
    OrderRouteOfBase(routes, entities, i, o, rec);
  }

  /** An order record of a route under one of its entity's orders is its base record with the order in front. */
  lemma OrderRoutesToBase(routes: seq<Route>, entities: map<Id, Entity>, entityOrders: map<string, set<string>>,
                          rec: Orders.OrderRoute)
    requires forall i | 0 <= i < |routes| :: routes[i].entityId in entities
    requires exists i, o :: (0 <= i < |routes| && o in Orders.OrdersOf(entityOrders, Orders.RouteEntity(routes[i], entities))
      && rec == Orders.RouteRecord(routes[i], entities, o))
    ensures exists i, o :: (0 <= i < |routes| && o in Orders.OrdersOf(entityOrders, ExportCaRoutes(routes, entities)[i].assembly)
      && rec.identity == o + "_" + ExportCaRoutes(routes, entities)[i].identity
      && rec.assembly == o + "_" + ExportCaRoutes(routes, entities)[i].assembly
      && rec.name == ExportCaRoutes(routes, entities)[i].name)
  {
    var i, o :| 0 <= i < |routes| && o in Orders.OrdersOf(entityOrders, Orders.RouteEntity(routes[i], entities))
      && rec == Orders.RouteRecord(routes[i], entities, o);
    OrderRouteOfBase(routes, entities, i, o, rec);
  }

  /** The order variant's record of route `i` under order `o` is the base record with the order in front. */
  lemma OrderRouteOfBase(routes: seq<Route>, entities: map<Id, Entity>, i: nat, o: string, rec: Orders.OrderRoute)
    requires forall j | 0 <= j < |routes| :: routes[j].entityId in entities
    requires i < |routes|
    ensures Orders.RouteEntity(routes[i], entities) == ExportCaRoutes(routes, entities)[i].assembly
    ensures rec == Orders.RouteRecord(routes[i], entities, o) <==>
      && rec.identity == o + "_" + ExportCaRoutes(routes, entities)[i].identity
      && rec.assembly == o + "_" + ExportCaRoutes(routes, entities)[i].assembly
      && rec.name == ExportCaRoutes(routes, entities)[i].name
  {
  }

  // ---------------------------------------------------------------------
  // export_ca_equipment_new

  /** A record of `export_ca_equipment_new`: a piece of equipment in a work centre and a department. */
  datatype EquipmentRow = EquipmentRow(identity: string, number: string, model: string, workCenter: string, department: string)

  /** Whether `export_ca_equipment_new` writes a piece of equipment: `if row['identity']`, its identity is not empty. */
  predicate Listed(e: Equipment)
  {
    e.identity != ""
  }

  /** The lookups the record of a listed piece of equipment makes. */
  predicate EquipmentResolves(e: Equipment, classes: map<Id, EquipmentClass>, departments: map<Id, Department>)
  {
    e.equipmentClassId in classes && e.departmentId in departments
  }

  /** The record of a piece of equipment: numbered by its identity, modelled by its name. */
  function EquipmentRowOf(e: Equipment, classes: map<Id, EquipmentClass>, departments: map<Id, Department>): EquipmentRow
    requires EquipmentResolves(e, classes, departments)
  {
    EquipmentRow(e.identity, e.identity, e.name, classes[e.equipmentClassId].identity, departments[e.departmentId].identity)
  }

  /** The records of the listed equipment, in order. */
  function EquipmentRows(equipment: seq<Equipment>, classes: map<Id, EquipmentClass>, departments: map<Id, Department>)
    : (r: seq<EquipmentRow>)
    requires forall i | 0 <= i < |equipment| && Listed(equipment[i]) :: EquipmentResolves(equipment[i], classes, departments)
    ensures |r| <= |equipment|
    ensures forall row | row in r :: row.identity != "" && row.number == row.identity
  {
    if equipment == [] then []
    else
      var n := |equipment| - 1;
      EquipmentRows(equipment[..n], classes, departments)
        + (if Listed(equipment[n]) then [EquipmentRowOf(equipment[n], classes, departments)] else [])
  }

  lemma EquipmentRowsStep(equipment: seq<Equipment>, classes: map<Id, EquipmentClass>, departments: map<Id, Department>, i: nat)
    requires forall j | 0 <= j < |equipment| && Listed(equipment[j]) :: EquipmentResolves(equipment[j], classes, departments)
    requires i < |equipment|
    ensures EquipmentRows(equipment[..i + 1], classes, departments)
      == EquipmentRows(equipment[..i], classes, departments)
         + (if Listed(equipment[i]) then [EquipmentRowOf(equipment[i], classes, departments)] else [])
  {
    assert equipment[..i + 1][..i] == equipment[..i];
  }

  /** Some listed piece of equipment among `equipment` has record `row`. */
  ghost predicate WrittenFor(equipment: seq<Equipment>, classes: map<Id, EquipmentClass>,
                             departments: map<Id, Department>, row: EquipmentRow)
    requires forall i | 0 <= i < |equipment| && Listed(equipment[i]) :: EquipmentResolves(equipment[i], classes, departments)
  {
    exists i :: 0 <= i < |equipment| && Listed(equipment[i]) && row == EquipmentRowOf(equipment[i], classes, departments)
  }

  lemma WrittenForStep(equipment: seq<Equipment>, classes: map<Id, EquipmentClass>,
                       departments: map<Id, Department>, row: EquipmentRow)
    requires forall i | 0 <= i < |equipment| && Listed(equipment[i]) :: EquipmentResolves(equipment[i], classes, departments)
    requires equipment != []
    ensures var n := |equipment| - 1;
      WrittenFor(equipment, classes, departments, row) <==>
        WrittenFor(equipment[..n], classes, departments, row)
        || (Listed(equipment[n]) && row == EquipmentRowOf(equipment[n], classes, departments))
  {
    var n := |equipment| - 1;
    var front := equipment[..n];
    if WrittenFor(front, classes, departments, row) {
      var i :| 0 <= i < |front| && Listed(front[i]) && row == EquipmentRowOf(front[i], classes, departments);
      assert equipment[i] == front[i];
    }
    if WrittenFor(equipment, classes, departments, row) {
      var i :| 0 <= i < |equipment| && Listed(equipment[i]) && row == EquipmentRowOf(equipment[i], classes, departments);
      if i < n {
        assert front[i] == equipment[i];
      }
    }
  }

  /** A record is written exactly for a piece of equipment with an identity. */
  lemma {:induction false} EquipmentRowsMembers(equipment: seq<Equipment>, classes: map<Id, EquipmentClass>,
                                                departments: map<Id, Department>, row: EquipmentRow)
    requires forall i | 0 <= i < |equipment| && Listed(equipment[i]) :: EquipmentResolves(equipment[i], classes, departments)
    ensures row in EquipmentRows(equipment, classes, departments) <==>
      exists i :: 0 <= i < |equipment| && Listed(equipment[i]) && row == EquipmentRowOf(equipment[i], classes, departments)
  {
    if equipment != [] {
      var n := |equipment| - 1;
      EquipmentRowsMembers(equipment[..n], classes, departments, row);
      WrittenForStep(equipment, classes, departments, row);
    }
  }

  /** The loop over the equipment that both variants begin with. */
  method AppendEquipment(report: seq<EquipmentRow>, equipment: seq<Equipment>, classes: map<Id, EquipmentClass>,
                         departments: map<Id, Department>)
    returns (report': seq<EquipmentRow>)
    requires forall i | 0 <= i < |equipment| && Listed(equipment[i]) :: EquipmentResolves(equipment[i], classes, departments)
    ensures report' == report + EquipmentRows(equipment, classes, departments)
  {
    report' := report;
    for i := 0 to |equipment|
      invariant report' == report + EquipmentRows(equipment[..i], classes, departments)
    {
      EquipmentRowsStep(equipment, classes, departments, i);
      var row := equipment[i];
      if row.identity != "" {
        report' := report' + [EquipmentRow(row.identity, row.identity, row.name,
                                           classes[row.equipmentClassId].identity, departments[row.departmentId].identity)];
      }
    }
    assert equipment[..|equipment|] == equipment;
  }

  /** The base `export_ca_equipment_new`: the equipment with an identity. */
  method ExportCaEquipmentNew(equipment: seq<Equipment>, classes: map<Id, EquipmentClass>, departments: map<Id, Department>)
    returns (report: seq<EquipmentRow>)
    requires forall i | 0 <= i < |equipment| && Listed(equipment[i]) :: EquipmentResolves(equipment[i], classes, departments)
    ensures report == EquipmentRows(equipment, classes, departments)
  {
    report := AppendEquipment([], equipment, classes, departments);
  }

  // ---------------------------------------------------------------------
  // export_ca_equipment and export_ca_equipment_new of the order variant

  function ClassKey(c: EquipmentClass): Id { c.id }
  function DepartmentKey(d: Department): Id { d.id }

  /** `list_to_dict` of the equipment classes. */
  function ClassIndex(classes: seq<EquipmentClass>): (d: Dict<Id, EquipmentClass>)
    ensures d.Valid()
  {
    IndexBy(classes, ClassKey)
  }

  /** `list_to_dict` of the departments. */
  function DepartmentIndex(departments: seq<Department>): (d: Dict<Id, Department>)
    ensures d.Valid()
  {
    IndexBy(departments, DepartmentKey)
  }

  /** `departments_dict.values()`: one department per id, in the order the ids first appear. */
  function DepartmentValues(departments: seq<Department>): seq<Department>
  {
    DepartmentIndex(departments).Values()
  }

  /** A catalogue without repeated ids is its own index's values. */
  lemma DepartmentValuesDistinct(departments: seq<Department>)
    requires forall i, j | 0 <= i < j < |departments| :: departments[i].id != departments[j].id
    ensures DepartmentValues(departments) == departments
  {
    IndexByDistinctValues(departments, DepartmentKey);
  }

  /** The inspection work centre of a department. */
  function ControlRow(d: Department): ClassRow
  {
    ClassRow(ControlCentre(d.name), ControlClass)
  }

  /** The classes other than the inspection classes, as work centres, in order. */
  function NonControlRows(classes: seq<EquipmentClass>): (r: seq<ClassRow>)
    ensures |r| <= |classes|
    ensures forall row | row in r :: row.className != ControlClass
  {
    if classes == [] then []
    else
      var n := |classes| - 1;
      NonControlRows(classes[..n]) + (if classes[n].name != ControlClass then [ClassRow(classes[n].identity, classes[n].name)] else [])
  }

  lemma NonControlRowsStep(classes: seq<EquipmentClass>, i: nat)
    requires i < |classes|
    ensures NonControlRows(classes[..i + 1])
      == NonControlRows(classes[..i]) + (if classes[i].name != ControlClass then [ClassRow(classes[i].identity, classes[i].name)] else [])
  {
    assert classes[..i + 1][..i] == classes[..i];
  }

  /** The base work centres without the inspection ones: the order variant keeps exactly those. */
  lemma {:induction false} NonControlRowsFilterBase(classes: seq<EquipmentClass>, row: ClassRow)
    ensures row in NonControlRows(classes) <==> row in ExportCaEquipment(classes) && row.className != ControlClass
  {
    if classes != [] {
      var n := |classes| - 1;
      var front := classes[..n];
      NonControlRowsFilterBase(front, row);
      var base := ExportCaEquipment(classes);
      var frontBase := ExportCaEquipment(front);
      assert base == frontBase + [base[n]];
    }
  }

  /** The inspection work centres, one per department in order. */
  function ControlRows(departments: seq<Department>): (r: seq<ClassRow>)
    ensures |r| == |departments|
    ensures forall i | 0 <= i < |r| :: r[i] == ControlRow(departments[i])
  {
    seq(|departments|, i requires 0 <= i < |departments| => ControlRow(departments[i]))
  }

  /** The loop over `departments_dict.values()` that adds the inspection work centres. */
  method AppendControlRows(report: seq<ClassRow>, values: seq<Department>) returns (report': seq<ClassRow>)
    ensures report' == report + ControlRows(values)
  {
    report' := report;
    for i := 0 to |values|
      invariant report' == report + ControlRows(values)[..i]
    {
      var row := values[i];
      report' := report' + [ClassRow(RemoveChar(row.name, '-') + "777", ControlClass)];
    }
  }

  /** `export_ca_equipment` of the order variant. */
  method ExportCaEquipmentWithOrders(classes: seq<EquipmentClass>, departments: seq<Department>) returns (report: seq<ClassRow>)
    ensures report == NonControlRows(classes) + ControlRows(DepartmentValues(departments))
  {
    report := [];
    for i := 0 to |classes|
      invariant report == NonControlRows(classes[..i])
    {
      NonControlRowsStep(classes, i);
      var row := classes[i];
      if row.name != ControlClass {
        report := report + [ClassRow(row.identity, row.name)];
      }
    }
    assert classes[..|classes|] == classes;
    var departmentsDict := DepartmentIndex(departments);
    report := AppendControlRows(report, departmentsDict.Values());
  }

  /**
   * In the order variant's work centres the inspection ones are exactly the
   * departments' inspection work centres, whatever inspection classes the
   * catalogue holds; the others are the base work centres that are not
   * inspection ones.
   */
  lemma EquipmentWithOrdersRows(classes: seq<EquipmentClass>, departments: seq<Department>, row: ClassRow)
    ensures var r := NonControlRows(classes) + ControlRows(DepartmentValues(departments));
      && (row in r && row.className == ControlClass <==>
            exists d :: d in DepartmentValues(departments) && row == ControlRow(d))
      && (row in r && row.className != ControlClass <==>
            row in ExportCaEquipment(classes) && row.className != ControlClass)
  {
    var values := DepartmentValues(departments);
    NonControlRowsFilterBase(classes, row);
    ControlRowsMembers(values, row);
    assert row in NonControlRows(classes) + ControlRows(values) <==> row in NonControlRows(classes) || row in ControlRows(values);
  }

  /** The inspection work centres are those of the departments, and all of class `ControlClass`. */
  lemma ControlRowsMembers(values: seq<Department>, row: ClassRow)
    ensures row in ControlRows(values) <==> exists d :: d in values && row == ControlRow(d)
    ensures row in ControlRows(values) ==> row.className == ControlClass
  {
    var r := ControlRows(values);
    if row in r {
      var i :| 0 <= i < |r| && r[i] == row;
      assert values[i] in values;
    }
    if exists d :: d in values && row == ControlRow(d) {
      var d :| d in values && row == ControlRow(d);
      var i :| 0 <= i < |values| && values[i] == d;
      assert r[i] == row;
    }
  }

  /**
   * `department_identity` of each equipment class after the loop over the
   * equipment: the department of the class's last piece of equipment.
   */
  function ClassDepartments(equipment: seq<Equipment>, departments: map<Id, Department>): map<Id, string>
    requires forall i | 0 <= i < |equipment| :: equipment[i].departmentId in departments
  {
    if equipment == [] then map[]
    else
      var n := |equipment| - 1;
      ClassDepartments(equipment[..n], departments)[equipment[n].equipmentClassId := departments[equipment[n].departmentId].identity]
  }

  lemma ClassDepartmentsStep(equipment: seq<Equipment>, departments: map<Id, Department>, i: nat)
    requires forall j | 0 <= j < |equipment| :: equipment[j].departmentId in departments
    requires i < |equipment|
    ensures ClassDepartments(equipment[..i + 1], departments)
      == ClassDepartments(equipment[..i], departments)[equipment[i].equipmentClassId := departments[equipment[i].departmentId].identity]
  {
    assert equipment[..i + 1][..i] == equipment[..i];
  }

  /**
   * A class has a department exactly when some equipment is of that class,
   * and it is the department of the last such equipment.
   */
  lemma {:induction false} ClassDepartmentsLastWins(equipment: seq<Equipment>, departments: map<Id, Department>, c: Id)
    requires forall i | 0 <= i < |equipment| :: equipment[i].departmentId in departments
    ensures c in ClassDepartments(equipment, departments) <==> exists i :: 0 <= i < |equipment| && equipment[i].equipmentClassId == c
    ensures forall i | 0 <= i < |equipment| && equipment[i].equipmentClassId == c
      && (forall j | i < j < |equipment| :: equipment[j].equipmentClassId != c) ::
        ClassDepartments(equipment, departments)[c] == departments[equipment[i].departmentId].identity
  {
    if equipment != [] {
      var n := |equipment| - 1;
      var front := equipment[..n];
      ClassDepartmentsLastWins(front, departments, c);
      if exists i :: 0 <= i < |equipment| && equipment[i].equipmentClassId == c {
        var i :| 0 <= i < |equipment| && equipment[i].equipmentClassId == c;
        if i < n {
          assert front[i].equipmentClassId == c;
        }
      }
      if exists i :: 0 <= i < |front| && front[i].equipmentClassId == c {
        var i :| 0 <= i < |front| && front[i].equipmentClassId == c;
        assert equipment[i].equipmentClassId == c;
      }
      forall i | 0 <= i < |equipment| && equipment[i].equipmentClassId == c
        && (forall j | i < j < |equipment| :: equipment[j].equipmentClassId != c)
        ensures ClassDepartments(equipment, departments)[c] == departments[equipment[i].departmentId].identity
      {
        if i < n {
          assert front[i] == equipment[i];
          assert forall j | i < j < |front| :: front[j].equipmentClassId != c by {
            forall j | i < j < |front| ensures front[j].equipmentClassId != c {
              assert front[j] == equipment[j];
            }
          }
        }
      }
    }
  }

  /** The record of a manual-operation class: named by the class, in the department set by its equipment. */
  function ManualRow(c: EquipmentClass, department: string): EquipmentRow
  {
    EquipmentRow(c.identity, c.name, c.name, c.identity, department)
  }

  /**
   * The manual-operation classes among `values` whose department was set;
   * for the others the `KeyError` is reported and the class skipped.
   */
  function ManualRows(values: seq<EquipmentClass>, classDepartments: map<Id, string>): (r: seq<EquipmentRow>)
    ensures |r| <= |values|
  {
    if values == [] then []
    else
      var n := |values| - 1;
      var c := values[n];
      ManualRows(values[..n], classDepartments)
        + (if c.name == ManualClass && c.id in classDepartments then [ManualRow(c, classDepartments[c.id])] else [])
  }

  lemma ManualRowsStep(values: seq<EquipmentClass>, classDepartments: map<Id, string>, i: nat)
    requires i < |values|
    ensures ManualRows(values[..i + 1], classDepartments)
      == ManualRows(values[..i], classDepartments)
         + (if values[i].name == ManualClass && values[i].id in classDepartments
            then [ManualRow(values[i], classDepartments[values[i].id])] else [])
  {
    assert values[..i + 1][..i] == values[..i];
  }

  /** A manual row is written exactly for a manual-operation class whose department was set. */
  lemma {:induction false} ManualRowsMembers(values: seq<EquipmentClass>, classDepartments: map<Id, string>, row: EquipmentRow)
    ensures row in ManualRows(values, classDepartments) <==>
      exists c :: c in values && c.name == ManualClass && c.id in classDepartments && row == ManualRow(c, classDepartments[c.id])
  {
    if values != [] {
      var n := |values| - 1;
      var front := values[..n];
      ManualRowsMembers(front, classDepartments, row);
      assert values == front + [values[n]];
    }
  }

  /** The inspection work centre of a department as a piece of equipment. */
  function ControlEquipment(d: Department): EquipmentRow
  {
    EquipmentRow(ControlCentre(d.name), ControlClass, ControlClass, ControlCentre(d.name), d.identity)
  }

  /** The inspection equipment, one per department in order. */
  function ControlEquipmentRows(departments: seq<Department>): (r: seq<EquipmentRow>)
    ensures |r| == |departments|
    ensures forall i | 0 <= i < |r| :: r[i] == ControlEquipment(departments[i])
  {
    seq(|departments|, i requires 0 <= i < |departments| => ControlEquipment(departments[i]))
  }

  /** The lookups of the order variant's equipment loop: every piece, listed or not, sets its class's department. */
  predicate EquipmentWithOrdersResolves(equipment: seq<Equipment>, classes: seq<EquipmentClass>, departments: seq<Department>)
  {
    forall i | 0 <= i < |equipment| ::
      equipment[i].equipmentClassId in ClassIndex(classes).items && equipment[i].departmentId in DepartmentIndex(departments).items
  }

  /** The order variant's reading of the equipment: the class's department is written for each piece in turn. */
  method SetClassDepartments(equipment: seq<Equipment>, classes: map<Id, EquipmentClass>, departments: map<Id, Department>)
    returns (classDepartments: map<Id, string>, report: seq<EquipmentRow>)
    requires forall i | 0 <= i < |equipment| :: equipment[i].equipmentClassId in classes && equipment[i].departmentId in departments
    ensures classDepartments == ClassDepartments(equipment, departments)
    ensures report == EquipmentRows(equipment, classes, departments)
  {
    classDepartments := map[];
    report := [];
    for i := 0 to |equipment|
      invariant classDepartments == ClassDepartments(equipment[..i], departments)
      invariant report == EquipmentRows(equipment[..i], classes, departments)
    {
      ClassDepartmentsStep(equipment, departments, i);
      EquipmentRowsStep(equipment, classes, departments, i);
      var row := equipment[i];
      classDepartments := classDepartments[row.equipmentClassId := departments[row.departmentId].identity];
      if row.identity != "" {
        report := report + [EquipmentRow(row.identity, row.identity, row.name,
                                         classes[row.equipmentClassId].identity, departments[row.departmentId].identity)];
      }
    }
    assert equipment[..|equipment|] == equipment;
  }

  /** `export_ca_equipment_new` of the order variant. */
  method ExportCaEquipmentNewWithOrders(equipment: seq<Equipment>, classes: seq<EquipmentClass>, departments: seq<Department>)
    returns (report: seq<EquipmentRow>)
    requires EquipmentWithOrdersResolves(equipment, classes, departments)
    ensures report == EquipmentRows(equipment, ClassIndex(classes).items, DepartmentIndex(departments).items)
      + ManualRows(ClassIndex(classes).Values(), ClassDepartments(equipment, DepartmentIndex(departments).items))
      + ControlEquipmentRows(DepartmentValues(departments))
  {
    var departmentsDict := DepartmentIndex(departments);
    var classDict := ClassIndex(classes);
    var classDepartments;
    classDepartments, report := SetClassDepartments(equipment, classDict.items, departmentsDict.items);
    report := AppendManualRows(report, classDict.Values(), classDepartments);
    report := AppendControlEquipment(report, departmentsDict.Values());
  }

  /** The loop over `equipment_class_dict.values()` that adds the manual-operation classes. */
  method AppendManualRows(report: seq<EquipmentRow>, values: seq<EquipmentClass>, classDepartments: map<Id, string>)
    returns (report': seq<EquipmentRow>)
    ensures report' == report + ManualRows(values, classDepartments)
  {
    report' := report;
    for i := 0 to |values|
      invariant report' == report + ManualRows(values[..i], classDepartments)
    {
      ManualRowsStep(values, classDepartments, i);
      var row := values[i];
      if row.name == ManualClass {
        if row.id in classDepartments {
          report' := report' + [EquipmentRow(row.identity, row.name, row.name, row.identity, classDepartments[row.id])];
        }
      }
    }
    assert values[..|values|] == values;
  }

  /** The loop over `departments_dict.values()` that adds the inspection work centres as equipment. */
  method AppendControlEquipment(report: seq<EquipmentRow>, values: seq<Department>) returns (report': seq<EquipmentRow>)
    ensures report' == report + ControlEquipmentRows(values)
  {
    report' := report;
    ghost var rows := ControlEquipmentRows(values);
    for i := 0 to |values|
      invariant report' == report + rows[..i]
    {
      var row := values[i];
      var centre := RemoveChar(row.name, '-') + "777";
      assert EquipmentRow(centre, ControlClass, ControlClass, centre, row.identity) == rows[i];
      assert rows[..i + 1] == rows[..i] + [rows[i]];
      report' := report' + [EquipmentRow(centre, ControlClass, ControlClass, centre, row.identity)];
    }
    assert rows[..|values|] == rows;
  }

  /**
   * A manual-operation class with equipment is written with the department
   * of its last piece of equipment.
   */
  lemma ManualClassRows(equipment: seq<Equipment>, values: seq<EquipmentClass>, departments: map<Id, Department>,
                        c: EquipmentClass, i: nat)
    requires forall j | 0 <= j < |equipment| :: equipment[j].departmentId in departments
    requires c in values && c.name == ManualClass
    requires i < |equipment| && equipment[i].equipmentClassId == c.id
    requires forall j | i < j < |equipment| :: equipment[j].equipmentClassId != c.id
    ensures ManualRow(c, departments[equipment[i].departmentId].identity) in ManualRows(values, ClassDepartments(equipment, departments))
  {
    var cd := ClassDepartments(equipment, departments);
    ClassDepartmentsLastWins(equipment, departments, c.id);
    ManualRowsMembers(values, cd, ManualRow(c, cd[c.id]));
  }
}
