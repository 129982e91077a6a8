/**
 * logic/iaimportexport_with_orders.py `export_ca_operations`: the base loop
 * over the operations in `nop` order, filtered by the order variant's five
 * tests (an identity with `н` is kept), with the same per-route priority
 * counter. A listed operation is written once per order of its assembly
 * element (`entity_orders`), the order in front of the identity, the phase,
 * the element and the route. A setup operation is written as its setup
 * (`Наладка_` name, `nop` with a Latin `H`, identity with `Н`), else a
 * preparation operation as its preparation (`ПЗ_`, `ПЗ`, `ПЗ`); an
 * inspection class is replaced by its department's work centre.
 */
module OrderOperations {
  import opened Wrappers
  import opened PyStr
  import opened PyDict
  import opened Records
  import opened Classifier
  import opened RouteWalk
  import opened DailyTasks
  import opened ExportCaOperations
  import opened DailyTasksOrders
  import opened Orders

  /** `Наладка_`: the name prefix of a setup operation. */
  const SetupName: string := "\U{041D}\U{0430}\U{043B}\U{0430}\U{0434}\U{043A}\U{0430}_"
  /** `ПЗ_`: the name prefix of a preparation operation. */
  const PrepName: string := PrepMark + "_"
  /** The Latin `H` the number of a setup operation ends with. */
  const LatinH: string := "H"

  /** The order variant's kept operations in `nop` order. */
  function OrderKept(operations: seq<Operation>): seq<Operation>
  {
    Where(SortByNop(operations), OrderOperationKept)
  }

  /** `op_num`: the `nop`, marked for a setup or a preparation. */
  function NumberOf(op: Operation): string
  {
    if op.setupTime != 0.0 then op.nop + LatinH else if op.prepTime != 0.0 then op.nop + PrepMark else op.nop
  }

  /** `op_name`: the name, prefixed for a setup or a preparation. */
  function NameOf(op: Operation): string
  {
    if op.setupTime != 0.0 then SetupName + op.name else if op.prepTime != 0.0 then PrepName + op.name else op.name
  }

  /** `departments_dict[id]['name']`, or the empty name for a missing department. */
  function DepartmentName(tables: Tables, id: Id): string
  {
    if id in tables.departments then tables.departments[id].name else ""
  }

  /**
   * `workCenterIdentity`: the equipment class's identity, or for an
   * inspection class the department's name without `-` followed by `777`.
   */
  function WorkCenter(tables: Tables, op: Operation): string
  {
    if op.equipmentClassId !in tables.equipmentClasses then ""
    else if tables.equipmentClasses[op.equipmentClassId].name != ControlClass then tables.equipmentClasses[op.equipmentClassId].identity
    else ControlCentre(DepartmentName(tables, op.departmentId))
  }

  /** The record of the kept operation at `k` for order `o`. */
  function OrderRecordAt(f: seq<Operation>, k: nat, tables: Tables, o: string): CaOperationRecord
    requires k < |f| && Listed(f[k], tables.phases)
  {
    var op := f[k];
    var phase := PhaseOf(tables.phases, op.id).value;
    CaOperationRecord(
      o + "_" + OperationIdentity(phase, op.nop) + Suffix(op),
      o + "_" + phase,
      o + "_" + AssemblyIdentity(tables, op.routeId),
      DepartmentIdentity(tables, op.departmentId),
      WorkCenter(tables, op),
      o + "_" + RouteIdentity(tables, op.routeId),
      NumberOf(op), Priority(f, k), NameOf(op))
  }

  /** The records of the kept operation at `k`: one per order of its assembly element, none when it is not listed. */
  function OrderBlock(f: seq<Operation>, k: nat, tables: Tables, lists: string -> seq<string>): (r: seq<CaOperationRecord>)
    requires k < |f|
    ensures Listed(f[k], tables.phases) ==> |r| == |lists(AssemblyIdentity(tables, f[k].routeId))|
    ensures !Listed(f[k], tables.phases) ==> r == []
    ensures Listed(f[k], tables.phases) ==> forall j | 0 <= j < |r| ::
      r[j] == OrderRecordAt(f, k, tables, lists(AssemblyIdentity(tables, f[k].routeId))[j])
  {
    if !Listed(f[k], tables.phases) then []
    else
      var os := lists(AssemblyIdentity(tables, f[k].routeId));
      seq(|os|, j requires 0 <= j < |os| => OrderRecordAt(f, k, tables, os[j]))
  }

  /** The block of each kept operation. */
  function OrderBlocks(f: seq<Operation>, tables: Tables, lists: string -> seq<string>): (blocks: seq<seq<CaOperationRecord>>)
    ensures |blocks| == |f|
    ensures forall k | 0 <= k < |f| :: blocks[k] == OrderBlock(f, k, tables, lists)
  {
    seq(|f|, k requires 0 <= k < |f| => OrderBlock(f, k, tables, lists))
  }

  /** The report of the order variant. */
  function OrderReport(f: seq<Operation>, tables: Tables, lists: string -> seq<string>): seq<CaOperationRecord>
  {
    Flatten(OrderBlocks(f, tables, lists))
  }

  /**
   * A record is reported exactly when it is the record of a listed kept
   * operation for one of the orders of its assembly element.
   */
  lemma OrderReportMembers(f: seq<Operation>, tables: Tables, lists: string -> seq<string>, rec: CaOperationRecord)
    ensures rec in OrderReport(f, tables, lists) <==>
      exists k, o :: 0 <= k < |f| && Listed(f[k], tables.phases) && o in lists(AssemblyIdentity(tables, f[k].routeId))
        && rec == OrderRecordAt(f, k, tables, o)
  {
    var blocks := OrderBlocks(f, tables, lists);
    FlattenMembers(blocks, rec);
    if rec in OrderReport(f, tables, lists) {
      OrderBlockToRecord(f, tables, lists, rec);
    }
    if exists k, o :: 0 <= k < |f| && Listed(f[k], tables.phases) && o in lists(AssemblyIdentity(tables, f[k].routeId))
        && rec == OrderRecordAt(f, k, tables, o) {
      var k, o :| 0 <= k < |f| && Listed(f[k], tables.phases) && o in lists(AssemblyIdentity(tables, f[k].routeId))
        && rec == OrderRecordAt(f, k, tables, o);
      var os := lists(AssemblyIdentity(tables, f[k].routeId));
      var j :| 0 <= j < |os| && os[j] == o;
      assert blocks[k][j] == rec;
    }
  }

  /** A record of some kept operation's block is that operation's record under one of its element's orders. */
  lemma OrderBlockToRecord(f: seq<Operation>, tables: Tables, lists: string -> seq<string>, rec: CaOperationRecord)
    requires exists k :: 0 <= k < |f| && rec in OrderBlocks(f, tables, lists)[k]
    ensures exists k, o :: (0 <= k < |f| && Listed(f[k], tables.phases) && o in lists(AssemblyIdentity(tables, f[k].routeId))
      && rec == OrderRecordAt(f, k, tables, o))
  {
    var k :| 0 <= k < |f| && rec in OrderBlocks(f, tables, lists)[k];
    var block := OrderBlock(f, k, tables, lists);
    var j :| 0 <= j < |block| && block[j] == rec;
    assert lists(AssemblyIdentity(tables, f[k].routeId))[j] in lists(AssemblyIdentity(tables, f[k].routeId));
  }

  /**
   * The record for order `o` is the base record with the order in front of
   * its identity, phase, element and route; a setup or preparation marks its
   * identity, number and name; only an inspection class changes the work
   * centre, to the department's.
   */
  lemma OrderRecordRefinesBase(f: seq<Operation>, k: nat, tables: Tables, o: string)
    requires k < |f| && Listed(f[k], tables.phases)
    ensures var rec := OrderRecordAt(f, k, tables, o);
      var base := RecordAt(f, k, tables);
      && rec.identity == o + "_" + base.identity + Suffix(f[k])
      && rec.transition == o + "_" + base.transition
      && rec.assembly == o + "_" + base.assembly
      && rec.process == o + "_" + base.process
      && rec.department == base.department
      && rec.priority == base.priority
    ensures var rec := OrderRecordAt(f, k, tables, o);
      var base := RecordAt(f, k, tables);
      f[k].equipmentClassId in tables.equipmentClasses ==>
        && (tables.equipmentClasses[f[k].equipmentClassId].name != ControlClass ==> rec.workCenter == base.workCenter)
        && (tables.equipmentClasses[f[k].equipmentClassId].name == ControlClass ==>
              rec.workCenter == ControlCentre(DepartmentName(tables, f[k].departmentId)))
    ensures var rec := OrderRecordAt(f, k, tables, o);
      var base := RecordAt(f, k, tables);
      && (f[k].setupTime != 0.0 ==> rec.number == base.number + LatinH && rec.name == SetupName + base.name
                                    && rec.identity == o + "_" + base.identity + SetupMark)
      && (f[k].setupTime == 0.0 && f[k].prepTime != 0.0 ==>
            rec.number == base.number + PrepMark && rec.name == PrepName + base.name
            && rec.identity == o + "_" + base.identity + PrepMark)
      && (f[k].setupTime == 0.0 && f[k].prepTime == 0.0 ==>
            rec.number == base.number && rec.name == base.name && rec.identity == o + "_" + base.identity)
  {
  }

  /** An inspection work centre is always the department's: a name ending `777` without `-` before it. */
  lemma ControlWorkCenter(tables: Tables, op: Operation)
    requires op.equipmentClassId in tables.equipmentClasses && tables.equipmentClasses[op.equipmentClassId].name == ControlClass
    ensures var w := WorkCenter(tables, op);
      |w| >= 3 && w[|w| - 3..] == "777" && '-' !in w[..|w| - 3]
  {
  }

  /** The two filters agree on a catalogue without `н` identities, and so do the kept sequences. */
  lemma {:induction false} KeptAgree(s: seq<Operation>)
    requires forall op | op in s :: !HasEn(op)
    ensures Where(s, OrderOperationKept) == Where(s, OperationKept)
  {
    if s != [] {
      var front := s[..|s| - 1];
      forall op | op in front ensures !HasEn(op) {
        assert op in s;
      }
      KeptAgree(front);
      assert s[|s| - 1] in s;
      OrderFilterDropsEnTest(s[|s| - 1]);
    }
  }

  /** Without `н` identities the order variant keeps the base export's operations. */
  lemma OrderKeptIsKept(operations: seq<Operation>)
    requires forall op | op in operations :: !HasEn(op)
    ensures OrderKept(operations) == Kept(operations)
  {
    SortByNopMembers(operations);
    forall op | op in SortByNop(operations) ensures !HasEn(op) {
    }
    KeptAgree(SortByNop(operations));
  }

  /** The lookups the record of a listed operation makes when its element has an order. */
  predicate RecordResolves(op: Operation, tables: Tables)
  {
    op.departmentId in tables.departments && op.equipmentClassId in tables.equipmentClasses
  }

  /** The lookups the method's callers guarantee, stated per position of the kept operations. */
  lemma OrderKeptLookups(operations: seq<Operation>, tables: Tables, entityOrders: map<string, set<string>>)
    requires forall op | op in operations && OrderOperationKept(op) :: op.routeId in tables.routes
    requires forall op | op in operations && OrderOperationKept(op) && Listed(op, tables.phases) ::
      tables.routes[op.routeId].entityId in tables.entities
    requires forall op | op in operations && OrderOperationKept(op) && Listed(op, tables.phases)
      && OrdersOf(entityOrders, AssemblyIdentity(tables, op.routeId)) != {} :: RecordResolves(op, tables)
    ensures forall k | 0 <= k < |OrderKept(operations)| :: OrderKept(operations)[k].routeId in tables.routes
    ensures forall k | 0 <= k < |OrderKept(operations)| && Listed(OrderKept(operations)[k], tables.phases) ::
      tables.routes[OrderKept(operations)[k].routeId].entityId in tables.entities
    ensures forall k | 0 <= k < |OrderKept(operations)| && Listed(OrderKept(operations)[k], tables.phases)
      && OrdersOf(entityOrders, AssemblyIdentity(tables, OrderKept(operations)[k].routeId)) != {} ::
      RecordResolves(OrderKept(operations)[k], tables)
  {
    var f := OrderKept(operations);
    SortByNopMembers(operations);
    WhereMembers(SortByNop(operations), OrderOperationKept);
    forall k | 0 <= k < |f| ensures f[k] in operations && OrderOperationKept(f[k]) {
      assert f[k] in f;
    }
  }

  /** The inner loop over the orders of the listed kept operation at `k`. */
  method EmitOrders(report: seq<CaOperationRecord>, f: seq<Operation>, k: nat, tables: Tables, p: string, priority: nat,
                    orders: seq<string>, ghost lists: string -> seq<string>)
    returns (report': seq<CaOperationRecord>)
    requires k < |f| && Listed(f[k], tables.phases)
    requires p == PhaseOf(tables.phases, f[k].id).value && priority == Priority(f, k)
    requires f[k].routeId in tables.routes && tables.routes[f[k].routeId].entityId in tables.entities
    requires orders == lists(AssemblyIdentity(tables, f[k].routeId))
    requires orders != [] ==> RecordResolves(f[k], tables)
    ensures report' == report + OrderBlock(f, k, tables, lists)
  {
    var row := f[k];
    var r := row.routeId;
    var entity := tables.entities[tables.routes[r].entityId].identity;
    var operationIdentity := p + "_" + LastPart(row.nop, '_');
    ghost var block := OrderBlock(f, k, tables, lists);
    report' := report;
    for j := 0 to |orders|
      invariant report' == report + block[..j]
    {
      assert block[..j + 1] == block[..j] + [block[j]];
      var order := orders[j];
      var name, number, identity;
      if row.setupTime != 0.0 {
        name := SetupName + row.name;
        number := row.nop + LatinH;
        identity := order + "_" + operationIdentity + SetupMark;
      } else if row.prepTime != 0.0 {
        name := PrepName + row.name;
        number := row.nop + PrepMark;
        identity := order + "_" + operationIdentity + PrepMark;
      } else {
        name := row.name;
        number := row.nop;
        identity := order + "_" + operationIdentity;
        assert identity == identity + "";
      }
      var department := tables.departments[row.departmentId];
      var equipmentClass := tables.equipmentClasses[row.equipmentClassId];
      var workCenter := if equipmentClass.name != ControlClass then equipmentClass.identity
        else RemoveChar(department.name, '-') + "777";
      report' := report' + [CaOperationRecord(
        identity, order + "_" + p, order + "_" + entity, department.identity, workCenter,
        order + "_" + tables.routes[r].identity, number, priority, name)];
    }
    assert block[..|orders|] == block;
  }

  /** `export_ca_operations` of the order variant, reading the registry's `entity_orders`. */
  method ExportCaOperationsWithOrders(registry: OrderRegistry, operations: seq<Operation>, tables: Tables)
    returns (report: seq<CaOperationRecord>)
    requires forall op | op in operations && OrderOperationKept(op) :: op.routeId in tables.routes
    requires forall op | op in operations && OrderOperationKept(op) && Listed(op, tables.phases) ::
      tables.routes[op.routeId].entityId in tables.entities
    requires forall op | op in operations && OrderOperationKept(op) && Listed(op, tables.phases)
      && OrdersOf(registry.entityOrders, AssemblyIdentity(tables, op.routeId)) != {} :: RecordResolves(op, tables)
    ensures report == OrderReport(OrderKept(operations), tables, OrderLists(registry.entityOrders))
  {
    var entityOrders := registry.entityOrders;
    OrderKeptLookups(operations, tables, entityOrders);
    report := OrderOperationsLoop(OrderKept(operations), tables, entityOrders);
  }

  /** The loop of the order variant's `export_ca_operations` over the kept operations `f`. */
  method OrderOperationsLoop(f: seq<Operation>, tables: Tables, entityOrders: map<string, set<string>>)
    returns (report: seq<CaOperationRecord>)
    requires forall k | 0 <= k < |f| :: f[k].routeId in tables.routes
    requires forall k | 0 <= k < |f| && Listed(f[k], tables.phases) :: tables.routes[f[k].routeId].entityId in tables.entities
    requires forall k | 0 <= k < |f| && Listed(f[k], tables.phases)
      && OrdersOf(entityOrders, AssemblyIdentity(tables, f[k].routeId)) != {} :: RecordResolves(f[k], tables)
    ensures report == OrderReport(f, tables, OrderLists(entityOrders))
  {
    ghost var lists := OrderLists(entityOrders);
    ghost var blocks := OrderBlocks(f, tables, lists);
    var priority: map<Id, nat> := map[];
    report := [];
    for i := 0 to |f|
      invariant priority == CountsAfter(f[..i])
      invariant report == Flatten(blocks[..i])
    {
      var row := f[i];
      var r := row.routeId;
      FlattenStep(blocks, i);
      CountsAfterStep(f, i);
      CountIsPriority(f, i);
      priority := CountOperation(priority, r);
      report := EmitOperation(report, f, i, tables, priority[r], entityOrders);
    }
    assert blocks[..|f|] == blocks;
  }

  /** One iteration of the loop: nothing for an operation that is not listed, else its orders' records. */
  method EmitOperation(report: seq<CaOperationRecord>, f: seq<Operation>, i: nat, tables: Tables, priority: nat,
                       entityOrders: map<string, set<string>>)
    returns (report': seq<CaOperationRecord>)
    requires i < |f| && priority == Priority(f, i) && f[i].routeId in tables.routes
    requires Listed(f[i], tables.phases) ==> tables.routes[f[i].routeId].entityId in tables.entities
    requires Listed(f[i], tables.phases) && OrdersOf(entityOrders, AssemblyIdentity(tables, f[i].routeId)) != {} ==>
      RecordResolves(f[i], tables)
    ensures report' == report + OrderBlock(f, i, tables, OrderLists(entityOrders))
  {
    var row := f[i];
    var entityId := tables.routes[row.routeId].entityId;
    var phase := Get(tables.phases, row.id);
    if '_' !in row.nop || phase.None? {
      assert OrderBlock(f, i, tables, OrderLists(entityOrders)) == [];
      return report;
    }
    var orders := OrderList(entityOrders, tables.entities[entityId].identity);
    report' := EmitOrders(report, f, i, tables, phase.value, priority, orders, OrderLists(entityOrders));
  }
}
