/**
 * The reference-table rows the exports read, with the fields they use. Ids are
 * the integer primary keys of the REST collections; a nullable foreign key is
 * an `Option<Id>`. A lookup table built with `list_to_dict` is passed as a
 * `map<Id, ...>`.
 */
module Records {
  import opened Wrappers
  import opened Sorting

  type Id = int

  /** A row of `operation`. */
  datatype Operation = Operation(
    id: Id,
    routeId: Id,           // entity_route_id
    nop: string,           // the route-local sequence number, compared as a string
    identity: string,
    name: string,
    departmentId: Id,
    equipmentClassId: Id,
    phaseLink: Option<Id>, // entity_route_phase_id, null for an operation without a phase
    setupTime: real,
    prepTime: real)

  /** A row of `entity_route`; `alternate` is false for an entity's main route. */
  datatype Route = Route(id: Id, entityId: Id, identity: string, alternate: bool)

  /** A row of `entity_route_phase`. */
  datatype RoutePhase = RoutePhase(id: Id, identity: string)

  /** A row of `department`. */
  datatype Department = Department(id: Id, identity: string, name: string)

  /** A row of `entity`. */
  datatype Entity = Entity(id: Id, identity: string, name: string)

  /** A row of `equipment_class`. */
  datatype EquipmentClass = EquipmentClass(id: Id, identity: string, name: string)

  /** A row of `equipment`. */
  datatype Equipment = Equipment(id: Id, identity: string, name: string, equipmentClassId: Id, departmentId: Id)

  /** A row of `entity_batch` (work in progress). */
  datatype Batch = Batch(
    identity: string,
    entityId: Id,
    operationId: Option<Id>,
    operationProgress: real,
    amount: real,
    snapshotId: Option<Id>)  // entity_batch_snapshot_id

  /** The sort key `lambda k: k['nop']`. */
  function NopKey(op: Operation): SortKey
  {
    SortKey(0, op.nop)
  }

  /** The sort key `lambda k: (k['entity_route_id'], k['nop'])`. */
  function RouteNopKey(op: Operation): SortKey
  {
    SortKey(op.routeId, op.nop)
  }

  /** `sorted(operations, key=lambda k: k['nop'])`. */
  function SortByNop(ops: seq<Operation>): (r: seq<Operation>)
    ensures |r| == |ops|
  {
    SortBy(ops, NopKey)
  }

  /** The sort returns the same operations. */
  lemma SortByNopMembers(ops: seq<Operation>)
    ensures multiset(SortByNop(ops)) == multiset(ops)
    ensures forall op :: op in SortByNop(ops) <==> op in ops
  {
    SortByPermutes(ops, NopKey);
    forall op ensures op in SortByNop(ops) <==> op in ops {
      assert op in SortByNop(ops) <==> op in multiset(SortByNop(ops));
      assert op in ops <==> op in multiset(ops);
    }
  }

  /**
   * The lookup tables an export consults: the phase table of the phase
   * resolver and the `list_to_dict` indexes of the reference collections.
   */
  datatype Tables = Tables(
    phases: map<Id, string>,
    routes: map<Id, Route>,
    entities: map<Id, Entity>,
    departments: map<Id, Department>,
    equipmentClasses: map<Id, EquipmentClass>)

  /**
   * `departments_dict[id]['identity']`. The exports require the department
   * to exist (the source raises `KeyError`); the empty string is never read.
   */
  function DepartmentIdentity(tables: Tables, id: Id): string
  {
    if id in tables.departments then tables.departments[id].identity else ""
  }

  /** `entity_dict[entity_routes_dict[route]['entity_id']]['identity']`, under the same proviso. */
  function AssemblyIdentity(tables: Tables, routeId: Id): string
  {
    if routeId in tables.routes && tables.routes[routeId].entityId in tables.entities
    then tables.entities[tables.routes[routeId].entityId].identity else ""
  }

  /** `entity_routes_dict[route]['identity']`, under the same proviso. */
  function RouteIdentity(tables: Tables, routeId: Id): string
  {
    if routeId in tables.routes then tables.routes[routeId].identity else ""
  }

  /** The id of an operation, its key in `list_to_dict(operations)`. */
  function OperationId(op: Operation): Id
  {
    op.id
  }

  /** The phase the phase table gives an operation id, `None` when it has none. */
  function PhaseOf(phases: map<Id, string>, opId: Id): (r: Option<string>)
    ensures r.Some? <==> opId in phases
  {
    Get(phases, opId)
  }
}
