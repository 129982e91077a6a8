/**
 * The simulated tasks the daily-task exports and `collect_orders_from_daily_tasks`
 * read (`simulation_operation_task` with the rows joined to it), and the
 * tests every one of those loops applies to a task before it looks at the
 * date: the department filters of the configuration, the operation filter,
 * the phase and `nop` that make up the operation identity, and the assembly
 * element.
 */
module SimTasks {
  import opened Wrappers
  import opened PyStr
  import opened Records
  import opened Classifier
  import opened DailyTasks

  /**
   * A row of `simulation_operation_task`. Its `start_date` is given as the
   * local date and hour it denotes three hours back, which is what the loops
   * compute from it.
   */
  datatype SimTask = SimTask(
    id: Id,
    operationId: Id,
    date: Date,
    hour: nat,
    amount: real,                // entity_amount
    startLabor: Option<real>,
    stopLabor: Option<real>,
    batchId: Id)                 // simulation_entity_batch_id

  /** A row of `simulation_equipment`; `equipment_id` may be null. */
  datatype SimEquipment = SimEquipment(equipmentId: Option<Id>, equipmentClassId: Id, departmentId: Id)

  /** The `list_to_dict` indexes the loops consult, and the phase table of the phase resolver. */
  datatype TaskTables = TaskTables(
    operations: map<Id, Operation>,
    routes: map<Id, Route>,
    entities: map<Id, Entity>,
    departments: map<Id, Department>,
    phases: map<Id, string>,
    taskEquipment: map<Id, Id>,        // simulation_operation_task_id -> simulation_equipment_id
    simEquipment: map<Id, SimEquipment>,
    equipment: map<Id, Equipment>,
    equipmentClasses: map<Id, EquipmentClass>,
    batches: set<Id>,                  // the simulation_entity_batch ids
    batchOrders: map<Id, Id>,          // simulation_entity_batch_id -> order_id
    orders: map<Id, string>)           // order id -> name

  /** `config['skip_dept']` and `config['only_dept']`, each `None` or a list of department identities. */
  datatype DeptFilter = DeptFilter(skip: Option<seq<string>>, only: Option<seq<string>>)

  /** Whether a department identity gets past both filters. */
  predicate DeptPasses(filter: DeptFilter, dept: string)
  {
    (filter.skip.None? || dept !in filter.skip.value) && (filter.only.None? || dept in filter.only.value)
  }

  /** `department_dict[id]['identity']`; read only when a filter is set, which then requires the department. */
  function DeptIdentity(tables: TaskTables, id: Id): string
  {
    if id in tables.departments then tables.departments[id].identity else ""
  }

  /** What the tests before the date test make of a task. */
  datatype Gate =
    | Skip
    | Earlier(op: string, assembly: string)  // dated before today
    | Due(op: string, assembly: string)      // dated today or later

  /**
   * The lookups the base loop makes up to the date test, each only where the
   * loop reaches it; a missing key raises `KeyError`.
   */
  predicate GateResolves(t: SimTask, tables: TaskTables, filter: DeptFilter)
  {
    && t.operationId in tables.operations
    && var op := tables.operations[t.operationId];
    && ((filter.skip.Some? || filter.only.Some?) ==> op.departmentId in tables.departments)
    && (DeptPasses(filter, DeptIdentity(tables, op.departmentId)) && OperationKept(op) ==>
          op.routeId in tables.routes
          && ('_' in op.nop ==> tables.routes[op.routeId].entityId in tables.entities))
  }

  /** `nop.split('_')[1]`: the part after the first `_`. */
  function SecondPart(nop: string): (r: string)
    requires '_' in nop
    ensures '_' !in r
  {
    SplitCount(nop, '_');
    SplitPartsFree(nop, '_');
    Split(nop, '_')[1]
  }

  /** `'{}_{}'.format(phase_identity, nop.split('_')[1])`. */
  function BaseOperationIdentity(phase: Option<string>, nop: string): (id: string)
    requires '_' in nop
  {
    Show(phase) + "_" + SecondPart(nop)
  }

  /**
   * The base tests in the loop's order: the department filters, the six
   * operation tests, the `IndexError` of a `nop` without `_`, then the date.
   */
  function BaseGate(t: SimTask, tables: TaskTables, filter: DeptFilter, today: string): Gate
    requires GateResolves(t, tables, filter)
  {
    var op := tables.operations[t.operationId];
    if !DeptPasses(filter, DeptIdentity(tables, op.departmentId)) || !OperationKept(op) || '_' !in op.nop then Skip
    else
      var id := BaseOperationIdentity(PhaseOf(tables.phases, t.operationId), op.nop);
      var assembly := tables.entities[tables.routes[op.routeId].entityId].identity;
      if LexLt(t.date, today) then Earlier(id, assembly) else Due(id, assembly)
  }

  /**
   * A task gets past the tests exactly when its department passes both
   * filters, its operation passes the six tests and its `nop` holds `_`; it is
   * due exactly when it also is dated today or later.
   */
  lemma BaseGateCases(t: SimTask, tables: TaskTables, filter: DeptFilter, today: string)
    requires GateResolves(t, tables, filter)
    ensures var op := tables.operations[t.operationId];
      BaseGate(t, tables, filter, today).Skip? <==>
        !DeptPasses(filter, DeptIdentity(tables, op.departmentId)) || !OperationKept(op) || '_' !in op.nop
    ensures BaseGate(t, tables, filter, today).Due? <==>
      !BaseGate(t, tables, filter, today).Skip? && !LexLt(t.date, today)
    ensures !BaseGate(t, tables, filter, today).Skip? ==>
      var op := tables.operations[t.operationId];
      var g := BaseGate(t, tables, filter, today);
      && op.routeId in tables.routes && tables.routes[op.routeId].entityId in tables.entities
      && g.assembly == tables.entities[tables.routes[op.routeId].entityId].identity
      && Take(g.op, |Show(PhaseOf(tables.phases, t.operationId))|) == Show(PhaseOf(tables.phases, t.operationId))
      && '_' !in Drop(g.op, |Show(PhaseOf(tables.phases, t.operationId))| + 1)
  {
    var op := tables.operations[t.operationId];
    var g := BaseGate(t, tables, filter, today);
    if !g.Skip? {
      JoinedParts(Show(PhaseOf(tables.phases, t.operationId)), SecondPart(op.nop));
    }
  }

  /** The phase and the `nop` part read back from the identity they are joined into. */
  lemma JoinedParts(p: string, rest: string)
    requires '_' !in rest
    ensures Take(p + "_" + rest, |p|) == p && '_' !in Drop(p + "_" + rest, |p| + 1)
  {
    var s := p + "_" + rest;
    assert s[..|p|] == p;
    assert s[|p| + 1..] == rest;
  }

  /** The gate, case by case, with every lookup it makes. */
  lemma BaseGateUnfold(t: SimTask, tables: TaskTables, filter: DeptFilter, today: string)
    requires GateResolves(t, tables, filter)
    ensures var op := tables.operations[t.operationId];
      !(DeptPasses(filter, DeptIdentity(tables, op.departmentId)) && OperationKept(op) && '_' in op.nop) ==>
        BaseGate(t, tables, filter, today) == Skip
    ensures var op := tables.operations[t.operationId];
      DeptPasses(filter, DeptIdentity(tables, op.departmentId)) && OperationKept(op) ==> op.routeId in tables.routes
    ensures var op := tables.operations[t.operationId];
      DeptPasses(filter, DeptIdentity(tables, op.departmentId)) && OperationKept(op) && '_' in op.nop ==>
        && tables.routes[op.routeId].entityId in tables.entities
        && var id := BaseOperationIdentity(PhaseOf(tables.phases, t.operationId), op.nop);
        && var assembly := tables.entities[tables.routes[op.routeId].entityId].identity;
        && BaseGate(t, tables, filter, today) == if LexLt(t.date, today) then Earlier(id, assembly) else Due(id, assembly)
  {
  }

  /** The loop body up to the date test: each `continue` before it gives `Skip`. */
  method GateTask(t: SimTask, tables: TaskTables, filter: DeptFilter, today: string) returns (g: Gate)
    requires GateResolves(t, tables, filter)
    ensures g == BaseGate(t, tables, filter, today)
  {
    BaseGateUnfold(t, tables, filter, today);
    var op := tables.operations[t.operationId];
    var nop := op.nop;
    if filter.skip.Some? && tables.departments[op.departmentId].identity in filter.skip.value {
      return Skip;
    }
    if filter.only.Some? && tables.departments[op.departmentId].identity !in filter.only.value {
      return Skip;
    }
    if EndsWithTse(op) || NopEndsWithOne(op) || EndsWithCyrEmEn(op) || EndsWithLatinMH(op) || HasEn(op) || HasEs(op) {
      return Skip;
    }
    assert DeptPasses(filter, DeptIdentity(tables, op.departmentId)) && OperationKept(op);
    var entityId := tables.routes[op.routeId].entityId;
    var phase := Get(tables.phases, t.operationId);
    var parts := Split(nop, '_');
    SplitCount(nop, '_');
    if |parts| < 2 {
      return Skip;
    }
    var operation := Show(phase) + "_" + parts[1];
    var assembly := tables.entities[entityId].identity;
    if LexLt(t.date, today) {
      return Earlier(operation, assembly);
    }
    g := Due(operation, assembly);
  }
}
