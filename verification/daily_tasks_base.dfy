/**
 * logic/iaimportexport.py `export_ca_daily_tasks`: each simulated task that
 * passes the base tests records its operation's assembly element; one dated
 * today or later adds the units it finishes to its (operation, date, slot)
 * bucket and, when its simulation equipment names a piece of equipment, to
 * that equipment's entry of the bucket. The buckets become records, the
 * previous snapshot is merged in, and the records are returned in order of
 * identity.
 */
module DailyTasksBase {
  import opened Wrappers
  import opened PyStr
  import opened Records
  import opened Classifier
  import opened DailyTasks
  import opened SimTasks

  /** The lookups of the equipment of a due task: the task's simulation equipment, and its equipment when named. */
  predicate EquipmentResolves(t: SimTask, tables: TaskTables)
  {
    && t.id in tables.taskEquipment
    && tables.taskEquipment[t.id] in tables.simEquipment
    && var se := tables.simEquipment[tables.taskEquipment[t.id]];
    && (se.equipmentId.Some? && se.equipmentId.value != 0 ==> se.equipmentId.value in tables.equipment)
  }

  /** Every lookup the loop makes for task `t`. */
  predicate BaseResolves(t: SimTask, tables: TaskTables, filter: DeptFilter, today: string)
  {
    GateResolves(t, tables, filter) && (BaseGate(t, tables, filter, today).Due? ==> EquipmentResolves(t, tables))
  }

  /**
   * `curr_eq`: the identity of the task's equipment when `equipment_id` is
   * set (neither null nor 0); counted only when that identity is not empty.
   */
  function BaseEquipment(t: SimTask, tables: TaskTables): (r: Option<string>)
    requires EquipmentResolves(t, tables)
    ensures r.Some? ==> r.value != ""
  {
    var se := tables.simEquipment[tables.taskEquipment[t.id]];
    if se.equipmentId.Some? && se.equipmentId.value != 0 && tables.equipment[se.equipmentId.value].identity != ""
    then Some(tables.equipment[se.equipmentId.value].identity)
    else None
  }

  /** What the base loop makes of one task. */
  function ClassifyBase(t: SimTask, tables: TaskTables, filter: DeptFilter, today: string): TaskView
    requires BaseResolves(t, tables, filter, today)
  {
    match BaseGate(t, tables, filter, today)
    case Skip => Dropped
    case Earlier(op, assembly) => Past(op, assembly)
    case Due(op, assembly) =>
      Current(None, op, assembly, t.date, SlotOf(t.hour), Delta(t.amount, t.startLabor, t.stopLabor), BaseEquipment(t, tables))
  }

  /** The tasks as the base loop sees them. */
  function BaseViews(tasks: seq<SimTask>, tables: TaskTables, filter: DeptFilter, today: string): (views: seq<TaskView>)
    requires forall t | t in tasks :: BaseResolves(t, tables, filter, today)
    ensures |views| == |tasks|
    ensures forall i | 0 <= i < |tasks| :: views[i] == ClassifyBase(tasks[i], tables, filter, today)
  {
    seq(|tasks|, i requires 0 <= i < |tasks| => ClassifyBase(tasks[i], tables, filter, today))
  }

  /** The base variant counts only tasks dated today or later, never under an order. */
  lemma BaseViewsUpcoming(tasks: seq<SimTask>, tables: TaskTables, filter: DeptFilter, today: string)
    requires forall t | t in tasks :: BaseResolves(t, tables, filter, today)
    ensures CountedUpcoming(BaseViews(tasks, tables, filter, today), today)
    ensures forall i | 0 <= i < |tasks| && BaseViews(tasks, tables, filter, today)[i].Current? ::
      BaseViews(tasks, tables, filter, today)[i].order.None?
  {
    var views := BaseViews(tasks, tables, filter, today);
    forall i | 0 <= i < |views| && views[i].Current? ensures !LexLt(views[i].date, today) {
      assert tasks[i] in tasks;
      BaseGateCases(tasks[i], tables, filter, today);
    }
  }

  /**
   * The base classification of a task: counted exactly when it passes every
   * test and is dated today or later, and then with the units it finishes
   * in the slot of its hour.
   */
  lemma ClassifyBaseCases(t: SimTask, tables: TaskTables, filter: DeptFilter, today: string)
    requires BaseResolves(t, tables, filter, today)
    ensures var op := tables.operations[t.operationId];
      ClassifyBase(t, tables, filter, today).Current? <==>
        DeptPasses(filter, DeptIdentity(tables, op.departmentId)) && OperationKept(op) && '_' in op.nop
        && !LexLt(t.date, today)
    ensures ClassifyBase(t, tables, filter, today).Current? ==>
      var v := ClassifyBase(t, tables, filter, today);
      v.date == t.date && v.slot == SlotOf(t.hour) && v.delta == Delta(t.amount, t.startLabor, t.stopLabor)
  {
    BaseGateCases(t, tables, filter, today);
  }

  /** The loop body up to the accumulation: each `continue` returns `Dropped`. */
  method ClassifyTask(t: SimTask, tables: TaskTables, filter: DeptFilter, today: string) returns (v: TaskView)
    requires BaseResolves(t, tables, filter, today)
    ensures v == ClassifyBase(t, tables, filter, today)
  {
    var g := GateTask(t, tables, filter, today);
    var slot := if t.hour >= 12 then Evening else Morning;
    match g
    case Skip =>
      return Dropped;
    case Earlier(operation, assembly) =>
      return Past(operation, assembly);
    case Due(operation, assembly) =>
      var delta := Delta(t.amount, t.startLabor, t.stopLabor);
      var se := tables.simEquipment[tables.taskEquipment[t.id]];
      var equipment: Option<string> := None;
      if se.equipmentId.Some? && se.equipmentId.value != 0 {
        var identity := tables.equipment[se.equipmentId.value].identity;
        if identity != "" {
          equipment := Some(identity);
        }
      }
      v := Current(None, operation, assembly, t.date, slot, delta, equipment);
  }

  /**
   * `export_ca_daily_tasks`: the tasks in the order of the query, the
   * previous snapshot (`None` when there is none), and today's date.
   */
  method ExportCaDailyTasks(tasks: seq<SimTask>, tables: TaskTables, filter: DeptFilter, today: string,
                            prior: Option<seq<DailyTask>>)
    returns (r: Result<seq<DailyTask>, DailyError>)
    requires forall t | t in tasks :: BaseResolves(t, tables, filter, today)
    ensures r == Output(Merged(TaskRecords(Aggregated(BaseViews(tasks, tables, filter, today)), false),
                               if prior.Some? then prior.value else [], today))
  {
    ghost var views := BaseViews(tasks, tables, filter, today);
    var aggregate := Aggregate(map[], map[], map[]);
    for i := 0 to |tasks|
      invariant aggregate == Aggregated(views[..i])
    {
      AggregatedStep(views, i);
      assert tasks[i] in tasks;
      var v := ClassifyTask(tasks[i], tables, filter, today);
      aggregate := Accumulate(aggregate, v);
    }
    assert views[..|tasks|] == views;
    var result := TaskRecords(aggregate, false);
    result := MergeSnapshot(result, prior, today);
    r := Output(result);
  }

  /** No record the base export returns is dated before today. */
  lemma ExportCaDailyTasksUpcoming(tasks: seq<SimTask>, tables: TaskTables, filter: DeptFilter, today: string,
                                   rows: seq<DailyTask>)
    requires forall t | t in tasks :: BaseResolves(t, tables, filter, today)
    ensures var out := Output(Merged(TaskRecords(Aggregated(BaseViews(tasks, tables, filter, today)), false), rows, today));
      out.Ok? ==> forall t | t in out.value :: !LexLt(t.dateBegin, today)
  {
    BaseViewsUpcoming(tasks, tables, filter, today);
    ExportUpcoming(BaseViews(tasks, tables, filter, today), rows, today, false);
  }
}
