/**
 * logic/iaimportexport_with_orders.py `export_ca_daily_tasks`: the daily
 * tasks of the order variant. A task passes the department filters and the
 * order variant's five operation tests; its order key is read next, then the
 * operation identity, whose last `nop` part carries the setup or preparation
 * suffix. A task dated today or later counts under its order; its equipment
 * is named after its equipment class (a manual class by the class itself, an
 * inspection class by its department) or else after its equipment. Records
 * of a setup or preparation operation have quantity 1.
 */
module DailyTasksOrders {
  import opened Wrappers
  import opened PyStr
  import opened Records
  import opened Classifier
  import opened DailyTasks
  import opened SimTasks
  import opened Orders

  /** The suffix of the operation identity: `Н` for a setup, `ПЗ` for a preparation, nothing otherwise. */
  function Suffix(op: Operation): string
  {
    if op.setupTime != 0.0 then SetupMark else if op.prepTime != 0.0 then PrepMark else ""
  }

  /** `'{}_{}Н'`, `'{}_{}ПЗ'` or `'{}_{}'` of the phase and `nop.split('_')[-1]`. */
  function OrderOperationIdentity(phase: Option<string>, op: Operation): string
  {
    Show(phase) + "_" + LastPart(op.nop, '_') + Suffix(op)
  }

  /** A setup or preparation operation's identity passes the order variant's quantity test. */
  lemma SuffixMarks(phase: Option<string>, op: Operation)
    requires op.setupTime != 0.0 || op.prepTime != 0.0
    ensures Marked(OrderOperationIdentity(phase, op))
  {
    var id := OrderOperationIdentity(phase, op);
    var mark := Suffix(op);
    assert id == Show(phase) + "_" + LastPart(op.nop, '_') + mark;
    assert id[|id| - |mark|..] == mark;
    EndsWithHasSubstring(id, mark);
  }

  /**
   * For a `nop` with exactly one `_` and an operation with neither setup nor
   * preparation time, both variants name the operation alike.
   */
  lemma IdentitiesAgree(phase: Option<string>, op: Operation)
    requires |Split(op.nop, '_')| == 2
    requires op.setupTime == 0.0 && op.prepTime == 0.0
    ensures '_' in op.nop
    ensures OrderOperationIdentity(phase, op) == BaseOperationIdentity(phase, op.nop)
  {
    SplitCount(op.nop, '_');
    assert OrderOperationIdentity(phase, op) == Show(phase) + "_" + LastPart(op.nop, '_') + "";
  }

  /**
   * The lookups the loop makes up to the date test: the operation, the
   * department when a filter is set, and for a kept operation its route,
   * entity and order.
   */
  predicate OrderGateResolves(t: SimTask, tables: TaskTables, filter: DeptFilter)
  {
    && t.operationId in tables.operations
    && var op := tables.operations[t.operationId];
    && ((filter.skip.Some? || filter.only.Some?) ==> op.departmentId in tables.departments)
    && (DeptPasses(filter, DeptIdentity(tables, op.departmentId)) && OrderOperationKept(op) ==>
          && op.routeId in tables.routes
          && tables.routes[op.routeId].entityId in tables.entities
          && OrderResolves(t, tables))
  }

  /** The order variant's tests in the loop's order: the department filters, the five operation tests, then the date. */
  function OrderGate(t: SimTask, tables: TaskTables, filter: DeptFilter, today: string): Gate
    requires OrderGateResolves(t, tables, filter)
  {
    var op := tables.operations[t.operationId];
    if !DeptPasses(filter, DeptIdentity(tables, op.departmentId)) || !OrderOperationKept(op) then Skip
    else
      var id := OrderOperationIdentity(PhaseOf(tables.phases, t.operationId), op);
      var assembly := tables.entities[tables.routes[op.routeId].entityId].identity;
      if LexLt(t.date, today) then Earlier(id, assembly) else Due(id, assembly)
  }

  /**
   * A task gets past the order variant's tests exactly when its department
   * passes both filters and its operation the five tests, whatever its
   * `nop`; it is due exactly when it is also dated today or later.
   */
  lemma OrderGateCases(t: SimTask, tables: TaskTables, filter: DeptFilter, today: string)
    requires OrderGateResolves(t, tables, filter)
    ensures var op := tables.operations[t.operationId];
      OrderGate(t, tables, filter, today).Skip? <==>
        !DeptPasses(filter, DeptIdentity(tables, op.departmentId)) || !OrderOperationKept(op)
    ensures OrderGate(t, tables, filter, today).Due? <==>
      !OrderGate(t, tables, filter, today).Skip? && !LexLt(t.date, today)
    ensures !OrderGate(t, tables, filter, today).Skip? ==>
      var op := tables.operations[t.operationId];
      && OrderResolves(t, tables)
      && OrderGate(t, tables, filter, today).op == OrderOperationIdentity(PhaseOf(tables.phases, t.operationId), op)
      && OrderGate(t, tables, filter, today).assembly == tables.entities[tables.routes[op.routeId].entityId].identity
  {
  }

  /** The gate, case by case, with every lookup it makes. */
  lemma OrderGateUnfold(t: SimTask, tables: TaskTables, filter: DeptFilter, today: string)
    requires OrderGateResolves(t, tables, filter)
    ensures var op := tables.operations[t.operationId];
      !(DeptPasses(filter, DeptIdentity(tables, op.departmentId)) && OrderOperationKept(op)) ==>
        OrderGate(t, tables, filter, today) == Skip
    ensures var op := tables.operations[t.operationId];
      DeptPasses(filter, DeptIdentity(tables, op.departmentId)) && OrderOperationKept(op) ==>
        && op.routeId in tables.routes && tables.routes[op.routeId].entityId in tables.entities && OrderResolves(t, tables)
        && var id := OrderOperationIdentity(PhaseOf(tables.phases, t.operationId), op);
        && var assembly := tables.entities[tables.routes[op.routeId].entityId].identity;
        && OrderGate(t, tables, filter, today) == if LexLt(t.date, today) then Earlier(id, assembly) else Due(id, assembly)
  {
  }

  /** The loop body up to the date test; the order key is read before the phase. */
  method GateOrderTask(t: SimTask, tables: TaskTables, filter: DeptFilter, today: string) returns (g: Gate, order: OrderKey)
    requires OrderGateResolves(t, tables, filter)
    ensures g == OrderGate(t, tables, filter, today)
    ensures !g.Skip? ==> OrderResolves(t, tables) && order == TaskOrder(t, tables)
  {
    OrderGateUnfold(t, tables, filter, today);
    order := "";
    var op := tables.operations[t.operationId];
    var nop := op.nop;
    if filter.skip.Some? && tables.departments[op.departmentId].identity in filter.skip.value {
      return Skip, order;
    }
    if filter.only.Some? && tables.departments[op.departmentId].identity !in filter.only.value {
      return Skip, order;
    }
    if EndsWithTse(op) || NopEndsWithOne(op) || EndsWithCyrEmEn(op) || EndsWithLatinMH(op) || HasEs(op) {
      return Skip, order;
    }
    var entityId := tables.routes[op.routeId].entityId;
    order := OrderKeyOf(tables.orders[tables.batchOrders[t.batchId]]);
    var phase := Get(tables.phases, t.operationId);
    var operation: string;
    if op.setupTime != 0.0 {
      operation := Show(phase) + "_" + LastPart(nop, '_') + SetupMark;
    } else if op.prepTime != 0.0 {
      operation := Show(phase) + "_" + LastPart(nop, '_') + PrepMark;
    } else {
      operation := Show(phase) + "_" + LastPart(nop, '_');
      assert operation == operation + "";
    }
    assert operation == OrderOperationIdentity(phase, op);
    var assembly := tables.entities[entityId].identity;
    if LexLt(t.date, today) {
      return Earlier(operation, assembly), order;
    }
    g := Due(operation, assembly);
  }

  /**
   * The lookups of a due task's equipment: its simulation equipment and that
   * row's class, then the department for an inspection class, or the
   * equipment, when set, for any class but a manual one.
   */
  predicate OrderEquipmentResolves(t: SimTask, tables: TaskTables)
  {
    && t.id in tables.taskEquipment
    && tables.taskEquipment[t.id] in tables.simEquipment
    && var se := tables.simEquipment[tables.taskEquipment[t.id]];
    && se.equipmentClassId in tables.equipmentClasses
    && var wc := tables.equipmentClasses[se.equipmentClassId];
    && (wc.name != ManualClass && wc.name == ControlClass ==> se.departmentId in tables.departments)
    && (wc.name != ManualClass && wc.name != ControlClass && se.equipmentId.Some? && se.equipmentId.value != 0 ==>
          se.equipmentId.value in tables.equipment)
  }

  /** Every lookup the order variant's loop makes for task `t`. */
  predicate OrderTaskResolves(t: SimTask, tables: TaskTables, filter: DeptFilter, today: string)
  {
    OrderGateResolves(t, tables, filter) && (OrderGate(t, tables, filter, today).Due? ==> OrderEquipmentResolves(t, tables))
  }

  /**
   * `curr_eq`: a manual class names itself, an inspection class its
   * department's work centre, any other class the equipment when set; only a
   * non-empty name is counted.
   */
  function OrderEquipment(t: SimTask, tables: TaskTables): (r: Option<string>)
    requires OrderEquipmentResolves(t, tables)
    ensures r.Some? ==> r.value != ""
  {
    var se := tables.simEquipment[tables.taskEquipment[t.id]];
    var wc := tables.equipmentClasses[se.equipmentClassId];
    if wc.name == ManualClass then (if wc.identity != "" then Some(wc.identity) else None)
    else if wc.name == ControlClass then Some(ControlCentre(tables.departments[se.departmentId].name))
    else if se.equipmentId.Some? && se.equipmentId.value != 0 && tables.equipment[se.equipmentId.value].identity != ""
    then Some(tables.equipment[se.equipmentId.value].identity)
    else None
  }

  /** An inspection class is always counted, under a work centre of its department ending in `777`. */
  lemma ControlAlwaysCounted(t: SimTask, tables: TaskTables)
    requires OrderEquipmentResolves(t, tables)
    requires tables.equipmentClasses[tables.simEquipment[tables.taskEquipment[t.id]].equipmentClassId].name == ControlClass
    ensures OrderEquipment(t, tables).Some?
    ensures var r := OrderEquipment(t, tables).value; r[|r| - 3..] == "777"
  {
    assert ControlClass != ManualClass by {
      assert ControlClass[0] != ManualClass[0];
    }
  }

  /** What the order variant's loop makes of one task. */
  function ClassifyOrder(t: SimTask, tables: TaskTables, filter: DeptFilter, today: string): TaskView
    requires OrderTaskResolves(t, tables, filter, today)
  {
    match OrderGate(t, tables, filter, today)
    case Skip => Dropped
    case Earlier(op, assembly) => Past(op, assembly)
    case Due(op, assembly) =>
      Current(Some(TaskOrder(t, tables)), op, assembly, t.date, SlotOf(t.hour),
              Delta(t.amount, t.startLabor, t.stopLabor), OrderEquipment(t, tables))
  }

  /** The tasks as the order variant's loop sees them. */
  function OrderViews(tasks: seq<SimTask>, tables: TaskTables, filter: DeptFilter, today: string): (views: seq<TaskView>)
    requires forall i | 0 <= i < |tasks| :: OrderTaskResolves(tasks[i], tables, filter, today)
    ensures |views| == |tasks|
    ensures forall i | 0 <= i < |tasks| :: views[i] == ClassifyOrder(tasks[i], tables, filter, today)
  {
    seq(|tasks|, i requires 0 <= i < |tasks| => ClassifyOrder(tasks[i], tables, filter, today))
  }

  /**
   * The order variant counts a task exactly when it passes the tests and is
   * dated today or later, and then under its batch's order key.
   */
  lemma ClassifyOrderCases(t: SimTask, tables: TaskTables, filter: DeptFilter, today: string)
    requires OrderTaskResolves(t, tables, filter, today)
    ensures var op := tables.operations[t.operationId];
      ClassifyOrder(t, tables, filter, today).Current? <==>
        DeptPasses(filter, DeptIdentity(tables, op.departmentId)) && OrderOperationKept(op) && !LexLt(t.date, today)
    ensures ClassifyOrder(t, tables, filter, today).Current? ==>
      var v := ClassifyOrder(t, tables, filter, today);
      OrderResolves(t, tables) && v.order == Some(TaskOrder(t, tables)) && v.date == t.date && v.slot == SlotOf(t.hour)
  {
    OrderGateCases(t, tables, filter, today);
  }

  /** The order variant counts only tasks dated today or later, each under an order. */
  lemma OrderViewsUpcoming(tasks: seq<SimTask>, tables: TaskTables, filter: DeptFilter, today: string)
    requires forall i | 0 <= i < |tasks| :: OrderTaskResolves(tasks[i], tables, filter, today)
    ensures CountedUpcoming(OrderViews(tasks, tables, filter, today), today)
    ensures forall i | 0 <= i < |tasks| && OrderViews(tasks, tables, filter, today)[i].Current? ::
      OrderViews(tasks, tables, filter, today)[i].order.Some?
  {
    var views := OrderViews(tasks, tables, filter, today);
    forall i | 0 <= i < |views| && views[i].Current? ensures !LexLt(views[i].date, today) && views[i].order.Some? {
      ClassifyOrderCases(tasks[i], tables, filter, today);
    }
  }

  /** The loop body up to the accumulation: each `continue` returns `Dropped`. */
  method ClassifyOrderTask(t: SimTask, tables: TaskTables, filter: DeptFilter, today: string) returns (v: TaskView)
    requires OrderTaskResolves(t, tables, filter, today)
    ensures v == ClassifyOrder(t, tables, filter, today)
  {
    OrderGateCases(t, tables, filter, today);
    var g, order := GateOrderTask(t, tables, filter, today);
    var slot := if t.hour >= 12 then Evening else Morning;
    match g
    case Skip =>
      return Dropped;
    case Earlier(operation, assembly) =>
      return Past(operation, assembly);
    case Due(operation, assembly) =>
      var delta := Delta(t.amount, t.startLabor, t.stopLabor);
      var se := tables.simEquipment[tables.taskEquipment[t.id]];
      var wc := tables.equipmentClasses[se.equipmentClassId];
      var equipment: Option<string>;
      if wc.name == ManualClass {
        equipment := if wc.identity != "" then Some(wc.identity) else None;
      } else if wc.name == ControlClass {
        var dept := tables.departments[se.departmentId];
        equipment := Some(RemoveChar(dept.name, '-') + "777");
      } else if se.equipmentId.Some? && se.equipmentId.value != 0 {
        var identity := tables.equipment[se.equipmentId.value].identity;
        equipment := if identity != "" then Some(identity) else None;
      } else {
        equipment := None;
      }
      v := Current(Some(order), operation, assembly, t.date, slot, delta, equipment);
  }

  /**
   * `export_ca_daily_tasks` of the order variant: the tasks in the order of
   * the query, the previous snapshot (`None` when there is none), and
   * today's date.
   */
  method ExportCaDailyTasksWithOrders(tasks: seq<SimTask>, tables: TaskTables, filter: DeptFilter, today: string,
                                      prior: Option<seq<DailyTask>>)
    returns (r: Result<seq<DailyTask>, DailyError>)
    requires forall i | 0 <= i < |tasks| :: OrderTaskResolves(tasks[i], tables, filter, today)
    ensures r == Output(Merged(TaskRecords(Aggregated(OrderViews(tasks, tables, filter, today)), true),
                               if prior.Some? then prior.value else [], today))
  {
    ghost var views := OrderViews(tasks, tables, filter, today);
    var aggregate := Aggregate(map[], map[], map[]);
    for i := 0 to |tasks|
      invariant aggregate == Aggregated(views[..i])
    {
      AggregatedStep(views, i);
      var v := ClassifyOrderTask(tasks[i], tables, filter, today);
      aggregate := Accumulate(aggregate, v);
    }
    assert views[..|tasks|] == views;
    var result := TaskRecords(aggregate, true);
    result := MergeSnapshot(result, prior, today);
    r := Output(result);
  }

  /** No record the order variant returns is dated before today. */
  lemma ExportCaDailyTasksWithOrdersUpcoming(tasks: seq<SimTask>, tables: TaskTables, filter: DeptFilter, today: string,
                                             rows: seq<DailyTask>)
    requires forall i | 0 <= i < |tasks| :: OrderTaskResolves(tasks[i], tables, filter, today)
    ensures var out := Output(Merged(TaskRecords(Aggregated(OrderViews(tasks, tables, filter, today)), true), rows, today));
      out.Ok? ==> forall t | t in out.value :: !LexLt(t.dateBegin, today)
  {
    OrderViewsUpcoming(tasks, tables, filter, today);
    ExportUpcoming(OrderViews(tasks, tables, filter, today), rows, today, true);
  }

  /**
   * The record of a counted bucket whose operation is marked has quantity 1
   * and every equipment quantity 1, whatever the tasks add up to; an unmarked
   * one has the tasks' total.
   */
  lemma MarkedRecordsCountOne(views: seq<TaskView>, b: Bucket)
    requires b in Aggregated(views).quantities
    ensures Marked(b.op) ==> RecordOf(Aggregated(views), b, true).quantityPlan == 1
    ensures Marked(b.op) ==> forall q | q in RecordOf(Aggregated(views), b, true).equipments.value :: q.quantity == 1
    ensures !Marked(b.op) ==> RecordOf(Aggregated(views), b, true).quantityPlan == Total(views, b)
  {
    AggregatedQuantities(views, b);
    var a := Aggregated(views);
    var c := Cell(b.op, b.date, b.slot);
    if Marked(b.op) && c in a.equipment {
      var eqs := EquipmentList(a.equipment[c], true);
      forall q | q in eqs ensures q.quantity == 1 {
        var i :| 0 <= i < |eqs| && eqs[i] == q;
      }
    }
  }
}
