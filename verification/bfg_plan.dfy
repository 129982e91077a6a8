/**
 * logic/iaimportexport.py `export_bfg_plan`: the operations without `н` that
 * have a phase are grouped by phase, each group in `nop` order; a simulated
 * task counts when its operation is the group's operation at index
 * `export_type` (Python indexing) of its phase, and it adds its finished
 * amount to its phase and date, the date being the task's start (export type
 * 0) or stop date, or today when that is earlier. The records list the
 * phases in the order first counted, and within a phase the dates in the
 * order first counted.
 */
module BfgPlan {
  import opened Wrappers
  import opened PyStr
  import opened PyDict
  import opened Sorting
  import opened Records
  import opened Classifier
  import opened RouteWalk
  import opened DailyTasks
  import opened Grouping
  import Orders

  /** A simulated task of the plan: its start and stop dates are the local dates three hours back. */
  datatype PlanTask = PlanTask(
    operationId: Id,
    startDate: Date,
    stopDate: Date,
    amount: real,                // entity_amount
    startLabor: Option<real>,
    stopLabor: Option<real>)

  /** A record of the plan; `quantity` is written under the caller's `qty_column`. */
  datatype PlanRecord = PlanRecord(identity: string, transition: string, date: Date, quantity: real)

  /** Whether an operation goes into the group of phase `p`: no `н` in its identity, and phase `p`. */
  function InPhase(phases: map<Id, string>, p: string): Operation -> bool
  {
    op => !HasEn(op) && PhaseOf(phases, op.id) == Some(p)
  }

  /** `operations_list[p]`: the group of phase `p`, taken in (route, `nop`) order and then sorted by `nop`. */
  function PhaseList(operations: seq<Operation>, phases: map<Id, string>, p: string): seq<Operation>
  {
    SortByNop(Where(SortBy(operations, RouteNopKey), InPhase(phases, p)))
  }

  /** `s[i]` with Python's indexing: a negative index counts from the end; `None` for `IndexError`. */
  function PyIndex<T>(s: seq<T>, i: int): (r: Option<T>)
    ensures r.Some? <==> -|s| <= i < |s|
    ensures 0 <= i < |s| ==> r == Some(s[i])
    ensures -|s| <= i < 0 ==> r == Some(s[|s| + i])
  {
    if 0 <= i < |s| then Some(s[i]) else if -|s| <= i < 0 then Some(s[|s| + i]) else None
  }

  /** `max(task_date, today)` as a date: dates compare as their `YYYY-MM-DD` text. */
  function PlanDate(date: Date, today: Date): (r: Date)
    ensures r == date || r == today
    ensures !LexLt(r, today)
    ensures !LexLt(r, date)
  {
    if LexLt(date, today) then
      assert LexLe(today, date) ==> today == date by {
        if LexLe(today, date) {
          LexAntisym(date, today);
        }
      }
      today
    else date
  }

  /** `entity_amount * ((stop_labor or 1) - (start_labor or 0))`. */
  function PlanQuantity(t: PlanTask): real
  {
    t.amount * (Or(t.stopLabor, 1.0) - Or(t.startLabor, 0.0))
  }

  /** What a task adds: its phase, date and quantity. */
  datatype Entry = Entry(phase: string, date: Date, quantity: real)

  /** A task's entry, `None` when it is skipped. */
  function PlanEntry(t: PlanTask, lists: string -> seq<Operation>, phases: map<Id, string>, exportType: int, today: Date)
    : Option<Entry>
  {
    var phase := PhaseOf(phases, t.operationId);
    if phase.None? then None
    else
      var op := PyIndex(lists(phase.value), exportType);
      if op.None? || op.value.id != t.operationId then None
      else Some(Entry(phase.value, PlanDate(if exportType == 0 then t.startDate else t.stopDate, today), PlanQuantity(t)))
  }

  /** The entries of the tasks in order. */
  function PlanEntries(tasks: seq<PlanTask>, lists: string -> seq<Operation>, phases: map<Id, string>, exportType: int,
                       today: Date): (r: seq<Option<Entry>>)
    ensures |r| == |tasks|
    ensures forall i | 0 <= i < |tasks| :: r[i] == PlanEntry(tasks[i], lists, phases, exportType, today)
  {
    seq(|tasks|, i requires 0 <= i < |tasks| => PlanEntry(tasks[i], lists, phases, exportType, today))
  }

  /** The phase groups the export reads: `PhaseList` of each phase. */
  function PhaseLists(operations: seq<Operation>, phases: map<Id, string>): string -> seq<Operation>
  {
    p => PhaseList(operations, phases, p)
  }

  /**
   * A counted task of export type 0 is at the lowest `nop` of its phase: no
   * operation of its group has a lower one.
   */
  lemma FirstTypeIsLowestNop(t: PlanTask, operations: seq<Operation>, phases: map<Id, string>, today: Date)
    requires PlanEntry(t, PhaseLists(operations, phases), phases, 0, today).Some?
    ensures var p := PhaseOf(phases, t.operationId).value;
      var group := PhaseList(operations, phases, p);
      |group| > 0 && group[0].id == t.operationId
      && forall op | op in group :: LexLe(group[0].nop, op.nop)
  {
    var p := PhaseOf(phases, t.operationId).value;
    var group := PhaseList(operations, phases, p);
    SortBySorted(Where(SortBy(operations, RouteNopKey), InPhase(phases, p)), NopKey);
    forall op | op in group ensures LexLe(group[0].nop, op.nop) {
      var j :| 0 <= j < |group| && group[j] == op;
      if j == 0 {
        LexRefl(op.nop);
      } else {
        assert KeyLe(NopKey(group[0]), NopKey(group[j]));
      }
    }
  }

  /** Every operation of a group has its phase and no `н`. */
  lemma PhaseListMembers(operations: seq<Operation>, phases: map<Id, string>, p: string)
    ensures forall op | op in PhaseList(operations, phases, p) ::
      op in operations && !HasEn(op) && PhaseOf(phases, op.id) == Some(p)
  {
    var sorted := SortBy(operations, RouteNopKey);
    var group := Where(sorted, InPhase(phases, p));
    SortByPermutes(operations, RouteNopKey);
    SortByPermutes(group, NopKey);
    WhereMembers(sorted, InPhase(phases, p));
    forall op | op in PhaseList(operations, phases, p)
      ensures op in operations && !HasEn(op) && PhaseOf(phases, op.id) == Some(p)
    {
      assert op in multiset(SortByNop(group));
      assert op in group;
      assert op in multiset(sorted);
    }
  }

  // ---------------------------------------------------------------------
  // the totals: `report[phase][date] += ...`

  /** Totals by phase and then date, each level in the order its keys were first met. */
  type Totals = Dict<string, Dict<Date, real>>

  ghost predicate TotalsValid(r: Totals)
  {
    r.Valid() && forall p | p in r.items :: r.items[p].Valid()
  }

  /** `report[p][d]`, 0 when absent (the default dictionaries' reading). */
  function TotalAt(r: Totals, p: string, d: Date): real
  {
    if p in r.items && d in r.items[p].items then r.items[p].items[d] else 0.0
  }

  /** `report[p][d] += q`. */
  function AddTotal(r: Totals, p: string, d: Date, q: real): (r': Totals)
    requires TotalsValid(r)
    ensures TotalsValid(r')
  {
    var inner := if p in r.items then r.items[p] else Empty();
    r.Put(p, inner.Put(d, TotalAt(r, p, d) + q))
  }

  /** Adding to one cell adds `q` there, creates that cell if it is new, and changes no other cell. */
  lemma AddTotalAt(r: Totals, p: string, d: Date, q: real, p': string, d': Date)
    requires TotalsValid(r)
    ensures var r' := AddTotal(r, p, d, q);
      && TotalAt(r', p', d') == (if p' == p && d' == d then TotalAt(r, p, d) + q else TotalAt(r, p', d'))
      && (p' in r'.items && d' in r'.items[p'].items <==> (p' in r.items && d' in r.items[p'].items) || (p' == p && d' == d))
  {
    var inner: Dict<Date, real> := if p in r.items then r.items[p] else Empty();
    var cell := inner.Put(d, TotalAt(r, p, d) + q);
    CellUpdate(r, AddTotal(r, p, d, q), p, d, cell, TotalAt(r, p, d) + q, p', d');
  }

  /** Replacing phase `p`'s dictionary by one with cell `d` set to `v` changes that cell alone. */
  lemma CellUpdate(r: Totals, r': Totals, p: string, d: Date, cell: Dict<Date, real>, v: real, p': string, d': Date)
    requires r'.items == r.items[p := cell]
    requires cell.items == (if p in r.items then r.items[p].items else map[])[d := v]
    ensures TotalAt(r', p', d') == (if p' == p && d' == d then v else TotalAt(r, p', d'))
    ensures p' in r'.items && d' in r'.items[p'].items <==> (p' in r.items && d' in r.items[p'].items) || (p' == p && d' == d)
  {
  }

  /** The totals after the entries `es`. */
  function TotalsAfter(es: seq<Option<Entry>>): (r: Totals)
    ensures TotalsValid(r)
  {
    if es == [] then Empty()
    else
      var r := TotalsAfter(es[..|es| - 1]);
      var e := es[|es| - 1];
      if e.None? then r else AddTotal(r, e.value.phase, e.value.date, e.value.quantity)
  }

  lemma TotalsAfterStep(es: seq<Option<Entry>>, i: nat)
    requires i < |es|
    ensures TotalsAfter(es[..i + 1]) ==
      if es[i].None? then TotalsAfter(es[..i])
      else AddTotal(TotalsAfter(es[..i]), es[i].value.phase, es[i].value.date, es[i].value.quantity)
  {
    assert es[..i + 1][..i] == es[..i];
  }

  /** The quantities of the entries for phase `p` and date `d`, added up. */
  function Sum(es: seq<Option<Entry>>, p: string, d: Date): real
  {
    if es == [] then 0.0
    else
      var e := es[|es| - 1];
      Sum(es[..|es| - 1], p, d) + (if e.Some? && e.value.phase == p && e.value.date == d then e.value.quantity else 0.0)
  }

  /**
   * Each total is the sum of the quantities of the tasks counted at that
   * phase and date, and a (phase, date) pair is present exactly when some
   * task was counted there.
   */
  lemma TotalsAreSums(es: seq<Option<Entry>>, p: string, d: Date)
    ensures TotalAt(TotalsAfter(es), p, d) == Sum(es, p, d)
    ensures p in TotalsAfter(es).items && d in TotalsAfter(es).items[p].items <==> CountedAt(es, p, d)
  {
    TotalIsSum(es, p, d);
    TotalPresent(es, p, d);
  }

  lemma {:induction false} TotalIsSum(es: seq<Option<Entry>>, p: string, d: Date)
    ensures TotalAt(TotalsAfter(es), p, d) == Sum(es, p, d)
  {
    if es != [] {
      var front := es[..|es| - 1];
      var e := es[|es| - 1];
      TotalIsSum(front, p, d);
      if e.Some? {
        var r := TotalsAfter(front);
        AddTotalAt(r, e.value.phase, e.value.date, e.value.quantity, p, d);
      }
    }
  }

  lemma {:induction false} TotalPresent(es: seq<Option<Entry>>, p: string, d: Date)
    ensures p in TotalsAfter(es).items && d in TotalsAfter(es).items[p].items <==> CountedAt(es, p, d)
  {
    if es != [] {
      var front := es[..|es| - 1];
      var e := es[|es| - 1];
      TotalPresent(front, p, d);
      CountedAtStep(es, p, d);
      if e.Some? {
        var r := TotalsAfter(front);
        AddTotalAt(r, e.value.phase, e.value.date, e.value.quantity, p, d);
      }
    }
  }

  /** Some task was counted at phase `p` and date `d`. */
  ghost predicate CountedAt(es: seq<Option<Entry>>, p: string, d: Date)
  {
    exists i :: 0 <= i < |es| && es[i].Some? && es[i].value.phase == p && es[i].value.date == d
  }

  lemma CountedAtStep(es: seq<Option<Entry>>, p: string, d: Date)
    requires es != []
    ensures var e := es[|es| - 1];
      CountedAt(es, p, d) <==> CountedAt(es[..|es| - 1], p, d) || (e.Some? && e.value.phase == p && e.value.date == d)
  {
    var front := es[..|es| - 1];
    if CountedAt(es, p, d) {
      var i :| 0 <= i < |es| && es[i].Some? && es[i].value.phase == p && es[i].value.date == d;
      if i < |front| {
        assert front[i] == es[i];
      }
    }
    if CountedAt(front, p, d) {
      var i :| 0 <= i < |front| && front[i].Some? && front[i].value.phase == p && front[i].value.date == d;
      assert es[i] == front[i];
    }
  }

  // ---------------------------------------------------------------------
  // the records

  /** The record of phase `p` and date `d`: identity `'{date}_{phase}'`. */
  function Record(r: Totals, p: string, d: Date): PlanRecord
  {
    PlanRecord(d + "_" + p, p, d, TotalAt(r, p, d))
  }

  /** The records of one phase, its dates in order. */
  function PhaseRecords(r: Totals, p: string): (recs: seq<PlanRecord>)
    requires TotalsValid(r) && p in r.items
    ensures |recs| == |r.items[p].keys|
    ensures forall j | 0 <= j < |recs| :: recs[j] == Record(r, p, r.items[p].keys[j])
  {
    var dates := r.items[p].keys;
    seq(|dates|, j requires 0 <= j < |dates| => Record(r, p, dates[j]))
  }

  /** `[... for phase in report for task_date in report[phase]]`. */
  function PlanRecords(r: Totals): seq<PlanRecord>
    requires TotalsValid(r)
  {
    Orders.Flatten(seq(|r.keys|, i requires 0 <= i < |r.keys| => PhaseRecords(r, r.keys[i])))
  }

  /** A record is written exactly for each phase and date present, with their total. */
  lemma PlanRecordsMembers(r: Totals, rec: PlanRecord)
    requires TotalsValid(r)
    ensures rec in PlanRecords(r) <==> exists p, d :: p in r.items && d in r.items[p].items && rec == Record(r, p, d)
  {
    if rec in PlanRecords(r) {
      var p, d := PlanRecordFound(r, rec);
    }
    if exists p, d :: p in r.items && d in r.items[p].items && rec == Record(r, p, d) {
      var p, d :| p in r.items && d in r.items[p].items && rec == Record(r, p, d);
      PlanRecordWritten(r, p, d);
    }
  }

  /** A record written is that of a phase and date present. */
  lemma PlanRecordFound(r: Totals, rec: PlanRecord) returns (p: string, d: Date)
    requires TotalsValid(r) && rec in PlanRecords(r)
    ensures p in r.items && d in r.items[p].items && rec == Record(r, p, d)
  {
    var blocks := seq(|r.keys|, i requires 0 <= i < |r.keys| => PhaseRecords(r, r.keys[i]));
    Orders.FlattenMembers(blocks, rec);
    var i :| 0 <= i < |blocks| && rec in blocks[i];
    p := r.keys[i];
    var j :| 0 <= j < |blocks[i]| && blocks[i][j] == rec;
    d := r.items[p].keys[j];
  }

  /** The record of each phase and date present is written. */
  lemma PlanRecordWritten(r: Totals, p: string, d: Date)
    requires TotalsValid(r) && p in r.items && d in r.items[p].items
    ensures Record(r, p, d) in PlanRecords(r)
  {
    var blocks := seq(|r.keys|, i requires 0 <= i < |r.keys| => PhaseRecords(r, r.keys[i]));
    var i :| 0 <= i < |r.keys| && r.keys[i] == p;
    var j :| 0 <= j < |r.items[p].keys| && r.items[p].keys[j] == d;
    assert blocks[i][j] == Record(r, p, d);
    Orders.FlattenMembers(blocks, Record(r, p, d));
  }

  /**
   * The plan: a record for a phase and date exactly when some task is
   * counted there, with the sum of the counted tasks' quantities, and never
   * dated before today.
   */
  lemma PlanTotals(es: seq<Option<Entry>>, today: Date, rec: PlanRecord)
    requires forall i | 0 <= i < |es| && es[i].Some? :: !LexLt(es[i].value.date, today)
    ensures rec in PlanRecords(TotalsAfter(es)) <==>
      exists i :: 0 <= i < |es| && es[i].Some?
        && rec == PlanRecord(es[i].value.date + "_" + es[i].value.phase, es[i].value.phase, es[i].value.date,
                             Sum(es, es[i].value.phase, es[i].value.date))
    ensures rec in PlanRecords(TotalsAfter(es)) ==> !LexLt(rec.date, today)
  {
    var r := TotalsAfter(es);
    PlanRecordsMembers(r, rec);
    if rec in PlanRecords(r) {
      var p, d :| p in r.items && d in r.items[p].items && rec == Record(r, p, d);
      TotalsAreSums(es, p, d);
    }
    if exists i :: 0 <= i < |es| && es[i].Some?
        && rec == PlanRecord(es[i].value.date + "_" + es[i].value.phase, es[i].value.phase, es[i].value.date,
                             Sum(es, es[i].value.phase, es[i].value.date)) {
      var i :| 0 <= i < |es| && es[i].Some?
        && rec == PlanRecord(es[i].value.date + "_" + es[i].value.phase, es[i].value.phase, es[i].value.date,
                             Sum(es, es[i].value.phase, es[i].value.date));
      TotalsAreSums(es, es[i].value.phase, es[i].value.date);
    }
  }

  /** The entries of the export are dated today or later. */
  lemma PlanEntriesUpcoming(tasks: seq<PlanTask>, lists: string -> seq<Operation>, phases: map<Id, string>, exportType: int,
                            today: Date)
    ensures var es := PlanEntries(tasks, lists, phases, exportType, today);
      forall i | 0 <= i < |es| && es[i].Some? :: !LexLt(es[i].value.date, today)
  {
  }

  // ---------------------------------------------------------------------
  // the loops

  lemma PhaseStep(sorted: seq<Operation>, phases: map<Id, string>, i: nat)
    requires i < |sorted|
    ensures forall p ::
      Where(sorted[..i + 1], InPhase(phases, p))
        == Where(sorted[..i], InPhase(phases, p)) + (if InPhase(phases, p)(sorted[i]) then [sorted[i]] else [])
  {
    forall p ensures Where(sorted[..i + 1], InPhase(phases, p))
      == Where(sorted[..i], InPhase(phases, p)) + (if InPhase(phases, p)(sorted[i]) then [sorted[i]] else []) {
      WhereStep(sorted, InPhase(phases, p), i);
    }
  }

  /** The grouping loop over the operations in (route, `nop`) order. */
  method GroupPhases(sorted: seq<Operation>, phases: map<Id, string>) returns (d: Dict<string, seq<Operation>>)
    ensures d.Valid()
    ensures forall p :: Group(d, p) == Where(sorted, InPhase(phases, p))
  {
    d := Empty();
    for i := 0 to |sorted|
      invariant d.Valid()
      invariant forall p :: Group(d, p) == Where(sorted[..i], InPhase(phases, p))
    {
      PhaseStep(sorted, phases, i);
      var row := sorted[i];
      if CyrEn in row.identity {
        continue;
      }
      var phase := Get(phases, row.id);
      if phase.None? {
        continue;
      }
      d := AppendToGroup(d, phase.value, row);
    }
    assert sorted[..|sorted|] == sorted;
  }


  /** The grouping loop and the sort of each group. */
  method GroupByPhase(operations: seq<Operation>, phases: map<Id, string>) returns (d: Dict<string, seq<Operation>>)
    ensures forall p :: Group(d, p) == PhaseList(operations, phases, p)
  {
    var sorted := SortBy(operations, RouteNopKey);
    var grouped := GroupPhases(sorted, phases);
    d := SortGroups(grouped);
  }

  /** The body of the loop over the tasks: the task's entry added to the totals, or nothing when it is skipped. */
  method CountTask(report: Totals, row: PlanTask, operationsList: Dict<string, seq<Operation>>, ghost lists: string -> seq<Operation>,
                   phases: map<Id, string>, exportType: int, today: Date)
    returns (report': Totals)
    requires TotalsValid(report)
    requires forall p :: Group(operationsList, p) == lists(p)
    ensures var e := PlanEntry(row, lists, phases, exportType, today);
      report' == if e.None? then report else AddTotal(report, e.value.phase, e.value.date, e.value.quantity)
  {
    report' := report;
    ghost var e := PlanEntry(row, lists, phases, exportType, today);
    var phase := Get(phases, row.operationId);
    assert PhaseOf(phases, row.operationId) == phase;
    if phase.None? {
      assert e.None?;
      return;
    }
    var op := PyIndex(Group(operationsList, phase.value), exportType);
    assert op == PyIndex(lists(phase.value), exportType);
    if op.None? || row.operationId != op.value.id {
      assert e.None?;
      return;
    }
    var date := if exportType == 0 then row.startDate else row.stopDate;
    var taskDate := if LexLt(date, today) then today else date;
    var stopLabor := if row.stopLabor.Some? && row.stopLabor.value != 0.0 then row.stopLabor.value else 1.0;
    var startLabor := if row.startLabor.Some? && row.startLabor.value != 0.0 then row.startLabor.value else 0.0;
    var quantity := row.amount * (stopLabor - startLabor);
    assert PlanDate(date, today) == taskDate;
    assert PlanQuantity(row) == quantity;
    assert e == Some(Entry(phase.value, taskDate, quantity));
    report' := AddTotal(report, phase.value, taskDate, quantity);
  }

  /** `export_bfg_plan(export_type, qty_column)`: the tasks in the order of the query. */
  method ExportBfgPlan(operations: seq<Operation>, phases: map<Id, string>, tasks: seq<PlanTask>, exportType: int, today: Date)
    returns (records: seq<PlanRecord>)
    ensures records == PlanRecords(TotalsAfter(PlanEntries(tasks, PhaseLists(operations, phases), phases, exportType, today)))
  {
    var operationsList := GroupByPhase(operations, phases);
    ghost var lists := PhaseLists(operations, phases);
    ghost var es := PlanEntries(tasks, lists, phases, exportType, today);
    var report: Totals := Empty();
    for i := 0 to |tasks|
      invariant report == TotalsAfter(es[..i])
    {
      TotalsAfterStep(es, i);
      report := CountTask(report, tasks[i], operationsList, lists, phases, exportType, today);
    }
    assert es[..|tasks|] == es;
    records := PlanRecords(report);
  }
}
