/**
 * logic/iaimportexport.py `export_ca_wip`, `export_ca_zapasy` and
 * `export_pg_wip`: the work in progress. Each walks the entity batches once;
 * a batch standing at an operation is counted under that operation's phase,
 * a batch not yet started (no operation) is counted under the phase of the
 * last operation of its entity's main route, unless it has made no progress
 * or its entity has no main route. The amounts are added up per key in a
 * `defaultdict(float)` and the records list the keys in the order first
 * counted.
 */
module Wip {
  import opened Wrappers
  import opened PyStr
  import opened PyDict
  import opened ListToDict
  import opened Records
  import opened PhaseResolver
  import opened Tallies

  /** Python's `round` of a number to an `int`: the nearest integer, a tie going to the even one. */
  function Round(x: real): (r: int)
    ensures x - 0.5 <= r as real <= x + 0.5
    ensures (r as real - x == 0.5 || x - r as real == 0.5) ==> r % 2 == 0
  {
    var f := x.Floor;
    var frac := x - f as real;
    if frac < 0.5 then f
    else if frac > 0.5 then f + 1
    else if f % 2 == 0 then f
    else f + 1
  }

  /**
   * What the phase resolver reads: the entity routes and operations its
   * caches are built from, and the phase table of `get_phase_with_operation_id`.
   */
  datatype Sources = Sources(routes: seq<Route>, operations: seq<Operation>, phases: map<Id, string>)

  /** The loop body's decision for a batch: `continue`, or count it under a transition (possibly `None`). */
  datatype Resolution = Skip | Resolved(transition: Option<string>)

  /**
   * The transition of a batch: that of its operation, or for a batch without
   * one the last phase of its entity (`get_entity_last_phase`, returning
   * `None` where the source raises), skipping a batch without progress or
   * without a main route.
   */
  function Resolve(b: Batch, src: Sources): Resolution
  {
    match b.operationId
    case Some(opId) => Resolved(PhaseOf(src.phases, opId))
    case None =>
      if b.operationProgress == 0.0 || b.entityId !in MainRoutes(src.routes) then Skip
      else Resolved(EntityLastPhase(src.routes, src.operations, src.phases, b.entityId))
  }

  /**
   * A batch at an operation gets that operation's phase; a batch without
   * one that made progress gets the phase of an operation of its entity's
   * main route that has the greatest `nop` on that route.
   */
  lemma ResolvedPhase(b: Batch, src: Sources)
    requires Resolve(b, src).Resolved? && Resolve(b, src).transition.Some?
    ensures b.operationId.Some? ==>
      b.operationId.value in src.phases && src.phases[b.operationId.value] == Resolve(b, src).transition.value
    ensures b.operationId.None? ==> b.operationProgress != 0.0 && b.entityId in MainRoutes(src.routes)
    ensures b.operationId.None? ==>
      exists i :: (0 <= i < |src.operations|
        && src.operations[i].routeId == MainRoutes(src.routes)[b.entityId].id
        && PhaseOf(src.phases, src.operations[i].id) == Resolve(b, src).transition
        && forall j :: 0 <= j < |src.operations| && src.operations[j].routeId == src.operations[i].routeId ==>
             LexLe(src.operations[j].nop, src.operations[i].nop))
  {
    if b.operationId.None? {
      EntityLastPhaseIsLastByNop(src.routes, src.operations, src.phases, b.entityId);
    }
  }

  /** The branches shared by the three loops; `mainRoutes` is the dictionary built before the loop. */
  method ResolveBatch(row: Batch, src: Sources, mainRoutes: map<Id, Route>) returns (r: Resolution)
    requires mainRoutes == MainRoutes(src.routes)
    ensures r == Resolve(row, src)
  {
    if row.operationId.None? {
      if row.operationProgress == 0.0 {
        return Skip;
      }
      if row.entityId !in mainRoutes {
        return Skip;
      }
      return Resolved(EntityLastPhase(src.routes, src.operations, src.phases, row.entityId));
    }
    return Resolved(PhaseOf(src.phases, row.operationId.value));
  }

  // ---------------------------------------------------------------------
  // export_ca_wip

  /** A record of `export_ca_wip`; `transition` is `None` for a batch whose phase was not found. */
  datatype WipRecord = WipRecord(identity: string, department: string, transition: Option<string>, quantity: int, dateTime: string)

  /** What a batch adds: its amount under its transition, and the department code its identity ends with. */
  function WipEntry(b: Batch, src: Sources): Option<Entry<Option<string>>>
  {
    match Resolve(b, src)
    case Skip => None
    case Resolved(t) => Some(Entry(t, b.amount, TakeLast(b.identity, 4)))
  }

  function WipEntries(batches: seq<Batch>, src: Sources): seq<Option<Entry<Option<string>>>>
  {
    seq(|batches|, i requires 0 <= i < |batches| => WipEntry(batches[i], src))
  }

  /** The comprehension over `not_report.items()`; `now` is the current time as `strftime` writes it. */
  function WipReport(totals: Dict<Option<string>, real>, department: map<Option<string>, string>, now: string)
    : seq<WipRecord>
    requires totals.Valid() && totals.items.Keys == department.Keys
  {
    seq(|totals.keys|, i requires 0 <= i < |totals.keys| =>
      var k := totals.keys[i];
      WipRecord(now + "_" + Show(k), department[k], k, Round(totals.items[k]), now))
  }

  method ExportCaWip(batches: seq<Batch>, src: Sources, now: string) returns (report: seq<WipRecord>)
    ensures var es := WipEntries(batches, src); report == WipReport(Tally(es), Notes(es), now)
  {
    var mainRoutes := MainRoutes(src.routes);
    var notReport: Dict<Option<string>, real> := Empty();
    var department: map<Option<string>, string> := map[];
    ghost var es := WipEntries(batches, src);
    for i := 0 to |batches|
      invariant notReport == Tally(es[..i]) && department == Notes(es[..i])
    {
      var row := batches[i];
      TallyStep(es, i);
      var resolution := ResolveBatch(row, src, mainRoutes);
      if resolution.Skip? {
        continue;
      }
      var transition := resolution.transition;
      notReport := Add(notReport, transition, row.amount);
      department := department[transition := TakeLast(row.identity, 4)];
    }
    assert es[..|batches|] == es;
    report := WipReport(notReport, department, now);
  }

  /**
   * One record per transition some batch was counted under, each transition
   * once, with the rounded sum of the amounts counted there and the
   * department code kept for it.
   */
  lemma WipRecords(batches: seq<Batch>, src: Sources, now: string, rec: WipRecord)
    ensures var es := WipEntries(batches, src);
      rec in WipReport(Tally(es), Notes(es), now) <==>
        Counted(es, rec.transition) && rec.transition in Notes(es)
        && rec == WipRecord(now + "_" + Show(rec.transition), Notes(es)[rec.transition], rec.transition,
                            Round(Sum(es, rec.transition)), now)
    ensures var report := WipReport(Tally(WipEntries(batches, src)), Notes(WipEntries(batches, src)), now);
      forall i, j :: 0 <= i < j < |report| ==> report[i].transition != report[j].transition
  {
    var es := WipEntries(batches, src);
    var totals := Tally(es);
    TallyIsSum(es, rec.transition);
    if rec in WipReport(totals, Notes(es), now) {
      var i :| 0 <= i < |totals.keys| && WipReport(totals, Notes(es), now)[i] == rec;
    }
    if Counted(es, rec.transition) {
      var i :| 0 <= i < |totals.keys| && totals.keys[i] == rec.transition;
      assert WipReport(totals, Notes(es), now)[i].transition == rec.transition;
    }
  }

  // ---------------------------------------------------------------------
  // export_pg_wip

  /** A record of `export_pg_wip`, dated by the day of `now`. */
  datatype PgRecord = PgRecord(identity: string, warehouse: string, transition: string, quantity: int, date: string)

  /** A batch of a snapshot, or one whose phase is not found, adds nothing. */
  function PgEntry(b: Batch, src: Sources): Option<Entry<string>>
  {
    if b.snapshotId.Some? then None
    else
      match Resolve(b, src)
      case Skip => None
      case Resolved(t) => if t.None? then None else Some(Entry(t.value, b.amount, TakeLast(b.identity, 4)))
  }

  function PgEntries(batches: seq<Batch>, src: Sources): seq<Option<Entry<string>>>
  {
    seq(|batches|, i requires 0 <= i < |batches| => PgEntry(batches[i], src))
  }

  /** `[f(x) for x in xs if keep(x)]`. */
  function Picked<T, U>(xs: seq<T>, keep: T -> bool, f: T -> U): (r: seq<U>)
    ensures |r| <= |xs|
  {
    if xs == [] then [] else Picked(xs[..|xs| - 1], keep, f) + (if keep(xs[|xs| - 1]) then [f(xs[|xs| - 1])] else [])
  }

  /** A value is picked exactly when some kept element maps to it. */
  lemma {:induction false} PickedMembers<T, U>(xs: seq<T>, keep: T -> bool, f: T -> U, y: U)
    ensures y in Picked(xs, keep, f) <==> exists i :: 0 <= i < |xs| && keep(xs[i]) && f(xs[i]) == y
  {
    if xs != [] {
      var n := |xs| - 1;
      var front := xs[..n];
      PickedMembers(front, keep, f, y);
      if exists i :: 0 <= i < |xs| && keep(xs[i]) && f(xs[i]) == y {
        var i :| 0 <= i < |xs| && keep(xs[i]) && f(xs[i]) == y;
        if i < n {
          assert front[i] == xs[i];
        }
      }
      if exists i :: 0 <= i < n && keep(front[i]) && f(front[i]) == y {
        var i :| 0 <= i < n && keep(front[i]) && f(front[i]) == y;
        assert xs[i] == front[i];
      }
    }
  }

  /** A batch whose route is missing: counted but for its phase, which was not found. */
  predicate Unrouted(b: Batch, src: Sources)
  {
    b.snapshotId.None? && Resolve(b, src) == Resolved(None)
  }

  /** The entity ids logged as having no route, one per such batch, in batch order. */
  function UnroutedEntities(batches: seq<Batch>, src: Sources): (r: seq<Id>)
    ensures |r| <= |batches|
  {
    Picked(batches, b => Unrouted(b, src), (b: Batch) => b.entityId)
  }

  /** The entities logged are exactly those of the batches whose phase was not found. */
  lemma UnroutedEntitiesMembers(batches: seq<Batch>, src: Sources, id: Id)
    ensures id in UnroutedEntities(batches, src) <==>
      exists i :: 0 <= i < |batches| && Unrouted(batches[i], src) && batches[i].entityId == id
  {
    PickedMembers(batches, b => Unrouted(b, src), (b: Batch) => b.entityId, id);
  }

  /** The comprehension over `not_report.items()`; the date is `cur_date[:10]`. */
  function PgReport(totals: Dict<string, real>, warehouse: map<string, string>, now: string): seq<PgRecord>
    requires totals.Valid() && totals.items.Keys == warehouse.Keys
  {
    var day := Take(now, 10);
    seq(|totals.keys|, i requires 0 <= i < |totals.keys| =>
      var k := totals.keys[i];
      PgRecord(day + "_" + k, warehouse[k], k, Round(totals.items[k]), day))
  }

  method ExportPgWip(batches: seq<Batch>, src: Sources, now: string) returns (report: seq<PgRecord>, logged: seq<Id>)
    ensures var es := PgEntries(batches, src); report == PgReport(Tally(es), Notes(es), now)
    ensures logged == UnroutedEntities(batches, src)
  {
    var mainRoutes := MainRoutes(src.routes);
    var notReport: Dict<string, real> := Empty();
    var department: map<string, string> := map[];
    logged := [];
    ghost var es := PgEntries(batches, src);
    for i := 0 to |batches|
      invariant notReport == Tally(es[..i]) && department == Notes(es[..i])
      invariant logged == UnroutedEntities(batches[..i], src)
    {
      var row := batches[i];
      TallyStep(es, i);
      assert batches[..i + 1][..i] == batches[..i];
      if row.snapshotId.Some? {
        continue;
      }
      var resolution := ResolveBatch(row, src, mainRoutes);
      if resolution.Skip? {
        continue;
      }
      var transition := resolution.transition;
      if transition.None? {
        logged := logged + [row.entityId];
        continue;
      }
      notReport := Add(notReport, transition.value, row.amount);
      department := department[transition.value := TakeLast(row.identity, 4)];
    }
    assert es[..|batches|] == es;
    assert batches[..|batches|] == batches;
    report := PgReport(notReport, department, now);
  }

  /** Dropping the last batch drops the last entry. */
  lemma EntriesPrefix(batches: seq<Batch>, src: Sources)
    requires batches != []
    ensures WipEntries(batches, src)[..|batches| - 1] == WipEntries(batches[..|batches| - 1], src)
    ensures PgEntries(batches, src)[..|batches| - 1] == PgEntries(batches[..|batches| - 1], src)
  {
  }

  /** The batches not part of a snapshot. */
  function Current(batches: seq<Batch>): seq<Batch>
  {
    if batches == [] then []
    else
      var b := batches[|batches| - 1];
      Current(batches[..|batches| - 1]) + (if b.snapshotId.None? then [b] else [])
  }

  /**
   * The totals of `export_pg_wip` are those of `export_ca_wip` over the
   * batches outside any snapshot, for every transition that was found.
   */
  lemma {:induction false} PgTotalsAreWipTotals(batches: seq<Batch>, src: Sources, t: string)
    ensures Sum(PgEntries(batches, src), t) == Sum(WipEntries(Current(batches), src), Some(t))
  {
    if batches != [] {
      var front := batches[..|batches| - 1];
      var b := batches[|batches| - 1];
      PgTotalsAreWipTotals(front, src, t);
      EntriesPrefix(batches, src);
      assert Sum(PgEntries(batches, src), t) == Sum(PgEntries(front, src), t) + Share(PgEntry(b, src), t);
      var current := Current(batches);
      if b.snapshotId.None? {
        assert current == Current(front) + [b];
        EntriesPrefix(current, src);
        assert current[..|current| - 1] == Current(front);
        assert Sum(WipEntries(current, src), Some(t)) == Sum(WipEntries(Current(front), src), Some(t)) + Share(WipEntry(b, src), Some(t));
        assert Share(PgEntry(b, src), t) == Share(WipEntry(b, src), Some(t));
      } else {
        assert current == Current(front);
      }
    }
  }

  // ---------------------------------------------------------------------
  // export_ca_zapasy

  /** The department written for a batch whose own cannot be looked up. */
  const Fallback: string := "02904"

  /** A record of `export_ca_zapasy`: the key and its three fields read back by `key.split('|')`. */
  datatype StockRecord = StockRecord(identity: string, department: string, assembly: string, transition: string, quantity: real)

  /**
   * `departments[operations[row['operation_id']]['department_id']]['identity']`;
   * `None` where a lookup raises `KeyError` (no operation, an unknown one, an
   * unknown department).
   */
  function BatchDepartment(b: Batch, operations: map<Id, Operation>, departments: map<Id, Department>): (r: Option<string>)
    ensures r.Some? <==>
      b.operationId.Some? && b.operationId.value in operations && operations[b.operationId.value].departmentId in departments
  {
    if b.operationId.Some? && b.operationId.value in operations && operations[b.operationId.value].departmentId in departments
    then Some(departments[operations[b.operationId.value].departmentId].identity)
    else None
  }

  /** `f"{transition}|{department}|{assembly}"`. */
  function StockKey(t: Option<string>, department: string, assembly: string): (k: string)
    ensures |Split(k, '|')| >= 3
  {
    SplitThree(Show(t), department, assembly, '|');
    Join3(Show(t), department, assembly, '|')
  }

  /** A counted batch's entity must exist: the source raises `KeyError` otherwise, also in the `except` branch. */
  ghost predicate EntitiesKnown(batches: seq<Batch>, src: Sources, entities: map<Id, Entity>)
  {
    forall i :: 0 <= i < |batches| && Resolve(batches[i], src).Resolved? ==> batches[i].entityId in entities
  }

  /** What a batch adds: its amount under the key of its transition, department (or `02904`) and entity. */
  function StockEntry(b: Batch, src: Sources, departments: map<Id, Department>, entities: map<Id, Entity>)
    : Option<Entry<string>>
    requires Resolve(b, src).Resolved? ==> b.entityId in entities
  {
    match Resolve(b, src)
    case Skip => None
    case Resolved(t) =>
      var department := BatchDepartment(b, IndexBy(src.operations, OperationId).items, departments);
      var code := if department.Some? then department.value else Fallback;
      Some(Entry(StockKey(t, code, entities[b.entityId].identity), b.amount, b.identity))
  }

  function StockEntries(batches: seq<Batch>, src: Sources, departments: map<Id, Department>, entities: map<Id, Entity>)
    : seq<Option<Entry<string>>>
    requires EntitiesKnown(batches, src, entities)
  {
    seq(|batches|, i requires 0 <= i < |batches| => StockEntry(batches[i], src, departments, entities))
  }

  /** Every key counted is a three-field key. */
  lemma StockKeysSplit(batches: seq<Batch>, src: Sources, departments: map<Id, Department>, entities: map<Id, Entity>)
    requires EntitiesKnown(batches, src, entities)
    ensures forall k | k in Tally(StockEntries(batches, src, departments, entities)).items :: |Split(k, '|')| >= 3
  {
    var es := StockEntries(batches, src, departments, entities);
    forall k | k in Tally(es).items ensures |Split(k, '|')| >= 3 {
      TallyIsSum(es, k);
    }
  }

  /** `report_temp` after the loop. */
  function StockTotals(batches: seq<Batch>, src: Sources, departments: map<Id, Department>, entities: map<Id, Entity>)
    : (d: Dict<string, real>)
    requires EntitiesKnown(batches, src, entities)
    ensures d.Valid() && forall k | k in d.items :: |Split(k, '|')| >= 3
  {
    StockKeysSplit(batches, src, departments, entities);
    Tally(StockEntries(batches, src, departments, entities))
  }

  /** A record read back from its key: `key.split('|')[1]`, `[2]` and `[0]`. */
  function StockRecordOf(key: string, quantity: real): StockRecord
    requires |Split(key, '|')| >= 3
  {
    var parts := Split(key, '|');
    StockRecord(key, parts[1], parts[2], parts[0], quantity)
  }

  /** The comprehension over `report_temp.items()`. */
  function StockReport(totals: Dict<string, real>): seq<StockRecord>
    requires totals.Valid() && forall k | k in totals.items :: |Split(k, '|')| >= 3
  {
    seq(|totals.keys|, i requires 0 <= i < |totals.keys| => StockRecordOf(totals.keys[i], totals.items[totals.keys[i]]))
  }

  /** A batch sent to `02904`: counted, but its department cannot be looked up. */
  predicate Rerouted(b: Batch, src: Sources, departments: map<Id, Department>)
  {
    Resolve(b, src).Resolved? && BatchDepartment(b, IndexBy(src.operations, OperationId).items, departments).None?
  }

  /** The identities printed as sent to `02904`, in batch order. */
  function ReroutedBatches(batches: seq<Batch>, src: Sources, departments: map<Id, Department>): (r: seq<string>)
    ensures |r| <= |batches|
  {
    Picked(batches, b => Rerouted(b, src, departments), (b: Batch) => b.identity)
  }

  /** The identities printed are exactly those of the batches sent to `02904`. */
  lemma ReroutedBatchesMembers(batches: seq<Batch>, src: Sources, departments: map<Id, Department>, x: string)
    ensures x in ReroutedBatches(batches, src, departments) <==>
      exists i :: 0 <= i < |batches| && Rerouted(batches[i], src, departments) && batches[i].identity == x
  {
    PickedMembers(batches, b => Rerouted(b, src, departments), (b: Batch) => b.identity, x);
  }

  /** The `try` of one counted batch and its `except KeyError`, which counts it under `02904` and prints it. */
  method CountStock(reportTemp: Dict<string, real>, rerouted: seq<string>, row: Batch, transition: Option<string>,
                    operations: map<Id, Operation>, departments: map<Id, Department>, entities: map<Id, Entity>)
    returns (reportTemp': Dict<string, real>, rerouted': seq<string>)
    requires reportTemp.Valid() && row.entityId in entities
    ensures var code := BatchDepartment(row, operations, departments);
      && reportTemp' == Add(reportTemp, StockKey(transition, if code.Some? then code.value else Fallback,
                                                 entities[row.entityId].identity), row.amount)
      && rerouted' == rerouted + (if code.None? then [row.identity] else [])
  {
    var assembly := entities[row.entityId].identity;
    if row.operationId.Some? && row.operationId.value in operations && operations[row.operationId.value].departmentId in departments {
      var key := StockKey(transition, departments[operations[row.operationId.value].departmentId].identity, assembly);
      reportTemp' := Add(reportTemp, key, row.amount);
      rerouted' := rerouted;
    } else {
      reportTemp' := Add(reportTemp, StockKey(transition, Fallback, assembly), row.amount);
      rerouted' := rerouted + [row.identity];
    }
  }

  /** One iteration of the loop over the batches: a skipped batch changes nothing, a counted one is added. */
  method StockBatch(reportTemp: Dict<string, real>, rerouted: seq<string>, row: Batch, src: Sources,
                    mainRoutes: map<Id, Route>, operations: map<Id, Operation>,
                    departments: map<Id, Department>, entities: map<Id, Entity>)
    returns (reportTemp': Dict<string, real>, rerouted': seq<string>)
    requires reportTemp.Valid()
    requires mainRoutes == MainRoutes(src.routes) && operations == IndexBy(src.operations, OperationId).items
    requires Resolve(row, src).Resolved? ==> row.entityId in entities
    ensures var e := StockEntry(row, src, departments, entities);
      reportTemp' == if e.None? then reportTemp else Add(reportTemp, e.value.key, e.value.amount)
    ensures rerouted' == rerouted + (if Rerouted(row, src, departments) then [row.identity] else [])
  {
    var resolution := ResolveBatch(row, src, mainRoutes);
    if resolution.Skip? {
      assert rerouted + [] == rerouted;
      return reportTemp, rerouted;
    }
    var transition := resolution.transition;
    reportTemp', rerouted' := CountStock(reportTemp, rerouted, row, transition, operations, departments, entities);
  }

  method ExportCaZapasy(batches: seq<Batch>, src: Sources, departments: map<Id, Department>, entities: map<Id, Entity>)
    returns (report: seq<StockRecord>, rerouted: seq<string>)
    requires EntitiesKnown(batches, src, entities)
    ensures report == StockReport(StockTotals(batches, src, departments, entities))
    ensures rerouted == ReroutedBatches(batches, src, departments)
  {
    var reportTemp;
    reportTemp, rerouted := StockLoop(batches, src, departments, entities);
    StockKeysSplit(batches, src, departments, entities);
    report := StockReport(reportTemp);
  }

  /** What one more batch adds to `report_temp` and to the batches printed. */
  lemma StockLoopStep(batches: seq<Batch>, src: Sources, departments: map<Id, Department>, entities: map<Id, Entity>,
                      i: nat)
    requires EntitiesKnown(batches, src, entities) && i < |batches|
    ensures var es := StockEntries(batches, src, departments, entities);
      var e := StockEntry(batches[i], src, departments, entities);
      Tally(es[..i + 1]) == if e.None? then Tally(es[..i]) else Add(Tally(es[..i]), e.value.key, e.value.amount)
    ensures ReroutedBatches(batches[..i + 1], src, departments)
      == ReroutedBatches(batches[..i], src, departments) + (if Rerouted(batches[i], src, departments) then [batches[i].identity] else [])
  {
    TallyStep(StockEntries(batches, src, departments, entities), i);
    assert batches[..i + 1][..i] == batches[..i];
  }

  /** The loop of `export_ca_zapasy` over the batches: `report_temp` and the batches sent to `02904`. */
  method StockLoop(batches: seq<Batch>, src: Sources, departments: map<Id, Department>, entities: map<Id, Entity>)
    returns (reportTemp: Dict<string, real>, rerouted: seq<string>)
    requires EntitiesKnown(batches, src, entities)
    ensures reportTemp == Tally(StockEntries(batches, src, departments, entities))
    ensures rerouted == ReroutedBatches(batches, src, departments)
  {
    var mainRoutes := MainRoutes(src.routes);
    var operations := IndexBy(src.operations, OperationId).items;
    reportTemp := Empty();
    rerouted := [];
    ghost var es := StockEntries(batches, src, departments, entities);
    for i := 0 to |batches|
      invariant reportTemp == Tally(es[..i])
      invariant rerouted == ReroutedBatches(batches[..i], src, departments)
    {
      StockLoopStep(batches, src, departments, entities, i);
      reportTemp, rerouted := StockBatch(reportTemp, rerouted, batches[i], src, mainRoutes, operations, departments, entities);
    }
    assert es[..|batches|] == es;
    assert batches[..|batches|] == batches;
  }

  /**
   * Reading a key back gives its transition, department and entity, as long
   * as none of them holds a `|`.
   */
  lemma StockKeyRoundTrip(t: Option<string>, department: string, assembly: string, quantity: real)
    requires '|' !in Show(t) && '|' !in department && '|' !in assembly
    ensures StockRecordOf(StockKey(t, department, assembly), quantity)
      == StockRecord(StockKey(t, department, assembly), department, assembly, Show(t), quantity)
  {
  }

  /**
   * One record per key some batch was counted under, each key once, with the
   * sum of the amounts counted under it (not rounded).
   */
  lemma StockRecords(batches: seq<Batch>, src: Sources, departments: map<Id, Department>, entities: map<Id, Entity>,
                     rec: StockRecord)
    requires EntitiesKnown(batches, src, entities)
    ensures var es := StockEntries(batches, src, departments, entities);
      rec in StockReport(StockTotals(batches, src, departments, entities)) <==>
        Counted(es, rec.identity) && |Split(rec.identity, '|')| >= 3 && rec == StockRecordOf(rec.identity, Sum(es, rec.identity))
    ensures var report := StockReport(StockTotals(batches, src, departments, entities));
      forall i, j :: 0 <= i < j < |report| ==> report[i].identity != report[j].identity
  {
    var es := StockEntries(batches, src, departments, entities);
    var totals := StockTotals(batches, src, departments, entities);
    TallyIsSum(es, rec.identity);
    if rec in StockReport(totals) {
      var i :| 0 <= i < |totals.keys| && StockReport(totals)[i] == rec;
    }
    if Counted(es, rec.identity) {
      var i :| 0 <= i < |totals.keys| && totals.keys[i] == rec.identity;
      assert StockReport(totals)[i].identity == rec.identity;
    }
  }
}
