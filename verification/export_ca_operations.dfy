/**
 * logic/iaimportexport.py `export_ca_operations`: one record per kept
 * operation (the six identity and `nop` tests of `OperationKept`) in `nop`
 * order whose `nop` holds `_` and which has a phase. Each route counts its
 * kept operations, and the count so far is the operation's priority; the
 * count advances before the `_` and phase skips, so a skipped operation still
 * uses up a number.
 */
module ExportCaOperations {
  import opened Wrappers
  import opened PyStr
  import opened PyDict
  import opened Records
  import opened Classifier
  import opened RouteWalk

  /** A record of the `operation` export for the planner. */
  datatype CaOperationRecord = CaOperationRecord(
    identity: string,
    transition: string,  // transitionIdentity: the phase
    assembly: string,    // assemblyElementIdentity
    department: string,
    workCenter: string,  // the equipment class
    process: string,     // technologicalProcessIdentity: the route
    number: string,      // the `nop`
    priority: nat,
    name: string)

  /** `'{}_{}'.format(phase, nop.split('_')[-1])`. */
  function OperationIdentity(phase: string, nop: string): (id: string)
    ensures Take(id, |phase|) == phase
    ensures LastPart(id, '_') == LastPart(nop, '_')
  {
    LastPartOfTail(phase, LastPart(nop, '_'), '_');
    phase + "_" + LastPart(nop, '_')
  }

  /** The kept operations in `nop` order (`operations_filtered`). */
  function Kept(operations: seq<Operation>): seq<Operation>
  {
    Where(SortByNop(operations), OperationKept)
  }

  /** Whether a kept operation gets a record: its `nop` holds `_` and it has a phase. */
  predicate Listed(op: Operation, phases: map<Id, string>)
  {
    '_' in op.nop && PhaseOf(phases, op.id).Some?
  }

  /** `operation_priority[route]` after the kept operation at `k`: the route's kept operations so far. */
  function Priority(f: seq<Operation>, k: nat): nat
    requires k < |f|
  {
    |OnRoute(f[..k + 1], f[k].routeId)|
  }

  /** The record of the kept operation at `k`. */
  function RecordAt(f: seq<Operation>, k: nat, tables: Tables): CaOperationRecord
    requires k < |f| && Listed(f[k], tables.phases)
  {
    var op := f[k];
    var phase := PhaseOf(tables.phases, op.id).value;
    CaOperationRecord(
      OperationIdentity(phase, op.nop), phase,
      AssemblyIdentity(tables, op.routeId),
      DepartmentIdentity(tables, op.departmentId),
      if op.equipmentClassId in tables.equipmentClasses then tables.equipmentClasses[op.equipmentClassId].identity else "",
      RouteIdentity(tables, op.routeId),
      op.nop, Priority(f, k), op.name)
  }

  /** The report after the first `n` kept operations. */
  function Report(f: seq<Operation>, n: nat, tables: Tables): (r: seq<CaOperationRecord>)
    requires n <= |f|
    ensures |r| <= n
  {
    if n == 0 then []
    else Report(f, n - 1, tables) + (if Listed(f[n - 1], tables.phases) then [RecordAt(f, n - 1, tables)] else [])
  }

  /** `operation_priority.get(route, 0)`. */
  function Count(priority: map<Id, nat>, r: Id): nat
  {
    if r in priority then priority[r] else 0
  }

  /** `operation_priority` after the kept operations `s`. */
  function CountsAfter(s: seq<Operation>): map<Id, nat>
  {
    if s == [] then map[]
    else
      var counts := CountsAfter(s[..|s| - 1]);
      var r := s[|s| - 1].routeId;
      counts[r := Count(counts, r) + 1]
  }

  lemma CountsAfterStep(f: seq<Operation>, i: nat)
    requires i < |f|
    ensures CountsAfter(f[..i + 1]) == CountsAfter(f[..i])[f[i].routeId := Count(CountsAfter(f[..i]), f[i].routeId) + 1]
  {
    assert f[..i + 1][..i] == f[..i];
  }

  /** Each route's counter is the number of its kept operations so far. */
  lemma {:induction false} CountsAreRouteLengths(s: seq<Operation>, r: Id)
    ensures Count(CountsAfter(s), r) == |OnRoute(s, r)|
  {
    if s != [] {
      CountsAreRouteLengths(s[..|s| - 1], r);
    }
  }

  /** The counter read right after counting the kept operation at `i` is its priority. */
  lemma CountIsPriority(f: seq<Operation>, i: nat)
    requires i < |f|
    ensures f[i].routeId in CountsAfter(f[..i + 1])
    ensures CountsAfter(f[..i + 1])[f[i].routeId] == Priority(f, i)
  {
    CountsAfterStep(f, i);
    CountsAreRouteLengths(f[..i + 1], f[i].routeId);
  }

  lemma ReportStep(f: seq<Operation>, i: nat, tables: Tables)
    requires i < |f|
    ensures Report(f, i + 1, tables) == Report(f, i, tables) + (if Listed(f[i], tables.phases) then [RecordAt(f, i, tables)] else [])
  {
  }

  /** The record of a listed operation, field by field, when every lookup succeeds. */
  lemma RecordAtParts(f: seq<Operation>, i: nat, tables: Tables, p: string, priority: nat)
    requires i < |f| && Listed(f[i], tables.phases)
    requires p == PhaseOf(tables.phases, f[i].id).value && priority == Priority(f, i)
    requires f[i].routeId in tables.routes && tables.routes[f[i].routeId].entityId in tables.entities
    requires f[i].departmentId in tables.departments && f[i].equipmentClassId in tables.equipmentClasses
    ensures RecordAt(f, i, tables) == CaOperationRecord(
      p + "_" + LastPart(f[i].nop, '_'), p,
      tables.entities[tables.routes[f[i].routeId].entityId].identity,
      tables.departments[f[i].departmentId].identity,
      tables.equipmentClasses[f[i].equipmentClassId].identity,
      tables.routes[f[i].routeId].identity,
      f[i].nop, priority, f[i].name)
  {
  }

  /** `operation_priority[route] += 1`, starting the route at 0. */
  method CountOperation(priority: map<Id, nat>, r: Id) returns (priority': map<Id, nat>)
    ensures priority' == priority[r := Count(priority, r) + 1]
  {
    priority' := priority;
    if r !in priority' {
      priority' := priority'[r := 0];
    }
    priority' := priority'[r := priority'[r] + 1];
    if r !in priority {
      UpdateTwice(priority, r, 0, 1);
    }
  }

  /** The lookups the method's callers guarantee, stated per position of the kept operations. */
  lemma KeptLookups(operations: seq<Operation>, tables: Tables)
    requires forall op | op in operations && OperationKept(op) :: op.routeId in tables.routes
    requires forall op | op in operations && OperationKept(op) && Listed(op, tables.phases) ::
      tables.routes[op.routeId].entityId in tables.entities
      && op.departmentId in tables.departments
      && op.equipmentClassId in tables.equipmentClasses
    ensures forall k | 0 <= k < |Kept(operations)| :: Kept(operations)[k].routeId in tables.routes
    ensures forall k | 0 <= k < |Kept(operations)| && Listed(Kept(operations)[k], tables.phases) ::
      tables.routes[Kept(operations)[k].routeId].entityId in tables.entities
      && Kept(operations)[k].departmentId in tables.departments
      && Kept(operations)[k].equipmentClassId in tables.equipmentClasses
  {
    var f := Kept(operations);
    SortByNopMembers(operations);
    WhereMembers(SortByNop(operations), OperationKept);
    forall k | 0 <= k < |f| ensures f[k] in operations && OperationKept(f[k]) {
      assert f[k] in f;
    }
  }

  /**
   * One pass of the loop of `export_ca_operations`: count the operation on
   * its route, then list it when its `nop` holds `_` and it has a phase.
   */
  method ListOperation(f: seq<Operation>, i: nat, tables: Tables, priority: map<Id, nat>, report: seq<CaOperationRecord>)
    returns (priority': map<Id, nat>, report': seq<CaOperationRecord>)
    requires i < |f|
    requires priority == CountsAfter(f[..i]) && report == Report(f, i, tables)
    requires f[i].routeId in tables.routes
    requires Listed(f[i], tables.phases) ==>
      tables.routes[f[i].routeId].entityId in tables.entities
      && f[i].departmentId in tables.departments
      && f[i].equipmentClassId in tables.equipmentClasses
    ensures priority' == CountsAfter(f[..i + 1])
    ensures report' == Report(f, i + 1, tables)
  {
    var row := f[i];
    var r := row.routeId;
    ReportStep(f, i, tables);
    CountsAfterStep(f, i);
    CountIsPriority(f, i);
    priority' := CountOperation(priority, r);
    report' := report;
    var entityId := tables.routes[r].entityId;
    var phase := Get(tables.phases, row.id);
    if '_' !in row.nop {
      return;
    }
    if phase.None? {
      return;
    }
    var p := phase.value;
    RecordAtParts(f, i, tables, p, priority'[r]);
    report' := report + [CaOperationRecord(
      p + "_" + LastPart(row.nop, '_'), p,
      tables.entities[entityId].identity,
      tables.departments[row.departmentId].identity,
      tables.equipmentClasses[row.equipmentClassId].identity,
      tables.routes[r].identity,
      row.nop, priority'[r], row.name)];
  }

  /** `export_ca_operations`. */
  method ExportCaOperations(operations: seq<Operation>, tables: Tables) returns (report: seq<CaOperationRecord>)
    requires forall op | op in operations && OperationKept(op) :: op.routeId in tables.routes
    requires forall op | op in operations && OperationKept(op) && Listed(op, tables.phases) ::
      tables.routes[op.routeId].entityId in tables.entities
      && op.departmentId in tables.departments
      && op.equipmentClassId in tables.equipmentClasses
    ensures report == Report(Kept(operations), |Kept(operations)|, tables)
  {
    var f := Kept(operations);
    KeptLookups(operations, tables);
    var priority: map<Id, nat> := map[];
    report := [];
    for i := 0 to |f|
      invariant priority == CountsAfter(f[..i])
      invariant report == Report(f, i, tables)
    {
      priority, report := ListOperation(f, i, tables, priority, report);
    }
  }

  /**
   * The priority is the operation's 1-based rank among its route's kept
   * operations, the skipped ones included.
   */
  lemma PriorityIsRank(f: seq<Operation>, k: nat)
    requires k < |f|
    ensures 1 <= Priority(f, k) <= |OnRoute(f, f[k].routeId)|
    ensures OnRoute(f, f[k].routeId)[Priority(f, k) - 1] == f[k]
  {
    var r := f[k].routeId;
    OnRouteStep(f, r, k);
    OnRoutePrefix(f, r, k + 1);
  }

  /** Along one route the priorities strictly increase. */
  lemma PriorityIncreases(f: seq<Operation>, i: nat, j: nat)
    requires i < j < |f| && f[i].routeId == f[j].routeId
    ensures Priority(f, i) < Priority(f, j)
  {
    var r := f[j].routeId;
    var g := f[..j];
    assert g[..i + 1] == f[..i + 1];
    OnRoutePrefix(g, r, i + 1);
    OnRouteStep(f, r, j);
  }

  /** The report holds exactly the records of the listed kept operations. */
  lemma {:induction false} ReportMembers(f: seq<Operation>, n: nat, tables: Tables)
    requires n <= |f|
    ensures forall rec :: rec in Report(f, n, tables) <==>
      exists k :: 0 <= k < n && Listed(f[k], tables.phases) && rec == RecordAt(f, k, tables)
  {
    if n > 0 {
      ReportMembers(f, n - 1, tables);
    }
  }

  /** Every kept operation of a route is counted, listed or not: the route's count ends at its kept operations. */
  lemma RouteCount(f: seq<Operation>, k: nat)
    requires k < |f|
    requires forall j :: k < j < |f| ==> f[j].routeId != f[k].routeId
    ensures Priority(f, k) == |OnRoute(f, f[k].routeId)|
  {
    var r := f[k].routeId;
    var n := k + 1;
    while n < |f|
      invariant k + 1 <= n <= |f|
      invariant OnRoute(f[..n], r) == OnRoute(f[..k + 1], r)
    {
      OnRouteStep(f, r, n);
      assert OnRoute(f[..n + 1], r) == OnRoute(f[..n], r) + [];
      n := n + 1;
    }
    assert f[..|f|] == f;
  }
}
