/**
 * logic/iaimportexport.py `export_phases`: one record per phase, with the
 * departments before, at and after it on its route. A first pass over the
 * operations in `nop` order lists, per route, the department at each change
 * of phase between two `None` sentinels; a second pass counts the steps of
 * each route and reads the three departments around the current step.
 */
module ExportPhases {
  import opened Wrappers
  import opened PyStr
  import opened Records
  import opened RouteWalk
  import opened PyDict

  /** A record of the `phase` export. */
  datatype PhaseRecord = PhaseRecord(
    identity: string,
    name: string,
    incoming: Option<string>,
    processing: Option<string>,
    outgoing: Option<string>,
    assemblyElement: string)

  /** Every operation's department exists (the first pass looks each one up). */
  predicate DepartmentsResolve(ops: seq<Operation>, tables: Tables)
  {
    forall op | op in ops :: op.departmentId in tables.departments
  }

  /** Every phased operation's route and entity exist (the second pass looks them up). */
  predicate AssembliesResolve(ops: seq<Operation>, tables: Tables)
  {
    forall op | op in ops && PhaseOf(tables.phases, op.id).Some? ::
      op.routeId in tables.routes && tables.routes[op.routeId].entityId in tables.entities
  }

  /** The phase of the last operation, `None` before the first (`prev_phase` of the first pass). */
  function PrevPhase(t: seq<Operation>, phases: map<Id, string>): Option<string>
  {
    if t == [] then None else PhaseOf(phases, t[|t| - 1].id)
  }

  /** Whether the first pass records operation `op`'s department after the operations `t`. */
  predicate Changes(t: seq<Operation>, op: Operation, phases: map<Id, string>, skipUnphased: bool)
  {
    var phase := PhaseOf(phases, op.id);
    if skipUnphased then phase.Some? && phase != LastKnown(PhaseSeq(t, phases))
    else phase != PrevPhase(t, phases)
  }

  /**
   * The departments at the phase changes of one route's operations. As
   * written (`skipUnphased` false) an operation without a phase is a change
   * like any other; the intended list (`skipUnphased` true) leaves those
   * operations out, as the second pass does.
   */
  function DeptList(t: seq<Operation>, tables: Tables, skipUnphased: bool): seq<Option<string>>
  {
    if t == [] then []
    else
      var op := t[|t| - 1];
      var front := t[..|t| - 1];
      DeptList(front, tables, skipUnphased)
        + (if Changes(front, op, tables.phases, skipUnphased)
           then [Some(DepartmentIdentity(tables, op.departmentId))] else [])
  }

  lemma DeptListAppend(t: seq<Operation>, op: Operation, tables: Tables, skipUnphased: bool)
    ensures DeptList(t + [op], tables, skipUnphased) == DeptList(t, tables, skipUnphased)
      + (if Changes(t, op, tables.phases, skipUnphased) then [Some(DepartmentIdentity(tables, op.departmentId))] else [])
    ensures PrevPhase(t + [op], tables.phases) == PhaseOf(tables.phases, op.id)
  {
    assert (t + [op])[..|t|] == t;
  }

  lemma {:induction false} DeptListPrefix(t: seq<Operation>, tables: Tables, skipUnphased: bool, n: nat)
    requires n <= |t|
    ensures DeptList(t[..n], tables, skipUnphased) <= DeptList(t, tables, skipUnphased)
    decreases |t|
  {
    if n < |t| {
      var front := t[..|t| - 1];
      assert front[..n] == t[..n];
      DeptListPrefix(front, tables, skipUnphased, n);
    } else {
      assert t[..n] == t;
    }
  }

  /** A change to a new phase is a change of `prev_phase` as well. */
  lemma NewRunIsChange(t: seq<Operation>, op: Operation, phases: map<Id, string>)
    requires Changes(t, op, phases, true)
    ensures Changes(t, op, phases, false)
  {
    if t != [] {
      var ps := PhaseSeq(t, phases);
      var front := t[..|t| - 1];
      assert ps == PhaseSeq(front, phases) + [ps[|ps| - 1]];
      RunsAppend(PhaseSeq(front, phases), ps[|ps| - 1]);
    }
  }

  /**
   * Every step has its department: the step counter never passes the length
   * of the department list, and equals it for the intended list.
   */
  lemma {:induction false} RunsWithinDeptList(t: seq<Operation>, tables: Tables, skipUnphased: bool)
    ensures Runs(PhaseSeq(t, tables.phases)) <= |DeptList(t, tables, skipUnphased)|
    ensures skipUnphased ==> Runs(PhaseSeq(t, tables.phases)) == |DeptList(t, tables, skipUnphased)|
  {
    if t != [] {
      var front := t[..|t| - 1];
      var op := t[|t| - 1];
      RunsWithinDeptList(front, tables, skipUnphased);
      assert t == front + [op];
      PhaseSeqAppend(front, op, tables.phases);
      RunsAppend(PhaseSeq(front, tables.phases), PhaseOf(tables.phases, op.id));
      DeptListAppend(front, op, tables, skipUnphased);
      if Changes(front, op, tables.phases, true) {
        NewRunIsChange(front, op, tables.phases);
      }
    }
  }

  /** `dept_route[route]` once the first pass is over. */
  function DeptRoute(s: seq<Operation>, r: Id, tables: Tables, skipUnphased: bool): (d: seq<Option<string>>)
    ensures |d| >= 2 && d[0] == None && d[|d| - 1] == None
  {
    [None] + DeptList(OnRoute(s, r), tables, skipUnphased) + [None]
  }

  /** The step counter of the route of operation `k` once that operation is counted. */
  function Step(s: seq<Operation>, k: nat, phases: map<Id, string>): nat
    requires k < |s|
  {
    Runs(PhaseSeq(OnRoute(s[..k + 1], s[k].routeId), phases))
  }

  /** The route's operations up to `k` extend those before it by operation `k`. */
  lemma StepFacts(s: seq<Operation>, k: nat, phases: map<Id, string>)
    requires k < |s|
    ensures OnRoute(s[..k + 1], s[k].routeId) == OnRoute(s[..k], s[k].routeId) + [s[k]]
    ensures PhaseSeq(OnRoute(s[..k + 1], s[k].routeId), phases)
      == PhaseSeq(OnRoute(s[..k], s[k].routeId), phases) + [PhaseOf(phases, s[k].id)]
  {
    OnRouteStep(s, s[k].routeId, k);
    PhaseSeqAppend(OnRoute(s[..k], s[k].routeId), s[k], phases);
  }

  /** A phased operation's step is at least 1. */
  lemma StepPositive(s: seq<Operation>, k: nat, phases: map<Id, string>)
    requires k < |s| && PhaseOf(phases, s[k].id).Some?
    ensures 1 <= Step(s, k, phases)
  {
    var ps := PhaseSeq(OnRoute(s[..k], s[k].routeId), phases);
    StepFacts(s, k, phases);
    RunsAppend(ps, PhaseOf(phases, s[k].id));
    RunsBounds(ps + [PhaseOf(phases, s[k].id)]);
  }

  /** An operation's step never passes the length of its route's whole department list. */
  lemma StepWithinDeptList(s: seq<Operation>, k: nat, tables: Tables, skipUnphased: bool)
    requires k < |s|
    ensures Step(s, k, tables.phases) <= |DeptList(OnRoute(s, s[k].routeId), tables, skipUnphased)|
  {
    var r := s[k].routeId;
    var t := OnRoute(s[..k + 1], r);
    RunsWithinDeptList(t, tables, skipUnphased);
    OnRoutePrefix(s, r, k + 1);
    var whole := OnRoute(s, r);
    assert whole[..|t|] == t;
    DeptListPrefix(whole, tables, skipUnphased, |t|);
  }

  /** The three departments around a phased operation's step all exist. */
  lemma StepInRange(s: seq<Operation>, k: nat, tables: Tables, skipUnphased: bool)
    requires k < |s| && PhaseOf(tables.phases, s[k].id).Some?
    ensures 1 <= Step(s, k, tables.phases)
    ensures Step(s, k, tables.phases) + 1 < |DeptRoute(s, s[k].routeId, tables, skipUnphased)|
  {
    StepPositive(s, k, tables.phases);
    StepWithinDeptList(s, k, tables, skipUnphased);
  }

  /** The record of a phase at step `step` of its route's department list. */
  function RecordFrom(phase: string, shortLength: nat, route: seq<Option<string>>, step: nat, assembly: string): PhaseRecord
    requires 1 <= step && step + 1 < |route|
  {
    PhaseRecord(phase, TakeLast(phase, shortLength), route[step - 1], route[step], route[step + 1], assembly)
  }

  /** The record the second pass builds for phased operation `k`. */
  function RecordAt(s: seq<Operation>, k: nat, tables: Tables, shortLength: nat, skipUnphased: bool): PhaseRecord
    requires k < |s| && PhaseOf(tables.phases, s[k].id).Some?
  {
    StepInRange(s, k, tables, skipUnphased);
    RecordFrom(PhaseOf(tables.phases, s[k].id).value, shortLength, DeptRoute(s, s[k].routeId, tables, skipUnphased),
               Step(s, k, tables.phases), AssemblyIdentity(tables, s[k].routeId))
  }

  /** `RecordAt` in terms of the department route and the step the second pass holds. */
  lemma RecordAtParts(s: seq<Operation>, k: nat, tables: Tables, shortLength: nat, route: seq<Option<string>>, step: nat)
    requires k < |s| && PhaseOf(tables.phases, s[k].id).Some?
    requires route == DeptRoute(s, s[k].routeId, tables, false) && step == Step(s, k, tables.phases)
    ensures 1 <= step && step + 1 < |route|
    ensures RecordAt(s, k, tables, shortLength, false) == PhaseRecord(
      PhaseOf(tables.phases, s[k].id).value,
      TakeLast(PhaseOf(tables.phases, s[k].id).value, shortLength),
      route[step - 1], route[step], route[step + 1],
      AssemblyIdentity(tables, s[k].routeId))
  {
    StepInRange(s, k, tables, false);
  }

  /** The report after the second pass has seen `n` operations: one record per first occurrence of a phase. */
  function Report(s: seq<Operation>, n: nat, tables: Tables, shortLength: nat, skipUnphased: bool): seq<PhaseRecord>
    requires n <= |s|
  {
    if n == 0 then []
    else
      Report(s, n - 1, tables, shortLength, skipUnphased)
        + (if FirstOccurrence(PhaseSeq(s, tables.phases), n - 1)
           then [RecordAt(s, n - 1, tables, shortLength, skipUnphased)] else [])
  }

  function Identities(report: seq<PhaseRecord>): (ids: seq<string>)
    ensures |ids| == |report|
    ensures forall i :: 0 <= i < |report| ==> ids[i] == report[i].identity
  {
    seq(|report|, i requires 0 <= i < |report| => report[i].identity)
  }

  /** One more operation: its record joins the report at the first occurrence of its phase. */
  lemma ReportStep(s: seq<Operation>, i: nat, tables: Tables, shortLength: nat)
    requires i < |s|
    ensures PhaseOf(tables.phases, s[i].id).None? ==>
      && Report(s, i + 1, tables, shortLength, false) == Report(s, i, tables, shortLength, false)
      && PhaseSeq(s, tables.phases)[..i + 1] == PhaseSeq(s, tables.phases)[..i] + [None]
    ensures PhaseOf(tables.phases, s[i].id).Some? ==>
      var p := PhaseOf(tables.phases, s[i].id);
      && PhaseSeq(s, tables.phases)[..i + 1] == PhaseSeq(s, tables.phases)[..i] + [p]
      && Report(s, i + 1, tables, shortLength, false) == Report(s, i, tables, shortLength, false)
        + (if p in PhaseSeq(s, tables.phases)[..i] then [] else [RecordAt(s, i, tables, shortLength, false)])
  {
    var ps := PhaseSeq(s, tables.phases);
    assert ps[..i + 1] == ps[..i] + [ps[i]];
  }

  /**
   * The report names each phase of the operations seen exactly once, and
   * each of its records is the one built at that phase's first occurrence.
   */
  lemma {:induction false} ReportPhasesOnce(s: seq<Operation>, n: nat, tables: Tables, shortLength: nat, skipUnphased: bool)
    requires n <= |s|
    ensures forall p :: p in Identities(Report(s, n, tables, shortLength, skipUnphased)) <==> Some(p) in PhaseSeq(s, tables.phases)[..n]
    ensures forall i, j :: 0 <= i < j < |Report(s, n, tables, shortLength, skipUnphased)| ==>
      Report(s, n, tables, shortLength, skipUnphased)[i].identity != Report(s, n, tables, shortLength, skipUnphased)[j].identity
    ensures forall rec :: rec in Report(s, n, tables, shortLength, skipUnphased) ==>
      exists k :: 0 <= k < n && FirstOccurrence(PhaseSeq(s, tables.phases), k) && rec == RecordAt(s, k, tables, shortLength, skipUnphased)
  {
    if n > 0 {
      ReportPhasesOnce(s, n - 1, tables, shortLength, skipUnphased);
      var ps := PhaseSeq(s, tables.phases);
      var before := Report(s, n - 1, tables, shortLength, skipUnphased);
      var after := Report(s, n, tables, shortLength, skipUnphased);
      assert ps[..n] == ps[..n - 1] + [ps[n - 1]];
      if FirstOccurrence(ps, n - 1) {
        var rec := RecordAt(s, n - 1, tables, shortLength, skipUnphased);
        assert after == before + [rec];
        assert Identities(after) == Identities(before) + [rec.identity];
        assert rec.identity !in Identities(before);
      } else {
        assert after == before;
        if ps[n - 1].Some? {
          assert Some(ps[n - 1].value) in ps[..n - 1];
        }
      }
    }
  }

  /** No operation of the route before the first occurrence of a phase has that phase. */
  lemma FirstOccurrenceOnRoute(s: seq<Operation>, k: nat, phases: map<Id, string>)
    requires FirstOccurrence(PhaseSeq(s, phases), k)
    ensures PhaseSeq(s, phases)[k] !in PhaseSeq(OnRoute(s[..k], s[k].routeId), phases)
  {
    var front := OnRoute(s[..k], s[k].routeId);
    var p := PhaseSeq(s, phases)[k];
    OnRouteMembers(s[..k], s[k].routeId);
    forall j | 0 <= j < |front| ensures PhaseOf(phases, front[j].id) != p {
      assert front[j] in s[..k];
      var m :| 0 <= m < k && s[..k][m] == front[j];
      assert PhaseSeq(s, phases)[..k][m] == PhaseOf(phases, front[j].id);
    }
  }

  /**
   * With the intended department list, a phase is processed in the
   * department of the operation where it first appears.
   */
  lemma IntendedProcessingDepartment(s: seq<Operation>, k: nat, tables: Tables, shortLength: nat)
    requires FirstOccurrence(PhaseSeq(s, tables.phases), k)
    ensures RecordAt(s, k, tables, shortLength, true).processing == Some(DepartmentIdentity(tables, s[k].departmentId))
  {
    var r := s[k].routeId;
    var front := OnRoute(s[..k], r);
    var t := OnRoute(s[..k + 1], r);
    StepFacts(s, k, tables.phases);
    FirstOccurrenceOnRoute(s, k, tables.phases);
    StartsRun(PhaseSeq(front, tables.phases), PhaseOf(tables.phases, s[k].id).value);
    DeptListAppend(front, s[k], tables, true);
    RunsWithinDeptList(t, tables, true);
    OnRoutePrefix(s, r, k + 1);
    var whole := OnRoute(s, r);
    assert whole[..|t|] == t;
    DeptListPrefix(whole, tables, true, |t|);
    StepInRange(s, k, tables, true);
  }

  /** The state of the first pass: `dept_route` (still open at the end) and `prev_phase`. */
  datatype FirstPassState = FirstPassState(deptRoute: map<Id, seq<Option<string>>>, prevPhase: map<Id, Option<string>>)

  /** The first pass's state after the operations `s`. */
  function FirstPass(s: seq<Operation>, tables: Tables): FirstPassState
  {
    if s == [] then FirstPassState(map[], map[])
    else FirstPassNext(FirstPass(s[..|s| - 1], tables), s[|s| - 1], tables)
  }

  /** One operation of the first pass: its department joins its route's list when its phase differs from `prev_phase`. */
  function FirstPassNext(st: FirstPassState, row: Operation, tables: Tables): FirstPassState
  {
    var r := row.routeId;
    var phase := PhaseOf(tables.phases, row.id);
    var route := if r in st.deptRoute then st.deptRoute[r] else [None];
    var prev := if r in st.prevPhase then st.prevPhase[r] else None;
    FirstPassState(
      st.deptRoute[r := route + (if prev != phase then [Some(DepartmentIdentity(tables, row.departmentId))] else [])],
      st.prevPhase[r := phase])
  }

  /**
   * The first pass's state for route `r` agrees with the route's operations
   * `t` so far: the route is open exactly when it has operations, its list is
   * the departments at its phase changes and `prev_phase` its last phase.
   */
  ghost predicate RouteListed(st: FirstPassState, t: seq<Operation>, r: Id, tables: Tables)
  {
    && (r in st.deptRoute <==> t != [])
    && (r in st.deptRoute ==> st.deptRoute[r] == [None] + DeptList(t, tables, false))
    && (r in st.prevPhase <==> t != [])
    && (r in st.prevPhase ==> st.prevPhase[r] == PrevPhase(t, tables.phases))
  }

  /** One operation of the first pass keeps every route listed, the operation joining its own route. */
  lemma RouteListedStep(st: FirstPassState, row: Operation, tables: Tables, t: seq<Operation>, r: Id)
    requires RouteListed(st, t, r, tables)
    ensures RouteListed(FirstPassNext(st, row, tables), t + (if row.routeId == r then [row] else []), r, tables)
  {
    if row.routeId == r {
      DeptListAppend(t, row, tables, false);
      if t == [] {
        assert DeptList(t, tables, false) == [];
      }
    } else {
      assert t + [] == t;
    }
  }

  lemma {:induction false} FirstPassListed(s: seq<Operation>, tables: Tables, r: Id)
    ensures RouteListed(FirstPass(s, tables), OnRoute(s, r), r, tables)
  {
    if s != [] {
      var front := s[..|s| - 1];
      FirstPassListed(front, tables, r);
      RouteListedStep(FirstPass(front, tables), s[|s| - 1], tables, OnRoute(front, r), r);
    }
  }

  /** After the first pass, `prev_phase` holds the last phase of each route that has operations. */
  lemma FirstPassPrevPhase(s: seq<Operation>, tables: Tables, r: Id)
    ensures r in FirstPass(s, tables).prevPhase <==> OnRoute(s, r) != []
    ensures r in FirstPass(s, tables).prevPhase ==>
      FirstPass(s, tables).prevPhase[r] == PrevPhase(OnRoute(s, r), tables.phases)
  {
    FirstPassListed(s, tables, r);
  }

  /**
   * After the first pass, a route has an open department list exactly when
   * it has operations, and the list is the departments at its phase changes.
   */
  lemma FirstPassRoute(s: seq<Operation>, tables: Tables, r: Id)
    ensures r in FirstPass(s, tables).deptRoute <==> OnRoute(s, r) != []
    ensures r in FirstPass(s, tables).deptRoute ==>
      FirstPass(s, tables).deptRoute[r] == [None] + DeptList(OnRoute(s, r), tables, false)
  {
    FirstPassListed(s, tables, r);
  }

  /** One iteration of the first pass: open the route, then append the department on a change of phase. */
  method RecordDepartment(routes: map<Id, seq<Option<string>>>, prevPhase: map<Id, Option<string>>, row: Operation, tables: Tables)
    returns (routes': map<Id, seq<Option<string>>>, prevPhase': map<Id, Option<string>>)
    requires row.departmentId in tables.departments
    ensures FirstPassState(routes', prevPhase') == FirstPassNext(FirstPassState(routes, prevPhase), row, tables)
  {
    var r := row.routeId;
    var phase := Get(tables.phases, row.id);
    routes', prevPhase' := routes, prevPhase;
    if r !in routes' {
      routes' := routes'[r := [None]];
    }
    if r !in prevPhase' {
      prevPhase' := prevPhase'[r := None];
    }
    var dept := tables.departments[row.departmentId].identity;
    if prevPhase'[r] != phase {
      routes' := routes'[r := routes'[r] + [Some(dept)]];
      prevPhase' := prevPhase'[r := phase];
    } else {
      UpdateSame(prevPhase', r, phase);
      assert routes'[r] + [] == routes'[r];
    }
    if r !in routes {
      UpdateTwice(routes, r, [None], routes'[r]);
    }
    if r !in prevPhase {
      UpdateTwice(prevPhase, r, None, prevPhase'[r]);
    }
  }

  /** `export_phases` first pass: `dept_route` with its closing sentinels. */
  method DepartmentRoutes(s: seq<Operation>, tables: Tables) returns (deptRoute: map<Id, seq<Option<string>>>)
    requires DepartmentsResolve(s, tables)
    ensures forall r :: r in deptRoute <==> OnRoute(s, r) != []
    ensures forall r | r in deptRoute :: deptRoute[r] == DeptRoute(s, r, tables, false)
  {
    var prevPhase: map<Id, Option<string>> := map[];
    var routes: map<Id, seq<Option<string>>> := map[];
    for i := 0 to |s|
      invariant FirstPass(s[..i], tables) == FirstPassState(routes, prevPhase)
    {
      assert s[..i + 1][..i] == s[..i];
      routes, prevPhase := RecordDepartment(routes, prevPhase, s[i], tables);
    }
    assert s[..|s|] == s;
    deptRoute := map r | r in routes :: routes[r] + [None];
    forall r
      ensures r in deptRoute <==> OnRoute(s, r) != []
      ensures r in deptRoute ==> deptRoute[r] == DeptRoute(s, r, tables, false)
    {
      FirstPassRoute(s, tables, r);
      FirstPassPrevPhase(s, tables, r);
    }
  }

  /** The second pass's update of `prev_phase` and `route_step` for a phased operation. */
  method AdvanceCounters(prevPhase: map<Id, Option<string>>, routeStep: map<Id, nat>, row: Operation, phases: map<Id, string>)
    returns (prevPhase': map<Id, Option<string>>, routeStep': map<Id, nat>)
    requires PhaseOf(phases, row.id).Some?
    requires row.routeId in prevPhase <==> row.routeId in routeStep
    ensures Counters(prevPhase', routeStep') == CountersNext(Counters(prevPhase, routeStep), row, phases)
  {
    var r := row.routeId;
    var phase := Get(phases, row.id);
    prevPhase', routeStep' := prevPhase, routeStep;
    if r !in prevPhase' {
      prevPhase' := prevPhase'[r := None];
      routeStep' := routeStep'[r := 0];
    }
    if prevPhase'[r] != phase {
      routeStep' := routeStep'[r := routeStep'[r] + 1];
      prevPhase' := prevPhase'[r := phase];
    } else {
      UpdateSame(prevPhase', r, phase);
    }
    if r !in prevPhase {
      UpdateTwice(prevPhase, r, None, phase);
      UpdateTwice(routeStep, r, 0, routeStep'[r]);
    } else if prevPhase[r] == phase {
      UpdateSame(routeStep, r, routeStep[r]);
    }
  }

  /**
   * `export_phases`: the operations sorted by `nop`, the department routes,
   * then the second pass.
   */
  method ExportPhases(operations: seq<Operation>, tables: Tables, shortLength: nat) returns (report: seq<PhaseRecord>)
    requires DepartmentsResolve(operations, tables) && AssembliesResolve(operations, tables)
    ensures report == Report(SortByNop(operations), |operations|, tables, shortLength, false)
  {
    var s := SortByNop(operations);
    SortByNopMembers(operations);
    var deptRoute := DepartmentRoutes(s, tables);
    var prevPhase: map<Id, Option<string>> := map[];
    var routeStep: map<Id, nat> := map[];
    var unique: set<string> := {};
    report := [];
    for i := 0 to |s|
      invariant CountersAfter(s[..i], tables.phases) == Counters(prevPhase, routeStep)
      invariant report == Report(s, i, tables, shortLength, false)
      invariant forall p :: p in unique <==> Some(p) in PhaseSeq(s, tables.phases)[..i]
    {
      var row := s[i];
      var r := row.routeId;
      var phase := Get(tables.phases, row.id);
      CountersAfterStep(s, i, tables.phases);
      ReportStep(s, i, tables, shortLength);
      if phase.None? {
        continue;
      }
      CountersAreRuns(s[..i], tables.phases, r);
      prevPhase, routeStep := AdvanceCounters(prevPhase, routeStep, row, tables.phases);
      var step := routeStep[r];
      CountersAreRuns(s[..i + 1], tables.phases, r);
      OnRouteMembers(s, r);
      var route := deptRoute[r];
      RecordAtParts(s, i, tables, shortLength, route, step);
      var record := PhaseRecord(
        phase.value,
        TakeLast(phase.value, shortLength),
        route[step - 1],
        route[step],
        route[step + 1],
        tables.entities[tables.routes[r].entityId].identity);
      assert record == RecordAt(s, i, tables, shortLength, false);
      if phase.value !in unique {
        report := report + [record];
        unique := unique + {phase.value};
      }
    }
  }

  /** A route with P1 in D1, an unphased operation in D2, then P2 in D3. */
  function ShiftTables(): Tables
  {
    Tables(
      map[1 := "P1", 3 := "P2"],
      map[7 := Route(7, 9, "R", false)],
      map[9 := Entity(9, "E", "E")],
      map[11 := Department(11, "D1", "D1"), 12 := Department(12, "D2", "D2"), 13 := Department(13, "D3", "D3")],
      map[])
  }

  /** Operation `id` of the example route, in department `dept`. */
  function ShiftOperation(id: Id, nop: string, name: string, dept: Id): Operation
  {
    Operation(id, 7, nop, name, name, dept, 0, None, 0.0, 0.0)
  }

  function ShiftOperations(): seq<Operation>
  {
    [ShiftOperation(1, "010", "A", 11), ShiftOperation(2, "020", "B", 12), ShiftOperation(3, "030", "C", 13)]
  }

  /** Every operation of the example is on route 7. */
  lemma ShiftExampleOnRoute()
    ensures OnRoute(ShiftOperations(), 7) == ShiftOperations()
  {
    var s := ShiftOperations();
    var a, b, c := s[0], s[1], s[2];
    assert OnRoute([a], 7) == [a] by {
      assert [a][..0] == [];
    }
    assert OnRoute([a, b], 7) == [a, b] by {
      assert [a, b][..1] == [a];
    }
    assert s[..2] == [a, b];
  }

  lemma ShiftExampleRoute()
    ensures OnRoute(ShiftOperations()[..3], 7) == ShiftOperations()
    ensures OnRoute(ShiftOperations(), 7) == ShiftOperations()
    ensures PhaseSeq(ShiftOperations(), ShiftTables().phases) == [Some("P1"), None, Some("P2")]
  {
    ShiftExampleOnRoute();
    assert ShiftOperations()[..3] == ShiftOperations();
  }

  lemma ShiftExampleSteps()
    ensures Step(ShiftOperations(), 2, ShiftTables().phases) == 2
  {
    var ps := [Some("P1"), None, Some("P2")];
    ShiftExampleRoute();
    assert ps[..2] == [Some("P1"), None] && ps[..2][..1] == [Some("P1")] && [Some("P1")][..0] == [];
    assert LastKnown(ps[..2]) == Some("P1");
    assert Runs(ps[..2]) == 1;
  }

  /** P1's operation opens both lists in D1. */
  lemma ShiftDeptListFirst(skipUnphased: bool)
    ensures DeptList([ShiftOperations()[0]], ShiftTables(), skipUnphased) == [Some("D1")]
  {
    var a := ShiftOperations()[0];
    DeptListAppend([], a, ShiftTables(), skipUnphased);
    assert [] + [a] == [a];
  }

  /** The operation without a phase is a change as written, and not in the intended list. */
  lemma ShiftDeptListSecond(skipUnphased: bool)
    ensures DeptList(ShiftOperations()[..2], ShiftTables(), skipUnphased)
      == if skipUnphased then [Some("D1")] else [Some("D1"), Some("D2")]
  {
    var s := ShiftOperations();
    ShiftDeptListFirst(skipUnphased);
    DeptListAppend([s[0]], s[1], ShiftTables(), skipUnphased);
    assert [s[0]] + [s[1]] == s[..2];
  }

  /** P2's operation is a change in both lists. */
  lemma ShiftDeptListThird(skipUnphased: bool)
    ensures Changes(ShiftOperations()[..2], ShiftOperations()[2], ShiftTables().phases, skipUnphased)
  {
    var s := ShiftOperations();
    var ps := PhaseSeq(s[..2], ShiftTables().phases);
    assert ps == [Some("P1"), None];
    assert ps[..1] == [Some("P1")];
  }

  /** The list as written: the operation without a phase is a change of phase. */
  lemma ShiftDeptListAsWritten()
    ensures DeptList(ShiftOperations(), ShiftTables(), false) == [Some("D1"), Some("D2"), Some("D3")]
  {
    var s := ShiftOperations();
    ShiftDeptListSecond(false);
    ShiftDeptListThird(false);
    DeptListAppend(s[..2], s[2], ShiftTables(), false);
    assert s[..2] + [s[2]] == s;
  }

  /** The intended list: only P1 and P2 start a run. */
  lemma ShiftDeptListIntended()
    ensures DeptList(ShiftOperations(), ShiftTables(), true) == [Some("D1"), Some("D3")]
  {
    var s := ShiftOperations();
    ShiftDeptListSecond(true);
    ShiftDeptListThird(true);
    DeptListAppend(s[..2], s[2], ShiftTables(), true);
    assert s[..2] + [s[2]] == s;
  }

  lemma ShiftExampleDeptLists()
    ensures DeptList(ShiftOperations(), ShiftTables(), false) == [Some("D1"), Some("D2"), Some("D3")]
    ensures DeptList(ShiftOperations(), ShiftTables(), true) == [Some("D1"), Some("D3")]
  {
    ShiftDeptListAsWritten();
    ShiftDeptListIntended();
  }

  /**
   * As written, an operation without a phase between two phases shifts the
   * departments: on the example route P2 is processed in D2, the department
   * of the unphased operation. The intended list puts it in D3.
   */
  lemma UnphasedOperationShiftsDepartments()
    ensures RecordAt(ShiftOperations(), 2, ShiftTables(), 0, false).processing == Some("D2")
    ensures RecordAt(ShiftOperations(), 2, ShiftTables(), 0, true).processing == Some("D3")
  {
    var s := ShiftOperations();
    var tables := ShiftTables();
    ShiftExampleRoute();
    ShiftExampleSteps();
    ShiftDeptListAsWritten();
    ShiftDeptListIntended();
    var written := DeptRoute(s, 7, tables, false);
    var intended := DeptRoute(s, 7, tables, true);
    assert written == [None] + [Some("D1"), Some("D2"), Some("D3")] + [None];
    assert intended == [None] + [Some("D1"), Some("D3")] + [None];
    assert written[2] == Some("D2");
    assert intended[2] == Some("D3");
    assert RecordAt(s, 2, tables, 0, false).processing == written[2];
    assert RecordAt(s, 2, tables, 0, true).processing == intended[2];
  }
}
