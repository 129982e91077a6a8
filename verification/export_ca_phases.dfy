/**
 * logic/iaimportexport.py `export_ca_phases`: one record per phase of the
 * operations in `nop` order, skipping operations whose identity holds `н` or
 * `с` and those without a phase. The priority is the route's step counter;
 * a phase without `-` also brings a `<prefix>_VPSK` record with priority 999,
 * once per prefix. Phase and `_VPSK` identities share one `unique` set.
 */
module ExportCaPhases {
  import opened Wrappers
  import opened PyStr
  import opened PyDict
  import opened Records
  import opened Classifier
  import opened RouteWalk

  /** A record of the `phase` export for the planner. */
  datatype CaPhaseRecord = CaPhaseRecord(
    identity: string,
    process: string,     // technologicalProcessIdentity
    name: string,
    priority: nat,
    department: string)

  /** The priority of every `_VPSK` record. */
  const VpskPriority: nat := 999

  /** The operations this export looks at: no `н` and no `с` in the identity. */
  predicate PhaseCandidate(op: Operation)
  {
    !HasEn(op) && !HasEs(op)
  }

  /** `f"{phase[:L]}_VPSK"`. */
  function Vpsk(phase: string, phaseNameLength: nat): (v: string)
    ensures EndsWith(v, "_VPSK")
  {
    Take(phase, phaseNameLength) + "_VPSK"
  }

  /** Whether a phase brings a `_VPSK` record: it has no `-`. */
  predicate HasVpsk(phase: string)
  {
    '-' !in phase
  }

  /** `unique_identities` and the report. */
  datatype Listing = Listing(unique: set<string>, report: seq<CaPhaseRecord>)

  /**
   * Listing phase `p` of a route at priority `priority`: nothing when the
   * identity was listed already, otherwise its record and, for a phase
   * without `-`, the `_VPSK` record unless that identity was listed.
   */
  function ListPhase(l: Listing, p: string, process: string, dept: string, priority: nat, shortLength: nat, phaseNameLength: nat): Listing
  {
    if p in l.unique then l
    else
      var record := CaPhaseRecord(p, process, TakeLast(p, shortLength), priority, dept);
      var v := Vpsk(p, phaseNameLength);
      if !HasVpsk(p) then Listing(l.unique + {p}, l.report + [record])
      else if v in l.unique then Listing(l.unique + {p}, l.report + [record])
      else Listing(l.unique + {v, p}, l.report + [record, CaPhaseRecord(v, process, v, VpskPriority, dept)])
  }

  /** The loop's state: the counters and the listing. */
  datatype CaPhasesState = CaPhasesState(counters: Counters, listing: Listing)

  /** One operation of the loop. */
  function CaPhasesNext(st: CaPhasesState, row: Operation, tables: Tables, shortLength: nat, phaseNameLength: nat): CaPhasesState
  {
    var phase := PhaseOf(tables.phases, row.id);
    if !PhaseCandidate(row) || phase.None? then st
    else
      var counters := CountersNext(st.counters, row, tables.phases);
      CaPhasesState(
        counters,
        ListPhase(st.listing, phase.value, RouteIdentity(tables, row.routeId), DepartmentIdentity(tables, row.departmentId),
                  counters.routeStep[row.routeId], shortLength, phaseNameLength))
  }

  /** The loop's state after the operations `s`. */
  function CaPhasesAfter(s: seq<Operation>, tables: Tables, shortLength: nat, phaseNameLength: nat): CaPhasesState
  {
    if s == [] then CaPhasesState(Counters(map[], map[]), Listing({}, []))
    else CaPhasesNext(CaPhasesAfter(s[..|s| - 1], tables, shortLength, phaseNameLength), s[|s| - 1], tables, shortLength, phaseNameLength)
  }

  lemma CaPhasesAfterStep(s: seq<Operation>, i: nat, tables: Tables, shortLength: nat, phaseNameLength: nat)
    requires i < |s|
    ensures CaPhasesAfter(s[..i + 1], tables, shortLength, phaseNameLength)
      == CaPhasesNext(CaPhasesAfter(s[..i], tables, shortLength, phaseNameLength), s[i], tables, shortLength, phaseNameLength)
  {
    assert s[..i + 1][..i] == s[..i];
  }

  /** The identities of a report. */
  function IdentitySet(report: seq<CaPhaseRecord>): (ids: set<string>)
    ensures forall i | 0 <= i < |report| :: report[i].identity in ids
  {
    set i | 0 <= i < |report| :: report[i].identity
  }

  /** The set holds the reported identities and nothing else. */
  lemma IdentitySetMembers(report: seq<CaPhaseRecord>)
    ensures forall x :: x in IdentitySet(report) <==> exists i | 0 <= i < |report| :: report[i].identity == x
  {
  }

  lemma IdentitySetAppend(report: seq<CaPhaseRecord>, more: seq<CaPhaseRecord>)
    ensures IdentitySet(report + more) == IdentitySet(report) + IdentitySet(more)
  {
    var both := report + more;
    forall x | x in IdentitySet(both) ensures x in IdentitySet(report) + IdentitySet(more) {
      var i :| 0 <= i < |both| && both[i].identity == x;
      if i >= |report| {
        assert more[i - |report|].identity == x;
      }
    }
    forall x | x in IdentitySet(report) ensures x in IdentitySet(both) {
      var i :| 0 <= i < |report| && report[i].identity == x;
      assert both[i].identity == x;
    }
    forall x | x in IdentitySet(more) ensures x in IdentitySet(both) {
      var i :| 0 <= i < |more| && more[i].identity == x;
      assert both[|report| + i].identity == x;
    }
  }

  /** The phases of the candidate operations. */
  function CandidatePhases(s: seq<Operation>, phases: map<Id, string>): set<string>
  {
    KnownSet(PhaseSeq(Where(s, PhaseCandidate), phases))
  }

  /** The `_VPSK` identities of the phases without `-`. */
  function VpskSet(ps: set<string>, phaseNameLength: nat): (vs: set<string>)
    ensures forall p | p in ps && HasVpsk(p) :: Vpsk(p, phaseNameLength) in vs
  {
    set p | p in ps && HasVpsk(p) :: Vpsk(p, phaseNameLength)
  }

  lemma VpskSetAdd(ps: set<string>, p: string, phaseNameLength: nat)
    ensures VpskSet(ps + {p}, phaseNameLength)
      == VpskSet(ps, phaseNameLength) + (if HasVpsk(p) then {Vpsk(p, phaseNameLength)} else {})
  {
    var after := VpskSet(ps + {p}, phaseNameLength);
    var added := if HasVpsk(p) then {Vpsk(p, phaseNameLength)} else {};
    assert after <= VpskSet(ps, phaseNameLength) + added by {
      forall x | x in after ensures x in VpskSet(ps, phaseNameLength) + added {
        var q :| q in ps + {p} && HasVpsk(q) && x == Vpsk(q, phaseNameLength);
      }
    }
    assert VpskSet(ps, phaseNameLength) <= after by {
      forall x | x in VpskSet(ps, phaseNameLength) ensures x in after {
        var q :| q in ps && HasVpsk(q) && x == Vpsk(q, phaseNameLength);
        assert q in ps + {p};
      }
    }
    assert added <= after by {
      if HasVpsk(p) {
        assert p in ps + {p};
      }
    }
  }

  /** No identity appears twice in the report. */
  predicate Distinct(report: seq<CaPhaseRecord>)
  {
    forall i, j :: 0 <= i < j < |report| ==> report[i].identity != report[j].identity
  }

  /**
   * Listing a phase keeps `unique_identities` equal to the reported
   * identities, adds the phase and its `_VPSK` identity when the phase is
   * new, appends its record, and reports nothing twice when the phase
   * does not itself end in `_VPSK`.
   */
  lemma ListPhaseFacts(l: Listing, p: string, process: string, dept: string, priority: nat, shortLength: nat, phaseNameLength: nat)
    requires l.unique == IdentitySet(l.report)
    ensures ListPhase(l, p, process, dept, priority, shortLength, phaseNameLength).unique
      == IdentitySet(ListPhase(l, p, process, dept, priority, shortLength, phaseNameLength).report)
    ensures ListPhase(l, p, process, dept, priority, shortLength, phaseNameLength).unique
      == l.unique + (if p in l.unique then {} else {p} + (if HasVpsk(p) then {Vpsk(p, phaseNameLength)} else {}))
    ensures p !in l.unique ==>
      |ListPhase(l, p, process, dept, priority, shortLength, phaseNameLength).report| > |l.report| &&
      ListPhase(l, p, process, dept, priority, shortLength, phaseNameLength).report[|l.report|]
        == CaPhaseRecord(p, process, TakeLast(p, shortLength), priority, dept)
    ensures l.report <= ListPhase(l, p, process, dept, priority, shortLength, phaseNameLength).report
    ensures Distinct(l.report) && !EndsWith(p, "_VPSK") ==>
      Distinct(ListPhase(l, p, process, dept, priority, shortLength, phaseNameLength).report)
  {
    if p !in l.unique {
      var more := Listed(l, p, process, dept, priority, shortLength, phaseNameLength);
      ListedIdentities(l, p, process, dept, priority, shortLength, phaseNameLength);
      IdentitySetAppend(l.report, more);
      if HasVpsk(p) {
        assert l.unique + IdentitySet(more) == l.unique + ({p} + {Vpsk(p, phaseNameLength)});
      } else {
        assert IdentitySet(more) == {p} + {};
      }
      if Distinct(l.report) && !EndsWith(p, "_VPSK") {
        DistinctAppend(l.report, more);
      }
    }
  }

  /** The records listing a new phase appends. */
  function Listed(l: Listing, p: string, process: string, dept: string, priority: nat, shortLength: nat, phaseNameLength: nat)
    : (more: seq<CaPhaseRecord>)
    requires p !in l.unique
    ensures ListPhase(l, p, process, dept, priority, shortLength, phaseNameLength).report == l.report + more
  {
    var record := CaPhaseRecord(p, process, TakeLast(p, shortLength), priority, dept);
    var v := Vpsk(p, phaseNameLength);
    if HasVpsk(p) && v !in l.unique then [record, CaPhaseRecord(v, process, v, VpskPriority, dept)] else [record]
  }

  /** The records listing a new phase appends: the phase first, then its `_VPSK` record when that is new. */
  lemma ListedIdentities(l: Listing, p: string, process: string, dept: string, priority: nat, shortLength: nat, phaseNameLength: nat)
    requires p !in l.unique
    ensures var more := Listed(l, p, process, dept, priority, shortLength, phaseNameLength);
      && |more| > 0 && more[0] == CaPhaseRecord(p, process, TakeLast(p, shortLength), priority, dept)
      && IdentitySet(more) == (if HasVpsk(p) && Vpsk(p, phaseNameLength) !in l.unique then {p, Vpsk(p, phaseNameLength)} else {p})
      && ListPhase(l, p, process, dept, priority, shortLength, phaseNameLength).unique == l.unique + IdentitySet(more)
      && (!EndsWith(p, "_VPSK") ==> Distinct(more))
  {
    var more := Listed(l, p, process, dept, priority, shortLength, phaseNameLength);
    assert more[0].identity == p;
    if |more| == 2 {
      assert more[1].identity == Vpsk(p, phaseNameLength);
    }
  }

  /** Appending records with distinct identities not yet reported keeps the report free of repeats. */
  lemma DistinctAppend(report: seq<CaPhaseRecord>, more: seq<CaPhaseRecord>)
    requires Distinct(report) && Distinct(more)
    requires forall j | 0 <= j < |more| :: more[j].identity !in IdentitySet(report)
    ensures Distinct(report + more)
  {
    var both := report + more;
    forall i, j | 0 <= i < j < |both| ensures both[i].identity != both[j].identity {
      if j >= |report| && i < |report| {
        assert both[j] == more[j - |report|];
      } else if i >= |report| {
        assert both[i] == more[i - |report|] && both[j] == more[j - |report|];
      }
    }
  }

  /** One more operation adds its phase, if it is a candidate with one. */
  lemma CandidatePhasesStep(s: seq<Operation>, phases: map<Id, string>)
    requires s != []
    ensures CandidatePhases(s, phases) == CandidatePhases(s[..|s| - 1], phases)
      + (if PhaseCandidate(s[|s| - 1]) && PhaseOf(phases, s[|s| - 1].id).Some?
         then {PhaseOf(phases, s[|s| - 1].id).value} else {})
  {
    var front := s[..|s| - 1];
    var row := s[|s| - 1];
    var w := Where(front, PhaseCandidate);
    if PhaseCandidate(row) {
      assert Where(s, PhaseCandidate) == w + [row];
      PhaseSeqAppend(w, row, phases);
    } else {
      assert Where(s, PhaseCandidate) == w + [] == w;
    }
  }

  /**
   * The counters are those of a walk over the candidate operations alone:
   * each priority is the number of phase runs on the route so far.
   */
  lemma {:induction false} CaPhasesCounters(s: seq<Operation>, tables: Tables, shortLength: nat, phaseNameLength: nat)
    ensures CaPhasesAfter(s, tables, shortLength, phaseNameLength).counters == CountersAfter(Where(s, PhaseCandidate), tables.phases)
  {
    if s != [] {
      var front := s[..|s| - 1];
      CaPhasesCounters(front, tables, shortLength, phaseNameLength);
      var row := s[|s| - 1];
      var w := Where(front, PhaseCandidate);
      if PhaseCandidate(row) {
        assert Where(s, PhaseCandidate) == w + [row];
        assert (w + [row])[..|w|] == w;
      } else {
        assert Where(s, PhaseCandidate) == w + [] == w;
        assert CaPhasesAfter(s, tables, shortLength, phaseNameLength) == CaPhasesAfter(front, tables, shortLength, phaseNameLength);
      }
    }
  }

  /** `unique_identities` is exactly the set of reported identities. */
  lemma {:induction false} CaPhasesUniqueIsReported(s: seq<Operation>, tables: Tables, shortLength: nat, phaseNameLength: nat)
    ensures CaPhasesAfter(s, tables, shortLength, phaseNameLength).listing.unique
      == IdentitySet(CaPhasesAfter(s, tables, shortLength, phaseNameLength).listing.report)
  {
    if s != [] {
      var front := s[..|s| - 1];
      var row := s[|s| - 1];
      CaPhasesUniqueIsReported(front, tables, shortLength, phaseNameLength);
      var st := CaPhasesAfter(front, tables, shortLength, phaseNameLength);
      var phase := PhaseOf(tables.phases, row.id);
      if PhaseCandidate(row) && phase.Some? {
        var counters := CountersNext(st.counters, row, tables.phases);
        ListPhaseFacts(st.listing, phase.value, RouteIdentity(tables, row.routeId), DepartmentIdentity(tables, row.departmentId),
                       counters.routeStep[row.routeId], shortLength, phaseNameLength);
      }
    }
  }

  /**
   * The reported identities are the candidates' phases and the `_VPSK`
   * identities of those without `-`, provided no phase identity itself ends
   * in `_VPSK` (such a phase would be taken for one already reported).
   */
  lemma {:induction false} CaPhasesIdentities(s: seq<Operation>, tables: Tables, shortLength: nat, phaseNameLength: nat)
    requires forall id | id in tables.phases :: !EndsWith(tables.phases[id], "_VPSK")
    ensures CaPhasesAfter(s, tables, shortLength, phaseNameLength).listing.unique
      == CandidatePhases(s, tables.phases) + VpskSet(CandidatePhases(s, tables.phases), phaseNameLength)
  {
    if s != [] {
      var front := s[..|s| - 1];
      var row := s[|s| - 1];
      CaPhasesIdentities(front, tables, shortLength, phaseNameLength);
      CandidatePhasesStep(s, tables.phases);
      var phase := PhaseOf(tables.phases, row.id);
      if PhaseCandidate(row) && phase.Some? {
        CaPhasesUniqueIsReported(front, tables, shortLength, phaseNameLength);
        var st := CaPhasesAfter(front, tables, shortLength, phaseNameLength);
        var counters := CountersNext(st.counters, row, tables.phases);
        ListPhaseFacts(st.listing, phase.value, RouteIdentity(tables, row.routeId), DepartmentIdentity(tables, row.departmentId),
                       counters.routeStep[row.routeId], shortLength, phaseNameLength);
        IdentitiesStep(CandidatePhases(front, tables.phases), st.listing.unique, phase.value, phaseNameLength);
      }
    }
  }

  /** Adding phase `p` (not itself a `_VPSK` identity) to the reported identities adds it and its `_VPSK` identity. */
  lemma IdentitiesStep(cp: set<string>, unique: set<string>, p: string, phaseNameLength: nat)
    requires unique == cp + VpskSet(cp, phaseNameLength)
    requires !EndsWith(p, "_VPSK")
    ensures unique + (if p in unique then {} else {p} + (if HasVpsk(p) then {Vpsk(p, phaseNameLength)} else {}))
      == (cp + {p}) + VpskSet(cp + {p}, phaseNameLength)
  {
    VpskSetAdd(cp, p, phaseNameLength);
    if p in unique {
      assert p !in VpskSet(cp, phaseNameLength) by {
        forall q | q in cp && HasVpsk(q) ensures Vpsk(q, phaseNameLength) != p {
          assert EndsWith(Vpsk(q, phaseNameLength), "_VPSK");
        }
      }
      assert p in cp;
    }
  }

  /**
   * When no phase identity itself ends in `_VPSK`, no identity is reported
   * twice: each phase once and each `_VPSK` prefix once.
   */
  lemma {:induction false} CaPhasesDistinct(s: seq<Operation>, tables: Tables, shortLength: nat, phaseNameLength: nat)
    requires forall id | id in tables.phases :: !EndsWith(tables.phases[id], "_VPSK")
    ensures Distinct(CaPhasesAfter(s, tables, shortLength, phaseNameLength).listing.report)
  {
    if s != [] {
      var front := s[..|s| - 1];
      var row := s[|s| - 1];
      CaPhasesDistinct(front, tables, shortLength, phaseNameLength);
      CaPhasesUniqueIsReported(front, tables, shortLength, phaseNameLength);
      var st := CaPhasesAfter(front, tables, shortLength, phaseNameLength);
      var phase := PhaseOf(tables.phases, row.id);
      if PhaseCandidate(row) && phase.Some? {
        assert row.id in tables.phases;
        var counters := CountersNext(st.counters, row, tables.phases);
        ListPhaseFacts(st.listing, phase.value, RouteIdentity(tables, row.routeId), DepartmentIdentity(tables, row.departmentId),
                       counters.routeStep[row.routeId], shortLength, phaseNameLength);
      }
    }
  }

  /** The loop's update of `phase_route` and `route_step` for a candidate with a phase. */
  method AdvancePhaseRoute(phaseRoute: map<Id, Option<string>>, routeStep: map<Id, nat>, row: Operation, phases: map<Id, string>)
    returns (phaseRoute': map<Id, Option<string>>, routeStep': map<Id, nat>)
    requires PhaseOf(phases, row.id).Some?
    requires row.routeId in phaseRoute <==> row.routeId in routeStep
    requires row.routeId in phaseRoute ==> phaseRoute[row.routeId].Some?
    ensures Counters(phaseRoute', routeStep') == CountersNext(Counters(phaseRoute, routeStep), row, phases)
  {
    var r := row.routeId;
    var phase := Get(phases, row.id);
    phaseRoute', routeStep' := phaseRoute, routeStep;
    if r !in phaseRoute' {
      phaseRoute' := phaseRoute'[r := phase];
      routeStep' := routeStep'[r := 1];
    }
    if phaseRoute'[r] != phase {
      phaseRoute' := phaseRoute'[r := phase];
      routeStep' := routeStep'[r := routeStep'[r] + 1];
    } else if r in phaseRoute {
      UpdateSame(phaseRoute, r, phase);
      UpdateSame(routeStep, r, routeStep[r]);
    }
  }

  /** The listing step of the loop: `report.append` of the phase and its `_VPSK` record, with `unique_identities`. */
  method ListPhaseInto(unique: set<string>, report: seq<CaPhaseRecord>, p: string, process: string, dept: string,
                       priority: nat, shortLength: nat, phaseNameLength: nat)
    returns (unique': set<string>, report': seq<CaPhaseRecord>)
    ensures Listing(unique', report') == ListPhase(Listing(unique, report), p, process, dept, priority, shortLength, phaseNameLength)
  {
    unique', report' := unique, report;
    if p !in unique' {
      report' := report' + [CaPhaseRecord(p, process, TakeLast(p, shortLength), priority, dept)];
      if '-' !in p {
        var v := Take(p, phaseNameLength) + "_VPSK";
        if v !in unique' {
          report' := report' + [CaPhaseRecord(v, process, v, VpskPriority, dept)];
        }
        unique' := unique' + {v};
      }
      unique' := unique' + {p};
    }
  }

  /** The loop of `export_ca_phases` over the operations `s`, already sorted by `nop`. */
  method CaPhasesLoop(s: seq<Operation>, tables: Tables, shortLength: nat, phaseNameLength: nat)
    returns (report: seq<CaPhaseRecord>)
    requires forall op | op in s && PhaseCandidate(op) && PhaseOf(tables.phases, op.id).Some? ::
      op.departmentId in tables.departments && op.routeId in tables.routes
    ensures report == CaPhasesAfter(s, tables, shortLength, phaseNameLength).listing.report
  {
    var phaseRoute: map<Id, Option<string>> := map[];
    var routeStep: map<Id, nat> := map[];
    var unique: set<string> := {};
    report := [];
    for i := 0 to |s|
      invariant CaPhasesAfter(s[..i], tables, shortLength, phaseNameLength)
        == CaPhasesState(Counters(phaseRoute, routeStep), Listing(unique, report))
    {
      var row := s[i];
      CaPhasesAfterStep(s, i, tables, shortLength, phaseNameLength);
      if CyrEn in row.identity || CyrEs in row.identity {
        continue;
      }
      var r := row.routeId;
      var phase := Get(tables.phases, row.id);
      if phase.None? {
        continue;
      }
      var dept := tables.departments[row.departmentId].identity;
      CaPhasesCounters(s[..i], tables, shortLength, phaseNameLength);
      CountersAreRuns(Where(s[..i], PhaseCandidate), tables.phases, r);
      CountersKnown(Where(s[..i], PhaseCandidate), tables.phases);
      phaseRoute, routeStep := AdvancePhaseRoute(phaseRoute, routeStep, row, tables.phases);
      unique, report := ListPhaseInto(unique, report, phase.value, tables.routes[r].identity, dept, routeStep[r],
                                      shortLength, phaseNameLength);
    }
    assert s[..|s|] == s;
  }

  /** `export_ca_phases`: the loop over the operations sorted by `nop`. */
  method ExportCaPhases(operations: seq<Operation>, tables: Tables, shortLength: nat, phaseNameLength: nat)
    returns (report: seq<CaPhaseRecord>)
    requires forall op | op in operations && PhaseCandidate(op) && PhaseOf(tables.phases, op.id).Some? ::
      op.departmentId in tables.departments && op.routeId in tables.routes
    ensures report == CaPhasesAfter(SortByNop(operations), tables, shortLength, phaseNameLength).listing.report
  {
    var s := SortByNop(operations);
    SortByNopMembers(operations);
    assert forall op | op in s :: op in operations by {
      forall op | op in s ensures op in operations {
        assert op in multiset(s);
      }
    }
    report := CaPhasesLoop(s, tables, shortLength, phaseNameLength);
  }

  /** A candidate's priority is the number of phase runs on its route up to it. */
  lemma CaPhasePriority(s: seq<Operation>, tables: Tables, shortLength: nat, phaseNameLength: nat, r: Id)
    ensures r in CaPhasesAfter(s, tables, shortLength, phaseNameLength).counters.routeStep ==>
      CaPhasesAfter(s, tables, shortLength, phaseNameLength).counters.routeStep[r]
        == Runs(PhaseSeq(OnRoute(Where(s, PhaseCandidate), r), tables.phases))
  {
    CaPhasesCounters(s, tables, shortLength, phaseNameLength);
    CountersAreRuns(Where(s, PhaseCandidate), tables.phases, r);
  }
}
