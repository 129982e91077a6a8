/**
 * What the route walkers of logic/iaimportexport.py keep per route while
 * they go through the operations in `nop` order: the operations of one route
 * so far, their phases, the last phase seen (`prev_phase`), and the step
 * counter (`route_step`), which counts the runs of equal phases.
 */
module RouteWalk {
  import opened Wrappers
  import opened Records
  import opened Sorting

  /** The operations of route `r`, in their order in `s`. */
  function OnRoute(s: seq<Operation>, r: Id): (t: seq<Operation>)
    ensures |t| <= |s|
    ensures forall i | 0 <= i < |t| :: t[i].routeId == r
  {
    if s == [] then []
    else
      var last := s[|s| - 1];
      OnRoute(s[..|s| - 1], r) + (if last.routeId == r then [last] else [])
  }

  /** The route's operations keep their order in `s`. */
  lemma {:induction false} OnRouteSubsequence(s: seq<Operation>, r: Id)
    ensures Subsequence(OnRoute(s, r), s)
  {
    if s != [] {
      var last := s[|s| - 1];
      OnRouteSubsequence(s[..|s| - 1], r);
      assert s == s[..|s| - 1] + [last];
      SubsequenceExtend(OnRoute(s[..|s| - 1], r), s[..|s| - 1], last, last.routeId == r);
    }
  }

  /** The route's operations are the operations of `s` with that route. */
  lemma {:induction false} OnRouteMembers(s: seq<Operation>, r: Id)
    ensures forall op :: op in OnRoute(s, r) <==> op in s && op.routeId == r
  {
    if s != [] {
      OnRouteMembers(s[..|s| - 1], r);
      assert s == s[..|s| - 1] + [s[|s| - 1]];
    }
  }

  /** One more operation extends its own route only. */
  lemma OnRouteStep(s: seq<Operation>, r: Id, i: nat)
    requires i < |s|
    ensures OnRoute(s[..i + 1], r) == OnRoute(s[..i], r) + (if s[i].routeId == r then [s[i]] else [])
  {
    assert s[..i + 1][..i] == s[..i];
  }

  /** The route's operations up to a point are a prefix of all its operations. */
  lemma {:induction false} OnRoutePrefix(s: seq<Operation>, r: Id, n: nat)
    requires n <= |s|
    ensures OnRoute(s[..n], r) <= OnRoute(s, r)
    decreases |s|
  {
    if n < |s| {
      var front := s[..|s| - 1];
      assert front[..n] == s[..n];
      OnRoutePrefix(front, r, n);
    } else {
      assert s[..n] == s;
    }
  }

  /** The phase of each operation, `None` for one without a phase. */
  function PhaseSeq(t: seq<Operation>, phases: map<Id, string>): (ps: seq<Option<string>>)
    ensures |ps| == |t|
    ensures forall i :: 0 <= i < |t| ==> ps[i] == PhaseOf(phases, t[i].id)
  {
    seq(|t|, i requires 0 <= i < |t| => PhaseOf(phases, t[i].id))
  }

  lemma PhaseSeqPrefix(t: seq<Operation>, phases: map<Id, string>, n: nat)
    requires n <= |t|
    ensures PhaseSeq(t[..n], phases) == PhaseSeq(t, phases)[..n]
  {
  }

  lemma PhaseSeqAppend(t: seq<Operation>, op: Operation, phases: map<Id, string>)
    ensures PhaseSeq(t + [op], phases) == PhaseSeq(t, phases) + [PhaseOf(phases, op.id)]
  {
  }

  /** The last phase that is not `None` (`prev_phase` of a walker that skips unphased operations). */
  function LastKnown(ps: seq<Option<string>>): (r: Option<string>)
    ensures r.Some? ==> r in ps
  {
    if ps == [] then None
    else if ps[|ps| - 1].Some? then ps[|ps| - 1]
    else LastKnown(ps[..|ps| - 1])
  }

  /**
   * The step counter: it starts at 0 and grows by one whenever a phase that
   * is not `None` differs from the last such phase.
   */
  function Runs(ps: seq<Option<string>>): nat
  {
    if ps == [] then 0
    else
      var p := ps[|ps| - 1];
      var front := ps[..|ps| - 1];
      Runs(front) + (if p.Some? && p != LastKnown(front) then 1 else 0)
  }

  /** The phases that are not `None`, in order. */
  function Known(ps: seq<Option<string>>): (r: seq<string>)
    ensures |r| <= |ps|
  {
    if ps == [] then []
    else
      var p := ps[|ps| - 1];
      Known(ps[..|ps| - 1]) + (if p.Some? then [p.value] else [])
  }

  /** The known phases are exactly the values that occur among the phases. */
  lemma {:induction false} KnownMembers(ps: seq<Option<string>>)
    ensures forall x :: x in Known(ps) <==> Some(x) in ps
  {
    if ps != [] {
      KnownMembers(ps[..|ps| - 1]);
      assert ps == ps[..|ps| - 1] + [ps[|ps| - 1]];
    }
  }

  /** `xs` with each block of equal neighbours collapsed to one element. */
  function Compress(xs: seq<string>): (r: seq<string>)
    ensures |r| <= |xs|
    ensures xs != [] ==> r != [] && r[0] == xs[0] && r[|r| - 1] == xs[|xs| - 1]
  {
    if xs == [] then []
    else
      var front := xs[..|xs| - 1];
      var x := xs[|xs| - 1];
      if front != [] && front[|front| - 1] == x then Compress(front) else Compress(front) + [x]
  }

  /** Compressing only leaves elements out. */
  lemma {:induction false} CompressSubsequence(xs: seq<string>)
    ensures Subsequence(Compress(xs), xs)
  {
    if xs != [] {
      var front := xs[..|xs| - 1];
      var x := xs[|xs| - 1];
      CompressSubsequence(front);
      assert xs == front + [x];
      SubsequenceExtend(Compress(front), front, x, !(front != [] && front[|front| - 1] == x));
    }
  }

  /** No two neighbours of a compressed sequence are equal. */
  lemma {:induction false} CompressNoRepeats(xs: seq<string>)
    ensures forall i :: 0 < i < |Compress(xs)| ==> Compress(xs)[i - 1] != Compress(xs)[i]
  {
    if xs != [] {
      CompressNoRepeats(xs[..|xs| - 1]);
    }
  }

  lemma {:induction false} LastKnownIsLastOfKnown(ps: seq<Option<string>>)
    ensures LastKnown(ps) == if Known(ps) == [] then None else Some(Known(ps)[|Known(ps)| - 1])
  {
    if ps != [] && ps[|ps| - 1].None? {
      LastKnownIsLastOfKnown(ps[..|ps| - 1]);
    }
  }

  /** The step counter is the number of runs: the length of the compressed known phases. */
  lemma {:induction false} RunsIsCompressedLength(ps: seq<Option<string>>)
    ensures Runs(ps) == |Compress(Known(ps))|
  {
    if ps != [] {
      var front := ps[..|ps| - 1];
      RunsIsCompressedLength(front);
      LastKnownIsLastOfKnown(front);
      var p := ps[|ps| - 1];
      if p.Some? {
        var k := Known(front);
        var xs := k + [p.value];
        assert Known(ps) == xs;
        assert xs[..|xs| - 1] == k;
        assert Compress(xs) == if k != [] && k[|k| - 1] == p.value then Compress(k) else Compress(k) + [p.value];
        assert Runs(ps) == Runs(front) + (if p != LastKnown(front) then 1 else 0);
      } else {
        assert Known(ps) == Known(front);
        assert Runs(ps) == Runs(front);
      }
    }
  }

  /** The counter never decreases along the walk. */
  lemma {:induction false} RunsMonotone(ps: seq<Option<string>>, n: nat)
    requires n <= |ps|
    ensures Runs(ps[..n]) <= Runs(ps)
    decreases |ps|
  {
    if n < |ps| {
      var front := ps[..|ps| - 1];
      assert front[..n] == ps[..n];
      RunsMonotone(front, n);
    } else {
      assert ps[..n] == ps;
    }
  }

  /** One more phase: the counter and the last known phase after it. */
  lemma RunsAppend(ps: seq<Option<string>>, p: Option<string>)
    ensures Runs(ps + [p]) == Runs(ps) + (if p.Some? && p != LastKnown(ps) then 1 else 0)
    ensures LastKnown(ps + [p]) == if p.Some? then p else LastKnown(ps)
  {
    assert (ps + [p])[..|ps|] == ps;
  }

  /** A phase that is not `None` means at least one run, and runs never outnumber phases. */
  lemma {:induction false} RunsBounds(ps: seq<Option<string>>)
    ensures Runs(ps) <= |ps|
    ensures LastKnown(ps).Some? ==> Runs(ps) >= 1
    ensures LastKnown(ps).None? ==> Runs(ps) == 0
  {
    if ps != [] {
      RunsBounds(ps[..|ps| - 1]);
    }
  }

  /** The set of phases that are not `None`. */
  function KnownSet(ps: seq<Option<string>>): (r: set<string>)
    ensures forall p :: p in r <==> Some(p) in ps
  {
    set i | 0 <= i < |ps| && ps[i].Some? :: ps[i].value
  }

  /** Whether position `k` is the first at which phase `Some(p)` appears. */
  predicate FirstOccurrence(ps: seq<Option<string>>, k: nat)
  {
    k < |ps| && ps[k].Some? && Some(ps[k].value) !in ps[..k]
  }

  /** At the first occurrence of a phase on the whole walk, a new run starts on its route. */
  lemma StartsRun(ps: seq<Option<string>>, p: string)
    requires Some(p) !in ps
    ensures LastKnown(ps) != Some(p)
  {
  }

  /** A walker's per-route counters: the last phase seen (`prev_phase`) and the step counter (`route_step`). */
  datatype Counters = Counters(prevPhase: map<Id, Option<string>>, routeStep: map<Id, nat>)

  /** One step of the counters: an unphased operation is skipped. */
  function CountersNext(st: Counters, row: Operation, phases: map<Id, string>): Counters
  {
    var r := row.routeId;
    var phase := PhaseOf(phases, row.id);
    if phase.None? then st
    else
      var prev := if r in st.prevPhase then st.prevPhase[r] else None;
      var step := (if r in st.routeStep then st.routeStep[r] else 0) + (if prev != phase then 1 else 0);
      Counters(st.prevPhase[r := phase], st.routeStep[r := step])
  }

  /** The counters after the operations `s`. */
  function CountersAfter(s: seq<Operation>, phases: map<Id, string>): Counters
  {
    if s == [] then Counters(map[], map[])
    else CountersNext(CountersAfter(s[..|s| - 1], phases), s[|s| - 1], phases)
  }

  lemma CountersAfterStep(s: seq<Operation>, i: nat, phases: map<Id, string>)
    requires i < |s|
    ensures CountersAfter(s[..i + 1], phases) == CountersNext(CountersAfter(s[..i], phases), s[i], phases)
  {
    assert s[..i + 1][..i] == s[..i];
  }

  /** The counters are the runs of each route's phases so far, and the last phase seen. */
  lemma {:induction false} CountersAreRuns(s: seq<Operation>, phases: map<Id, string>, r: Id)
    ensures r in CountersAfter(s, phases).routeStep <==> r in CountersAfter(s, phases).prevPhase
    ensures r in CountersAfter(s, phases).routeStep ==>
      CountersAfter(s, phases).routeStep[r] == Runs(PhaseSeq(OnRoute(s, r), phases))
    ensures r in CountersAfter(s, phases).prevPhase ==>
      CountersAfter(s, phases).prevPhase[r] == LastKnown(PhaseSeq(OnRoute(s, r), phases))
    ensures r !in CountersAfter(s, phases).prevPhase ==> LastKnown(PhaseSeq(OnRoute(s, r), phases)) == None
  {
    if s != [] {
      var front := s[..|s| - 1];
      var row := s[|s| - 1];
      CountersAreRuns(front, phases, r);
      var before := OnRoute(front, r);
      if row.routeId == r {
        var ps := PhaseSeq(before, phases);
        PhaseSeqAppend(before, row, phases);
        RunsAppend(ps, PhaseOf(phases, row.id));
        RunsBounds(ps);
      } else {
        assert OnRoute(s, r) == before + [] == before;
      }
    }
  }

  /** Only phases that are not `None` are stored as the last phase seen. */
  lemma {:induction false} CountersKnown(s: seq<Operation>, phases: map<Id, string>)
    ensures forall r | r in CountersAfter(s, phases).prevPhase :: CountersAfter(s, phases).prevPhase[r].Some?
  {
    if s != [] {
      CountersKnown(s[..|s| - 1], phases);
    }
  }

  /** The operations of `s` that `keep` accepts, in order. */
  function Where(s: seq<Operation>, keep: Operation -> bool): (t: seq<Operation>)
    ensures |t| <= |s|
  {
    if s == [] then []
    else Where(s[..|s| - 1], keep) + (if keep(s[|s| - 1]) then [s[|s| - 1]] else [])
  }

  lemma WhereStep(s: seq<Operation>, keep: Operation -> bool, i: nat)
    requires i < |s|
    ensures Where(s[..i + 1], keep) == Where(s[..i], keep) + (if keep(s[i]) then [s[i]] else [])
  {
    assert s[..i + 1][..i] == s[..i];
  }

  /** Filtering only leaves operations out, and keeps only accepted ones. */
  lemma {:induction false} WhereSubsequence(s: seq<Operation>, keep: Operation -> bool)
    ensures Subsequence(Where(s, keep), s)
    ensures forall i | 0 <= i < |Where(s, keep)| :: keep(Where(s, keep)[i])
  {
    if s != [] {
      WhereSubsequence(s[..|s| - 1], keep);
      assert s == s[..|s| - 1] + [s[|s| - 1]];
      SubsequenceExtend(Where(s[..|s| - 1], keep), s[..|s| - 1], s[|s| - 1], keep(s[|s| - 1]));
    }
  }

  lemma {:induction false} WhereMembers(s: seq<Operation>, keep: Operation -> bool)
    ensures forall op :: op in Where(s, keep) <==> op in s && keep(op)
  {
    if s != [] {
      WhereMembers(s[..|s| - 1], keep);
      assert s == s[..|s| - 1] + [s[|s| - 1]];
    }
  }
}
