/**
 * logic/iaimportexport.py: `get_phase_with_operation_id` and
 * `get_entity_last_phase`. Both fill `self.cache` on their first call (the
 * phase table, the main route of each entity, the last operation of each
 * route) and only look things up afterwards. The cache is the class
 * `IaImportExport`; the fetched collections are its constant fields.
 */
module PhaseResolver {
  import opened Wrappers
  import opened PyStr
  import opened PyDict
  import opened Sorting
  import opened ListToDict
  import opened Records

  /** `list_to_dict(sorted(operations, key=nop))`: for a repeated id the operation last by `nop` wins. */
  function OperationDict(ops: seq<Operation>): (d: Dict<Id, Operation>)
    ensures d.Valid()
  {
    IndexBy(SortByNop(ops), OperationId)
  }

  /**
   * An id is in the dict iff some operation has it, and it maps to one of
   * them whose `nop` is the greatest among the operations with that id.
   */
  lemma OperationDictLastByNop(ops: seq<Operation>, id: Id)
    ensures id in OperationDict(ops).items <==> exists op :: op in ops && op.id == id
    ensures id in OperationDict(ops).items ==>
      var op := OperationDict(ops).items[id];
      && op in ops && op.id == id
      && forall x | x in ops && x.id == id :: LexLe(x.nop, op.nop)
  {
    var sorted := SortByNop(ops);
    SortBySorted(ops, NopKey);
    SortByNopMembers(ops);
    IndexByKeys(sorted, OperationId, id);
    if exists op :: op in ops && op.id == id {
      var op :| op in ops && op.id == id;
      var m :| 0 <= m < |sorted| && sorted[m] == op;
      assert OperationId(sorted[m]) == id;
    }
    if id in OperationDict(ops).items {
      var op := LastKeptIsLast(sorted, OperationId, id);
    }
  }

  /** Every linked phase of the operations in the dict exists: otherwise the source raises `KeyError`. */
  ghost predicate PhaseLinksResolve(ops: seq<Operation>, routePhases: map<Id, RoutePhase>)
  {
    var d := OperationDict(ops).items;
    forall id :: id in d && d[id].phaseLink.Some? ==> d[id].phaseLink.value in routePhases
  }

  /** The phase table built from the operations whose ids are in `keys`. */
  function PhaseTableOf(keys: seq<Id>, d: map<Id, Operation>, routePhases: map<Id, RoutePhase>): map<Id, string>
  {
    map id | id in keys && id in d && d[id].phaseLink.Some? && d[id].phaseLink.value in routePhases
      :: routePhases[d[id].phaseLink.value].identity
  }

  /** One more key extends the table by that key's entry, if it has one. */
  lemma PhaseTableOfStep(keys: seq<Id>, k: Id, d: map<Id, Operation>, routePhases: map<Id, RoutePhase>)
    requires k in d && (d[k].phaseLink.Some? ==> d[k].phaseLink.value in routePhases)
    ensures d[k].phaseLink.None? ==> PhaseTableOf(keys + [k], d, routePhases) == PhaseTableOf(keys, d, routePhases)
    ensures d[k].phaseLink.Some? ==>
      PhaseTableOf(keys + [k], d, routePhases) == PhaseTableOf(keys, d, routePhases)[k := routePhases[d[k].phaseLink.value].identity]
  {
    var before := PhaseTableOf(keys, d, routePhases);
    var after := PhaseTableOf(keys + [k], d, routePhases);
    if d[k].phaseLink.None? {
      assert after.Keys == before.Keys;
    } else {
      assert after.Keys == before.Keys + {k};
    }
  }

  /** The memo table `cache['phase_identity']`: operation id to the identity of its linked phase. */
  function PhaseTable(ops: seq<Operation>, routePhases: map<Id, RoutePhase>): map<Id, string>
    requires PhaseLinksResolve(ops, routePhases)
  {
    var d := OperationDict(ops);
    PhaseTableOf(d.keys, d.items, routePhases)
  }

  /**
   * The loop of a first call: one pass over the dict, writing a warning for
   * each operation without a phase whose identity has no `(`.
   */
  method FillPhaseTable(d: Dict<Id, Operation>, routePhases: map<Id, RoutePhase>)
    returns (table: map<Id, string>, printed: seq<string>)
    requires d.Valid()
    requires forall id :: id in d.items && d.items[id].phaseLink.Some? ==> d.items[id].phaseLink.value in routePhases
    ensures table == PhaseTableOf(d.keys, d.items, routePhases)
    ensures printed == WarningsFor(d.keys, d.items)
  {
    table := map[];
    printed := [];
    for i := 0 to |d.keys|
      invariant table == PhaseTableOf(d.keys[..i], d.items, routePhases)
      invariant printed == WarningsFor(d.keys[..i], d.items)
    {
      var opId := d.keys[i];
      var operation := d.items[opId];
      FillStep(d.keys, i, d.items, routePhases);
      if operation.phaseLink.None? {
        if '(' !in operation.identity {
          printed := printed + [operation.identity];
        }
        continue;
      }
      table := table[opId := routePhases[operation.phaseLink.value].identity];
    }
    assert d.keys[..|d.keys|] == d.keys;
  }

  /** One more key of the dict: its table entry, if any, and its warning, if any. */
  lemma FillStep(keys: seq<Id>, i: nat, d: map<Id, Operation>, routePhases: map<Id, RoutePhase>)
    requires i < |keys| && forall j :: 0 <= j < |keys| ==> keys[j] in d
    requires d[keys[i]].phaseLink.Some? ==> d[keys[i]].phaseLink.value in routePhases
    ensures var op := d[keys[i]];
      PhaseTableOf(keys[..i + 1], d, routePhases) ==
        if op.phaseLink.None? then PhaseTableOf(keys[..i], d, routePhases)
        else PhaseTableOf(keys[..i], d, routePhases)[keys[i] := routePhases[op.phaseLink.value].identity]
    ensures var op := d[keys[i]];
      WarningsFor(keys[..i + 1], d) ==
        WarningsFor(keys[..i], d) + (if op.phaseLink.None? && '(' !in op.identity then [op.identity] else [])
  {
    assert keys[..i + 1][..i] == keys[..i];
    assert keys[..i + 1] == keys[..i] + [keys[i]];
    PhaseTableOfStep(keys[..i], keys[i], d, routePhases);
  }

  /** The identities warned about while the table is filled, for the keys `keys` in order. */
  function WarningsFor(keys: seq<Id>, d: map<Id, Operation>): (w: seq<string>)
    requires forall i :: 0 <= i < |keys| ==> keys[i] in d
    ensures forall i :: 0 <= i < |w| ==> '(' !in w[i]
    decreases |keys|
  {
    if keys == [] then []
    else
      var op := d[keys[|keys| - 1]];
      WarningsFor(keys[..|keys| - 1], d)
        + (if op.phaseLink.None? && '(' !in op.identity then [op.identity] else [])
  }

  /** The warnings of a first call: operations without a phase whose identity has no `(`, in dict order. */
  function Warnings(ops: seq<Operation>): seq<string>
  {
    var d := OperationDict(ops);
    WarningsFor(d.keys, d.items)
  }

  /**
   * For an operation whose id no other operation shares: with a phase link
   * it resolves to that phase's identity, without one it is absent from the
   * table.
   */
  lemma {:induction false} PhaseTableResolves(ops: seq<Operation>, routePhases: map<Id, RoutePhase>, i: nat)
    requires PhaseLinksResolve(ops, routePhases)
    requires i < |ops|
    requires forall j :: 0 <= j < |ops| && j != i ==> ops[j].id != ops[i].id
    ensures ops[i].phaseLink.Some? ==> ops[i].phaseLink.value in routePhases
    ensures ops[i].phaseLink.Some? ==> PhaseOf(PhaseTable(ops, routePhases), ops[i].id) == Some(routePhases[ops[i].phaseLink.value].identity)
    ensures ops[i].phaseLink.None? ==> PhaseOf(PhaseTable(ops, routePhases), ops[i].id) == None
  {
    var sorted := SortByNop(ops);
    SortByNopMembers(ops);
    assert ops[i] in multiset(sorted);
    var k :| 0 <= k < |sorted| && sorted[k] == ops[i];
    forall j | k < j < |sorted| ensures sorted[j].id != sorted[k].id {
      if sorted[j].id == sorted[k].id {
        assert sorted[j] in multiset(ops);
        var m :| 0 <= m < |ops| && ops[m] == sorted[j];
        if m == i {
          // the same operation twice in the sorted list means twice in the input
          assert multiset(sorted)[ops[i]] >= 2 by {
            assert sorted[k] == sorted[j] && k != j;
            var a := sorted[..k + 1];
            var b := sorted[k + 1..];
            assert sorted == a + b;
            assert ops[i] in a && ops[i] in b;
            assert multiset(sorted) == multiset(a) + multiset(b);
          }
          assert multiset(ops)[ops[i]] >= 2;
          MultiplicityTwo(ops, i);
        }
      }
    }
    IndexByLastWins(sorted, OperationId, k);
  }

  /** An element occurring twice occurs at two positions. */
  lemma MultiplicityTwo<T>(s: seq<T>, i: nat)
    requires i < |s| && multiset(s)[s[i]] >= 2
    ensures exists j :: 0 <= j < |s| && j != i && s[j] == s[i]
  {
    var a := s[..i];
    var b := s[i + 1..];
    assert s == a + [s[i]] + b;
    assert multiset(s) == multiset(a) + multiset{s[i]} + multiset(b);
    if s[i] in a {
      var j :| 0 <= j < |a| && a[j] == s[i];
      assert s[j] == s[i];
    } else {
      assert s[i] in multiset(b);
      var j :| 0 <= j < |b| && b[j] == s[i];
      assert s[i + 1 + j] == s[i];
    }
  }

  /** An id that no operation has resolves to `None`. */
  lemma UnknownOperationHasNoPhase(ops: seq<Operation>, routePhases: map<Id, RoutePhase>, opId: Id)
    requires PhaseLinksResolve(ops, routePhases)
    requires forall j :: 0 <= j < |ops| ==> ops[j].id != opId
    ensures PhaseOf(PhaseTable(ops, routePhases), opId) == None
  {
    var sorted := SortByNop(ops);
    SortByNopMembers(ops);
    IndexByKeys(sorted, OperationId, opId);
    forall k | 0 <= k < |sorted| ensures sorted[k].id != opId {
      assert sorted[k] in ops;
    }
    assert opId !in OperationDict(ops).items;
    assert opId !in PhaseTable(ops, routePhases);
  }

  /** The routes with `alternate is False`, in order. */
  function MainRouteList(routes: seq<Route>): (r: seq<Route>)
    ensures forall x :: x in r <==> x in routes && !x.alternate
  {
    if routes == [] then []
    else
      var last := routes[|routes| - 1];
      MainRouteList(routes[..|routes| - 1]) + (if last.alternate then [] else [last])
  }

  /** The main routes keep their order in the route list. */
  lemma {:induction false} MainRouteListSubsequence(routes: seq<Route>)
    ensures Subsequence(MainRouteList(routes), routes)
  {
    if routes != [] {
      var last := routes[|routes| - 1];
      MainRouteListSubsequence(routes[..|routes| - 1]);
      assert routes == routes[..|routes| - 1] + [last];
      SubsequenceExtend(MainRouteList(routes[..|routes| - 1]), routes[..|routes| - 1], last, !last.alternate);
    }
  }

  function RouteEntity(route: Route): Id
  {
    route.entityId
  }

  function OperationRoute(op: Operation): Id
  {
    op.routeId
  }

  /** `cache['main_routes']`: entity id to its main route, the last one listed if several. */
  function MainRoutes(routes: seq<Route>): map<Id, Route>
  {
    IndexBy(MainRouteList(routes), RouteEntity).items
  }

  /** `cache['last_operations_entity_route_id']`: route id to its operation last by `nop`. */
  function LastOperations(ops: seq<Operation>): map<Id, Operation>
  {
    IndexBy(SortByNop(ops), OperationRoute).items
  }

  /** `get_entity_last_phase` misses the route's last operation: `KeyError` raised. */
  datatype LookupError = NoOperationOnRoute(routeId: Id)

  /**
   * `get_entity_last_phase` as written: a main route without operations makes
   * the dict lookup raise `KeyError`, which the `except IndexError` around it
   * does not catch.
   */
  function EntityLastPhaseAsWritten(routes: seq<Route>, ops: seq<Operation>, phases: map<Id, string>, entityId: Id)
    : (r: Result<Option<string>, LookupError>)
    ensures entityId !in MainRoutes(routes) ==> r == Ok(None)
    ensures r.Err? <==> entityId in MainRoutes(routes) && MainRoutes(routes)[entityId].id !in LastOperations(ops)
  {
    var mainRoutes := MainRoutes(routes);
    if entityId !in mainRoutes then Ok(None)
    else
      var routeId := mainRoutes[entityId].id;
      var last := LastOperations(ops);
      if routeId !in last then Err(NoOperationOnRoute(routeId))
      else Ok(PhaseOf(phases, last[routeId].id))
  }

  /** `get_entity_last_phase` as evidently intended: no operation on the main route gives `None`. */
  function EntityLastPhase(routes: seq<Route>, ops: seq<Operation>, phases: map<Id, string>, entityId: Id)
    : (r: Option<string>)
    ensures entityId !in MainRoutes(routes) ==> r == None
    ensures EntityLastPhaseAsWritten(routes, ops, phases, entityId).Ok? ==>
              r == EntityLastPhaseAsWritten(routes, ops, phases, entityId).value
    ensures EntityLastPhaseAsWritten(routes, ops, phases, entityId).Err? ==> r == None
  {
    var mainRoutes := MainRoutes(routes);
    if entityId !in mainRoutes then None
    else
      var routeId := mainRoutes[entityId].id;
      var last := LastOperations(ops);
      if routeId !in last then None
      else PhaseOf(phases, last[routeId].id)
  }

  /**
   * The source raises where `None` was meant: an entity whose only main route
   * has no operation.
   */
  lemma EntityLastPhaseRaises()
    ensures EntityLastPhaseAsWritten([Route(1, 10, "R", false)], [], map[], 10).Err?
    ensures EntityLastPhase([Route(1, 10, "R", false)], [], map[], 10) == None
  {
    var routes := [Route(1, 10, "R", false)];
    assert MainRouteList(routes) == routes by {
      assert routes[..0] == [];
    }
    assert IndexBy(routes, RouteEntity).items == map[10 := routes[0]] by {
      assert routes[..0] == [];
    }
    assert LastOperations([]) == map[];
  }

  /**
   * The phase found for an entity is that of an operation on its main route
   * with the greatest `nop` there.
   */
  lemma {:induction false} EntityLastPhaseIsLastByNop(routes: seq<Route>, ops: seq<Operation>, phases: map<Id, string>, entityId: Id)
    requires EntityLastPhase(routes, ops, phases, entityId).Some?
    ensures entityId in MainRoutes(routes)
    ensures exists i :: (0 <= i < |ops|
      && ops[i].routeId == MainRoutes(routes)[entityId].id
      && PhaseOf(phases, ops[i].id) == EntityLastPhase(routes, ops, phases, entityId)
      && forall j :: 0 <= j < |ops| && ops[j].routeId == ops[i].routeId ==> LexLe(ops[j].nop, ops[i].nop))
  {
    var routeId := MainRoutes(routes)[entityId].id;
    var sorted := SortByNop(ops);
    SortBySorted(ops, NopKey);
    SortByNopMembers(ops);
    assert routeId in IndexBy(sorted, OperationRoute).items;
    var op := LastKeptIsLast(sorted, OperationRoute, routeId);
    assert op in multiset(ops);
    var i :| 0 <= i < |ops| && ops[i] == op;
    forall j | 0 <= j < |ops| && ops[j].routeId == routeId ensures LexLe(ops[j].nop, op.nop) {
      assert ops[j] in multiset(sorted);
    }
  }

  /** In a list sorted by `nop`, the operation the index keeps for a key has the greatest `nop` of that key. */
  lemma LastKeptIsLast(sorted: seq<Operation>, key: Operation -> Id, v: Id) returns (op: Operation)
    requires SortedBy(sorted, NopKey)
    requires v in IndexBy(sorted, key).items
    ensures op == IndexBy(sorted, key).items[v]
    ensures op in sorted && key(op) == v
    ensures forall x | x in sorted && key(x) == v :: LexLe(x.nop, op.nop)
  {
    IndexByKeys(sorted, key, v);
    var k :| 0 <= k < |sorted| && key(sorted[k]) == v;
    // the last position of the key in the sorted list is the one the dict keeps
    var last := LastOf(sorted, key, v, k);
    IndexByLastWins(sorted, key, last);
    op := sorted[last];
    forall x | x in sorted && key(x) == v ensures LexLe(x.nop, op.nop) {
      var m :| 0 <= m < |sorted| && sorted[m] == x;
      if m < last {
        assert KeyLe(NopKey(sorted[m]), NopKey(sorted[last]));
      } else {
        assert m == last;
        LexRefl(op.nop);
      }
    }
  }

  /** The last position at or after `k` holding an operation with key `v`. */
  lemma LastOf(s: seq<Operation>, key: Operation -> Id, v: Id, k: nat) returns (last: nat)
    requires k < |s| && key(s[k]) == v
    ensures k <= last < |s| && key(s[last]) == v
    ensures forall j :: last < j < |s| ==> key(s[j]) != v
    decreases |s| - k
  {
    if exists j :: k < j < |s| && key(s[j]) == v {
      var j :| k < j < |s| && key(s[j]) == v;
      last := LastOf(s, key, v, j);
    } else {
      last := k;
    }
  }

  /** The loop filling `cache['last_operations_entity_route_id']` from the operations sorted by `nop`. */
  method FillLastOperations(sorted: seq<Operation>) returns (last: map<Id, Operation>)
    ensures last == IndexBy(sorted, OperationRoute).items
  {
    last := map[];
    for i := 0 to |sorted|
      invariant last == IndexBy(sorted[..i], OperationRoute).items
    {
      IndexByPrefixStep(sorted, OperationRoute, i);
      last := last[sorted[i].routeId := sorted[i]];
    }
    assert sorted[..|sorted|] == sorted;
  }

  /** The run-scoped object: the fetched collections and the caches it fills. */
  class IaImportExport {
    const operations: seq<Operation>
    const routes: seq<Route>
    const routePhases: map<Id, RoutePhase>

    /** `cache['phase_identity']`, `None` until the first call fills it. */
    var phaseIdentity: Option<map<Id, string>>
    /** `cache['main_routes']`. */
    var mainRoutes: Option<map<Id, Route>>
    /** `cache['last_operations_entity_route_id']`. */
    var lastOperations: Option<map<Id, Operation>>
    /** The warnings written so far. */
    var warnings: seq<string>

    ghost predicate Valid()
      reads this
    {
      && PhaseLinksResolve(operations, routePhases)
      && (phaseIdentity.Some? ==> phaseIdentity.value == PhaseTable(operations, routePhases))
      && (mainRoutes.Some? ==> mainRoutes.value == MainRoutes(routes))
      && (lastOperations.Some? ==> lastOperations.value == LastOperations(operations))
    }

    constructor (operations: seq<Operation>, routes: seq<Route>, routePhases: map<Id, RoutePhase>)
      requires PhaseLinksResolve(operations, routePhases)
      ensures Valid()
      ensures this.operations == operations && this.routes == routes && this.routePhases == routePhases
      ensures phaseIdentity == None && mainRoutes == None && lastOperations == None && warnings == []
    {
      this.operations := operations;
      this.routes := routes;
      this.routePhases := routePhases;
      phaseIdentity := None;
      mainRoutes := None;
      lastOperations := None;
      warnings := [];
    }

    /**
     * `get_phase_with_operation_id`: the first call fills the table and
     * writes the warnings; every call returns the table's entry.
     */
    method GetPhaseWithOperationId(opId: Id) returns (r: Option<string>)
      requires Valid()
      modifies this
      ensures Valid()
      ensures r == PhaseOf(PhaseTable(operations, routePhases), opId)
      ensures phaseIdentity == Some(PhaseTable(operations, routePhases))
      ensures mainRoutes == old(mainRoutes) && lastOperations == old(lastOperations)
      ensures warnings == old(warnings) + (if old(phaseIdentity).None? then Warnings(operations) else [])
    {
      if phaseIdentity.Some? {
        return Get(phaseIdentity.value, opId);
      }
      var table, printed := FillPhaseTable(OperationDict(operations), routePhases);
      phaseIdentity := Some(table);
      warnings := warnings + printed;
      return Get(table, opId);
    }

    /**
     * `get_entity_last_phase` as written: fills the main routes on first
     * use; for an entity with a main route, the last operations too; the
     * phase table and its warnings only when that route has an operation,
     * since a main route without operations raises first.
     */
    method GetEntityLastPhase(entityId: Id) returns (r: Result<Option<string>, LookupError>)
      requires Valid()
      modifies this
      ensures Valid()
      ensures r == EntityLastPhaseAsWritten(routes, operations, PhaseTable(operations, routePhases), entityId)
      ensures mainRoutes == Some(MainRoutes(routes))
      ensures lastOperations == if entityId in MainRoutes(routes) then Some(LastOperations(operations)) else old(lastOperations)
      ensures var found := entityId in MainRoutes(routes) && MainRoutes(routes)[entityId].id in LastOperations(operations);
        && (found ==> phaseIdentity == Some(PhaseTable(operations, routePhases)))
        && (!found ==> phaseIdentity == old(phaseIdentity))
        && warnings == old(warnings) + (if found && old(phaseIdentity).None? then Warnings(operations) else [])
    {
      if mainRoutes.None? {
        mainRoutes := Some(MainRoutes(routes));
      }
      var main := mainRoutes.value;
      if entityId !in main {
        return Ok(None);
      }
      var routeId := main[entityId].id;
      if lastOperations.None? {
        var last := FillLastOperations(SortByNop(operations));
        lastOperations := Some(last);
      }
      if routeId !in lastOperations.value {
        return Err(NoOperationOnRoute(routeId));
      }
      var operation := lastOperations.value[routeId];
      var phase := GetPhaseWithOperationId(operation.id);
      return Ok(phase);
    }
  }

  /** Two calls with the same id return the same phase, whichever call filled the table. */
  method ResolveTwice(cache: IaImportExport, opId: Id) returns (first: Option<string>, second: Option<string>)
    requires cache.Valid()
    modifies cache
    ensures first == second
  {
    first := cache.GetPhaseWithOperationId(opId);
    second := cache.GetPhaseWithOperationId(opId);
  }
}
