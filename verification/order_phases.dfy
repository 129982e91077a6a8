/**
 * logic/iaimportexport_with_orders.py `export_ca_phases`: the loop of the
 * base export over the operations in `nop` order, with each record written
 * once per order of its route (`routes_orders`), the order in front of the
 * identity and of the process. The `_VPSK` test follows the phase test
 * instead of sitting inside it.
 */
module OrderPhases {
  import opened Wrappers
  import opened PyStr
  import opened PyDict
  import opened Records
  import opened Classifier
  import opened RouteWalk
  import opened ExportCaPhases
  import opened Orders

  /** A phase record written for order `o`. */
  function Prefixed(rec: CaPhaseRecord, o: string): CaPhaseRecord
  {
    rec.(identity := o + "_" + rec.identity, process := o + "_" + rec.process)
  }

  /** `for order in self.routes_orders[process]`: the record once per order of its route. */
  function Block(rec: CaPhaseRecord, lists: string -> seq<string>): (r: seq<CaPhaseRecord>)
    ensures |r| == |lists(rec.process)|
    ensures forall j | 0 <= j < |r| :: r[j] == Prefixed(rec, lists(rec.process)[j])
  {
    var os := lists(rec.process);
    seq(|os|, j requires 0 <= j < |os| => Prefixed(rec, os[j]))
  }

  /** The block of each record of a report. */
  function Blocks(report: seq<CaPhaseRecord>, lists: string -> seq<string>): (blocks: seq<seq<CaPhaseRecord>>)
    ensures |blocks| == |report|
    ensures forall i | 0 <= i < |report| :: blocks[i] == Block(report[i], lists)
  {
    seq(|report|, i requires 0 <= i < |report| => Block(report[i], lists))
  }

  /** A report with each record replaced by its block. */
  function Expand(report: seq<CaPhaseRecord>, lists: string -> seq<string>): seq<CaPhaseRecord>
  {
    Flatten(Blocks(report, lists))
  }

  /** Expanding distributes over concatenation. */
  lemma ExpandAppend(a: seq<CaPhaseRecord>, b: seq<CaPhaseRecord>, lists: string -> seq<string>)
    ensures Expand(a + b, lists) == Expand(a, lists) + Expand(b, lists)
  {
    assert Blocks(a + b, lists) == Blocks(a, lists) + Blocks(b, lists);
    FlattenAppend(Blocks(a, lists), Blocks(b, lists));
  }

  lemma ExpandOne(rec: CaPhaseRecord, lists: string -> seq<string>)
    ensures Expand([rec], lists) == Block(rec, lists)
  {
    var blocks := Blocks([rec], lists);
    FlattenStep(blocks, 0);
    assert blocks[..1] == blocks;
    assert blocks[..0] == [];
  }

  /** A record is in the expanded report exactly when it is some record of the report written for one of its route's orders. */
  lemma ExpandMembers(report: seq<CaPhaseRecord>, lists: string -> seq<string>, x: CaPhaseRecord)
    ensures x in Expand(report, lists) <==>
      exists i, o :: 0 <= i < |report| && o in lists(report[i].process) && x == Prefixed(report[i], o)
  {
    var blocks := Blocks(report, lists);
    FlattenMembers(blocks, x);
    if x in Expand(report, lists) {
      var i :| 0 <= i < |blocks| && x in blocks[i];
      var j :| 0 <= j < |blocks[i]| && blocks[i][j] == x;
      assert lists(report[i].process)[j] in lists(report[i].process);
    }
    if exists i, o :: 0 <= i < |report| && o in lists(report[i].process) && x == Prefixed(report[i], o) {
      var i, o :| 0 <= i < |report| && o in lists(report[i].process) && x == Prefixed(report[i], o);
      var j :| 0 <= j < |lists(report[i].process)| && lists(report[i].process)[j] == o;
      assert blocks[i][j] == x;
    }
  }

  /**
   * Listing phase `p` in the order variant: a new phase adds its block; then a
   * phase without `-` adds the block of its `_VPSK` record unless that
   * identity is listed.
   */
  function OrderListPhase(l: Listing, p: string, process: string, dept: string, priority: nat, shortLength: nat,
                          phaseNameLength: nat, lists: string -> seq<string>): Listing
  {
    var l1 := if p in l.unique then l
      else Listing(l.unique + {p}, l.report + Block(CaPhaseRecord(p, process, TakeLast(p, shortLength), priority, dept), lists));
    var v := Vpsk(p, phaseNameLength);
    if !HasVpsk(p) || v in l1.unique then l1
    else Listing(l1.unique + {v}, l1.report + Block(CaPhaseRecord(v, process, v, VpskPriority, dept), lists))
  }

  /** One operation of the order variant's loop. */
  function OrderCaPhasesNext(st: CaPhasesState, row: Operation, tables: Tables, shortLength: nat, phaseNameLength: nat,
                             lists: string -> seq<string>): CaPhasesState
  {
    var phase := PhaseOf(tables.phases, row.id);
    if !PhaseCandidate(row) || phase.None? then st
    else
      var counters := CountersNext(st.counters, row, tables.phases);
      CaPhasesState(
        counters,
        OrderListPhase(st.listing, phase.value, RouteIdentity(tables, row.routeId), DepartmentIdentity(tables, row.departmentId),
                       counters.routeStep[row.routeId], shortLength, phaseNameLength, lists))
  }

  /** The order variant's state after the operations `s`. */
  function OrderCaPhasesAfter(s: seq<Operation>, tables: Tables, shortLength: nat, phaseNameLength: nat,
                              lists: string -> seq<string>): CaPhasesState
  {
    if s == [] then CaPhasesState(Counters(map[], map[]), Listing({}, []))
    else OrderCaPhasesNext(OrderCaPhasesAfter(s[..|s| - 1], tables, shortLength, phaseNameLength, lists), s[|s| - 1],
                           tables, shortLength, phaseNameLength, lists)
  }

  lemma OrderCaPhasesAfterStep(s: seq<Operation>, i: nat, tables: Tables, shortLength: nat, phaseNameLength: nat,
                               lists: string -> seq<string>)
    requires i < |s|
    ensures OrderCaPhasesAfter(s[..i + 1], tables, shortLength, phaseNameLength, lists)
      == OrderCaPhasesNext(OrderCaPhasesAfter(s[..i], tables, shortLength, phaseNameLength, lists), s[i],
                           tables, shortLength, phaseNameLength, lists)
  {
    assert s[..i + 1][..i] == s[..i];
  }

  /**
   * One phase listed by both variants: when every listed phase without `-`
   * has its `_VPSK` identity listed and the phase does not itself end in
   * `_VPSK`, the order variant lists the same identities and the base
   * records' blocks.
   */
  lemma ListPhaseExpand(l: Listing, p: string, process: string, dept: string, priority: nat, shortLength: nat,
                        phaseNameLength: nat, lists: string -> seq<string>)
    requires !EndsWith(p, "_VPSK")
    requires p in l.unique && HasVpsk(p) ==> Vpsk(p, phaseNameLength) in l.unique
    ensures var base := ListPhase(l, p, process, dept, priority, shortLength, phaseNameLength);
      OrderListPhase(Listing(l.unique, Expand(l.report, lists)), p, process, dept, priority, shortLength, phaseNameLength, lists)
        == Listing(base.unique, Expand(base.report, lists))
  {
    var v := Vpsk(p, phaseNameLength);
    assert v != p;
    if p !in l.unique {
      var rec := CaPhaseRecord(p, process, TakeLast(p, shortLength), priority, dept);
      assert Expand(l.report + [rec], lists) == Expand(l.report, lists) + Block(rec, lists) by {
        ExpandAppend(l.report, [rec], lists);
        ExpandOne(rec, lists);
      }
      if HasVpsk(p) && v !in l.unique {
        var vrec := CaPhaseRecord(v, process, v, VpskPriority, dept);
        assert Expand(l.report + [rec, vrec], lists) == Expand(l.report + [rec], lists) + Block(vrec, lists) by {
          ExpandAppend(l.report + [rec], [vrec], lists);
          ExpandOne(vrec, lists);
          assert l.report + [rec, vrec] == l.report + [rec] + [vrec];
        }
        assert l.unique + {v, p} == l.unique + {p} + {v};
      }
    }
  }

  /**
   * The order variant reports exactly the base report with each record
   * written once per order of its route, provided no phase identity itself
   * ends in `_VPSK`; its counters and identities are the base export's.
   */
  lemma {:induction false} OrderPhasesExpand(s: seq<Operation>, tables: Tables, shortLength: nat, phaseNameLength: nat,
                                             lists: string -> seq<string>)
    requires forall id | id in tables.phases :: !EndsWith(tables.phases[id], "_VPSK")
    ensures var base := CaPhasesAfter(s, tables, shortLength, phaseNameLength);
      OrderCaPhasesAfter(s, tables, shortLength, phaseNameLength, lists)
        == CaPhasesState(base.counters, Listing(base.listing.unique, Expand(base.listing.report, lists)))
  {
    if s != [] {
      var front := s[..|s| - 1];
      var row := s[|s| - 1];
      OrderPhasesExpand(front, tables, shortLength, phaseNameLength, lists);
      var st := CaPhasesAfter(front, tables, shortLength, phaseNameLength);
      var phase := PhaseOf(tables.phases, row.id);
      if PhaseCandidate(row) && phase.Some? {
        var p := phase.value;
        assert row.id in tables.phases;
        CaPhasesIdentities(front, tables, shortLength, phaseNameLength);
        var cp := CandidatePhases(front, tables.phases);
        if p in st.listing.unique && HasVpsk(p) {
          assert p !in VpskSet(cp, phaseNameLength) by {
            forall q | q in cp && HasVpsk(q) ensures Vpsk(q, phaseNameLength) != p {
              assert EndsWith(Vpsk(q, phaseNameLength), "_VPSK");
            }
          }
        }
        var counters := CountersNext(st.counters, row, tables.phases);
        ListPhaseExpand(st.listing, p, RouteIdentity(tables, row.routeId), DepartmentIdentity(tables, row.departmentId),
                        counters.routeStep[row.routeId], shortLength, phaseNameLength, lists);
      }
    }
  }

  /** The inner loop over the orders of a route: the record once per order. */
  method AppendBlock(report: seq<CaPhaseRecord>, rec: CaPhaseRecord, orders: seq<string>,
                     ghost lists: string -> seq<string>)
    returns (report': seq<CaPhaseRecord>)
    requires orders == lists(rec.process)
    ensures report' == report + Block(rec, lists)
  {
    ghost var block := Block(rec, lists);
    report' := report;
    for j := 0 to |orders|
      invariant report' == report + block[..j]
    {
      assert block[..j + 1] == block[..j] + [block[j]];
      var order := orders[j];
      report' := report' + [CaPhaseRecord(order + "_" + rec.identity, order + "_" + rec.process, rec.name, rec.priority, rec.department)];
    }
    assert block[..|orders|] == block;
  }

  /** The listing step of the order variant's loop: the blocks of the phase and of its `_VPSK` record. */
  method OrderListPhaseInto(unique: set<string>, report: seq<CaPhaseRecord>, p: string, process: string, dept: string,
                            priority: nat, shortLength: nat, phaseNameLength: nat, orders: seq<string>,
                            ghost lists: string -> seq<string>)
    returns (unique': set<string>, report': seq<CaPhaseRecord>)
    requires orders == lists(process)
    ensures Listing(unique', report')
      == OrderListPhase(Listing(unique, report), p, process, dept, priority, shortLength, phaseNameLength, lists)
  {
    unique', report' := unique, report;
    if p !in unique' {
      report' := AppendBlock(report', CaPhaseRecord(p, process, TakeLast(p, shortLength), priority, dept), orders, lists);
      unique' := unique' + {p};
    }
    if '-' !in p {
      var v := Take(p, phaseNameLength) + "_VPSK";
      if v !in unique' {
        report' := AppendBlock(report', CaPhaseRecord(v, process, v, VpskPriority, dept), orders, lists);
      }
      unique' := unique' + {v};
    }
  }

  /** The order variant's loop over the operations `s`, already sorted by `nop`. */
  method OrderCaPhasesLoop(routesOrders: map<string, set<string>>, s: seq<Operation>, tables: Tables,
                           shortLength: nat, phaseNameLength: nat)
    returns (report: seq<CaPhaseRecord>)
    requires forall op | op in s && PhaseCandidate(op) && PhaseOf(tables.phases, op.id).Some? ::
      op.departmentId in tables.departments && op.routeId in tables.routes
    ensures report == OrderCaPhasesAfter(s, tables, shortLength, phaseNameLength, OrderLists(routesOrders)).listing.report
  {
    ghost var lists := OrderLists(routesOrders);
    var phaseRoute: map<Id, Option<string>> := map[];
    var routeStep: map<Id, nat> := map[];
    var unique: set<string> := {};
    report := [];
    for i := 0 to |s|
      invariant OrderCaPhasesAfter(s[..i], tables, shortLength, phaseNameLength, lists)
        == CaPhasesState(Counters(phaseRoute, routeStep), Listing(unique, report))
    {
      var row := s[i];
      OrderCaPhasesAfterStep(s, i, tables, shortLength, phaseNameLength, lists);
      if CyrEn in row.identity || CyrEs in row.identity {
        continue;
      }
      var r := row.routeId;
      var phase := Get(tables.phases, row.id);
      if phase.None? {
        continue;
      }
      var dept := tables.departments[row.departmentId].identity;
      OrderPhasesCounters(s[..i], tables, shortLength, phaseNameLength, lists);
      CountersAreRuns(Where(s[..i], PhaseCandidate), tables.phases, r);
      CountersKnown(Where(s[..i], PhaseCandidate), tables.phases);
      phaseRoute, routeStep := AdvancePhaseRoute(phaseRoute, routeStep, row, tables.phases);
      var process := tables.routes[r].identity;
      var orders := OrderList(routesOrders, process);
      unique, report := OrderListPhaseInto(unique, report, phase.value, process, dept, routeStep[r],
                                           shortLength, phaseNameLength, orders, lists);
    }
    assert s[..|s|] == s;
  }

  /** `export_ca_phases` of the order variant, reading the registry's `routes_orders`. */
  method ExportCaPhasesWithOrders(registry: OrderRegistry, operations: seq<Operation>, tables: Tables,
                                  shortLength: nat, phaseNameLength: nat)
    returns (report: seq<CaPhaseRecord>)
    requires forall op | op in operations && PhaseCandidate(op) && PhaseOf(tables.phases, op.id).Some? ::
      op.departmentId in tables.departments && op.routeId in tables.routes
    ensures report == OrderCaPhasesAfter(SortByNop(operations), tables, shortLength, phaseNameLength,
                                        OrderLists(registry.routesOrders)).listing.report
  {
    var s := SortByNop(operations);
    SortByNopMembers(operations);
    assert forall op | op in s :: op in operations by {
      forall op | op in s ensures op in operations {
        assert op in multiset(s);
      }
    }
    report := OrderCaPhasesLoop(registry.routesOrders, s, tables, shortLength, phaseNameLength);
  }

  /** The order variant's counters are the base export's: a walk over the candidate operations alone. */
  lemma {:induction false} OrderPhasesCounters(s: seq<Operation>, tables: Tables, shortLength: nat, phaseNameLength: nat,
                                               lists: string -> seq<string>)
    ensures OrderCaPhasesAfter(s, tables, shortLength, phaseNameLength, lists).counters
      == CountersAfter(Where(s, PhaseCandidate), tables.phases)
  {
    if s != [] {
      var front := s[..|s| - 1];
      OrderPhasesCounters(front, tables, shortLength, phaseNameLength, lists);
      var row := s[|s| - 1];
      var w := Where(front, PhaseCandidate);
      if PhaseCandidate(row) {
        assert Where(s, PhaseCandidate) == w + [row] by {
          assert s == front + [row];
        }
        assert (w + [row])[..|w|] == w;
      } else {
        assert Where(s, PhaseCandidate) == w by {
          assert s == front + [row];
        }
      }
    }
  }
}
