/**
 * The orders of logic/iaimportexport_with_orders.py: `entity_orders` maps an
 * entity identity to the keys of the orders its simulated tasks belong to,
 * and `routes_orders` maps a route identity to the orders `export_ca_routes`
 * emitted it for. Both are `defaultdict(set)`s the object keeps and the
 * exports read.
 */
module Orders {
  import opened Wrappers
  import opened PyStr
  import opened Records
  import opened Sorting
  import opened DailyTasks
  import opened SimTasks

  /** `order['name'][:9]`. */
  function OrderKeyOf(name: string): (k: OrderKey)
    ensures k <= name
    ensures |name| <= 9 ==> k == name
  {
    Take(name, 9)
  }

  /** The lookups of a task's order: its batch, the batch's order link and the order. */
  predicate OrderResolves(t: SimTask, tables: TaskTables)
  {
    t.batchId in tables.batches && t.batchId in tables.batchOrders && tables.batchOrders[t.batchId] in tables.orders
  }

  /** The order key of a task's batch. */
  function TaskOrder(t: SimTask, tables: TaskTables): OrderKey
    requires OrderResolves(t, tables)
  {
    OrderKeyOf(tables.orders[tables.batchOrders[t.batchId]])
  }

  /** `orders[k]` on a `defaultdict(set)`: empty for a missing key. */
  function OrdersOf(m: map<string, set<string>>, k: string): set<string>
  {
    if k in m then m[k] else {}
  }

  /** `for order in orders[k]`: the set in ascending order, each order once. */
  function OrderList(m: map<string, set<string>>, k: string): (r: seq<string>)
    ensures |r| == |OrdersOf(m, k)|
    ensures forall o :: o in r <==> o in OrdersOf(m, k)
    ensures forall i, j :: 0 <= i < j < |r| ==> r[i] != r[j]
  {
    var r := SortedElements(OrdersOf(m, k));
    forall i, j | 0 <= i < j < |r| ensures r[i] != r[j] {
      LexLtIrreflexive(r[i], r[j]);
    }
    r
  }

  /** A string is not below itself. */
  lemma LexLtIrreflexive(a: string, b: string)
    requires LexLt(a, b)
    ensures a != b
  {
  }

  /** A table of order sets read as the ascending order list of each key. */
  function OrderLists(m: map<string, set<string>>): string -> seq<string>
  {
    k => OrderList(m, k)
  }

  /** `orders[k].add(o)`. */
  function AddOrder(m: map<string, set<string>>, k: string, o: string): (m': map<string, set<string>>)
    ensures forall k' :: OrdersOf(m', k') == if k' == k then OrdersOf(m, k) + {o} else OrdersOf(m, k')
  {
    m[k := OrdersOf(m, k) + {o}]
  }

  /** `orders[k].add(o)` for each `o` of `os` in turn. */
  function AddOrders(m: map<string, set<string>>, k: string, os: seq<string>): map<string, set<string>>
  {
    if os == [] then m else AddOrder(AddOrders(m, k, os[..|os| - 1]), k, os[|os| - 1])
  }

  lemma AddOrdersStep(m: map<string, set<string>>, k: string, os: seq<string>, j: nat)
    requires j < |os|
    ensures AddOrders(m, k, os[..j + 1]) == AddOrders(m, k, os[..j])[k := OrdersOf(AddOrders(m, k, os[..j]), k) + {os[j]}]
  {
    assert os[..j + 1][..j] == os[..j];
  }

  /** Adding orders one by one adds exactly them, to that key only. */
  lemma {:induction false} AddOrdersUnion(m: map<string, set<string>>, k: string, os: seq<string>)
    ensures OrdersOf(AddOrders(m, k, os), k) == OrdersOf(m, k) + (set o | o in os)
    ensures forall k' | k' != k :: OrdersOf(AddOrders(m, k, os), k') == OrdersOf(m, k')
  {
    if os != [] {
      var front := os[..|os| - 1];
      AddOrdersUnion(m, k, front);
      assert os == front + [os[|os| - 1]];
      assert (set o | o in os) == (set o | o in front) + {os[|os| - 1]};
    }
  }

  /** The orders one step of a loop adds under one key. */
  datatype Filing = Filing(key: string, orders: seq<string>)

  /** The table after the filings `fs`, in turn. */
  function File(m: map<string, set<string>>, fs: seq<Filing>): map<string, set<string>>
  {
    if fs == [] then m
    else AddOrders(File(m, fs[..|fs| - 1]), fs[|fs| - 1].key, fs[|fs| - 1].orders)
  }

  lemma FileStep(m: map<string, set<string>>, fs: seq<Filing>, i: nat)
    requires i < |fs|
    ensures File(m, fs[..i + 1]) == AddOrders(File(m, fs[..i]), fs[i].key, fs[i].orders)
  {
    assert fs[..i + 1][..i] == fs[..i];
  }

  /** Some filing of `fs` adds order `o` under key `k`. */
  predicate Filed(fs: seq<Filing>, k: string, o: string)
  {
    exists i :: 0 <= i < |fs| && fs[i].key == k && o in fs[i].orders
  }

  lemma FiledStep(fs: seq<Filing>, k: string, o: string)
    requires fs != []
    ensures Filed(fs, k, o) <==> Filed(fs[..|fs| - 1], k, o) || (fs[|fs| - 1].key == k && o in fs[|fs| - 1].orders)
  {
    var front := fs[..|fs| - 1];
    if Filed(fs, k, o) {
      var i :| 0 <= i < |fs| && fs[i].key == k && o in fs[i].orders;
      if i < |front| {
        assert front[i] == fs[i];
      }
    }
    if Filed(front, k, o) {
      var i :| 0 <= i < |front| && front[i].key == k && o in front[i].orders;
      assert fs[i] == front[i];
    }
  }

  /** A key holds an order after the filings exactly when it held it before or some filing under that key adds it. */
  lemma {:induction false} FileMembers(m: map<string, set<string>>, fs: seq<Filing>, k: string, o: string)
    ensures o in OrdersOf(File(m, fs), k) <==> o in OrdersOf(m, k) || Filed(fs, k, o)
  {
    if fs != [] {
      var front := fs[..|fs| - 1];
      var last := fs[|fs| - 1];
      FileMembers(m, front, k, o);
      AddOrdersUnion(File(m, front), last.key, last.orders);
      FiledStep(fs, k, o);
    }
  }

  /** Filing the same orders again adds nothing: the orders of a key are a set. */
  lemma FileTwice(m: map<string, set<string>>, fs: seq<Filing>, k: string)
    ensures OrdersOf(File(File(m, fs), fs), k) == OrdersOf(File(m, fs), k)
  {
    var once := File(m, fs);
    forall o ensures o in OrdersOf(File(once, fs), k) <==> o in OrdersOf(once, k) {
      FileMembers(once, fs, k, o);
      FileMembers(m, fs, k, o);
    }
  }

  /** The blocks of records, one after the other. */
  function Flatten<T>(blocks: seq<seq<T>>): seq<T>
  {
    if blocks == [] then [] else Flatten(blocks[..|blocks| - 1]) + blocks[|blocks| - 1]
  }

  lemma FlattenStep<T>(blocks: seq<seq<T>>, i: nat)
    requires i < |blocks|
    ensures Flatten(blocks[..i + 1]) == Flatten(blocks[..i]) + blocks[i]
  {
    assert blocks[..i + 1][..i] == blocks[..i];
  }

  /** Flattening distributes over concatenation. */
  lemma {:induction false} FlattenAppend<T>(a: seq<seq<T>>, b: seq<seq<T>>)
    ensures Flatten(a + b) == Flatten(a) + Flatten(b)
  {
    if b == [] {
      assert a + b == a;
    } else {
      var front := b[..|b| - 1];
      FlattenAppend(a, front);
      assert (a + b)[..|a + b| - 1] == a + front;
      assert (a + b)[|a + b| - 1] == b[|b| - 1];
    }
  }

  /** A record is in the flattened blocks exactly when it is in one of them. */
  lemma {:induction false} FlattenMembers<T>(blocks: seq<seq<T>>, x: T)
    ensures x in Flatten(blocks) <==> exists i :: 0 <= i < |blocks| && x in blocks[i]
  {
    if blocks != [] {
      var front := blocks[..|blocks| - 1];
      FlattenMembers(front, x);
      if exists i :: 0 <= i < |blocks| && x in blocks[i] {
        var i :| 0 <= i < |blocks| && x in blocks[i];
        if i < |front| {
          assert front[i] == blocks[i];
        }
      }
      if exists i :: 0 <= i < |front| && x in front[i] {
        var i :| 0 <= i < |front| && x in front[i];
        assert blocks[i] == front[i];
      }
    }
  }

  // ---------------------------------------------------------------------
  // collect_orders_from_daily_tasks

  /** Every lookup the collecting loop makes for task `t`. */
  predicate CollectResolves(t: SimTask, tables: TaskTables, filter: DeptFilter, today: string)
  {
    GateResolves(t, tables, filter) && (BaseGate(t, tables, filter, today).Due? ==> OrderResolves(t, tables))
  }

  /** Whether task `t` files order `o` under entity `e`: it passes the base tests, is due, and belongs to `o`. */
  predicate Files(t: SimTask, tables: TaskTables, filter: DeptFilter, today: string, e: string, o: string)
    requires CollectResolves(t, tables, filter, today)
  {
    var g := BaseGate(t, tables, filter, today);
    g.Due? && g.assembly == e && TaskOrder(t, tables) == o
  }

  /** What one task of the loop files: a due task its order under its assembly element, any other task nothing. */
  function TaskFiling(t: SimTask, tables: TaskTables, filter: DeptFilter, today: string): Filing
    requires CollectResolves(t, tables, filter, today)
  {
    match BaseGate(t, tables, filter, today)
    case Due(_, assembly) => Filing(assembly, [TaskOrder(t, tables)])
    case _ => Filing("", [])
  }

  lemma TaskFilingFiles(t: SimTask, tables: TaskTables, filter: DeptFilter, today: string, e: string, o: string)
    requires CollectResolves(t, tables, filter, today)
    ensures var f := TaskFiling(t, tables, filter, today);
      f.key == e && o in f.orders <==> Files(t, tables, filter, today, e, o)
  {
    var g := BaseGate(t, tables, filter, today);
    var f := TaskFiling(t, tables, filter, today);
    if g.Due? {
      var k := TaskOrder(t, tables);
      assert f == Filing(g.assembly, [k]);
      assert o in f.orders <==> o == k;
      assert Files(t, tables, filter, today, e, o) <==> g.assembly == e && k == o;
    } else {
      assert f.orders == [];
      assert !Files(t, tables, filter, today, e, o);
    }
  }

  /** The filings of the tasks, in the order of the query. */
  function TaskFilings(tasks: seq<SimTask>, tables: TaskTables, filter: DeptFilter, today: string): (fs: seq<Filing>)
    requires forall i | 0 <= i < |tasks| :: CollectResolves(tasks[i], tables, filter, today)
    ensures |fs| == |tasks|
    ensures forall i | 0 <= i < |tasks| :: fs[i] == TaskFiling(tasks[i], tables, filter, today)
  {
    seq(|tasks|, i requires 0 <= i < |tasks| => TaskFiling(tasks[i], tables, filter, today))
  }

  /** `entity_orders` after the loop over `tasks`. */
  function Collected(m: map<string, set<string>>, tasks: seq<SimTask>, tables: TaskTables, filter: DeptFilter, today: string)
    : map<string, set<string>>
    requires forall i | 0 <= i < |tasks| :: CollectResolves(tasks[i], tables, filter, today)
  {
    File(m, TaskFilings(tasks, tables, filter, today))
  }

  /**
   * An entity holds an order after the loop exactly when it held it before
   * or some task files it there.
   */
  lemma CollectedMembers(m: map<string, set<string>>, tasks: seq<SimTask>, tables: TaskTables,
                         filter: DeptFilter, today: string, e: string, o: string)
    requires forall i | 0 <= i < |tasks| :: CollectResolves(tasks[i], tables, filter, today)
    ensures o in OrdersOf(Collected(m, tasks, tables, filter, today), e) <==>
      o in OrdersOf(m, e) || exists i :: 0 <= i < |tasks| && Files(tasks[i], tables, filter, today, e, o)
  {
    var fs := TaskFilings(tasks, tables, filter, today);
    FileMembers(m, fs, e, o);
    if Filed(fs, e, o) {
      var i :| 0 <= i < |fs| && fs[i].key == e && o in fs[i].orders;
      TaskFilingFiles(tasks[i], tables, filter, today, e, o);
    }
    if exists i :: 0 <= i < |tasks| && Files(tasks[i], tables, filter, today, e, o) {
      var i :| 0 <= i < |tasks| && Files(tasks[i], tables, filter, today, e, o);
      TaskFilingFiles(tasks[i], tables, filter, today, e, o);
    }
  }

  /** Collecting the same tasks a second time adds nothing. */
  lemma CollectTwice(m: map<string, set<string>>, tasks: seq<SimTask>, tables: TaskTables, filter: DeptFilter, today: string, e: string)
    requires forall i | 0 <= i < |tasks| :: CollectResolves(tasks[i], tables, filter, today)
    ensures OrdersOf(Collected(Collected(m, tasks, tables, filter, today), tasks, tables, filter, today), e)
      == OrdersOf(Collected(m, tasks, tables, filter, today), e)
  {
    FileTwice(m, TaskFilings(tasks, tables, filter, today), e);
  }

  // ---------------------------------------------------------------------
  // export_entities and export_ca_routes of the order variant

  /** A record of the order variant's `export_entities`. */
  datatype OrderEntity = OrderEntity(identity: string, name: string, vendorCode: string)

  /** The record of entity `e` under order `o`. */
  function EntityRecord(e: Entity, o: string): OrderEntity
  {
    OrderEntity(o + "_" + e.identity, e.name, o + "_" + e.identity)
  }

  /** The records of one entity: one per order of the entity. */
  function EntityRecords(entity: Entity, entityOrders: map<string, set<string>>): (r: seq<OrderEntity>)
    ensures |r| == |OrdersOf(entityOrders, entity.identity)|
    ensures forall rec :: rec in r <==> exists o :: o in OrdersOf(entityOrders, entity.identity) && rec == EntityRecord(entity, o)
  {
    var os := OrderList(entityOrders, entity.identity);
    var r := seq(|os|, j requires 0 <= j < |os| => EntityRecord(entity, os[j]));
    forall rec | rec in r ensures exists o :: o in OrdersOf(entityOrders, entity.identity) && rec == EntityRecord(entity, o) {
      var j :| 0 <= j < |r| && r[j] == rec;
      assert os[j] in os;
    }
    forall o | o in OrdersOf(entityOrders, entity.identity) ensures EntityRecord(entity, o) in r {
      var j :| 0 <= j < |os| && os[j] == o;
      assert r[j] == EntityRecord(entity, o);
    }
    r
  }

  /** `export_entities`: each entity once per order of it, entity after entity. */
  function ExportEntities(entities: seq<Entity>, entityOrders: map<string, set<string>>): seq<OrderEntity>
  {
    Flatten(seq(|entities|, i requires 0 <= i < |entities| => EntityRecords(entities[i], entityOrders)))
  }

  /** A record is emitted exactly for an entity and one of its orders, prefixed by the order. */
  lemma ExportEntitiesMembers(entities: seq<Entity>, entityOrders: map<string, set<string>>, rec: OrderEntity)
    ensures rec in ExportEntities(entities, entityOrders) <==>
      exists i, o :: 0 <= i < |entities| && o in OrdersOf(entityOrders, entities[i].identity)
        && rec == EntityRecord(entities[i], o)
  {
    var blocks := seq(|entities|, i requires 0 <= i < |entities| => EntityRecords(entities[i], entityOrders));
    FlattenMembers(blocks, rec);
    if exists i :: 0 <= i < |blocks| && rec in blocks[i] {
      var i :| 0 <= i < |blocks| && rec in blocks[i];
      var o :| o in OrdersOf(entityOrders, entities[i].identity) && rec == EntityRecord(entities[i], o);
    }
    if exists i, o :: 0 <= i < |entities| && o in OrdersOf(entityOrders, entities[i].identity) && rec == EntityRecord(entities[i], o) {
      var i, o :| 0 <= i < |entities| && o in OrdersOf(entityOrders, entities[i].identity) && rec == EntityRecord(entities[i], o);
      assert rec in blocks[i];
    }
  }

  /** A record of the order variant's `export_ca_routes`. */
  datatype OrderRoute = OrderRoute(identity: string, assembly: string, name: string)

  /** The identity of a route's entity; the export reads it only for a route whose entity exists. */
  function RouteEntity(route: Route, entities: map<Id, Entity>): string
  {
    if route.entityId in entities then entities[route.entityId].identity else ""
  }

  /** The record of route `route` under order `o`. */
  function RouteRecord(route: Route, entities: map<Id, Entity>, o: string): OrderRoute
  {
    OrderRoute(o + "_" + route.identity, o + "_" + RouteEntity(route, entities), route.identity)
  }

  /** The records of one route: one per order of its entity, in the order the orders are listed. */
  function RouteRecords(route: Route, entities: map<Id, Entity>, entityOrders: map<string, set<string>>): (r: seq<OrderRoute>)
    ensures |r| == |OrdersOf(entityOrders, RouteEntity(route, entities))|
    ensures forall j | 0 <= j < |r| :: r[j] == RouteRecord(route, entities, OrderList(entityOrders, RouteEntity(route, entities))[j])
  {
    var os := OrderList(entityOrders, RouteEntity(route, entities));
    seq(|os|, j requires 0 <= j < |os| => RouteRecord(route, entities, os[j]))
  }

  /** A route's records are exactly its records under the orders of its entity. */
  lemma RouteRecordsMembers(route: Route, entities: map<Id, Entity>, entityOrders: map<string, set<string>>, rec: OrderRoute)
    ensures rec in RouteRecords(route, entities, entityOrders) <==>
      exists o :: o in OrdersOf(entityOrders, RouteEntity(route, entities)) && rec == RouteRecord(route, entities, o)
  {
    var os := OrderList(entityOrders, RouteEntity(route, entities));
    var r := RouteRecords(route, entities, entityOrders);
    if rec in r {
      var j :| 0 <= j < |r| && r[j] == rec;
      assert os[j] in os;
    }
    if exists o :: o in OrdersOf(entityOrders, RouteEntity(route, entities)) && rec == RouteRecord(route, entities, o) {
      var o :| o in OrdersOf(entityOrders, RouteEntity(route, entities)) && rec == RouteRecord(route, entities, o);
      var j :| 0 <= j < |os| && os[j] == o;
      assert r[j] == rec;
    }
  }

  /** The record blocks of `export_ca_routes`, route after route. */
  function RouteBlocks(routes: seq<Route>, entities: map<Id, Entity>, entityOrders: map<string, set<string>>)
    : (blocks: seq<seq<OrderRoute>>)
    ensures |blocks| == |routes|
    ensures forall i | 0 <= i < |routes| :: blocks[i] == RouteRecords(routes[i], entities, entityOrders)
  {
    seq(|routes|, i requires 0 <= i < |routes| => RouteRecords(routes[i], entities, entityOrders))
  }

  /** The report of `export_ca_routes`. */
  function RoutesReport(routes: seq<Route>, entities: map<Id, Entity>, entityOrders: map<string, set<string>>): seq<OrderRoute>
  {
    Flatten(RouteBlocks(routes, entities, entityOrders))
  }

  /** Every route record names a route under one of its entity's orders, and every such record is emitted. */
  lemma RoutesReportMembers(routes: seq<Route>, entities: map<Id, Entity>, entityOrders: map<string, set<string>>,
                            rec: OrderRoute)
    ensures rec in RoutesReport(routes, entities, entityOrders) <==>
      exists i, o :: 0 <= i < |routes| && o in OrdersOf(entityOrders, RouteEntity(routes[i], entities))
        && rec == RouteRecord(routes[i], entities, o)
  {
    var blocks := RouteBlocks(routes, entities, entityOrders);
    FlattenMembers(blocks, rec);
    if exists i :: 0 <= i < |blocks| && rec in blocks[i] {
      RouteBlockToRecord(routes, entities, entityOrders, rec);
    }
    if exists i, o :: 0 <= i < |routes| && o in OrdersOf(entityOrders, RouteEntity(routes[i], entities))
                      && rec == RouteRecord(routes[i], entities, o) {
      var i, o :| 0 <= i < |routes| && o in OrdersOf(entityOrders, RouteEntity(routes[i], entities))
                  && rec == RouteRecord(routes[i], entities, o);
      RouteRecordsMembers(routes[i], entities, entityOrders, rec);
      assert rec in blocks[i];
    }
  }

  /** A record of some route's block is that route's record under one of its entity's orders. */
  lemma RouteBlockToRecord(routes: seq<Route>, entities: map<Id, Entity>, entityOrders: map<string, set<string>>,
                           rec: OrderRoute)
    requires exists i :: 0 <= i < |routes| && rec in RouteBlocks(routes, entities, entityOrders)[i]
    ensures exists i, o :: (0 <= i < |routes| && o in OrdersOf(entityOrders, RouteEntity(routes[i], entities))
      && rec == RouteRecord(routes[i], entities, o))
  {
    var i :| 0 <= i < |routes| && rec in RouteBlocks(routes, entities, entityOrders)[i];
    RouteRecordsMembers(routes[i], entities, entityOrders, rec);
    var o :| o in OrdersOf(entityOrders, RouteEntity(routes[i], entities)) && rec == RouteRecord(routes[i], entities, o);
  }

  /** What `export_ca_routes` files for each route: the orders of its entity, under the route's identity. */
  function RouteFilings(routes: seq<Route>, entities: map<Id, Entity>, entityOrders: map<string, set<string>>)
    : (fs: seq<Filing>)
    ensures |fs| == |routes|
    ensures forall i | 0 <= i < |routes| ::
      fs[i] == Filing(routes[i].identity, OrderList(entityOrders, RouteEntity(routes[i], entities)))
  {
    seq(|routes|, i requires 0 <= i < |routes| =>
      Filing(routes[i].identity, OrderList(entityOrders, RouteEntity(routes[i], entities))))
  }

  /** `routes_orders` after `export_ca_routes`. */
  function RoutesOrdersAfter(routesOrders: map<string, set<string>>, routes: seq<Route>, entities: map<Id, Entity>,
                             entityOrders: map<string, set<string>>): map<string, set<string>>
  {
    File(routesOrders, RouteFilings(routes, entities, entityOrders))
  }

  /**
   * After `export_ca_routes` a route identity holds exactly the orders it held
   * before and the orders of the entities of the routes with that identity:
   * the orders `export_ca_phases` then emits its phases for.
   */
  lemma RoutesOrdersMembers(routesOrders: map<string, set<string>>, routes: seq<Route>,
                            entities: map<Id, Entity>, entityOrders: map<string, set<string>>,
                            name: string, o: string)
    ensures o in OrdersOf(RoutesOrdersAfter(routesOrders, routes, entities, entityOrders), name) <==>
      o in OrdersOf(routesOrders, name)
      || exists i :: 0 <= i < |routes| && routes[i].identity == name && o in OrdersOf(entityOrders, RouteEntity(routes[i], entities))
  {
    FileMembers(routesOrders, RouteFilings(routes, entities, entityOrders), name, o);
  }

  /** The loop of `export_ca_routes` over the orders `orders` of one route's entity. */
  method RouteOrdersLoop(identity: string, entity: string, orders: seq<string>, routesOrders: map<string, set<string>>)
    returns (records: seq<OrderRoute>, filed: map<string, set<string>>)
    ensures |records| == |orders|
    ensures forall m | 0 <= m < |orders| :: records[m] == OrderRoute(orders[m] + "_" + identity, orders[m] + "_" + entity, identity)
    ensures filed == AddOrders(routesOrders, identity, orders)
  {
    filed := routesOrders;
    records := [];
    for j := 0 to |orders|
      invariant |records| == j
      invariant forall m | 0 <= m < j :: records[m] == OrderRoute(orders[m] + "_" + identity, orders[m] + "_" + entity, identity)
      invariant filed == AddOrders(routesOrders, identity, orders[..j])
    {
      AddOrdersStep(routesOrders, identity, orders, j);
      var order := orders[j];
      records := records + [OrderRoute(order + "_" + identity, order + "_" + entity, identity)];
      var current := if identity in filed then filed[identity] else {};
      filed := filed[identity := current + {order}];
    }
    assert orders[..|orders|] == orders;
  }

  /** One route of `export_ca_routes`: its records, and its entity's orders filed under its identity. */
  method RouteOrders(row: Route, entities: map<Id, Entity>, entityOrders: map<string, set<string>>,
                     routesOrders: map<string, set<string>>)
    returns (records: seq<OrderRoute>, filed: map<string, set<string>>)
    requires row.entityId in entities
    ensures records == RouteRecords(row, entities, entityOrders)
    ensures filed == AddOrders(routesOrders, row.identity, OrderList(entityOrders, RouteEntity(row, entities)))
  {
    var entity := entities[row.entityId].identity;
    records, filed := RouteOrdersLoop(row.identity, entity, OrderList(entityOrders, entity), routesOrders);
  }

  /** The object's two order tables. */
  class OrderRegistry {
    var entityOrders: map<string, set<string>>
    var routesOrders: map<string, set<string>>

    /** Both tables start empty. */
    constructor ()
      ensures entityOrders == map[] && routesOrders == map[]
    {
      entityOrders := map[];
      routesOrders := map[];
    }

    /** The loop of `collect_orders_from_daily_tasks` over the fetched tasks. */
    method CollectOrdersFromDailyTasks(tasks: seq<SimTask>, tables: TaskTables, filter: DeptFilter, today: string)
      requires forall i | 0 <= i < |tasks| :: CollectResolves(tasks[i], tables, filter, today)
      modifies this
      ensures entityOrders == Collected(old(entityOrders), tasks, tables, filter, today)
      ensures routesOrders == old(routesOrders)
    {
      ghost var filings := TaskFilings(tasks, tables, filter, today);
      for i := 0 to |tasks|
        invariant entityOrders == File(old(entityOrders), filings[..i])
        invariant routesOrders == old(routesOrders)
      {
        FileStep(old(entityOrders), filings, i);
        var t := tasks[i];
        var g := GateTask(t, tables, filter, today);
        if !g.Due? {
          assert AddOrders(entityOrders, filings[i].key, filings[i].orders) == entityOrders;
          continue;
        }
        var order := OrderKeyOf(tables.orders[tables.batchOrders[t.batchId]]);
        var current := if g.assembly in entityOrders then entityOrders[g.assembly] else {};
        entityOrders := entityOrders[g.assembly := current + {order}];
        assert [order][..0] == [];
      }
      assert filings[..|tasks|] == filings;
    }

    /** `export_entities` of the order variant: each entity once per order filed for it. */
    function ExportOrderEntities(entities: seq<Entity>): (r: seq<OrderEntity>)
      reads this
      ensures forall rec :: rec in r <==>
        exists i, o :: 0 <= i < |entities| && o in OrdersOf(entityOrders, entities[i].identity)
          && rec == EntityRecord(entities[i], o)
    {
      forall rec ensures rec in ExportEntities(entities, entityOrders) <==>
        exists i, o :: 0 <= i < |entities| && o in OrdersOf(entityOrders, entities[i].identity)
          && rec == EntityRecord(entities[i], o)
      {
        ExportEntitiesMembers(entities, entityOrders, rec);
      }
      ExportEntities(entities, entityOrders)
    }

    /** The inner loop of `export_ca_routes`: one route's records, and its orders filed under its identity. */
    method ExportRouteOrders(row: Route, entities: map<Id, Entity>) returns (records: seq<OrderRoute>)
      requires row.entityId in entities
      modifies this
      ensures records == RouteRecords(row, entities, entityOrders)
      ensures routesOrders == AddOrders(old(routesOrders), row.identity, OrderList(entityOrders, RouteEntity(row, entities)))
      ensures entityOrders == old(entityOrders)
    {
      records, routesOrders := RouteOrders(row, entities, entityOrders, routesOrders);
    }

    /** `export_ca_routes` of the order variant: the report, and each route's orders filed in `routes_orders`. */
    method ExportCaRoutes(routes: seq<Route>, entities: map<Id, Entity>) returns (report: seq<OrderRoute>)
      requires forall i | 0 <= i < |routes| :: routes[i].entityId in entities
      modifies this
      ensures report == RoutesReport(routes, entities, entityOrders)
      ensures routesOrders == RoutesOrdersAfter(old(routesOrders), routes, entities, entityOrders)
      ensures entityOrders == old(entityOrders)
    {
      ghost var blocks := RouteBlocks(routes, entities, entityOrders);
      ghost var filings := RouteFilings(routes, entities, entityOrders);
      report := [];
      for i := 0 to |routes|
        invariant report == Flatten(blocks[..i])
        invariant routesOrders == File(old(routesOrders), filings[..i])
        invariant entityOrders == old(entityOrders)
      {
        FlattenStep(blocks, i);
        FileStep(old(routesOrders), filings, i);
        var records := ExportRouteOrders(routes[i], entities);
        report := report + records;
      }
      assert blocks[..|routes|] == blocks;
      assert filings[..|routes|] == filings;
    }
  }
}
