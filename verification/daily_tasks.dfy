/**
 * What the two `export_ca_daily_tasks` (logic/iaimportexport.py and
 * logic/iaimportexport_with_orders.py) share: the two shift slots, the units
 * a task finishes, the buckets keyed by (operation, date, slot) — with the
 * order in front in the order variant — and by (operation, date, slot,
 * equipment), the record per bucket, the merge with the previous snapshot
 * `tasks.csv.bak`, and the output sorted by identity.
 *
 * Each variant turns a task into a `TaskView`: dropped by one of its tests,
 * past (its operation's assembly element is recorded but nothing is
 * counted), or current (counted into its bucket).
 */
module DailyTasks {
  import opened Wrappers
  import opened PyStr
  import opened PyDict
  import opened Sorting

  /** A date as `strftime('%Y-%m-%d')` writes it: ten characters, none of them `_`. */
  type Date = s: string | |s| == 10 && '_' !in s witness "0000-00-00"

  /** An order key: the first nine characters of an order name. */
  type OrderKey = s: string | |s| <= 9

  /** The two shifts of a day. */
  datatype Slot = Morning | Evening

  /** The shift of a task starting at `hour` (local time). */
  function SlotOf(hour: nat): (s: Slot)
    ensures s == Evening <==> hour >= 12
  {
    if hour >= 12 then Evening else Morning
  }

  /** `task_time`. */
  function SlotText(s: Slot): (t: string)
    ensures |t| == 8 && '_' !in t
    ensures t == "19:00:00" <==> s == Evening
  {
    if s == Evening then "19:00:00" else "07:00:00"
  }

  /** `x or d` for a nullable number: `None` and `0` both give `d`. */
  function Or(x: Option<real>, d: real): real
  {
    if x.Some? && x.value != 0.0 then x.value else d
  }

  /** `floor(a * (stop_labor or 1)) - floor(a * (start_labor or 0))`: the units a task finishes. */
  function Delta(amount: real, startLabor: Option<real>, stopLabor: Option<real>): int
  {
    (amount * Or(stopLabor, 1.0)).Floor - (amount * Or(startLabor, 0.0)).Floor
  }

  /** A task without labor marks finishes its whole (floored) amount. */
  lemma DeltaWholeTask(amount: real)
    ensures Delta(amount, None, None) == amount.Floor
    ensures Delta(amount, Some(0.0), Some(0.0)) == amount.Floor
  {
  }

  /** A task of a non-negative amount whose labor marks do not go backwards finishes no negative number of units. */
  lemma DeltaNonNegative(amount: real, startLabor: Option<real>, stopLabor: Option<real>)
    requires amount >= 0.0 && Or(startLabor, 0.0) <= Or(stopLabor, 1.0)
    ensures Delta(amount, startLabor, stopLabor) >= 0
  {
    ScaleMonotone(amount, Or(startLabor, 0.0), Or(stopLabor, 1.0));
    FloorMonotone(amount * Or(startLabor, 0.0), amount * Or(stopLabor, 1.0));
  }

  lemma ScaleMonotone(a: real, s: real, t: real)
    requires a >= 0.0 && s <= t
    ensures a * s <= a * t
  {
    assert a * t - a * s == a * (t - s);
  }

  lemma FloorMonotone(x: real, y: real)
    requires x <= y
    ensures x.Floor <= y.Floor
  {
  }

  /**
   * Splitting a task at a non-zero labor mark splits its units exactly: the
   * floors telescope. At a zero mark they need not, since `0 or 1` is 1.
   */
  lemma DeltaSplits(amount: real, startLabor: Option<real>, mid: real, stopLabor: Option<real>)
    requires mid != 0.0
    ensures Delta(amount, startLabor, Some(mid)) + Delta(amount, Some(mid), stopLabor) == Delta(amount, startLabor, stopLabor)
  {
  }

  /** The bucket of `report[operation][task_date][task_time]`, under `report[order]` in the order variant. */
  datatype Bucket = Bucket(order: Option<OrderKey>, op: string, date: Date, slot: Slot)

  /** The bucket of `report_equipment[operation][task_date][task_time]` (never keyed by order). */
  datatype Cell = Cell(op: string, date: Date, slot: Slot)

  /** `f'{order}_'` in the order variant, nothing otherwise. */
  function OrderPrefix(order: Option<OrderKey>): (p: string)
    ensures |p| <= 10
    ensures order.None? <==> p == ""
    ensures order.Some? ==> p[|p| - 1] == '_'
  {
    if order.Some? then order.value + "_" else ""
  }

  /** The record identity `f'{task_date}_{task_time}_{operation}'`, with `f'{order}_'` in front in the order variant. */
  function Key(b: Bucket): string
  {
    OrderPrefix(b.order) + Stamp(b)
  }

  /** `f'{task_date}_{task_time}_{operation}'`: ten date characters without `_` come first. */
  function Stamp(b: Bucket): (r: string)
    ensures |r| >= 10 && r[..10] == b.date
  {
    b.date + "_" + SlotText(b.slot) + "_" + b.op
  }

  /**
   * Two strings made of a prefix that is empty or ends in `_` (at most ten
   * characters) and a rest whose first ten characters hold no `_` split the
   * same way: a longer prefix would end with a `_` inside the other's rest.
   */
  lemma PrefixSplit(p1: string, r1: string, p2: string, r2: string)
    requires p1 + r1 == p2 + r2
    requires |p1| <= 10 && |p2| <= 10
    requires p1 != [] ==> p1[|p1| - 1] == '_'
    requires p2 != [] ==> p2[|p2| - 1] == '_'
    requires |r1| >= 10 && '_' !in r1[..10]
    requires |r2| >= 10 && '_' !in r2[..10]
    ensures p1 == p2 && r1 == r2
  {
    var k := p1 + r1;
    assert k == p2 + r2;
    forall j | |p1| <= j < |p1| + 10 ensures k[j] != '_' {
      assert k[j] == r1[..10][j - |p1|];
    }
    forall j | |p2| <= j < |p2| + 10 ensures k[j] != '_' {
      assert k[j] == (p2 + r2)[j] == r2[..10][j - |p2|];
    }
    if p1 != [] {
      assert k[|p1| - 1] == p1[|p1| - 1];
    }
    if p2 != [] {
      assert k[|p2| - 1] == (p2 + r2)[|p2| - 1] == p2[|p2| - 1];
    }
    assert |p1| == |p2|;
    assert p1 == k[..|p1|] && r1 == k[|p1|..];
    assert p2 == (p2 + r2)[..|p2|] && r2 == (p2 + r2)[|p2|..];
  }

  /** The date, slot and operation of a record identity after its order prefix. */
  lemma StampSplit(b1: Bucket, b2: Bucket)
    requires Stamp(b1) == Stamp(b2)
    ensures b1.date == b2.date && b1.slot == b2.slot && b1.op == b2.op
  {
    var r1, r2 := Stamp(b1), Stamp(b2);
    assert SlotText(b1.slot) == r1[11..19] && SlotText(b2.slot) == r2[11..19];
    assert b1.op == r1[20..] && b2.op == r2[20..];
  }

  /**
   * Distinct buckets have distinct identities: the order is at most nine
   * characters and the date ten characters without `_`, so the order prefix
   * ends where it must, whatever `_` the order and the operation hold.
   */
  lemma KeyInjective(b1: Bucket, b2: Bucket)
    requires Key(b1) == Key(b2)
    ensures b1 == b2
  {
    var p1, p2 := OrderPrefix(b1.order), OrderPrefix(b2.order);
    PrefixSplit(p1, Stamp(b1), p2, Stamp(b2));
    StampSplit(b1, b2);
    if b1.order.Some? {
      assert b1.order.value == p1[..|p1| - 1] == b2.order.value;
    }
  }

  lemma KeysInjective()
    ensures forall b1: Bucket, b2: Bucket :: Key(b1) == Key(b2) ==> b1 == b2
  {
    forall b1: Bucket, b2: Bucket | Key(b1) == Key(b2) ensures b1 == b2 {
      KeyInjective(b1, b2);
    }
  }

  /** What a variant's tests make of one task. */
  datatype TaskView =
    | Dropped
    | Past(op: string, assembly: string)
    | Current(order: Option<OrderKey>, op: string, assembly: string, date: Date, slot: Slot, delta: int, equipment: Option<string>)

  function BucketOf(v: TaskView): Bucket
    requires v.Current?
  {
    Bucket(v.order, v.op, v.date, v.slot)
  }

  function CellOf(v: TaskView): Cell
    requires v.Current?
  {
    Cell(v.op, v.date, v.slot)
  }

  /** `report`, `report_equipment` and `operation_entity_dict`. */
  datatype Aggregate = Aggregate(
    quantities: map<Bucket, int>,
    equipment: map<Cell, Dict<string, int>>,
    assemblies: map<string, string>)

  ghost predicate EquipmentValid(a: Aggregate)
  {
    forall c | c in a.equipment :: a.equipment[c].Valid()
  }

  /** `d[k] += delta` on a `defaultdict(int)`. */
  function AddTo<K>(m: map<K, int>, k: K, delta: int): map<K, int>
  {
    m[k := (if k in m then m[k] else 0) + delta]
  }

  /** `report_equipment[c][e] += delta` on the nested `defaultdict`s. */
  function AddUnits(equipment: map<Cell, Dict<string, int>>, c: Cell, e: string, delta: int)
    : (equipment': map<Cell, Dict<string, int>>)
    requires c in equipment ==> equipment[c].Valid()
    ensures c in equipment' && equipment'[c].Valid()
  {
    var d := if c in equipment then equipment[c] else Empty();
    equipment[c := d.Put(e, (if e in d.items then d.items[e] else 0) + delta)]
  }

  /** One task of the loop. */
  function AddView(a: Aggregate, v: TaskView): (a': Aggregate)
    requires EquipmentValid(a)
    ensures EquipmentValid(a')
  {
    match v
    case Dropped => a
    case Past(op, assembly) => a.(assemblies := a.assemblies[op := assembly])
    case Current(_, op, assembly, _, _, delta, equipment) =>
      var quantities := AddTo(a.quantities, BucketOf(v), delta);
      var assemblies := a.assemblies[op := assembly];
      if equipment.None? then Aggregate(quantities, a.equipment, assemblies)
      else Aggregate(quantities, AddUnits(a.equipment, CellOf(v), equipment.value, delta), assemblies)
  }

  /** The state after the tasks seen as `views`. */
  function Aggregated(views: seq<TaskView>): (a: Aggregate)
    ensures EquipmentValid(a)
  {
    if views == [] then Aggregate(map[], map[], map[])
    else AddView(Aggregated(views[..|views| - 1]), views[|views| - 1])
  }

  lemma AggregatedStep(views: seq<TaskView>, i: nat)
    requires i < |views|
    ensures Aggregated(views[..i + 1]) == AddView(Aggregated(views[..i]), views[i])
  {
    assert views[..i + 1][..i] == views[..i];
  }

  /** Whether a task is counted into bucket `b`. */
  predicate Lands(v: TaskView, b: Bucket)
  {
    v.Current? && BucketOf(v) == b
  }

  /** The units of the tasks counted into bucket `b`. */
  function Total(views: seq<TaskView>, b: Bucket): int
  {
    if views == [] then 0
    else
      var v := views[|views| - 1];
      Total(views[..|views| - 1], b) + (if Lands(v, b) then v.delta else 0)
  }

  /** The total of a concatenation is the sum of the totals: the order of the tasks does not matter. */
  lemma {:induction false} TotalAppend(v1: seq<TaskView>, v2: seq<TaskView>, b: Bucket)
    ensures Total(v1 + v2, b) == Total(v1, b) + Total(v2, b)
    decreases |v2|
  {
    if v2 == [] {
      assert v1 + v2 == v1;
    } else {
      var w := v1 + v2;
      assert w[..|w| - 1] == v1 + v2[..|v2| - 1];
      TotalAppend(v1, v2[..|v2| - 1], b);
    }
  }

  /** A bucket exists exactly when some task lands in it, and holds the units of those tasks. */
  lemma {:induction false} AggregatedQuantities(views: seq<TaskView>, b: Bucket)
    ensures b in Aggregated(views).quantities <==> exists i :: 0 <= i < |views| && Lands(views[i], b)
    ensures b in Aggregated(views).quantities ==> Aggregated(views).quantities[b] == Total(views, b)
    ensures b !in Aggregated(views).quantities ==> Total(views, b) == 0
  {
    if views != [] {
      var front := views[..|views| - 1];
      var last := |views| - 1;
      var v := views[last];
      AggregatedQuantities(front, b);
      var before := Aggregated(front);
      assert Aggregated(views) == AddView(before, v);
      if Lands(v, b) {
        assert Aggregated(views).quantities == AddTo(before.quantities, b, v.delta);
        assert 0 <= last < |views| && Lands(views[last], b);
      } else {
        assert b in Aggregated(views).quantities <==> b in before.quantities;
        assert b in before.quantities ==> Aggregated(views).quantities[b] == before.quantities[b];
      }
      if exists i :: 0 <= i < |front| && Lands(front[i], b) {
        var i :| 0 <= i < |front| && Lands(front[i], b);
        assert views[i] == front[i];
      }
      if exists i :: 0 <= i < |views| && Lands(views[i], b) {
        var i :| 0 <= i < |views| && Lands(views[i], b);
        if i < |front| {
          assert front[i] == views[i];
        }
      }
    }
  }

  /** Whether a task counts for equipment `e` in cell `c`. */
  predicate Uses(v: TaskView, c: Cell, e: string)
  {
    v.Current? && CellOf(v) == c && v.equipment == Some(e)
  }

  /** The units of the tasks counted for equipment `e` in cell `c`. */
  function EquipmentTotal(views: seq<TaskView>, c: Cell, e: string): int
  {
    if views == [] then 0
    else
      var v := views[|views| - 1];
      EquipmentTotal(views[..|views| - 1], c, e) + (if Uses(v, c, e) then v.delta else 0)
  }

  /** Held by entry `e` of cell `c`: its units, `None` when there is no entry. */
  function EquipmentEntry(a: Aggregate, c: Cell, e: string): Option<int>
  {
    Units(a.equipment, c, e)
  }

  function Units(equipment: map<Cell, Dict<string, int>>, c: Cell, e: string): Option<int>
  {
    if c in equipment && e in equipment[c].items then Some(equipment[c].items[e]) else None
  }

  /** `report_equipment[c0][e0] += delta` adds to that entry, creating it if need be, and leaves every other entry. */
  lemma AddUnitsAt(equipment: map<Cell, Dict<string, int>>, c0: Cell, e0: string, delta: int, c: Cell, e: string)
    requires c0 in equipment ==> equipment[c0].Valid()
    ensures Units(AddUnits(equipment, c0, e0, delta), c, e) ==
      if c == c0 && e == e0 then Some((if Units(equipment, c, e).Some? then Units(equipment, c, e).value else 0) + delta)
      else Units(equipment, c, e)
  {
    var d := if c0 in equipment then equipment[c0] else Empty();
    assert AddUnits(equipment, c0, e0, delta)[c0].items == d.items[e0 := (if e0 in d.items then d.items[e0] else 0) + delta];
  }

  /** One task adds its units to its own equipment entry and leaves every other entry alone. */
  lemma AddViewEquipment(a: Aggregate, v: TaskView, c: Cell, e: string)
    requires EquipmentValid(a)
    ensures EquipmentEntry(AddView(a, v), c, e) ==
      if Uses(v, c, e) then Some((if EquipmentEntry(a, c, e).Some? then EquipmentEntry(a, c, e).value else 0) + v.delta)
      else EquipmentEntry(a, c, e)
  {
    if v.Current? && v.equipment.Some? {
      AddUnitsAt(a.equipment, CellOf(v), v.equipment.value, v.delta, c, e);
    }
  }

  /**
   * An equipment entry exists exactly when some task of the cell names that
   * equipment, and holds the units of those tasks.
   */
  lemma {:induction false} AggregatedEquipment(views: seq<TaskView>, c: Cell, e: string)
    ensures EquipmentEntry(Aggregated(views), c, e).Some? <==> exists i :: 0 <= i < |views| && Uses(views[i], c, e)
    ensures EquipmentEntry(Aggregated(views), c, e).Some? ==>
      EquipmentEntry(Aggregated(views), c, e).value == EquipmentTotal(views, c, e)
    ensures EquipmentEntry(Aggregated(views), c, e).None? ==> EquipmentTotal(views, c, e) == 0
  {
    if views != [] {
      var front := views[..|views| - 1];
      var last := |views| - 1;
      AggregatedEquipment(front, c, e);
      AddViewEquipment(Aggregated(front), views[last], c, e);
      if Uses(views[last], c, e) {
        assert 0 <= last < |views| && Uses(views[last], c, e);
      }
      if exists i :: 0 <= i < |front| && Uses(front[i], c, e) {
        var i :| 0 <= i < |front| && Uses(front[i], c, e);
        assert views[i] == front[i];
      }
      if exists i :: 0 <= i < |views| && Uses(views[i], c, e) {
        var i :| 0 <= i < |views| && Uses(views[i], c, e);
        if i < |front| {
          assert front[i] == views[i];
        }
      }
    }
  }

  /** Whether a task records an assembly element for operation `op`. */
  predicate Names(v: TaskView, op: string)
  {
    !v.Dropped? && v.op == op
  }

  /** The assembly element the last task of operation `op` records. */
  function LastAssembly(views: seq<TaskView>, op: string): Option<string>
  {
    if views == [] then None
    else
      var v := views[|views| - 1];
      if Names(v, op) then Some(v.assembly) else LastAssembly(views[..|views| - 1], op)
  }

  lemma {:induction false} LastAssemblyExists(views: seq<TaskView>, op: string)
    ensures LastAssembly(views, op).Some? <==> exists i :: 0 <= i < |views| && Names(views[i], op)
  {
    if views != [] {
      var front := views[..|views| - 1];
      LastAssemblyExists(front, op);
      var last := |views| - 1;
      if Names(views[last], op) {
        assert 0 <= last < |views| && Names(views[last], op);
      }
      if exists i :: 0 <= i < |front| && Names(front[i], op) {
        var i :| 0 <= i < |front| && Names(front[i], op);
        assert views[i] == front[i];
      }
      if exists i :: 0 <= i < |views| && Names(views[i], op) {
        var i :| 0 <= i < |views| && Names(views[i], op);
        if i < |front| {
          assert front[i] == views[i];
        }
      }
    }
  }

  /** `operation_entity_dict` holds, per operation, the assembly element of its last task (last write wins). */
  lemma {:induction false} AggregatedAssemblies(views: seq<TaskView>, op: string)
    ensures op in Aggregated(views).assemblies <==> LastAssembly(views, op).Some?
    ensures op in Aggregated(views).assemblies ==> Aggregated(views).assemblies[op] == LastAssembly(views, op).value
  {
    if views != [] {
      AggregatedAssemblies(views[..|views| - 1], op);
    }
  }

  /** Every counted operation has an assembly element: `operation_entity_dict[operation]` never fails. */
  lemma CountedHaveAssemblies(views: seq<TaskView>, b: Bucket)
    requires b in Aggregated(views).quantities
    ensures b.op in Aggregated(views).assemblies
  {
    AggregatedQuantities(views, b);
    var i :| 0 <= i < |views| && Lands(views[i], b);
    assert Names(views[i], b.op);
    LastAssemblyExists(views, b.op);
    AggregatedAssemblies(views, b.op);
  }

  /** The Cyrillic capital letter en, U+041D, the setup suffix. */
  const SetupMark: string := "\U{041D}"
  /** The Cyrillic capitals pe and ze, U+041F U+0417, the preparation suffix. */
  const PrepMark: string := "\U{041F}\U{0417}"

  /** The order variant's test `'Н' in operation or 'ПЗ' in operation`. */
  predicate Marked(op: string)
  {
    HasSubstring(op, SetupMark) || HasSubstring(op, PrepMark)
  }

  datatype EquipmentQuantity = EquipmentQuantity(identity: string, quantity: int)

  /** A record of the daily-task export, also a row of `tasks.csv.bak`. */
  datatype DailyTask = DailyTask(
    identity: string,
    operation: string,   // operationIdentity
    assembly: string,    // assemblyElementIdentity
    quantityPlan: int,
    dateBegin: string,
    timeBegin: string,
    equipments: Option<seq<EquipmentQuantity>>)

  /** The `equipments` list of a cell, in insertion order; every quantity is 1 when `forced`. */
  function EquipmentList(d: Dict<string, int>, forced: bool): (r: seq<EquipmentQuantity>)
    requires d.Valid()
  {
    seq(|d.keys|, i requires 0 <= i < |d.keys| => EquipmentQuantity(d.keys[i], if forced then 1 else d.items[d.keys[i]]))
  }

  /**
   * The record of bucket `b`. With `forceMarked` (the order variant) a
   * marked operation has quantity 1 and every equipment quantity 1.
   */
  function RecordOf(a: Aggregate, b: Bucket, forceMarked: bool): DailyTask
    requires EquipmentValid(a)
  {
    var forced := forceMarked && Marked(b.op);
    var c := Cell(b.op, b.date, b.slot);
    var prefix := OrderPrefix(b.order);
    DailyTask(
      Key(b), prefix + b.op,
      prefix + (if b.op in a.assemblies then a.assemblies[b.op] else ""),
      if forced then 1 else if b in a.quantities then a.quantities[b] else 0,
      b.date, SlotText(b.slot),
      Some(if c in a.equipment then EquipmentList(a.equipment[c], forced) else []))
  }

  /** `result`: one record per bucket, under its identity. */
  function TaskRecords(a: Aggregate, forceMarked: bool): (r: map<string, DailyTask>)
    requires EquipmentValid(a)
    ensures forall b | b in a.quantities :: Key(b) in r && r[Key(b)] == RecordOf(a, b, forceMarked)
    ensures forall k | k in r :: r[k].identity == k && exists b :: b in a.quantities && Key(b) == k
  {
    KeysInjective();
    map b | b in a.quantities :: Key(b) := RecordOf(a, b, forceMarked)
  }

  /** A counted bucket's record, field by field: quantity and equipment units are the tasks' totals. */
  lemma RecordTotals(views: seq<TaskView>, b: Bucket, e: string)
    requires b in Aggregated(views).quantities
    ensures RecordOf(Aggregated(views), b, false).quantityPlan == Total(views, b)
    ensures LastAssembly(views, b.op).Some?
      && RecordOf(Aggregated(views), b, false).assembly == OrderPrefix(b.order) + LastAssembly(views, b.op).value
    ensures forall q | q in RecordOf(Aggregated(views), b, false).equipments.value ::
      q.quantity == EquipmentTotal(views, Cell(b.op, b.date, b.slot), q.identity)
  {
    var a := Aggregated(views);
    AggregatedQuantities(views, b);
    CountedHaveAssemblies(views, b);
    AggregatedAssemblies(views, b.op);
    var c := Cell(b.op, b.date, b.slot);
    var eqs := RecordOf(a, b, false).equipments.value;
    forall q | q in eqs ensures q.quantity == EquipmentTotal(views, c, q.identity) {
      var i :| 0 <= i < |eqs| && eqs[i] == q;
      var d := a.equipment[c];
      assert q.identity == d.keys[i] && d.keys[i] in d.items;
      AggregatedEquipment(views, c, q.identity);
    }
  }

  /** One row of the previous snapshot: a row dated today or later whose identity is not there yet is carried with no quantity. */
  function MergeRow(result: map<string, DailyTask>, row: DailyTask, today: string): map<string, DailyTask>
  {
    if LexLt(row.dateBegin, today) || row.identity in result then result
    else result[row.identity := row.(quantityPlan := 0, equipments := None)]
  }

  /** `result` after the rows of the previous snapshot. */
  function Merged(recent: map<string, DailyTask>, rows: seq<DailyTask>, today: string): map<string, DailyTask>
  {
    if rows == [] then recent
    else MergeRow(Merged(recent, rows[..|rows| - 1], today), rows[|rows| - 1], today)
  }

  /** Whether a prior row may be carried: dated today or later. */
  predicate Upcoming(row: DailyTask, today: string)
  {
    !LexLt(row.dateBegin, today)
  }

  /** The first prior row with identity `k` dated today or later. */
  function FirstCarried(rows: seq<DailyTask>, k: string, today: string): (r: Option<DailyTask>)
    ensures r.Some? ==> r.value in rows && r.value.identity == k && Upcoming(r.value, today)
  {
    if rows == [] then None
    else
      var front := FirstCarried(rows[..|rows| - 1], k, today);
      var row := rows[|rows| - 1];
      if front.Some? then front
      else if row.identity == k && Upcoming(row, today) then Some(row)
      else None
  }

  /**
   * The merge keeps every recent record as it is; any other identity is there
   * exactly when a prior row dated today or later has it, and then holds the
   * first such row with quantity 0 and no equipment.
   */
  lemma {:induction false} MergedRecords(recent: map<string, DailyTask>, rows: seq<DailyTask>, today: string, k: string)
    ensures k in recent ==> k in Merged(recent, rows, today) && Merged(recent, rows, today)[k] == recent[k]
    ensures k !in recent ==> (k in Merged(recent, rows, today) <==> FirstCarried(rows, k, today).Some?)
    ensures k !in recent && k in Merged(recent, rows, today) ==>
      Merged(recent, rows, today)[k] == FirstCarried(rows, k, today).value.(quantityPlan := 0, equipments := None)
  {
    if rows != [] {
      MergedRecords(recent, rows[..|rows| - 1], today, k);
    }
  }

  /** A carried row is dated today or later, whatever its identity. */
  lemma {:induction false} MergedCarriedAreCurrent(recent: map<string, DailyTask>, rows: seq<DailyTask>, today: string, k: string)
    requires k in Merged(recent, rows, today) && k !in recent
    ensures Upcoming(Merged(recent, rows, today)[k], today)
    ensures Merged(recent, rows, today)[k].quantityPlan == 0 && Merged(recent, rows, today)[k].equipments == None
  {
    MergedRecords(recent, rows, today, k);
  }

  /** Records stay under their own identity through the merge. */
  lemma {:induction false} MergedIdentities(recent: map<string, DailyTask>, rows: seq<DailyTask>, today: string)
    requires forall k | k in recent :: recent[k].identity == k
    ensures forall k | k in Merged(recent, rows, today) :: Merged(recent, rows, today)[k].identity == k
  {
    if rows != [] {
      MergedIdentities(recent, rows[..|rows| - 1], today);
    }
  }

  /** Whether every counted task is dated today or later. */
  predicate CountedUpcoming(views: seq<TaskView>, today: string)
  {
    forall i | 0 <= i < |views| && views[i].Current? :: !LexLt(views[i].date, today)
  }

  /** When every counted task is dated today or later, so is every record. */
  lemma RecordsUpcoming(views: seq<TaskView>, today: string, forceMarked: bool)
    requires CountedUpcoming(views, today)
    ensures forall k | k in TaskRecords(Aggregated(views), forceMarked) :: Upcoming(TaskRecords(Aggregated(views), forceMarked)[k], today)
  {
    var r := TaskRecords(Aggregated(views), forceMarked);
    forall k | k in r ensures Upcoming(r[k], today) {
      var b :| b in Aggregated(views).quantities && Key(b) == k;
      AggregatedQuantities(views, b);
      var i :| 0 <= i < |views| && Lands(views[i], b);
      assert r[k].dateBegin == b.date == views[i].date;
    }
  }

  /** The merge only carries rows dated today or later. */
  lemma MergedUpcoming(recent: map<string, DailyTask>, rows: seq<DailyTask>, today: string)
    requires forall k | k in recent :: Upcoming(recent[k], today)
    ensures forall k | k in Merged(recent, rows, today) :: Upcoming(Merged(recent, rows, today)[k], today)
  {
    forall k | k in Merged(recent, rows, today) ensures Upcoming(Merged(recent, rows, today)[k], today) {
      MergedRecords(recent, rows, today, k);
      if k !in recent {
        MergedCarriedAreCurrent(recent, rows, today, k);
      }
    }
  }

  /** The merge loop over the rows of `tasks.csv.bak`; `None` when there is no such file. */
  method MergeSnapshot(result: map<string, DailyTask>, prior: Option<seq<DailyTask>>, today: string)
    returns (merged: map<string, DailyTask>)
    ensures merged == Merged(result, if prior.Some? then prior.value else [], today)
  {
    merged := result;
    if prior.Some? {
      var rows := prior.value;
      for i := 0 to |rows|
        invariant merged == Merged(result, rows[..i], today)
      {
        assert rows[..i + 1][..i] == rows[..i];
        var row := rows[i];
        if LexLt(row.dateBegin, today) {
          continue;
        }
        if row.identity !in merged {
          merged := merged[row.identity := row.(quantityPlan := 0, equipments := None)];
        }
      }
      assert rows[..|rows|] == rows;
    }
  }

  /** `list(result.values())[0]` on an empty `result`. */
  datatype DailyError = NoTasks

  /** `list(dict(sorted(result.items())).values())`, or the error of an empty result. */
  function Output(result: map<string, DailyTask>): (r: Result<seq<DailyTask>, DailyError>)
    ensures r.Err? <==> result == map[]
    ensures r.Ok? ==> |r.value| == |result|
  {
    if result == map[] then Err(NoTasks)
    else
      var ks := SortedElements(result.Keys);
      Ok(seq(|ks|, i requires 0 <= i < |ks| => result[ks[i]]))
  }

  /**
   * When every record is under its own identity, the output lists every
   * record exactly once, in strictly increasing order of identity.
   */
  lemma OutputSorted(result: map<string, DailyTask>)
    requires result != map[]
    requires forall k | k in result :: result[k].identity == k
    ensures |Output(result).value| == |result|
    ensures forall i, j :: 0 <= i < j < |Output(result).value| ==>
      LexLt(Output(result).value[i].identity, Output(result).value[j].identity)
    ensures forall t :: t in Output(result).value <==> t in result.Values
  {
    var ks := SortedElements(result.Keys);
    var out := Output(result).value;
    assert |result.Keys| == |result|;
    assert forall i | 0 <= i < |out| :: out[i].identity == ks[i] by {
      forall i | 0 <= i < |out| ensures out[i].identity == ks[i] {
        assert ks[i] in result;
      }
    }
    OutputMembers(result);
    OutputComplete(result);
  }

  /** The output holds every record of the result. */
  lemma OutputComplete(result: map<string, DailyTask>)
    requires result != map[]
    ensures forall t | t in result.Values :: t in Output(result).value
  {
    var ks := SortedElements(result.Keys);
    var out := Output(result).value;
    forall t | t in result.Values ensures t in out {
      var k :| k in result && result[k] == t;
      var i :| 0 <= i < |ks| && ks[i] == k;
      assert out[i] == t;
    }
  }

  /** The output holds only records of the result. */
  lemma OutputMembers(result: map<string, DailyTask>)
    requires result != map[]
    ensures forall t | t in Output(result).value :: t in result.Values
  {
    var ks := SortedElements(result.Keys);
    var out := Output(result).value;
    forall t | t in out ensures t in result.Values {
      var i :| 0 <= i < |out| && out[i] == t;
      assert ks[i] in result;
    }
  }

  /**
   * The whole export: when every counted task is dated today or later, no
   * record of the output is dated before today, whatever the previous
   * snapshot holds.
   */
  lemma ExportUpcoming(views: seq<TaskView>, rows: seq<DailyTask>, today: string, forceMarked: bool)
    requires CountedUpcoming(views, today)
    ensures Output(Merged(TaskRecords(Aggregated(views), forceMarked), rows, today)).Ok? ==>
      forall t | t in Output(Merged(TaskRecords(Aggregated(views), forceMarked), rows, today)).value :: Upcoming(t, today)
  {
    var recent := TaskRecords(Aggregated(views), forceMarked);
    var merged := Merged(recent, rows, today);
    RecordsUpcoming(views, today, forceMarked);
    MergedUpcoming(recent, rows, today);
    if merged != map[] {
      OutputMembers(merged);
    }
  }

  /** The accumulation of one task: the `+=` on the nested `defaultdict`s and the assembly element. */
  method Accumulate(a: Aggregate, v: TaskView) returns (a': Aggregate)
    requires EquipmentValid(a)
    ensures a' == AddView(a, v)
  {
    if v.Dropped? {
      return a;
    }
    var report, reportEquipment, operationEntity := a.quantities, a.equipment, a.assemblies;
    operationEntity := operationEntity[v.op := v.assembly];
    if v.Past? {
      return Aggregate(report, reportEquipment, operationEntity);
    }
    report := AddTo(report, Bucket(v.order, v.op, v.date, v.slot), v.delta);
    if v.equipment.Some? {
      reportEquipment := AddUnits(reportEquipment, Cell(v.op, v.date, v.slot), v.equipment.value, v.delta);
    }
    a' := Aggregate(report, reportEquipment, operationEntity);
  }
}
