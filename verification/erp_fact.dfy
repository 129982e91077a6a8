/**
 * logic/erp_fact_from_csv.py `get_erp_fact_from_csv`: the actual output
 * reported by the ERP. The operations are grouped by a key made of the
 * operation identity's first `phase_name_length` characters and the tail of
 * its route's identity, each group in `nop` order. A CSV row counts when its
 * code's first `phase_name_length + 1` characters name a non-empty group and
 * the code is the beginning of the identity of that group's last operation;
 * its amount is added up under that prefix and its date (dots made dashes).
 */
module ErpFact {
  import opened Wrappers
  import opened PyStr
  import opened PyDict
  import opened Sorting
  import opened Records
  import opened RouteWalk
  import opened Tallies
  import opened Grouping

  /** A row of the CSV file: `CODE`, `DATE` and `AMOUNT` (read by `float`). */
  datatype FactRow = FactRow(code: string, date: string, amount: real)

  /** A record of the report. */
  datatype FactRecord = FactRecord(identity: string, transition: string, date: string, quantity: real)

  /** `'{}_{}'.format(identity[:L], route_identity[L + 1:])`, the key of an operation's group. */
  function GroupKey(op: Operation, routes: map<Id, Route>, nameLength: nat): string
    requires op.routeId in routes
  {
    Take(op.identity, nameLength) + "_" + Drop(routes[op.routeId].identity, nameLength + 1)
  }

  /** Whether an operation belongs to the group `key`. */
  function InGroup(routes: map<Id, Route>, nameLength: nat, key: string): Operation -> bool
  {
    (op: Operation) => op.routeId in routes && GroupKey(op, routes, nameLength) == key
  }

  /** `operations_list[key]`: the group taken in (route, `nop`) order and then sorted by `nop`. */
  function FactGroup(operations: seq<Operation>, routes: map<Id, Route>, nameLength: nat, key: string): seq<Operation>
  {
    SortByNop(Where(SortBy(operations, RouteNopKey), InGroup(routes, nameLength, key)))
  }

  /** An operation is in a group exactly when it has that group's key. */
  lemma FactGroupMember(operations: seq<Operation>, routes: map<Id, Route>, nameLength: nat, key: string, op: Operation)
    ensures op in FactGroup(operations, routes, nameLength, key) <==>
      op in operations && op.routeId in routes && GroupKey(op, routes, nameLength) == key
  {
    var sorted := SortBy(operations, RouteNopKey);
    var members := Where(sorted, InGroup(routes, nameLength, key));
    SortByPermutes(operations, RouteNopKey);
    SortByPermutes(members, NopKey);
    WhereMembers(sorted, InGroup(routes, nameLength, key));
    assert op in FactGroup(operations, routes, nameLength, key) <==> op in multiset(SortByNop(members));
    assert op in members <==> op in multiset(members);
    assert op in operations <==> op in multiset(sorted);
    assert InGroup(routes, nameLength, key)(op) <==> op.routeId in routes && GroupKey(op, routes, nameLength) == key;
  }

  /** The last operation of a group has the greatest `nop` in it. */
  lemma FactGroupLast(operations: seq<Operation>, routes: map<Id, Route>, nameLength: nat, key: string, op: Operation)
    requires op in FactGroup(operations, routes, nameLength, key)
    ensures var group := FactGroup(operations, routes, nameLength, key);
      LexLe(op.nop, group[|group| - 1].nop)
  {
    var members := Where(SortBy(operations, RouteNopKey), InGroup(routes, nameLength, key));
    var group := FactGroup(operations, routes, nameLength, key);
    SortBySorted(members, NopKey);
    var j :| 0 <= j < |group| && group[j] == op;
    if j == |group| - 1 {
      LexRefl(op.nop);
    } else {
      assert KeyLe(NopKey(group[j]), NopKey(group[|group| - 1]));
    }
  }

  /** `'{}|{}'.format(prefix, date)`. */
  function FactKey(prefix: string, date: string): (k: string)
    ensures |Split(k, '|')| >= 2
  {
    SplitGrows(prefix, date, '|');
    prefix + "|" + date
  }

  /** What a row adds, `None` when it is skipped; `groups` reads `operations_list`. */
  function FactEntry(row: FactRow, groups: string -> seq<Operation>, nameLength: nat): Option<Entry<string>>
  {
    var prefix := Take(row.code, nameLength + 1);
    var group := groups(prefix);
    if |group| == 0 then None
    else if row.code != Take(group[|group| - 1].identity, nameLength + 10) then None
    else Some(Entry(FactKey(prefix, ReplaceChar(row.date, '.', '-')), row.amount, ""))
  }

  function FactEntries(data: seq<FactRow>, groups: string -> seq<Operation>, nameLength: nat): seq<Option<Entry<string>>>
  {
    seq(|data|, i requires 0 <= i < |data| => FactEntry(data[i], groups, nameLength))
  }

  /** The groups of the operations, as a function of the key. */
  function FactGroups(operations: seq<Operation>, routes: map<Id, Route>, nameLength: nat): string -> seq<Operation>
  {
    key => FactGroup(operations, routes, nameLength, key)
  }

  /** Every key counted has its two fields. */
  lemma FactKeysSplit(es: seq<Option<Entry<string>>>)
    requires forall i | 0 <= i < |es| && es[i].Some? :: |Split(es[i].value.key, '|')| >= 2
    ensures forall k | k in Tally(es).items :: |Split(k, '|')| >= 2
  {
    forall k | k in Tally(es).items ensures |Split(k, '|')| >= 2 {
      TallyIsSum(es, k);
    }
  }

  /** `summ` after the loop. */
  function FactTotals(data: seq<FactRow>, groups: string -> seq<Operation>, nameLength: nat): (d: Dict<string, real>)
    ensures d.Valid() && forall k | k in d.items :: |Split(k, '|')| >= 2
  {
    FactKeysSplit(FactEntries(data, groups, nameLength));
    Tally(FactEntries(data, groups, nameLength))
  }

  /** A record read back from its key: `identity.split('|')[0]` and `[1]`. */
  function FactRecordOf(key: string, quantity: real): FactRecord
    requires |Split(key, '|')| >= 2
  {
    var parts := Split(key, '|');
    FactRecord(key, parts[0], parts[1], quantity)
  }

  /** The loop over `summ.items()`. */
  function FactReport(totals: Dict<string, real>): seq<FactRecord>
    requires totals.Valid() && forall k | k in totals.items :: |Split(k, '|')| >= 2
  {
    seq(|totals.keys|, i requires 0 <= i < |totals.keys| => FactRecordOf(totals.keys[i], totals.items[totals.keys[i]]))
  }

  /** The grouping loop over the operations in (route, `nop`) order. */
  method GroupRoutes(sorted: seq<Operation>, routes: map<Id, Route>, nameLength: nat)
    returns (d: Dict<string, seq<Operation>>)
    requires forall i | 0 <= i < |sorted| :: sorted[i].routeId in routes
    ensures d.Valid()
    ensures forall key :: Group(d, key) == Where(sorted, InGroup(routes, nameLength, key))
  {
    d := Empty();
    for i := 0 to |sorted|
      invariant d.Valid()
      invariant forall key :: Group(d, key) == Where(sorted[..i], InGroup(routes, nameLength, key))
    {
      var row := sorted[i];
      var routeIdentity := GroupKey(row, routes, nameLength);
      var d' := AppendToGroup(d, routeIdentity, row);
      forall key ensures Group(d', key) == Where(sorted[..i + 1], InGroup(routes, nameLength, key)) {
        WhereStep(sorted, InGroup(routes, nameLength, key), i);
      }
      d := d';
    }
    assert sorted[..|sorted|] == sorted;
  }

  /** The grouping of the operations; a route missing from `routes` raises `KeyError` in the source. */
  method GroupByRoute(operations: seq<Operation>, routes: map<Id, Route>, nameLength: nat)
    returns (d: Dict<string, seq<Operation>>)
    requires forall op | op in operations :: op.routeId in routes
    ensures forall key :: Group(d, key) == FactGroup(operations, routes, nameLength, key)
  {
    var sorted := SortBy(operations, RouteNopKey);
    SortByPermutes(operations, RouteNopKey);
    forall i | 0 <= i < |sorted| ensures sorted[i].routeId in routes {
      assert sorted[i] in multiset(operations);
    }
    var grouped := GroupRoutes(sorted, routes, nameLength);
    d := SortGroups(grouped);
  }

  /** The loop over the rows, `groups` standing for what `operations_list` holds. */
  method FactLoop(data: seq<FactRow>, operationsList: Dict<string, seq<Operation>>,
                  ghost groups: string -> seq<Operation>, nameLength: nat)
    returns (summ: Dict<string, real>)
    requires forall key :: Group(operationsList, key) == groups(key)
    ensures summ == FactTotals(data, groups, nameLength)
  {
    ghost var es := FactEntries(data, groups, nameLength);
    summ := Empty();
    for i := 0 to |data|
      invariant summ == Tally(es[..i])
    {
      var row := data[i];
      TallyStep(es, i);
      var prefix := Take(row.code, nameLength + 1);
      var group := Group(operationsList, prefix);
      ghost var entry := FactEntry(row, groups, nameLength);
      assert es[i] == entry;
      if |group| == 0 {
        assert entry.None?;
        continue;
      }
      if row.code != Take(group[|group| - 1].identity, nameLength + 10) {
        assert entry.None?;
        continue;
      }
      assert entry == Some(Entry(FactKey(prefix, ReplaceChar(row.date, '.', '-')), row.amount, ""));
      summ := Add(summ, FactKey(prefix, ReplaceChar(row.date, '.', '-')), row.amount);
    }
    assert es[..|data|] == es;
  }

  method GetErpFact(data: seq<FactRow>, operations: seq<Operation>, routes: map<Id, Route>, nameLength: nat)
    returns (report: seq<FactRecord>)
    requires forall op | op in operations :: op.routeId in routes
    ensures report == FactReport(FactTotals(data, FactGroups(operations, routes, nameLength), nameLength))
  {
    var operationsList := GroupByRoute(operations, routes, nameLength);
    var summ := FactLoop(data, operationsList, FactGroups(operations, routes, nameLength), nameLength);
    report := FactReport(summ);
  }

  /**
   * A row counts only when its code begins the identity of the operation
   * with the greatest `nop` among the operations whose group its code's
   * prefix names.
   */
  lemma FactCountsLastOperation(row: FactRow, operations: seq<Operation>, routes: map<Id, Route>, nameLength: nat)
    requires FactEntry(row, FactGroups(operations, routes, nameLength), nameLength).Some?
    ensures exists op :: (op in operations && op.routeId in routes
      && GroupKey(op, routes, nameLength) == Take(row.code, nameLength + 1)
      && row.code == Take(op.identity, nameLength + 10)
      && forall other | other in operations && other.routeId in routes
           && GroupKey(other, routes, nameLength) == Take(row.code, nameLength + 1) :: LexLe(other.nop, op.nop))
  {
    var key := Take(row.code, nameLength + 1);
    var group := FactGroup(operations, routes, nameLength, key);
    assert |group| > 0 && row.code == Take(group[|group| - 1].identity, nameLength + 10) by {
      assert FactGroups(operations, routes, nameLength)(key) == group;
    }
    var op := group[|group| - 1];
    FactGroupLastIsMax(operations, routes, nameLength, key);
  }

  /** The last operation of a non-empty group is in it and has the greatest `nop` of the group's key. */
  lemma FactGroupLastIsMax(operations: seq<Operation>, routes: map<Id, Route>, nameLength: nat, key: string)
    requires |FactGroup(operations, routes, nameLength, key)| > 0
    ensures var group := FactGroup(operations, routes, nameLength, key);
      var op := group[|group| - 1];
      && op in operations && op.routeId in routes && GroupKey(op, routes, nameLength) == key
      && forall other | other in operations && other.routeId in routes && GroupKey(other, routes, nameLength) == key
           :: LexLe(other.nop, op.nop)
  {
    var group := FactGroup(operations, routes, nameLength, key);
    var op := group[|group| - 1];
    FactGroupMember(operations, routes, nameLength, key, op);
    forall other | other in operations && other.routeId in routes && GroupKey(other, routes, nameLength) == key
      ensures LexLe(other.nop, op.nop)
    {
      FactGroupMember(operations, routes, nameLength, key, other);
      FactGroupLast(operations, routes, nameLength, key, other);
    }
  }

  /**
   * One record per prefix and date some row was counted under, each once,
   * with the sum of their amounts; its transition and date are the prefix
   * and the date as long as neither holds a `|`.
   */
  lemma FactRecords(data: seq<FactRow>, groups: string -> seq<Operation>, nameLength: nat, rec: FactRecord)
    ensures var es := FactEntries(data, groups, nameLength);
      rec in FactReport(FactTotals(data, groups, nameLength)) <==>
        Counted(es, rec.identity) && |Split(rec.identity, '|')| >= 2 && rec == FactRecordOf(rec.identity, Sum(es, rec.identity))
    ensures var report := FactReport(FactTotals(data, groups, nameLength));
      forall i, j :: 0 <= i < j < |report| ==> report[i].identity != report[j].identity
  {
    var es := FactEntries(data, groups, nameLength);
    var totals := FactTotals(data, groups, nameLength);
    TallyIsSum(es, rec.identity);
    if rec in FactReport(totals) {
      var i :| 0 <= i < |totals.keys| && FactReport(totals)[i] == rec;
    }
    if Counted(es, rec.identity) {
      var i :| 0 <= i < |totals.keys| && totals.keys[i] == rec.identity;
      assert FactReport(totals)[i].identity == rec.identity;
    }
  }

  /** The key of a counted row reads back as its code prefix and its date with dashes. */
  lemma FactKeyRoundTrip(prefix: string, date: string, quantity: real)
    requires '|' !in prefix && '|' !in date
    ensures FactRecordOf(FactKey(prefix, date), quantity) == FactRecord(prefix + "|" + date, prefix, date, quantity)
  {
    SplitNoSep(date, '|');
    SplitAfterSep(prefix, date, '|');
  }
}
