/**
 * The `defaultdict(float)` accumulations of the exports: `summ[key] += x`
 * over a list of rows, some of which are skipped. Each row contributes an
 * optional entry (its key, the amount it adds and a note the loop keeps
 * beside the total, such as the department code taken from the row); the
 * dictionary keeps its keys in the order they were first counted.
 */
module Tallies {
  import opened Wrappers
  import opened PyDict

  /** What a counted row adds: the amount under `key`, and the `note` stored for that key. */
  datatype Entry<K> = Entry(key: K, amount: real, note: string)

  /** `d[k]` on a `defaultdict(float)`: 0 for a key not yet counted. */
  function Amount<K>(d: Dict<K, real>, k: K): real
  {
    if k in d.items then d.items[k] else 0.0
  }

  /** `d[k] += x`. */
  function Add<K>(d: Dict<K, real>, k: K, x: real): (d': Dict<K, real>)
    requires d.Valid()
    ensures d'.Valid()
    ensures Amount(d', k) == Amount(d, k) + x
    ensures d'.items.Keys == d.items.Keys + {k}
  {
    d.Put(k, Amount(d, k) + x)
  }

  /** The totals after the entries `es`, `None` standing for a skipped row. */
  function Tally<K>(es: seq<Option<Entry<K>>>): (d: Dict<K, real>)
    ensures d.Valid()
  {
    if es == [] then Empty()
    else
      var e := es[|es| - 1];
      var d := Tally(es[..|es| - 1]);
      if e.None? then d else Add(d, e.value.key, e.value.amount)
  }

  /** `note[key] = ...` beside each addition: the note of the last entry counted under each key. */
  function Notes<K>(es: seq<Option<Entry<K>>>): (m: map<K, string>)
    ensures m.Keys == Tally(es).items.Keys
  {
    if es == [] then map[]
    else
      var e := es[|es| - 1];
      var m := Notes(es[..|es| - 1]);
      if e.None? then m else m[e.value.key := e.value.note]
  }

  lemma TallyStep<K>(es: seq<Option<Entry<K>>>, i: nat)
    requires i < |es|
    ensures Tally(es[..i + 1]) == if es[i].None? then Tally(es[..i]) else Add(Tally(es[..i]), es[i].value.key, es[i].value.amount)
    ensures Notes(es[..i + 1]) == if es[i].None? then Notes(es[..i]) else Notes(es[..i])[es[i].value.key := es[i].value.note]
  {
    assert es[..i + 1][..i] == es[..i];
  }

  /** Some entry is counted under `k`. */
  ghost predicate Counted<K>(es: seq<Option<Entry<K>>>, k: K)
  {
    exists i :: 0 <= i < |es| && es[i].Some? && es[i].value.key == k
  }

  /** What one entry adds under `k`. */
  function Share<K(==)>(e: Option<Entry<K>>, k: K): real
  {
    if e.Some? && e.value.key == k then e.value.amount else 0.0
  }

  /** The amounts of the entries counted under `k`, added up. */
  function Sum<K(==)>(es: seq<Option<Entry<K>>>, k: K): real
  {
    if es == [] then 0.0 else Sum(es[..|es| - 1], k) + Share(es[|es| - 1], k)
  }

  /**
   * Each total is the sum of the amounts counted under its key, and a key is
   * present exactly when something was counted under it.
   */
  lemma {:induction false} TallyIsSum<K>(es: seq<Option<Entry<K>>>, k: K)
    ensures Amount(Tally(es), k) == Sum(es, k)
    ensures k in Tally(es).items <==> Counted(es, k)
  {
    if es != [] {
      var front := es[..|es| - 1];
      TallyIsSum(front, k);
      CountedStep(es, k);
    }
  }

  /** Something is counted under `k` when it was before the last entry or the last entry is. */
  lemma CountedStep<K>(es: seq<Option<Entry<K>>>, k: K)
    requires es != []
    ensures Counted(es, k) <==>
      Counted(es[..|es| - 1], k) || (es[|es| - 1].Some? && es[|es| - 1].value.key == k)
  {
    var front := es[..|es| - 1];
    if Counted(es, k) {
      var i :| 0 <= i < |es| && es[i].Some? && es[i].value.key == k;
      if i < |front| {
        assert front[i] == es[i];
      }
    }
    if Counted(front, k) {
      var i :| 0 <= i < |front| && front[i].Some? && front[i].value.key == k;
      assert es[i] == front[i];
    }
  }

  /** The note kept for a key is that of the last entry counted under it. */
  lemma {:induction false} NotesLastWins<K>(es: seq<Option<Entry<K>>>, i: nat)
    requires i < |es| && es[i].Some?
    requires forall j :: i < j < |es| ==> es[j].None? || es[j].value.key != es[i].value.key
    ensures es[i].value.key in Notes(es)
    ensures Notes(es)[es[i].value.key] == es[i].value.note
  {
    var front := es[..|es| - 1];
    if i < |front| {
      NotesLastWins(front, i);
    }
  }

  /** Entries of other keys do not change a key's total: the key order aside, the totals do not depend on the order of the rows. */
  lemma {:induction false} SumSwap<K>(a: seq<Option<Entry<K>>>, x: Option<Entry<K>>, y: Option<Entry<K>>, b: seq<Option<Entry<K>>>, k: K)
    ensures Sum(a + [x, y] + b, k) == Sum(a + [y, x] + b, k)
    decreases |b|
  {
    if b == [] {
      assert (a + [x, y] + b)[..|a| + 1] == a + [x];
      assert (a + [y, x] + b)[..|a| + 1] == a + [y];
      assert (a + [x] )[..|a|] == a;
      assert (a + [y])[..|a|] == a;
    } else {
      var front := b[..|b| - 1];
      SumSwap(a, x, y, front, k);
      assert (a + [x, y] + b)[..|a + [x, y] + b| - 1] == a + [x, y] + front;
      assert (a + [y, x] + b)[..|a + [y, x] + b| - 1] == a + [y, x] + front;
    }
  }
}
