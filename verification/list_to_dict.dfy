/**
 * utils/list_to_dict.py: `list_to_dict(list_data, column='id')` indexes a list
 * of rows by one column. The result is a Python dict, so its keys keep the
 * order in which they were first met, and a later row with the same key
 * replaces the earlier one.
 */
module ListToDict {
  import opened Wrappers
  import opened PyDict

  /** A row as the REST collections deliver it: field name to value. */
  type Row<V> = map<string, V>

  /** `row[column]` raised `KeyError` on the row at index `row`. */
  datatype KeyError = KeyError(column: string, row: nat)

  /**
   * The index of `rows` by `key`: the keys in first-seen order, each mapped to
   * the last row that has it. The model's typed lookups use this directly.
   */
  function IndexBy<K, R>(rows: seq<R>, key: R --> K): (d: Dict<K, R>)
    requires forall i :: 0 <= i < |rows| ==> key.requires(rows[i])
    ensures d.Valid()
    ensures |d.keys| <= |rows|
    decreases |rows|
  {
    if rows == [] then Empty()
    else IndexBy(rows[..|rows| - 1], key).Put(key(rows[|rows| - 1]), rows[|rows| - 1])
  }

  /** One more row puts itself under its key. */
  lemma IndexByPrefixStep<K, R>(rows: seq<R>, key: R --> K, i: nat)
    requires forall j :: 0 <= j < |rows| ==> key.requires(rows[j])
    requires i < |rows|
    ensures IndexBy(rows[..i + 1], key) == IndexBy(rows[..i], key).Put(key(rows[i]), rows[i])
  {
    assert rows[..i + 1][..i] == rows[..i];
  }

  /** The keys of the index are exactly the keys of the rows. */
  lemma {:induction false} IndexByKeys<K, R>(rows: seq<R>, key: R --> K, k: K)
    requires forall i :: 0 <= i < |rows| ==> key.requires(rows[i])
    ensures k in IndexBy(rows, key).items <==> exists i :: 0 <= i < |rows| && key(rows[i]) == k
    decreases |rows|
  {
    if rows != [] {
      var n := |rows| - 1;
      var front := rows[..n];
      var prev := IndexBy(front, key);
      IndexByKeys(front, key, k);
      assert IndexBy(rows, key).items == prev.items[key(rows[n]) := rows[n]];
      if k in prev.items {
        var i :| 0 <= i < n && key(front[i]) == k;
        assert rows[i] == front[i];
      }
      if exists i :: 0 <= i < |rows| && key(rows[i]) == k {
        var i :| 0 <= i < |rows| && key(rows[i]) == k;
        if i < n {
          assert front[i] == rows[i];
        }
      }
    }
  }

  /** A key maps to the last row that has it. */
  lemma {:induction false} IndexByLastWins<K, R>(rows: seq<R>, key: R --> K, i: nat)
    requires forall j :: 0 <= j < |rows| ==> key.requires(rows[j])
    requires i < |rows|
    requires forall j :: i < j < |rows| ==> key(rows[j]) != key(rows[i])
    ensures key(rows[i]) in IndexBy(rows, key).items
    ensures IndexBy(rows, key).items[key(rows[i])] == rows[i]
    decreases |rows|
  {
    var n := |rows| - 1;
    var prev := IndexBy(rows[..n], key);
    assert IndexBy(rows, key).items == prev.items[key(rows[n]) := rows[n]];
    if i < n {
      var front := rows[..n];
      assert front[i] == rows[i];
      forall j | i < j < n ensures key(front[j]) != key(front[i]) {
        assert front[j] == rows[j];
      }
      IndexByLastWins(front, key, i);
      assert key(rows[n]) != key(rows[i]);
    }
  }

  /** With each key on one row only, the index's values are the rows in their own order. */
  lemma {:induction false} IndexByDistinctValues<K, R>(rows: seq<R>, key: R --> K)
    requires forall i :: 0 <= i < |rows| ==> key.requires(rows[i])
    requires forall i, j :: 0 <= i < j < |rows| ==> key(rows[i]) != key(rows[j])
    ensures IndexBy(rows, key).keys == seq(|rows|, i requires 0 <= i < |rows| && key.requires(rows[i]) => key(rows[i]))
    ensures IndexBy(rows, key).Values() == rows
    decreases |rows|
  {
    if rows != [] {
      var n := |rows| - 1;
      var front := rows[..n];
      var prev := IndexBy(front, key);
      IndexByDistinctValues(front, key);
      forall i | 0 <= i < n ensures key(front[i]) != key(rows[n]) {
        assert front[i] == rows[i];
      }
      IndexByKeys(front, key, key(rows[n]));
      var d := IndexBy(rows, key);
      assert d.keys == prev.keys + [key(rows[n])];
      forall i | 0 <= i < |rows| ensures d.Values()[i] == rows[i] {
        if i < n {
          assert d.keys[i] == prev.keys[i] == key(front[i]);
          assert prev.keys[i] != key(rows[n]);
          assert d.Values()[i] == prev.Values()[i] == front[i];
        }
      }
    }
  }

  /** The key function `row[column]`, defined on rows that have the column. */
  function Column<V>(column: string): Row<V> --> V
  {
    (row: Row<V>) requires column in row => row[column]
  }

  /** `{key: value for key, value in row.items()}`: a copy equal to the row. */
  function CopyRow<V>(row: Row<V>): (c: Row<V>)
    ensures c == row
  {
    var c := map key | key in row :: row[key];
    assert c == row;
    c
  }

  /** One more row puts its copy under its key. */
  lemma IndexByStep<V>(rows: seq<Row<V>>, column: string, i: nat)
    requires i < |rows| && forall j :: 0 <= j <= i ==> column in rows[j]
    ensures IndexBy(rows[..i + 1], Column(column)) == IndexBy(rows[..i], Column(column)).Put(rows[i][column], rows[i])
  {
    assert rows[..i + 1][..i] == rows[..i];
  }

  /**
   * `list_to_dict(list_data, column)`: the loop over the rows, each copied
   * field by field into the dict under its key. A row without the column
   * raises `KeyError` and no dict is returned.
   */
  method ListToDict<V>(rows: seq<Row<V>>, column: string := "id") returns (r: Result<Dict<V, Row<V>>, KeyError>)
    ensures r.Ok? <==> forall i :: 0 <= i < |rows| ==> column in rows[i]
    ensures r.Ok? ==> r.value == IndexBy(rows, Column(column))
    ensures r.Err? ==> r.error.column == column && r.error.row < |rows| && column !in rows[r.error.row]
    ensures r.Err? ==> forall i :: 0 <= i < r.error.row ==> column in rows[i]
  {
    var report := Empty();
    for i := 0 to |rows|
      invariant forall j :: 0 <= j < i ==> column in rows[j]
      invariant report == IndexBy(rows[..i], Column(column))
    {
      var row := rows[i];
      if column !in row {
        return Err(KeyError(column, i));
      }
      var copy := CopyRow(row);
      IndexByStep(rows, column, i);
      report := report.Put(row[column], copy);
    }
    assert rows[..|rows|] == rows;
    return Ok(report);
  }
}
