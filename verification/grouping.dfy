/**
 * The grouping dictionaries of the BFG plan export and the ERP fact reader:
 * `operations_list[key].append(row)` in a loop, then each group sorted by
 * `nop`.
 */
module Grouping {
  import opened PyDict
  import opened Records

  /** `operations_list[p]` read from the grouping dictionary, empty for an absent phase. */
  function Group(d: Dict<string, seq<Operation>>, p: string): seq<Operation>
  {
    if p in d.items then d.items[p] else []
  }

  /** `operations_list[key].append(row)`: only the group of `key` grows, by `row`. */
  method AppendToGroup(d: Dict<string, seq<Operation>>, key: string, row: Operation) returns (d': Dict<string, seq<Operation>>)
    requires d.Valid()
    ensures d'.Valid()
    ensures forall k :: Group(d', k) == Group(d, k) + (if k == key then [row] else [])
  {
    d' := d.Put(key, Group(d, key) + [row]);
    forall k ensures Group(d', k) == Group(d, k) + (if k == key then [row] else []) {
      if k != key {
        assert Group(d, k) + [] == Group(d, k);
      }
    }
  }

  /** `operations_list[route].sort(key=nop)` for every group; the fact export sorts its groups the same way. */
  method SortGroups(grouped: Dict<string, seq<Operation>>) returns (d: Dict<string, seq<Operation>>)
    requires grouped.Valid()
    ensures forall key :: Group(d, key) == SortByNop(Group(grouped, key))
  {
    d := grouped;
    var keys := d.keys;
    for j := 0 to |keys|
      invariant d.Valid() && d.keys == keys && d.items.Keys == grouped.items.Keys
      invariant forall k | 0 <= k < j :: d.items[keys[k]] == SortByNop(grouped.items[keys[k]])
      invariant forall k | j <= k < |keys| :: d.items[keys[k]] == grouped.items[keys[k]]
    {
      d := d.Put(keys[j], SortByNop(d.items[keys[j]]));
    }
    SortedGroups(grouped, d);
  }

  /** Every key's group sorted, listed by position, is every group sorted, listed by key. */
  lemma SortedGroups(grouped: Dict<string, seq<Operation>>, d: Dict<string, seq<Operation>>)
    requires grouped.Valid() && d.Valid() && d.keys == grouped.keys
    requires forall k | 0 <= k < |d.keys| :: d.items[d.keys[k]] == SortByNop(grouped.items[d.keys[k]])
    ensures forall key :: Group(d, key) == SortByNop(Group(grouped, key))
  {
    assert SortByNop([]) == [] by { assert |SortByNop([])| == 0; }
    forall key ensures Group(d, key) == SortByNop(Group(grouped, key)) {
      if key in d.items {
        var k :| 0 <= k < |d.keys| && d.keys[k] == key;
      }
    }
  }
}
