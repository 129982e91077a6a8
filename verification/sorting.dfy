/**
 * Python's `sorted(xs, key=...)` is a stable sort. The exports sort operations
 * by `nop` alone, or by the pair (`entity_route_id`, `nop`); both keys are a
 * `SortKey` (the first component is 0 when only `nop` counts), compared as
 * Python compares tuples: integers numerically, strings by code point.
 */
module Sorting {
  import opened PyStr

  datatype SortKey = SortKey(major: int, nop: string)

  /** `a <= b` on (int, str) tuples. */
  predicate KeyLe(a: SortKey, b: SortKey)
  {
    a.major < b.major || (a.major == b.major && LexLe(a.nop, b.nop))
  }

  lemma KeyRefl(a: SortKey)
    ensures KeyLe(a, a)
  {
    LexRefl(a.nop);
  }

  lemma KeyTotal(a: SortKey, b: SortKey)
    ensures KeyLe(a, b) || KeyLe(b, a)
  {
    LexTotal(a.nop, b.nop);
  }

  lemma KeyTrans(a: SortKey, b: SortKey, c: SortKey)
    requires KeyLe(a, b) && KeyLe(b, c)
    ensures KeyLe(a, c)
  {
    if a.major == b.major == c.major {
      LexTrans(a.nop, b.nop, c.nop);
    }
  }

  /** `t` is `s` with some elements left out, the rest in their order. */
  ghost predicate Subsequence<T>(t: seq<T>, s: seq<T>)
  {
    t == [] || (s != [] &&
      ((t[|t| - 1] == s[|s| - 1] && Subsequence(t[..|t| - 1], s[..|s| - 1]))
       || Subsequence(t, s[..|s| - 1])))
  }

  /** One more element of `s`, taken into `t` or left out, keeps `t` a subsequence. */
  lemma SubsequenceExtend<T>(t: seq<T>, s: seq<T>, x: T, taken: bool)
    requires Subsequence(t, s)
    ensures Subsequence(t + (if taken then [x] else []), s + [x])
  {
    assert (s + [x])[..|s|] == s;
    if taken {
      assert (t + [x])[..|t|] == t;
    } else {
      assert t + [] == t;
    }
  }

  /** `s.replace(c, '')` keeps the other characters in their order. */
  lemma {:induction false} RemoveCharSubsequence(s: string, c: char)
    ensures Subsequence(RemoveChar(s, c), s)
    decreases |s|
  {
    if s != [] {
      var last := s[|s| - 1];
      var front := s[..|s| - 1];
      assert s == front + [last];
      RemoveCharSubsequence(front, c);
      RemoveCharAppend(front, last, c);
      SubsequenceExtend(RemoveChar(front, c), front, last, last != c);
      assert RemoveChar(s, c) == RemoveChar(front, c) + (if last != c then [last] else []);
    }
  }

  /** Every element's key is at most every later element's key. */
  ghost predicate SortedBy<T>(s: seq<T>, key: T -> SortKey)
  {
    forall i, j :: 0 <= i < j < |s| ==> KeyLe(key(s[i]), key(s[j]))
  }

  /** The elements whose key is `k`, in their order in `s`. */
  function WithKey<T>(s: seq<T>, key: T -> SortKey, k: SortKey): (r: seq<T>)
    ensures |r| <= |s|
  {
    if s == [] then []
    else (if key(s[0]) == k then [s[0]] else []) + WithKey(s[1..], key, k)
  }

  /** Places `x` before the first element whose key is not below its own. */
  function Insert<T>(x: T, s: seq<T>, key: T -> SortKey): (r: seq<T>)
    ensures |r| == |s| + 1
  {
    if s == [] || KeyLe(key(x), key(s[0])) then [x] + s
    else [s[0]] + Insert(x, s[1..], key)
  }

  /** `sorted(s, key=key)`, as an insertion sort that inserts each element in front of its equals. */
  function SortBy<T>(s: seq<T>, key: T -> SortKey): (r: seq<T>)
    ensures |r| == |s|
  {
    if s == [] then [] else Insert(s[0], SortBy(s[1..], key), key)
  }

  lemma {:induction false} InsertPermutes<T>(x: T, s: seq<T>, key: T -> SortKey)
    ensures multiset(Insert(x, s, key)) == multiset(s) + multiset{x}
  {
    if s != [] && !KeyLe(key(x), key(s[0])) {
      InsertPermutes(x, s[1..], key);
      assert s == [s[0]] + s[1..];
    }
  }

  /** The sort returns a permutation of its input. */
  lemma {:induction false} SortByPermutes<T>(s: seq<T>, key: T -> SortKey)
    ensures multiset(SortBy(s, key)) == multiset(s)
  {
    if s != [] {
      SortByPermutes(s[1..], key);
      InsertPermutes(s[0], SortBy(s[1..], key), key);
      assert s == [s[0]] + s[1..];
    }
  }

  lemma {:induction false} InsertSorted<T>(x: T, s: seq<T>, key: T -> SortKey)
    requires SortedBy(s, key)
    ensures SortedBy(Insert(x, s, key), key)
  {
    var r := Insert(x, s, key);
    if s == [] {
    } else if KeyLe(key(x), key(s[0])) {
      forall i, j | 0 <= i < j < |r| ensures KeyLe(key(r[i]), key(r[j])) {
        if i == 0 && j > 1 { KeyTrans(key(x), key(s[0]), key(s[j - 1])); }
      }
    } else {
      InsertSorted(x, s[1..], key);
      InsertPermutes(x, s[1..], key);
      KeyTotal(key(x), key(s[0]));
      forall i, j | 0 <= i < j < |r| ensures KeyLe(key(r[i]), key(r[j])) {
        if i == 0 {
          var rest := Insert(x, s[1..], key);
          assert r[j] == rest[j - 1];
          assert rest[j - 1] in multiset(s[1..]) + multiset{x};
          if rest[j - 1] == x {
          } else {
            assert rest[j - 1] in s[1..];
            var k :| 0 <= k < |s[1..]| && s[1..][k] == rest[j - 1];
            assert s[k + 1] == rest[j - 1];
          }
        }
      }
    }
  }

  /** The sort orders its result by key. */
  lemma {:induction false} SortBySorted<T>(s: seq<T>, key: T -> SortKey)
    ensures SortedBy(SortBy(s, key), key)
  {
    if s != [] {
      SortBySorted(s[1..], key);
      InsertSorted(s[0], SortBy(s[1..], key), key);
    }
  }

  lemma {:induction false} InsertWithKey<T>(x: T, s: seq<T>, key: T -> SortKey, k: SortKey)
    ensures WithKey(Insert(x, s, key), key, k) == (if key(x) == k then [x] else []) + WithKey(s, key, k)
  {
    if s == [] || KeyLe(key(x), key(s[0])) {
      assert ([x] + s)[1..] == s;
    } else {
      InsertWithKey(x, s[1..], key, k);
      KeyRefl(key(x));
      var r := Insert(x, s, key);
      assert r[1..] == Insert(x, s[1..], key);
    }
  }

  /** The sort is stable: elements with equal keys keep their relative order. */
  lemma {:induction false} SortByStable<T>(s: seq<T>, key: T -> SortKey, k: SortKey)
    ensures WithKey(SortBy(s, key), key, k) == WithKey(s, key, k)
  {
    if s != [] {
      SortByStable(s[1..], key, k);
      InsertWithKey(s[0], SortBy(s[1..], key), key, k);
    }
  }

  /** Python's `min(s)` exists for a non-empty set of strings. */
  lemma {:induction false} LexMinExists(s: set<string>) returns (m: string)
    requires s != {}
    ensures m in s && forall y :: y in s ==> LexLe(m, y)
    decreases |s|
  {
    var x :| x in s;
    if s == {x} {
      LexRefl(x);
      m := x;
    } else {
      var m' := LexMinExists(s - {x});
      LexTotal(x, m');
      if LexLe(x, m') {
        m := x;
        forall y | y in s ensures LexLe(x, y) {
          if y == x { LexRefl(x); } else { assert y in s - {x}; LexTrans(x, m', y); }
        }
      } else {
        m := m';
        forall y | y in s ensures LexLe(m', y) {
          if y != x { assert y in s - {x}; }
        }
      }
    }
  }

  lemma HasLexMin(s: set<string>)
    requires s != {}
    ensures exists m :: m in s && forall y :: y in s ==> LexLe(m, y)
  {
    var m := LexMinExists(s);
  }

  lemma LexAntisymAll()
    ensures forall a, b :: LexLe(a, b) && LexLe(b, a) ==> a == b
  {
    forall a, b | LexLe(a, b) && LexLe(b, a) ensures a == b {
      LexAntisym(a, b);
    }
  }

  /** The least element of a set is strictly below every element of the rest. */
  lemma MinBeforeRest(s: set<string>, m: string, rest: seq<string>)
    requires m in s && forall y :: y in s ==> LexLe(m, y)
    requires |rest| == |s - {m}| && forall x :: x in rest <==> x in s - {m}
    requires forall i, j :: 0 <= i < j < |rest| ==> LexLt(rest[i], rest[j])
    ensures var r := [m] + rest;
      && |r| == |s| && (forall x :: x in r <==> x in s) && forall i, j :: 0 <= i < j < |r| ==> LexLt(r[i], r[j])
  {
    var r := [m] + rest;
    forall j | 0 <= j < |rest| ensures LexLt(m, rest[j]) {
      assert rest[j] in s - {m};
    }
    forall i, j | 0 <= i < j < |r| ensures LexLt(r[i], r[j]) {
      assert r[j] == rest[j - 1];
      if i > 0 { assert r[i] == rest[i - 1]; }
    }
  }

  /**
   * The elements of a set of strings in ascending order. This is the order in
   * which the model iterates a Python `set`, whose own order is unspecified.
   */
  function SortedElements(s: set<string>): (r: seq<string>)
    ensures |r| == |s|
    ensures forall x :: x in r <==> x in s
    ensures forall i, j :: 0 <= i < j < |r| ==> LexLt(r[i], r[j])
    decreases |s|
  {
    if s == {} then []
    else
      HasLexMin(s);
      LexAntisymAll();
      var m :| m in s && forall y :: y in s ==> LexLe(m, y);
      var rest := SortedElements(s - {m});
      MinBeforeRest(s, m, rest);
      [m] + rest
  }
}
