/**
 * The Python string operations the exports are built from, with Python's
 * semantics: slices that clamp their bounds, `s[-0:]` being the whole string,
 * `str.split` on one separator, `str.replace` of one character, substring
 * tests, and the code-point lexicographic order of `<` on `str`.
 */
module PyStr {

  import opened Wrappers

  /** Python's f-string rendering of an optional string: `None` prints as "None". */
  function Show(o: Option<string>): (r: string)
    ensures o.Some? ==> r == o.value
    ensures o.None? ==> r == "None"
  {
    match o
    case Some(s) => s
    case None => "None"
  }

  /** `s[:n]` for a non-negative `n`: the first `n` characters, or all of `s`. */
  function Take(s: string, n: nat): (r: string)
    ensures |r| == if n <= |s| then n else |s|
    ensures r <= s
  {
    if n <= |s| then s[..n] else s
  }

  /** `s[n:]` for a non-negative `n`: everything after the first `n` characters. */
  function Drop(s: string, n: nat): (r: string)
    ensures Take(s, n) + r == s
  {
    if n <= |s| then s[n..] else []
  }

  /** `s[-n:]` for a non-negative `n`. Because `-0 == 0`, `s[-0:]` is the whole string. */
  function TakeLast(s: string, n: nat): (r: string)
    ensures n == 0 ==> r == s
    ensures 0 < n <= |s| ==> |r| == n
    ensures n > |s| ==> r == s
    ensures |r| <= |s| && r == s[|s| - |r|..]
  {
    if n == 0 || n > |s| then s else s[|s| - n..]
  }

  /** `s.endswith(t)`, written in the source as `s[-len(t):] == t` for a non-empty `t`. */
  predicate EndsWith(s: string, t: string)
  {
    |t| <= |s| && s[|s| - |t|..] == t
  }

  lemma TakeLastIsEndsWith(s: string, t: string)
    requires |t| > 0
    ensures TakeLast(s, |t|) == t <==> EndsWith(s, t)
  {
  }

  /** `t in s` for strings: `t` occurs in `s` as a contiguous substring. */
  predicate HasSubstring(s: string, t: string)
    decreases |s|
  {
    t <= s || (|s| > 0 && HasSubstring(s[1..], t))
  }

  lemma {:induction false} HasSubstringAt(s: string, t: string, i: nat)
    requires i + |t| <= |s| && s[i..i + |t|] == t
    ensures HasSubstring(s, t)
    decreases i
  {
    if i > 0 {
      assert s[1..][i - 1..i - 1 + |t|] == s[i..i + |t|];
      HasSubstringAt(s[1..], t, i - 1);
    } else {
      assert t <= s;
    }
  }

  /** A suffix is a substring. */
  lemma EndsWithHasSubstring(s: string, t: string)
    requires EndsWith(s, t)
    ensures HasSubstring(s, t)
  {
    HasSubstringAt(s, t, |s| - |t|);
  }

  /** `s.replace(a, b)` for single characters. */
  function ReplaceChar(s: string, a: char, b: char): (r: string)
    ensures |r| == |s|
    ensures forall i :: 0 <= i < |s| ==> r[i] == (if s[i] == a then b else s[i])
  {
    if s == [] then [] else [if s[0] == a then b else s[0]] + ReplaceChar(s[1..], a, b)
  }

  /** `s.replace(c, '')`: every occurrence of `c` removed. */
  function RemoveChar(s: string, c: char): (r: string)
    ensures c !in r
    ensures |r| <= |s|
    ensures forall x :: x in r ==> x in s
  {
    if s == [] then [] else (if s[0] == c then [] else [s[0]]) + RemoveChar(s[1..], c)
  }

  /** Every character other than `c` is kept as often as it occurs. */
  lemma {:induction false} RemoveCharCounts(s: string, c: char)
    ensures forall x :: multiset(RemoveChar(s, c))[x] == if x == c then 0 else multiset(s)[x]
  {
    if s != [] {
      var head := if s[0] == c then [] else [s[0]];
      RemoveCharCounts(s[1..], c);
      CountsAdd(RemoveChar(s, c), head, RemoveChar(s[1..], c));
      CountsAdd(s, [s[0]], s[1..]);
    }
  }

  /** Occurrences add up over a concatenation. */
  lemma CountsAdd<T>(a: seq<T>, h: seq<T>, b: seq<T>)
    requires a == h + b
    ensures forall x :: multiset(a)[x] == multiset(h)[x] + multiset(b)[x]
  {
  }

  /** Removing from a string extended by one character extends the result by that character unless it is `c`. */
  lemma {:induction false} RemoveCharAppend(s: string, x: char, c: char)
    ensures RemoveChar(s + [x], c) == RemoveChar(s, c) + (if x == c then [] else [x])
  {
    if s != [] {
      RemoveCharAppend(s[1..], x, c);
      assert (s + [x])[1..] == s[1..] + [x];
    }
  }

  /** `s.split(sep)` for a single-character separator: never empty. */
  function Split(s: string, sep: char): (r: seq<string>)
    ensures |r| >= 1
  {
    if s == [] then [""]
    else
      var rest := Split(s[1..], sep);
      if s[0] == sep then [""] + rest else [[s[0]] + rest[0]] + rest[1..]
  }

  /** `sep.join(parts)`. */
  function Join(parts: seq<string>, sep: char): string
  {
    if |parts| == 0 then ""
    else if |parts| == 1 then parts[0]
    else parts[0] + [sep] + Join(parts[1..], sep)
  }

  /** Splitting and joining again gives back the string. */
  lemma {:induction false} JoinSplit(s: string, sep: char)
    ensures Join(Split(s, sep), sep) == s
  {
    if s != [] {
      var rest := Split(s[1..], sep);
      JoinSplit(s[1..], sep);
      if s[0] == sep {
        assert Split(s, sep) == [""] + rest;
      } else {
        var parts := Split(s, sep);
        assert parts == [[s[0]] + rest[0]] + rest[1..];
        if |rest| == 1 {
          assert Join(parts, sep) == [s[0]] + rest[0];
        } else {
          assert parts[1..] == rest[1..];
          assert Join(rest, sep) == rest[0] + [sep] + Join(rest[1..], sep);
        }
      }
    }
  }

  /** No part of a split holds the separator. */
  lemma {:induction false} SplitPartsFree(s: string, sep: char)
    ensures forall i :: 0 <= i < |Split(s, sep)| ==> sep !in Split(s, sep)[i]
  {
    if s != [] {
      SplitPartsFree(s[1..], sep);
      var rest := Split(s[1..], sep);
      if s[0] != sep {
        var parts := Split(s, sep);
        forall i | 0 <= i < |parts| ensures sep !in parts[i] {
          if i > 0 { assert parts[i] == rest[i]; }
        }
      }
    }
  }

  /** There is more than one part exactly when the separator occurs. */
  lemma {:induction false} SplitCount(s: string, sep: char)
    ensures |Split(s, sep)| > 1 <==> sep in s
  {
    if s != [] {
      SplitCount(s[1..], sep);
      assert sep in s <==> s[0] == sep || sep in s[1..];
    }
  }

  /** Joining parts free of the separator and splitting again gives the parts back. */
  lemma {:induction false} SplitJoin(parts: seq<string>, sep: char)
    requires |parts| >= 1
    requires forall i :: 0 <= i < |parts| ==> sep !in parts[i]
    ensures Split(Join(parts, sep), sep) == parts
    decreases parts
  {
    if |parts| == 1 {
      SplitNoSep(parts[0], sep);
    } else {
      SplitJoin(parts[1..], sep);
      SplitAfterSep(parts[0], Join(parts[1..], sep), sep);
    }
  }

  lemma {:induction false} SplitNoSep(s: string, sep: char)
    requires sep !in s
    ensures Split(s, sep) == [s]
  {
    if s != [] {
      assert sep !in s[1..];
      SplitNoSep(s[1..], sep);
      assert [s[0]] + s[1..] == s;
    }
  }

  lemma {:induction false} SplitAfterSep(a: string, b: string, sep: char)
    requires sep !in a
    ensures Split(a + [sep] + b, sep) == [a] + Split(b, sep)
    decreases |a|
  {
    if a == [] {
      assert a + [sep] + b == [sep] + b;
      assert ([sep] + b)[1..] == b;
    } else {
      SplitAfterSep(a[1..], b, sep);
      assert (a + [sep] + b)[1..] == a[1..] + [sep] + b;
      assert [a[0]] + a[1..] == a;
    }
  }

  /** A separator adds a part to the split of what follows it, whatever precedes it. */
  lemma {:induction false} SplitGrows(a: string, b: string, sep: char)
    ensures |Split(a + [sep] + b, sep)| >= |Split(b, sep)| + 1
    decreases |a|
  {
    var s := a + [sep] + b;
    if a == [] {
      assert s == [sep] + b && s[1..] == b;
    } else {
      SplitGrows(a[1..], b, sep);
      assert s[1..] == a[1..] + [sep] + b;
    }
  }

  /** A string with two separators splits into at least three parts. */
  lemma SplitThree(a: string, b: string, c: string, sep: char)
    ensures |Split(a + [sep] + b + [sep] + c, sep)| >= 3
  {
    assert a + [sep] + b + [sep] + c == a + [sep] + (b + [sep] + c);
    SplitGrows(a, b + [sep] + c, sep);
    SplitGrows(b, c, sep);
  }

  /** `s.split(sep)[-1]`: what follows the last separator. */
  function LastPart(s: string, sep: char): (r: string)
    ensures sep !in r
  {
    SplitPartsFree(s, sep);
    var parts := Split(s, sep);
    parts[|parts| - 1]
  }

  /** What follows the last separator does not depend on what precedes a separator. */
  lemma {:induction false} LastPartAfterSep(a: string, b: string, sep: char)
    ensures LastPart(a + [sep] + b, sep) == LastPart(b, sep)
    decreases |a|
  {
    var s := a + [sep] + b;
    if a == [] {
      assert s == [sep] + b && s[1..] == b;
    } else {
      LastPartAfterSep(a[1..], b, sep);
      var t := a[1..] + [sep] + b;
      assert s[1..] == t;
      assert sep in t by { assert t[|a| - 1] == sep; }
      LastPartOfRest(s, sep);
    }
  }

  /** Dropping the first character keeps the last part when a separator follows it. */
  lemma LastPartOfRest(s: string, sep: char)
    requires |s| > 0 && sep in s[1..]
    ensures LastPart(s, sep) == LastPart(s[1..], sep)
  {
    var rest := Split(s[1..], sep);
    SplitCount(s[1..], sep);
    assert |rest| > 1;
  }

  /** When the tail holds no separator, it is the last part. */
  lemma LastPartOfTail(a: string, b: string, sep: char)
    requires sep !in b
    ensures LastPart(a + [sep] + b, sep) == b
  {
    LastPartAfterSep(a, b, sep);
    SplitNoSep(b, sep);
  }

  /** The fields of a key joined with `sep`, as `f"{a}|{b}|{c}"` writes it. */
  function Join3(a: string, b: string, c: string, sep: char): (r: string)
    ensures sep !in a && sep !in b && sep !in c ==> Split(r, sep) == [a, b, c]
  {
    var r := a + [sep] + b + [sep] + c;
    if sep !in a && sep !in b && sep !in c then
      JoinThree(a, b, c, sep);
      r
    else
      r
  }

  lemma JoinThree(a: string, b: string, c: string, sep: char)
    requires sep !in a && sep !in b && sep !in c
    ensures Split(a + [sep] + b + [sep] + c, sep) == [a, b, c]
  {
    var parts := [a, b, c];
    assert Join(parts[2..], sep) == c;
    assert Join(parts[1..], sep) == b + [sep] + c;
    assert Join(parts, sep) == a + [sep] + (b + [sep] + c);
    assert a + [sep] + (b + [sep] + c) == a + [sep] + b + [sep] + c;
    SplitJoin(parts, sep);
  }

  /** Python's `a <= b` on `str`: code-point lexicographic order. */
  predicate LexLe(a: string, b: string)
    decreases |a|
  {
    |a| == 0 || (|b| > 0 && (a[0] < b[0] || (a[0] == b[0] && LexLe(a[1..], b[1..]))))
  }

  /** Python's `a < b` on `str`. */
  predicate LexLt(a: string, b: string)
  {
    LexLe(a, b) && a != b
  }

  lemma {:induction false} LexRefl(a: string)
    ensures LexLe(a, a)
    decreases |a|
  {
    if |a| > 0 { LexRefl(a[1..]); }
  }

  lemma {:induction false} LexTotal(a: string, b: string)
    ensures LexLe(a, b) || LexLe(b, a)
    decreases |a|
  {
    if |a| > 0 && |b| > 0 && a[0] == b[0] { LexTotal(a[1..], b[1..]); }
  }

  lemma {:induction false} LexAntisym(a: string, b: string)
    requires LexLe(a, b) && LexLe(b, a)
    ensures a == b
    decreases |a|
  {
    if |a| > 0 {
      LexAntisym(a[1..], b[1..]);
      assert a == [a[0]] + a[1..] && b == [b[0]] + b[1..];
    }
  }

  lemma {:induction false} LexTrans(a: string, b: string, c: string)
    requires LexLe(a, b) && LexLe(b, c)
    ensures LexLe(a, c)
    decreases |a|
  {
    if |a| > 0 && a[0] == b[0] && b[0] == c[0] { LexTrans(a[1..], b[1..], c[1..]); }
  }

  /** A prefix sorts first, so in particular every string is at least "". */
  lemma {:induction false} LexPrefix(a: string, b: string)
    requires a <= b
    ensures LexLe(a, b)
    decreases |a|
  {
    if |a| > 0 { LexPrefix(a[1..], b[1..]); }
  }
}
