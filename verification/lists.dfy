/** `Array.prototype.find` and `Array.prototype.filter` over sequences. */
module Lists {
  import opened Wrappers

  /** `s.find(p)`: the first element satisfying `p`, if any. */
  function Find<T>(s: seq<T>, p: T -> bool): (r: Option<T>)
    ensures r.None? <==> forall i :: 0 <= i < |s| ==> !p(s[i])
    ensures r.Some? ==> exists i :: 0 <= i < |s| && s[i] == r.value && p(s[i]) && forall j :: 0 <= j < i ==> !p(s[j])
  {
    if s == [] then None
    else if p(s[0]) then Some(s[0])
    else
      var r := Find(s[1..], p);
      assert r.Some? ==> exists i :: 0 <= i < |s| && s[i] == r.value && p(s[i]) && forall j :: 0 <= j < i ==> !p(s[j]) by {
        if r.Some? {
          var i :| 0 <= i < |s[1..]| && s[1..][i] == r.value && p(s[1..][i]) && forall j :: 0 <= j < i ==> !p(s[1..][j]);
          assert s[i + 1] == r.value;
          forall j | 0 <= j < i + 1 ensures !p(s[j]) {
            if j > 0 { assert s[j] == s[1..][j - 1]; }
          }
        }
      }
      r
  }

  /** The first element satisfying `p` is the one at index `i`. */
  ghost predicate FirstAt<T>(s: seq<T>, p: T -> bool, i: int) {
    0 <= i < |s| && p(s[i]) && forall j :: 0 <= j < i ==> !p(s[j])
  }

  /** `find` returns the element at the first index that satisfies the predicate. */
  lemma FindFirstAt<T>(s: seq<T>, p: T -> bool, i: int)
    requires FirstAt(s, p, i)
    ensures Find(s, p) == Some(s[i])
  {
    var r := Find(s, p);
    var k :| 0 <= k < |s| && s[k] == r.value && p(s[k]) && forall j :: 0 <= j < k ==> !p(s[j]);
    assert !(k < i) && !(i < k);
  }

  /** `s.findIndex(p)`, as an option: the first index whose element satisfies `p`. */
  function FindIndex<T>(s: seq<T>, p: T -> bool): (r: Option<nat>)
    ensures r.None? <==> forall i :: 0 <= i < |s| ==> !p(s[i])
    ensures r.Some? ==> FirstAt(s, p, r.value)
  {
    if s == [] then None
    else if p(s[0]) then Some(0)
    else
      var r := FindIndex(s[1..], p);
      assert r.Some? ==> FirstAt(s, p, r.value + 1) by {
        if r.Some? {
          forall j | 0 <= j < r.value + 1 ensures !p(s[j]) {
            if j > 0 { assert s[j] == s[1..][j - 1]; }
          }
        }
      }
      if r.Some? then Some(r.value + 1) else None
  }

  /** There is only one first index. */
  lemma FirstAtUnique<T>(s: seq<T>, p: T -> bool, i: int, k: int)
    requires FirstAt(s, p, i) && FirstAt(s, p, k)
    ensures i == k
  {
  }

  /** `s.flatMap(f)`: the concatenation of `f` applied to each element in order. */
  function FlatMap<T, U>(s: seq<T>, f: T -> seq<U>): seq<U> {
    if s == [] then [] else f(s[0]) + FlatMap(s[1..], f)
  }

  /** `flatMap` distributes over concatenation. */
  lemma {:induction false} FlatMapAppend<T, U>(a: seq<T>, b: seq<T>, f: T -> seq<U>)
    ensures FlatMap(a + b, f) == FlatMap(a, f) + FlatMap(b, f)
  {
    if a == [] {
      assert a + b == b;
    } else {
      FlatMapAppend(a[1..], b, f);
      ConsAppend(a, b);
      AppendAssoc(f(a[0]), FlatMap(a[1..], f), FlatMap(b, f));
    }
  }

  /** A non-empty sequence is its head followed by its tail. */
  lemma HeadTail<T>(s: seq<T>)
    requires |s| >= 1
    ensures s == [s[0]] + s[1..]
  {
  }

  /** Appending to a non-empty sequence keeps its head in front. */
  lemma ConsAppend<T>(x: seq<T>, y: seq<T>)
    requires |x| >= 1
    ensures x + y == [x[0]] + (x[1..] + y)
    ensures (x + y)[0] == x[0] && (x + y)[1..] == x[1..] + y
  {
  }

  /** An element put in front of a non-empty sequence shifts its front and keeps its last element. */
  lemma ConsFrontLast<T>(h: T, p: seq<T>)
    requires |p| >= 1
    ensures ([h] + p)[..|p|] == [h] + p[..|p| - 1]
    ensures ([h] + p)[|p|] == p[|p| - 1]
  {
  }

  /** A new head on the tail of a sequence of two or more: its front and last element. */
  lemma ReplaceHeadFrontLast<T>(h: T, p: seq<T>)
    requires |p| >= 2
    ensures ([h] + p[1..])[..|p| - 1] == [h] + p[1..|p| - 1]
    ensures ([h] + p[1..])[|p| - 1] == p[|p| - 1]
  {
  }

  /** The head and tail of a front of two or more elements followed by more. */
  lemma FrontAppendHeadTail<T>(p: seq<T>, q: seq<T>)
    requires |p| >= 2
    ensures (p[..|p| - 1] + q)[0] == p[0]
    ensures (p[..|p| - 1] + q)[1..] == p[1..|p| - 1] + q
  {
  }

  lemma ConsTail<T>(h: T, p: seq<T>)
    ensures ([h] + p)[0] == h && ([h] + p)[1..] == p
  {
  }

  /** Two prefixes of which one is empty can be put in either order. */
  lemma SwapEmpty<T>(a: seq<T>, b: seq<T>, u: seq<T>)
    requires a == [] || b == []
    ensures a + (b + u) == b + (a + u)
  {
  }

  lemma AppendAssoc<T>(a: seq<T>, b: seq<T>, c: seq<T>)
    ensures a + (b + c) == (a + b) + c
  {
  }

  /** A prefix `r` of a suffix `t` of `s` is a slice of `s`, and what follows `r` in `t` follows it in `s`. */
  lemma PrefixOfSuffix<T>(s: seq<T>, t: seq<T>, r: seq<T>)
    requires |t| <= |s| && t == s[|s| - |t|..]
    requires |r| <= |t| && r == t[..|r|]
    ensures r == s[|s| - |t|..|s| - |t| + |r|]
    ensures forall k :: |s| - |t| + |r| <= k < |s| ==> s[k] == t[k - (|s| - |t|)]
  {
  }

  /** A non-empty sequence is its front followed by its last element. */
  lemma FrontLast<T>(s: seq<T>)
    requires |s| >= 1
    ensures s == s[..|s| - 1] + [s[|s| - 1]]
  {
  }

  /** `s.filter(keep)`. */
  function Filter<T>(s: seq<T>, keep: T -> bool): (r: seq<T>)
    ensures |r| <= |s|
  {
    if s == [] then []
    else if keep(s[0]) then [s[0]] + Filter(s[1..], keep)
    else Filter(s[1..], keep)
  }

  /** Filtering keeps exactly the elements that satisfy the predicate. */
  lemma {:induction false} FilterMembers<T>(s: seq<T>, keep: T -> bool)
    ensures forall x :: x in Filter(s, keep) <==> x in s && keep(x)
  {
    if s != [] {
      FilterMembers(s[1..], keep);
      assert s == [s[0]] + s[1..];
    }
  }

  /** Filtering keeps the relative order: it distributes over concatenation. */
  lemma {:induction false} FilterAppend<T>(a: seq<T>, b: seq<T>, keep: T -> bool)
    ensures Filter(a + b, keep) == Filter(a, keep) + Filter(b, keep)
  {
    if a == [] {
      assert a + b == b;
    } else {
      FilterAppend(a[1..], b, keep);
      var ab := a + b;
      assert ab[0] == a[0] && ab[1..] == a[1..] + b;
      if keep(a[0]) {
        calc {
          Filter(ab, keep);
          [a[0]] + Filter(a[1..] + b, keep);
          [a[0]] + (Filter(a[1..], keep) + Filter(b, keep));
          ([a[0]] + Filter(a[1..], keep)) + Filter(b, keep);
        }
      } else {
        assert Filter(ab, keep) == Filter(a[1..] + b, keep);
      }
    }
  }

  /** A filter that drops nothing is the identity. */
  lemma {:induction false} FilterKeepsAll<T>(s: seq<T>, keep: T -> bool)
    requires forall i :: 0 <= i < |s| ==> keep(s[i])
    ensures Filter(s, keep) == s
  {
    if s != [] {
      FilterKeepsAll(s[1..], keep);
      assert s == [s[0]] + s[1..];
    }
  }

  /** Filtering twice with the same predicate is filtering once. */
  lemma {:induction false} FilterIdempotent<T>(s: seq<T>, keep: T -> bool)
    ensures Filter(Filter(s, keep), keep) == Filter(s, keep)
  {
    if s != [] {
      FilterIdempotent(s[1..], keep);
      if keep(s[0]) {
        var r := [s[0]] + Filter(s[1..], keep);
        assert r[0] == s[0] && r[1..] == Filter(s[1..], keep);
      }
    }
  }
}
