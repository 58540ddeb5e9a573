/** Sequence combinators in the shape of JavaScript's `Array.prototype.filter` and `map`. */
module Seqs {

  /** The elements of `s` that satisfy `p`, in their original order. */
  function Filter<T>(s: seq<T>, p: T -> bool): (r: seq<T>)
    ensures |r| <= |s|
    ensures forall k :: 0 <= k < |r| ==> r[k] in s && p(r[k])
    ensures forall k :: 0 <= k < |s| && p(s[k]) ==> s[k] in r
  {
    if |s| == 0 then [] else (if p(s[0]) then [s[0]] else []) + Filter(s[1..], p)
  }

  /** Filtering distributes over concatenation: the relative order of kept elements is the input order. */
  lemma {:induction false} FilterAppend<T>(a: seq<T>, b: seq<T>, p: T -> bool)
    ensures Filter(a + b, p) == Filter(a, p) + Filter(b, p)
  {
    if |a| == 0 {
      assert a + b == b;
    } else {
      assert (a + b)[1..] == a[1..] + b;
      FilterAppend(a[1..], b, p);
    }
  }

  lemma FilterThree<T>(a: seq<T>, b: seq<T>, c: seq<T>, p: T -> bool)
    ensures Filter(a + b + c, p) == Filter(a, p) + Filter(b, p) + Filter(c, p)
  {
    FilterAppend(a + b, c, p);
    FilterAppend(a, b, p);
  }

  /** Appending one element to the input appends it to the output exactly when it is kept. */
  lemma FilterSnoc<T>(s: seq<T>, x: T, p: T -> bool)
    ensures Filter(s + [x], p) == Filter(s, p) + (if p(x) then [x] else [])
  {
    FilterAppend(s, [x], p);
  }

  lemma {:induction false} FilterAll<T>(s: seq<T>, p: T -> bool)
    requires forall x :: x in s ==> p(x)
    ensures Filter(s, p) == s
  {
    if |s| > 0 {
      assert s[0] in s;
      FilterAll(s[1..], p);
    }
  }

  lemma FilterNone<T>(s: seq<T>, p: T -> bool)
    requires forall x :: x in s ==> !p(x)
    ensures Filter(s, p) == []
  {
  }

  /** `f` applied to every element of `s`, in order. */
  function Map<T, U>(s: seq<T>, f: T --> U): (r: seq<U>)
    requires forall x :: x in s ==> f.requires(x)
    ensures |r| == |s| && forall k :: 0 <= k < |s| ==> r[k] == f(s[k])
  {
    seq(|s|, k requires 0 <= k < |s| => f(s[k]))
  }

  lemma MapAppend<T, U>(a: seq<T>, b: seq<T>, f: T --> U)
    requires forall x :: x in a + b ==> f.requires(x)
    ensures Map(a + b, f) == Map(a, f) + Map(b, f)
  {
    assert forall x :: x in a ==> x in a + b;
    assert forall x :: x in b ==> x in a + b;
    var l, r := Map(a + b, f), Map(a, f) + Map(b, f);
    assert |l| == |r|;
    forall k | 0 <= k < |l| ensures l[k] == r[k] {
      if k < |a| {
        assert (a + b)[k] == a[k];
      } else {
        assert (a + b)[k] == b[k - |a|];
      }
    }
  }

  lemma MapCons<T, U>(s: seq<T>, f: T -> U)
    requires |s| > 0
    ensures Map(s, f) == [f(s[0])] + Map(s[1..], f)
  {
    assert s == [s[0]] + s[1..];
    MapAppend([s[0]], s[1..], f);
  }

  /** A value is in the mapped filter exactly when it is the image of a kept element. */
  lemma {:induction false} MapFilterMember<T, U>(s: seq<T>, p: T -> bool, f: T -> U, y: U)
    ensures y in Map(Filter(s, p), f) <==> exists k :: 0 <= k < |s| && p(s[k]) && f(s[k]) == y
  {
    if |s| > 0 {
      var head := if p(s[0]) then [s[0]] else [];
      var tail := Filter(s[1..], p);
      MapAppend(head, tail, f);
      MapFilterMember(s[1..], p, f, y);
      if exists k :: 0 <= k < |s[1..]| && p(s[1..][k]) && f(s[1..][k]) == y {
        var k :| 0 <= k < |s[1..]| && p(s[1..][k]) && f(s[1..][k]) == y;
        assert s[k + 1] == s[1..][k];
      }
      if exists k :: 0 <= k < |s| && p(s[k]) && f(s[k]) == y {
        var k :| 0 <= k < |s| && p(s[k]) && f(s[k]) == y;
        if k > 0 {
          assert s[1..][k - 1] == s[k];
        }
      }
    }
  }

  /** A map that never changes the test's verdict commutes with the filter. */
  lemma {:induction false} FilterMapCommute<T>(s: seq<T>, f: T -> T, p: T -> bool)
    requires forall x :: p(f(x)) == p(x)
    ensures Filter(Map(s, f), p) == Map(Filter(s, p), f)
  {
    if |s| > 0 {
      MapCons(s, f);
      FilterMapCommute(s[1..], f, p);
      var m := Map(s, f);
      assert m[0] == f(s[0]) && m[1..] == Map(s[1..], f);
      if p(s[0]) {
        MapCons(Filter(s, p), f);
      }
    }
  }

  /**
    Filtering two lists that agree pointwise on `key`, by a test that only
    looks at `key`, keeps the same positions of both.
  */
  lemma {:induction false} FilterByKey<T, K>(a: seq<T>, b: seq<T>, p: T -> bool, key: T -> K)
    requires |a| == |b|
    requires forall k :: 0 <= k < |a| ==> key(a[k]) == key(b[k])
    requires forall x, y :: key(x) == key(y) ==> p(x) == p(y)
    ensures |Filter(a, p)| == |Filter(b, p)|
    ensures forall k :: 0 <= k < |Filter(a, p)| ==> key(Filter(a, p)[k]) == key(Filter(b, p)[k])
  {
    if |a| > 0 {
      assert key(a[0]) == key(b[0]);
      forall k | 0 <= k < |a[1..]| ensures key(a[1..][k]) == key(b[1..][k]) {
        assert a[1..][k] == a[k + 1] && b[1..][k] == b[k + 1];
      }
      FilterByKey(a[1..], b[1..], p, key);
      FilterByKeyCons(a, b, p, key);
    }
  }

  /** The step of FilterByKey: equal heads keep both filters in step. */
  lemma FilterByKeyCons<T, K>(a: seq<T>, b: seq<T>, p: T -> bool, key: T -> K)
    requires |a| == |b| && |a| > 0 && key(a[0]) == key(b[0])
    requires forall x, y :: key(x) == key(y) ==> p(x) == p(y)
    requires |Filter(a[1..], p)| == |Filter(b[1..], p)|
    requires forall k :: 0 <= k < |Filter(a[1..], p)| ==> key(Filter(a[1..], p)[k]) == key(Filter(b[1..], p)[k])
    ensures |Filter(a, p)| == |Filter(b, p)|
    ensures forall k :: 0 <= k < |Filter(a, p)| ==> key(Filter(a, p)[k]) == key(Filter(b, p)[k])
  {
    var fa, fb := Filter(a, p), Filter(b, p);
    var ta, tb := Filter(a[1..], p), Filter(b[1..], p);
    if p(a[0]) {
      assert fa == [a[0]] + ta && fb == [b[0]] + tb;
      forall k | 0 <= k < |fa| ensures key(fa[k]) == key(fb[k]) {
        if k > 0 {
          assert fa[k] == ta[k - 1] && fb[k] == tb[k - 1];
        }
      }
    } else {
      assert fa == ta && fb == tb;
    }
  }

  /** Three lists split in two and rejoined part by part hold the same elements. */
  lemma InterleavedMultiset<T>(a: seq<T>, b: seq<T>, c: seq<T>, a': seq<T>, b': seq<T>, c': seq<T>)
    ensures multiset(a + a' + (b + b') + (c + c')) == multiset(a + b + c) + multiset(a' + b' + c')
  {
    assert multiset(a + a' + (b + b') + (c + c')) ==
      multiset(a) + multiset(a') + multiset(b) + multiset(b') + multiset(c) + multiset(c');
  }

  /** `a` is obtained from `b` by deleting some elements, keeping the order of the rest. */
  predicate IsSubsequence<T(==)>(a: seq<T>, b: seq<T>)
    decreases |b|
  {
    if |a| == 0 then true
    else if |b| == 0 then false
    else (a[0] == b[0] && IsSubsequence(a[1..], b[1..])) || IsSubsequence(a, b[1..])
  }

  /** Whatever is filtered out, what remains is a subsequence of the input. */
  lemma {:induction false} FilterIsSubsequence<T>(s: seq<T>, p: T -> bool)
    ensures IsSubsequence(Filter(s, p), s)
  {
    if |s| > 0 {
      FilterIsSubsequence(s[1..], p);
      if p(s[0]) {
        assert Filter(s, p) == [s[0]] + Filter(s[1..], p);
        assert Filter(s, p)[1..] == Filter(s[1..], p);
      } else {
        assert Filter(s, p) == Filter(s[1..], p);
      }
    }
  }
}
