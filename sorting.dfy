/**
 * `xs.sort((a, b) => key(b) - key(a))`: a stable sort by descending key, as
 * `Array.prototype.sort` is required to be.  Used for question priorities and Reddit upvotes.
 */
module Sorting {

  /** Non-increasing keys from left to right. */
  ghost predicate SortedDesc<T>(xs: seq<T>, key: T -> int) {
    forall i, j | 0 <= i < j < |xs| :: key(xs[i]) >= key(xs[j])
  }

  /** The elements whose key is `k`, in their order of appearance. */
  function WithKey<T>(xs: seq<T>, key: T -> int, k: int): (r: seq<T>)
    ensures |r| <= |xs|
  {
    if xs == [] then []
    else (if key(xs[0]) == k then [xs[0]] else []) + WithKey(xs[1..], key, k)
  }

  /** Places `x` in front of the first element with a smaller key. */
  function Insert<T>(x: T, ys: seq<T>, key: T -> int): (r: seq<T>)
    ensures |r| == |ys| + 1
    ensures multiset(r) == multiset(ys) + multiset{x}
  {
    if ys == [] || key(ys[0]) <= key(x) then [x] + ys
    else
      assert ys == [ys[0]] + ys[1..];
      [ys[0]] + Insert(x, ys[1..], key)
  }

  /** The sorted sequence: each element is inserted in front of the later ones it does not trail. */
  function SortDesc<T>(xs: seq<T>, key: T -> int): (r: seq<T>)
    ensures |r| == |xs|
    ensures multiset(r) == multiset(xs)
  {
    if xs == [] then []
    else
      assert xs == [xs[0]] + xs[1..];
      Insert(xs[0], SortDesc(xs[1..], key), key)
  }

  lemma {:induction false} InsertSorted<T>(x: T, ys: seq<T>, key: T -> int)
    requires SortedDesc(ys, key)
    ensures SortedDesc(Insert(x, ys, key), key)
  {
    if ys != [] && key(ys[0]) > key(x) {
      InsertSorted(x, ys[1..], key);
      var r := Insert(x, ys, key);
      var tail := Insert(x, ys[1..], key);
      assert r == [ys[0]] + tail;
      forall j | 0 < j < |r| ensures key(r[0]) >= key(r[j]) {
        assert r[j] in multiset(tail);
        assert r[j] in multiset(ys[1..]) + multiset{x};
        if r[j] != x {
          assert r[j] in ys[1..];
        }
      }
    }
  }

  /** The result is ordered by non-increasing key. */
  lemma {:induction false} SortDescSorted<T>(xs: seq<T>, key: T -> int)
    ensures SortedDesc(SortDesc(xs, key), key)
  {
    if xs != [] {
      SortDescSorted(xs[1..], key);
      InsertSorted(xs[0], SortDesc(xs[1..], key), key);
    }
  }

  lemma {:induction false} InsertWithKey<T>(x: T, ys: seq<T>, key: T -> int, k: int)
    requires SortedDesc(ys, key)
    ensures WithKey(Insert(x, ys, key), key, k)
         == (if key(x) == k then [x] else []) + WithKey(ys, key, k)
  {
    if ys != [] && key(ys[0]) > key(x) {
      var tail := ys[1..];
      assert SortedDesc(tail, key) by {
        forall i, j | 0 <= i < j < |tail| ensures key(tail[i]) >= key(tail[j]) {
          assert tail[i] == ys[i + 1] && tail[j] == ys[j + 1];
        }
      }
      InsertWithKey(x, tail, key, k);
      var r := Insert(x, ys, key);
      assert r == [ys[0]] + Insert(x, tail, key);
      assert r[1..] == Insert(x, tail, key);
      assert WithKey(r, key, k) == (if key(ys[0]) == k then [ys[0]] else []) + WithKey(r[1..], key, k);
      assert WithKey(ys, key, k) == (if key(ys[0]) == k then [ys[0]] else []) + WithKey(tail, key, k);
      if key(x) == k {
        assert key(ys[0]) != k;
      }
    } else {
      assert ([x] + ys)[1..] == ys;
    }
  }

  /** Stability: elements with equal keys keep their relative order. */
  lemma {:induction false} SortDescStable<T>(xs: seq<T>, key: T -> int, k: int)
    ensures WithKey(SortDesc(xs, key), key, k) == WithKey(xs, key, k)
  {
    if xs != [] {
      SortDescStable(xs[1..], key, k);
      SortDescSorted(xs[1..], key);
      InsertWithKey(xs[0], SortDesc(xs[1..], key), key, k);
    }
  }

  /** A sequence already in order is left as it is. */
  lemma {:induction false} SortDescOfSorted<T>(xs: seq<T>, key: T -> int)
    requires SortedDesc(xs, key)
    ensures SortDesc(xs, key) == xs
  {
    if xs != [] {
      SortDescOfSorted(xs[1..], key);
      assert SortDesc(xs[1..], key) == xs[1..];
      assert xs == [xs[0]] + xs[1..];
    }
  }

  /** `xs.slice(0, n)`. */
  function Take<T>(xs: seq<T>, n: nat): (r: seq<T>)
    ensures |r| == if |xs| < n then |xs| else n
    ensures r == xs[..|r|]
  {
    if |xs| <= n then xs else xs[..n]
  }

  /** A prefix of an ordered sequence is ordered. */
  lemma TakeSorted<T>(xs: seq<T>, key: T -> int, n: nat)
    requires SortedDesc(xs, key)
    ensures SortedDesc(Take(xs, n), key)
  {
  }

  lemma {:induction false} WithKeyAppend<T>(a: seq<T>, b: seq<T>, key: T -> int, k: int)
    ensures WithKey(a + b, key, k) == WithKey(a, key, k) + WithKey(b, key, k)
  {
    if a == [] {
      assert a + b == b;
    } else {
      var head := if key(a[0]) == k then [a[0]] else [];
      assert (a + b)[0] == a[0];
      assert (a + b)[1..] == a[1..] + b;
      WithKeyAppend(a[1..], b, key, k);
      calc {
        WithKey(a + b, key, k);
        head + WithKey(a[1..] + b, key, k);
        head + (WithKey(a[1..], key, k) + WithKey(b, key, k));
        (head + WithKey(a[1..], key, k)) + WithKey(b, key, k);
      }
    }
  }

  lemma {:induction false} WithKeyAll<T>(xs: seq<T>, key: T -> int, k: int)
    requires forall i | 0 <= i < |xs| :: key(xs[i]) == k
    ensures WithKey(xs, key, k) == xs
  {
    if xs != [] {
      WithKeyAll(xs[1..], key, k);
    }
  }

  lemma {:induction false} WithKeyNone<T>(xs: seq<T>, key: T -> int, k: int)
    requires forall i | 0 <= i < |xs| :: key(xs[i]) != k
    ensures WithKey(xs, key, k) == []
  {
    if xs != [] {
      WithKeyNone(xs[1..], key, k);
    }
  }

  /** In an ordered sequence whose keys are at most `top`, the elements with key `top` come first. */
  lemma {:induction false} TopKeyPrefix<T>(s: seq<T>, key: T -> int, top: int)
    requires SortedDesc(s, key)
    requires forall i | 0 <= i < |s| :: key(s[i]) <= top
    ensures var w := WithKey(s, key, top); |w| <= |s| && s[..|w|] == w
  {
    if s != [] {
      if key(s[0]) == top {
        TopKeyPrefix(s[1..], key, top);
        var w := WithKey(s[1..], key, top);
        assert s[1..][..|w|] == s[1..|w| + 1];
      } else {
        WithKeyNone(s, key, top);
      }
    }
  }

  /** Sorting puts the elements with the largest possible key first, in their original order. */
  lemma TopKeyFirst<T>(xs: seq<T>, key: T -> int, top: int)
    requires forall i | 0 <= i < |xs| :: key(xs[i]) <= top
    ensures var w := WithKey(xs, key, top); |w| <= |xs| && SortDesc(xs, key)[..|w|] == w
  {
    var s := SortDesc(xs, key);
    SortDescSorted(xs, key);
    SortDescStable(xs, key, top);
    forall i | 0 <= i < |s| ensures key(s[i]) <= top {
      assert s[i] in multiset(xs);
    }
    TopKeyPrefix(s, key, top);
  }

  /** Each key is at least the next one, from position `i` on: checked one neighbour at a time. */
  predicate NonIncreasingFrom(keys: seq<int>, i: nat)
    decreases |keys| - i
  {
    i + 1 >= |keys| || (keys[i] >= keys[i + 1] && NonIncreasingFrom(keys, i + 1))
  }

  lemma {:induction false} NonIncreasingFromSorted(keys: seq<int>, i: nat)
    requires NonIncreasingFrom(keys, i)
    decreases |keys| - i
    ensures forall j, k | i <= j < k < |keys| :: keys[j] >= keys[k]
  {
    if i + 1 < |keys| {
      NonIncreasingFromSorted(keys, i + 1);
    }
  }

  /** If `s` rearranges `a + b` and starts with `a`, the rest of `s` rearranges `b`. */
  lemma RestRearranges<T>(s: seq<T>, a: seq<T>, b: seq<T>)
    requires multiset(s) == multiset(a + b) && |a| <= |s| && s[..|a|] == a
    ensures multiset(s[|a|..]) == multiset(b)
  {
    assert s == s[..|a|] + s[|a|..];
    assert multiset(s) == multiset(a) + multiset(s[|a|..]);
    assert multiset(a + b) == multiset(a) + multiset(b);
    forall e ensures multiset(s[|a|..])[e] == multiset(b)[e] {
      assert multiset(s)[e] == multiset(a)[e] + multiset(s[|a|..])[e];
      assert multiset(s)[e] == multiset(a)[e] + multiset(b)[e];
    }
  }

  /** Every key of `a + b` is at most `top`, and exactly the elements of `a` have key `top`. */
  lemma GroupKeys<T>(a: seq<T>, b: seq<T>, key: T -> int, top: int)
    requires forall i | 0 <= i < |a| :: key(a[i]) == top
    requires forall i | 0 <= i < |b| :: key(b[i]) < top
    ensures forall i | 0 <= i < |a + b| :: key((a + b)[i]) <= top
    ensures WithKey(a + b, key, top) == a
  {
    WithKeyAll(a, key, top);
    WithKeyNone(b, key, top);
    WithKeyAppend(a, b, key, top);
    assert WithKey(a, key, top) + WithKey(b, key, top) == a;
    forall i | 0 <= i < |a + b| ensures key((a + b)[i]) <= top {
      if i >= |a| {
        assert (a + b)[i] == b[i - |a|];
      }
    }
  }

  /** Sorting `a + b`, where every key of `a` is `top` and every key of `b` is below it, keeps `a`
      in front as it is, followed by a rearrangement of `b`. */
  lemma TopGroupFirst<T>(a: seq<T>, b: seq<T>, key: T -> int, top: int)
    requires forall i | 0 <= i < |a| :: key(a[i]) == top
    requires forall i | 0 <= i < |b| :: key(b[i]) < top
    ensures var s := SortDesc(a + b, key);
      && |a| <= |s| && s[..|a|] == a && multiset(s[|a|..]) == multiset(b)
      && forall i | |a| <= i < |s| :: s[i] in b
  {
    var s := SortDesc(a + b, key);
    GroupKeys(a, b, key, top);
    TopKeyFirst(a + b, key, top);
    RestRearranges(s, a, b);
    forall i | |a| <= i < |s| ensures s[i] in b {
      assert s[i] == s[|a|..][i - |a|];
      assert s[i] in multiset(s[|a|..]);
    }
  }
}
