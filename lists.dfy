/** The array operations the handlers use: `filter`, a sort by a descending key, `slice`, skip/take. */
module Lists {

  /** `r` can be read off `xs` left to right, skipping elements: it keeps their relative order. */
  ghost predicate IsSubsequence<T>(r: seq<T>, xs: seq<T>)
    decreases |xs|
  {
    if r == [] then true
    else if xs == [] then false
    else if r[0] == xs[0] then IsSubsequence(r[1..], xs[1..])
    else IsSubsequence(r, xs[1..])
  }

  /** `xs.filter(p)` */
  function Filter<T(!new)>(xs: seq<T>, p: T -> bool): (r: seq<T>)
    ensures |r| <= |xs|
    ensures forall x :: x in r <==> x in xs && p(x)
  {
    if xs == [] then [] else (if p(xs[0]) then [xs[0]] else []) + Filter(xs[1..], p)
  }

  /**
   * What `filter` keeps: each element satisfying `p` as often as in `xs`, no
   * other element, in the order of `xs`.
   */
  lemma {:induction false} FilterKeepsCountsAndOrder<T(!new)>(xs: seq<T>, p: T -> bool)
    ensures forall x :: multiset(Filter(xs, p))[x] == if p(x) then multiset(xs)[x] else 0
    ensures IsSubsequence(Filter(xs, p), xs)
  {
    if xs != [] {
      var rest := Filter(xs[1..], p);
      FilterKeepsCountsAndOrder(xs[1..], p);
      assert xs == [xs[0]] + xs[1..];
      if p(xs[0]) {
        assert Filter(xs, p) == [xs[0]] + rest;
        assert ([xs[0]] + rest)[1..] == rest;
      } else {
        assert Filter(xs, p) == rest;
        if rest != [] {
          assert rest[0] in rest;
        }
      }
    }
  }

  /** Filtering keeps relative order: it distributes over concatenation. */
  lemma {:induction false} FilterConcat<T(!new)>(xs: seq<T>, ys: seq<T>, p: T -> bool)
    ensures Filter(xs + ys, p) == Filter(xs, p) + Filter(ys, p)
  {
    if xs != [] {
      assert (xs + ys)[1..] == xs[1..] + ys;
      FilterConcat(xs[1..], ys, p);
    } else {
      assert xs + ys == ys;
    }
  }

  /** Filtering by a predicate that holds everywhere on `xs` gives `xs` back. */
  lemma {:induction false} FilterAll<T(!new)>(xs: seq<T>, p: T -> bool)
    requires forall x :: x in xs ==> p(x)
    ensures Filter(xs, p) == xs
  {
    if xs != [] {
      FilterAll(xs[1..], p);
    }
  }

  /** Filtering by a predicate that holds nowhere on `xs` gives the empty sequence. */
  lemma {:induction false} FilterNone<T(!new)>(xs: seq<T>, p: T -> bool)
    requires forall x :: x in xs ==> !p(x)
    ensures Filter(xs, p) == []
  {
    if xs != [] {
      FilterNone(xs[1..], p);
    }
  }

  /** Filtering by `p` and by its complement `q` splits `xs` into two parts whose sizes add up to `|xs|`. */
  lemma {:induction false} FilterComplementSizes<T(!new)>(xs: seq<T>, p: T -> bool, q: T -> bool)
    requires forall x :: q(x) == !p(x)
    ensures |Filter(xs, p)| + |Filter(xs, q)| == |xs|
  {
    if xs != [] {
      FilterComplementSizes(xs[1..], p, q);
    }
  }

  /** `xs.slice(0, n)` (Prisma's `take: n`) */
  function Take<T>(xs: seq<T>, n: nat): (r: seq<T>)
    ensures |r| == if n < |xs| then n else |xs|
    ensures r <= xs
  {
    if n < |xs| then xs[..n] else xs
  }

  /** Prisma's `skip: n` */
  function Drop<T>(xs: seq<T>, n: nat): (r: seq<T>)
    ensures |r| == if n < |xs| then |xs| - n else 0
    ensures forall i :: 0 <= i < |r| ==> r[i] == xs[i + n]
  {
    if n < |xs| then xs[n..] else []
  }

  /** Ordered by `key`, largest first (Prisma's `orderBy: { key: 'desc' }`). */
  ghost predicate SortedDesc<T>(xs: seq<T>, key: T -> int) {
    forall i, j :: 0 <= i < j < |xs| ==> key(xs[i]) >= key(xs[j])
  }

  function InsertDesc<T(!new)>(x: T, xs: seq<T>, key: T -> int): (r: seq<T>)
    requires SortedDesc(xs, key)
    ensures SortedDesc(r, key)
    ensures multiset(r) == multiset(xs) + multiset{x}
    ensures forall y :: y in r ==> y == x || y in xs
  {
    if xs == [] || key(x) >= key(xs[0]) then
      [x] + xs
    else
      var rest := InsertDesc(x, xs[1..], key);
      InsertDescStep(x, xs, rest, key);
      [xs[0]] + rest
  }

  lemma InsertDescStep<T(!new)>(x: T, xs: seq<T>, rest: seq<T>, key: T -> int)
    requires xs != [] && SortedDesc(xs, key) && key(x) < key(xs[0])
    requires SortedDesc(rest, key)
    requires multiset(rest) == multiset(xs[1..]) + multiset{x}
    requires forall y :: y in rest ==> y == x || y in xs[1..]
    ensures SortedDesc([xs[0]] + rest, key)
    ensures multiset([xs[0]] + rest) == multiset(xs) + multiset{x}
    ensures forall y :: y in [xs[0]] + rest ==> y == x || y in xs
  {
    assert xs == [xs[0]] + xs[1..];
    forall j | 0 <= j < |rest| ensures key(xs[0]) >= key(rest[j]) {
      assert rest[j] in rest;
      if rest[j] != x {
        var k :| 0 <= k < |xs[1..]| && xs[1..][k] == rest[j];
        assert xs[k + 1] == rest[j];
      }
    }
    var r := [xs[0]] + rest;
    forall i, j | 0 <= i < j < |r| ensures key(r[i]) >= key(r[j]) {
      if i > 0 {
        assert r[i] == rest[i - 1] && r[j] == rest[j - 1];
      } else {
        assert r[j] == rest[j - 1];
      }
    }
  }

  /** A sort by `key`, largest first: a permutation of `xs` that is ordered. */
  function SortDesc<T(!new)>(xs: seq<T>, key: T -> int): (r: seq<T>)
    ensures SortedDesc(r, key)
    ensures multiset(r) == multiset(xs)
    ensures |r| == |xs|
  {
    if xs == [] then []
    else
      assert xs == [xs[0]] + xs[1..];
      InsertDesc(xs[0], SortDesc(xs[1..], key), key)
  }

  /** No two different elements of `xs` share a key. */
  ghost predicate KeysDistinct<T(!new)>(xs: seq<T>, key: T -> int) {
    forall x, y :: x in xs && y in xs && key(x) == key(y) ==> x == y
  }

  /** With distinct keys there is only one descending order: two sorted permutations are equal. */
  lemma {:induction false} SortedOrderUnique<T(!new)>(a: seq<T>, b: seq<T>, key: T -> int)
    requires SortedDesc(a, key) && SortedDesc(b, key) && multiset(a) == multiset(b)
    requires KeysDistinct(a, key)
    ensures a == b
    decreases |a|
  {
    assert |a| == |multiset(a)| == |multiset(b)| == |b|;
    if a != [] {
      SortedHeadsEqual(a, b, key);
      SortedTail(a, key);
      SortedTail(b, key);
      MultisetTail(a, b);
      assert KeysDistinct(a[1..], key) by {
        forall x | x in a[1..] ensures x in a {
          var i :| 0 <= i < |a[1..]| && a[1..][i] == x;
          assert a[i + 1] == x;
        }
      }
      SortedOrderUnique(a[1..], b[1..], key);
      assert a == [a[0]] + a[1..] && b == [b[0]] + b[1..];
    }
  }

  /** Two non-empty descending permutations with distinct keys start with the same element. */
  lemma SortedHeadsEqual<T(!new)>(a: seq<T>, b: seq<T>, key: T -> int)
    requires SortedDesc(a, key) && SortedDesc(b, key) && multiset(a) == multiset(b)
    requires KeysDistinct(a, key) && a != [] && b != []
    ensures a[0] == b[0]
  {
    assert a[0] in multiset(b) && b[0] in multiset(a);
    var k :| 0 <= k < |b| && b[k] == a[0];
    var m :| 0 <= m < |a| && a[m] == b[0];
    assert key(b[0]) >= key(a[0]) && key(a[0]) >= key(b[0]);
  }

  lemma SortedTail<T>(a: seq<T>, key: T -> int)
    requires SortedDesc(a, key) && a != []
    ensures SortedDesc(a[1..], key)
  {
    forall i, j | 0 <= i < j < |a| - 1 ensures key(a[1..][i]) >= key(a[1..][j]) {
      assert a[1..][i] == a[i + 1] && a[1..][j] == a[j + 1];
    }
  }

  lemma MultisetTail<T>(a: seq<T>, b: seq<T>)
    requires a != [] && b != [] && a[0] == b[0] && multiset(a) == multiset(b)
    ensures multiset(a[1..]) == multiset(b[1..])
  {
    assert a == [a[0]] + a[1..] && b == [b[0]] + b[1..];
    assert multiset(a[1..]) == multiset(a) - multiset{a[0]};
    assert multiset(b[1..]) == multiset(b) - multiset{b[0]};
  }

  /** With distinct keys, every descending order of `xs` is the one `SortDesc` gives. */
  lemma SortDescIsTheOrder<T(!new)>(xs: seq<T>, s: seq<T>, key: T -> int)
    requires KeysDistinct(xs, key)
    requires SortedDesc(s, key) && multiset(s) == multiset(xs)
    ensures s == SortDesc(xs, key)
  {
    var t := SortDesc(xs, key);
    forall x, y | x in s && y in s && key(x) == key(y) ensures x == y {
      assert x in multiset(xs) && y in multiset(xs);
    }
    SortedOrderUnique(s, t, key);
  }

  /** A window `[offset, offset + limit)` of a sorted permutation of `xs`: sorted, and drawn from `xs`. */
  lemma PageOfSorted<T(!new)>(sorted: seq<T>, xs: seq<T>, offset: nat, limit: nat, key: T -> int)
    requires SortedDesc(sorted, key) && multiset(sorted) == multiset(xs)
    ensures var r := Take(Drop(sorted, offset), limit);
      && |r| <= limit
      && (offset + limit <= |xs| ==> |r| == limit)
      && |sorted| == |xs|
      && (forall i :: 0 <= i < |r| ==> offset + i < |sorted| && r[i] == sorted[offset + i])
      && SortedDesc(r, key)
      && (forall x :: x in r ==> x in xs)
  {
    var r := Take(Drop(sorted, offset), limit);
    assert |sorted| == |multiset(sorted)| == |xs|;
    assert forall i :: 0 <= i < |r| ==> r[i] == sorted[offset + i];
    forall x | x in r ensures x in xs {
      var i :| 0 <= i < |r| && r[i] == x;
      assert sorted[offset + i] in multiset(sorted);
    }
  }
}
