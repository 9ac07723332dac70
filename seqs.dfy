/** Sequence helpers shared by the routes and components: `Array.filter`,
    `Array.slice(0, n)`, and first-seen deduplication through a `Set` of keys
    (`if (seen.has(k)) return false; seen.add(k); return true`). */
module Seqs {

  /** `xs.filter(p)` */
  function Filter<T>(xs: seq<T>, p: T -> bool): (r: seq<T>)
    ensures |r| <= |xs|
    ensures forall i :: 0 <= i < |r| ==> p(r[i]) && r[i] in xs
  {
    if xs == [] then []
    else if p(xs[0]) then [xs[0]] + Filter(xs[1..], p)
    else Filter(xs[1..], p)
  }

  /** An element is kept exactly when it is in the input and satisfies `p`. */
  lemma {:induction false} FilterMembers<T>(xs: seq<T>, p: T -> bool, x: T)
    ensures x in Filter(xs, p) <==> x in xs && p(x)
  {
    if xs != [] {
      FilterMembers(xs[1..], p, x);
      assert xs == [xs[0]] + xs[1..];
    }
  }

  lemma {:induction false} FilterAppend<T>(xs: seq<T>, ys: seq<T>, p: T -> bool)
    ensures Filter(xs + ys, p) == Filter(xs, p) + Filter(ys, p)
  {
    if xs != [] {
      assert (xs + ys)[1..] == xs[1..] + ys;
      FilterAppend(xs[1..], ys, p);
    } else {
      assert xs + ys == ys;
    }
  }

  /** The head of a non-empty filter result is the first element of `xs`
      that satisfies `p`. */
  lemma {:induction false} FilterHead<T>(xs: seq<T>, p: T -> bool) returns (i: nat)
    requires Filter(xs, p) != []
    ensures i < |xs| && xs[i] == Filter(xs, p)[0] && p(xs[i])
    ensures forall j :: 0 <= j < i ==> !p(xs[j])
  {
    if p(xs[0]) {
      i := 0;
    } else {
      var k := FilterHead(xs[1..], p);
      i := k + 1;
      forall j | 0 <= j < i ensures !p(xs[j]) {
        if j > 0 { assert xs[j] == xs[1..][j - 1]; }
      }
    }
  }

  /** Every element of `xs` satisfies `p`, so filtering keeps all of it. */
  lemma {:induction false} FilterAll<T>(xs: seq<T>, p: T -> bool)
    requires forall i :: 0 <= i < |xs| ==> p(xs[i])
    ensures Filter(xs, p) == xs
  {
    if xs != [] {
      FilterAll(xs[1..], p);
    }
  }

  /** Nothing is kept when no element satisfies `p`. */
  lemma {:induction false} FilterNone<T>(xs: seq<T>, p: T -> bool)
    requires forall i :: 0 <= i < |xs| ==> !p(xs[i])
    ensures Filter(xs, p) == []
  {
    if xs != [] {
      FilterAppend([xs[0]], xs[1..], p);
      assert xs == [xs[0]] + xs[1..];
      FilterNone(xs[1..], p);
    }
  }

  /** `xs.slice(0, n)` */
  function Take<T>(xs: seq<T>, n: nat): (r: seq<T>)
    ensures |r| == if |xs| <= n then |xs| else n
    ensures r <= xs
  {
    if |xs| <= n then xs else xs[..n]
  }

  /** `xs.map(f)` */
  function Map<T, U>(xs: seq<T>, f: T -> U): (r: seq<U>)
    ensures |r| == |xs| && forall i :: 0 <= i < |xs| ==> r[i] == f(xs[i])
  {
    seq(|xs|, i requires 0 <= i < |xs| => f(xs[i]))
  }

  /** The number of elements satisfying `p`. */
  function Count<T>(xs: seq<T>, p: T -> bool): nat
  {
    |Filter(xs, p)|
  }

  /** The first element counts once when it satisfies `p`. */
  lemma CountCons<T>(xs: seq<T>, p: T -> bool)
    requires xs != []
    ensures Count(xs, p) == (if p(xs[0]) then 1 else 0) + Count(xs[1..], p)
  {
  }

  /** Every element is counted exactly when all of them satisfy `p`. */
  lemma {:induction false} CountFull<T>(xs: seq<T>, p: T -> bool)
    ensures Count(xs, p) == |xs| <==> forall i :: 0 <= i < |xs| ==> p(xs[i])
  {
    if xs != [] {
      var rest := xs[1..];
      CountCons(xs, p);
      CountFull(rest, p);
      assert (forall i :: 0 <= i < |xs| ==> p(xs[i])) <==> p(xs[0]) && forall i :: 0 <= i < |rest| ==> p(rest[i]) by {
        assert forall i :: 1 <= i < |xs| ==> xs[i] == rest[i - 1];
      }
    }
  }

  predicate NoDup<T(==)>(xs: seq<T>)
  {
    forall i, j :: 0 <= i < j < |xs| ==> xs[i] != xs[j]
  }

  /** `a` is `b` with some elements dropped, order kept. */
  predicate IsSubseq<T(==)>(a: seq<T>, b: seq<T>)
    decreases |b|
  {
    a == [] || (b != [] && ((a[0] == b[0] && IsSubseq(a[1..], b[1..])) || IsSubseq(a, b[1..])))
  }

  lemma {:induction false} FilterSubseq<T>(xs: seq<T>, p: T -> bool)
    ensures IsSubseq(Filter(xs, p), xs)
  {
    if xs != [] {
      FilterSubseq(xs[1..], p);
      if p(xs[0]) {
        assert ([xs[0]] + Filter(xs[1..], p))[1..] == Filter(xs[1..], p);
      }
    }
  }

  /** The set of keys of the elements of `xs`. */
  lemma {:induction false} SubseqMember<T>(a: seq<T>, b: seq<T>, x: T)
    requires IsSubseq(a, b) && x in a
    ensures x in b
    decreases |b|
  {
    if a[0] == b[0] && IsSubseq(a[1..], b[1..]) {
      if x != a[0] {
        assert x in a[1..];
        SubseqMember(a[1..], b[1..], x);
      }
    } else {
      SubseqMember(a, b[1..], x);
    }
  }

  lemma {:induction false} SubseqTrans<T>(a: seq<T>, b: seq<T>, c: seq<T>)
    requires IsSubseq(a, b) && IsSubseq(b, c)
    ensures IsSubseq(a, c)
    decreases |c|
  {
    if a != [] {
      if b[0] == c[0] && IsSubseq(b[1..], c[1..]) {
        if a[0] == b[0] && IsSubseq(a[1..], b[1..]) {
          SubseqTrans(a[1..], b[1..], c[1..]);
        } else {
          SubseqTrans(a, b[1..], c[1..]);
        }
      } else {
        SubseqTrans(a, b, c[1..]);
      }
    }
  }

  function Keys<T, K>(xs: seq<T>, key: T -> K): set<K>
  {
    set i | 0 <= i < |xs| :: key(xs[i])
  }

  /** The keys of a sequence are the elements of its mapped keys. */
  lemma MapKeys<T, K>(xs: seq<T>, key: T -> K)
    ensures Keys(xs, key) == set k | k in Map(xs, key)
  {
    var ks := Map(xs, key);
    forall k | k in ks ensures k in Keys(xs, key) {
      var i :| 0 <= i < |ks| && ks[i] == k;
      assert key(xs[i]) == k;
    }
  }

  lemma KeysCons<T, K>(x: T, xs: seq<T>, key: T -> K)
    ensures Keys([x] + xs, key) == {key(x)} + Keys(xs, key)
  {
    var ys := [x] + xs;
    assert ys[0] == x;
    forall k | k in Keys(ys, key) ensures k in {key(x)} + Keys(xs, key) {
      var i :| 0 <= i < |ys| && key(ys[i]) == k;
      if i > 0 { assert ys[i] == xs[i - 1]; }
    }
    forall k | k in Keys(xs, key) ensures k in Keys(ys, key) {
      var i :| 0 <= i < |xs| && key(xs[i]) == k;
      assert ys[i + 1] == xs[i];
    }
  }

  /** The keys of a non-empty sequence: its head's key and its tail's. */
  lemma KeysHead<T, K>(xs: seq<T>, key: T -> K)
    requires xs != []
    ensures Keys(xs, key) == {key(xs[0])} + Keys(xs[1..], key)
  {
    forall k | k in Keys(xs, key) ensures k in {key(xs[0])} + Keys(xs[1..], key) {
      var i :| 0 <= i < |xs| && key(xs[i]) == k;
      if i > 0 { assert xs[i] == xs[1..][i - 1]; }
    }
    forall k | k in Keys(xs[1..], key) ensures k in Keys(xs, key) {
      var i :| 0 <= i < |xs[1..]| && key(xs[1..][i]) == k;
      assert xs[i + 1] == xs[1..][i];
    }
  }

  /** Keys pairwise distinct. */
  predicate DistinctKeys<T, K(==)>(xs: seq<T>, key: T -> K)
  {
    forall i, j :: 0 <= i < j < |xs| ==> key(xs[i]) != key(xs[j])
  }

  /** First-seen deduplication by `key`, starting from the keys in `seen`:
      an element is kept iff its key is neither in `seen` nor the key of an
      element kept before it. Seeding `seen` with `""` models the callers
      that also drop empty links. */
  function DedupFrom<T, K(==)>(xs: seq<T>, key: T -> K, seen: set<K>): seq<T>
  {
    if xs == [] then []
    else if key(xs[0]) in seen then DedupFrom(xs[1..], key, seen)
    else [xs[0]] + DedupFrom(xs[1..], key, seen + {key(xs[0])})
  }

  function DedupBy<T, K(==)>(xs: seq<T>, key: T -> K): seq<T>
  {
    DedupFrom(xs, key, {})
  }

  /** Dropping elements keeps keys pairwise distinct. */
  lemma {:induction false} FilterDistinctKeys<T, K>(xs: seq<T>, p: T -> bool, key: T -> K)
    requires DistinctKeys(xs, key)
    ensures DistinctKeys(Filter(xs, p), key)
  {
    if xs != [] {
      var tail := xs[1..];
      FilterDistinctKeys(tail, p, key);
      if p(xs[0]) {
        var rest := Filter(tail, p);
        var r := [xs[0]] + rest;
        forall j | 0 < j < |r| ensures key(r[0]) != key(r[j]) {
          assert r[j] == rest[j - 1];
          var m :| 0 <= m < |tail| && tail[m] == r[j];
          assert tail[m] == xs[m + 1];
        }
        forall i, j | 0 < i < j < |r| ensures key(r[i]) != key(r[j]) {
          assert r[i] == rest[i - 1] && r[j] == rest[j - 1];
        }
      }
    }
  }

  /** The kept elements have pairwise distinct keys, none of them in `seen`,
      and they are the input with some elements dropped, order kept. */
  lemma {:induction false} DedupDistinct<T, K>(xs: seq<T>, key: T -> K, seen: set<K>)
    ensures DistinctKeys(DedupFrom(xs, key, seen), key)
    ensures Keys(DedupFrom(xs, key, seen), key) !! seen
    ensures IsSubseq(DedupFrom(xs, key, seen), xs)
  {
    if xs != [] {
      var k := key(xs[0]);
      if k in seen {
        DedupDistinct(xs[1..], key, seen);
      } else {
        var rest := DedupFrom(xs[1..], key, seen + {k});
        DedupDistinct(xs[1..], key, seen + {k});
        KeysCons(xs[0], rest, key);
        var r := [xs[0]] + rest;
        assert r[1..] == rest;
        forall i, j | 0 <= i < j < |r| ensures key(r[i]) != key(r[j]) {
          if i > 0 {
            assert r[i] == rest[i - 1] && r[j] == rest[j - 1];
          } else {
            assert r[j] == rest[j - 1];
            assert key(rest[j - 1]) in Keys(rest, key);
          }
        }
      }
    }
  }

  /** The kept keys are exactly the input's keys outside `seen`. */
  lemma {:induction false} DedupKeys<T, K>(xs: seq<T>, key: T -> K, seen: set<K>)
    ensures Keys(DedupFrom(xs, key, seen), key) == Keys(xs, key) - seen
  {
    if xs != [] {
      var k := key(xs[0]);
      assert xs == [xs[0]] + xs[1..];
      KeysCons(xs[0], xs[1..], key);
      if k in seen {
        DedupKeys(xs[1..], key, seen);
      } else {
        DedupKeys(xs[1..], key, seen + {k});
        KeysCons(xs[0], DedupFrom(xs[1..], key, seen + {k}), key);
      }
    }
  }

  /** Processing one more element: it is kept iff its key is new. This is
      the step of a loop over the items with a `seen` set. */
  lemma {:induction false} DedupSnoc<T, K>(xs: seq<T>, x: T, key: T -> K, seen: set<K>)
    ensures DedupFrom(xs + [x], key, seen)
         == DedupFrom(xs, key, seen) + (if key(x) in seen + Keys(xs, key) then [] else [x])
  {
    if xs == [] {
      assert xs + [x] == [x];
    } else {
      var k := key(xs[0]);
      assert (xs + [x])[1..] == xs[1..] + [x];
      assert xs == [xs[0]] + xs[1..];
      KeysCons(xs[0], xs[1..], key);
      if k in seen {
        DedupSnoc(xs[1..], x, key, seen);
      } else {
        DedupSnoc(xs[1..], x, key, seen + {k});
      }
    }
  }

  /** Deduplicating input whose keys are already distinct and new changes
      nothing; in particular deduplication is idempotent. */
  lemma {:induction false} DedupNoop<T, K>(xs: seq<T>, key: T -> K, seen: set<K>)
    requires DistinctKeys(xs, key) && Keys(xs, key) !! seen
    ensures DedupFrom(xs, key, seen) == xs
  {
    if xs != [] {
      assert xs == [xs[0]] + xs[1..];
      KeysCons(xs[0], xs[1..], key);
      assert key(xs[0]) !in seen;
      forall j | 0 <= j < |xs| - 1 ensures key(xs[1..][j]) != key(xs[0]) {
        assert xs[1..][j] == xs[j + 1];
      }
      assert key(xs[0]) !in Keys(xs[1..], key);
      DedupNoop(xs[1..], key, seen + {key(xs[0])});
    }
  }

  lemma DedupIdempotent<T, K>(xs: seq<T>, key: T -> K)
    ensures DedupBy(DedupBy(xs, key), key) == DedupBy(xs, key)
  {
    DedupDistinct(xs, key, {});
    DedupNoop(DedupBy(xs, key), key, {});
  }

  /** The loop of the source: walk the items once, keeping an item when its
      key is not in `seen` and adding the key. */
  method Dedup<T, K(==)>(xs: seq<T>, key: T -> K, seen0: set<K>) returns (r: seq<T>)
    ensures r == DedupFrom(xs, key, seen0)
  {
    r := [];
    var seen := seen0;
    for i := 0 to |xs|
      invariant seen == seen0 + Keys(xs[..i], key)
      invariant r == DedupFrom(xs[..i], key, seen0)
    {
      DedupSnoc(xs[..i], xs[i], key, seen0);
      assert xs[..i + 1] == xs[..i] + [xs[i]];
      KeysSnoc(xs[..i], xs[i], key);
      if key(xs[i]) !in seen {
        r := r + [xs[i]];
        seen := seen + {key(xs[i])};
      }
    }
    assert xs[..|xs|] == xs;
  }

  lemma KeysSnoc<T, K>(xs: seq<T>, x: T, key: T -> K)
    ensures Keys(xs + [x], key) == Keys(xs, key) + {key(x)}
  {
    var ys := xs + [x];
    forall k | k in Keys(ys, key) ensures k in Keys(xs, key) + {key(x)} {
      var i :| 0 <= i < |ys| && key(ys[i]) == k;
      if i < |xs| { assert ys[i] == xs[i]; }
    }
    forall k | k in Keys(xs, key) ensures k in Keys(ys, key) {
      var i :| 0 <= i < |xs| && key(xs[i]) == k;
      assert ys[i] == xs[i];
    }
    assert ys[|xs|] == x;
  }

  /** Stated once so that loops appending to a sequence need not prove it
      element by element. */
  lemma AppendAssoc<T>(a: seq<T>, b: seq<T>, c: seq<T>)
    ensures (a + b) + c == a + (b + c)
  {
  }

  /** `xs.flatMap((x, i) => f(x, i))` */
  function FlatMap<T, U>(xs: seq<T>, f: (T, nat) -> seq<U>): seq<U>
  {
    if xs == [] then [] else FlatMap(xs[..|xs| - 1], f) + f(xs[|xs| - 1], |xs| - 1)
  }

  /** One more step of `xs.forEach((x, i) => f(x, i).forEach(push))`. */
  lemma FlatMapSnoc<T, U>(xs: seq<T>, f: (T, nat) -> seq<U>, i: nat)
    requires i < |xs|
    ensures FlatMap(xs[..i + 1], f) == FlatMap(xs[..i], f) + f(xs[i], i)
  {
    assert xs[..i + 1][..i] == xs[..i];
  }

  /** An element of a flat map comes from the part of one element. */
  lemma {:induction false} FlatMapMember<T, U>(xs: seq<T>, f: (T, nat) -> seq<U>, y: U)
    ensures y in FlatMap(xs, f) <==> exists i :: 0 <= i < |xs| && y in f(xs[i], i)
    decreases |xs|
  {
    if xs != [] {
      var n := |xs| - 1;
      FlatMapMember(xs[..n], f, y);
      if y in FlatMap(xs[..n], f) {
        var i :| 0 <= i < n && y in f(xs[..n][i], i);
        assert xs[..n][i] == xs[i];
      }
      forall i | 0 <= i < n && y in f(xs[i], i) ensures y in FlatMap(xs[..n], f) {
        assert xs[..n][i] == xs[i];
      }
    }
  }

  /** Every element of a flat map satisfies `p` when every part does. */
  lemma FlatMapAll<T, U>(xs: seq<T>, f: (T, nat) -> seq<U>, p: U -> bool)
    requires forall i :: 0 <= i < |xs| ==> forall y :: y in f(xs[i], i) ==> p(y)
    ensures forall y :: y in FlatMap(xs, f) ==> p(y)
  {
    forall y | y in FlatMap(xs, f) ensures p(y) {
      FlatMapMember(xs, f, y);
    }
  }

  /** `f` applied with indices counted from `k`. */
  function Shifted<T, U>(f: (T, nat) -> seq<U>, k: nat): (T, nat) -> seq<U>
  {
    (x: T, i: nat) => f(x, k + i)
  }

  /** A flat map splits at any index, the second half numbering on. */
  lemma {:induction false} FlatMapSplit<T, U>(xs: seq<T>, f: (T, nat) -> seq<U>, k: nat)
    requires k <= |xs|
    ensures FlatMap(xs, f) == FlatMap(xs[..k], f) + FlatMap(xs[k..], Shifted(f, k))
    decreases |xs|
  {
    if |xs| == k {
      assert xs[..k] == xs;
      assert xs[k..] == [];
    } else {
      var n := |xs| - 1;
      FlatMapSplit(xs[..n], f, k);
      assert xs[..n][..k] == xs[..k];
      var tail := xs[k..];
      assert tail[..|tail| - 1] == xs[..n][k..];
      assert tail[|tail| - 1] == xs[n];
    }
  }

  /** The ranks never decrease along `xs`. */
  predicate Ordered<T>(xs: seq<T>, rank: T -> int)
  {
    forall i, j :: 0 <= i < j < |xs| ==> rank(xs[i]) <= rank(xs[j])
  }

  lemma OrderedAppend<T>(xs: seq<T>, ys: seq<T>, rank: T -> int)
    requires Ordered(xs, rank) && Ordered(ys, rank)
    requires forall x, y :: x in xs && y in ys ==> rank(x) <= rank(y)
    ensures Ordered(xs + ys, rank)
  {
    var zs := xs + ys;
    forall i, j | 0 <= i < j < |zs| ensures rank(zs[i]) <= rank(zs[j]) {
      if j < |xs| {
        assert zs[i] == xs[i] && zs[j] == xs[j];
      } else if i >= |xs| {
        assert zs[i] == ys[i - |xs|] && zs[j] == ys[j - |xs|];
      } else {
        assert zs[i] == xs[i] && zs[j] == ys[j - |xs|];
      }
    }
  }

  /** Dropping elements keeps the ranks in order. */
  lemma {:induction false} SubseqOrdered<T>(a: seq<T>, b: seq<T>, rank: T -> int)
    requires IsSubseq(a, b) && Ordered(b, rank)
    ensures Ordered(a, rank)
    decreases |b|
  {
    if a != [] {
      assert Ordered(b[1..], rank) by {
        forall i, j | 0 <= i < j < |b| - 1 ensures rank(b[1..][i]) <= rank(b[1..][j]) {
          assert b[1..][i] == b[i + 1] && b[1..][j] == b[j + 1];
        }
      }
      if a[0] == b[0] && IsSubseq(a[1..], b[1..]) {
        SubseqOrdered(a[1..], b[1..], rank);
        forall i, j | 0 <= i < j < |a| ensures rank(a[i]) <= rank(a[j]) {
          assert a[j] == a[1..][j - 1];
          if i == 0 {
            SubseqMember(a[1..], b[1..], a[j]);
            var k :| 0 <= k < |b| - 1 && b[1..][k] == a[j];
            assert b[k + 1] == a[j];
          } else {
            assert a[i] == a[1..][i - 1];
          }
        }
      } else {
        SubseqOrdered(a, b[1..], rank);
      }
    }
  }

  /** `xs.filter((s) => s !== q)` */
  function Without<T(==,!new)>(xs: seq<T>, q: T): (r: seq<T>)
    ensures q !in r
    ensures |r| <= |xs|
    ensures forall x :: x in r <==> x in xs && x != q
  {
    if xs == [] then []
    else if xs[0] == q then Without(xs[1..], q)
    else [xs[0]] + Without(xs[1..], q)
  }

  /** Removing a value that is absent changes nothing. */
  lemma {:induction false} WithoutAbsent<T(!new)>(xs: seq<T>, q: T)
    requires q !in xs
    ensures Without(xs, q) == xs
  {
    if xs != [] {
      WithoutAbsent(xs[1..], q);
    }
  }

  /** Removing a value keeps the others in their order. */
  lemma {:induction false} WithoutSubseq<T(!new)>(xs: seq<T>, q: T)
    ensures IsSubseq(Without(xs, q), xs)
  {
    if xs != [] {
      WithoutSubseq(xs[1..], q);
      if xs[0] != q {
        assert ([xs[0]] + Without(xs[1..], q))[1..] == Without(xs[1..], q);
      }
    }
  }

  lemma {:induction false} WithoutNoDup<T(!new)>(xs: seq<T>, q: T)
    requires NoDup(xs)
    ensures NoDup(Without(xs, q))
  {
    if xs != [] {
      assert NoDup(xs[1..]) by {
        forall i, j | 0 <= i < j < |xs| - 1 ensures xs[1..][i] != xs[1..][j] {
          assert xs[1..][i] == xs[i + 1] && xs[1..][j] == xs[j + 1];
        }
      }
      WithoutNoDup(xs[1..], q);
      if xs[0] != q {
        assert xs[0] !in xs[1..] by {
          forall k | 0 <= k < |xs| - 1 ensures xs[1..][k] != xs[0] {
            assert xs[1..][k] == xs[k + 1];
          }
        }
        ConsNoDup(xs[0], Without(xs[1..], q));
      }
    }
  }

  lemma ConsNoDup<T>(x: T, xs: seq<T>)
    requires NoDup(xs) && x !in xs
    ensures NoDup([x] + xs)
  {
    var r := [x] + xs;
    forall i, j | 0 <= i < j < |r| ensures r[i] != r[j] {
      assert r[j] == xs[j - 1];
      if i > 0 { assert r[i] == xs[i - 1]; }
    }
  }
}
