/** Go's `for gvk, list := range m { for _, x := range list { ... } }` over a
    per-kind map. The order in which a Go map is ranged over is unspecified
    and may differ from one loop to the next, so every loop takes its own
    `order`: any duplicate-free listing of the map's keys. The nested loops
    then visit exactly the pairs of `Flatten(order, m)`, in that order. */
module Ordering {
  import opened Types

  /** `order` is one of the orders a range over `m` may take. */
  predicate IsIterationOrder<V>(order: seq<Gvk>, m: map<Gvk, V>)
  {
    && (forall i, j :: 0 <= i < j < |order| ==> order[i] != order[j])
    && (forall g :: g in order ==> g in m)
    && (forall g :: g in m ==> g in order)
  }

  /** The items of one kind, each paired with that kind. */
  function Tag<T>(g: Gvk, xs: seq<T>): (r: seq<(Gvk, T)>)
    ensures |r| == |xs|
    ensures forall i :: 0 <= i < |xs| ==> r[i] == (g, xs[i])
  {
    seq(|xs|, i requires 0 <= i < |xs| => (g, xs[i]))
  }

  /** The (kind, item) pairs the nested range loops visit, in visiting order. */
  function Flatten<T>(order: seq<Gvk>, m: map<Gvk, seq<T>>): seq<(Gvk, T)>
    requires forall g :: g in order ==> g in m
  {
    if order == [] then [] else Tag(order[0], m[order[0]]) + Flatten(order[1..], m)
  }

  /** The items of kind `g` in a list of pairs, in list order. */
  function OfKind<T>(items: seq<(Gvk, T)>, g: Gvk): seq<T>
  {
    if items == [] then []
    else (if items[0].0 == g then [items[0].1] else []) + OfKind(items[1..], g)
  }

  lemma {:induction false} OfKindAppend<T>(a: seq<(Gvk, T)>, b: seq<(Gvk, T)>, g: Gvk)
    ensures OfKind(a + b, g) == OfKind(a, g) + OfKind(b, g)
    decreases |a|
  {
    if a != [] {
      assert (a + b)[0] == a[0];
      assert (a + b)[1..] == a[1..] + b;
      OfKindAppend(a[1..], b, g);
      assert OfKind(a + b, g) == (if a[0].0 == g then [a[0].1] else []) + OfKind(a[1..] + b, g);
    } else {
      assert a + b == b;
    }
  }

  lemma {:induction false} OfKindTag<T>(h: Gvk, xs: seq<T>, g: Gvk)
    ensures OfKind(Tag(h, xs), g) == if h == g then xs else []
    decreases |xs|
  {
    if xs != [] {
      assert Tag(h, xs)[1..] == Tag(h, xs[1..]);
      OfKindTag(h, xs[1..], g);
    }
  }

  /** Within a kind, the loops visit that kind's items in insertion order,
      whatever order the kinds themselves are visited in; a kind the
      order does not list contributes nothing. */
  lemma {:induction false} FlattenKeepsKindOrder<T>(order: seq<Gvk>, m: map<Gvk, seq<T>>, g: Gvk)
    requires forall g' :: g' in order ==> g' in m
    requires forall i, j :: 0 <= i < j < |order| ==> order[i] != order[j]
    ensures OfKind(Flatten(order, m), g) == if g in order then m[g] else []
    decreases |order|
  {
    if order != [] {
      OfKindAppend(Tag(order[0], m[order[0]]), Flatten(order[1..], m), g);
      OfKindTag(order[0], m[order[0]], g);
      FlattenKeepsKindOrder(order[1..], m, g);
      if g == order[0] {
        assert g !in order[1..] by {
          forall j | 0 <= j < |order[1..]| ensures order[1..][j] != g {
            assert order[1..][j] == order[j + 1];
          }
        }
      }
    }
  }

  /** How often a pair occurs in the visit: as often as the item occurs in
      its kind's list, provided the order lists the kind once. */
  lemma {:induction false} FlattenCount<T>(order: seq<Gvk>, m: map<Gvk, seq<T>>, g: Gvk, x: T)
    requires forall g' :: g' in order ==> g' in m
    requires forall i, j :: 0 <= i < j < |order| ==> order[i] != order[j]
    ensures multiset(Flatten(order, m))[(g, x)] == if g in order then multiset(m[g])[x] else 0
    decreases |order|
  {
    if order != [] {
      var h := order[0];
      FlattenCount(order[1..], m, g, x);
      TagCount(h, m[h], g, x);
      forall j | 0 <= j < |order[1..]| ensures order[1..][j] != h {
        assert order[1..][j] == order[j + 1];
      }
      assert g in order <==> g == h || g in order[1..];
    }
  }

  lemma {:induction false} TagCount<T>(h: Gvk, xs: seq<T>, g: Gvk, x: T)
    ensures multiset(Tag(h, xs))[(g, x)] == if g == h then multiset(xs)[x] else 0
    decreases |xs|
  {
    if xs != [] {
      TagCons(h, xs);
      TagCount(h, xs[1..], g, x);
      CountCons((h, xs[0]), Tag(h, xs[1..]), (g, x));
      CountCons(xs[0], xs[1..], x);
      assert xs == [xs[0]] + xs[1..];
    }
  }

  lemma TagCons<T>(h: Gvk, xs: seq<T>)
    requires xs != []
    ensures Tag(h, xs) == [(h, xs[0])] + Tag(h, xs[1..])
  {
  }

  lemma CountCons<T>(p: T, rest: seq<T>, q: T)
    ensures multiset([p] + rest)[q] == (if p == q then 1 else 0) + multiset(rest)[q]
  {
    assert multiset([p] + rest) == multiset{p} + multiset(rest);
  }

  /** Every iteration order visits the same pairs, each as often: the
      unspecified order only permutes the work. */
  lemma FlattenIsOrderIndependent<T>(o1: seq<Gvk>, o2: seq<Gvk>, m: map<Gvk, seq<T>>)
    requires IsIterationOrder(o1, m) && IsIterationOrder(o2, m)
    ensures multiset(Flatten(o1, m)) == multiset(Flatten(o2, m))
  {
    var a, b := multiset(Flatten(o1, m)), multiset(Flatten(o2, m));
    forall g: Gvk, x: T ensures a[(g, x)] == b[(g, x)] {
      FlattenCount(o1, m, g, x);
      FlattenCount(o2, m, g, x);
    }
    PairwiseEqual(a, b);
  }

  lemma PairwiseEqual<T>(a: multiset<(Gvk, T)>, b: multiset<(Gvk, T)>)
    requires forall g: Gvk, x: T :: a[(g, x)] == b[(g, x)]
    ensures a == b
  {
    forall p: (Gvk, T) ensures a[p] == b[p] {
      assert p == (p.0, p.1);
    }
  }

  /** A pair is visited exactly when its item is registered under its kind. */
  lemma FlattenMembership<T>(order: seq<Gvk>, m: map<Gvk, seq<T>>, g: Gvk, x: T)
    requires IsIterationOrder(order, m)
    ensures (g, x) in Flatten(order, m) <==> g in m && x in m[g]
  {
    FlattenCount(order, m, g, x);
  }

  /** `f` applied to every element, in order. */
  function MapSeq<A, B>(f: A -> B, s: seq<A>): (r: seq<B>)
    ensures |r| == |s|
    ensures forall i :: 0 <= i < |s| ==> r[i] == f(s[i])
  {
    seq(|s|, i requires 0 <= i < |s| => f(s[i]))
  }

  /** Mapping keeps permutations permutations: two visits of the same
      pairs produce the same values, each as often. */
  lemma {:induction false} MapSeqPermutation<A, B>(f: A -> B, a: seq<A>, b: seq<A>)
    requires multiset(a) == multiset(b)
    ensures multiset(MapSeq(f, a)) == multiset(MapSeq(f, b))
    decreases |a|
  {
    if a == [] {
      assert |b| == |multiset(b)| == 0;
    } else {
      var x := a[0];
      var j := PickMatch(a, b);
      var u, v := b[..j], b[j + 1..];
      MapSeqPermutation(f, a[1..], u + v);
      assert a == [x] + a[1..];
      MapSeqAppend(f, [x], a[1..]);
      assert b == (u + [x]) + v;
      MapSeqAppend(f, u + [x], v);
      MapSeqAppend(f, u, [x]);
      MapSeqAppend(f, u, v);
      MoveToFront(f(x), MapSeq(f, u), MapSeq(f, v));
    }
  }


  lemma MapSeqAppend<A, B>(f: A -> B, p: seq<A>, q: seq<A>)
    ensures MapSeq(f, p + q) == MapSeq(f, p) + MapSeq(f, q)
  {
    var l, r := MapSeq(f, p + q), MapSeq(f, p) + MapSeq(f, q);
    assert |l| == |r|;
    forall i | 0 <= i < |l| ensures l[i] == r[i] {
      if i < |p| {
        assert (p + q)[i] == p[i];
      } else {
        assert (p + q)[i] == q[i - |p|];
      }
    }
  }

  lemma MoveToFront<B>(y: B, p: seq<B>, q: seq<B>)
    ensures multiset(p + [y] + q) == multiset([y] + (p + q))
  {
  }

  lemma Cancel<A>(x: A, m1: multiset<A>, m2: multiset<A>)
    requires multiset{x} + m1 == multiset{x} + m2
    ensures m1 == m2
  {
    forall y ensures m1[y] == m2[y] {
      assert (multiset{x} + m1)[y] == (multiset{x} + m2)[y];
    }
  }

  /** `f` applied to every element, the results joined in order. */
  function FlatMap<A, B>(f: A -> seq<B>, s: seq<A>): seq<B>
    decreases |s|
  {
    if s == [] then [] else f(s[0]) + FlatMap(f, s[1..])
  }

  lemma {:induction false} FlatMapAppend<A, B>(f: A -> seq<B>, p: seq<A>, q: seq<A>)
    ensures FlatMap(f, p + q) == FlatMap(f, p) + FlatMap(f, q)
    decreases |p|
  {
    if p == [] {
      assert p + q == q;
    } else {
      assert (p + q)[0] == p[0];
      assert (p + q)[1..] == p[1..] + q;
      FlatMapAppend(f, p[1..], q);
    }
  }

  /** Joining the results keeps permutations permutations as well. */
  lemma {:induction false} FlatMapPermutation<A, B>(f: A -> seq<B>, a: seq<A>, b: seq<A>)
    requires multiset(a) == multiset(b)
    ensures multiset(FlatMap(f, a)) == multiset(FlatMap(f, b))
    decreases |a|
  {
    if a == [] {
      assert |b| == |multiset(b)| == 0;
    } else {
      var j := PickMatch(a, b);
      var u, v := b[..j], b[j + 1..];
      FlatMapPermutation(f, a[1..], u + v);
      FlatMapMoved(f, a[0], a[1..], u, v);
      assert a == [a[0]] + a[1..];
    }
  }

  /** An element of `a` found in `b`, and what remains of `b` without it. */
  lemma PickMatch<A>(a: seq<A>, b: seq<A>) returns (j: nat)
    requires multiset(a) == multiset(b) && a != []
    ensures j < |b| && b == b[..j] + [a[0]] + b[j + 1..]
    ensures multiset(b[..j] + b[j + 1..]) == multiset(a[1..])
  {
    var x := a[0];
    assert x in multiset(a);
    assert x in b;
    j :| 0 <= j < |b| && b[j] == x;
    var u, v := b[..j], b[j + 1..];
    assert b == u + [x] + v;
    assert a == [x] + a[1..];
    assert multiset{x} + multiset(u + v) == multiset{x} + multiset(a[1..]);
    Cancel(x, multiset(u + v), multiset(a[1..]));
  }

  /** Moving one element of a work list does not change what `FlatMap`
      visits, up to order. */
  lemma FlatMapMoved<A, B>(f: A -> seq<B>, x: A, rest: seq<A>, u: seq<A>, v: seq<A>)
    requires multiset(FlatMap(f, rest)) == multiset(FlatMap(f, u + v))
    ensures multiset(FlatMap(f, [x] + rest)) == multiset(FlatMap(f, u + [x] + v))
  {
    FlatMapAppend(f, [x], rest);
    FlatMapAppend(f, u + [x], v);
    FlatMapAppend(f, u, [x]);
    FlatMapAppend(f, u, v);
    assert FlatMap(f, [x]) == f(x) + FlatMap(f, []);
  }


  /** A prefix holds each value at most as often as the whole. */
  lemma PrefixMultiset<B>(p: seq<B>, s: seq<B>)
    requires p <= s
    ensures multiset(p) <= multiset(s)
  {
    assert s == p + s[|p|..];
  }
}
