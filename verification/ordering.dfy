/** Three-way comparators, the orders they define, and stable sorting by them. */
module Ordering {

  /** Less than, equal to or greater than zero, as the sort of a list reads it. */
  type Comparator<!T> = (T, T) -> real

  /** Antisymmetric in sign, and transitive: a total preorder. */
  ghost predicate WeakOrder<T(!new)>(c: Comparator<T>) {
    && (forall a, b :: c(a, b) < 0.0 <==> c(b, a) > 0.0)
    && (forall a, b, d :: c(a, b) <= 0.0 && c(b, d) <= 0.0 ==> c(a, d) <= 0.0)
  }

  /** The first comparator decides; the second breaks its ties. */
  function Then<T>(first: Comparator<T>, second: Comparator<T>): Comparator<T> {
    (a, b) => if first(a, b) != 0.0 then first(a, b) else second(a, b)
  }

  lemma ThenIsWeakOrder<T(!new)>(first: Comparator<T>, second: Comparator<T>)
    requires WeakOrder(first) && WeakOrder(second)
    ensures WeakOrder(Then(first, second))
  {
    var c := Then(first, second);
    forall a, b, d | c(a, b) <= 0.0 && c(b, d) <= 0.0 ensures c(a, d) <= 0.0 {
      assert first(a, b) <= 0.0 && first(b, d) <= 0.0 && first(a, d) <= 0.0;
      if first(a, d) == 0.0 {
        assert first(d, a) <= 0.0 && first(d, b) <= 0.0 && first(b, a) <= 0.0;
        assert second(a, b) <= 0.0 && second(b, d) <= 0.0;
      }
    }
  }

  /** Comparing by a key. */
  function By<S, K>(key: S -> K, c: Comparator<K>): Comparator<S> {
    (a, b) => c(key(a), key(b))
  }

  lemma ByIsWeakOrder<S(!new), K(!new)>(key: S -> K, c: Comparator<K>)
    requires WeakOrder(c)
    ensures WeakOrder(By(key, c))
  {
    var d := By(key, c);
    forall x, y, z | d(x, y) <= 0.0 && d(y, z) <= 0.0 ensures d(x, z) <= 0.0 {
      assert c(key(x), key(z)) <= 0.0;
    }
  }

  // ---------- strings by code points ----------

  function CompareStrings(a: string, b: string): real {
    if a == [] && b == [] then 0.0
    else if a == [] then -1.0
    else if b == [] then 1.0
    else if a[0] < b[0] then -1.0
    else if a[0] > b[0] then 1.0
    else CompareStrings(a[1..], b[1..])
  }

  lemma {:induction false} StringsAntisymmetric(a: string, b: string)
    ensures CompareStrings(a, b) < 0.0 <==> CompareStrings(b, a) > 0.0
    ensures CompareStrings(a, b) == 0.0 <==> a == b
    decreases |a|
  {
    if a != [] && b != [] {
      StringsAntisymmetric(a[1..], b[1..]);
      assert a == [a[0]] + a[1..] && b == [b[0]] + b[1..];
    }
  }

  lemma {:induction false} StringsTransitive(a: string, b: string, c: string)
    requires CompareStrings(a, b) <= 0.0 && CompareStrings(b, c) <= 0.0
    ensures CompareStrings(a, c) <= 0.0
    decreases |a|
  {
    if a != [] && b != [] && c != [] && a[0] == b[0] == c[0] {
      StringsTransitive(a[1..], b[1..], c[1..]);
    }
  }

  lemma StringsAreOrdered()
    ensures WeakOrder(CompareStrings)
    ensures forall a, b :: CompareStrings(a, b) == 0.0 <==> a == b
  {
    forall a, b ensures CompareStrings(a, b) < 0.0 <==> CompareStrings(b, a) > 0.0
      ensures CompareStrings(a, b) == 0.0 <==> a == b
    {
      StringsAntisymmetric(a, b);
    }
    forall a, b, c | CompareStrings(a, b) <= 0.0 && CompareStrings(b, c) <= 0.0 ensures CompareStrings(a, c) <= 0.0 {
      StringsTransitive(a, b, c);
    }
  }

  /** A string is a prefix of the other, or smaller at the first character in which they differ. */
  ghost predicate AtMost(a: string, b: string) {
    a <= b || exists k :: 0 <= k < |a| && k < |b| && a[..k] == b[..k] && a[k] < b[k]
  }

  lemma {:induction false} StringsAre(a: string, b: string)
    ensures CompareStrings(a, b) <= 0.0 <==> AtMost(a, b)
    decreases |a|
  {
    if a != [] && b != [] {
      if a[0] == b[0] {
        StringsAre(a[1..], b[1..]);
        AtMostBehind(a, b);
      } else {
        assert a[..0] == b[..0];
        assert forall k | 0 < k <= |a| && k <= |b| :: a[..k][0] == a[0] && b[..k][0] == b[0];
      }
    }
  }

  lemma AtMostBehind(a: string, b: string)
    requires a != [] && b != [] && a[0] == b[0]
    ensures AtMost(a, b) <==> AtMost(a[1..], b[1..])
  {
    assert a == [a[0]] + a[1..] && b == [b[0]] + b[1..];
    assert a <= b <==> a[1..] <= b[1..];
    forall k | 0 < k < |a| && k < |b| ensures a[..k] == b[..k] <==> a[1..][..k - 1] == b[1..][..k - 1] {
      assert a[..k] == [a[0]] + a[1..][..k - 1] && b[..k] == [b[0]] + b[1..][..k - 1];
    }
    if k :| 0 <= k < |a| && k < |b| && a[..k] == b[..k] && a[k] < b[k] {
      assert a[1..][k - 1] < b[1..][k - 1];
    }
    if k :| 0 <= k < |a| - 1 && k < |b| - 1 && a[1..][..k] == b[1..][..k] && a[1..][k] < b[1..][k] {
      assert a[..k + 1] == b[..k + 1] && a[k + 1] < b[k + 1];
    }
  }

  // ---------- stable sorting ----------

  ghost predicate Sorted<T>(c: Comparator<T>, xs: seq<T>) {
    forall i, j | 0 <= i < j < |xs| :: c(xs[i], xs[j]) <= 0.0
  }

  /** Puts `x` behind everything that does not come after it. */
  function Insert<T>(c: Comparator<T>, x: T, xs: seq<T>): seq<T> {
    if xs == [] then [x]
    else if c(x, xs[0]) < 0.0 then [x] + xs
    else [xs[0]] + Insert(c, x, xs[1..])
  }

  /** The stable sort of a list, whatever algorithm computes it. */
  function Sort<T>(c: Comparator<T>, xs: seq<T>): seq<T> {
    if xs == [] then [] else Insert(c, xs[|xs| - 1], Sort(c, xs[..|xs| - 1]))
  }

  lemma {:induction false} InsertKeepsAll<T>(c: Comparator<T>, x: T, xs: seq<T>)
    ensures multiset(Insert(c, x, xs)) == multiset(xs) + multiset{x}
    decreases |xs|
  {
    if xs != [] {
      assert xs == [xs[0]] + xs[1..];
      InsertKeepsAll(c, x, xs[1..]);
    }
  }

  lemma {:induction false} InsertSorted<T(!new)>(c: Comparator<T>, x: T, xs: seq<T>)
    requires WeakOrder(c) && Sorted(c, xs)
    ensures Sorted(c, Insert(c, x, xs))
    decreases |xs|
  {
    if xs != [] {
      if c(x, xs[0]) < 0.0 {
        forall j | 0 <= j < |xs| ensures c(x, xs[j]) <= 0.0 {
          if j > 0 {
            assert c(xs[0], xs[j]) <= 0.0;
          }
        }
      } else {
        InsertSorted(c, x, xs[1..]);
        InsertBehind(c, x, xs);
      }
    }
  }

  lemma InsertBehind<T(!new)>(c: Comparator<T>, x: T, xs: seq<T>)
    requires WeakOrder(c) && Sorted(c, xs) && xs != [] && c(x, xs[0]) >= 0.0
    ensures forall y <- Insert(c, x, xs[1..]) :: c(xs[0], y) <= 0.0
  {
    InsertKeepsAll(c, x, xs[1..]);
    forall y <- Insert(c, x, xs[1..]) ensures c(xs[0], y) <= 0.0 {
      assert y in multiset(Insert(c, x, xs[1..]));
      if y in xs[1..] {
        var k :| 0 <= k < |xs[1..]| && xs[1..][k] == y;
        assert xs[k + 1] == y;
      } else {
        assert y == x;
      }
    }
  }

  lemma {:induction false} SortKeepsAll<T>(c: Comparator<T>, xs: seq<T>)
    ensures multiset(Sort(c, xs)) == multiset(xs)
    decreases |xs|
  {
    if xs != [] {
      SortKeepsAll(c, xs[..|xs| - 1]);
      InsertKeepsAll(c, xs[|xs| - 1], Sort(c, xs[..|xs| - 1]));
      assert xs == xs[..|xs| - 1] + [xs[|xs| - 1]];
    }
  }

  lemma {:induction false} SortSorted<T(!new)>(c: Comparator<T>, xs: seq<T>)
    requires WeakOrder(c)
    ensures Sorted(c, Sort(c, xs))
    decreases |xs|
  {
    if xs != [] {
      SortSorted(c, xs[..|xs| - 1]);
      InsertSorted(c, xs[|xs| - 1], Sort(c, xs[..|xs| - 1]));
    }
  }

  /** Elements of `s` that tie are the same element. */
  ghost predicate NoTies<T>(c: Comparator<T>, s: multiset<T>) {
    forall a, b | a in s && b in s :: c(a, b) == 0.0 ==> a == b
  }

  lemma HeadIsLeast<T(!new)>(c: Comparator<T>, xs: seq<T>, x: T)
    requires WeakOrder(c) && Sorted(c, xs) && x in xs
    ensures c(xs[0], x) <= 0.0
  {
    var i :| 0 <= i < |xs| && xs[i] == x;
    if i == 0 {
      StrongReflexive(c, x);
    }
  }

  lemma HeadsAgree<T(!new)>(c: Comparator<T>, xs: seq<T>, ys: seq<T>)
    requires WeakOrder(c) && NoTies(c, multiset(xs)) && xs != [] && ys != []
    requires Sorted(c, xs) && Sorted(c, ys) && multiset(xs) == multiset(ys)
    ensures xs[0] == ys[0]
  {
    assert xs[0] in multiset(ys) && ys[0] in multiset(xs);
    HeadIsLeast(c, xs, ys[0]);
    HeadIsLeast(c, ys, xs[0]);
  }

  /** Without ties there is only one order, so the input's order and the algorithm do not matter. */
  lemma {:induction false} SortedIsUnique<T(!new)>(c: Comparator<T>, xs: seq<T>, ys: seq<T>)
    requires WeakOrder(c) && NoTies(c, multiset(xs))
    requires Sorted(c, xs) && Sorted(c, ys) && multiset(xs) == multiset(ys)
    ensures xs == ys
    decreases |xs|
  {
    SameSize(xs, ys);
    if xs != [] {
      assert xs[0] == ys[0] by {
        HeadsAgree(c, xs, ys);
      }
      TailMultisets(c, xs, ys);
      assert Sorted(c, xs[1..]) && Sorted(c, ys[1..]) by {
        SortedTail(c, xs);
        SortedTail(c, ys);
      }
      SortedIsUnique(c, xs[1..], ys[1..]);
      SameHeadAndTail(xs, ys);
    }
  }

  lemma SameHeadAndTail<T>(xs: seq<T>, ys: seq<T>)
    requires xs != [] && ys != [] && xs[0] == ys[0] && xs[1..] == ys[1..]
    ensures xs == ys
  {
    assert xs == [xs[0]] + xs[1..] && ys == [ys[0]] + ys[1..];
  }

  lemma SameSize<T>(xs: seq<T>, ys: seq<T>)
    requires multiset(xs) == multiset(ys)
    ensures |xs| == |ys|
  {
    assert |xs| == |multiset(xs)| && |ys| == |multiset(ys)|;
  }

  lemma TailMultisets<T>(c: Comparator<T>, xs: seq<T>, ys: seq<T>)
    requires xs != [] && ys != [] && xs[0] == ys[0] && multiset(xs) == multiset(ys) && NoTies(c, multiset(xs))
    ensures multiset(xs[1..]) == multiset(ys[1..]) && NoTies(c, multiset(xs[1..]))
  {
    assert xs == [xs[0]] + xs[1..] && ys == [ys[0]] + ys[1..];
    assert multiset(xs[1..]) == multiset(xs) - multiset{xs[0]};
    assert multiset(ys[1..]) == multiset(ys) - multiset{ys[0]};
    assert forall a :: a in multiset(xs[1..]) ==> a in multiset(xs);
  }

  lemma SortedTail<T>(c: Comparator<T>, xs: seq<T>)
    requires Sorted(c, xs) && xs != []
    ensures Sorted(c, xs[1..])
  {
  }

  lemma StrongReflexive<T(!new)>(c: Comparator<T>, x: T)
    requires WeakOrder(c)
    ensures c(x, x) == 0.0
  {
  }

  function Map<S, T>(f: S -> T, xs: seq<S>): seq<T> {
    seq(|xs|, i requires 0 <= i < |xs| => f(xs[i]))
  }

  /** Inserting decorated values orders them as the plain ones are ordered. */
  lemma {:induction false} InsertDecorated<S, T>(decorate: S -> T, c: Comparator<S>, d: Comparator<T>, x: S, xs: seq<S>)
    requires forall y <- xs :: d(decorate(x), decorate(y)) == c(x, y)
    ensures Insert(d, decorate(x), Map(decorate, xs)) == Map(decorate, Insert(c, x, xs))
    decreases |xs|
  {
    if xs != [] {
      assert Map(decorate, xs)[1..] == Map(decorate, xs[1..]);
      InsertDecorated(decorate, c, d, x, xs[1..]);
    }
  }

  /** So the decorated sort is the plain sort. */
  lemma {:induction false} SortDecorated<S(!new), T>(decorate: S -> T, c: Comparator<S>, d: Comparator<T>, xs: seq<S>)
    requires forall x, y :: d(decorate(x), decorate(y)) == c(x, y)
    ensures Sort(d, Map(decorate, xs)) == Map(decorate, Sort(c, xs))
    decreases |xs|
  {
    if xs != [] {
      var n := |xs| - 1;
      assert Map(decorate, xs)[..n] == Map(decorate, xs[..n]);
      SortDecorated(decorate, c, d, xs[..n]);
      InsertDecorated(decorate, c, d, xs[n], Sort(c, xs[..n]));
    }
  }
}
