/** Filtering and mapping of multisets, the form in which heap contents are compared. */
module Bags {
  ghost function Pick<T>(m: multiset<T>): (x: T)
    requires m != multiset{}
    ensures x in m
  {
    var x :| x in m; x
  }

  ghost predicate IsFilter<T(!new)>(m: multiset<T>, p: T -> bool, r: multiset<T>) {
    r <= m && forall x :: r[x] == if p(x) then m[x] else 0
  }

  lemma {:induction false} FilterExists<T(!new)>(m: multiset<T>, p: T -> bool) returns (r: multiset<T>)
    ensures IsFilter(m, p, r)
    decreases |m|
  {
    if m == multiset{} {
      r := multiset{};
    } else {
      var x := Pick(m);
      r := FilterExists(m - multiset{x}, p);
      if p(x) {
        r := r + multiset{x};
      }
    }
  }

  /** The elements of m that satisfy p, with their multiplicities. */
  ghost function Filter<T(!new)>(m: multiset<T>, p: T -> bool): (r: multiset<T>)
    ensures IsFilter(m, p, r)
  {
    assert exists r :: IsFilter(m, p, r) by { var r := FilterExists(m, p); }
    var r :| IsFilter(m, p, r);
    r
  }

  lemma FilterAdd<T(!new)>(m: multiset<T>, p: T -> bool, x: T)
    ensures Filter(m + multiset{x}, p) == Filter(m, p) + if p(x) then multiset{x} else multiset{}
  {
  }

  lemma Regroup<T>(a: multiset<T>, b: multiset<T>, c: multiset<T>)
    ensures a + (b + c) == (a + b) + c
  {
  }

  lemma SumSwap<T>(a: multiset<T>, b: multiset<T>, c: multiset<T>)
    ensures (a + b) + c == (a + c) + b
  {
  }

  lemma SumMove<T>(a: multiset<T>, moved: multiset<T>, c: multiset<T>, gone: multiset<T>)
    ensures ((a + moved) + c) + gone == a + ((moved + gone) + c)
  {
  }

  lemma SumSpread<T>(a: multiset<T>, b: multiset<T>, x: multiset<T>, y: multiset<T>, c: multiset<T>)
    ensures (a + b) + ((x + y) + c) == ((a + x) + (b + y)) + c
  {
  }

  lemma SumTaken<T>(a: multiset<T>, b: multiset<T>, taken: multiset<T>, rest: multiset<T>)
    ensures (a + b) + (taken + rest) == ((a + taken) + b) + rest
    ensures (a + b) + (taken + rest) == (a + (b + taken)) + rest
  {
  }

  lemma TakeOne<T>(m: multiset<T>, x: T)
    requires x in m
    ensures m == (m - multiset{x}) + multiset{x}
  {
  }

  lemma TakeOneMore<T>(m: multiset<T>, taken: multiset<T>, x: T)
    requires taken + multiset{x} <= m
    ensures m - taken == (m - (taken + multiset{x})) + multiset{x}
  {
  }

  lemma TakeBoth<T>(m: multiset<T>, taken: multiset<T>, x: T)
    requires taken + multiset{x} <= m
    ensures taken <= m && x in m - taken && (m - taken) - multiset{x} == m - (taken + multiset{x})
  {
  }

  lemma TakeRest<T>(m: multiset<T>, taken: multiset<T>, rest: multiset<T>, x: T)
    requires taken <= m && m - taken == rest + multiset{x}
    ensures taken + multiset{x} <= m && rest == m - (taken + multiset{x})
  {
    forall y ensures m[y] == taken[y] + rest[y] + multiset{x}[y] {
      assert (m - taken)[y] == (rest + multiset{x})[y];
    }
  }

  /** The image of m under f, with multiplicities added up. */
  ghost function Image<T, U>(m: multiset<T>, f: T -> U): (r: multiset<U>)
    ensures |r| == |m|
    decreases |m|
  {
    if m == multiset{} then multiset{}
    else
      var x := Pick(m);
      Image(m - multiset{x}, f) + multiset{f(x)}
  }

  lemma SwapOut<T>(m: multiset<T>, x: T, y: T)
    requires y in m
    ensures (m - multiset{y}) + multiset{y} == m
    ensures (m + multiset{x}) - multiset{y} == (m - multiset{y}) + multiset{x}
  {
  }

  lemma SwapIn<T>(m: multiset<T>, x: T, y: T)
    ensures (m + multiset{x}) + multiset{y} == (m + multiset{y}) + multiset{x}
  {
  }

  lemma {:induction false} ImageAdd<T, U>(m: multiset<T>, x: T, f: T -> U)
    ensures Image(m + multiset{x}, f) == Image(m, f) + multiset{f(x)}
    decreases |m|
  {
    var n := m + multiset{x};
    var y := Pick(n);
    if y == x {
      assert n - multiset{y} == m;
    } else {
      var k := m - multiset{y};
      SwapOut(m, x, y);
      ImageAdd(k, x, f);
      ImageAdd(k, y, f);
      SwapIn(Image(k, f), f(x), f(y));
      assert Image(n, f) == Image(n - multiset{y}, f) + multiset{f(y)};
    }
  }

  lemma ImageOne<T, U>(x: T, f: T -> U)
    ensures Image(multiset{x}, f) == multiset{f(x)}
  {
    assert Image(multiset{}, f) == multiset{};
    ImageAdd(multiset{}, x, f);
    assert multiset{} + multiset{x} == multiset{x};
    assert multiset{} + multiset{f(x)} == multiset{f(x)};
  }

  lemma {:induction false} ImageUnion<T, U>(a: multiset<T>, b: multiset<T>, f: T -> U)
    ensures Image(a + b, f) == Image(a, f) + Image(b, f)
    decreases |b|
  {
    if b == multiset{} {
      assert a + b == a;
    } else {
      var x := Pick(b);
      var c := b - multiset{x};
      calc {
        Image(a + b, f);
        { assert a + b == (a + c) + multiset{x}; ImageAdd(a + c, x, f); }
        Image(a + c, f) + multiset{f(x)};
        { ImageUnion(a, c, f); }
        Image(a, f) + (Image(c, f) + multiset{f(x)});
        Image(a, f) + Image(b, f);
      }
    }
  }

  /** Splitting off a sub-multiset splits off its image. */
  lemma {:induction false} ImageSplit<T, U>(a: multiset<T>, m: multiset<T>, f: T -> U)
    requires a <= m
    ensures Image(m, f) == Image(a, f) + Image(m - a, f)
  {
    assert m == a + (m - a);
    ImageUnion(a, m - a, f);
  }

  /** Every element of the image comes from an element of m, and conversely. */
  lemma {:induction false} ImageMember<T(!new), U>(m: multiset<T>, f: T -> U, u: U)
    ensures u in Image(m, f) <==> exists x :: x in m && f(x) == u
    decreases |m|
  {
    if m != multiset{} {
      var y := Pick(m);
      var k := m - multiset{y};
      ImageMember(k, f, u);
      assert forall x :: x in m <==> x == y || x in k;
    }
  }

  lemma {:induction false} ImageCompose<T(!new), U, V>(m: multiset<T>, f: T -> U, g: U -> V, h: T -> V)
    requires forall x | x in m :: g(f(x)) == h(x)
    ensures Image(Image(m, f), g) == Image(m, h)
    decreases |m|
  {
    if m != multiset{} {
      var x := Pick(m);
      ImageCompose(m - multiset{x}, f, g, h);
      ImageAdd(Image(m - multiset{x}, f), f(x), g);
    }
  }

  /** The two halves of a filtered multiset. */
  lemma FilterSplit<T(!new)>(m: multiset<T>, p: T -> bool)
    ensures m == Filter(m, p) + (m - Filter(m, p))
    ensures forall x | x in m - Filter(m, p) :: !p(x)
  {
  }

  /** The contents of a list. */
  ghost function Bag<T>(s: seq<T>): multiset<T> {
    if s == [] then multiset{} else Bag(s[..|s| - 1]) + multiset{s[|s| - 1]}
  }

  lemma {:induction false} BagIsMultiset<T>(s: seq<T>)
    ensures Bag(s) == multiset(s)
  {
    if s != [] {
      BagIsMultiset(s[..|s| - 1]);
      assert s == s[..|s| - 1] + [s[|s| - 1]];
    }
  }

  /** The sum of g over a set. */
  ghost function SumOver<T(!new)>(s: set<T>, g: T -> int): int {
    if s == {} then 0
    else
      var x :| x in s;
      g(x) + SumOver(s - {x}, g)
  }

  /** A multiset over s whose multiplicities are bounded by g is no larger than the sum of g. */
  lemma {:induction false} BoundedSize<T(!new)>(m: multiset<T>, s: set<T>, g: T -> int)
    requires forall x :: m[x] <= if x in s then g(x) else 0
    ensures |m| <= SumOver(s, g)
    decreases |s|
  {
    if s == {} {
      assert m == multiset{};
    } else {
      var x :| x in s && SumOver(s, g) == g(x) + SumOver(s - {x}, g);
      BoundedSize(m[x := 0], s - {x}, g);
    }
  }

  /** A multiset in which the elements of s occur once, and nothing else occurs, has the size of s. */
  lemma {:induction false} DistinctSize<T(!new)>(m: multiset<T>, s: set<T>)
    requires forall x :: m[x] == if x in s then 1 else 0
    ensures |m| == |s|
  {
    if s == {} {
      assert m == multiset{};
    } else {
      var x :| x in s;
      DistinctSize(m - multiset{x}, s - {x});
    }
  }

  lemma DisjointSize<T>(a: set<T>, b: set<T>)
    requires a !! b
    ensures |a + b| == |a| + |b|
  {
  }
}
