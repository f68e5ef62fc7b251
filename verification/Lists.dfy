/** Facts about sequences that several proofs share. */
module Lists {
  function FlatMap<S, T>(f: S -> seq<T>, xs: seq<S>): seq<T> {
    if xs == [] then [] else f(xs[0]) + FlatMap(f, xs[1..])
  }

  lemma FlatMapCons<S, T>(f: S -> seq<T>, x: S, xs: seq<S>)
    ensures FlatMap(f, [x] + xs) == f(x) + FlatMap(f, xs)
  {
    assert ([x] + xs)[1..] == xs;
  }

  lemma FlatMapOne<S, T>(f: S -> seq<T>, x: S)
    ensures FlatMap(f, [x]) == f(x)
  {
    FlatMapCons(f, x, []);
    assert [x] + [] == [x];
  }

  lemma PlusAssociates<T>(a: seq<T>, b: seq<T>, c: seq<T>)
    ensures a + (b + c) == (a + b) + c
  {
  }

  lemma {:induction false} FlatMapConcat<S, T>(f: S -> seq<T>, a: seq<S>, b: seq<S>)
    ensures FlatMap(f, a + b) == FlatMap(f, a) + FlatMap(f, b)
  {
    if a == [] {
      assert a + b == b;
    } else {
      var x, xs := a[0], a[1..];
      assert a == [x] + xs;
      PlusAssociates([x], xs, b);
      FlatMapConcat(f, xs, b);
      FlatMapCons(f, x, xs + b);
      FlatMapCons(f, x, xs);
      PlusAssociates(f(x), FlatMap(f, xs), FlatMap(f, b));
    }
  }

  /** `a` is `b` with some elements left out. */
  predicate Within<T(==)>(a: seq<T>, b: seq<T>) {
    a == [] || (b != [] && ((a[0] == b[0] && Within(a[1..], b[1..])) || Within(a, b[1..])))
  }

  lemma {:induction false} WithinSkips<T>(a: seq<T>, front: seq<T>, b: seq<T>)
    requires Within(a, b)
    ensures Within(a, front + b)
    decreases |front|
  {
    if front == [] {
      assert front + b == b;
    } else {
      WithinSkips(a, front[1..], b);
      assert (front + b)[1..] == front[1..] + b;
    }
  }

  lemma {:induction false} WithinConcat<T>(a: seq<T>, b: seq<T>, c: seq<T>, d: seq<T>)
    requires Within(a, b) && Within(c, d)
    ensures Within(a + c, b + d)
    decreases |b|
  {
    if a == [] {
      assert a + c == c;
      WithinSkips(c, b, d);
    } else {
      assert (b + d)[0] == b[0] && (b + d)[1..] == b[1..] + d;
      assert (a + c)[0] == a[0] && (a + c)[1..] == a[1..] + c;
      if a[0] == b[0] && Within(a[1..], b[1..]) {
        WithinConcat(a[1..], b[1..], c, d);
      } else {
        WithinConcat(a, b[1..], c, d);
      }
    }
  }
}
