/** Small generic vocabulary shared by the modules: optional values, sums over a
    sequence, and orderings of a finite set (what one pass over a Go map yields). */
module Prelude {

  /** Durations and times are counted in nanoseconds. */
  const SECOND := 1_000_000_000
  const MINUTE := 60 * SECOND

  datatype Option<+T> = None | Some(value: T) {
    function Or(default: T): T {
      match this
      case Some(v) => v
      case None => default
    }
  }

  datatype Result<+T, +E> = Ok(value: T) | Err(error: E)

  lemma Assoc<T>(a: seq<T>, b: seq<T>, c: seq<T>)
    ensures a + (b + c) == a + b + c
  {
  }

  lemma PrefixSnoc<T>(s: seq<T>, n: nat)
    requires n < |s|
    ensures s[..n + 1] == s[..n] + [s[n]]
  {
  }

  lemma EmptyLeft<T>(a: seq<T>)
    ensures [] + a == a
  {
  }

  lemma ConsIff<T>(x: T, a: seq<T>, b: seq<T>)
    ensures [x] + a == [x] + b <==> a == b
  {
    assert ([x] + a)[1..] == a && ([x] + b)[1..] == b;
  }

  lemma AppendIff<T>(a: seq<T>, b: seq<T>)
    ensures a == a + b <==> b == []
  {
    assert |a + b| == |a| + |b|;
  }

  /** `order` lists every member of `keys` exactly once. */
  ghost predicate Enumerates<K(!new)>(order: seq<K>, keys: set<K>) {
    && (forall i, j :: 0 <= i < j < |order| ==> order[i] != order[j])
    && (forall k :: k in keys <==> k in order)
  }

  lemma EnumerationSize<K(!new)>(order: seq<K>, keys: set<K>)
    requires Enumerates(order, keys)
    ensures |order| == |keys|
  {
    if order == [] {
      assert keys == {};
    } else {
      var last := order[|order| - 1];
      EnumerationSize(order[..|order| - 1], keys - {last});
    }
  }

  function SumInt<T>(xs: seq<T>, f: T -> int): int {
    if xs == [] then 0 else SumInt(xs[..|xs| - 1], f) + f(xs[|xs| - 1])
  }

  function SumReal<T>(xs: seq<T>, f: T -> real): real {
    if xs == [] then 0.0 else SumReal(xs[..|xs| - 1], f) + f(xs[|xs| - 1])
  }

  function Mean(sum: real, count: int): real
    requires count > 0
  {
    sum / (count as real)
  }

  /** How an accumulator loop extends a sum by the element at `i`. */
  lemma IntStep<T>(xs: seq<T>, i: nat, f: T -> int)
    requires i < |xs|
    ensures SumInt(xs[..i + 1], f) == SumInt(xs[..i], f) + f(xs[i])
  {
    assert xs[..i + 1][..i] == xs[..i];
  }

  lemma SumOfOne<T>(x: T, f: T -> int)
    ensures SumInt([x], f) == f(x)
  {
    assert [x][..0] == [];
  }

  lemma RealStep<T>(xs: seq<T>, i: nat, f: T -> real)
    requires i < |xs|
    ensures SumReal(xs[..i + 1], f) == SumReal(xs[..i], f) + f(xs[i])
  {
    assert xs[..i + 1][..i] == xs[..i];
  }

  lemma {:induction false} SumIntConcat<T>(xs: seq<T>, ys: seq<T>, f: T -> int)
    ensures SumInt(xs + ys, f) == SumInt(xs, f) + SumInt(ys, f)
  {
    if ys == [] {
      assert xs + ys == xs;
    } else {
      assert (xs + ys)[..|xs + ys| - 1] == xs + ys[..|ys| - 1];
      SumIntConcat(xs, ys[..|ys| - 1], f);
    }
  }

  lemma {:induction false} SumRealConcat<T>(xs: seq<T>, ys: seq<T>, f: T -> real)
    ensures SumReal(xs + ys, f) == SumReal(xs, f) + SumReal(ys, f)
  {
    if ys == [] {
      assert xs + ys == xs;
    } else {
      assert (xs + ys)[..|xs + ys| - 1] == xs + ys[..|ys| - 1];
      SumRealConcat(xs, ys[..|ys| - 1], f);
    }
  }

  /** Equal functions have equal sums. */
  lemma {:induction false} SumRealSame<T>(xs: seq<T>, f: T -> real, g: T -> real)
    requires forall x :: x in xs ==> f(x) == g(x)
    ensures SumReal(xs, f) == SumReal(xs, g)
  {
    if xs != [] {
      SumRealSame(xs[..|xs| - 1], f, g);
    }
  }

  lemma {:induction false} SumIntSame<T>(xs: seq<T>, f: T -> int, g: T -> int)
    requires forall x :: x in xs ==> f(x) == g(x)
    ensures SumInt(xs, f) == SumInt(xs, g)
  {
    if xs != [] {
      SumIntSame(xs[..|xs| - 1], f, g);
    }
  }

  /** The values of those elements that have one, in order. */
  function Values<T, R>(xs: seq<T>, f: T -> Option<R>): seq<R> {
    if xs == [] then []
    else
      var before, last := Values(xs[..|xs| - 1], f), f(xs[|xs| - 1]);
      if last.Some? then before + [last.value] else before
  }

  function Total(xs: seq<real>): real {
    if xs == [] then 0.0 else Total(xs[..|xs| - 1]) + xs[|xs| - 1]
  }

  function TotalInt(xs: seq<int>): int {
    if xs == [] then 0 else TotalInt(xs[..|xs| - 1]) + xs[|xs| - 1]
  }

  lemma ValuesStep<T, R>(xs: seq<T>, x: T, f: T -> Option<R>)
    ensures Values(xs + [x], f) == if f(x).Some? then Values(xs, f) + [f(x).value] else Values(xs, f)
  {
    assert (xs + [x])[..|xs|] == xs;
  }

  lemma TotalStep(xs: seq<real>, x: real)
    ensures Total(xs + [x]) == Total(xs) + x
  {
    assert (xs + [x])[..|xs|] == xs;
  }

  lemma TotalIntStep(xs: seq<int>, x: int)
    ensures TotalInt(xs + [x]) == TotalInt(xs) + x
  {
    assert (xs + [x])[..|xs|] == xs;
  }

  /** Summing with zero for what is absent adds up what is present. */
  lemma {:induction false} RealSumOfValues<T>(xs: seq<T>, f: T -> Option<real>, g: T -> real)
    requires forall x :: g(x) == f(x).Or(0.0)
    ensures SumReal(xs, g) == Total(Values(xs, f))
  {
    if xs != [] {
      var p, x := xs[..|xs| - 1], xs[|xs| - 1];
      RealSumOfValues(p, f, g);
      if f(x).Some? {
        TotalStep(Values(p, f), f(x).value);
      }
    }
  }

  lemma {:induction false} IntSumOfValues<T>(xs: seq<T>, f: T -> Option<int>, g: T -> int)
    requires forall x :: g(x) == f(x).Or(0)
    ensures SumInt(xs, g) == TotalInt(Values(xs, f))
  {
    if xs != [] {
      var p, x := xs[..|xs| - 1], xs[|xs| - 1];
      IntSumOfValues(p, f, g);
      if f(x).Some? {
        TotalIntStep(Values(p, f), f(x).value);
      }
    }
  }

  lemma {:induction false} CountOfValues<T, R>(xs: seq<T>, f: T -> Option<R>, g: T -> int)
    requires forall x :: g(x) == if f(x).Some? then 1 else 0
    ensures SumInt(xs, g) == |Values(xs, f)|
  {
    if xs != [] {
      CountOfValues(xs[..|xs| - 1], f, g);
    }
  }

  lemma {:induction false} SomeValue<T, R>(xs: seq<T>, f: T -> Option<R>)
    ensures Values(xs, f) != [] <==> exists x :: x in xs && f(x).Some?
  {
    if xs != [] {
      var p, x := xs[..|xs| - 1], xs[|xs| - 1];
      assert xs == p + [x];
      SomeValue(p, f);
    }
  }

  // ---- String keys made of two parts ----

  function Joined(a: string, sep: char, b: string): string {
    a + [sep] + b
  }

  /** The longer first part runs over the separator of the shorter one. */
  predicate Straddles(sep: char, a1: string, b1: string, a2: string, b2: string) {
    && |a1| < |a2| && a2[..|a1|] == a1 && a2[|a1|] == sep
    && b1 == a2[|a1| + 1..] + [sep] + b2
  }

  predicate Collide(sep: char, a1: string, b1: string, a2: string, b2: string) {
    Straddles(sep, a1, b1, a2, b2) || Straddles(sep, a2, b2, a1, b1)
  }

  lemma NoSelfCollision(sep: char, a: string, b: string)
    ensures !Collide(sep, a, b, a, b)
  {
  }

  lemma JoinedUpTo(sep: char, a1: string, b1: string, a2: string, b2: string)
    requires |a1| <= |a2|
    ensures Joined(a1, sep, b1) == Joined(a2, sep, b2) <==> (a1 == a2 && b1 == b2) || Straddles(sep, a1, b1, a2, b2)
  {
    var k1, k2 := Joined(a1, sep, b1), Joined(a2, sep, b2);
    assert k1[..|a1|] == a1 && k1[|a1|] == sep && k1[|a1| + 1..] == b1;
    assert k2[..|a2|] == a2 && k2[|a2|] == sep && k2[|a2| + 1..] == b2;
    if |a1| < |a2| {
      assert k2[..|a1|] == a2[..|a1|] && k2[|a1|] == a2[|a1|];
      assert k2[|a1| + 1..] == a2[|a1| + 1..] + [sep] + b2;
      assert k1 == k1[..|a1|] + [k1[|a1|]] + k1[|a1| + 1..];
      assert k2 == k2[..|a1|] + [k2[|a1|]] + k2[|a1| + 1..];
    }
  }

  /** Exactly when two pairs of parts share a key. */
  lemma JoinedEqualIff(sep: char, a1: string, b1: string, a2: string, b2: string)
    ensures Joined(a1, sep, b1) == Joined(a2, sep, b2) <==> (a1 == a2 && b1 == b2) || Collide(sep, a1, b1, a2, b2)
  {
    if |a1| <= |a2| {
      JoinedUpTo(sep, a1, b1, a2, b2);
    } else {
      JoinedUpTo(sep, a2, b2, a1, b1);
    }
  }

  /** Pairs that share a key have the separator in the first part of one and in the second
      part of the other. */
  lemma CollisionNeedsSeparator(sep: char, a1: string, b1: string, a2: string, b2: string)
    requires Collide(sep, a1, b1, a2, b2)
    ensures (sep in a2 && sep in b1) || (sep in a1 && sep in b2)
  {
    if Straddles(sep, a1, b1, a2, b2) {
      assert b1[|a2| - |a1| - 1] == sep;
    } else {
      assert b2[|a1| - |a2| - 1] == sep;
    }
  }
}
