/** Running totals as the engines accumulate them: left to right, starting at 0. */
module Sums {

  /** Math.min on exact numbers. */
  function Min(a: real, b: real): real {
    if a <= b then a else b
  }

  function Max(a: real, b: real): real {
    if a <= b then b else a
  }

  /** The total of f over s, added up from the first element to the last. */
  function Sum<T>(s: seq<T>, f: T -> real): real {
    if s == [] then 0.0 else Sum(s[..|s| - 1], f) + f(s[|s| - 1])
  }

  lemma {:induction false} SumAppend<T>(a: seq<T>, b: seq<T>, f: T -> real)
    ensures Sum(a + b, f) == Sum(a, f) + Sum(b, f)
  {
    if b == [] {
      assert a + b == a;
    } else {
      SumAppend(a, b[..|b| - 1], f);
      assert (a + b)[..|a + b| - 1] == a + b[..|b| - 1];
    }
  }

  lemma SumCons<T>(x: T, s: seq<T>, f: T -> real)
    ensures Sum([x] + s, f) == f(x) + Sum(s, f)
  {
    SumAppend([x], s, f);
    assert [x][..0] == [];
  }

  lemma SumSingle<T>(x: T, f: T -> real)
    ensures Sum([x], f) == f(x)
  {
    assert [x][..0] == [];
  }

  lemma SumSnoc<T>(s: seq<T>, x: T, f: T -> real)
    ensures Sum(s + [x], f) == Sum(s, f) + f(x)
  {
    assert (s + [x])[..|s|] == s;
  }

  /** A prefix one element longer ends in that element. */
  lemma PrefixStep<T>(s: seq<T>, k: nat)
    requires k < |s|
    ensures s[..k + 1][..k] == s[..k] && s[..k + 1][k] == s[k]
  {
  }

  /** The running total one element further along. */
  lemma SumPrefixStep<T>(s: seq<T>, k: nat, f: T -> real)
    requires k < |s|
    ensures Sum(s[..k + 1], f) == Sum(s[..k], f) + f(s[k])
  {
    assert s[..k + 1][..k] == s[..k];
  }

  /** Replacing one element changes the total by the difference of the two values. */
  lemma SumUpdate<T>(s: seq<T>, i: nat, v: T, f: T -> real)
    requires i < |s|
    ensures Sum(s[i := v], f) == Sum(s, f) - f(s[i]) + f(v)
  {
    assert s == s[..i] + [s[i]] + s[i + 1..];
    assert s[i := v] == s[..i] + [v] + s[i + 1..];
    SumAppend(s[..i] + [s[i]], s[i + 1..], f);
    SumAppend(s[..i] + [v], s[i + 1..], f);
    SumSnoc(s[..i], s[i], f);
    SumSnoc(s[..i], v, f);
  }

  lemma {:induction false} SumNonnegative<T>(s: seq<T>, f: T -> real)
    requires forall k :: 0 <= k < |s| ==> f(s[k]) >= 0.0
    ensures Sum(s, f) >= 0.0
  {
    if s != [] {
      SumNonnegative(s[..|s| - 1], f);
    }
  }

  /** Scaling every term by c scales the total by c. */
  lemma {:induction false} SumScale<T>(s: seq<T>, f: T -> real, g: T -> real, c: real)
    requires forall k :: 0 <= k < |s| ==> g(s[k]) == f(s[k]) * c
    ensures Sum(s, g) == Sum(s, f) * c
  {
    if s != [] {
      SumScale(s[..|s| - 1], f, g, c);
    }
  }

  /** Totals respect a term-by-term bound. */
  lemma {:induction false} SumMonotone<T>(s: seq<T>, f: T -> real, g: T -> real)
    requires forall k :: 0 <= k < |s| ==> f(s[k]) <= g(s[k])
    ensures Sum(s, f) <= Sum(s, g)
  {
    if s != [] {
      SumMonotone(s[..|s| - 1], f, g);
    }
  }

  /** Sequences whose elements agree under f term by term have the same total. */
  lemma {:induction false} SumPointwise<T>(a: seq<T>, b: seq<T>, f: T -> real)
    requires |a| == |b|
    requires forall k :: 0 <= k < |a| ==> f(a[k]) == f(b[k])
    ensures Sum(a, f) == Sum(b, f)
  {
    if a != [] {
      SumPointwise(a[..|a| - 1], b[..|b| - 1], f);
    }
  }

  lemma {:induction false} SumZero<T>(s: seq<T>, f: T -> real)
    requires forall k :: 0 <= k < |s| ==> f(s[k]) == 0.0
    ensures Sum(s, f) == 0.0
  {
    if s != [] {
      SumZero(s[..|s| - 1], f);
    }
  }
}
