/**
 Datatypes and sequence facts shared by every component of the model.
 */
module Common {

  datatype Option<+T> = None | Some(value: T)

  datatype Result<+T, +E> = Ok(value: T) | Err(error: E)

  function Min(a: int, b: int): int { if a <= b then a else b }

  function Max(a: int, b: int): int { if a <= b then b else a }

  lemma DivUnique(n: nat, d: nat, q: nat)
    requires d > 0 && d * q <= n < d * q + d
    ensures n / d == q
  {
    var k := n / d;
    assert n == k * d + n % d;
    assert k < q ==> (k + 1) * d <= q * d;
    assert k > q ==> (q + 1) * d <= k * d;
  }

  lemma DivBounds(d: nat, p: nat, q: nat, r: nat, u: nat)
    requires r < d && u < p
    ensures d * p * q <= d * (p * q + u) + r < d * p * q + d * p
  {
    assert d * (p * q + u) == d * p * q + d * u;
    assert d * u + d == d * (u + 1);
    assert d * (u + 1) <= d * p;
  }

  /** Dividing twice is dividing by the product. */
  lemma DivTwice(n: nat, d: nat, p: nat)
    requires d > 0 && p > 0
    ensures d * p > 0 && n / d / p == n / (d * p)
  {
    var m := n / d;
    var (q, u, r) := (m / p, m % p, n % d);
    assert m == p * q + u && n == d * m + r;
    DivBounds(d, p, q, r, u);
    DivUnique(n, d * p, q);
  }

  /** The total of a sequence of counters. */
  function Sum(xs: seq<nat>): nat {
    if xs == [] then 0 else xs[0] + Sum(xs[1..])
  }

  lemma {:induction false} SumUpdate(xs: seq<nat>, i: nat, v: nat)
    requires i < |xs|
    ensures Sum(xs[i := v]) == Sum(xs) - xs[i] + v
    ensures xs[i] <= Sum(xs)
  {
    if i == 0 {
      assert xs[0 := v][1..] == xs[1..];
    } else {
      SumUpdate(xs[1..], i - 1, v);
      assert xs[i := v][1..] == xs[1..][i - 1 := v];
    }
  }

  lemma {:induction false} SumAllZero(xs: seq<nat>)
    requires forall i :: 0 <= i < |xs| ==> xs[i] == 0
    ensures Sum(xs) == 0
  {
    if xs != [] {
      SumAllZero(xs[1..]);
    }
  }

  lemma {:induction false} SumSnoc(xs: seq<nat>, x: nat)
    ensures Sum(xs + [x]) == Sum(xs) + x
  {
    if xs == [] {
      assert [] + [x] == [x];
    } else {
      SumSnoc(xs[1..], x);
      assert (xs + [x])[1..] == xs[1..] + [x];
    }
  }

  function Scaled(xs: seq<nat>, k: nat): seq<nat> { seq(|xs|, i requires 0 <= i < |xs| => k * xs[i]) }

  lemma {:induction false} SumScale(xs: seq<nat>, k: nat)
    ensures Sum(Scaled(xs, k)) == k * Sum(xs)
  {
    if xs != [] {
      SumScale(xs[1..], k);
      assert Scaled(xs, k)[1..] == Scaled(xs[1..], k);
    }
  }

  /** Two members of a sequence of counters never exceed the total. */
  lemma {:induction false} SumPair(xs: seq<nat>, i: nat, j: nat)
    requires i < j < |xs|
    ensures xs[i] + xs[j] <= Sum(xs)
  {
    if i == 0 {
      SumUpdate(xs[1..], j - 1, 0);
    } else {
      SumPair(xs[1..], i - 1, j - 1);
    }
  }

  /** Concatenation of a sequence of sequences. */
  function Flatten<T>(parts: seq<seq<T>>): seq<T> {
    if parts == [] then [] else parts[0] + Flatten(parts[1..])
  }

  lemma {:induction false} FlattenAppend<T>(xs: seq<seq<T>>, ys: seq<seq<T>>)
    ensures Flatten(xs + ys) == Flatten(xs) + Flatten(ys)
  {
    if xs == [] {
      assert xs + ys == ys;
    } else {
      FlattenAppend(xs[1..], ys);
      assert (xs + ys)[1..] == xs[1..] + ys && (xs + ys)[0] == xs[0];
      assert Flatten(xs + ys) == xs[0] + (Flatten(xs[1..]) + Flatten(ys));
    }
  }

  lemma FlattenSnoc<T>(xs: seq<seq<T>>, y: seq<T>)
    ensures Flatten(xs + [y]) == Flatten(xs) + y
  {
    FlattenAppend(xs, [y]);
    assert Flatten([y]) == y + Flatten<T>([]);
  }

  ghost predicate Distinct<T>(s: seq<T>) {
    forall i, j :: 0 <= i < j < |s| ==> s[i] != s[j]
  }
}
