/** Sums, and facts about products and quotients that the solver is better handed. */
module Arithmetic {
  function Sum(ds: seq<nat>): nat {
    if ds == [] then 0 else Sum(ds[..|ds| - 1]) + ds[|ds| - 1]
  }

  lemma SumAppend(ds: seq<nat>, n: nat)
    ensures Sum(ds + [n]) == Sum(ds) + n
  {
    assert (ds + [n])[..|ds + [n]| - 1] == ds;
  }

  lemma Distributes(a: nat, b: nat, c: nat)
    ensures (a + b) * c == a * c + b * c
  {
  }

  lemma Grows(a: int, b: int, c: nat)
    requires a <= b
    ensures a * c <= b * c
  {
  }

  /** Cancelling a positive factor from a strict inequality. */
  lemma Cancels(a: int, b: int, c: nat)
    requires c > 0 && a * c < b * c
    ensures a < b
  {
    if a >= b { Grows(b, a, c); }
  }

  /** A quotient is pinned by the two products around it. */
  lemma QuotientIs(a: int, c: nat, q: int)
    requires c > 0 && q * c <= a < q * c + c
    ensures a / c == q
  {
    var p := a / c;
    assert a == p * c + a % c;
    assert (q + 1) * c == q * c + c && (p + 1) * c == p * c + c;
    Cancels(p, q + 1, c);
    Cancels(q, p + 1, c);
  }

  lemma QuotientAndRest(q: int, c: nat, rest: nat)
    requires rest < c
    ensures (q * c + rest) / c == q && (q * c + rest) % c == rest
  {
    QuotientIs(q * c + rest, c, q);
  }

  lemma MultipleHasNoRemainder(q: int, c: nat)
    requires c > 0
    ensures q * c / c == q && q * c % c == 0
  {
    QuotientIs(q * c, c, q);
  }

  lemma OneMoreTimes(n: int, c: nat)
    ensures (n + 1) * c == n * c + c
  {
  }

  /** Taking one c off the dividend takes one off the quotient. */
  lemma QuotientOneLess(a: int, c: nat)
    requires c > 0
    ensures a / c == (a - c) / c + 1
  {
    var q := (a - c) / c;
    assert a - c == q * c + (a - c) % c;
    OneMoreTimes(q, c);
    QuotientIs(a, c, q + 1);
  }

  lemma QuotientGrows(a: int, b: int, c: nat)
    requires c > 0 && a <= b
    ensures a / c <= b / c
  {
    var p, q := a / c, b / c;
    assert a == p * c + a % c && b == q * c + b % c;
    assert (q + 1) * c == q * c + c;
    Cancels(p, q + 1, c);
  }

  lemma QuotientBound(q: nat, c: nat, t: nat)
    requires c > 0 && q * c <= t
    ensures q <= t / c
  {
    QuotientGrows(q * c, t, c);
    QuotientIs(q * c, c, q);
  }

  /** The real quotient splits into the integer one and a proper fraction. */
  lemma RealQuotient(a: nat, c: nat)
    requires c > 0
    ensures a as real / c as real == (a / c) as real + (a % c) as real / c as real
    ensures 0.0 <= (a % c) as real / c as real < 1.0
  {
    var q, r := a / c, a % c;
    assert a == q * c + r;
    assert a as real == q as real * c as real + r as real;
  }
}
