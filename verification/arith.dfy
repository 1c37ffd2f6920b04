/** Powers of two and the few facts about multiplication and division the address arithmetic needs. */
module Arith {

  function Pow2(n: nat): (r: nat)
    ensures r >= 1
  {
    if n == 0 then 1 else 2 * Pow2(n - 1)
  }

  lemma {:induction false} Pow2Add(m: nat, n: nat)
    ensures Pow2(m + n) == Pow2(m) * Pow2(n)
  {
    if m > 0 {
      Pow2Add(m - 1, n);
    }
  }

  lemma Pow2Monotone(m: nat, n: nat)
    requires m <= n
    ensures Pow2(m) <= Pow2(n)
  {
    Pow2Add(m, n - m);
  }

  /** Powers of two order their exponents. */
  lemma {:induction false} Pow2Below(m: nat, n: nat)
    ensures Pow2(m) <= Pow2(n) ==> m <= n
  {
    if m > 0 && n > 0 {
      Pow2Below(m - 1, n - 1);
    } else if m > 0 {
      assert Pow2(m) == 2 * Pow2(m - 1);
    }
  }

  lemma MulMonotone(a: nat, b: nat, c: nat)
    requires a <= b
    ensures a * c <= b * c
  {
  }

  lemma MulSucc(m: nat, s: nat)
    ensures (m + 1) * s == m * s + s
  {
  }

  lemma MulNonNegative(a: nat, b: nat)
    ensures a * b >= 0
  {
  }

  lemma MulAssoc(a: nat, b: nat, c: nat)
    ensures a * (b * c) == (a * b) * c
  {
  }

  lemma MulDistrib(a: nat, b: nat, c: nat)
    ensures (a + b) * c == a * c + b * c
  {
  }

  /** Slot `k` of width `s` ends no later than `count` slots when `k < count`. */
  lemma SlotBound(k: nat, count: nat, s: nat)
    requires k < count
    ensures k * s + s <= count * s
  {
    MulMonotone(k + 1, count, s);
    MulSucc(k, s);
  }

  /** Adding a multiple of `s` to a multiple of `e * s` stays a multiple of `s`. */
  lemma AlignedOffset(x: nat, q: nat, e: nat, s: nat, k: nat)
    requires s > 0 && x == q * (e * s)
    ensures IsMultiple(x + k * s, s)
  {
    MulAssoc(q, e, s);
    MulDistrib(q * e, k, s);
    MultipleOfProduct(q * e + k, s);
  }

  /** `m * s < s * p` with `s` positive forces `m < p`. */
  lemma QuotientBelow(m: nat, s: nat, p: nat)
    requires s > 0 && m * s < s * p
    ensures m < p
  {
    if p <= m {
      MulMonotone(p, m, s);
    }
  }

  /**
   * `x` is a multiple of `s`, counted by repeated subtraction; unlike `x % s == 0`
   * it gives the verifier no division to reason about unless a lemma asks.
   */
  predicate IsMultiple(x: nat, s: nat)
    requires s > 0
    decreases x
  {
    if x < s then x == 0 else IsMultiple(x - s, s)
  }

  /** `IsMultiple` is divisibility. */
  lemma {:induction false} IsMultipleMeansModZero(x: nat, s: nat)
    requires s > 0
    ensures IsMultiple(x, s) <==> x % s == 0
    decreases x
  {
    if x < s {
      DivModUnique(x, s, 0, x);
    } else {
      IsMultipleMeansModZero(x - s, s);
      var q := (x - s) / s;
      var r := (x - s) % s;
      MulSucc(q, s);
      DivModUnique(x, s, q + 1, r);
    }
  }

  /** The quotient of a multiple, as a witness. */
  lemma {:induction false} MultipleQuotient(x: nat, s: nat) returns (q: nat)
    requires s > 0 && IsMultiple(x, s)
    ensures x == q * s
    decreases x
  {
    if x < s {
      q := 0;
    } else {
      var q' := MultipleQuotient(x - s, s);
      q := q' + 1;
      MulSucc(q', s);
    }
  }

  /** Any `q * s` is a multiple of `s`. */
  lemma MultipleOfProduct(q: nat, s: nat)
    requires s > 0
    ensures IsMultiple(q * s, s)
  {
    DivModUnique(q * s, s, q, 0);
    IsMultipleMeansModZero(q * s, s);
  }

  /** Every `d` lies between two consecutive multiples of a positive `s`. */
  lemma FloorQuotient(d: nat, s: nat) returns (k: nat)
    requires s > 0
    ensures k * s <= d < k * s + s
  {
    k := d / s;
  }

  /** The largest multiple of `s` not above `a`. */
  function RoundDown(a: nat, s: nat): (x: nat)
    requires s > 0
    ensures x <= a < x + s && IsMultiple(x, s)
  {
    var k := a / s;
    DivModUnique(a, s, k, a - k * s);
    MultipleOfProduct(k, s);
    k * s
  }

  /** Only one multiple of `s` lies in `(a - s, a]`. */
  lemma RoundDownUnique(a: nat, s: nat, y: nat)
    requires s > 0 && IsMultiple(y, s) && y <= a < y + s
    ensures y == RoundDown(a, s)
  {
    var m := MultipleQuotient(y, s);
    DivModUnique(a, s, m, a - m * s);
  }

  /** Quotient and remainder are determined by any decomposition `a == q * m + r` with `r < m`. */
  lemma DivModUnique(a: nat, m: nat, q: nat, r: nat)
    requires m > 0 && r < m && a == q * m + r
    ensures a / m == q && a % m == r
  {
    var q' := a / m;
    var r' := a % m;
    assert a == q' * m + r';
    if q' < q {
      MulMonotone(q' + 1, q, m);
    } else if q' > q {
      MulMonotone(q + 1, q', m);
    }
  }
}
