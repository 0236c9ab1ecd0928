/**
 * Discounting: the net present value of a cash-flow series, where the flow
 * of period t (t = 1, 2, ...) is divided by (1 + rate)^t, summed left to
 * right as the source's fold does.
 */
module Discounting {

  /** `base` raised to a natural exponent. */
  function Pow(base: real, n: nat): (r: real)
    ensures base > 0.0 ==> r > 0.0
  {
    if n == 0 then 1.0 else base * Pow(base, n - 1)
  }

  /** The plain left-to-right sum of a series. */
  function Sum(s: seq<real>): real
  {
    if s == [] then 0.0 else Sum(s[..|s| - 1]) + s[|s| - 1]
  }

  predicate AllNonNegative(s: seq<real>)
  {
    forall i :: 0 <= i < |s| ==> s[i] >= 0.0
  }

  /**
   * The net present value at `rate`. The fold adds the flow at index
   * t - 1 divided by (1 + rate)^t; a rate of -1 or less is excluded, since
   * there the source divides by zero or by a power of a negative number.
   */
  function Npv(flows: seq<real>, rate: real): real
    requires 1.0 + rate > 0.0
  {
    if flows == [] then 0.0
    else
      var n := |flows|;
      Npv(flows[..n - 1], rate) + flows[n - 1] / Pow(1.0 + rate, n)
  }

  /** Non-negative flows have a non-negative NPV. */
  lemma {:induction false} NpvNonNegative(flows: seq<real>, rate: real)
    requires 1.0 + rate > 0.0 && AllNonNegative(flows)
    ensures Npv(flows, rate) >= 0.0
  {
    if flows != [] {
      var n := |flows|;
      var init := flows[..n - 1];
      assert AllNonNegative(init) by {
        forall i | 0 <= i < n - 1 ensures init[i] >= 0.0 { assert init[i] == flows[i]; }
      }
      NpvNonNegative(init, rate);
      QuotientNonNegative(flows[n - 1], Pow(1.0 + rate, n));
    }
  }

  lemma QuotientNonNegative(x: real, p: real)
    requires x >= 0.0 && p > 0.0
    ensures x / p >= 0.0
  {
  }

  /** A larger positive base gives a larger power. */
  lemma {:induction false} PowMonotone(a: real, b: real, n: nat)
    requires 0.0 < a <= b
    ensures Pow(a, n) <= Pow(b, n)
  {
    if n > 0 {
      PowMonotone(a, b, n - 1);
      ProductMonotone(a, b, Pow(a, n - 1), Pow(b, n - 1), Pow(a, n), Pow(b, n));
    }
  }

  lemma ProductMonotone(a: real, b: real, x: real, y: real, ax: real, bx: real)
    requires 0.0 < a <= b && 0.0 < x <= y && ax == a * x && bx == b * y
    ensures ax <= bx
  {
    assert a * x <= b * x;
    assert b * x <= b * y;
  }

  lemma QuotientAntitone(x: real, p: real, q: real)
    requires x >= 0.0 && 0.0 < p <= q
    ensures x / p >= x / q
  {
    assert x / p * p == x == x / q * q;
  }

  /** For non-negative flows, a higher rate never gives a higher NPV. */
  lemma {:induction false} NpvAntitone(flows: seq<real>, r1: real, r2: real)
    requires 1.0 + r1 > 0.0 && r1 <= r2 && AllNonNegative(flows)
    ensures Npv(flows, r1) >= Npv(flows, r2)
  {
    if flows != [] {
      var n := |flows|;
      var init := flows[..n - 1];
      assert AllNonNegative(init) by {
        forall i | 0 <= i < n - 1 ensures init[i] >= 0.0 { assert init[i] == flows[i]; }
      }
      NpvAntitone(init, r1, r2);
      PowMonotone(1.0 + r1, 1.0 + r2, n);
      QuotientAntitone(flows[n - 1], Pow(1.0 + r1, n), Pow(1.0 + r2, n));
    }
  }

  /** `scaled` is `flows` with every flow multiplied by k. */
  predicate ScaledBy(scaled: seq<real>, flows: seq<real>, k: real)
  {
    |scaled| == |flows| && forall i :: 0 <= i < |flows| ==> ScaledAt(scaled, flows, k, i)
  }

  /**
   * Entry i of `scaled` is entry i of `flows` times k. Kept as a predicate of
   * its own so that the solver only looks at the entries a proof names.
   */
  predicate ScaledAt(scaled: seq<real>, flows: seq<real>, k: real, i: int)
  {
    0 <= i < |flows| && i < |scaled| && scaled[i] == flows[i] * k
  }

  /** Every flow multiplied by the same factor; the total is multiplied by it too. */
  function Scale(flows: seq<real>, k: real): (r: seq<real>)
    ensures ScaledBy(r, flows, k)
    ensures Sum(r) == k * Sum(flows)
  {
    var r := seq(|flows|, i requires 0 <= i < |flows| => flows[i] * k);
    assert ScaledBy(r, flows, k);
    SumScale(flows, r, k);
    r
  }

  /** Appending a flow to a series of n flows adds that flow discounted over n + 1 periods. */
  lemma NpvAppend(flows: seq<real>, x: real, rate: real)
    requires 1.0 + rate > 0.0
    ensures Npv(flows + [x], rate) == Npv(flows, rate) + x / Pow(1.0 + rate, |flows| + 1)
  {
    assert (flows + [x])[..|flows|] == flows;
  }

  /** The empty series is worth nothing, and a single flow is discounted once. */
  lemma NpvShortSeries(x: real, rate: real)
    requires 1.0 + rate > 0.0
    ensures Npv([], rate) == 0.0
    ensures Npv([x], rate) == x / (1.0 + rate)
  {
    assert [x][..0] == [];
  }

  lemma {:induction false} PowOne(n: nat)
    ensures Pow(1.0, n) == 1.0
  {
    if n > 0 { PowOne(n - 1); }
  }

  /** At rate 0 nothing is discounted: the NPV is the plain sum. */
  lemma {:induction false} NpvAtZeroRate(flows: seq<real>)
    ensures Npv(flows, 0.0) == Sum(flows)
  {
    if flows != [] {
      NpvAtZeroRate(flows[..|flows| - 1]);
      PowOne(|flows|);
    }
  }

  /** The discounted flows, in order: the flow at index t - 1 divided by (1 + rate)^t. */
  function Discounted(flows: seq<real>, rate: real): (d: seq<real>)
    requires 1.0 + rate > 0.0
    ensures |d| == |flows| && forall i :: 0 <= i < |flows| ==> d[i] == flows[i] / Pow(1.0 + rate, i + 1)
  {
    seq(|flows|, i requires 0 <= i < |flows| => flows[i] / Pow(1.0 + rate, i + 1))
  }

  /** The NPV is the left-to-right sum of the discounted flows. */
  lemma {:induction false} NpvIsSum(flows: seq<real>, rate: real)
    requires 1.0 + rate > 0.0
    ensures Npv(flows, rate) == Sum(Discounted(flows, rate))
  {
    if flows != [] {
      NpvIsSum(flows[..|flows| - 1], rate);
      DiscountedPrefix(flows, rate);
      NpvLast(flows, rate);
    }
  }

  lemma DiscountedPrefix(flows: seq<real>, rate: real)
    requires 1.0 + rate > 0.0 && flows != []
    ensures Discounted(flows, rate)[..|flows| - 1] == Discounted(flows[..|flows| - 1], rate)
  {
    var d := Discounted(flows, rate)[..|flows| - 1];
    forall i | 0 <= i < |d| ensures d[i] == Discounted(flows[..|flows| - 1], rate)[i] {
      assert flows[..|flows| - 1][i] == flows[i];
    }
  }

  /** Scaling every flow by k scales the NPV by k. */
  lemma NpvScale(flows: seq<real>, scaled: seq<real>, k: real, rate: real)
    requires 1.0 + rate > 0.0 && ScaledBy(scaled, flows, k)
    ensures Npv(scaled, rate) == k * Npv(flows, rate)
  {
    NpvIsSum(flows, rate);
    NpvIsSum(scaled, rate);
    DiscountedSumScale(flows, scaled, k, rate);
    NpvScaleFromSums(flows, scaled, k, rate);
  }

  /**
   * The last step of NpvScale, written on the terms themselves so that the
   * solver rewrites instead of searching.
   */
  lemma NpvScaleFromSums(flows: seq<real>, scaled: seq<real>, k: real, rate: real)
    requires 1.0 + rate > 0.0
    requires Npv(scaled, rate) == Sum(Discounted(scaled, rate)) && Npv(flows, rate) == Sum(Discounted(flows, rate))
    requires Sum(Discounted(scaled, rate)) == k * Sum(Discounted(flows, rate))
    ensures Npv(scaled, rate) == k * Npv(flows, rate)
  {
  }

  /** Scaling every flow by k scales the sum of the discounted flows by k. */
  lemma DiscountedSumScale(flows: seq<real>, scaled: seq<real>, k: real, rate: real)
    requires 1.0 + rate > 0.0 && ScaledBy(scaled, flows, k)
    ensures Sum(Discounted(scaled, rate)) == k * Sum(Discounted(flows, rate))
  {
    DiscountedScaled(flows, scaled, k, rate);
    SumScale(Discounted(flows, rate), Discounted(scaled, rate), k);
  }

  /** Discounting commutes with scaling. */
  lemma DiscountedScaled(flows: seq<real>, scaled: seq<real>, k: real, rate: real)
    requires 1.0 + rate > 0.0 && ScaledBy(scaled, flows, k)
    ensures ScaledBy(Discounted(scaled, rate), Discounted(flows, rate), k)
  {
    forall i | 0 <= i < |flows|
      ensures ScaledAt(Discounted(scaled, rate), Discounted(flows, rate), k, i)
    {
      assert ScaledAt(scaled, flows, k, i);
      QuotientScale(flows[i], k, Pow(1.0 + rate, i + 1));
    }
  }

  lemma QuotientScale(x: real, k: real, p: real)
    requires p > 0.0
    ensures (x * k) / p == (x / p) * k
  {
  }

  /** Scaling every entry by k scales the sum by k. */
  lemma {:induction false} SumScale(s: seq<real>, t: seq<real>, k: real)
    requires ScaledBy(t, s, k)
    ensures Sum(t) == k * Sum(s)
  {
    if s == [] {
      assert t == [];
    } else {
      ScaledPrefix(s, t, k);
      SumScale(s[..|s| - 1], t[..|s| - 1], k);
      assert ScaledAt(t, s, k, |s| - 1);
      SumArith(Sum(t), Sum(t[..|s| - 1]), t[|s| - 1], Sum(s), Sum(s[..|s| - 1]), s[|s| - 1], k);
    }
  }

  /** The arithmetic of one step of SumScale: t = ti + y, y = xk, s = si + x and ti = k si give t = k s. */
  lemma SumArith(t: real, ti: real, y: real, s: real, si: real, x: real, k: real)
    requires t == ti + y && y == x * k && s == si + x && ti == k * si
    ensures t == k * s
  {
  }

  /** Dropping the last entry of both keeps one sequence the other scaled. */
  lemma ScaledPrefix(s: seq<real>, t: seq<real>, k: real)
    requires ScaledBy(t, s, k) && s != []
    ensures ScaledBy(t[..|s| - 1], s[..|s| - 1], k)
  {
    var ti, si := t[..|s| - 1], s[..|s| - 1];
    forall i | 0 <= i < |si| ensures ScaledAt(ti, si, k, i) {
      assert ScaledAt(t, s, k, i);
    }
  }

  /** The last flow of a non-empty series is discounted over as many periods as there are flows. */
  lemma NpvLast(flows: seq<real>, rate: real)
    requires 1.0 + rate > 0.0 && flows != []
    ensures Npv(flows, rate) == Npv(flows[..|flows| - 1], rate) + flows[|flows| - 1] / Pow(1.0 + rate, |flows|)
  {
  }
}
