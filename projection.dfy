/**
 * The cash-flow projector: extends the observed flows to the horizon by
 * repeatedly multiplying the last value by a bracket-dependent factor.
 */
module Projection {
  import opened Wrappers

  /** The projector's one rejection: no observed flow at all. */
  datatype ProjectionError = NoObservedCashflow

  /**
   * The growth factor applied to the last value, a step function of that
   * value with thresholds at 1M, 3M, 5M, 10M and 20M. Every value below 1M,
   * negative ones included, is grown by 1.44.
   */
  function Multiplier(last: real): (m: real)
    ensures m > 0.0
    ensures m in {1.44, 0.93, 0.80, 0.59, 0.43, 0.45}
  {
    if last < 1_000_000.0 then 1.44
    else if last >= 1_000_000.0 && last < 3_000_000.0 then 0.93
    else if last >= 3_000_000.0 && last < 5_000_000.0 then 0.80
    else if last >= 5_000_000.0 && last < 10_000_000.0 then 0.59
    else if last >= 10_000_000.0 && last < 20_000_000.0 then 0.43
    else 0.45
  }

  /** Every entry from index `from` on is the previous entry times its multiplier. */
  predicate Grown(s: seq<real>, from: nat)
  {
    forall i :: 0 < from <= i < |s| ==> GrownAt(s, i)
  }

  /**
   * Entry i is entry i - 1 times its multiplier. A predicate of its own so
   * that the solver only looks at the entries a proof names.
   */
  predicate GrownAt(s: seq<real>, i: int)
  {
    0 < i < |s| && s[i] == s[i - 1] * Multiplier(s[i - 1])
  }

  /**
   * What a successful projection of `initial` to `horizon` is: the first
   * `horizon` observed flows when there are that many, and otherwise the
   * observed flows followed by grown entries up to length `horizon`.
   */
  predicate IsProjection(initial: seq<real>, horizon: nat, s: seq<real>)
  {
    if |initial| >= horizon then s == initial[..horizon]
    else |s| == horizon && s[..|initial|] == initial && Grown(s, |initial|)
  }

  /** Projects `initial` to `horizon` entries; an empty input is rejected. */
  method ProjectCashflows(initial: seq<real>, horizon: nat) returns (r: Result<seq<real>, ProjectionError>)
    ensures r.Failure? <==> initial == []
    ensures r.Success? ==> IsProjection(initial, horizon, r.value)
  {
    if |initial| == 0 {
      return Failure(NoObservedCashflow);
    }
    var flux := initial;
    if |flux| >= horizon {
      return Success(flux[..horizon]);
    }
    var last := flux[|flux| - 1];
    while |flux| < horizon
      invariant |initial| <= |flux| <= horizon
      invariant flux[..|initial|] == initial
      invariant last == flux[|flux| - 1]
      invariant Grown(flux, |initial|)
      decreases horizon - |flux|
    {
      var next := last * Multiplier(last);
      GrownAppend(flux, |initial|, next);
      flux := flux + [next];
      last := next;
    }
    return Success(flux);
  }

  /** Appending the last entry times its multiplier keeps a sequence grown. */
  lemma GrownAppend(s: seq<real>, from: nat, next: real)
    requires 0 < from <= |s| && Grown(s, from)
    requires next == s[|s| - 1] * Multiplier(s[|s| - 1])
    ensures Grown(s + [next], from)
  {
    var t := s + [next];
    forall i | from <= i < |t| ensures GrownAt(t, i) {
      if i < |s| {
        assert GrownAt(s, i);
        assert t[i] == s[i] && t[i - 1] == s[i - 1];
      } else {
        assert t[i] == next && t[i - 1] == s[|s| - 1];
      }
    }
  }

  /** The projection is determined by its input: two projections of the same input are equal. */
  lemma ProjectionUnique(initial: seq<real>, horizon: nat, s: seq<real>, t: seq<real>)
    requires initial != []
    requires IsProjection(initial, horizon, s) && IsProjection(initial, horizon, t)
    ensures s == t
  {
    if |initial| < horizon {
      GrownUnique(s, t, |initial|, horizon);
    }
  }

  lemma {:induction false} GrownUnique(s: seq<real>, t: seq<real>, from: nat, n: nat)
    requires 0 < from <= n <= |s| == |t|
    requires s[..from] == t[..from] && Grown(s, from) && Grown(t, from)
    ensures s[..n] == t[..n]
  {
    if n > from {
      GrownUnique(s, t, from, n - 1);
      assert GrownAt(s, n - 1) && GrownAt(t, n - 1);
      assert s[n - 2] == s[..n - 1][n - 2] == t[..n - 1][n - 2] == t[n - 2];
      assert s[..n] == s[..n - 1] + [s[n - 1]];
      assert t[..n] == t[..n - 1] + [t[n - 1]];
    }
  }

  function Sign(x: real): int
  {
    if x < 0.0 then -1 else if x == 0.0 then 0 else 1
  }

  /**
   * Grown entries keep the sign of the last observed value: a loss deepens,
   * by the factor 1.44 at every step, and zero stays zero.
   */
  lemma {:induction false} GrownKeepsSign(s: seq<real>, from: nat, i: nat)
    requires 0 < from <= i < |s| && Grown(s, from)
    ensures Sign(s[i]) == Sign(s[from - 1])
    ensures s[from - 1] < 0.0 ==> s[i] == s[i - 1] * 1.44 && s[i] < s[i - 1]
    ensures s[from - 1] == 0.0 ==> s[i] == 0.0
  {
    if i > from {
      GrownKeepsSign(s, from, i - 1);
    }
    assert GrownAt(s, i);
    SignOfProduct(s[i - 1], Multiplier(s[i - 1]));
  }

  lemma SignOfProduct(x: real, m: real)
    requires m > 0.0
    ensures Sign(x * m) == Sign(x)
  {
  }

  /** Projecting one observed value to two periods appends that value times its multiplier. */
  lemma OneStep(x: real, s: seq<real>)
    requires IsProjection([x], 2, s)
    ensures s == [x, x * Multiplier(x)]
  {
    assert s[0] == s[..1][0] == x;
    assert GrownAt(s, 1);
  }

  /** The bracket boundaries: 1M already belongs to the 0.93 bracket, 20M to the last one. */
  lemma OneStepAtBracketEdges(s: seq<real>)
    ensures IsProjection([999_999.0], 2, s) ==> s == [999_999.0, 999_999.0 * 1.44]
    ensures IsProjection([1_000_000.0], 2, s) ==> s == [1_000_000.0, 1_000_000.0 * 0.93]
    ensures IsProjection([20_000_000.0], 2, s) ==> s == [20_000_000.0, 20_000_000.0 * 0.45]
  {
    if IsProjection([999_999.0], 2, s) { OneStep(999_999.0, s); }
    if IsProjection([1_000_000.0], 2, s) { OneStep(1_000_000.0, s); }
    if IsProjection([20_000_000.0], 2, s) { OneStep(20_000_000.0, s); }
  }
}
