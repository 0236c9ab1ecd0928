/**
 * The Monte Carlo simulator. Each trial perturbs the discount rate and every
 * cash flow by caller-supplied noise, floors the rate at 1% and the flows at
 * 0, and records the NPV; the samples are then summarised by their mean,
 * variance, lower-index percentiles on a sorted copy, extremes and a
 * 20-bin histogram of half-open bins.
 */
module MonteCarlo {
  import opened Discounting

  function Max(a: real, b: real): (m: real)
    ensures m >= a && m >= b && (m == a || m == b)
  {
    if a >= b then a else b
  }

  /** The floor under every simulated discount rate. */
  const RateFloor: real := 0.01

  /** The number of histogram bins. */
  const BinCount: nat := 20

  /** The noise of one trial: one deviate for the rate and one per cash flow, in that order. */
  datatype Draw = Draw(rateNoise: real, cashflowNoise: seq<real>)

  /** Every trial carries exactly one noise value per cash flow. */
  predicate WellShaped(draws: seq<Draw>, flowCount: nat)
  {
    forall i :: 0 <= i < |draws| ==> |draws[i].cashflowNoise| == flowCount
  }

  /** The perturbed rate of one trial, floored at 1%. */
  function SimulatedRate(baseRate: real, noise: real): (r: real)
    ensures r >= RateFloor
  {
    Max(RateFloor, baseRate * (1.0 + noise))
  }

  /** One perturbed flow, floored at 0 so that no flow changes sign to negative. */
  function PerturbedFlow(cf: real, noise: real): (r: real)
    ensures r >= 0.0 && r >= cf * (1.0 + noise)
  {
    Max(0.0, cf * (1.0 + noise))
  }

  /** The perturbed flows of one trial. */
  function PerturbedCashflows(cashflows: seq<real>, noise: seq<real>): (r: seq<real>)
    requires |noise| == |cashflows|
    ensures |r| == |cashflows| && AllNonNegative(r)
  {
    seq(|cashflows|, i requires 0 <= i < |cashflows| => PerturbedFlow(cashflows[i], noise[i]))
  }

  /** The NPV of one trial; the floors make it non-negative whatever the noise. */
  function SimulatedNpv(baseRate: real, cashflows: seq<real>, d: Draw): (v: real)
    requires |d.cashflowNoise| == |cashflows|
    ensures v >= 0.0
  {
    var flows := PerturbedCashflows(cashflows, d.cashflowNoise);
    var rate := SimulatedRate(baseRate, d.rateNoise);
    NpvNonNegative(flows, rate);
    Npv(flows, rate)
  }

  // ---------------------------------------------------------------------
  // Sorting: the ascending numeric sort of the samples' copy.
  // ---------------------------------------------------------------------

  predicate SortedAsc(s: seq<real>)
  {
    forall i, j :: 0 <= i < j < |s| ==> InOrder(s, i, j)
  }

  /**
   * Entries i and j of `s` are in ascending order. A predicate of its own so
   * that the solver only compares the entries a proof names.
   */
  predicate InOrder(s: seq<real>, i: int, j: int)
  {
    0 <= i < |s| && 0 <= j < |s| && s[i] <= s[j]
  }

  /** In a sorted sequence an entry is at most every later one. */
  lemma SortedLe(s: seq<real>, i: int, j: int)
    requires SortedAsc(s) && 0 <= i <= j < |s|
    ensures s[i] <= s[j]
  {
    if i < j {
      assert InOrder(s, i, j);
    }
  }

  /** `x` inserted before the first entry of `s` that is not smaller; its head is the smaller of `x` and the old head. */
  function Insert(x: real, s: seq<real>): (r: seq<real>)
    requires SortedAsc(s)
    ensures SortedAsc(r) && multiset(r) == multiset(s) + multiset{x} && |r| == |s| + 1
    ensures r[0] == if s == [] || x <= s[0] then x else s[0]
  {
    if s == [] then [x]
    else if x <= s[0] then
      ConsSorted(x, s);
      [x] + s
    else
      SortedTail(s);
      var t := Insert(x, s[1..]);
      ConsSorted(s[0], t);
      InsertMultiset(x, s, t);
      [s[0]] + t
  }

  /** Putting the head of `s` back in front of `x` inserted into its tail holds the entries of `s` and `x`. */
  lemma InsertMultiset(x: real, s: seq<real>, t: seq<real>)
    requires s != [] && multiset(t) == multiset(s[1..]) + multiset{x}
    ensures multiset([s[0]] + t) == multiset(s) + multiset{x}
  {
    assert s == [s[0]] + s[1..];
  }

  /** A head no larger than the head of a sorted tail keeps the whole sorted. */
  lemma ConsSorted(h: real, t: seq<real>)
    requires SortedAsc(t) && (t != [] ==> h <= t[0])
    ensures SortedAsc([h] + t)
  {
    var r := [h] + t;
    forall i, j | 0 <= i < j < |r| ensures InOrder(r, i, j) {
      assert r[j] == t[j - 1];
      if i == 0 {
        SortedLe(t, 0, j - 1);
      } else {
        assert r[i] == t[i - 1];
        SortedLe(t, i - 1, j - 1);
      }
    }
  }

  /** An ascending permutation of `s`, by insertion. */
  function SortAsc(s: seq<real>): (r: seq<real>)
    ensures SortedAsc(r) && multiset(r) == multiset(s) && |r| == |s|
  {
    if s == [] then []
    else
      assert s == [s[0]] + s[1..];
      Insert(s[0], SortAsc(s[1..]))
  }

  /**
   * There is only one ascending permutation of a sequence, so any correct
   * sort of the samples yields exactly `SortAsc` of them.
   */
  lemma {:induction false} SortedPermutationUnique(a: seq<real>, b: seq<real>)
    requires SortedAsc(a) && SortedAsc(b) && multiset(a) == multiset(b)
    ensures a == b
  {
    if a == [] {
      assert |b| == |multiset(b)|;
    } else {
      SameHead(a, b);
      SortedTail(a);
      SortedTail(b);
      SortedPermutationUnique(a[1..], b[1..]);
      assert a == [a[0]] + a[1..] && b == [b[0]] + b[1..];
    }
  }

  /** Two sorted permutations of each other start with the same, smallest, entry. */
  lemma SameHead(a: seq<real>, b: seq<real>)
    requires SortedAsc(a) && SortedAsc(b) && multiset(a) == multiset(b) && a != []
    ensures b != [] && a[0] == b[0]
  {
    assert |b| == |multiset(b)| == |multiset(a)| == |a|;
    assert a[0] in multiset(a) && b[0] in multiset(b);
    HeadIsLeast(a, b[0]);
    HeadIsLeast(b, a[0]);
  }

  /** The head of a sorted sequence is at most any of its entries. */
  lemma HeadIsLeast(s: seq<real>, x: real)
    requires SortedAsc(s) && x in multiset(s)
    ensures s != [] && s[0] <= x
  {
    var i :| 0 <= i < |s| && s[i] == x;
    SortedLe(s, 0, i);
  }

  /** The tail of a sorted sequence is sorted, holds the rest of its entries and starts no lower than the head. */
  lemma SortedTail(s: seq<real>)
    requires SortedAsc(s) && s != []
    ensures SortedAsc(s[1..]) && multiset(s[1..]) == multiset(s) - multiset{s[0]}
    ensures |s| > 1 ==> s[0] <= s[1]
  {
    assert s == [s[0]] + s[1..];
    if |s| > 1 { SortedLe(s, 0, 1); }
    var t := s[1..];
    forall i, j | 0 <= i < j < |t| ensures InOrder(t, i, j) {
      assert InOrder(s, i + 1, j + 1);
    }
  }

  /** The smallest and largest entries of a sorted non-empty sequence bound all of it. */
  lemma SortedExtremes(s: seq<real>, sorted: seq<real>)
    requires |s| > 0 && sorted == SortAsc(s)
    ensures forall i :: 0 <= i < |s| ==> sorted[0] <= s[i] <= sorted[|s| - 1]
    ensures sorted[0] in s && sorted[|s| - 1] in s
  {
    forall i | 0 <= i < |s| ensures sorted[0] <= s[i] <= sorted[|s| - 1] {
      assert s[i] in multiset(s);
      var k :| 0 <= k < |sorted| && sorted[k] == s[i];
      SortedLe(sorted, 0, k);
      SortedLe(sorted, k, |s| - 1);
    }
    assert sorted[0] in multiset(sorted) && sorted[|s| - 1] in multiset(sorted);
  }

  // ---------------------------------------------------------------------
  // Percentiles: the entry of the sorted copy at index floor(n * k).
  // ---------------------------------------------------------------------

  function PercentileIndex(n: nat, k: real): (i: int)
    requires n >= 1 && 0.0 <= k < 1.0
    ensures 0 <= i < n
  {
    ScaledBelow(n as real, k);
    (n as real * k).Floor
  }

  lemma ScaledBelow(n: real, k: real)
    requires n > 0.0 && 0.0 <= k < 1.0
    ensures 0.0 <= n * k < n
  {
  }

  /** The percentile indices are ordered, with the median index n / 2 in the middle. */
  lemma PercentileIndicesOrdered(n: nat)
    requires n >= 1
    ensures PercentileIndex(n, 0.05) <= PercentileIndex(n, 0.25) <= n / 2
    ensures n / 2 <= PercentileIndex(n, 0.75) <= PercentileIndex(n, 0.95)
  {
    var x := n as real;
    assert x * 0.05 <= x * 0.25;
    assert (n / 2) as real <= x * 0.5 < (n / 2) as real + 1.0;
  }

  // ---------------------------------------------------------------------
  // Moments.
  // ---------------------------------------------------------------------

  /** The sum of squared deviations from `m`, folded left to right. */
  function SquaredDeviations(s: seq<real>, m: real): (r: real)
    ensures r >= 0.0
  {
    if s == [] then 0.0
    else
      SquareNonNegative(s[|s| - 1] - m);
      SquaredDeviations(s[..|s| - 1], m) + (s[|s| - 1] - m) * (s[|s| - 1] - m)
  }

  lemma SquareNonNegative(x: real)
    ensures x * x >= 0.0
  {
  }

  /** Entries between `lo` and `hi` sum to between n * lo and n * hi. */
  lemma {:induction false} SumBounds(s: seq<real>, lo: real, hi: real)
    requires forall i :: 0 <= i < |s| ==> lo <= s[i] <= hi
    ensures |s| as real * lo <= Sum(s) <= |s| as real * hi
  {
    if s != [] {
      var init := s[..|s| - 1];
      forall i | 0 <= i < |init| ensures lo <= init[i] <= hi {
        assert init[i] == s[i];
      }
      SumBounds(init, lo, hi);
      SumStep(|s[..|s| - 1]| as real, |s| as real, Sum(s[..|s| - 1]), s[|s| - 1], lo, hi);
    }
  }

  /** One more entry in [lo, hi] keeps a sum of n entries between n * lo and n * hi. */
  lemma SumStep(n: real, m: real, total: real, x: real, lo: real, hi: real)
    requires m == n + 1.0 && n * lo <= total <= n * hi && lo <= x <= hi
    ensures m * lo <= total + x <= m * hi
  {
    OneMore(n, lo);
    OneMore(n, hi);
  }

  lemma OneMore(n: real, x: real)
    ensures (n + 1.0) * x == n * x + x
  {
  }

  /** The mean lies between the smallest and the largest sample. */
  lemma MeanBounds(s: seq<real>, lo: real, hi: real)
    requires |s| > 0 && forall i :: 0 <= i < |s| ==> lo <= s[i] <= hi
    ensures lo <= Sum(s) / |s| as real <= hi
  {
    SumBounds(s, lo, hi);
    QuotientBounds(Sum(s), |s| as real, lo, hi);
  }

  lemma QuotientBounds(total: real, n: real, lo: real, hi: real)
    requires n > 0.0 && n * lo <= total <= n * hi
    ensures lo <= total / n <= hi
  {
  }

  // ---------------------------------------------------------------------
  // The histogram.
  // ---------------------------------------------------------------------

  /** One histogram bin: its lower bound, its count and its share of all samples in percent. */
  datatype Bin = Bin(rangeStart: real, count: nat, percentage: real)

  /** The number of entries v with lo <= v < hi. */
  function CountInRange(s: seq<real>, lo: real, hi: real): (c: nat)
    ensures c <= |s|
  {
    if s == [] then 0
    else (if lo <= s[0] && s[0] < hi then 1 else 0) + CountInRange(s[1..], lo, hi)
  }

  /** The number of entries equal to v. */
  function Occurrences(s: seq<real>, v: real): (c: nat)
    ensures c <= |s|
  {
    if s == [] then 0
    else (if s[0] == v then 1 else 0) + Occurrences(s[1..], v)
  }

  /** The lower bound of bin i. */
  function BinStart(lo: real, w: real, i: nat): real
  {
    lo + i as real * w
  }

  /** Bin i of the histogram of `s` that starts at `lo` with bins of width `w`. */
  function BinAt(s: seq<real>, lo: real, w: real, i: nat): Bin
    requires |s| > 0
  {
    var start := BinStart(lo, w, i);
    var count := CountInRange(s, start, start + w);
    Bin(start, count, count as real / |s| as real * 100.0)
  }

  /** The 20 bins of width (hi - lo) / 20 from `lo`. */
  function Histogram(s: seq<real>, lo: real, hi: real): (bins: seq<Bin>)
    requires |s| > 0
    ensures |bins| == BinCount
    ensures forall i :: 0 <= i < BinCount ==> bins[i] == BinAt(s, lo, (hi - lo) / 20.0, i)
  {
    seq(BinCount, i requires 0 <= i < BinCount => BinAt(s, lo, (hi - lo) / 20.0, i))
  }

  /** The total of the bins' counts. */
  function TotalCount(bins: seq<Bin>): int
  {
    if bins == [] then 0 else TotalCount(bins[..|bins| - 1]) + bins[|bins| - 1].count
  }

  /** Adjacent half-open ranges count exactly what their union counts. */
  lemma {:induction false} CountSplit(s: seq<real>, a: real, b: real, c: real)
    requires a <= b <= c
    ensures CountInRange(s, a, b) + CountInRange(s, b, c) == CountInRange(s, a, c)
  {
    if s != [] {
      CountSplit(s[1..], a, b, c);
    }
  }

  /** An empty range counts nothing. */
  lemma {:induction false} CountEmptyRange(s: seq<real>, a: real)
    ensures CountInRange(s, a, a) == 0
  {
    if s != [] {
      CountEmptyRange(s[1..], a);
    }
  }

  /** When every entry lies in [lo, hi], the half-open [lo, hi) misses exactly the entries equal to hi. */
  lemma {:induction false} CountClosedRange(s: seq<real>, lo: real, hi: real)
    requires forall i :: 0 <= i < |s| ==> lo <= s[i] <= hi
    ensures CountInRange(s, lo, hi) == |s| - Occurrences(s, hi)
  {
    if s != [] {
      assert forall i :: 0 <= i < |s[1..]| ==> s[1..][i] == s[i + 1];
      CountClosedRange(s[1..], lo, hi);
    }
  }

  /** Bin k starts where bin k - 1 ends. */
  lemma NextBinStart(lo: real, w: real, k: nat)
    requires k >= 1 && w >= 0.0
    ensures lo <= BinStart(lo, w, k - 1)
    ensures BinStart(lo, w, k - 1) + w == BinStart(lo, w, k)
  {
    var m := (k - 1) as real;
    assert k as real == m + 1.0;
    OneMore(m, w);
  }

  /** The first k bins together count the range [lo, lo + k * w). */
  lemma {:induction false} BinsTile(s: seq<real>, lo: real, w: real, bins: seq<Bin>, k: nat)
    requires |s| > 0 && w >= 0.0 && k <= |bins|
    requires forall i :: 0 <= i < |bins| ==> bins[i] == BinAt(s, lo, w, i)
    ensures TotalCount(bins[..k]) == CountInRange(s, lo, BinStart(lo, w, k))
  {
    if k == 0 {
      CountEmptyRange(s, lo);
    } else {
      BinsTile(s, lo, w, bins, k - 1);
      assert bins[k - 1] == BinAt(s, lo, w, k - 1);
      NextBinStart(lo, w, k);
      TileStep(s, lo, BinStart(lo, w, k - 1), BinStart(lo, w, k - 1) + w, bins, k);
    }
  }

  /** Adding a bin that counts [a, b) to bins that count [lo, a) makes them count [lo, b). */
  lemma TileStep(s: seq<real>, lo: real, a: real, b: real, bins: seq<Bin>, k: nat)
    requires 1 <= k <= |bins| && lo <= a <= b
    requires TotalCount(bins[..k - 1]) == CountInRange(s, lo, a)
    requires bins[k - 1].count == CountInRange(s, a, b)
    ensures TotalCount(bins[..k]) == CountInRange(s, lo, b)
  {
    TotalCountLast(bins, k);
    CountSplit(s, lo, a, b);
  }

  /** The first k bins count what the first k - 1 count plus bin k - 1. */
  lemma TotalCountLast(bins: seq<Bin>, k: nat)
    requires 1 <= k <= |bins|
    ensures TotalCount(bins[..k]) == TotalCount(bins[..k - 1]) + bins[k - 1].count
  {
    assert bins[..k][..k - 1] == bins[..k - 1];
  }

  /**
   * The histogram's counts: when the samples are not all equal, the 20 bins
   * count every sample except those equal to the maximum; when they are all
   * equal, every bin is empty.
   */
  lemma HistogramTotals(s: seq<real>, lo: real, hi: real, bins: seq<Bin>)
    requires |s| > 0 && lo <= hi && bins == Histogram(s, lo, hi)
    requires forall i :: 0 <= i < |s| ==> lo <= s[i] <= hi
    ensures lo < hi ==> TotalCount(bins) == |s| - Occurrences(s, hi)
    ensures lo == hi ==> forall i :: 0 <= i < |bins| ==> bins[i].count == 0
  {
    if lo < hi {
      HistogramCovers(s, lo, hi, bins);
    } else {
      HistogramEmpty(s, lo, bins);
    }
  }

  /** Over a non-empty range the bins tile [lo, hi), which misses only the samples equal to hi. */
  lemma HistogramCovers(s: seq<real>, lo: real, hi: real, bins: seq<Bin>)
    requires |s| > 0 && lo < hi && bins == Histogram(s, lo, hi)
    requires forall i :: 0 <= i < |s| ==> lo <= s[i] <= hi
    ensures TotalCount(bins) == |s| - Occurrences(s, hi)
  {
    BinsTile(s, lo, (hi - lo) / 20.0, bins, BinCount);
    assert bins[..BinCount] == bins;
    LastBinEnd(lo, hi);
    CountClosedRange(s, lo, hi);
  }

  /** The twentieth bin of width (hi - lo) / 20 ends at hi. */
  lemma LastBinEnd(lo: real, hi: real)
    ensures BinStart(lo, (hi - lo) / 20.0, BinCount) == hi
  {
  }

  /** Over an empty range every bin is empty. */
  lemma HistogramEmpty(s: seq<real>, lo: real, bins: seq<Bin>)
    requires |s| > 0 && bins == Histogram(s, lo, lo)
    ensures forall i :: 0 <= i < |bins| ==> bins[i].count == 0
  {
    forall i | 0 <= i < |bins| ensures bins[i].count == 0 {
      CountEmptyRange(s, BinStart(lo, (lo - lo) / 20.0, i));
    }
  }

  /** The summary of a simulation run; `variance` stands for the source's standard deviation. */
  datatype MonteCarloSimulation = MonteCarloSimulation(
    simulations: seq<real>,
    mean: real,
    median: real,
    percentile5: real,
    percentile25: real,
    percentile75: real,
    percentile95: real,
    variance: real,
    min: real,
    max: real,
    distribution: seq<Bin>)

  /** One NPV per trial, in the order of the draws. */
  method Simulate(baseRate: real, cashflows: seq<real>, draws: seq<Draw>) returns (simulations: seq<real>)
    requires WellShaped(draws, |cashflows|)
    ensures |simulations| == |draws|
    ensures forall i :: 0 <= i < |draws| ==> simulations[i] == SimulatedNpv(baseRate, cashflows, draws[i])
  {
    simulations := [];
    for i := 0 to |draws|
      invariant |simulations| == i
      invariant forall j :: 0 <= j < i ==> simulations[j] == SimulatedNpv(baseRate, cashflows, draws[j])
    {
      var simulatedTaux := baseRate * (1.0 + draws[i].rateNoise);
      var simulatedCashflows := PerturbedCashflows(cashflows, draws[i].cashflowNoise);
      var simulatedNpv := Npv(simulatedCashflows, Max(RateFloor, simulatedTaux));
      assert SimulatedRate(baseRate, draws[i].rateNoise) == Max(RateFloor, simulatedTaux);
      assert simulatedNpv == SimulatedNpv(baseRate, cashflows, draws[i]);
      simulations := simulations + [simulatedNpv];
    }
  }

  /**
   * The summary statistics of the samples: the mean and population
   * variance, and the extremes and percentiles read off an ascending copy.
   */
  method Statistics(simulations: seq<real>)
    returns (mean: real, median: real, percentile5: real, percentile25: real, percentile75: real,
             percentile95: real, variance: real, min: real, max: real)
    requires |simulations| >= 1
    ensures var n := |simulations|; var sorted := SortAsc(simulations);
      && min == sorted[0] && max == sorted[n - 1]
      && median == sorted[n / 2]
      && percentile5 == sorted[PercentileIndex(n, 0.05)]
      && percentile25 == sorted[PercentileIndex(n, 0.25)]
      && percentile75 == sorted[PercentileIndex(n, 0.75)]
      && percentile95 == sorted[PercentileIndex(n, 0.95)]
    ensures forall i :: 0 <= i < |simulations| ==> min <= simulations[i] <= max
    ensures min in simulations && max in simulations
    ensures min <= percentile5 <= percentile25 <= median <= percentile75 <= percentile95 <= max
    ensures mean == Sum(simulations) / |simulations| as real && min <= mean <= max
    ensures variance == SquaredDeviations(simulations, mean) / |simulations| as real && variance >= 0.0
  {
    var n := |simulations|;
    var sorted := SortAsc(simulations);
    mean := Sum(simulations) / n as real;
    median := sorted[n / 2];
    percentile5 := sorted[PercentileIndex(n, 0.05)];
    percentile25 := sorted[PercentileIndex(n, 0.25)];
    percentile75 := sorted[PercentileIndex(n, 0.75)];
    percentile95 := sorted[PercentileIndex(n, 0.95)];
    variance := SquaredDeviations(simulations, mean) / n as real;
    min := sorted[0];
    max := sorted[n - 1];

    OrderStatistics(simulations);
    Moments(simulations, min, max);
  }

  /** The extremes of the ascending copy bound every sample and the percentiles are ordered. */
  lemma OrderStatistics(s: seq<real>)
    requires |s| >= 1
    ensures var n := |s|; var sorted := SortAsc(s);
      && (forall i :: 0 <= i < n ==> sorted[0] <= s[i] <= sorted[n - 1])
      && sorted[0] in s && sorted[n - 1] in s
      && sorted[0] <= sorted[PercentileIndex(n, 0.05)] <= sorted[PercentileIndex(n, 0.25)] <= sorted[n / 2]
      && sorted[n / 2] <= sorted[PercentileIndex(n, 0.75)] <= sorted[PercentileIndex(n, 0.95)] <= sorted[n - 1]
  {
    SortedExtremes(s, SortAsc(s));
    PercentilesOrdered(SortAsc(s));
  }

  /** Read off an ascending sequence, the percentiles run from its first entry to its last in order. */
  lemma PercentilesOrdered(sorted: seq<real>)
    requires |sorted| >= 1 && SortedAsc(sorted)
    ensures var n := |sorted|;
      && sorted[0] <= sorted[PercentileIndex(n, 0.05)] <= sorted[PercentileIndex(n, 0.25)] <= sorted[n / 2]
      && sorted[n / 2] <= sorted[PercentileIndex(n, 0.75)] <= sorted[PercentileIndex(n, 0.95)] <= sorted[n - 1]
  {
    var n := |sorted|;
    PercentileIndicesOrdered(n);
    SortedLe(sorted, 0, PercentileIndex(n, 0.05));
    SortedLe(sorted, PercentileIndex(n, 0.05), PercentileIndex(n, 0.25));
    SortedLe(sorted, PercentileIndex(n, 0.25), n / 2);
    SortedLe(sorted, n / 2, PercentileIndex(n, 0.75));
    SortedLe(sorted, PercentileIndex(n, 0.75), PercentileIndex(n, 0.95));
    SortedLe(sorted, PercentileIndex(n, 0.95), n - 1);
  }

  /** The mean of samples lying in [lo, hi] lies there too, and their variance is non-negative. */
  lemma Moments(s: seq<real>, lo: real, hi: real)
    requires |s| >= 1 && forall i :: 0 <= i < |s| ==> lo <= s[i] <= hi
    ensures var mean := Sum(s) / |s| as real;
      lo <= mean <= hi && SquaredDeviations(s, mean) / |s| as real >= 0.0
  {
    MeanBounds(s, lo, hi);
    QuotientNonNegative(SquaredDeviations(s, Sum(s) / |s| as real), |s| as real);
  }

  /**
   * The 20 bins of width (max - min) / 20 from `min`; each counts the
   * samples in its half-open range, and its percentage is that count over
   * the number of samples.
   */
  method BuildDistribution(simulations: seq<real>, min: real, max: real) returns (distribution: seq<Bin>)
    requires |simulations| > 0
    ensures distribution == Histogram(simulations, min, max)
  {
    var n := |simulations|;
    var binWidth := (max - min) / 20.0;
    distribution := [];
    for i := 0 to BinCount
      invariant |distribution| == i
      invariant forall j :: 0 <= j < i ==> distribution[j] == BinAt(simulations, min, binWidth, j)
    {
      var rangeStart := min + i as real * binWidth;
      var rangeEnd := rangeStart + binWidth;
      var count := CountInRange(simulations, rangeStart, rangeEnd);
      distribution := distribution + [Bin(rangeStart, count, count as real / n as real * 100.0)];
    }
  }

  /**
   * Runs `iterations` trials with the given noise and summarises them.
   * The base NPV is accepted and ignored, as in the source.
   */
  method RunMonteCarloSimulation(baseNpv: real, baseRate: real, cashflows: seq<real>, iterations: nat, draws: seq<Draw>)
    returns (r: MonteCarloSimulation)
    requires iterations >= 1 && |draws| == iterations && WellShaped(draws, |cashflows|)
    ensures |r.simulations| == iterations
    ensures forall i :: 0 <= i < iterations ==> r.simulations[i] == SimulatedNpv(baseRate, cashflows, draws[i])
    ensures 0.0 <= r.min
    ensures Summarises(r)
  {
    var simulations := Simulate(baseRate, cashflows, draws);
    r := Summarise(simulations);
    assert r.min in simulations;
  }

  /**
   * What the report says about its samples: ascending-copy extremes and
   * percentiles, mean and variance, and the 20-bin histogram with its totals.
   */
  predicate Summarises(r: MonteCarloSimulation)
  {
    var n := |r.simulations|;
    && n >= 1
    && (forall i :: 0 <= i < n ==> r.min <= r.simulations[i] <= r.max)
    && r.min in r.simulations && r.max in r.simulations
    && r.min <= r.percentile5 <= r.percentile25 <= r.median <= r.percentile75 <= r.percentile95 <= r.max
    && (var sorted := SortAsc(r.simulations);
        && r.min == sorted[0] && r.max == sorted[n - 1]
        && r.median == sorted[n / 2]
        && r.percentile5 == sorted[PercentileIndex(n, 0.05)]
        && r.percentile25 == sorted[PercentileIndex(n, 0.25)]
        && r.percentile75 == sorted[PercentileIndex(n, 0.75)]
        && r.percentile95 == sorted[PercentileIndex(n, 0.95)])
    && r.mean == Sum(r.simulations) / n as real && r.min <= r.mean <= r.max
    && r.variance == SquaredDeviations(r.simulations, r.mean) / n as real && r.variance >= 0.0
    && r.distribution == Histogram(r.simulations, r.min, r.max)
    && (r.min < r.max ==> TotalCount(r.distribution) == n - Occurrences(r.simulations, r.max))
    && (r.min == r.max ==> forall i :: 0 <= i < BinCount ==> r.distribution[i].count == 0)
  }

  /** The statistics and histogram of a non-empty sample. */
  method Summarise(simulations: seq<real>) returns (r: MonteCarloSimulation)
    requires |simulations| >= 1
    ensures r.simulations == simulations && Summarises(r)
  {
    var mean, median, percentile5, percentile25, percentile75, percentile95, variance, min, max :=
      Statistics(simulations);
    var distribution := BuildDistribution(simulations, min, max);
    HistogramTotals(simulations, min, max, distribution);
    r := MonteCarloSimulation(simulations, mean, median, percentile5, percentile25, percentile75, percentile95,
                              variance, min, max, distribution);
  }
}
