/** `GoalSimulator.simulate`: a Monte Carlo estimate of reaching a savings
    target. The normal draws of the source are supplied as a matrix, one
    row of monthly growth samples per trial, so the simulation is a pure
    function of them. */
module Goals {
  import opened Compounding
  import opened RealFacts

  /** The number of Monte Carlo trials. */
  const Trials: nat := 1000

  /** The balance after the given monthly samples: each month the
      contribution is added first, then the whole balance grows by
      (1 + sample). */
  function FinalBalance(monthly: real, samples: seq<real>): real
  {
    if |samples| == 0 then 0.0
    else (FinalBalance(monthly, samples[..|samples| - 1]) + monthly) * (1.0 + samples[|samples| - 1])
  }

  /** With no negative contribution or sample, a trial's balance covers at
      least what was paid in. */
  lemma {:induction false} FinalBalanceCoversContributions(monthly: real, samples: seq<real>)
    requires monthly >= 0.0
    requires forall i :: 0 <= i < |samples| ==> samples[i] >= 0.0
    ensures FinalBalance(monthly, samples) >= monthly * |samples| as real
  {
    var n := |samples|;
    if n > 0 {
      var init := samples[..n - 1];
      assert forall i :: 0 <= i < |init| ==> init[i] == samples[i];
      FinalBalanceCoversContributions(monthly, init);
      var paid := FinalBalance(monthly, init) + monthly;
      assert monthly * n as real == monthly * (n - 1) as real + monthly;
      assert paid >= monthly * n as real >= 0.0;
      assert FinalBalance(monthly, samples) == paid * (1.0 + samples[n - 1]);
      ScaleMonotone(1.0, 1.0 + samples[n - 1], paid);
    }
  }

  /** One trial, as the source's inner loop runs it. */
  method RunTrial(monthly: real, samples: seq<real>) returns (balance: real)
    ensures balance == FinalBalance(monthly, samples)
  {
    balance := 0.0;
    var i := 0;
    while i < |samples|
      invariant 0 <= i <= |samples|
      invariant balance == FinalBalance(monthly, samples[..i])
    {
      assert samples[..i + 1][..i] == samples[..i];
      balance := balance + monthly;
      balance := balance * (1.0 + samples[i]);
      i := i + 1;
    }
    assert samples[..|samples|] == samples;
  }

  /** A constant growth sample g compounds like an annuity due: the final
      balance is monthly * (1+g) * (1 + (1+g) + ... + (1+g)^(n-1)). */
  lemma {:induction false} ConstantSamplesCompound(monthly: real, samples: seq<real>, g: real)
    requires forall i :: 0 <= i < |samples| ==> samples[i] == g
    ensures FinalBalance(monthly, samples) == monthly * (1.0 + g) * GeomSum(1.0 + g, |samples|)
  {
    var n := |samples|;
    if n > 0 {
      ConstantSamplesCompound(monthly, samples[..n - 1], g);
      var x := 1.0 + g;
      GeomSumShift(x, n - 1);
      OneMoreMonth(monthly, x, GeomSum(x, n - 1));
    }
  }

  /** Adding a contribution to an annuity-due balance and growing it once. */
  lemma OneMoreMonth(m: real, x: real, s: real)
    ensures (m * x * s + m) * x == m * x * (x * s + 1.0)
  {
  }

  /** x * (1 + x + ... + x^(n-1)) + 1 == 1 + x + ... + x^n. */
  lemma {:induction false} GeomSumShift(x: real, n: nat)
    ensures x * GeomSum(x, n) + 1.0 == GeomSum(x, n + 1)
  {
    if n > 0 {
      GeomSumShift(x, n - 1);
      assert x * Pow(x, n - 1) == Pow(x, n);
    }
  }

  /** With every sample zero the balance is just the contributions. */
  lemma ZeroSamplesAccumulate(monthly: real, samples: seq<real>)
    requires forall i :: 0 <= i < |samples| ==> samples[i] == 0.0
    ensures FinalBalance(monthly, samples) == monthly * |samples| as real
  {
    ConstantSamplesCompound(monthly, samples, 0.0);
    GeomSumOfOne(|samples|);
  }

  /** The final balance of every trial. */
  function Finals(monthly: real, draws: seq<seq<real>>): (finals: seq<real>)
    ensures |finals| == |draws|
    ensures forall i :: 0 <= i < |draws| ==> finals[i] == FinalBalance(monthly, draws[i])
  {
    seq(|draws|, i requires 0 <= i < |draws| => FinalBalance(monthly, draws[i]))
  }

  /** How many balances reach the target. */
  function CountReaching(balances: seq<real>, target: real): (n: nat)
    ensures n <= |balances|
  {
    if |balances| == 0 then 0
    else (if balances[0] >= target then 1 else 0) + CountReaching(balances[1..], target)
  }

  /** A higher target is reached by no more balances. */
  lemma {:induction false} CountReachingAntitone(balances: seq<real>, low: real, high: real)
    requires low <= high
    ensures CountReaching(balances, high) <= CountReaching(balances, low)
  {
    if |balances| > 0 {
      CountReachingAntitone(balances[1..], low, high);
    }
  }

  predicate Sorted(s: seq<real>)
  {
    forall i, j :: 0 <= i < j < |s| ==> s[i] <= s[j]
  }

  function InsertSorted(x: real, s: seq<real>): (r: seq<real>)
    requires Sorted(s)
    ensures multiset(r) == multiset(s) + multiset{x}
    ensures Sorted(r)
  {
    if |s| == 0 || x <= s[0] then
      BoundedCons(x, s);
      [x] + s
    else
      var rest := InsertSorted(x, s[1..]);
      assert s == [s[0]] + s[1..];
      BoundsCarryOver(rest, s[1..], x, s[0]);
      BoundedCons(s[0], rest);
      [s[0]] + rest
  }

  /** Every element of `s` is at least `b`. */
  predicate AtLeast(s: seq<real>, b: real)
  {
    forall k :: 0 <= k < |s| ==> b <= s[k]
  }

  /** Putting a lower bound in front of a sorted sequence keeps it sorted. */
  lemma BoundedCons(b: real, s: seq<real>)
    requires Sorted(s)
    requires AtLeast(s, b) || (|s| > 0 && b <= s[0])
    ensures Sorted([b] + s)
  {
    var r := [b] + s;
    forall i, j | 0 <= i < j < |r|
      ensures r[i] <= r[j]
    {
      if i > 0 {
        assert r[i] == s[i - 1] && r[j] == s[j - 1];
      } else if |s| > 0 && b <= s[0] {
        assert s[0] <= s[j - 1];
      }
    }
  }

  /** A bound on the elements of `s` and on `x` bounds every element of a
      sequence holding the same elements as `s` plus `x`. */
  lemma BoundsCarryOver(r: seq<real>, s: seq<real>, x: real, b: real)
    requires multiset(r) == multiset(s) + multiset{x}
    requires Sorted(s) && (|s| == 0 || b <= s[0]) && b <= x
    ensures AtLeast(r, b)
  {
    forall k | 0 <= k < |r|
      ensures b <= r[k]
    {
      assert r[k] in multiset(r);
      if r[k] != x {
        assert r[k] in multiset(s);
        var j :| 0 <= j < |s| && s[j] == r[k];
        assert s[0] <= s[j];
      }
    }
  }

  /** The balances in ascending order. */
  function SortAscending(s: seq<real>): (r: seq<real>)
    ensures multiset(r) == multiset(s)
    ensures Sorted(r)
  {
    if |s| == 0 then []
    else
      assert s == [s[0]] + s[1..];
      InsertSorted(s[0], SortAscending(s[1..]))
  }

  /** numpy's default (linear) percentile of sorted data: the value at
      fractional rank (n-1) * q / 100, interpolated between its two
      neighbours. It lies between the smallest and the largest value and
      between the two neighbours. */
  function Percentile(sorted: seq<real>, q: real): (v: real)
    requires |sorted| > 0 && Sorted(sorted)
    requires 0.0 <= q <= 100.0
    ensures sorted[0] <= v <= sorted[|sorted| - 1]
    ensures var k := Rank(|sorted|, q).Floor;
            0 <= k < |sorted| && sorted[k] <= v && (k + 1 < |sorted| ==> v <= sorted[k + 1])
  {
    var pos := Rank(|sorted|, q);
    var k := pos.Floor;
    var frac := pos - k as real;
    if k + 1 < |sorted| then Interpolate(sorted[k], sorted[k + 1], frac)
    else sorted[k]
  }

  /** The value is interpolated linearly between the neighbouring ranks, as
      numpy's default method does: the 25th percentile of [0, 10] is 2.5 and
      the median of [1, 2, 3, 4] is 2.5, where the "lower", "higher" and
      "nearest" methods would give a data point. */
  lemma PercentileInterpolatesLinearly()
    ensures Percentile([0.0, 10.0], 25.0) == 2.5
    ensures Percentile([1.0, 2.0, 3.0, 4.0], 50.0) == 2.5
  {
    assert Rank(2, 25.0) == 0.25 && (0.25).Floor == 0;
    assert Rank(4, 50.0) == 1.5 && (1.5).Floor == 1;
  }

  /** The fractional rank of percentile q among n values. */
  function Rank(n: nat, q: real): (pos: real)
    requires n > 0 && 0.0 <= q <= 100.0
    ensures 0.0 <= pos <= (n - 1) as real
  {
    assert (n - 1) as real * q <= (n - 1) as real * 100.0;
    (n - 1) as real * q / 100.0
  }

  /** The point a fraction `t` of the way from `a` to `b`. */
  function Interpolate(a: real, b: real, t: real): (v: real)
    requires a <= b && 0.0 <= t < 1.0
    ensures a <= v <= b
  {
    ProductNonNegative(t, b - a);
    ProductNonNegative(1.0 - t, b - a);
    assert (1.0 - t) * (b - a) == (b - a) - t * (b - a);
    a + t * (b - a)
  }

  /** Moving further along the segment never goes back. */
  lemma InterpolateMonotone(a: real, b: real, t1: real, t2: real)
    requires a <= b && 0.0 <= t1 <= t2 < 1.0
    ensures Interpolate(a, b, t1) <= Interpolate(a, b, t2)
  {
    ScaleMonotone(t1, t2, b - a);
    assert a + t1 * (b - a) <= a + t2 * (b - a);
    assert Interpolate(a, b, t1) == a + t1 * (b - a);
    assert Interpolate(a, b, t2) == a + t2 * (b - a);
  }

  lemma RankMonotone(n: nat, q1: real, q2: real)
    requires n > 0 && 0.0 <= q1 <= q2 <= 100.0
    ensures Rank(n, q1) <= Rank(n, q2)
  {
    ScaleMonotone(q1, q2, (n - 1) as real);
    assert (n - 1) as real * q1 == q1 * (n - 1) as real;
    assert (n - 1) as real * q2 == q2 * (n - 1) as real;
  }

  /** Percentiles are monotone in q. */
  lemma PercentileMonotone(sorted: seq<real>, q1: real, q2: real)
    requires |sorted| > 0 && Sorted(sorted)
    requires 0.0 <= q1 <= q2 <= 100.0
    ensures Percentile(sorted, q1) <= Percentile(sorted, q2)
  {
    var n := |sorted|;
    RankMonotone(n, q1, q2);
    var p1, p2 := Rank(n, q1), Rank(n, q2);
    var k1, k2 := p1.Floor, p2.Floor;
    assert k1 <= k2;
    if k1 == k2 {
      if k1 + 1 < n {
        InterpolateMonotone(sorted[k1], sorted[k1 + 1], p1 - k1 as real, p2 - k2 as real);
      }
    } else {
      assert sorted[k1 + 1] <= sorted[k2];
    }
  }

  datatype GoalOutcome = GoalOutcome(successRate: real, percentiles: seq<real>)

  /** `v` lies between the smallest and the largest of `xs`. */
  predicate WithinRange(xs: seq<real>, v: real)
  {
    (exists i :: 0 <= i < |xs| && xs[i] <= v) && (exists j :: 0 <= j < |xs| && v <= xs[j])
  }

  /** A percentile of the sorted balances lies between the smallest and the
      largest balance. */
  lemma PercentileWithinRange(balances: seq<real>, q: real)
    requires |balances| > 0 && 0.0 <= q <= 100.0
    ensures WithinRange(balances, Percentile(SortAscending(balances), q))
  {
    var sorted := SortAscending(balances);
    assert |sorted| == |balances| by {
      assert |multiset(sorted)| == |multiset(balances)|;
    }
    var v := Percentile(sorted, q);
    assert sorted[0] in multiset(balances);
    assert sorted[|sorted| - 1] in multiset(balances);
    var i :| 0 <= i < |balances| && balances[i] == sorted[0];
    var j :| 0 <= j < |balances| && balances[j] == sorted[|sorted| - 1];
  }

  /** The simulation outcome: the fraction of trials whose final balance
      reaches the target, and the 10th, 50th and 90th percentiles of the
      final balances. The return rate of the source only shapes the
      distribution of the draws and so does not appear here. */
  function Simulate(target: real, monthly: real, years: nat, draws: seq<seq<real>>): (r: GoalOutcome)
    requires |draws| == Trials
    requires forall i :: 0 <= i < |draws| ==> |draws[i]| == years * 12
    ensures 0.0 <= r.successRate <= 1.0
    ensures r.successRate * Trials as real == CountReaching(Finals(monthly, draws), target) as real
    ensures |r.percentiles| == 3
    ensures r.percentiles[0] <= r.percentiles[1] <= r.percentiles[2]
    ensures forall m :: 0 <= m < 3 ==> WithinRange(Finals(monthly, draws), r.percentiles[m])
  {
    var finals := Finals(monthly, draws);
    GoalOutcome(CountReaching(finals, target) as real / Trials as real, Percentiles(finals))
  }

  /** The 10th, 50th and 90th percentiles of the balances: ordered, and
      each between the smallest and the largest balance. */
  function Percentiles(balances: seq<real>): (ps: seq<real>)
    requires |balances| > 0
    ensures |ps| == 3
    ensures ps[0] <= ps[1] <= ps[2]
    ensures forall m :: 0 <= m < 3 ==> WithinRange(balances, ps[m])
  {
    var sorted := SortAscending(balances);
    PercentileMonotone(sorted, 10.0, 50.0);
    PercentileMonotone(sorted, 50.0, 90.0);
    PercentileWithinRange(balances, 10.0);
    PercentileWithinRange(balances, 50.0);
    PercentileWithinRange(balances, 90.0);
    [Percentile(sorted, 10.0), Percentile(sorted, 50.0), Percentile(sorted, 90.0)]
  }

  /** Raising the target never raises the success rate for the same draws. */
  lemma SuccessRateAntitone(low: real, high: real, monthly: real, years: nat, draws: seq<seq<real>>)
    requires low <= high
    requires |draws| == Trials
    requires forall i :: 0 <= i < |draws| ==> |draws[i]| == years * 12
    ensures Simulate(high, monthly, years, draws).successRate <= Simulate(low, monthly, years, draws).successRate
  {
    CountReachingAntitone(Finals(monthly, draws), low, high);
  }

  /** With all draws zero every trial ends at monthly * years * 12. */
  lemma FinalsOfZeroDraws(monthly: real, years: nat, draws: seq<seq<real>>)
    requires forall i :: 0 <= i < |draws| ==> |draws[i]| == years * 12
    requires forall i, j :: 0 <= i < |draws| && 0 <= j < |draws[i]| ==> draws[i][j] == 0.0
    ensures forall i :: 0 <= i < |draws| ==> Finals(monthly, draws)[i] == monthly * (years * 12) as real
  {
    var finals := Finals(monthly, draws);
    forall i | 0 <= i < |draws|
      ensures finals[i] == monthly * (years * 12) as real
    {
      ZeroSamplesAccumulate(monthly, draws[i]);
    }
  }

  /** With all draws zero the goal is met in every trial or in none. */
  lemma ZeroDrawsAreAllOrNothing(target: real, monthly: real, years: nat, draws: seq<seq<real>>)
    requires |draws| == Trials
    requires forall i :: 0 <= i < |draws| ==> |draws[i]| == years * 12
    requires forall i, j :: 0 <= i < |draws| && 0 <= j < |draws[i]| ==> draws[i][j] == 0.0
    ensures Simulate(target, monthly, years, draws).successRate
            == if monthly * (years * 12) as real >= target then 1.0 else 0.0
    ensures var c := monthly * (years * 12) as real;
            Simulate(target, monthly, years, draws).percentiles == [c, c, c]
  {
    var c := monthly * (years * 12) as real;
    var finals := Finals(monthly, draws);
    FinalsOfZeroDraws(monthly, years, draws);
    CountOfConstant(finals, c, target);
    PercentilesOfConstant(finals, c);
  }

  /** Every percentile of equal balances is that balance. */
  lemma PercentilesOfConstant(balances: seq<real>, c: real)
    requires |balances| > 0
    requires forall i :: 0 <= i < |balances| ==> balances[i] == c
    ensures Percentiles(balances) == [c, c, c]
  {
    var ps := Percentiles(balances);
    forall m | 0 <= m < 3
      ensures ps[m] == c
    {
      assert WithinRange(balances, ps[m]);
    }
  }

  lemma {:induction false} CountOfConstant(balances: seq<real>, b: real, target: real)
    requires forall i :: 0 <= i < |balances| ==> balances[i] == b
    ensures CountReaching(balances, target) == if b >= target then |balances| else 0
  {
    if |balances| > 0 {
      CountOfConstant(balances[1..], b, target);
    }
  }
}
