/** The weighted five-factor risk score of `RiskAssessor.calculate_risk_score`
    and its three-band classification. */
module RiskScore {
  import Rounding
  import opened SeqFacts
  import opened RealFacts

  /** The five risk factors of a user; each is meant to lie in [0, 1]. */
  datatype RiskProfile = RiskProfile(
    volatility: real,
    liquidityNeeds: real,
    concentration: real,
    timeHorizon: real,
    lossCapacity: real)

  /** Every factor lies in the documented range [0, 1]. */
  predicate Normalized(p: RiskProfile)
  {
    && 0.0 <= p.volatility <= 1.0
    && 0.0 <= p.liquidityNeeds <= 1.0
    && 0.0 <= p.concentration <= 1.0
    && 0.0 <= p.timeHorizon <= 1.0
    && 0.0 <= p.lossCapacity <= 1.0
  }

  datatype RiskClass = Conservative | Moderate | Aggressive

  /** Position of a class on the risk scale. */
  function ClassRank(c: RiskClass): nat
  {
    match c
    case Conservative => 0
    case Moderate => 1
    case Aggressive => 2
  }

  /** The per-factor weights, in the order of `Factors`. */
  const FactorWeights: seq<real> := [0.3, 0.2, 0.15, 0.2, 0.15]

  /** The three benchmark profiles the assessor is constructed with. */
  const Benchmarks: map<string, seq<int>> := map[
    "conservative" := [30, 70, 20, 40, 80],
    "moderate" := [50, 50, 50, 50, 50],
    "aggressive" := [80, 30, 70, 80, 30]]

  function Factors(p: RiskProfile): (f: seq<real>)
    ensures |f| == |FactorWeights|
  {
    [p.volatility, p.liquidityNeeds, p.concentration, p.timeHorizon, p.lossCapacity]
  }

  function Dot(a: seq<real>, b: seq<real>): real
    requires |a| == |b|
  {
    if |a| == 0 then 0.0 else a[0] * b[0] + Dot(a[1..], b[1..])
  }

  /** The weights form a convex combination. */
  lemma WeightsSumToOne()
    ensures Sum(FactorWeights) == 1.0
    ensures forall i :: 0 <= i < |FactorWeights| ==> FactorWeights[i] >= 0.0
  {
  }

  /** A dot product of non-negative weights with values in [0, 1] lies
      between 0 and the weight total. */
  lemma {:induction false} DotBetween(w: seq<real>, f: seq<real>)
    requires |w| == |f|
    requires forall i :: 0 <= i < |w| ==> w[i] >= 0.0
    requires forall i :: 0 <= i < |f| ==> 0.0 <= f[i] <= 1.0
    ensures 0.0 <= Dot(w, f) <= Sum(w)
  {
    if |w| > 0 {
      DotBetween(w[1..], f[1..]);
      var c, x := w[0], f[0];
      ProductNonNegative(c, x);
      ScaleMonotone(x, 1.0, c);
      assert Dot(w, f) == c * x + Dot(w[1..], f[1..]);
      assert Sum(w) == c + Sum(w[1..]);
    }
  }

  /** The unrounded score: 100 times the weighted sum of the factors. */
  function RawScore(p: RiskProfile): (score: real)
    ensures score == 30.0 * p.volatility + 20.0 * p.liquidityNeeds + 15.0 * p.concentration
                     + 20.0 * p.timeHorizon + 15.0 * p.lossCapacity
  {
    DotOfFive(FactorWeights, Factors(p));
    100.0 * Dot(FactorWeights, Factors(p))
  }

  /** A five-term dot product written out. */
  lemma DotOfFive(a: seq<real>, b: seq<real>)
    requires |a| == |b| == 5
    ensures Dot(a, b) == a[0] * b[0] + a[1] * b[1] + a[2] * b[2] + a[3] * b[3] + a[4] * b[4]
  {
    assert Dot(a[4..], b[4..]) == a[4] * b[4] by {
      assert a[4..][1..] == [];
    }
    assert Dot(a[3..], b[3..]) == a[3] * b[3] + Dot(a[4..], b[4..]) by {
      assert a[3..][1..] == a[4..] && b[3..][1..] == b[4..];
    }
    assert Dot(a[2..], b[2..]) == a[2] * b[2] + Dot(a[3..], b[3..]) by {
      assert a[2..][1..] == a[3..] && b[2..][1..] == b[3..];
    }
    assert Dot(a[1..], b[1..]) == a[1] * b[1] + Dot(a[2..], b[2..]) by {
      assert a[1..][1..] == a[2..] && b[1..][1..] == b[2..];
    }
  }

  /** Factors in [0, 1] give a raw score in [0, 100]. */
  lemma RawScoreBounds(p: RiskProfile)
    requires Normalized(p)
    ensures 0.0 <= RawScore(p) <= 100.0
  {
    WeightsSumToOne();
    DotBetween(FactorWeights, Factors(p));
  }

  /** The three-band classification of a raw score. */
  function Classify(raw: real): (c: RiskClass)
    ensures c == Conservative <==> raw < 30.0
    ensures c == Moderate <==> 30.0 <= raw < 60.0
    ensures c == Aggressive <==> 60.0 <= raw
  {
    if raw < 30.0 then Conservative
    else if 30.0 <= raw < 60.0 then Moderate
    else Aggressive
  }

  /** A higher score never gets a less aggressive class. */
  lemma ClassifyMonotone(a: real, b: real)
    requires a <= b
    ensures ClassRank(Classify(a)) <= ClassRank(Classify(b))
  {
  }

  /** Each factor scaled to a percentage. */
  datatype Components = Components(
    volatility: real,
    liquidity: real,
    concentration: real,
    timeHorizon: real,
    lossCapacity: real)

  datatype RiskReport = RiskReport(
    score: real,
    classification: RiskClass,
    components: Components,
    benchmarks: map<string, seq<int>>)

  /** The assessor's report: the score rounded to one decimal, the class of
      the UNROUNDED score, the factors as percentages and the benchmark
      table as constructed. */
  function CalculateRiskScore(p: RiskProfile): (r: RiskReport)
    ensures r.classification == Classify(RawScore(p))
    ensures r.score == Rounding.RoundTo(RawScore(p), 1)
    ensures Rounding.IsWhole(r.score * 10.0)
    ensures -0.05 <= r.score - RawScore(p) <= 0.05
    ensures r.components.volatility / 100.0 == p.volatility
    ensures r.components.liquidity / 100.0 == p.liquidityNeeds
    ensures r.components.concentration / 100.0 == p.concentration
    ensures r.components.timeHorizon / 100.0 == p.timeHorizon
    ensures r.components.lossCapacity / 100.0 == p.lossCapacity
    ensures r.benchmarks == Benchmarks
  {
    var raw := RawScore(p);
    assert Rounding.Pow10(1) == 10.0;
    RiskReport(
      Rounding.RoundTo(raw, 1),
      Classify(raw),
      Components(
        p.volatility * 100.0,
        p.liquidityNeeds * 100.0,
        p.concentration * 100.0,
        p.timeHorizon * 100.0,
        p.lossCapacity * 100.0),
      Benchmarks)
  }

  /** Every factor at one half: score 50, class Moderate. */
  lemma AllHalvesIsModerate()
    ensures CalculateRiskScore(RiskProfile(0.5, 0.5, 0.5, 0.5, 0.5)).score == 50.0
    ensures CalculateRiskScore(RiskProfile(0.5, 0.5, 0.5, 0.5, 0.5)).classification == Moderate
  {
    var p := RiskProfile(0.5, 0.5, 0.5, 0.5, 0.5);
    assert RawScore(p) == 50.0;
    assert (50.0 * Rounding.Pow10(1)).Floor == 500;
  }

  /** The class is taken before rounding: a raw score of 29.96 is reported
      as 30.0 yet classified Conservative, while 30.0 itself is Moderate. */
  lemma ClassificationUsesUnroundedScore()
    ensures var r := CalculateRiskScore(RiskProfile(29.96 / 30.0, 0.0, 0.0, 0.0, 0.0));
            r.score == 30.0 && r.classification == Conservative && Classify(r.score) == Moderate
  {
    var p := RiskProfile(29.96 / 30.0, 0.0, 0.0, 0.0, 0.0);
    assert RawScore(p) == 29.96;
    assert 29.96 * Rounding.Pow10(1) == 299.6;
    assert (299.6).Floor == 299;
  }
}
