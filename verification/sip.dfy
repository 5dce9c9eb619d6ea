/** `SIPCalculator.project`: a monthly contribution compounded at the
    weighted historical return of an asset mix. */
module Sip {
  import opened Wrappers
  import opened Compounding

  /** Annual historical return of each known asset class. */
  const HistoricalReturns: map<string, real> := map["equity" := 0.12, "debt" := 0.07, "hybrid" := 0.09]

  /** One entry of the asset mix, in the order of the source dictionary. */
  datatype Allocation = Allocation(asset: string, weight: real)

  datatype SipError =
    | UnknownAsset(asset: string)   // KeyError on the return table
    | ZeroMonthlyRate               // the annuity formula divides by the rate
    | ZeroTotalInvested             // the growth ratio divides by the amount invested

  predicate KnownAssets(mix: seq<Allocation>)
  {
    forall i :: 0 <= i < |mix| ==> mix[i].asset in HistoricalReturns
  }

  function Weights(mix: seq<Allocation>): real
  {
    if |mix| == 0 then 0.0 else mix[0].weight + Weights(mix[1..])
  }

  /** The weighted annual return, summed over the mix in order; the first
      asset missing from the return table raises. */
  function WeightedReturn(mix: seq<Allocation>): (r: Result<real, SipError>)
    ensures r.Success? <==> KnownAssets(mix)
    ensures r.Failure? ==> exists i :: 0 <= i < |mix| && r.error == UnknownAsset(mix[i].asset)
                                       && mix[i].asset !in HistoricalReturns
  {
    if |mix| == 0 then Success(0.0)
    else if mix[0].asset !in HistoricalReturns then Failure(UnknownAsset(mix[0].asset))
    else
      match WeightedReturn(mix[1..])
      case Failure(e) => Failure(e)
      case Success(rest) => Success(HistoricalReturns[mix[0].asset] * mix[0].weight + rest)
  }

  /** With non-negative weights the weighted return lies between the lowest
      and the highest historical return, scaled by the total weight. */
  lemma {:induction false} WeightedReturnBetween(mix: seq<Allocation>)
    requires KnownAssets(mix)
    requires forall i :: 0 <= i < |mix| ==> mix[i].weight >= 0.0
    ensures 0.07 * Weights(mix) <= WeightedReturn(mix).value <= 0.12 * Weights(mix)
  {
    if |mix| > 0 {
      WeightedReturnBetween(mix[1..]);
      var rate, w := HistoricalReturns[mix[0].asset], mix[0].weight;
      assert 0.07 <= rate <= 0.12;
      assert 0.07 * w <= rate * w <= 0.12 * w by {
        assert (rate - 0.07) * w >= 0.0;
        assert (0.12 - rate) * w >= 0.0;
      }
    }
  }

  datatype Projection = Projection(totalInvested: real, futureValue: real, growthRatio: real)

  /** The ordinary-annuity future value of `months` contributions of
      `amount` at monthly rate `rate`. */
  function AnnuityValue(amount: real, rate: real, months: nat): (fv: real)
    requires rate != 0.0
    ensures fv == amount * GeomSum(1.0 + rate, months)
  {
    AnnuityFactorIsGeometricSum(rate, months);
    amount * ((Pow(1.0 + rate, months) - 1.0) / rate)
  }

  /** The projection. The mix must name known assets, its weighted monthly
      rate must be non-zero, and the amount invested must be non-zero (the
      annualised return divides by it). The reported growth ratio is the
      base of that annualised return, which raises it to the power
      1/years. */
  function Project(amount: real, years: nat, mix: seq<Allocation>): (r: Result<Projection, SipError>)
    ensures !KnownAssets(mix) ==> r.Failure? && r.error.UnknownAsset?
    ensures KnownAssets(mix) && WeightedReturn(mix).value == 0.0 ==> r == Failure(ZeroMonthlyRate)
    ensures (KnownAssets(mix) && WeightedReturn(mix).value != 0.0 && amount * (years * 12) as real == 0.0)
              ==> r == Failure(ZeroTotalInvested)
    ensures r.Success? <==>
              KnownAssets(mix) && WeightedReturn(mix).value != 0.0 && amount * (years * 12) as real != 0.0
    ensures r.Success? ==>
              var rate := WeightedReturn(mix).value / 12.0;
              && r.value.totalInvested == amount * (years * 12) as real
              && r.value.totalInvested != 0.0
              && r.value.futureValue == amount * GeomSum(1.0 + rate, years * 12)
              && r.value.growthRatio * r.value.totalInvested == r.value.futureValue
  {
    match WeightedReturn(mix)
    case Failure(e) => Failure(e)
    case Success(annual) =>
      var months := years * 12;
      var rate := annual / 12.0;
      if rate == 0.0 then Failure(ZeroMonthlyRate)
      else
        var fv := AnnuityValue(amount, rate, months);
        var invested := amount * months as real;
        if invested == 0.0 then Failure(ZeroTotalInvested)
        else Success(Projection(invested, fv, fv / invested))
  }

  /** With a positive rate and a positive amount the projection is worth at
      least what was put in. */
  lemma FutureValueCoversInvestment(amount: real, years: nat, mix: seq<Allocation>)
    requires KnownAssets(mix) && WeightedReturn(mix).value > 0.0
    requires amount > 0.0 && years > 0
    ensures Project(amount, years, mix).Success?
    ensures Project(amount, years, mix).value.futureValue >= Project(amount, years, mix).value.totalInvested
  {
    assert amount * (years * 12) as real > 0.0 by {
      assert (years * 12) as real >= 12.0;
      assert amount * ((years * 12) as real - 12.0) >= 0.0;
    }
    var rate := WeightedReturn(mix).value / 12.0;
    var n := years * 12;
    GeomSumAtLeastCount(1.0 + rate, n);
    assert amount * GeomSum(1.0 + rate, n) >= amount * n as real by {
      assert amount * (GeomSum(1.0 + rate, n) - n as real) >= 0.0;
    }
  }

  /** 1000 a month for ten years, all in equity, invests 120000. */
  lemma TenYearsOfEquity()
    ensures Project(1000.0, 10, [Allocation("equity", 1.0)]).Success?
    ensures Project(1000.0, 10, [Allocation("equity", 1.0)]).value.totalInvested == 120000.0
  {
    var mix := [Allocation("equity", 1.0)];
    assert mix[1..] == [];
    assert WeightedReturn(mix) == Success(0.12);
  }

  /** An empty mix has a zero rate, so the projection divides by zero. */
  lemma EmptyMixDividesByZero(amount: real, years: nat)
    ensures Project(amount, years, []) == Failure(ZeroMonthlyRate)
  {
  }
}
