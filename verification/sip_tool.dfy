/** The `calculate_sip` tool of the executor agent: the same annuity
    formula as the SIP calculator, but with the annual rate given directly
    as a percentage and without the annualised return. */
module SipTool {
  import opened Wrappers
  import opened Compounding
  import Sip

  /** The tool's output: exactly the amount invested and the estimate. */
  datatype SipEstimate = SipEstimate(totalInvested: real, estimatedValue: real)

  datatype ToolError = ZeroRate

  /** The estimate for `principal` a month over `years` at `ratePercent`
      percent a year; a zero rate divides by zero. */
  function CalculateSip(principal: real, years: nat, ratePercent: real): (r: Result<SipEstimate, ToolError>)
    ensures r.Failure? <==> ratePercent == 0.0
    ensures r.Success? ==>
              && r.value.totalInvested == principal * (years * 12) as real
              && r.value.estimatedValue == principal * GeomSum(1.0 + ratePercent / 1200.0, years * 12)
  {
    var months := years * 12;
    var monthlyRate := ratePercent / 12.0 / 100.0;
    if monthlyRate == 0.0 then Failure(ZeroRate)
    else
      var fv := Sip.AnnuityValue(principal, monthlyRate, months);
      Success(SipEstimate(principal * months as real, fv))
  }

  /** Given the historical return of an asset class as a percentage, the tool
      agrees with a projection fully invested in that class on both the
      amount invested and the future value. */
  lemma AgreesWithProjection(principal: real, years: nat, asset: string)
    requires asset in Sip.HistoricalReturns
    requires principal != 0.0 && years > 0
    ensures Sip.Project(principal, years, [Sip.Allocation(asset, 1.0)]).Success?
    ensures var p := Sip.Project(principal, years, [Sip.Allocation(asset, 1.0)]).value;
            CalculateSip(principal, years, 100.0 * Sip.HistoricalReturns[asset])
              == Success(SipEstimate(p.totalInvested, p.futureValue))
  {
    var mix := [Sip.Allocation(asset, 1.0)];
    assert mix[1..] == [];
    var annual := Sip.HistoricalReturns[asset];
    assert Sip.WeightedReturn(mix) == Success(annual * 1.0);
    assert annual > 0.0;
    assert principal * (years * 12) as real != 0.0;
    assert 100.0 * annual / 1200.0 == annual / 12.0;
  }

  /** Where nothing is invested the two part ways: the projection divides
      the future value by the zero amount invested and raises, while the tool
      reports zeros. */
  lemma NothingInvestedDisagrees(principal: real, years: nat, asset: string)
    requires asset in Sip.HistoricalReturns
    requires principal == 0.0 || years == 0
    ensures Sip.Project(principal, years, [Sip.Allocation(asset, 1.0)]) == Failure(Sip.ZeroTotalInvested)
    ensures CalculateSip(principal, years, 100.0 * Sip.HistoricalReturns[asset]) == Success(SipEstimate(0.0, 0.0))
  {
    var mix := [Sip.Allocation(asset, 1.0)];
    assert mix[1..] == [];
    var annual := Sip.HistoricalReturns[asset];
    assert Sip.WeightedReturn(mix) == Success(annual * 1.0);
    assert annual > 0.0;
    assert principal * (years * 12) as real == 0.0;
    if years == 0 {
      assert GeomSum(1.0 + 100.0 * annual / 1200.0, 0) == 0.0;
    }
  }

  /** The common case: 12 percent is the equity projection. */
  lemma TwelvePercentIsEquity(principal: real, years: nat)
    requires principal != 0.0 && years > 0
    ensures var p := Sip.Project(principal, years, [Sip.Allocation("equity", 1.0)]);
            p.Success? && CalculateSip(principal, years, 12.0) == Success(SipEstimate(p.value.totalInvested, p.value.futureValue))
  {
    AgreesWithProjection(principal, years, "equity");
  }
}
