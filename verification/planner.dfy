/** `generate_plan`: the planner chain is invoked once on the user's profile
    and its text decoded as JSON; a decoding failure is turned into a fixed
    error value instead of an exception. */
module Planner {
  import opened Wrappers
  import opened Capabilities

  datatype PlannerState = PlannerState(goals: seq<string>, profile: Json)

  /** The value returned when the model's text does not decode. */
  const ParseErrorPlan: Json := JObj([("error", JStr("Failed to parse plan"))])

  /** The plan: whatever the decoder returns, unvalidated; the error value
      when decoding fails; and the chain's own exception, which is outside
      the handler, propagated. */
  function GeneratePlan(state: PlannerState, chain: Chain, parse: Parser): (r: Result<Json, Fault>)
    ensures chain(state.profile).Failure? ==> r == Failure(chain(state.profile).error)
    ensures (chain(state.profile).Success? && parse(chain(state.profile).value).Some?)
              ==> r == Success(parse(chain(state.profile).value).value)
    ensures (chain(state.profile).Success? && parse(chain(state.profile).value).None?)
              ==> r == Success(ParseErrorPlan)
  {
    match chain(state.profile)
    case Failure(e) => Failure(e)
    case Success(text) =>
      match parse(text)
      case Some(plan) => Success(plan)
      case None => Success(ParseErrorPlan)
  }

  /** The goals never influence the plan: only the profile is fed to the chain. */
  lemma GoalsDoNotMatter(s1: PlannerState, s2: PlannerState, chain: Chain, parse: Parser)
    requires s1.profile == s2.profile
    ensures GeneratePlan(s1, chain, parse) == GeneratePlan(s2, chain, parse)
  {
  }

  /** The chain is consulted at the profile only: two chains that agree there
      give the same plan. */
  lemma ChainConsultedAtProfileOnly(state: PlannerState, c1: Chain, c2: Chain, parse: Parser)
    requires c1(state.profile) == c2(state.profile)
    ensures GeneratePlan(state, c1, parse) == GeneratePlan(state, c2, parse)
  {
  }

  /** Decoded values are not checked: a bare number decodes to a "plan". */
  lemma AnyDecodedValueIsAPlan(state: PlannerState)
    ensures var chain := (p: Json) => Success("42");
            var parse := (t: string) => if t == "42" then Some(JNum(42.0)) else None;
            GeneratePlan(state, chain, parse) == Success(JNum(42.0))
  {
  }

  /** A model that answers with prose yields the error value, not an exception. */
  lemma ProseYieldsErrorPlan(state: PlannerState)
    ensures var chain := (p: Json) => Success("Here is your plan!");
            var parse := (t: string) => None;
            GeneratePlan(state, chain, parse) == Success(ParseErrorPlan)
  {
  }
}
