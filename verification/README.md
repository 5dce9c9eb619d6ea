# Finautica core in Dafny

This project models the deterministic core of Finautica, a personal-finance
planning assistant:

- the quantitative engines: the weighted risk score, portfolio concentration
  (Herfindahl-Hirschman index, HHI) with the top three holdings, the monthly
  budget deviation report, the SIP (systematic investment plan) projection, the
  executor's `calculate_sip` tool and the Monte Carlo goal simulator;
- the control skeleton of the planning pipeline: `generate_plan` and the
  three-node planner → executor → reflector graph over the shared workflow state.

Everything is a pure function over `real`. Three kinds of external input
become explicit parameters:

- the language-model chains and agents (`Capabilities.Chain`, `Capabilities.Agent`);
- the JSON decoder (`Capabilities.Parser`);
- the normal random draws of the goal simulator, passed as a matrix with one row per trial.

Exceptions that the source raises become `Failure` values of a `Result`.
Values that numpy would produce as NaN or infinity become `None`.

Modules and files:

| file | module | source |
|---|---|---|
| wrappers.dfy | `Wrappers` | `Option` / `Result` |
| seq_facts.dfy | `SeqFacts` | shared sum of reals and multiset facts |
| real_facts.dfy | `RealFacts` | shared order facts about products |
| rounding.dfy | `Rounding` | `round(x, digits)` on the reported numbers |
| compounding.dfy | `Compounding` | powers and geometric sums shared by the SIP and goal models |
| risk_score.dfy | `RiskScore` | `RiskProfile`, `RiskAssessor.__init__`, `calculate_risk_score` |
| portfolio_risk.dfy | `PortfolioRisk` | `portfolio_risk_analysis` |
| budget.dfy | `Budget` | `BudgetAnalyzer.analyze` |
| sip.dfy | `Sip` | `SIPCalculator` |
| sip_tool.dfy | `SipTool` | the `calculate_sip` tool |
| goals.dfy | `Goals` | `GoalSimulator.simulate` |
| capabilities.dfy | `Capabilities` | JSON values, faults, model/parser/agent signatures |
| planner.dfy | `Planner` | `generate_plan` |
| workflow.dfy | `Workflow` | `WorkflowState`, `create_workflow` |

In several places the code behaves differently from what a reader of a finance tool might expect. The model follows the code:

- A budgeted category with no transactions in a month has no defined spending. The code leaves NaN there, modelled as `None`. If the category never occurs in any transaction, the lookup raises KeyError. Neither case reports 0 spent.
- A zero monthly rate in either SIP formula raises a division by zero. It does not fall back to linear accumulation.
- Two equal holdings give an HHI of 5000. The code's thresholds label that `High`, not `Moderate`.
- `generate_plan` does not validate the decoded plan: keys, goal counts and allocation weights are not checked. Any decoded JSON value is returned as the plan.
- An error plan is not short-circuited. The workflow hands it to the executor like any other plan. There is no `InvalidPlanError`.
- The executor is one opaque agent. It has no registry of tools that it dispatches per plan field.
- The reflector node stores the reflector chain's raw text as the insights. Nothing parses it into strengths, improvements and adjustments, and no parse error can arise.

The goal simulator is a function of its draws, so equal draws give equal outcomes.

## Model

| member | source | states |
|---|---|---|
| RiskScore.RawScore | backend/tools/risk_assessment.py:21-30 | the raw score is 30·volatility + 20·liquidity + 15·concentration + 20·horizon + 15·loss capacity, i.e. 100 × the dot product with weights 0.3/0.2/0.15/0.2/0.15 |
| RiskScore.WeightsSumToOne | backend/tools/risk_assessment.py:21 | the five weights are non-negative and sum to 1 |
| RiskScore.DotBetween | backend/tools/risk_assessment.py:21-30 | with non-negative weights and factors in [0, 1] the weighted sum lies between 0 and the total weight |
| RiskScore.RawScoreBounds | backend/tools/risk_assessment.py:5-30 | factors in [0, 1] give a raw score in [0, 100] |
| RiskScore.Classify | backend/tools/risk_assessment.py:33-38 | each of the three classes holds exactly on its band: < 30 Conservative, [30, 60) Moderate, ≥ 60 Aggressive |
| RiskScore.ClassifyMonotone | backend/tools/risk_assessment.py:33-38 | a higher score never gets a less aggressive class |
| RiskScore.CalculateRiskScore | backend/tools/risk_assessment.py:12-51 | the class is that of the unrounded score; the reported score is the raw score rounded to one decimal (a multiple of 0.1 within 0.05 of it); each component divided by 100 gives back its factor; the benchmarks are the constructor's table |
| RiskScore.AllHalvesIsModerate | backend/tools/risk_assessment.py:20-41 | all factors 0.5 give score 50 and class Moderate |
| RiskScore.ClassificationUsesUnroundedScore | backend/tools/risk_assessment.py:30-41 | a raw 29.96 is reported as 30.0 but classified Conservative, although 30.0 itself is Moderate |
| Rounding.RoundTo | backend/tools/risk_assessment.py:41 | the result is a multiple of 10^-d, at most half a unit of the last place from the value, and on an exact tie its last digit is even |
| Rounding.GridRoundingIsUnique | backend/tools/risk_assessment.py:41 | two multiples of 10^-d, one within half a step of a value and the other strictly within, are equal, so away from ties the contract of RoundTo determines its result |
| Rounding.RoundHalfEven | backend/tools/risk_assessment.py:41 | the nearest integer, ties to even, integers unchanged |
| PortfolioRisk.Hhi | backend/tools/risk_assessment.py:55-60 | the index is undefined exactly when the holdings are non-empty and total 0; an empty portfolio yields 0 (numpy sums an empty array to 0) |
| PortfolioRisk.HhiBounds | backend/tools/risk_assessment.py:55-60 | positive holdings give an index in (0, 10000] |
| PortfolioRisk.SumOfSquaresAtMostSquaredSum | backend/tools/risk_assessment.py:57-60 | for non-negative shares Σs² ≤ (Σs)², the reason the index is at most 10000 |
| PortfolioRisk.HhiOfEqualHoldings | backend/tools/risk_assessment.py:55-60 | n equal non-zero holdings give 10000 / n |
| PortfolioRisk.TwoEqualHoldingsAreHighlyConcentrated | backend/tools/risk_assessment.py:55-67 | {A: 5000, B: 5000} gives 5000, labelled High |
| PortfolioRisk.ConcentrationOf | backend/tools/risk_assessment.py:62-67 | each label holds exactly on its band: < 1500 Low, [1500, 2500) Moderate, otherwise (including a non-finite index) High |
| PortfolioRisk.ConcentrationMonotone | backend/tools/risk_assessment.py:62-67 | a larger index never gets a lower label, and a non-finite index gets the highest |
| PortfolioRisk.SortByValue | backend/tools/risk_assessment.py:72-76 | the stable descending sort is a permutation in rank order (larger value first, ties in source order) |
| PortfolioRisk.TopRanked | backend/tools/risk_assessment.py:72-76 | min(3, n) entries at distinct source positions, non-increasing in value, ties in source order, and every kept entry precedes every left-out one (larger, or equal and earlier), so ties at the cut-off keep the earlier holding |
| PortfolioRisk.TopHoldings | backend/tools/risk_assessment.py:72-76 | min(3, n) holdings in non-increasing value order, each the holding at the position the stable ranking keeps; any holding larger than a kept one is kept |
| PortfolioRisk.TiesKeepEarlierHoldings | backend/tools/risk_assessment.py:72-76 | when every holding has the same value, the top three are the first three in input order (four equal holdings A, B, C, D give A, B, C): the stable sort keeps ties in input order |
| PortfolioRisk.TopHoldingsDistinct | backend/tools/risk_assessment.py:72-76 | with distinct names (dictionary keys) no holding is listed twice |
| PortfolioRisk.ShownIndex | backend/tools/risk_assessment.py:70 | the reported index is the index rounded to two decimals (a multiple of 0.01 within 0.005 of it), and undefined exactly when the index is |
| PortfolioRisk.PortfolioRiskAnalysis | backend/tools/risk_assessment.py:53-77 | the label is that of the unrounded index; the reported index is the index rounded to two decimals (a multiple of 0.01 within 0.005 of it) and undefined exactly when the index is; the top holdings as above |
| Budget.GroupSums | backend/tools/budget_analyzer.py:5 | a (month, category) cell is present exactly when some transaction falls into it, and holds the sum of their amounts |
| Budget.NoOccurrenceSpendsNothing | backend/tools/budget_analyzer.py:5 | a cell no transaction falls into sums to nothing |
| Budget.Analyze | backend/tools/budget_analyzer.py:4-16 | fails exactly when there are transactions and a budgeted category never occurs; otherwise the months are exactly those of the transactions, each mapping exactly the budgeted categories to budget, sum spent and spent − budget, with spent and deviation undefined where the cell is empty |
| Budget.SpentInAppend | backend/tools/budget_analyzer.py:5 | group sums distribute over concatenation |
| Budget.SpentInPermutation | backend/tools/budget_analyzer.py:5 | group sums do not depend on transaction order |
| Budget.GroupSumsPermutation | backend/tools/budget_analyzer.py:5 | reordering the transactions gives the same grouped table |
| Budget.AnalyzePermutation | backend/tools/budget_analyzer.py:5-15 | reordering the transactions gives the same report |
| Budget.OverspentDining | backend/tools/budget_analyzer.py:5-12 | 100 spent on Dining in 2024-01 against a budget of 80 reports spent 100, budgeted 80, deviation 20 |
| Budget.MissingCellIsUndefined | backend/tools/budget_analyzer.py:10-12 | a budgeted category spent in another month only has undefined spending, not 0 |
| Budget.NeverSpentCategoryFails | backend/tools/budget_analyzer.py:7-14 | a budgeted category absent from all transactions fails; no transactions give an empty report |
| Sip.WeightedReturn | backend/tools/sip_calculator.py:13-16 | succeeds exactly when every asset is in the return table; a failure names an asset of the mix that is missing |
| Sip.WeightedReturnBetween | backend/tools/sip_calculator.py:6-16 | with non-negative weights the return lies between 0.07 and 0.12 times the total weight |
| Compounding.GeomSumTelescopes | backend/tools/sip_calculator.py:19 | (x − 1)·Σ_{k<n} x^k = x^n − 1 |
| Compounding.AnnuityFactorIsGeometricSum | backend/tools/sip_calculator.py:19 | ((1+r)^n − 1)/r equals Σ_{k<n} (1+r)^k for r ≠ 0 |
| Compounding.GeomSumAtLeastCount | backend/tools/sip_calculator.py:19-21 | with growth factor ≥ 1 the geometric sum of n terms is at least n |
| Sip.AnnuityValue | backend/tools/sip_calculator.py:19 | the closed-form future value is amount × the geometric sum of the monthly growth factors |
| Sip.Project | backend/tools/sip_calculator.py:12-24 | unknown asset → KeyError; zero weighted rate → division by zero; zero amount invested → division by zero in the annualised return; it succeeds exactly when none of these holds, and then invested = amount × years × 12, future value = amount × Σ_{k<months}(1 + rate/12)^k, growth ratio × invested = future value |
| Sip.FutureValueCoversInvestment | backend/tools/sip_calculator.py:19-21 | known assets with a positive rate, a positive amount and at least one year succeed, with a future value of at least the amount invested |
| Sip.TenYearsOfEquity | backend/tools/sip_calculator.py:17-21 | 1000 a month for 10 years in equity succeeds and invests 120000 |
| Sip.EmptyMixDividesByZero | backend/tools/sip_calculator.py:13-19 | an empty mix has rate 0 and raises division by zero |
| SipTool.CalculateSip | backend/agents/executor_agent.py:6-19 | fails exactly when the rate is 0; otherwise invested = principal × months and estimate = principal × Σ_{k<months}(1 + rate/1200)^k, with no annualised-return field |
| SipTool.AgreesWithProjection | backend/agents/executor_agent.py:13-18 | at 100 × an asset's historical return the tool returns the same invested amount and value as a projection fully in that asset |
| SipTool.NothingInvestedDisagrees | backend/agents/executor_agent.py:13-18 | with a zero amount or zero years the projection raises division by zero (backend/tools/sip_calculator.py:23) while the tool reports 0 invested and 0 estimated |
| SipTool.TwelvePercentIsEquity | backend/agents/executor_agent.py:13-18 | at 12 percent the tool agrees with the all-equity projection |
| Goals.FinalBalanceCoversContributions | backend/tools/goals_stimulator.py:7-11 | with a non-negative contribution and non-negative samples, a trial ends with at least monthly × the number of months |
| Goals.RunTrial | backend/tools/goals_stimulator.py:7-11 | the trial loop (add the contribution, then grow the whole balance) ends at the recursive final balance |
| Goals.ConstantSamplesCompound | backend/tools/goals_stimulator.py:8-10 | a constant sample g gives monthly × (1+g) × Σ_{k<n}(1+g)^k |
| Goals.ZeroSamplesAccumulate | backend/tools/goals_stimulator.py:7-10 | all-zero samples give monthly × number of months |
| Goals.CountReachingAntitone | backend/tools/goals_stimulator.py:12 | a higher target is reached by no more balances |
| Goals.SortAscending | backend/tools/goals_stimulator.py:15 | the sorted balances are a permutation in ascending order |
| Goals.Percentile | backend/tools/goals_stimulator.py:15 | the linear percentile lies between the smallest and largest value and between the two neighbours of its fractional rank |
| Goals.PercentileInterpolatesLinearly | backend/tools/goals_stimulator.py:15 | numpy's default linear method: the 25th percentile of [0, 10] is 2.5 and the median of [1, 2, 3, 4] is 2.5, not a data point |
| Goals.PercentileMonotone | backend/tools/goals_stimulator.py:15 | percentiles are monotone in q |
| Goals.Simulate | backend/tools/goals_stimulator.py:4-16 | success rate in [0, 1], equal to the count of trials reaching the target over 1000; three percentiles with p10 ≤ p50 ≤ p90, each between the smallest and the largest final balance |
| Goals.PercentileWithinRange | backend/tools/goals_stimulator.py:15 | a percentile of the sorted balances lies between the smallest and the largest balance |
| Goals.SuccessRateAntitone | backend/tools/goals_stimulator.py:12 | raising the target never raises the success rate for the same draws |
| Goals.FinalsOfZeroDraws | backend/tools/goals_stimulator.py:6-11 | all-zero draws end every trial at monthly × years × 12 |
| Goals.ZeroDrawsAreAllOrNothing | backend/tools/goals_stimulator.py:6-15 | with all-zero draws the success rate is 1 when monthly × years × 12 reaches the target and 0 otherwise, and all three percentiles equal monthly × years × 12 |
| Goals.PercentilesOfConstant | backend/tools/goals_stimulator.py:15 | every percentile of equal balances is that balance |
| Planner.GeneratePlan | backend/agents/planner_agent.py:26-31 | the chain's exception propagates; a decoded value is returned unchanged; a decoding failure gives exactly {"error": "Failed to parse plan"} |
| Planner.GoalsDoNotMatter | backend/agents/planner_agent.py:27 | states with the same profile give the same plan |
| Planner.ChainConsultedAtProfileOnly | backend/agents/planner_agent.py:27 | chains that agree on the profile give the same plan |
| Planner.AnyDecodedValueIsAPlan | backend/agents/planner_agent.py:28-29 | a decoded bare number is returned as the plan, unvalidated |
| Planner.ProseYieldsErrorPlan | backend/agents/planner_agent.py:28-31 | undecodable text yields the error value, not an exception |
| Workflow.Next | backend/agents/agent_workflow.py:22-24 | each edge moves one node closer to the end |
| Workflow.Step | backend/agents/agent_workflow.py:17-19 | the planner writes only plan (the planner's result on the state), the executor only results (from the plan), the reflector only insights (from the results) |
| Workflow.Reflect | backend/agents/agent_workflow.py:19 | the insights are the reflector chain's text, kept unparsed as a JSON string; it fails exactly when the chain raises, with the chain's fault |
| Workflow.RunFrom | backend/agents/agent_workflow.py:14-26 | a run visits as many nodes as the start is from the end, never the end node itself, and keeps goals and profile |
| Workflow.Invoke | backend/agents/agent_workflow.py:14-26 | a successful run of the compiled graph from the entry node visits three nodes, none of them the end, and keeps goals and profile |
| Workflow.InvokeDataFlow | backend/agents/agent_workflow.py:17-24 | a successful run visits planner, executor, reflector once each in order; the executor gets exactly the plan written and the reflector exactly the results written |
| Workflow.InvokeSucceedsIffNoStageRaises | backend/agents/agent_workflow.py:17-24 | a run fails exactly when one stage raises |
| Workflow.InsightsAreReflectorText | backend/agents/agent_workflow.py:19 | after a successful run the insights are exactly the reflector's text on the stored results, whatever it says |
| Workflow.ErrorPlanReachesExecutor | backend/agents/agent_workflow.py:17-18 | an undecodable plan is passed to the executor as the error value |

## Left out

- Floating point: every number is an exact `real`. IEEE-754 rounding, overflow and NaN propagation are not modelled beyond the `None` cases named above.
- Rounding.RoundTo: models round-half-even on the exact real value. It does not model numpy's rounding of the binary float, which can differ on values that are not exactly representable.
- Sip.Project: the annualised return `(FV / invested) ** (1/years) - 1` needs a fractional power. The model reports only its base (`growthRatio`) and the error raised when the amount invested is 0.
- Sip.Project, SipTool.CalculateSip and Goals.Simulate: `years` is a natural number. With negative years the SIP formulas would compute negative powers, and the simulator would run no months, so every balance would be 0. Neither is modelled.
- Goals.Simulate: `np.random.normal(return_rate/12, 0.02)` is replaced by the draws matrix. Because of that, `return_rate` does not appear as a parameter, and the distribution of the draws is not modelled.
- The LLM calls, the prompt templates and `json.loads`: they are opaque parameters. The planner's chain (template piped into the model) is one function from the profile to text.
- `create_executor` and the module-level `executor`: the executor is an opaque agent. It is a LangChain wrapper, and its prompt template is used without being imported.
- The reflector's vector store and embeddings (backend/agents/reflector_agent.py, backend/memory/chorma_setup.py): the workflow never writes to them.
- The undefined `END` symbol: the end node is the terminal state `End`.
- The DataFrame's `month` column: the model's transactions carry a month directly. Deriving it from a date is not part of this model.
- The Streamlit dashboard, SQLite storage and sample-data generation: they are UI, I/O and randomness with no logic in the core.
