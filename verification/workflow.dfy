/** `create_workflow`: the planner, executor and reflector nodes run in a
    fixed line from the entry node to the end. Each node writes exactly one
    field of the shared state from the field written before it. */
module Workflow {
  import opened Wrappers
  import opened Capabilities
  import Planner

  /** The shared state. `plan`, `results` and `insights` are absent until
      their node has run. */
  datatype WorkflowState = WorkflowState(
    goals: seq<string>,
    profile: Json,
    plan: Option<Json>,
    results: Option<Json>,
    insights: Option<Json>)

  datatype Node = PlannerNode | ExecutorNode | ReflectorNode | End

  /** The external collaborators of the pipeline. */
  datatype Collaborators = Collaborators(
    plannerChain: Chain,
    parse: Parser,
    executor: Agent,
    reflector: Chain)

  const Entry: Node := PlannerNode

  /** The graph's only edges. */
  function Next(n: Node): (m: Node)
    requires n != End
    ensures Distance(m) + 1 == Distance(n)
  {
    match n
    case PlannerNode => ExecutorNode
    case ExecutorNode => ReflectorNode
    case ReflectorNode => End
  }

  /** Steps left before the end node. */
  function Distance(n: Node): nat
  {
    match n
    case PlannerNode => 3
    case ExecutorNode => 2
    case ReflectorNode => 1
    case End => 0
  }

  function Initial(goals: seq<string>, profile: Json): WorkflowState
  {
    WorkflowState(goals, profile, None, None, None)
  }

  /** The reflector chain's raw text, kept as a JSON string: the source
      stores the model's text unparsed, so any text is accepted and only the
      chain itself can raise. */
  function Reflect(reflector: Chain, results: Json): (r: Result<Json, Fault>)
    ensures r.Success? <==> reflector(results).Success?
    ensures r.Failure? ==> r.error == reflector(results).error
    ensures r.Success? ==> r.value.JStr? && r.value.s == reflector(results).value
  {
    match reflector(results)
    case Failure(e) => Failure(e)
    case Success(text) => Success(JStr(text))
  }

  /** Running one node. Reading a field that is absent raises, as indexing
      the state dictionary does. */
  function Step(n: Node, s: WorkflowState, c: Collaborators): (r: Result<WorkflowState, Fault>)
    requires n != End
    ensures (r.Success? && n == PlannerNode) ==>
              && PlanFor(s.goals, s.profile, c).Success?
              && r.value == s.(plan := Some(PlanFor(s.goals, s.profile, c).value))
    ensures (r.Success? && n == ExecutorNode) ==>
              && s.plan.Some?
              && c.executor(s.plan.value).Success?
              && r.value == s.(results := Some(c.executor(s.plan.value).value))
    ensures (r.Success? && n == ReflectorNode) ==>
              && s.results.Some?
              && Reflect(c.reflector, s.results.value).Success?
              && r.value == s.(insights := Some(Reflect(c.reflector, s.results.value).value))
  {
    if n == PlannerNode then
      var plan := Planner.GeneratePlan(Planner.PlannerState(s.goals, s.profile), c.plannerChain, c.parse);
      if plan.Failure? then Failure(plan.error) else Success(s.(plan := Some(plan.value)))
    else if n == ExecutorNode then
      if s.plan.None? then Failure(MissingField("plan"))
      else
        var results := c.executor(s.plan.value);
        if results.Failure? then Failure(results.error) else Success(s.(results := Some(results.value)))
    else
      if s.results.None? then Failure(MissingField("results"))
      else
        var insights := Reflect(c.reflector, s.results.value);
        if insights.Failure? then Failure(insights.error) else Success(s.(insights := Some(insights.value)))
  }

  /** A finished run: the final state and the nodes visited in order. */
  datatype Run = Run(final: WorkflowState, visited: seq<Node>)

  /** Runs from `n` along the edges until the end node; the first exception
      stops the run. */
  function RunFrom(n: Node, s: WorkflowState, c: Collaborators): (r: Result<Run, Fault>)
    ensures r.Success? ==> |r.value.visited| == Distance(n)
    ensures r.Success? ==> forall i :: 0 <= i < |r.value.visited| ==> r.value.visited[i] != End
    ensures r.Success? ==> r.value.final.goals == s.goals && r.value.final.profile == s.profile
    decreases Distance(n)
  {
    if n == End then Success(Run(s, []))
    else
      match Step(n, s, c)
      case Failure(e) => Failure(e)
      case Success(s') =>
        match RunFrom(Next(n), s', c)
        case Failure(e) => Failure(e)
        case Success(run) => Success(Run(run.final, [n] + run.visited))
  }

  /** Invoking the compiled graph on the input fields: a successful run
      passes through three nodes, none of them the end node, and hands back
      the input fields unchanged. */
  function Invoke(goals: seq<string>, profile: Json, c: Collaborators): (r: Result<Run, Fault>)
    ensures r.Success? ==> |r.value.visited| == 3
    ensures r.Success? ==> forall i :: 0 <= i < |r.value.visited| ==> r.value.visited[i] != End
    ensures r.Success? ==> r.value.final.goals == goals && r.value.final.profile == profile
  {
    RunFrom(Entry, Initial(goals, profile), c)
  }

  /** The plan the planner node writes for the given input. */
  function PlanFor(goals: seq<string>, profile: Json, c: Collaborators): Result<Json, Fault>
  {
    Planner.GeneratePlan(Planner.PlannerState(goals, profile), c.plannerChain, c.parse)
  }

  /** A successful run visits planner, executor and reflector once each, in
      that order; the executor sees exactly the plan the planner wrote, the
      reflector exactly the results the executor wrote, and the input fields
      are left alone. */
  lemma InvokeDataFlow(goals: seq<string>, profile: Json, c: Collaborators)
    requires Invoke(goals, profile, c).Success?
    ensures var run := Invoke(goals, profile, c).value;
            && run.visited == [PlannerNode, ExecutorNode, ReflectorNode]
            && PlanFor(goals, profile, c).Success?
            && run.final.goals == goals
            && run.final.profile == profile
            && run.final.plan == Some(PlanFor(goals, profile, c).value)
            && c.executor(PlanFor(goals, profile, c).value).Success?
            && run.final.results == Some(c.executor(PlanFor(goals, profile, c).value).value)
            && run.final.insights == Some(Reflect(c.reflector, run.final.results.value).value)
  {
    var s0 := Initial(goals, profile);
    var s1 := Step(PlannerNode, s0, c);
    assert s1.Success?;
    var s2 := Step(ExecutorNode, s1.value, c);
    assert s2.Success?;
    var s3 := Step(ReflectorNode, s2.value, c);
    assert s3.Success?;
    assert RunFrom(End, s3.value, c) == Success(Run(s3.value, []));
  }

  /** A run fails exactly when one of the three stages raises. */
  lemma InvokeSucceedsIffNoStageRaises(goals: seq<string>, profile: Json, c: Collaborators)
    ensures Invoke(goals, profile, c).Success? <==>
              && PlanFor(goals, profile, c).Success?
              && c.executor(PlanFor(goals, profile, c).value).Success?
              && c.reflector(c.executor(PlanFor(goals, profile, c).value).value).Success?
  {
    var s0 := Initial(goals, profile);
    var s1 := Step(PlannerNode, s0, c);
    if s1.Success? {
      var s2 := Step(ExecutorNode, s1.value, c);
      if s2.Success? {
        var s3 := Step(ReflectorNode, s2.value, c);
        if s3.Success? {
          assert RunFrom(End, s3.value, c).Success?;
        }
      }
    }
  }

  /** The stored insights are the reflector's text itself, whatever it
      says: unlike the plan, nothing is decoded. */
  lemma InsightsAreReflectorText(goals: seq<string>, profile: Json, c: Collaborators)
    requires Invoke(goals, profile, c).Success?
    ensures var run := Invoke(goals, profile, c).value;
            && run.final.results.Some?
            && c.reflector(run.final.results.value).Success?
            && run.final.insights == Some(JStr(c.reflector(run.final.results.value).value))
  {
    InvokeDataFlow(goals, profile, c);
  }

  /** An unparseable plan is not short-circuited: the executor is invoked on
      the error value itself. */
  lemma ErrorPlanReachesExecutor(goals: seq<string>, profile: Json, c: Collaborators)
    requires c.plannerChain(profile).Success?
    requires c.parse(c.plannerChain(profile).value).None?
    requires c.executor(Planner.ParseErrorPlan).Success?
    requires c.reflector(c.executor(Planner.ParseErrorPlan).value).Success?
    ensures Invoke(goals, profile, c).Success?
    ensures Invoke(goals, profile, c).value.final.plan == Some(Planner.ParseErrorPlan)
    ensures Invoke(goals, profile, c).value.final.results == Some(c.executor(Planner.ParseErrorPlan).value)
  {
    InvokeSucceedsIffNoStageRaises(goals, profile, c);
    InvokeDataFlow(goals, profile, c);
  }
}
