/**
 * The agent workflow graph: its nodes, its fixed edges, and the router that
 * sends the research team to the agent for the first step still to run.
 */
module GraphBuilder {
  import opened Wrappers
  import opened PlannerModel

  datatype Node =
    | Start | Coordinator | BackgroundInvestigator | Planner | Reporter
    | ResearchTeam | Researcher | Strategizer | Coder | HumanFeedback | End

  function NodeName(n: Node): string
  {
    match n
    case Start => "__start__"
    case Coordinator => "coordinator"
    case BackgroundInvestigator => "background_investigator"
    case Planner => "planner"
    case Reporter => "reporter"
    case ResearchTeam => "research_team"
    case Researcher => "researcher"
    case Strategizer => "strategizer"
    case Coder => "coder"
    case HumanFeedback => "human_feedback"
    case End => "__end__"
  }

  /** The agent that carries out a step of the given kind. */
  function AgentFor(t: StepType): (r: Node)
    ensures r == Researcher <==> t == Research || t == PersonaResearch
    ensures r == Coder <==> t == Processing
    ensures r == Strategizer <==> t == StrategyFormulation || t == MessageDrafting
  {
    match t
    case Research => Researcher
    case Processing => Coder
    case PersonaResearch => Researcher
    case StrategyFormulation => Strategizer
    case MessageDrafting => Strategizer
  }

  /** The targets the research team's conditional edge is declared with. */
  const ResearchTeamTargets: set<Node> := {Planner, Researcher, Strategizer, Coder}

  /**
   * continue_to_running_research_team: back to the planner when there is no
   * plan, no step or no step left to run; otherwise the agent for the first
   * step that has not run.
   */
  function ContinueToRunningResearchTeam(plan: Option<Plan>): (r: Node)
    ensures r in ResearchTeamTargets
    ensures plan.None? || plan.value.steps == [] || AllDone(plan.value.steps) <==> r == Planner
    ensures plan.Some? && !AllDone(plan.value.steps) ==>
              r == AgentFor(plan.value.steps[FirstPending(plan.value.steps).value].stepType)
  {
    if plan.None? || plan.value.steps == [] then Planner
    else if AllDone(plan.value.steps) then Planner
    else
      var step := plan.value.steps[FirstPending(plan.value.steps).value];
      AgentFor(step.stepType)
  }

  /**
   * The route depends only on the first step still to run: plans that agree
   * on it (and on every step before it having run) are routed alike, however
   * their later steps differ.
   */
  lemma RouteDependsOnFirstPending(p: Plan, q: Plan, k: nat)
    requires k < |p.steps| && k < |q.steps|
    requires forall i :: 0 <= i < k ==> Done(p.steps[i]) && Done(q.steps[i])
    requires !Done(p.steps[k]) && !Done(q.steps[k]) && p.steps[k].stepType == q.steps[k].stepType
    ensures ContinueToRunningResearchTeam(Some(p)) == ContinueToRunningResearchTeam(Some(q))
  {
    FirstPendingIsFirst(p.steps, k);
    FirstPendingIsFirst(q.steps, k);
  }

  lemma FirstPendingIsFirst(steps: seq<Step>, k: nat)
    requires k < |steps| && !Done(steps[k])
    requires forall i :: 0 <= i < k ==> Done(steps[i])
    ensures FirstPending(steps) == Some(k)
  {
  }

  /** The edges added unconditionally when the graph is built. */
  const FixedEdges: set<(Node, Node)> := {(Start, Coordinator), (BackgroundInvestigator, Planner), (Reporter, End)}

  /** Where a node may hand over next: fixed edges, the router, and each node's own goto commands. */
  function Successors(n: Node): set<Node>
  {
    match n
    case Start => {Coordinator}
    case Coordinator => {Planner, BackgroundInvestigator, End}
    case BackgroundInvestigator => {Planner}
    case Planner => {HumanFeedback, Reporter, End}
    case HumanFeedback => {Planner, ResearchTeam, Reporter, End}
    case ResearchTeam => ResearchTeamTargets
    case Researcher => {ResearchTeam}
    case Strategizer => {ResearchTeam}
    case Coder => {ResearchTeam}
    case Reporter => {End}
    case End => {}
  }

  /** Every fixed edge and every route the router can take is a declared successor. */
  lemma EdgesAreSuccessors(plan: Option<Plan>)
    ensures forall e :: e in FixedEdges ==> e.1 in Successors(e.0)
    ensures ContinueToRunningResearchTeam(plan) in Successors(ResearchTeam)
  {
  }

  /** A path through the graph: consecutive nodes are successors. */
  predicate IsPath(path: seq<Node>)
  {
    forall i :: 0 <= i < |path| - 1 ==> path[i + 1] in Successors(path[i])
  }

  /** The workflow can be finished from every node: each has a path to the end. */
  function PathToEnd(n: Node): (path: seq<Node>)
    ensures |path| >= 1 && path[0] == n && path[|path| - 1] == End && IsPath(path)
  {
    match n
    case End => [End]
    case Reporter => [Reporter, End]
    case Start => [Start, Coordinator, End]
    case Coordinator => [Coordinator, End]
    case BackgroundInvestigator => [BackgroundInvestigator, Planner, End]
    case Planner => [Planner, End]
    case HumanFeedback => [HumanFeedback, End]
    case ResearchTeam => [ResearchTeam, Planner, End]
    case Researcher => [Researcher, ResearchTeam, Planner, End]
    case Strategizer => [Strategizer, ResearchTeam, Planner, End]
    case Coder => [Coder, ResearchTeam, Planner, End]
  }
}
