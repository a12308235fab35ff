/**
 * The plan the planner agent produces: a list of steps, each of a kind that
 * decides which agent carries it out, and each with an execution result
 * once it has run.
 */
module PlannerModel {
  import opened Wrappers

  datatype StepType = Research | Processing | PersonaResearch | StrategyFormulation | MessageDrafting

  function StepTypeName(t: StepType): string
  {
    match t
    case Research => "research"
    case Processing => "processing"
    case PersonaResearch => "persona_research"
    case StrategyFormulation => "strategy_formulation"
    case MessageDrafting => "message_drafting"
  }

  datatype Step = Step(
    needSearch: bool,
    title: string,
    description: string,
    stepType: StepType,
    executionRes: Option<string>,
    channels: Option<seq<string>>,
    followUpSequence: Option<seq<string>>,
    abTestVariants: Option<seq<string>>,
    trendHijackingReference: Option<string>)

  datatype Plan = Plan(
    locale: string,
    hasEnoughContext: bool,
    thought: string,
    title: string,
    steps: seq<Step>,
    selectedTemplateId: Option<string>,
    selectedTone: Option<string>)

  /** Python truthiness of an optional string: present and non-empty. */
  predicate Truthy(s: Option<string>)
  {
    s.Some? && s.value != ""
  }

  /** A step has run once its execution result is truthy. */
  predicate Done(s: Step)
  {
    Truthy(s.executionRes)
  }

  /** `all(step.execution_res for step in steps)`. */
  predicate AllDone(steps: seq<Step>)
  {
    forall i :: 0 <= i < |steps| ==> Done(steps[i])
  }

  /** The position of the first step that has not run yet. */
  function FirstPending(steps: seq<Step>): (r: Option<nat>)
    ensures r.None? <==> AllDone(steps)
    ensures r.Some? ==> r.value < |steps| && !Done(steps[r.value])
    ensures r.Some? ==> forall i :: 0 <= i < r.value ==> Done(steps[i])
  {
    if steps == [] then None
    else if !Done(steps[0]) then Some(0)
    else
      var rest := FirstPending(steps[1..]);
      if rest.None? then None else Some(rest.value + 1)
  }
}
