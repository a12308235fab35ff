/**
 * The routing decisions of the workflow's nodes: where the coordinator, the
 * planner and the human-feedback step hand over, how a research step is
 * picked and recorded, and how the agents' recursion limit is read from the
 * environment.  What the language models answer, and what the JSON decoder
 * makes of it, are inputs.
 */
module GraphNodes {
  import opened Wrappers
  import opened Text
  import opened PlannerModel
  import opened GraphBuilder
  import opened TemplateLoader

  // ---------------------------------------------------------------------
  // Shared pieces
  // ---------------------------------------------------------------------

  /** `state["plan_iterations"] if state.get("plan_iterations", 0) else 0`. */
  function Iterations(stored: Option<int>): (r: int)
    ensures stored.None? ==> r == 0
    ensures stored.Some? ==> r == stored.value
  {
    if stored.Some? && stored.value != 0 then stored.value else 0
  }

  /**
   * What decoding a plan's JSON gave: not JSON at all, a JSON object, or
   * JSON of another shape.  For the last, `contained` is what Python's `in`
   * finds in the value (a list's string elements, a string's substrings),
   * and None for a number, a Boolean or null, where `in` raises a TypeError.
   */
  datatype Decoded =
    | NotJson
    | JsonObject(keys: set<string>, hasEnoughContext: bool, selectedTemplateId: Option<string>, locale: Option<string>)
    | JsonOther(contained: Option<set<string>>)

  /** The keys the planner insists on. */
  const RequiredFields: seq<string> := ["locale", "has_enough_context", "thought", "title", "steps"]

  predicate HasRequiredFields(keys: set<string>)
  {
    forall i :: 0 <= i < |RequiredFields| ==> RequiredFields[i] in keys
  }

  /** `a or b` on optional strings: the first truthy one. */
  function OrElse(a: Option<string>, b: Option<string>): (r: Option<string>)
    ensures Truthy(r) <==> Truthy(a) || Truthy(b)
    ensures Truthy(a) ==> r == a
    ensures !Truthy(a) && Truthy(b) ==> r == b
  {
    if Truthy(a) then a else if Truthy(b) then b else None
  }

  /** The chosen template id and, when the library has it, the template itself. */
  datatype TemplateChoice = TemplateChoice(id: Option<string>, template: Option<TemplateRecord>)

  function ChooseTemplate(id: Option<string>, library: seq<TemplateRecord>): (r: TemplateChoice)
    ensures r.id.Some? <==> Truthy(id)
    ensures r.id.Some? ==> r.id == id
    ensures r.template.Some? ==> r.id.Some? && r.template.value in library && r.template.value.templateId == r.id
    ensures r.id.Some? && r.template.None? ==> forall i :: 0 <= i < |library| ==> library[i].templateId != r.id
  {
    if Truthy(id) then TemplateChoice(id, FindById(library, id.value)) else TemplateChoice(None, None)
  }

  // ---------------------------------------------------------------------
  // planner_node
  // ---------------------------------------------------------------------

  /** How the planner's model call ended: it raised, or it answered (as structured output or as text). */
  datatype PlannerAnswer = PlannerRaised | Answered(text: string, structured: bool)

  /** The planner hands over, or raises outside its try block. */
  datatype PlannerCommand =
    | PlannerCommand(goto: Node, planUpdated: bool, template: TemplateChoice)
    | PlannerFailed(error: string)

  /** The answer reached the decoder: the budget is not spent, the call answered, and the text (or its repair) is not blank. */
  predicate ReachesDecoder(stored: Option<int>, maxPlanIterations: int, answer: PlannerAnswer, repaired: string)
  {
    Iterations(stored) < maxPlanIterations && answer.Answered? && PyStrip(answer.text) != ""
    && (answer.structured || PyStrip(repaired) != "")
  }

  /** A non-object that `field not in curr_plan` lets through: a list or string holding every required field name. */
  predicate PassesFieldCheck(decoded: Decoded)
    requires decoded.JsonOther?
  {
    decoded.contained.Some? && HasRequiredFields(decoded.contained.value)
  }

  /** A failed parse: the reporter when some plan iteration has been made, else the end. */
  function FallBack(iterations: int): (n: Node)
    ensures n == Reporter <==> iterations > 0
    ensures n == Reporter || n == End
  {
    if iterations > 0 then Reporter else End
  }

  /**
   * planner_node.  `repaired` is what JSON repair made of a text answer and
   * `decoded` what decoding the answer (or its repair) gave; `configured` is
   * the template id chosen in the front end.
   */
  function PlannerNode(stored: Option<int>, maxPlanIterations: int, answer: PlannerAnswer, repaired: string,
                       decoded: Decoded, configured: Option<string>, library: seq<TemplateRecord>): (c: PlannerCommand)
    ensures c.PlannerCommand? ==> c.goto == HumanFeedback || c.goto == Reporter || c.goto == End
    ensures Iterations(stored) >= maxPlanIterations ==> c.PlannerCommand? && c.goto == Reporter && !c.planUpdated
    ensures c.PlannerFailed? <==>
              ReachesDecoder(stored, maxPlanIterations, answer, repaired) && decoded.JsonOther? && PassesFieldCheck(decoded)
    ensures (c.PlannerCommand? && c.planUpdated) <==>
              ReachesDecoder(stored, maxPlanIterations, answer, repaired)
              && decoded.JsonObject? && HasRequiredFields(decoded.keys)
    ensures (c.PlannerCommand? && c.goto == HumanFeedback) <==>
              c.PlannerCommand? && c.planUpdated && !decoded.hasEnoughContext
    ensures (c.PlannerCommand? && c.planUpdated && decoded.hasEnoughContext) ==>
              c.goto == Reporter && c.template == ChooseTemplate(OrElse(decoded.selectedTemplateId, configured), library)
    ensures (c.PlannerCommand? && !(c.planUpdated && decoded.hasEnoughContext)) ==> c.template == TemplateChoice(None, None)
    ensures (Iterations(stored) < maxPlanIterations && (answer.PlannerRaised? || PyStrip(answer.text) == "")) ==>
              c.PlannerCommand? && c.goto == End
    ensures (ReachesDecoder(stored, maxPlanIterations, answer, repaired)
             && (decoded.NotJson? || (decoded.JsonOther? && !PassesFieldCheck(decoded))
                 || (decoded.JsonObject? && !HasRequiredFields(decoded.keys)))) ==>
              c == PlannerCommand(FallBack(Iterations(stored)), false, TemplateChoice(None, None))
  {
    var iterations := Iterations(stored);
    var none := TemplateChoice(None, None);
    if iterations >= maxPlanIterations then PlannerCommand(Reporter, false, none)
    else if answer.PlannerRaised? || PyStrip(answer.text) == "" then PlannerCommand(End, false, none)
    else if !answer.structured && PyStrip(repaired) == "" then PlannerCommand(End, false, none)
    else if decoded.JsonOther? && PassesFieldCheck(decoded) then PlannerFailed("AttributeError: get")
    else if !decoded.JsonObject? || !HasRequiredFields(decoded.keys) then PlannerCommand(FallBack(iterations), false, none)
    else if decoded.hasEnoughContext then
      PlannerCommand(Reporter, true, ChooseTemplate(OrElse(decoded.selectedTemplateId, configured), library))
    else PlannerCommand(HumanFeedback, true, none)
  }

  /** Once the iteration budget is spent, nothing the model says changes the planner's route. */
  lemma PlannerBudgetIgnoresAnswer(stored: Option<int>, maxPlanIterations: int,
                                   a1: PlannerAnswer, r1: string, d1: Decoded,
                                   a2: PlannerAnswer, r2: string, d2: Decoded,
                                   configured: Option<string>, library: seq<TemplateRecord>)
    requires Iterations(stored) >= maxPlanIterations
    ensures PlannerNode(stored, maxPlanIterations, a1, r1, d1, configured, library)
         == PlannerNode(stored, maxPlanIterations, a2, r2, d2, configured, library)
  {
  }

  /** A plan the model itself picked a template for keeps that template, whatever the front end chose. */
  lemma PlanTemplateOverridesConfigured(stored: Option<int>, maxPlanIterations: int, answer: PlannerAnswer, repaired: string,
                                        decoded: Decoded, configured: Option<string>, library: seq<TemplateRecord>)
    requires decoded.JsonObject? && Truthy(decoded.selectedTemplateId)
    requires PlannerNode(stored, maxPlanIterations, answer, repaired, decoded, configured, library).PlannerCommand?
    requires PlannerNode(stored, maxPlanIterations, answer, repaired, decoded, configured, library).goto == Reporter
    requires PlannerNode(stored, maxPlanIterations, answer, repaired, decoded, configured, library).planUpdated
    ensures PlannerNode(stored, maxPlanIterations, answer, repaired, decoded, configured, library).template.id
            == decoded.selectedTemplateId
  {
  }

  // ---------------------------------------------------------------------
  // human_feedback_node
  // ---------------------------------------------------------------------

  datatype FeedbackCommand = FeedbackCommand(
    goto: Node,
    iterations: Option<int>,
    locale: Option<string>,
    template: TemplateChoice,
    feedbackMessage: Option<string>)

  /** The node either raises (an unsupported reply, a plan without a required key) or hands over. */
  datatype FeedbackResult = Raised(error: string) | Handed(command: FeedbackCommand)

  /** The human reply asks for the plan to be edited. */
  predicate EditRequested(feedback: Option<string>)
  {
    Truthy(feedback) && StartsWith(Upper(feedback.value), "[EDIT_PLAN]")
  }

  predicate Accepted(feedback: Option<string>)
  {
    Truthy(feedback) && StartsWith(Upper(feedback.value), "[ACCEPTED]")
  }

  /**
   * What happens after the plan is accepted, as written: the threshold
   * `plan_iterations > 1` is applied to a count that is incremented only
   * once the plan has been decoded.
   */
  function ProceedAsWritten(iterations: int, plan: Decoded, library: seq<TemplateRecord>): (r: FeedbackResult)
    ensures plan.NotJson? ==>
              r.Handed? && r.command.iterations.None? && (r.command.goto == Reporter <==> iterations > 1)
              && (r.command.goto == Reporter || r.command.goto == End)
    ensures plan.JsonOther? ==>
              r.Handed? && r.command.iterations.None? && (r.command.goto == Reporter <==> iterations > 0)
              && (r.command.goto == Reporter || r.command.goto == End)
    ensures plan.JsonObject? ==> r == Accept(iterations, plan, library)
  {
    match plan
    case NotJson => Handed(FeedbackCommand(if iterations > 1 then Reporter else End, None, None, TemplateChoice(None, None), None))
    case JsonOther(_) => Handed(FeedbackCommand(if iterations + 1 > 1 then Reporter else End, None, None, TemplateChoice(None, None), None))
    case JsonObject(keys, enough, templateId, locale) => Accept(iterations, plan, library)
  }

  /**
   * What happens after the plan is accepted, as intended: an unreadable
   * plan goes to the reporter exactly when a plan iteration was made
   * before, the rule the planner applies.
   */
  function Proceed(iterations: int, plan: Decoded, library: seq<TemplateRecord>): (r: FeedbackResult)
    ensures (plan.NotJson? || plan.JsonOther?) ==>
              r.Handed? && r.command.iterations.None? && (r.command.goto == Reporter <==> iterations > 0)
              && (r.command.goto == Reporter || r.command.goto == End)
  {
    match plan
    case NotJson => Handed(FeedbackCommand(FallBack(iterations), None, None, TemplateChoice(None, None), None))
    case JsonOther(_) => Handed(FeedbackCommand(FallBack(iterations), None, None, TemplateChoice(None, None), None))
    case JsonObject(keys, enough, templateId, locale) => Accept(iterations, plan, library)
  }

  /** A decoded plan: one more iteration, the reporter iff it has enough context, and its locale and template. */
  function Accept(iterations: int, plan: Decoded, library: seq<TemplateRecord>): (r: FeedbackResult)
    requires plan.JsonObject?
    ensures r.Raised? <==> "has_enough_context" !in plan.keys || "locale" !in plan.keys
    ensures r.Handed? ==>
              r.command.iterations == Some(iterations + 1)
              && (r.command.goto == Reporter <==> plan.hasEnoughContext)
              && (r.command.goto == ResearchTeam <==> !plan.hasEnoughContext)
              && r.command.locale == plan.locale
              && r.command.template == ChooseTemplate(plan.selectedTemplateId, library)
  {
    if "has_enough_context" !in plan.keys then Raised("KeyError: has_enough_context")
    else if "locale" !in plan.keys then Raised("KeyError: locale")
    else
      Handed(FeedbackCommand(if plan.hasEnoughContext then Reporter else ResearchTeam, Some(iterations + 1),
                             plan.locale, ChooseTemplate(plan.selectedTemplateId, library), None))
  }

  /**
   * human_feedback_node: unless the plan is accepted automatically, the
   * human reply decides (edit, accept, or an error), and an accepted
   * plan proceeds as the code is written.
   */
  function HumanFeedbackNode(autoAccepted: bool, feedback: Option<string>, stored: Option<int>,
                             plan: Decoded, library: seq<TemplateRecord>): (r: FeedbackResult)
    ensures !autoAccepted && EditRequested(feedback) ==>
              r == Handed(FeedbackCommand(Planner, None, None, TemplateChoice(None, None), feedback))
    ensures !autoAccepted && !EditRequested(feedback) && !Accepted(feedback) ==> r.Raised?
    ensures autoAccepted || (!EditRequested(feedback) && Accepted(feedback)) ==> r == ProceedAsWritten(Iterations(stored), plan, library)
    ensures r.Handed? ==> r.command.goto in {Planner, ResearchTeam, Reporter, End}
  {
    if !autoAccepted && EditRequested(feedback) then
      Handed(FeedbackCommand(Planner, None, None, TemplateChoice(None, None), feedback))
    else if !autoAccepted && !Accepted(feedback) then
      Raised("TypeError: unsupported interrupt value")
    else
      ProceedAsWritten(Iterations(stored), plan, library)
  }

  /** Accepting a plan counts exactly one more iteration. */
  lemma AcceptanceCountsOneIteration(autoAccepted: bool, feedback: Option<string>, stored: Option<int>,
                                     plan: Decoded, library: seq<TemplateRecord>)
    requires autoAccepted || (Accepted(feedback) && !EditRequested(feedback))
    requires HumanFeedbackNode(autoAccepted, feedback, stored, plan, library).Handed?
    requires HumanFeedbackNode(autoAccepted, feedback, stored, plan, library).command.iterations.Some?
    ensures HumanFeedbackNode(autoAccepted, feedback, stored, plan, library).command.iterations == Some(Iterations(stored) + 1)
  {
  }

  /** Any reply that upper-cases to the accept marker accepts the plan and asks for no edit. */
  lemma MarkersIgnoreCase(feedback: string)
    requires Upper(feedback) == "[ACCEPTED]"
    ensures Accepted(Some(feedback)) && !EditRequested(Some(feedback))
  {
    var u := Upper(feedback);
    assert u[..10] == u;
    assert |"[EDIT_PLAN]"| > |u|;
  }

  /** A reply of "[accepted]" in lower case accepts the plan. */
  lemma LowerCaseAcceptance()
    ensures Accepted(Some("[accepted]")) && !EditRequested(Some("[accepted]"))
  {
    UpperIs("[accepted]", "[ACCEPTED]");
    MarkersIgnoreCase("[accepted]");
  }

  /** The unreadable-plan discrepancy: one earlier iteration and an undecodable plan. */
  lemma UnreadablePlanAfterOneIteration(library: seq<TemplateRecord>)
    ensures ProceedAsWritten(1, NotJson, library).command.goto == End
    ensures Proceed(1, NotJson, library).command.goto == Reporter
  {
  }

  /** Apart from an undecodable plan, the code as written and as intended agree. */
  lemma ProceedAgreesOnDecodablePlans(iterations: int, plan: Decoded, library: seq<TemplateRecord>)
    requires !plan.NotJson?
    ensures ProceedAsWritten(iterations, plan, library) == Proceed(iterations, plan, library)
  {
  }

  /** The node itself shows the discrepancy: an accepted undecodable plan after one iteration ends the workflow. */
  lemma FeedbackNodeEndsOnUnreadablePlan(feedback: Option<string>, library: seq<TemplateRecord>)
    ensures HumanFeedbackNode(true, feedback, Some(1), NotJson, library).command.goto == End
    ensures Proceed(Iterations(Some(1)), NotJson, library).command.goto == Reporter
  {
  }

  /** On every plan that is JSON, the node as written already follows the intended rule. */
  lemma FeedbackNodeIntendedOnDecodablePlans(autoAccepted: bool, feedback: Option<string>, stored: Option<int>,
                                             plan: Decoded, library: seq<TemplateRecord>)
    requires autoAccepted || (!EditRequested(feedback) && Accepted(feedback))
    requires !plan.NotJson?
    ensures HumanFeedbackNode(autoAccepted, feedback, stored, plan, library) == Proceed(Iterations(stored), plan, library)
  {
    ProceedAgreesOnDecodablePlans(Iterations(stored), plan, library);
  }

  // ---------------------------------------------------------------------
  // coordinator_node
  // ---------------------------------------------------------------------

  /** A tool call: its name and its arguments, either of which may be missing. */
  datatype ToolCall = ToolCall(name: Option<string>, args: Option<map<string, string>>)

  function Arg(call: ToolCall, key: string): Option<string>
  {
    if call.args.Some? && key in call.args.value then Some(call.args.value[key]) else None
  }

  /** A hand-off to the planner that names both a locale and a research topic. */
  predicate CompleteHandoff(call: ToolCall)
  {
    GetOr(call.name, "") == "handoff_to_planner" && Truthy(Arg(call, "locale")) && Truthy(Arg(call, "research_topic"))
  }

  /** The position of the first complete hand-off. */
  function FirstHandoff(calls: seq<ToolCall>): (r: Option<nat>)
    ensures r.None? <==> forall i :: 0 <= i < |calls| ==> !CompleteHandoff(calls[i])
    ensures r.Some? ==> r.value < |calls| && CompleteHandoff(calls[r.value])
                        && forall i :: 0 <= i < r.value ==> !CompleteHandoff(calls[i])
  {
    if calls == [] then None
    else if CompleteHandoff(calls[0]) then Some(0)
    else
      var rest := FirstHandoff(calls[1..]);
      if rest.None? then None else Some(rest.value + 1)
  }

  datatype CoordinatorCommand = CoordinatorCommand(goto: Node, locale: string, researchTopic: string, userBackground: Option<string>)

  /**
   * coordinator_node: without tool calls the workflow ends; with any, it
   * goes to the background investigation when that is enabled and to the
   * planner otherwise.  Locale and topic come from the first complete
   * hand-off, else from the state ("en-US" and "" when absent there).
   */
  method CoordinatorNode(calls: seq<ToolCall>, enableBackgroundInvestigation: bool,
                         stateLocale: Option<string>, stateTopic: Option<string>, configuredBackground: string)
    returns (c: CoordinatorCommand)
    ensures calls == [] ==> c.goto == End
    ensures calls != [] ==> c.goto == (if enableBackgroundInvestigation then BackgroundInvestigator else Planner)
    ensures FirstHandoff(calls).Some? ==>
              c.locale == Arg(calls[FirstHandoff(calls).value], "locale").value
              && c.researchTopic == Arg(calls[FirstHandoff(calls).value], "research_topic").value
    ensures FirstHandoff(calls).None? ==> c.locale == GetOr(stateLocale, "en-US") && c.researchTopic == GetOr(stateTopic, "")
    ensures c.userBackground.Some? <==> configuredBackground != ""
    ensures c.userBackground.Some? ==> c.userBackground.value == configuredBackground
  {
    var goto := End;
    var locale := GetOr(stateLocale, "en-US");
    var topic := GetOr(stateTopic, "");
    var background := if configuredBackground != "" then Some(configuredBackground) else None;
    if |calls| > 0 {
      goto := Planner;
      if enableBackgroundInvestigation {
        goto := BackgroundInvestigator;
      }
      var i := 0;
      while i < |calls|
        invariant 0 <= i <= |calls|
        invariant forall j :: 0 <= j < i ==> !CompleteHandoff(calls[j])
        invariant locale == GetOr(stateLocale, "en-US") && topic == GetOr(stateTopic, "")
      {
        var call := calls[i];
        if GetOr(call.name, "") == "handoff_to_planner" && Truthy(Arg(call, "locale")) && Truthy(Arg(call, "research_topic")) {
          HandoffIsFirst(calls, i);
          locale := Arg(call, "locale").value;
          topic := Arg(call, "research_topic").value;
          break;
        }
        i := i + 1;
      }
    }
    c := CoordinatorCommand(goto, locale, topic, background);
  }

  lemma HandoffIsFirst(calls: seq<ToolCall>, i: nat)
    requires i < |calls| && CompleteHandoff(calls[i])
    requires forall j :: 0 <= j < i ==> !CompleteHandoff(calls[j])
    ensures FirstHandoff(calls) == Some(i)
  {
  }

  // ---------------------------------------------------------------------
  // Recursion limit
  // ---------------------------------------------------------------------

  predicate IsDigitOrUnderscore(c: char) { IsAsciiDigit(c) || c == '_' }

  /** Python's decimal integer literal: digits, with single underscores allowed between digits. */
  predicate IsPyDigits(s: string)
  {
    |s| >= 1 && IsAsciiDigit(s[0]) && IsAsciiDigit(s[|s| - 1]) && AllChars(s, IsDigitOrUnderscore)
    && forall i :: 0 <= i < |s| - 1 ==> !(s[i] == '_' && s[i + 1] == '_')
  }

  function DropUnderscores(s: string): (r: string)
    requires AllChars(s, IsDigitOrUnderscore)
    ensures AllChars(r, IsAsciiDigit)
    ensures AllChars(s, IsAsciiDigit) ==> r == s
  {
    if s == [] then []
    else
      assert AllChars(s[1..], IsDigitOrUnderscore);
      if s[0] == '_' then DropUnderscores(s[1..]) else [s[0]] + DropUnderscores(s[1..])
  }

  /** Python `int(s)` in base 10: surrounding white space, an optional sign, then the digits. */
  function PyInt(s: string): (r: Option<int>)
    ensures r.Some? ==> PyStrip(s) != [] && IsPyDigits(if PyStrip(s)[0] == '+' || PyStrip(s)[0] == '-' then PyStrip(s)[1..] else PyStrip(s))
  {
    var t := PyStrip(s);
    if t == [] then None
    else
      var negative := t[0] == '-';
      var body := if t[0] == '+' || t[0] == '-' then t[1..] else t;
      if !IsPyDigits(body) then None
      else
        var magnitude := DecimalValue(DropUnderscores(body)) as int;
        Some(if negative then -magnitude else magnitude)
  }

  const DefaultRecursionLimit: nat := 25

  /** The agents' recursion limit: the environment's value when it reads as a positive integer, else 25. */
  function RecursionLimit(env: Option<string>): (r: int)
    ensures r > 0
    ensures PyInt(GetOr(env, "25")).Some? && PyInt(GetOr(env, "25")).value > 0 ==> r == PyInt(GetOr(env, "25")).value
    ensures !(PyInt(GetOr(env, "25")).Some? && PyInt(GetOr(env, "25")).value > 0) ==> r == DefaultRecursionLimit
  {
    var parsed := PyInt(GetOr(env, "25"));
    if parsed.Some? && parsed.value > 0 then parsed.value else DefaultRecursionLimit
  }

  lemma PyIntOfNumeral(n: nat)
    ensures PyInt(NatToString(n)) == Some(n)
  {
    var r := NatToString(n);
    TrimOfDigits(r);
    DigitsArePyDigits(r);
  }

  lemma DigitsArePyDigits(r: string)
    requires |r| >= 1 && AllChars(r, IsAsciiDigit)
    ensures IsPyDigits(r) && DropUnderscores(r) == r
    ensures r[0] != '+' && r[0] != '-'
  {
    assert IsAsciiDigit(r[0]) && IsAsciiDigit(r[|r| - 1]);
    assert forall i :: 0 <= i < |r| - 1 ==> r[i] != '_';
  }

  lemma TrimOfDigits(r: string)
    requires |r| >= 1 && AllChars(r, IsAsciiDigit)
    ensures PyStrip(r) == r
  {
    NoSpaceTrim(r);
  }

  lemma NoSpaceTrim(r: string)
    requires |r| >= 1 && !IsPySpace(r[0]) && !IsPySpace(r[|r| - 1])
    ensures PyStrip(r) == r
  {
    TrimEnds(r, IsPySpace);
  }

  /** A positive number in the environment is taken as it is. */
  lemma RecursionLimitOfNumeral(n: nat)
    requires n > 0
    ensures RecursionLimit(Some(NatToString(n))) == n
  {
    PyIntOfNumeral(n);
  }

  /** Without the variable, and with zero, the default applies. */
  lemma RecursionLimitDefaults()
    ensures RecursionLimit(None) == 25
    ensures RecursionLimit(Some("0")) == 25
  {
    PyIntOfNumeral(25);
    assert NatToString(25) == "25";
    PyIntOfNumeral(0);
    assert NatToString(0) == "0";
  }

  /** Text that is not a number gives the default. */
  lemma RecursionLimitOfWord(word: string)
    requires |word| >= 1 && !IsPySpace(word[0]) && !IsPySpace(word[|word| - 1])
    requires word[0] != '+' && word[0] != '-' && !IsAsciiDigit(word[0])
    ensures RecursionLimit(Some(word)) == 25
  {
    NoSpaceTrim(word);
  }

  // ---------------------------------------------------------------------
  // _execute_agent_step
  // ---------------------------------------------------------------------

  /** How the agent's run ended: its last message, or the error it raised. */
  datatype AgentOutcome = Replied(content: string) | Failed(error: string)

  function ResultText(outcome: AgentOutcome): string
  {
    match outcome
    case Replied(content) => content
    case Failed(error) => "Agent execution failed due to: " + error + ". This is likely a tool configuration issue."
  }

  datatype AgentMessage = AgentMessage(name: string, content: string)

  /** One completed step in the findings handed to the agent. */
  function Finding(i: nat, s: Step): string
  {
    "## Existing Finding " + NatToString(i + 1) + ": " + s.title + "\n\n"
    + ("<finding>\n" + GetOr(s.executionRes, "None") + "\n</finding>\n\n")
  }

  /** The findings of the first |completed| steps, numbered from one. */
  function Findings(completed: seq<Step>): string
  {
    if completed == [] then "" else Findings(completed[..|completed| - 1]) + Finding(|completed| - 1, completed[|completed| - 1])
  }

  const FindingsHeader := "# Existing Research Findings\n\n"

  function FindingsText(completed: seq<Step>): (r: string)
    ensures r == "" <==> completed == []
  {
    if completed == [] then "" else FindingsHeader + Findings(completed)
  }

  /** The task message the agent receives. */
  function TaskMessage(completed: seq<Step>, current: Step, locale: string): string
  {
    FindingsText(completed) + "# Current Task\n\n## Title\n\n" + current.title
    + ("\n\n## Description\n\n" + current.description + "\n\n## Locale\n\n" + locale)
  }

  /** The step executed: its result recorded. */
  function Completed(steps: seq<Step>, k: nat, result: string): (r: seq<Step>)
    requires k < |steps|
    ensures |r| == |steps| && r[k].executionRes == Some(result)
    ensures forall i :: 0 <= i < |steps| && i != k ==> r[i] == steps[i]
  {
    steps[k := steps[k].(executionRes := Some(result))]
  }

  /** Recording a non-empty result moves the first pending step further on. */
  lemma ExecutionAdvances(steps: seq<Step>, result: string)
    requires FirstPending(steps).Some? && result != ""
    ensures var k := FirstPending(steps).value;
            var next := FirstPending(Completed(steps, k, result));
            next.None? || next.value > k
  {
    var k := FirstPending(steps).value;
    var after := Completed(steps, k, result);
    assert Done(after[k]);
    assert forall i :: 0 <= i < k ==> after[i] == steps[i];
  }

  /** An empty result leaves the same step pending, so the router sends it out again. */
  lemma EmptyResultRepeatsStep(steps: seq<Step>)
    requires FirstPending(steps).Some?
    ensures FirstPending(Completed(steps, FirstPending(steps).value, "")) == FirstPending(steps)
  {
    var k := FirstPending(steps).value;
    var after := Completed(steps, k, "");
    FirstPendingIsFirst(after, k);
  }

  lemma FindingsStep(completed: seq<Step>, i: nat, text: string)
    requires i < |completed| && text == Findings(completed[..i])
    ensures text + Finding(i, completed[i]) == Findings(completed[..i + 1])
  {
    assert completed[..i + 1][..i] == completed[..i];
  }

  /** The state the research steps work on: the plan's steps, the observations and the message log. */
  class ResearchState {
    var steps: seq<Step>
    var observations: seq<string>
    var messages: seq<AgentMessage>

    constructor(steps: seq<Step>, observations: seq<string>)
      ensures this.steps == steps && this.observations == observations && messages == []
    {
      this.steps := steps;
      this.observations := observations;
      messages := [];
    }

    /**
     * _execute_agent_step: find the first step without a result, hand the
     * agent the findings of the steps before it, record what the agent
     * returned (or the error) on that step, and add it to the observations.
     * Without a pending step nothing changes.
     */
    method ExecuteAgentStep(agentName: string, locale: string, outcome: AgentOutcome)
      returns (goto: Node, task: Option<string>)
      modifies this
      ensures goto == ResearchTeam
      ensures FirstPending(old(steps)).None? ==>
                task.None? && steps == old(steps) && observations == old(observations) && messages == old(messages)
      ensures FirstPending(old(steps)).Some? ==>
                var k := FirstPending(old(steps)).value;
                task == Some(TaskMessage(old(steps)[..k], old(steps)[k], locale))
                && steps == Completed(old(steps), k, ResultText(outcome))
                && observations == old(observations) + [ResultText(outcome)]
                && messages == old(messages) + [AgentMessage(agentName, ResultText(outcome))]
    {
      var current: Option<nat> := None;
      var completed: seq<Step> := [];
      var i := 0;
      while i < |steps|
        invariant 0 <= i <= |steps|
        invariant completed == steps[..i]
        invariant forall j :: 0 <= j < i ==> Done(steps[j])
      {
        if !Done(steps[i]) {
          current := Some(i);
          break;
        }
        completed := completed + [steps[i]];
        i := i + 1;
      }
      if current.None? {
        assert AllDone(steps);
        return ResearchTeam, None;
      }
      var k := current.value;
      FirstPendingIsFirst(steps, k);
      var info := CompletedStepsInfo(completed);
      task := Some(info + "# Current Task\n\n## Title\n\n" + steps[k].title
                   + ("\n\n## Description\n\n" + steps[k].description + "\n\n## Locale\n\n" + locale));
      var result := ResultText(outcome);
      steps := Completed(steps, k, result);
      observations := observations + [result];
      messages := messages + [AgentMessage(agentName, result)];
      goto := ResearchTeam;
    }
  }

  /** The findings text, built a step at a time. */
  method CompletedStepsInfo(completed: seq<Step>) returns (info: string)
    ensures info == FindingsText(completed)
  {
    if completed == [] {
      return "";
    }
    var findings := "";
    var i := 0;
    while i < |completed|
      invariant 0 <= i <= |completed|
      invariant findings == Findings(completed[..i])
    {
      FindingsStep(completed, i, findings);
      findings := findings + Finding(i, completed[i]);
      i := i + 1;
    }
    assert completed[..i] == completed;
    info := FindingsHeader + findings;
  }
}
