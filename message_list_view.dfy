/**
 * The chat message list: which card each message renders as, the research
 * card's status line and open/close button, the report card's fallback, the
 * plan card's title, thinking state and feedback buttons, and the loading
 * indicator under the list.
 */
module MessageListView {
  import opened Wrappers
  import opened Text

  /** A feedback option offered with an interrupt, such as "Edit plan" / "accepted". */
  datatype FeedbackOption = FeedbackOption(text: string, value: string)

  /** A chat message; an undefined `content` is the empty string, which is falsy either way. */
  datatype Message = Message(
    id: string,
    role: string,
    agent: Option<string>,
    content: string,
    isStreaming: bool,
    reasoningContent: string,
    options: Option<seq<FeedbackOption>>)

  // ---------------------------------------------------------------------
  // Which card a message renders as
  // ---------------------------------------------------------------------

  datatype Item = PlanItem | ReportItem | PodcastItem | ResearchItem | BubbleItem | NoItem

  predicate HasAgent(m: Message, name: string)
  {
    m.agent == Some(name)
  }

  /** The messages the list shows at all: user turns, the four visible agents, research starts. */
  predicate Shown(m: Message, startOfResearch: bool)
  {
    m.role == "user" || HasAgent(m, "coordinator") || HasAgent(m, "planner")
    || HasAgent(m, "reporter") || HasAgent(m, "podcast") || startOfResearch
  }

  /**
   * MessageListItem: a planner message is a plan card, then reporter, podcast,
   * research start, and otherwise a bubble if there is content to show.
   */
  function ItemFor(message: Option<Message>, researchIds: seq<string>, messageId: string): (r: Item)
    ensures r != NoItem ==> message.Some? && Shown(message.value, messageId in researchIds)
    ensures message.Some? && HasAgent(message.value, "planner") ==> r == PlanItem
    ensures r == BubbleItem <==>
              message.Some? && message.value.content != ""
              && (message.value.role == "user" || HasAgent(message.value, "coordinator"))
              && !HasAgent(message.value, "planner") && !HasAgent(message.value, "reporter")
              && !HasAgent(message.value, "podcast") && messageId !in researchIds
  {
    if message.None? then NoItem
    else
      var m := message.value;
      var startOfResearch := messageId in researchIds;
      if !Shown(m, startOfResearch) then NoItem
      else if HasAgent(m, "planner") then PlanItem
      else if HasAgent(m, "reporter") then ReportItem
      else if HasAgent(m, "podcast") then PodcastItem
      else if startOfResearch then ResearchItem
      else if m.content != "" then BubbleItem
      else NoItem
  }

  /** A message that is shown renders something unless it is an empty user or coordinator turn. */
  lemma ShownMessagesRender(m: Message, researchIds: seq<string>)
    requires Shown(m, m.id in researchIds)
    ensures (ItemFor(Some(m), researchIds, m.id) == NoItem)
              <==> (m.content == "" && m.id !in researchIds
                    && !HasAgent(m, "planner") && !HasAgent(m, "reporter") && !HasAgent(m, "podcast"))
  {
  }

  /** The spinner under the list: while responding, unless the ongoing research is the open one. */
  function ShowLoading(responding: bool, ongoingResearchId: Option<string>, openResearchId: Option<string>): (r: bool)
    ensures r <==> responding && !(ongoingResearchId.Some? && ongoingResearchId == openResearchId)
  {
    var noOngoingResearch := ongoingResearchId.None?;
    var ongoingResearchIsOpen := ongoingResearchId == openResearchId;
    responding && (noOngoingResearch || !ongoingResearchIsOpen)
  }

  // ---------------------------------------------------------------------
  // The heading expression /#\s+(.+)$/m used for card titles
  // ---------------------------------------------------------------------

  /** `s[p+1..c]` is a non-empty run of spaces after a '#' at `p`, and `s[c]` can start the capture. */
  predicate CaptureAt(s: string, p: int, c: int)
  {
    0 <= p && p + 1 < c < |s| && s[p] == '#' && AllChars(s[p + 1..c], IsJsSpace) && !IsLineTerminator(s[c])
  }

  /** The greedy `\s+`: the largest capture start `c <= top` after the '#' at `p`. */
  function GreedyStart(s: string, p: int, top: int): (r: Option<int>)
    requires 0 <= p && p + 1 <= top < |s| && s[p] == '#' && AllChars(s[p + 1..top], IsJsSpace)
    ensures r.Some? ==> CaptureAt(s, p, r.value) && r.value <= top
    ensures r.Some? ==> forall c :: r.value < c <= top ==> !CaptureAt(s, p, c)
    ensures r.None? ==> forall c :: c <= top ==> !CaptureAt(s, p, c)
    decreases top
  {
    if top <= p + 1 then None
    else if !IsLineTerminator(s[top]) then Some(top)
    else
      assert s[p + 1..top - 1] == s[p + 1..top][..top - p - 2];
      GreedyStart(s, p, top - 1)
  }

  /** The end of the space run that starts at `i`. */
  function SpacesEnd(s: string, i: nat): (e: nat)
    requires i <= |s|
    ensures i <= e <= |s| && AllChars(s[i..e], IsJsSpace) && (e < |s| ==> !IsJsSpace(s[e]))
    decreases |s| - i
  {
    if i < |s| && IsJsSpace(s[i]) then
      var e := SpacesEnd(s, i + 1);
      assert s[i..e] == [s[i]] + s[i + 1..e];
      e
    else i
  }

  /** No capture can start after the space run, since `s[p+1..c]` must be spaces. */
  lemma CaptureWithinRun(s: string, p: nat, c: int)
    requires p < |s| && CaptureAt(s, p, c)
    ensures c <= SpacesEnd(s, p + 1)
  {
  }

  /** Where the capture for a '#' at `p` starts, if the expression matches there. */
  function MatchAt(s: string, p: nat): (r: Option<int>)
    requires p < |s|
    ensures r.Some? ==> CaptureAt(s, p, r.value) && forall c :: r.value < c ==> !CaptureAt(s, p, c)
    ensures r.None? ==> forall c :: !CaptureAt(s, p, c)
  {
    if s[p] != '#' || p + 2 >= |s| then None
    else
      var e := SpacesEnd(s, p + 1);
      var top := if e < |s| then e else |s| - 1;
      var run, spaces := s[p + 1..top], s[p + 1..e];
      forall k | 0 <= k < |run|
        ensures IsJsSpace(run[k])
      {
        assert run[k] == spaces[k];
      }
      forall c | CaptureAt(s, p, c) ensures c <= top {
        CaptureWithinRun(s, p, c);
      }
      GreedyStart(s, p, top)
  }

  /** `exec` from position `from`: the leftmost '#' where the expression matches. */
  function ExecFrom(s: string, from: nat): (r: Option<(int, int)>)
    ensures r.Some? ==> var (p, c) := r.value;
              from <= p && CaptureAt(s, p, c) && forall c' :: c < c' ==> !CaptureAt(s, p, c')
    ensures r.Some? ==> forall q, c' :: from <= q < r.value.0 ==> !CaptureAt(s, q, c')
    ensures r.None? ==> forall q, c' :: from <= q ==> !CaptureAt(s, q, c')
    decreases |s| - from
  {
    if from >= |s| then None
    else
      var m := MatchAt(s, from);
      if m.Some? then Some((from, m.value)) else ExecFrom(s, from + 1)
  }

  /** The trimmed capture of /#\s+(.+)$/m on the content, if it matches anywhere. */
  function HeadingTitle(content: string): (r: Option<string>)
    ensures r.None? <==> forall q, c :: !CaptureAt(content, q, c)
  {
    var m := ExecFrom(content, 0);
    if m.None? then None
    else
      var (p, c) := m.value;
      Some(JsTrim(content[c..LineEnd(content, c)]))
  }

  /** The capture ends at the end of its line, so the title never spans two lines. */
  lemma HeadingTitleIsOneLine(content: string)
    requires HeadingTitle(content).Some?
    ensures forall k :: 0 <= k < |HeadingTitle(content).value| ==> !IsLineTerminator(HeadingTitle(content).value[k])
  {
    var (p, c) := ExecFrom(content, 0).value;
    var e := LineEnd(content, c);
    var line := content[c..e];
    assert forall k :: 0 <= k < |line| ==> line[k] == content[c + k];
    var t := JsTrim(line);
    TrimIsInfix(line, IsJsSpace);
    var i := |line| - |TrimLeft(line, IsJsSpace)|;
    assert forall k :: 0 <= k < |t| ==> t[k] == line[i + k];
  }

  // ---------------------------------------------------------------------
  // Research card
  // ---------------------------------------------------------------------

  /** The status line under a research card. */
  function ResearchStatus(hasReport: bool, reportGenerating: bool): (r: string)
    ensures r == "Researching..." <==> !hasReport
    ensures r == "Report generated" <==> hasReport && !reportGenerating
    ensures r == "Generating report..." <==> hasReport && reportGenerating
  {
    if hasReport then (if reportGenerating then "Generating report..." else "Report generated")
    else "Researching..."
  }

  /** The title keeps animating until the report is complete. */
  lemma AnimatedUntilReportDone(hasReport: bool, reportGenerating: bool)
    ensures (ResearchStatus(hasReport, reportGenerating) != "Report generated")
              <==> (!hasReport || reportGenerating)
  {
  }

  /** The research message's heading, or "Deep Research" when there is none or it is blank. */
  function ResearchTitle(researchMessage: Option<Message>): (r: string)
    ensures researchMessage.None? ==> r == "Deep Research"
    ensures r != "Deep Research" ==> researchMessage.Some? && HeadingTitle(researchMessage.value.content) == Some(r)
    ensures (researchMessage.Some? && HeadingTitle(researchMessage.value.content).Some?
             && HeadingTitle(researchMessage.value.content).value != "")
            ==> r == HeadingTitle(researchMessage.value.content).value
    ensures (researchMessage.Some? && (HeadingTitle(researchMessage.value.content).None?
             || HeadingTitle(researchMessage.value.content).value == ""))
            ==> r == "Deep Research"
  {
    if researchMessage.None? then "Deep Research"
    else
      var t := HeadingTitle(researchMessage.value.content);
      if t.Some? && t.value != "" then t.value else "Deep Research"
  }

  datatype ResearchAction = CloseResearch | OpenResearch(researchId: string)

  /** handleOpen: the open research is closed, any other one is opened. */
  function ToggleResearch(openResearchId: Option<string>, researchId: string): ResearchAction
  {
    if openResearchId == Some(researchId) then CloseResearch else OpenResearch(researchId)
  }

  function ButtonLabel(openResearchId: Option<string>, researchId: string): string
  {
    if Some(researchId) != openResearchId then "Open" else "Close"
  }

  /** The button says what a click does: "Close" exactly when the click closes this research. */
  lemma ButtonLabelMatchesAction(openResearchId: Option<string>, researchId: string)
    ensures ButtonLabel(openResearchId, researchId) == "Close" <==> ToggleResearch(openResearchId, researchId) == CloseResearch
    ensures ButtonLabel(openResearchId, researchId) == "Open" <==> ToggleResearch(openResearchId, researchId) == OpenResearch(researchId)
  {
  }

  /** The filled button style is used while no research is open at all; an empty id is falsy, so it counts as none. */
  function ButtonVariant(openResearchId: Option<string>): (r: string)
    ensures r == "default" <==> openResearchId.None? || openResearchId.value == ""
    ensures r == "default" || r == "outline"
  {
    if openResearchId.None? || openResearchId.value == "" then "default" else "outline"
  }

  // ---------------------------------------------------------------------
  // Report card
  // ---------------------------------------------------------------------

  /** The sections the report card pulls out of the report. */
  datatype ReportParts = ReportParts(
    summary: string, profile: string, strategy: string, outreach: string, nextSteps: string, sources: string)

  datatype ReportCardView = RawReport(content: string) | TabbedReport(title: string, parts: ReportParts)

  /** Without a summary, profile, strategy or message the raw report is shown instead of the tabs. */
  function ReportCard(content: string, parts: ReportParts): (r: ReportCardView)
    ensures r.RawReport? <==> parts.summary == "" && parts.profile == "" && parts.strategy == "" && parts.outreach == ""
    ensures r.RawReport? ==> r.content == content
    ensures r.TabbedReport? ==> r.parts == parts
    ensures r.TabbedReport? ==> r.title == "Outreach Report" || Some(r.title) == HeadingTitle(content)
    ensures (r.TabbedReport? && HeadingTitle(content).Some? && HeadingTitle(content).value != "")
            ==> r.title == HeadingTitle(content).value
    ensures (r.TabbedReport? && (HeadingTitle(content).None? || HeadingTitle(content).value == ""))
            ==> r.title == "Outreach Report"
  {
    if parts.summary == "" && parts.profile == "" && parts.strategy == "" && parts.outreach == "" then
      RawReport(content)
    else
      var t := HeadingTitle(content);
      TabbedReport(if t.Some? && t.value != "" then t.value else "Outreach Report", parts)
  }

  // ---------------------------------------------------------------------
  // Plan card
  // ---------------------------------------------------------------------

  function PlanTitle(planTitle: Option<string>, isStreaming: bool): (r: string)
    ensures planTitle.Some? && planTitle.value != "" ==> r == planTitle.value
    ensures (planTitle.None? || planTitle.value == "") ==>
              r == (if isStreaming then "Generating Outreach Plan..." else "Outreach Plan")
  {
    if planTitle.Some? && planTitle.value != "" then planTitle.value
    else if isStreaming then "Generating Outreach Plan..."
    else "Outreach Plan"
  }

  /** The plan body is shown as soon as the content has any non-space character. */
  predicate HasMainContent(m: Message)
  {
    m.content != "" && JsTrim(m.content) != ""
  }

  /** Reasoning without any plan text yet: the thought block is still streaming. */
  predicate IsThinking(m: Message)
  {
    m.reasoningContent != "" && !HasMainContent(m)
  }

  /** The card never shows the thinking state and the plan body at once. */
  lemma ThinkingExcludesPlan(m: Message)
    ensures !(IsThinking(m) && HasMainContent(m))
    ensures HasMainContent(m) <==> !AllChars(m.content, IsJsSpace)
  {
    TrimEmptyIff(m.content, IsJsSpace);
  }

  /** What the card footer holds. */
  datatype Footer = FeedbackButtons(options: seq<FeedbackOption>) | StrayZero | EmptyFooter

  /**
   * `{!isStreaming && interruptMessage?.options?.length && (...)}` as written:
   * with an empty option list the expression is the number 0, which React prints.
   */
  function FooterAsWritten(m: Message, interruptMessage: Option<Message>): (r: Footer)
    ensures r.FeedbackButtons? <==> !m.isStreaming && interruptMessage.Some?
                                    && interruptMessage.value.options.Some? && |interruptMessage.value.options.value| > 0
  {
    if m.isStreaming || interruptMessage.None? || interruptMessage.value.options.None? then EmptyFooter
    else if |interruptMessage.value.options.value| == 0 then StrayZero
    else FeedbackButtons(interruptMessage.value.options.value)
  }

  /** An idle plan with an interrupt whose option list is empty: the footer shows a literal 0. */
  lemma EmptyOptionsPrintZero(m: Message, interrupt: Message)
    requires !m.isStreaming && interrupt.options == Some([])
    ensures FooterAsWritten(m, Some(interrupt)) == StrayZero
  {
  }

  /** The intended footer: the option buttons when idle and offered, otherwise nothing. */
  function PlanFooter(m: Message, interruptMessage: Option<Message>): (r: Footer)
    ensures !r.StrayZero?
    ensures r.FeedbackButtons? <==> !m.isStreaming && interruptMessage.Some?
                                    && interruptMessage.value.options.Some? && |interruptMessage.value.options.value| > 0
    ensures r.FeedbackButtons? ==> r.options == interruptMessage.value.options.value
  {
    if !m.isStreaming && interruptMessage.Some? && interruptMessage.value.options.Some?
       && |interruptMessage.value.options.value| > 0
    then FeedbackButtons(interruptMessage.value.options.value)
    else EmptyFooter
  }

  /** The two footers differ only where the written one prints the stray 0. */
  lemma FooterCorrectionIsLocal(m: Message, interruptMessage: Option<Message>)
    ensures (FooterAsWritten(m, interruptMessage) != StrayZero)
              ==> (FooterAsWritten(m, interruptMessage) == PlanFooter(m, interruptMessage))
  {
  }

  const Greetings: seq<string> := ["Cool", "Sounds great", "Looks good", "Great", "Awesome"]

  /** The message sent on "Start drafting"; the two random choices are parameters. */
  function AcceptMessage(greeting: nat, longForm: bool): (r: string)
    requires greeting < |Greetings|
    ensures Greetings[greeting] + "! " <= r
  {
    Greetings[greeting] + "! " + (if longForm then "Let's get started." else "Let's start.")
  }

  function OptionLabel(option: FeedbackOption): string
  {
    if option.value == "accepted" then "Start drafting" else option.text
  }

  datatype ClickEffect = SendMessage(message: string, interruptFeedback: string) | SendFeedback(option: FeedbackOption) | NoEffect

  /**
   * A click on an option button. "accepted" sends a greeting carrying the
   * "accepted" interrupt feedback; any other option is handed to onFeedback.
   */
  function OptionClick(option: FeedbackOption, hasOnSend: bool, hasOnFeedback: bool, greeting: nat, longForm: bool): (r: ClickEffect)
    requires greeting < |Greetings|
    ensures r.SendMessage? ==> option.value == "accepted" && r.interruptFeedback == "accepted"
    ensures r.SendFeedback? ==> option.value != "accepted" && r.option == option
    ensures r.NoEffect? <==> (if option.value == "accepted" then !hasOnSend else !hasOnFeedback)
  {
    if option.value == "accepted" then
      if hasOnSend then SendMessage(AcceptMessage(greeting, longForm), "accepted") else NoEffect
    else if hasOnFeedback then SendFeedback(option)
    else NoEffect
  }

  /** The buttons only react for the message that is waiting for feedback. */
  function ButtonsDisabled(waitingForFeedbackMessageId: Option<string>, messageId: string): (r: bool)
    ensures r <==> waitingForFeedbackMessageId != Some(messageId)
  {
    !(waitingForFeedbackMessageId == Some(messageId))
  }

  /** The accepted option is always labelled "Start drafting", and clicking it never reports plain feedback. */
  lemma AcceptedOptionStartsDrafting(option: FeedbackOption, hasOnSend: bool, hasOnFeedback: bool, greeting: nat, longForm: bool)
    requires greeting < |Greetings| && option.value == "accepted"
    ensures OptionLabel(option) == "Start drafting"
    ensures !OptionClick(option, hasOnSend, hasOnFeedback, greeting, longForm).SendFeedback?
  {
  }
}
