/**
 * The chat input box: what submitting does (cancel, send or nothing) and the
 * prompt-enhancement button with its guard and its busy and animation flags.
 */
module InputBox {
  import opened Wrappers
  import opened Text
  import opened SettingsStore
  import opened TemplatesDialog
  import opened MessageListView

  datatype Resource = Resource(uri: string, title: string)

  /** What a submit hands to the chat. */
  datatype SubmitAction =
    | Cancel
    | Send(message: string, interruptFeedback: Option<string>, resources: seq<Resource>)
    | Ignore

  /** The request sent to the prompt enhancer. */
  datatype EnhanceRequest = EnhanceRequest(prompt: string, reportStyle: string)

  /** How the enhancer call ended. */
  datatype EnhanceOutcome = Enhanced(prompt: string) | EnhanceFailed

  class Box {
    var isEnhancing: bool
    var isEnhanceAnimating: bool
    var currentPrompt: string
    var content: string
    var selectedTemplate: Option<Selection>
    /** The feedback option the user is answering, owned by the chat and removed through it. */
    var feedback: Option<FeedbackOption>

    constructor(feedback: Option<FeedbackOption>)
      ensures !isEnhancing && !isEnhanceAnimating && currentPrompt == "" && content == ""
      ensures selectedTemplate.None? && this.feedback == feedback
    {
      isEnhancing := false;
      isEnhanceAnimating := false;
      currentPrompt := "";
      content := "";
      selectedTemplate := None;
      this.feedback := feedback;
    }

    /** Typing: the input's text is tracked as the current prompt. */
    method Type(text: string)
      modifies this
      ensures content == text && currentPrompt == text
      ensures isEnhancing == old(isEnhancing) && isEnhanceAnimating == old(isEnhanceAnimating)
      ensures selectedTemplate == old(selectedTemplate) && feedback == old(feedback)
    {
      content := text;
      currentPrompt := text;
    }

    method SelectTemplate(t: Option<Selection>)
      modifies this
      ensures selectedTemplate == t
      ensures isEnhancing == old(isEnhancing) && isEnhanceAnimating == old(isEnhanceAnimating)
      ensures currentPrompt == old(currentPrompt) && content == old(content) && feedback == old(feedback)
    {
      selectedTemplate := t;
    }

    /**
     * handleSendMessage: while a reply streams, submit cancels; a blank
     * message does nothing; otherwise the message goes out with the
     * feedback's value, and the feedback, the template and the animation
     * are cleared (only when there is a receiver for it).
     */
    method HandleSendMessage(message: string, resources: seq<Resource>, responding: bool, hasOnSend: bool)
      returns (action: SubmitAction)
      modifies this
      ensures responding ==> action == Cancel
      ensures !responding && JsTrim(message) == "" ==> action == Ignore
      ensures !responding && JsTrim(message) != "" && !hasOnSend ==> action == Ignore
      ensures !responding && JsTrim(message) != "" && hasOnSend ==>
                action == Send(message, if old(feedback).Some? then Some(old(feedback).value.value) else None, resources)
      ensures action.Send? ==> feedback.None? && !isEnhanceAnimating && selectedTemplate.None?
      ensures !action.Send? ==>
                feedback == old(feedback) && isEnhanceAnimating == old(isEnhanceAnimating)
                && selectedTemplate == old(selectedTemplate)
      ensures isEnhancing == old(isEnhancing) && currentPrompt == old(currentPrompt) && content == old(content)
    {
      if responding {
        return Cancel;
      }
      if JsTrim(message) == "" {
        return Ignore;
      }
      if !hasOnSend {
        return Ignore;
      }
      var interrupt := if feedback.Some? then Some(feedback.value.value) else None;
      action := Send(message, interrupt, resources);
      feedback := None;
      isEnhanceAnimating := false;
      selectedTemplate := None;
    }

    /** The enhance button is disabled while enhancing and while the prompt is blank. */
    predicate EnhanceDisabled()
      reads this
    {
      isEnhancing || JsTrim(currentPrompt) == ""
    }

    /**
     * The synchronous part of handleEnhancePrompt: the guard, then the busy
     * and animation flags, and the request with the upper-cased report style.
     */
    method BeginEnhance(style: ReportStyle) returns (request: Option<EnhanceRequest>)
      modifies this
      ensures request.Some? <==> !old(EnhanceDisabled())
      ensures request.Some? ==> request.value == EnhanceRequest(old(currentPrompt), Upper(StyleName(style)))
      ensures request.Some? ==> isEnhancing && isEnhanceAnimating
      ensures request.None? ==> isEnhancing == old(isEnhancing) && isEnhanceAnimating == old(isEnhanceAnimating)
      ensures currentPrompt == old(currentPrompt) && content == old(content)
      ensures selectedTemplate == old(selectedTemplate) && feedback == old(feedback)
    {
      if JsTrim(currentPrompt) == "" || isEnhancing {
        return None;
      }
      isEnhancing := true;
      isEnhanceAnimating := true;
      request := Some(EnhanceRequest(currentPrompt, Upper(StyleName(style))));
    }

    /**
     * The rest of handleEnhancePrompt once the enhancer answers: a new
     * prompt replaces the input's text when the input is mounted; a failure
     * stops the animation; either way the busy flag is cleared.
     */
    method FinishEnhance(outcome: EnhanceOutcome, hasInput: bool)
      modifies this
      ensures !isEnhancing
      ensures outcome.Enhanced? && hasInput ==> content == outcome.prompt && currentPrompt == outcome.prompt
      ensures !(outcome.Enhanced? && hasInput) ==> content == old(content) && currentPrompt == old(currentPrompt)
      ensures outcome.Enhanced? ==> isEnhanceAnimating == old(isEnhanceAnimating)
      ensures outcome.EnhanceFailed? ==> !isEnhanceAnimating
      ensures selectedTemplate == old(selectedTemplate) && feedback == old(feedback)
    {
      match outcome {
        case Enhanced(text) =>
          if hasInput {
            content := text;
            currentPrompt := text;
          }
        case EnhanceFailed =>
          isEnhanceAnimating := false;
      }
      isEnhancing := false;
    }

    /** The timer started after a successful enhancement ends the animation. */
    method EndAnimation()
      modifies this
      ensures !isEnhanceAnimating
      ensures isEnhancing == old(isEnhancing) && currentPrompt == old(currentPrompt) && content == old(content)
      ensures selectedTemplate == old(selectedTemplate) && feedback == old(feedback)
    {
      isEnhanceAnimating := false;
    }
  }

  /** The enhancer always receives one of the four style names in upper case. */
  lemma EnhanceStyleNames(style: ReportStyle)
    ensures Upper(StyleName(style)) in ["AGGRESSIVE", "CONSERVATIVE", "GO_NUTS", "FRIENDLY"]
  {
    match style
    case Aggressive => UpperIs("aggressive", "AGGRESSIVE");
    case Conservative => UpperIs("conservative", "CONSERVATIVE");
    case GoNuts => UpperIs("go_nuts", "GO_NUTS");
    case Friendly => UpperIs("friendly", "FRIENDLY");
  }
}
