/**
 * The first-run onboarding dialog: a four-step wizard that collects a short
 * profile, turns it into the user's background text in the settings, and
 * records in local storage that onboarding is done.
 */
module Onboarding {
  import opened Wrappers
  import opened Text
  import opened SettingsStore

  datatype Step = Welcome | Profile | Goals | Complete

  const Steps: seq<Step> := [Welcome, Profile, Goals, Complete]

  /** `steps.indexOf(step)`. */
  function StepIndex(s: Step): (i: nat)
    ensures i < |Steps| && Steps[i] == s
  {
    match s
    case Welcome => 0
    case Profile => 1
    case Goals => 2
    case Complete => 3
  }

  /** handleNext: the following step, or the same step at the last one. */
  function NextStep(s: Step): (r: Step)
    ensures StepIndex(s) < |Steps| - 1 ==> StepIndex(r) == StepIndex(s) + 1
    ensures StepIndex(s) == |Steps| - 1 ==> r == s
  {
    var i := StepIndex(s);
    if i < |Steps| - 1 then Steps[i + 1] else s
  }

  /** The step the Back button leads to; only the profile and goals steps have one. */
  function BackTarget(s: Step): (r: Option<Step>)
    ensures r.Some? <==> s == Profile || s == Goals
    ensures r.Some? ==> StepIndex(r.value) + 1 == StepIndex(s)
  {
    match s
    case Profile => Some(Welcome)
    case Goals => Some(Profile)
    case _ => None
  }

  /** Back undoes Next wherever there is a Back button. */
  lemma BackUndoesNext(s: Step)
    requires BackTarget(s).Some?
    ensures NextStep(BackTarget(s).value) == s
  {
  }

  /** Three presses of Next lead from any step to the last one, which Next keeps. */
  lemma NextReachesComplete(s: Step)
    ensures NextStep(NextStep(NextStep(s))) == Complete
    ensures NextStep(Complete) == Complete
  {
  }

  // ---------------------------------------------------------------------
  // The background text
  // ---------------------------------------------------------------------

  datatype Form = Form(name: string, title: string, company: string, background: string, goals: string)

  const EmptyForm := Form("", "", "", "", "")

  /** `value ? text : ""`. */
  function Part(value: string, text: string): string
  {
    if value != "" then text else ""
  }

  /**
   * The template literal before `.trim()`: a newline, then each field's
   * part followed by a newline, then the closing indentation.
   */
  function RawBackground(f: Form): string
  {
    "\n" + NamePart(f)
  }

  function NamePart(f: Form): string
  {
    Part(f.name, "Name: " + f.name) + ("\n" + TitlePart(f))
  }

  function TitlePart(f: Form): string
  {
    Part(f.title, "Title: " + f.title) + ("\n" + CompanyPart(f))
  }

  function CompanyPart(f: Form): string
  {
    Part(f.company, "Company: " + f.company) + ("\n" + BackgroundPart(f))
  }

  function BackgroundPart(f: Form): string
  {
    Part(f.background, "\nBackground:\n" + f.background) + ("\n" + GoalsPart(f))
  }

  function GoalsPart(f: Form): string
  {
    Part(f.goals, "\nGoals:\n" + f.goals) + "\n    "
  }

  function BuildBackground(f: Form): string
  {
    JsTrim(RawBackground(f))
  }

  /** The label of the first field that is filled in, which opens the text. */
  function FirstLabel(f: Form): (r: Option<string>)
    ensures r.None? <==> f == EmptyForm
  {
    if f.name != "" then Some("Name:")
    else if f.title != "" then Some("Title:")
    else if f.company != "" then Some("Company:")
    else if f.background != "" then Some("Background:")
    else if f.goals != "" then Some("Goals:")
    else None
  }

  /** A leading newline does not survive trimming. */
  lemma TrimSkipsNewline(x: string)
    ensures JsTrim("\n" + x) == JsTrim(x)
  {
    TrimLeftSkipsSpaces("\n", x, IsJsSpace);
  }

  /** A label that starts and ends in non-space and opens the text survives trimming. */
  lemma LabelOpens(word: string, more: string, rest: string)
    requires word != [] && !IsJsSpace(word[0]) && !IsJsSpace(word[|word| - 1])
    ensures word <= JsTrim((word + more) + rest)
  {
    var x := word + (more + rest);
    assert (word + more) + rest == x;
    assert x[0] == word[0];
    assert TrimLeft(x, IsJsSpace) == x;
    TrimRightKeepsHead(word, more + rest, IsJsSpace);
  }

  /** A part of the form `word + " " + value` opens with `word`. */
  lemma SpacedLabelOpens(word: string, spaced: string, value: string, rest: string)
    requires word != [] && !IsJsSpace(word[0]) && !IsJsSpace(word[|word| - 1])
    requires spaced == word + " "
    ensures word <= JsTrim((spaced + value) + rest)
  {
    assert spaced + value == word + (" " + value);
    LabelOpens(word, " " + value, rest);
  }

  /** A part of the form `"\n" + word + more` opens with `word` once trimmed. */
  lemma BrokenLabelOpens(word: string, broken: string, more: string, rest: string)
    requires word != [] && !IsJsSpace(word[0]) && !IsJsSpace(word[|word| - 1])
    requires broken == "\n" + word + "\n"
    ensures word <= JsTrim((broken + more) + rest)
  {
    var tail := (word + ("\n" + more)) + rest;
    assert (broken + more) + rest == "\n" + tail;
    TrimSkipsNewline(tail);
    LabelOpens(word, "\n" + more, rest);
  }

  lemma NameOpens(f: Form)
    requires f.name != ""
    ensures "Name:" <= JsTrim(NamePart(f))
  {
    SpacedLabelOpens("Name:", "Name: ", f.name, "\n" + TitlePart(f));
  }

  lemma TitleOpens(f: Form)
    requires f.title != ""
    ensures "Title:" <= JsTrim(TitlePart(f))
  {
    SpacedLabelOpens("Title:", "Title: ", f.title, "\n" + CompanyPart(f));
  }

  lemma CompanyOpens(f: Form)
    requires f.company != ""
    ensures "Company:" <= JsTrim(CompanyPart(f))
  {
    SpacedLabelOpens("Company:", "Company: ", f.company, "\n" + BackgroundPart(f));
  }

  lemma BackgroundLabelOpens(f: Form)
    requires f.background != ""
    ensures "Background:" <= JsTrim(BackgroundPart(f))
  {
    BrokenLabelOpens("Background:", "\nBackground:\n", f.background, "\n" + GoalsPart(f));
  }

  lemma GoalsOpens(f: Form)
    requires f.goals != ""
    ensures "Goals:" <= JsTrim(GoalsPart(f))
  {
    BrokenLabelOpens("Goals:", "\nGoals:\n", f.goals, "\n    ");
  }

  /** An empty field leaves only its newline, which trimming removes. */
  lemma EmptyPartVanishes(value: string, text: string, rest: string)
    requires value == ""
    ensures JsTrim(Part(value, text) + ("\n" + rest)) == JsTrim(rest)
  {
    assert Part(value, text) + ("\n" + rest) == "\n" + rest;
    TrimSkipsNewline(rest);
  }

  lemma EmptyPartsVanish(f: Form)
    ensures f.name == "" ==> JsTrim(NamePart(f)) == JsTrim(TitlePart(f))
    ensures f.title == "" ==> JsTrim(TitlePart(f)) == JsTrim(CompanyPart(f))
    ensures f.company == "" ==> JsTrim(CompanyPart(f)) == JsTrim(BackgroundPart(f))
    ensures f.background == "" ==> JsTrim(BackgroundPart(f)) == JsTrim(GoalsPart(f))
  {
    if f.name == "" {
      EmptyPartVanishes(f.name, "Name: " + f.name, TitlePart(f));
    }
    if f.title == "" {
      EmptyPartVanishes(f.title, "Title: " + f.title, CompanyPart(f));
    }
    if f.company == "" {
      EmptyPartVanishes(f.company, "Company: " + f.company, BackgroundPart(f));
    }
    if f.background == "" {
      EmptyPartVanishes(f.background, "\nBackground:\n" + f.background, GoalsPart(f));
    }
  }

  /** The built text opens with the label of the first filled-in field. */
  lemma BackgroundOpensWithFirstLabel(f: Form)
    requires FirstLabel(f).Some?
    ensures FirstLabel(f).value <= BuildBackground(f)
  {
    TrimSkipsNewline(NamePart(f));
    EmptyPartsVanish(f);
    if f.name != "" {
      NameOpens(f);
    } else if f.title != "" {
      TitleOpens(f);
    } else if f.company != "" {
      CompanyOpens(f);
    } else if f.background != "" {
      BackgroundLabelOpens(f);
    } else {
      GoalsOpens(f);
    }
  }

  /** The built text is empty exactly when every field is. */
  lemma BackgroundEmptyIff(f: Form)
    ensures BuildBackground(f) == "" <==> f == EmptyForm
  {
    if f == EmptyForm {
      TrimSkipsNewline(NamePart(f));
      EmptyPartsVanish(f);
      var closing := "\n    ";
      assert GoalsPart(f) == closing;
      assert AllChars(closing, IsJsSpace);
      TrimEmptyIff(closing, IsJsSpace);
    } else {
      BackgroundOpensWithFirstLabel(f);
    }
  }

  // ---------------------------------------------------------------------
  // The dialog
  // ---------------------------------------------------------------------

  const CompletedKey := "unghost-onboarding-completed"

  datatype Field = NameField | TitleField | CompanyField | BackgroundField | GoalsField

  function WithField(f: Form, field: Field, value: string): (r: Form)
    ensures field == NameField ==> r == f.(name := value)
    ensures field == TitleField ==> r == f.(title := value)
    ensures field == CompanyField ==> r == f.(company := value)
    ensures field == BackgroundField ==> r == f.(background := value)
    ensures field == GoalsField ==> r == f.(goals := value)
  {
    match field
    case NameField => f.(name := value)
    case TitleField => f.(title := value)
    case CompanyField => f.(company := value)
    case BackgroundField => f.(background := value)
    case GoalsField => f.(goals := value)
  }

  /** The dialog's state; `completed` is the local-storage entry under the completion key. */
  class Dialog {
    var open: bool
    var step: Step
    var form: Form
    var completed: Option<string>
    const store: Store

    constructor(store: Store, completed: Option<string>)
      ensures this.store == store && this.completed == completed
      ensures !open && step == Welcome && form == EmptyForm
    {
      this.store := store;
      this.completed := completed;
      open := false;
      step := Welcome;
      form := EmptyForm;
    }

    /** The auto-open condition: an empty background and no truthy completion entry. */
    predicate WouldAutoOpen()
      reads this, store
    {
      store.state.general.userBackground == "" && (completed.None? || completed == Some(""))
    }

    /** The effect on the stored background. */
    method AutoOpen()
      modifies this
      ensures open == (old(open) || old(WouldAutoOpen()))
      ensures step == old(step) && form == old(form) && completed == old(completed)
    {
      if store.state.general.userBackground == "" {
        var hasSeen := completed;
        if hasSeen.None? || hasSeen == Some("") {
          open := true;
        }
      }
    }

    /** `window.triggerOnboarding()`: forget completion, open, back to the start. */
    method Trigger()
      modifies this
      ensures completed.None? && open && step == Welcome && form == old(form)
    {
      completed := None;
      open := true;
      step := Welcome;
    }

    method HandleNext()
      modifies this
      ensures step == NextStep(old(step))
      ensures open == old(open) && form == old(form) && completed == old(completed)
    {
      var i := StepIndex(step);
      if i < |Steps| - 1 {
        step := Steps[i + 1];
      }
    }

    /** The Back button, where the current step has one. */
    method Back()
      modifies this
      ensures step == GetOr(BackTarget(old(step)), old(step))
      ensures open == old(open) && form == old(form) && completed == old(completed)
    {
      match step
      case Profile => step := Welcome;
      case Goals => step := Profile;
      case _ =>
    }

    method UpdateField(field: Field, value: string)
      modifies this
      ensures form == WithField(old(form), field, value)
      ensures open == old(open) && step == old(step) && completed == old(completed)
    {
      form := WithField(form, field, value);
    }

    /** Skip: record completion and close; the settings are not touched. */
    method HandleSkip()
      modifies this
      ensures completed == Some("true") && !open
      ensures step == old(step) && form == old(form)
      ensures !WouldAutoOpen()
    {
      completed := Some("true");
      open := false;
    }

    /** Finish: store the built background, save, record completion and close. */
    method HandleComplete()
      modifies this, store
      ensures store.state == old(store.state).(general := old(store.state).general.(userBackground := BuildBackground(old(form))))
      ensures store.stored == Some(Document(Serialize(store.state)))
      ensures completed == Some("true") && !open
      ensures step == old(step) && form == old(form)
      ensures !WouldAutoOpen()
    {
      var background := BuildBackground(form);
      store.ChangeSettings(store.state.(general := store.state.general.(userBackground := background)));
      store.SaveSettings();
      completed := Some("true");
      open := false;
    }

    /** The Escape key acts as skip while the dialog is open. */
    method Escape()
      modifies this
      ensures old(open) ==> completed == Some("true") && !open
      ensures !old(open) ==> completed == old(completed) && open == old(open)
      ensures step == old(step) && form == old(form)
    {
      if open {
        HandleSkip();
      }
    }

    /** Dismissing the dialog acts as skip; any other open change just opens it. */
    method OnOpenChange(newOpen: bool)
      modifies this
      ensures !newOpen ==> completed == Some("true") && !open
      ensures newOpen ==> completed == old(completed) && open
      ensures step == old(step) && form == old(form)
    {
      if !newOpen {
        HandleSkip();
      } else {
        open := newOpen;
      }
    }
  }
}
