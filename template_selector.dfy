/**
 * The back end's template selector: picks the best-scoring template for a
 * prospect's context, lists a template's `{{placeholders}}`, fills them in,
 * and prepares the short list the user interface shows.
 */
module TemplateSelector {
  import opened Wrappers
  import opened Text
  import opened Seqs
  import opened TemplateLoader

  /** The prospect context; a key counts when it is present with a non-empty value. */
  type Context = map<string, string>

  predicate Has(ctx: Context, key: string)
  {
    key in ctx && ctx[key] != ""
  }

  predicate Given(s: Option<string>)
  {
    s.Some? && s.value != ""
  }

  function PromptOf(t: TemplateRecord): string
  {
    GetOr(t.promptTemplate, "")
  }

  /** Whether the use-case query earns the bonus for this template. */
  predicate UseCaseBonus(t: TemplateRecord, useCase: Option<string>)
  {
    Given(useCase) && UseCaseMentions(useCase.value)(t)
  }

  function Point(b: bool): nat
  {
    if b then 1 else 0
  }

  /**
   * One point for each of the name, company, topic and community
   * placeholders the prompt has and the context can fill, and two for a
   * use-case match.
   */
  function Score(t: TemplateRecord, ctx: Context, useCase: Option<string>): (r: nat)
    ensures r <= 6
    ensures UseCaseBonus(t, useCase) ==> r >= 2
    ensures !UseCaseBonus(t, useCase) ==> r <= 4
    ensures r == 0 <==>
              !UseCaseBonus(t, useCase)
              && !(Contains(PromptOf(t), "{{name}}") && Has(ctx, "recipient_name"))
              && !(Contains(PromptOf(t), "{{company}}") && Has(ctx, "recipient_company"))
              && !(Contains(PromptOf(t), "{{topic}}") && Has(ctx, "recent_activity"))
              && !(Contains(PromptOf(t), "{{community}}") && Has(ctx, "shared_communities"))
  {
    var p := PromptOf(t);
    Point(Contains(p, "{{name}}") && Has(ctx, "recipient_name"))
    + Point(Contains(p, "{{company}}") && Has(ctx, "recipient_company"))
    + Point(Contains(p, "{{topic}}") && Has(ctx, "recent_activity"))
    + Point(Contains(p, "{{community}}") && Has(ctx, "shared_communities"))
    + (if UseCaseBonus(t, useCase) then 2 else 0)
  }

  /**
   * The templates scored: every template, replaced by the tone matches when
   * there are any, then by the use-case matches when there are any (both
   * filters start from the whole library).
   */
  function Candidates(all: seq<TemplateRecord>, tone: Option<string>, useCase: Option<string>): seq<TemplateRecord>
  {
    var byTone := if Given(tone) then Filter(all, ToneIs(tone.value)) else [];
    var afterTone := if byTone != [] then byTone else all;
    var byUseCase := if Given(useCase) then Filter(all, UseCaseMentions(useCase.value)) else [];
    if byUseCase != [] then byUseCase else afterTone
  }

  /** The candidates are drawn from the library in order, and there are some whenever the library has any. */
  lemma CandidatesFromLibrary(all: seq<TemplateRecord>, tone: Option<string>, useCase: Option<string>)
    ensures IsSubsequence(Candidates(all, tone, useCase), all)
    ensures all != [] ==> Candidates(all, tone, useCase) != []
  {
    SubsequenceRefl(all);
  }

  /** When some template matches the use case, the preferred tone has no effect on the candidates. */
  lemma UseCaseOverridesTone(all: seq<TemplateRecord>, tone1: Option<string>, tone2: Option<string>, useCase: Option<string>)
    requires Given(useCase) && Filter(all, UseCaseMentions(useCase.value)) != []
    ensures Candidates(all, tone1, useCase) == Candidates(all, tone2, useCase)
  {
  }

  /** The template at `k` has the highest score and no earlier template reaches it. */
  predicate FirstBestBy(ts: seq<TemplateRecord>, score: TemplateRecord -> int, k: nat)
  {
    k < |ts|
    && (forall j :: 0 <= j < |ts| ==> score(ts[j]) <= score(ts[k]))
    && (forall j :: 0 <= j < k ==> score(ts[j]) < score(ts[k]))
  }

  function ScoreIn(ctx: Context, useCase: Option<string>): TemplateRecord -> int
  {
    t => Score(t, ctx, useCase)
  }

  predicate FirstBest(ts: seq<TemplateRecord>, ctx: Context, useCase: Option<string>, k: nat)
  {
    FirstBestBy(ts, ScoreIn(ctx, useCase), k)
  }

  /**
   * select_best_template: no template when the library is empty or every
   * candidate scores zero; otherwise the first candidate with the top score.
   * Logging the choice reads its "template_id", which raises a KeyError when
   * the chosen record has none.
   */
  method SelectBestTemplate(loader: Loader, ctx: Context, tone: Option<string>, useCase: Option<string>)
    returns (r: Result<Option<TemplateRecord>>)
    ensures loader.templates == [] ==> r == Success(None)
    ensures var cs := Candidates(loader.templates, tone, useCase);
            r == Success(None) <==> forall j :: 0 <= j < |cs| ==> Score(cs[j], ctx, useCase) == 0
    ensures var cs := Candidates(loader.templates, tone, useCase);
            r.Success? && r.value.Some? ==>
              r.value.value.templateId.Some?
              && exists k: nat :: FirstBest(cs, ctx, useCase, k) && r.value.value == cs[k] && Score(cs[k], ctx, useCase) > 0
    ensures var cs := Candidates(loader.templates, tone, useCase);
            r.Failure? ==>
              r.error == "KeyError: 'template_id'"
              && exists k: nat :: FirstBest(cs, ctx, useCase, k) && cs[k].templateId.None? && Score(cs[k], ctx, useCase) > 0
  {
    var all := loader.templates;
    if all == [] {
      return Success(None);
    }
    var templates := all;
    if Given(tone) {
      var filtered := Filter(all, ToneIs(tone.value));
      if filtered != [] {
        templates := filtered;
      }
    }
    if Given(useCase) {
      var filtered := Filter(all, UseCaseMentions(useCase.value));
      if filtered != [] {
        templates := filtered;
      }
    }
    assert templates == Candidates(all, tone, useCase);
    var best := BestOf(templates, ctx, useCase);
    if best.Some? && best.value.templateId.None? {
      return Failure("KeyError: 'template_id'");
    }
    return Success(best);
  }

  /** The scoring loop: the first template whose score beats every earlier one and is not beaten later. */
  method BestOf(templates: seq<TemplateRecord>, ctx: Context, useCase: Option<string>) returns (best: Option<TemplateRecord>)
    ensures best.None? <==> forall j :: 0 <= j < |templates| ==> Score(templates[j], ctx, useCase) == 0
    ensures best.Some? ==> exists k: nat :: FirstBest(templates, ctx, useCase, k) && best.value == templates[k]
                             && Score(templates[k], ctx, useCase) > 0
  {
    best := BestBy(templates, ScoreIn(ctx, useCase));
  }

  /** The same loop for any scoring of the templates that never goes below zero. */
  method BestBy(templates: seq<TemplateRecord>, score: TemplateRecord -> int) returns (best: Option<TemplateRecord>)
    requires forall j :: 0 <= j < |templates| ==> score(templates[j]) >= 0
    ensures best.None? <==> forall j :: 0 <= j < |templates| ==> score(templates[j]) == 0
    ensures best.Some? ==> exists k: nat :: FirstBestBy(templates, score, k) && best.value == templates[k]
                             && score(templates[k]) > 0
  {
    best := None;
    var bestScore := 0;
    ghost var bestIndex := 0;
    var i := 0;
    while i < |templates|
      invariant 0 <= i <= |templates|
      invariant best.None? ==> bestScore == 0 && forall j :: 0 <= j < i ==> score(templates[j]) == 0
      invariant best.Some? ==> bestIndex < i && best.value == templates[bestIndex]
                                && bestScore == score(templates[bestIndex]) && bestScore > 0
                                && (forall j :: 0 <= j < i ==> score(templates[j]) <= bestScore)
                                && (forall j :: 0 <= j < bestIndex ==> score(templates[j]) < bestScore)
    {
      var s := score(templates[i]);
      if s > bestScore {
        bestScore := s;
        best := Some(templates[i]);
        bestIndex := i;
      }
      i := i + 1;
    }
    if best.Some? {
      assert FirstBestBy(templates, score, bestIndex);
    }
  }

  // ---------------------------------------------------------------------
  // Placeholders
  // ---------------------------------------------------------------------

  /** The length of the longest prefix of word characters. */
  function WordRun(s: string): (n: nat)
    ensures n <= |s| && AllChars(s[..n], IsWordChar)
    ensures n < |s| ==> !IsWordChar(s[n])
  {
    if s != [] && IsWordChar(s[0]) then
      var n := 1 + WordRun(s[1..]);
      assert s[..n] == [s[0]] + s[1..][..n - 1];
      n
    else 0
  }

  function Placeholder(name: string): string
  {
    "{{" + name + "}}"
  }

  /** `{{name}}` with a non-empty name of word characters occurs at position p. */
  predicate PlaceholderAt(s: string, p: nat, name: string)
  {
    |name| >= 1 && AllChars(name, IsWordChar) && OccursAt(s, Placeholder(name), p)
  }

  /** The name the expression `\{\{(\w+)\}\}` captures at p, if it matches there. */
  function MatchAt(s: string, p: nat): (r: Option<string>)
    requires p <= |s|
    ensures r.Some? ==> PlaceholderAt(s, p, r.value)
    ensures r.None? ==> forall name :: !PlaceholderAt(s, p, name)
  {
    if p + 2 <= |s| && s[p..p + 2] == "{{" then
      var n := WordRun(s[p + 2..]);
      var name := s[p + 2..p + 2 + n];
      if n >= 1 && p + 4 + n <= |s| && s[p + 2 + n..p + 4 + n] == "}}" then
        assert name == s[p + 2..][..n];
        assert s[p..p + |Placeholder(name)|] == Placeholder(name);
        Some(name)
      else
        NoPlaceholderAt(s, p, n);
        None
    else
      assert forall name :: PlaceholderAt(s, p, name) ==> s[p..p + 2] == Placeholder(name)[..2];
      None
  }

  lemma NoPlaceholderAt(s: string, p: nat, n: nat)
    requires p + 2 <= |s| && n == WordRun(s[p + 2..])
    requires !(n >= 1 && p + 4 + n <= |s| && s[p + 2 + n..p + 4 + n] == "}}")
    ensures forall name :: !PlaceholderAt(s, p, name)
  {
    forall name | PlaceholderAt(s, p, name)
      ensures false
    {
      PlaceholderNameIsRun(s, p, name);
    }
  }

  /** A placeholder's name is the whole run of word characters after its braces. */
  lemma PlaceholderNameIsRun(s: string, p: nat, name: string)
    requires PlaceholderAt(s, p, name)
    ensures WordRun(s[p + 2..]) == |name| && s[p + 2..p + 2 + |name|] == name
  {
    var t := s[p + 2..];
    var ph := Placeholder(name);
    assert s[p..p + |ph|] == ph;
    forall k | 0 <= k < |name|
      ensures t[k] == name[k]
    {
      assert s[p + 2 + k] == ph[2 + k];
    }
    assert t[|name|] == s[p + 2 + |name|] == ph[2 + |name|] == '}';
    WordRunIsPrefix(t, |name|);
  }

  lemma {:induction false} WordRunIsPrefix(t: string, n: nat)
    requires n < |t| && AllChars(t[..n], IsWordChar) && !IsWordChar(t[n])
    ensures WordRun(t) == n
  {
    if n > 0 {
      assert t[1..][..n - 1] == t[1..n];
      WordRunIsPrefix(t[1..], n - 1);
    }
  }

  /** The names matched at positions from `from` on. */
  function VariablesFrom(s: string, from: nat): set<string>
    requires from <= |s|
    decreases |s| - from
  {
    var rest := if from == |s| then {} else VariablesFrom(s, from + 1);
    var here := MatchAt(s, from);
    if here.Some? then {here.value} + rest else rest
  }

  /** A name is collected exactly when a placeholder for it starts at one of the positions scanned. */
  lemma {:induction false} VariablesFromSpec(s: string, from: nat, name: string)
    requires from <= |s|
    ensures name in VariablesFrom(s, from) <==> exists p :: from <= p <= |s| && PlaceholderAt(s, p, name)
    decreases |s| - from
  {
    if from < |s| {
      VariablesFromSpec(s, from + 1, name);
    }
    if PlaceholderAt(s, from, name) {
      PlaceholderNameIsRun(s, from, name);
    }
    if MatchAt(s, from) == Some(name) {
      assert PlaceholderAt(s, from, name);
    }
  }

  /** get_template_variables: the distinct placeholder names of the template's prompt. */
  function TemplateVariables(t: TemplateRecord): (r: set<string>)
    ensures forall name :: name in r <==> exists p :: 0 <= p <= |PromptOf(t)| && PlaceholderAt(PromptOf(t), p, name)
    ensures forall name :: name in r ==> |name| >= 1 && AllChars(name, IsWordChar)
  {
    var r := VariablesFrom(PromptOf(t), 0);
    assert forall name :: name in r <==> exists p :: 0 <= p <= |PromptOf(t)| && PlaceholderAt(PromptOf(t), p, name) by {
      forall name
        ensures name in r <==> exists p :: 0 <= p <= |PromptOf(t)| && PlaceholderAt(PromptOf(t), p, name)
      {
        VariablesFromSpec(PromptOf(t), 0, name);
      }
    }
    r
  }

  /** The text after each (name, value) pair in turn has replaced every `{{name}}` by its value. */
  function Filled(text: string, values: seq<(string, string)>): string
    decreases |values|
  {
    if values == [] then text
    else Filled(ReplaceAll(text, Placeholder(values[0].0), values[0].1), values[1..])
  }

  /** fill_template: the replacements are made one key after the other, in the order given. */
  method FillTemplate(t: TemplateRecord, values: seq<(string, string)>) returns (text: string)
    ensures text == Filled(PromptOf(t), values)
  {
    text := PromptOf(t);
    var i := 0;
    while i < |values|
      invariant 0 <= i <= |values|
      invariant Filled(text, values[i..]) == Filled(PromptOf(t), values)
    {
      var (key, value) := values[i];
      assert values[i..][1..] == values[i + 1..];
      text := ReplaceAll(text, Placeholder(key), value);
      i := i + 1;
    }
  }

  lemma PlaceholderHasBraces(s: string, name: string)
    requires Contains(s, Placeholder(name))
    ensures Contains(s, "{{")
  {
    var i :| 0 <= i <= |s| - |Placeholder(name)| && OccursAt(s, Placeholder(name), i);
    assert s[i..i + 2] == Placeholder(name)[..2];
    assert OccursAt(s, "{{", i);
  }

  /** A prompt without any `{{` is left as it is, whatever values are given. */
  lemma {:induction false} FilledWithoutPlaceholders(text: string, values: seq<(string, string)>)
    requires !Contains(text, "{{")
    ensures Filled(text, values) == text
    decreases |values|
  {
    if values != [] {
      var ph := Placeholder(values[0].0);
      if Contains(text, ph) {
        PlaceholderHasBraces(text, values[0].0);
      }
      ReplaceAbsent(text, ph, values[0].1);
      FilledWithoutPlaceholders(text, values[1..]);
    }
  }

  /** With no values the template's prompt comes back unchanged. */
  lemma FillWithNothing(t: TemplateRecord)
    ensures Filled(PromptOf(t), []) == PromptOf(t)
  {
  }

  // ---------------------------------------------------------------------
  // The list shown in the user interface
  // ---------------------------------------------------------------------

  datatype UiTemplate = UiTemplate(id: Option<string>, labelText: string, tone: Option<string>, useCase: Option<string>, preview: string)

  /** Python's `str()` of an optional string: "None" when it is missing. */
  function PyStr(s: Option<string>): string
  {
    GetOr(s, "None")
  }

  function Take(s: string, n: nat): (r: string)
    ensures |r| == (if |s| < n then |s| else n) && r <= s
  {
    if |s| <= n then s else s[..n]
  }

  /** A template's entry: its id, "use case - tone", and the first hundred characters of its prompt. */
  function UiEntry(t: TemplateRecord): (r: UiTemplate)
    ensures r.id == t.templateId && r.tone == t.tone && r.useCase == t.useCase
    ensures r.labelText == PyStr(t.useCase) + " - " + PyStr(t.tone)
    ensures |r.preview| == (if |PromptOf(t)| < 100 then |PromptOf(t)| else 100) + 3
    ensures r.preview[..|r.preview| - 3] <= PromptOf(t) && r.preview[|r.preview| - 3..] == "..."
  {
    var head := Take(PromptOf(t), 100);
    var preview := head + "...";
    assert preview[..|preview| - 3] == head;
    UiTemplate(t.templateId, PyStr(t.useCase) + " - " + PyStr(t.tone), t.tone, t.useCase, preview)
  }

  /** get_templates_for_ui: one entry per template, in library order. */
  method GetTemplatesForUi(loader: Loader) returns (ui: seq<UiTemplate>)
    ensures |ui| == |loader.templates|
    ensures forall i :: 0 <= i < |ui| ==> ui[i] == UiEntry(loader.templates[i])
  {
    var templates := loader.templates;
    ui := [];
    var i := 0;
    while i < |templates|
      invariant 0 <= i <= |templates|
      invariant |ui| == i && forall j :: 0 <= j < i ==> ui[j] == UiEntry(templates[j])
    {
      ui := ui + [UiEntry(templates[i])];
      i := i + 1;
    }
  }
}
