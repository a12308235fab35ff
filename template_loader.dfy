/**
 * The back end's outreach template library: templates loaded from a JSON
 * file (or none, when the file is missing or unreadable), looked up by id,
 * filtered by tone and by use case, and summarised for the planner prompt.
 */
module TemplateLoader {
  import opened Wrappers
  import opened Text
  import opened Seqs

  /** A template as read from the file: each key may be missing. */
  datatype TemplateRecord = TemplateRecord(
    templateId: Option<string>,
    tone: Option<string>,
    useCase: Option<string>,
    hookType: Option<string>,
    ctaType: Option<string>,
    promptTemplate: Option<string>)

  /** What reading the template file gave. */
  datatype LoadOutcome = FileMissing | LoadFailed | Loaded(records: seq<TemplateRecord>)

  /** The first template whose id is `id` (see FindByIdFirst for "first"). */
  function FindById(ts: seq<TemplateRecord>, id: string): (r: Option<TemplateRecord>)
    ensures r.Some? ==> r.value in ts && r.value.templateId == Some(id)
    ensures r.None? <==> forall i :: 0 <= i < |ts| ==> ts[i].templateId != Some(id)
  {
    if ts == [] then None
    else if ts[0].templateId == Some(id) then Some(ts[0])
    else FindById(ts[1..], id)
  }

  function ToneIs(tone: string): TemplateRecord -> bool
  {
    (t: TemplateRecord) => Lower(GetOr(t.tone, "")) == Lower(tone)
  }

  function UseCaseMentions(useCase: string): TemplateRecord -> bool
  {
    (t: TemplateRecord) => Contains(Lower(GetOr(t.useCase, "")), Lower(useCase))
  }

  const SummaryHeader := "Available Outreach Templates:\n\n"

  function Dashes(n: nat): (r: string)
    ensures |r| == n && forall i :: 0 <= i < n ==> r[i] == '-'
  {
    if n == 0 then "" else Dashes(n - 1) + "-"
  }

  /** A field's value, or "N/A" when the key is missing. */
  function OrNA(v: Option<string>): string
  {
    GetOr(v, "N/A")
  }

  /** One template's block of the summary: six labelled lines and a rule of fifty dashes. */
  function Block(t: TemplateRecord): string
  {
    "Template ID: " + OrNA(t.templateId) + "\n"
    + ("Tone: " + OrNA(t.tone) + "\n")
    + ("Use Case: " + OrNA(t.useCase) + "\n")
    + ("Hook Type: " + OrNA(t.hookType) + "\n")
    + ("CTA Type: " + OrNA(t.ctaType) + "\n")
    + ("Template: " + OrNA(t.promptTemplate) + "\n")
    + (Dashes(50) + "\n\n")
  }

  /** The blocks of the templates, in order. */
  function Blocks(ts: seq<TemplateRecord>): string
  {
    ConcatMap(ts, Block)
  }

  /** Summarising two lists one after the other is summarising their concatenation. */
  lemma BlocksAppend(a: seq<TemplateRecord>, b: seq<TemplateRecord>)
    ensures Blocks(a + b) == Blocks(a) + Blocks(b)
  {
    ConcatMapAppend(a, b, Block);
  }

  /** Every block ends with the rule of fifty dashes and a blank line. */
  lemma BlockEndsWithRule(t: TemplateRecord)
    ensures |Block(t)| >= 52 && Block(t)[|Block(t)| - 52..] == Dashes(50) + "\n\n"
  {
  }

  /** Every block opens with the template id, "N/A" when it has none. */
  lemma BlockOpensWithId(t: TemplateRecord)
    ensures var head := "Template ID: " + OrNA(t.templateId) + "\n";
            |head| <= |Block(t)| && Block(t)[..|head|] == head
    ensures t.templateId.None? ==> Block(t)[..17] == "Template ID: N/A\n"
  {
  }

  class Loader {
    var templates: seq<TemplateRecord>

    /** `_load_templates`: a missing or unreadable file leaves no templates. */
    constructor(file: LoadOutcome)
      ensures templates == (if file.Loaded? then file.records else [])
    {
      match file {
        case Loaded(records) => templates := records;
        case FileMissing => templates := [];
        case LoadFailed => templates := [];
      }
    }

    /** `get_template_by_id`: a scan that returns the first match. */
    method GetTemplateById(id: string) returns (r: Option<TemplateRecord>)
      ensures r == FindById(templates, id)
    {
      var i := 0;
      while i < |templates|
        invariant 0 <= i <= |templates|
        invariant forall j :: 0 <= j < i ==> templates[j].templateId != Some(id)
      {
        if templates[i].templateId == Some(id) {
          FindByIdFirst(templates, id, i);
          return Some(templates[i]);
        }
        i := i + 1;
      }
      return None;
    }

    /** `get_templates_by_tone`: the templates whose tone equals `tone`, ignoring case. */
    function ByTone(tone: string): (r: seq<TemplateRecord>)
      reads this
      ensures IsSubsequence(r, templates)
      ensures forall i :: 0 <= i < |r| ==> Lower(GetOr(r[i].tone, "")) == Lower(tone)
      ensures forall i :: 0 <= i < |templates| && Lower(GetOr(templates[i].tone, "")) == Lower(tone) ==> templates[i] in r
    {
      Filter(templates, ToneIs(tone))
    }

    /** `get_templates_by_use_case`: the templates whose use case contains `useCase`, ignoring case. */
    function ByUseCase(useCase: string): (r: seq<TemplateRecord>)
      reads this
      ensures IsSubsequence(r, templates)
      ensures forall i :: 0 <= i < |r| ==> Contains(Lower(GetOr(r[i].useCase, "")), Lower(useCase))
      ensures forall i :: 0 <= i < |templates| && Contains(Lower(GetOr(templates[i].useCase, "")), Lower(useCase))
                ==> templates[i] in r
    {
      Filter(templates, UseCaseMentions(useCase))
    }

    /** `get_template_summary`: the header, then one block per template in order. */
    method GetTemplateSummary() returns (summary: string)
      ensures summary == SummaryHeader + Blocks(templates)
    {
      summary := SummaryHeader;
      var i := 0;
      while i < |templates|
        invariant 0 <= i <= |templates|
        invariant summary == SummaryHeader + Blocks(templates[..i])
      {
        SummaryStep(templates, i, summary);
        summary := summary + Block(templates[i]);
        i := i + 1;
      }
      assert templates[..i] == templates;
    }

    /** `get_templates_summary` is the same summary. */
    method GetTemplatesSummary() returns (summary: string)
      ensures summary == SummaryHeader + Blocks(templates)
    {
      summary := GetTemplateSummary();
    }
  }

  lemma SummaryStep(ts: seq<TemplateRecord>, i: nat, summary: string)
    requires i < |ts| && summary == SummaryHeader + Blocks(ts[..i])
    ensures summary + Block(ts[i]) == SummaryHeader + Blocks(ts[..i + 1])
  {
    BlocksSnoc(ts, i);
    AppendAssoc(SummaryHeader, Blocks(ts[..i]), Block(ts[i]));
  }

  lemma BlocksSnoc(ts: seq<TemplateRecord>, i: nat)
    requires i < |ts|
    ensures Blocks(ts[..i + 1]) == Blocks(ts[..i]) + Block(ts[i])
  {
    ConcatMapSnoc(ts, i, Block);
  }

  /** The template found is the one at the first position carrying the id. */
  lemma {:induction false} FindByIdFirst(ts: seq<TemplateRecord>, id: string, i: nat)
    requires i < |ts| && ts[i].templateId == Some(id)
    requires forall j :: 0 <= j < i ==> ts[j].templateId != Some(id)
    ensures FindById(ts, id) == Some(ts[i])
  {
    if i > 0 {
      FindByIdFirst(ts[1..], id, i - 1);
    }
  }
}
