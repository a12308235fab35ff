/**
 * The outreach templates dialog: a fixed catalogue of prompt templates, the
 * category tabs derived from it, the category filter, and what is handed to
 * the chat when a template (or none) is chosen.
 */
module TemplatesDialog {
  import opened Wrappers
  import opened Seqs

  datatype Template = Template(
    id: string,
    category: string,
    title: string,
    description: string,
    prompt: string,
    tags: seq<string>,
    tone: string,
    useCase: string)

  /** The two long texts of a template, kept apart from the fields the proofs look at. */
  datatype TemplateText = TemplateText(description: string, prompt: string)

  /** The texts of the eight templates, one field per template. */
  datatype CatalogueTexts = CatalogueTexts(
    vcPitch: TemplateText, salesEnterprise: TemplateText, recruitingTech: TemplateText, partnershipSaas: TemplateText,
    linkedinThoughtLeader: TemplateText, customerSuccess: TemplateText, investorUpdate: TemplateText, conferenceSpeaker: TemplateText)

  /** The descriptions and prompts of the eight shipped templates. */
  const ShippedTexts := CatalogueTexts(
    TemplateText("Get VCs to review your pitch deck and book a meeting",
      "Help me craft a compelling outreach message to [VC Name] at [VC Firm] about my [Industry] startup that [Core Value Proposition]. I want them to review my pitch deck and schedule a meeting."),
    TemplateText("Convert cold enterprise prospects into qualified meetings",
      "Create a personalized outreach sequence for [Decision Maker Title] at [Company Name] showing how our [Product/Solution] can solve their [Specific Pain Point] and achieve [Desired Outcome]."),
    TemplateText("Attract top engineers and developers to your team",
      "Write an engaging message to recruit a [Role Title] with expertise in [Technologies] for our [Company Type] working on [Project/Product]. Highlight [Key Benefits/Culture]."),
    TemplateText("Propose strategic partnerships with complementary SaaS companies",
      "Draft a partnership proposal to [Company Name] suggesting how our [Your Product] can integrate with their [Their Product] to provide [Mutual Benefit] for our shared customer base in [Industry]."),
    TemplateText("Connect with industry thought leaders and influencers",
      "Compose a LinkedIn connection request to [Influencer Name], referencing their recent post/article about [Topic] and explaining how my work in [Your Area] aligns with their insights."),
    TemplateText("Win back churned customers or upsell existing ones",
      "Create a re-engagement campaign for [Customer Name] who churned [Time Period] ago due to [Reason], highlighting our new features [New Features] that address their original concerns."),
    TemplateText("Keep investors engaged with compelling updates",
      "Write a follow-up message to [Investor Name] who showed interest in our [Funding Round], updating them on our recent achievements: [Metrics/Milestones] and next steps."),
    TemplateText("Pitch yourself as a speaker at industry conferences",
      "Craft a speaker proposal to [Conference Name] organizers, positioning myself as an expert in [Topic] with unique insights from [Your Experience] that would benefit their [Target Audience].")
  )

  /** The catalogue built around a choice of texts: everything but the texts is fixed. */
  function CatalogueWith(texts: CatalogueTexts): (r: seq<Template>)
    ensures |r| == 8
  {
    [
      Template("vc-pitch", "Fundraising", "VC Pitch Outreach", texts.vcPitch.description, texts.vcPitch.prompt,
        ["Fundraising", "Pitch Deck", "Series A/B"], "Confident", "Fundraising"),
      Template("sales-enterprise", "Sales", "Enterprise Sales", texts.salesEnterprise.description, texts.salesEnterprise.prompt,
        ["B2B Sales", "Enterprise", "Cold Outreach"], "Professional", "Sales"),
      Template("recruiting-tech", "Recruiting", "Tech Talent Acquisition", texts.recruitingTech.description, texts.recruitingTech.prompt,
        ["Recruiting", "Tech", "Hiring"], "Enthusiastic", "Recruiting"),
      Template("partnership-saas", "Partnerships", "SaaS Partnership", texts.partnershipSaas.description, texts.partnershipSaas.prompt,
        ["Partnerships", "Integration", "B2B"], "Collaborative", "Partnerships"),
      Template("linkedin-thought-leader", "Networking", "LinkedIn Thought Leader", texts.linkedinThoughtLeader.description, texts.linkedinThoughtLeader.prompt,
        ["LinkedIn", "Networking", "Thought Leadership"], "Thoughtful", "Networking"),
      Template("customer-success", "Customer Success", "Customer Re-engagement", texts.customerSuccess.description, texts.customerSuccess.prompt,
        ["Customer Success", "Retention", "Upsell"], "Caring", "Customer Success"),
      Template("investor-update", "Investor Relations", "Investor Follow-up", texts.investorUpdate.description, texts.investorUpdate.prompt,
        ["Investors", "Updates", "Fundraising"], "Confident", "Investor Relations"),
      Template("conference-speaker", "Speaking", "Conference Speaking", texts.conferenceSpeaker.description, texts.conferenceSpeaker.prompt,
        ["Speaking", "Conference", "Thought Leadership"], "Expert", "Speaking")
    ]
  }

  /** The shipped catalogue. */
  const Catalogue: seq<Template> := CatalogueWith(ShippedTexts)

  function Ids(ts: seq<Template>): (r: seq<string>)
    ensures |r| == |ts| && forall i :: 0 <= i < |ts| ==> r[i] == ts[i].id
  {
    seq(|ts|, i requires 0 <= i < |ts| => ts[i].id)
  }

  function CategoryColumn(ts: seq<Template>): (r: seq<string>)
    ensures |r| == |ts| && forall i :: 0 <= i < |ts| ==> r[i] == ts[i].category
  {
    seq(|ts|, i requires 0 <= i < |ts| => ts[i].category)
  }

  /** The category tabs: `[...new Set(templates.map(t => t.category))]`. */
  function Categories(ts: seq<Template>): seq<string>
  {
    Dedup(CategoryColumn(ts))
  }

  /**
   * The tabs list each category once, every template's category among
   * them, in the order the categories first appear in the catalogue.
   */
  lemma CategoriesSpec(ts: seq<Template>)
    ensures NoDuplicates(Categories(ts))
    ensures forall i :: 0 <= i < |Categories(ts)| ==> Categories(ts)[i] in CategoryColumn(ts)
    ensures forall i :: 0 <= i < |ts| ==> ts[i].category in Categories(ts)
    ensures forall c :: c in Categories(ts) ==> exists i :: 0 <= i < |ts| && ts[i].category == c
    ensures forall i, j :: 0 <= i < j < |Categories(ts)| ==>
              IndexOf(CategoryColumn(ts), Categories(ts)[i]) < IndexOf(CategoryColumn(ts), Categories(ts)[j])
  {
    var column := CategoryColumn(ts);
    DedupSpec(column);
    forall i | 0 <= i < |ts|
      ensures ts[i].category in Categories(ts)
    {
      assert column[i] in column;
    }
    forall c | c in Categories(ts)
      ensures exists i :: 0 <= i < |ts| && ts[i].category == c
    {
      var i := IndexOf(column, c);
      assert ts[i].category == c;
    }
  }

  function HasCategory(c: string): Template -> bool
  {
    (t: Template) => t.category == c
  }

  /** The templates shown for the selected tab; no tab (or an empty one) shows all. */
  function FilteredTemplates(ts: seq<Template>, selected: Option<string>): (r: seq<Template>)
    ensures selected.None? || selected == Some("") ==> r == ts
    ensures selected.Some? && selected.value != "" ==>
              IsSubsequence(r, ts)
              && (forall i :: 0 <= i < |r| ==> r[i].category == selected.value)
              && (forall i :: 0 <= i < |ts| && ts[i].category == selected.value ==> ts[i] in r)
  {
    if selected.Some? && selected.value != "" then Filter(ts, HasCategory(selected.value)) else ts
  }

  /** Every category tab shows at least one template. */
  lemma CategoryTabsAreNonEmpty(ts: seq<Template>, c: string)
    requires c in Categories(ts) && c != ""
    ensures FilteredTemplates(ts, Some(c)) != []
  {
    CategoriesSpec(ts);
    var i :| 0 <= i < |ts| && ts[i].category == c;
    assert ts[i] in FilteredTemplates(ts, Some(c));
  }

  /** What `onSelectTemplate` receives. */
  datatype Selection = Selection(id: string, title: string, tone: string, useCase: string, prompt: string)

  /** The result of a click: what is handed over and whether the dialog stays open. */
  datatype Outcome = Outcome(picked: Option<Selection>, open: bool)

  function SelectTemplate(t: Template): (r: Outcome)
    ensures !r.open && r.picked.Some?
    ensures r.picked.value.id == t.id && r.picked.value.title == t.title && r.picked.value.tone == t.tone
    ensures r.picked.value.useCase == t.useCase && r.picked.value.prompt == t.prompt
  {
    Outcome(Some(Selection(t.id, t.title, t.tone, t.useCase, t.prompt)), false)
  }

  function StartFromScratch(): (r: Outcome)
    ensures r.picked.None? && !r.open
  {
    Outcome(None, false)
  }

  /**
   * A selection names its template: in the catalogue, whatever its texts,
   * the id determines the template.
   */
  lemma SelectionIdentifiesTemplate(texts: CatalogueTexts, i: nat, j: nat)
    requires i < 8 && j < 8
    requires SelectTemplate(CatalogueWith(texts)[i]).picked.value.id == SelectTemplate(CatalogueWith(texts)[j]).picked.value.id
    ensures i == j
  {
    CatalogueIdsDistinct(texts);
    var ids := Ids(CatalogueWith(texts));
    assert ids[i] == ids[j];
  }

  const CatalogueIdList: seq<string> :=
    ["vc-pitch", "sales-enterprise", "recruiting-tech", "partnership-saas",
     "linkedin-thought-leader", "customer-success", "investor-update", "conference-speaker"]

  const CategoryList: seq<string> :=
    ["Fundraising", "Sales", "Recruiting", "Partnerships", "Networking",
     "Customer Success", "Investor Relations", "Speaking"]

  /** The id and category columns of the catalogue, which do not depend on its texts. */
  lemma CatalogueColumns(texts: CatalogueTexts)
    ensures Ids(CatalogueWith(texts)) == CatalogueIdList
    ensures CategoryColumn(CatalogueWith(texts)) == CategoryList
  {
    var c := CatalogueWith(texts);
    var ids := Ids(c);
    var column := CategoryColumn(c);
    forall k | 0 <= k < 8
      ensures ids[k] == CatalogueIdList[k] && column[k] == CategoryList[k]
    {
      assert ids[k] == c[k].id && column[k] == c[k].category;
    }
  }

  /** The catalogue has eight templates with pairwise distinct ids. */
  lemma CatalogueIdsDistinct(texts: CatalogueTexts)
    ensures NoDuplicates(Ids(CatalogueWith(texts)))
  {
    CatalogueColumns(texts);
    var ids := CatalogueIdList;
  }

  lemma CategoryListDistinct()
    ensures NoDuplicates(CategoryList)
  {
  }

  /** Each of the eight templates has its own category, so there are eight tabs. */
  lemma CatalogueCategories(texts: CatalogueTexts)
    ensures Categories(CatalogueWith(texts)) == CategoryList
  {
    CatalogueColumns(texts);
    CategoryListDistinct();
    DedupOfDistinct(CategoryList);
  }

  /** A sequence without duplicates is its own de-duplication. */
  lemma {:induction false} DedupOfDistinct<T>(s: seq<T>)
    requires NoDuplicates(s)
    ensures Dedup(s) == s
  {
    if s != [] {
      var init := s[..|s| - 1];
      assert NoDuplicates(init);
      DedupOfDistinct(init);
      DedupSpec(init);
      assert s[|s| - 1] !in init;
      assert s == init + [s[|s| - 1]];
    }
  }
}
