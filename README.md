# Unghost Agent — a verified model of its core logic

Unghost Agent drafts personalised cold-outreach messages. A Next.js front end
collects a prospect's context, the user's settings and an optional message
template, and streams a chat to a Python back end. There a LangGraph workflow
runs a coordinator, a planner, a human-feedback step and a research team of
researcher, coder and strategizer agents. Its tools include a Tavily web search
and a library of outreach templates. A benchmark client drives the back end
through its chat API and extracts the generated message from the transcript.

This project models the deterministic core of that system in Dafny and proves
what it promises. One module per source file:

- **Front end.**
  - `OutreachReport`: the markdown report parser and its section lookups.
  - `MessageListView`: the message cards' render and status rules.
  - `SettingsStore`: defaults, local-storage load and save, setters, and the settings sent with a chat.
  - `SettingsDialog`: the buffer of pending changes.
  - `GeneralTab`: the form validator, `parseInt`, and change detection.
  - `Onboarding`: the four-step wizard.
  - `TemplatesDialog`: the template catalogue, its categories and its filter.
  - `LivePreview`: message, subject and body extraction, and the export file name.
  - `InputBox`: send, cancel and enhance.
  - `Jumbotron`: the carousel's ring arithmetic.
- **Back end.**
  - `PlannerModel`: plans and steps.
  - `GraphBuilder`: the workflow graph and its research-team router.
  - `GraphNodes`: the planner, human-feedback and coordinator decisions, the bookkeeping of an agent step, and the recursion limit.
  - `TemplateLoader` and `TemplateSelector`: the template library.
  - `TavilyWrapper`: post-processing of search results.
  - `LlmConfig`: model configuration and the client cache.
  - `ApiClient`: the benchmark's request building, stream collection and message extraction.
- **Helpers.**
  - `Text`: JavaScript and Python string semantics (trims, ASCII case mapping, find, split, join, replace).
  - `Seqs`: order-preserving filter and first-occurrence de-duplication.
  - `Wrappers`: `Option` and `Result`.

Each operation takes its source's form.
- Objects whose fields the source updates in place are classes. Their methods state the whole new state: the settings store, the settings and onboarding dialogs, the input box, the carousel, the research state of an agent step, the template loader and the LLM cache.
- Loops are methods with invariants, proved equal to a specification function: the report parser, the scoring loop, de-duplication, stream collection, marker scans and summary building.
- Everything else is a function whose properties are proved as lemmas.

Some things are inputs to the model:
- what a language model answers;
- what a JSON decoder or JSON repair produces;
- what an HTTP reply holds;
- what the environment and the configuration file contain.

Where the code and its comments or type annotations disagree, the model follows the code:
- `planner_node` is annotated as handing over only to `human_feedback` or `reporter`, but it also ends the workflow; `GraphNodes.PlannerNode` and `GraphBuilder.Successors` include the end.
- `_stream_chat_response` tests for an empty payload, which a stripped line can never give; `ApiClient.DataPayloadNeverEmpty` proves this.
- `human_feedback_node` says its iteration count is raised before the unreadable-plan check, but it is not. `GraphNodes.HumanFeedbackNode` follows the code as written, and `GraphNodes.Proceed` is the corrected rule beside it; see Findings.

## Model

| member | source | states |
|---|---|---|
| OutreachReport.HeaderIsRegexMatch | front/src/app/chat/components/structured-outreach-report.tsx:280-283 | a line is a header exactly when it opens with one or more '#', then at least one white-space character, then at least one character with no line terminator to the end: the header expression written out |
| OutreachReport.CaptureTitle | front/src/app/chat/components/structured-outreach-report.tsx:280-291 | however the expression divides the white space from the capture, the trimmed capture is the section title |
| OutreachReport.BlankIsNotHeader | front/src/app/chat/components/structured-outreach-report.tsx:280-283 | a line that trims to nothing is never a header |
| OutreachReport.ParseMarkdownSections | front/src/app/chat/components/structured-outreach-report.tsx:271-318 | the loop over the lines, with its three variables, returns the sections of the line-by-line description |
| OutreachReport.ParseMatchesReference | front/src/app/chat/components/structured-outreach-report.tsx:278-317 | the parser equals the block description: the first non-blank pre-header line as a "title" section, then one section per header holding the lines up to the next header, joined with '\n' and trimmed |
| OutreachReport.RunFromOpen | front/src/app/chat/components/structured-outreach-report.tsx:283-299 | with a section open, the following lines up to the next header become its content, and each later header opens one section |
| OutreachReport.RunFromClosed | front/src/app/chat/components/structured-outreach-report.tsx:297-308 | with no section open, the first non-blank line is kept as "title" only while no section exists; later pre-header lines are dropped |
| OutreachReport.BlocksTitles | front/src/app/chat/components/structured-outreach-report.tsx:283-296 | the blocks are titled by the header lines, one each, in document order |
| OutreachReport.PreambleShape | front/src/app/chat/components/structured-outreach-report.tsx:300-307 | text before the first header yields at most one section, titled "title", and none exactly when all of it is blank |
| OutreachReport.SectionTitles | front/src/app/chat/components/structured-outreach-report.tsx:278-317 | the section titles are the header titles in document order, preceded by "title" exactly when a non-blank line comes before the first header |
| OutreachReport.SectionCount | front/src/app/chat/components/structured-outreach-report.tsx:278-317 | the number of sections is the number of header lines plus one exactly when there is pre-header text |
| OutreachReport.BlankContentHasNoSections | front/src/app/chat/components/structured-outreach-report.tsx:300-317 | content whose lines are all blank, the empty content among them, yields no section |
| OutreachReport.FindByTitleSpec | front/src/app/chat/components/structured-outreach-report.tsx:71-79 | the title search finds nothing exactly when no lower-cased title contains the word, and otherwise the first section whose title does |
| OutreachReport.FindMessageIsMessageSearch | front/src/app/chat/components/structured-outreach-report.tsx:40-77 | the "outreach message" or "message" search is the search for "message" alone |
| OutreachReport.ReportTitle | front/src/app/chat/components/structured-outreach-report.tsx:70 | the report title is the content of the first section titled exactly "title", and "Outreach Report" when no section has that title |
| OutreachReport.OpeningLineIsTitle | front/src/app/chat/components/structured-outreach-report.tsx:70 | a report whose first line is plain non-blank text is titled by that line, trimmed (also lines 300-307) |
| OutreachReport.View | front/src/app/chat/components/structured-outreach-report.tsx:35-37 | the view's message is the first section whose title contains "message" (also lines 70-79) |
| OutreachReport.ToggleSection | front/src/app/chat/components/structured-outreach-report.tsx:63-68 | toggling flips exactly the given key, an unseen key becoming open, and leaves every other key as it was |
| OutreachReport.ToggleTwice | front/src/app/chat/components/structured-outreach-report.tsx:63-68 | toggling a known key twice restores the previous state |
| OutreachReport.InitiallyOnlySummaryOpen | front/src/app/chat/components/structured-outreach-report.tsx:27-33 | at first only the summary is open |
| MessageListView.ItemFor | front/src/app/chat/components/message-list-view.tsx:146-237 | a message renders only if it is a user turn, one of the four visible agents or a research start; a planner message is always a plan card; the bubble appears exactly for a non-empty user or coordinator turn that is no card |
| MessageListView.ShownMessagesRender | front/src/app/chat/components/message-list-view.tsx:151-236 | a shown message renders nothing exactly when it is an empty user or coordinator turn that starts no research |
| MessageListView.ShowLoading | front/src/app/chat/components/message-list-view.tsx:77-83 | the spinner shows exactly while responding, unless the ongoing research is the open one (also lines 119-121) |
| MessageListView.MatchAt | front/src/app/chat/components/message-list-view.tsx:287 | at a '#', the greedy white-space run leaves the last position from which the capture can still reach the end of its line |
| MessageListView.ExecFrom | front/src/app/chat/components/message-list-view.tsx:287 | `exec` finds the leftmost '#' at which the heading expression matches, and nothing when it matches nowhere |
| MessageListView.HeadingTitle | front/src/app/chat/components/message-list-view.tsx:287-290 | the heading is absent exactly when the expression matches nowhere in the content (also lines 358-361) |
| MessageListView.HeadingTitleIsOneLine | front/src/app/chat/components/message-list-view.tsx:287-290 | the heading title never holds a line terminator |
| MessageListView.ResearchStatus | front/src/app/chat/components/message-list-view.tsx:278-283 | "Researching..." exactly without a report, "Generating report..." exactly while the report streams, "Report generated" exactly when it is done |
| MessageListView.AnimatedUntilReportDone | front/src/app/chat/components/message-list-view.tsx:306 | the research title animates exactly until a finished report exists |
| MessageListView.ResearchTitle | front/src/app/chat/components/message-list-view.tsx:284-307 | the card title is the research message's heading when it has a non-empty one, and "Deep Research" without a message, without a heading or with a blank heading |
| MessageListView.ButtonLabelMatchesAction | front/src/app/chat/components/message-list-view.tsx:294-320 | the button reads "Close" exactly when a click closes this research and "Open" exactly when it opens it |
| MessageListView.ButtonVariant | front/src/app/chat/components/message-list-view.tsx:317 | the filled style is used exactly while no research is open or the open id is empty (falsy) |
| MessageListView.ReportCard | front/src/app/chat/components/message-list-view.tsx:356-391 | the raw report is shown exactly when summary, profile, strategy and message are all empty; the tabbed card is titled by the heading when it is non-empty and by "Outreach Report" otherwise |
| MessageListView.PlanTitle | front/src/app/chat/components/message-list-view.tsx:610-618 | a non-empty plan title wins; otherwise "Generating Outreach Plan..." while streaming and "Outreach Plan" after |
| MessageListView.ThinkingExcludesPlan | front/src/app/chat/components/message-list-view.tsx:620-629 | the plan body shows exactly when the content has a non-space character, and never together with the thinking state |
| MessageListView.FooterAsWritten | front/src/app/chat/components/message-list-view.tsx:687 | as written: the option buttons appear exactly when the plan is idle and the interrupt has a non-empty option list |
| MessageListView.EmptyOptionsPrintZero | front/src/app/chat/components/message-list-view.tsx:687 | as written: an idle plan with an empty option list renders the number 0 in the footer |
| MessageListView.PlanFooter | front/src/app/chat/components/message-list-view.tsx:687-715 | corrected: the same buttons, carrying the interrupt's options, and never a stray 0 |
| MessageListView.FooterCorrectionIsLocal | front/src/app/chat/components/message-list-view.tsx:687 | the corrected footer differs from the written one only where the written one prints 0 |
| MessageListView.AcceptMessage | front/src/app/chat/components/message-list-view.tsx:583 | the accept message opens with the chosen greeting and "! " (also lines 630-639) |
| MessageListView.OptionClick | front/src/app/chat/components/message-list-view.tsx:701-711 | "accepted" sends a message with the "accepted" interrupt feedback; any other option goes to onFeedback unchanged; a missing handler does nothing |
| MessageListView.ButtonsDisabled | front/src/app/chat/components/message-list-view.tsx:110 | the buttons are disabled exactly unless this message is the one waiting for feedback (also line 700) |
| MessageListView.AcceptedOptionStartsDrafting | front/src/app/chat/components/message-list-view.tsx:702-711 | the accepted option reads "Start drafting" and never goes to onFeedback |
| SettingsStore.Serialize | front/src/core/store/settings-store.ts:75-79 | a saved state is stored as an object with its `general` and its server list |
| SettingsStore.MergeGeneral | front/src/core/store/settings-store.ts:59-63 | each general key takes the stored value when present and the default otherwise; a missing `general` gives the defaults |
| SettingsStore.Loaded | front/src/core/store/settings-store.ts:50-73 | without a window, an entry, or parsable non-empty text the state is kept; otherwise the stored object, completed with defaults and a default `mcp`, replaces it |
| SettingsStore.SaveLoadRoundTrip | front/src/core/store/settings-store.ts:50-79 | loading what was saved yields exactly the saved state |
| SettingsStore.LoadIdempotent | front/src/core/store/settings-store.ts:50-73 | loading the same entry twice is loading it once |
| SettingsStore.ToolNames | front/src/core/store/settings-store.ts:120 | the enabled tools are the server's tool names, in order |
| SettingsStore.StreamEntry | front/src/core/store/settings-store.ts:98-122 | a stdio server is sent with command and args and no url, any other with its url and neither; all carry their tool names and `["researcher"]` |
| SettingsStore.Enabled | front/src/core/store/settings-store.ts:94 | the filtered list holds exactly the enabled servers |
| SettingsStore.EnabledIsFilter | front/src/core/store/settings-store.ts:94 | the list is the order-preserving filter of the servers on `enabled`, with order and repeats kept |
| SettingsStore.ServerRecordKeys | front/src/core/store/settings-store.ts:97-124 | the record has exactly one key per server name |
| SettingsStore.ServerRecordLastWins | front/src/core/store/settings-store.ts:116-123 | under each name the record holds the entry built from the last server of that name |
| SettingsStore.StreamSettings | front/src/core/store/settings-store.ts:81-131 | `general` is passed through and `mcpSettings` is undefined exactly when no server is enabled |
| SettingsStore.StreamSettingsServers | front/src/core/store/settings-store.ts:94-124 | a name is a key of the sent servers exactly when some enabled server carries it |
| SettingsStore.Store.constructor | front/src/core/store/settings-store.ts:38-40 | the store starts from the defaults and loads once (also line 155) |
| SettingsStore.Store.LoadSettings | front/src/core/store/settings-store.ts:50-73 | the state becomes the loaded state and storage is untouched |
| SettingsStore.Store.SaveSettings | front/src/core/store/settings-store.ts:75-79 | storage holds the serialized state and the state is untouched |
| SettingsStore.Store.ChangeSettings | front/src/core/store/settings-store.ts:46-48 | the state is replaced and storage untouched |
| SettingsStore.Store.SetReportStyle | front/src/core/store/settings-store.ts:133-143 | only `general.reportStyle` changes, and the new state is saved |
| SettingsStore.Store.SetUserBackground | front/src/core/store/settings-store.ts:145-153 | only `general.userBackground` changes, and the new state is saved |
| SettingsStore.Store.ReloadAfterSave | front/src/core/store/settings-store.ts:50-79 | after a save, a fresh store loads exactly the saved state (also line 155) |
| SettingsDialog.Merge | front/src/app/settings/dialogs/settings-dialog.tsx:42-45 | a key present in the newer changes wins, every other key keeps the earlier change |
| SettingsDialog.Apply | front/src/app/settings/dialogs/settings-dialog.tsx:54-87 | each top-level key takes the pending change when there is one and the setting otherwise |
| SettingsDialog.ApplyNothing | front/src/app/settings/dialogs/settings-dialog.tsx:82-87 | with no pending change the tabs see the settings themselves |
| SettingsDialog.ApplyMerge | front/src/app/settings/dialogs/settings-dialog.tsx:42-57 | applying two batches in turn is applying their merge |
| SettingsDialog.MergeAssociative | front/src/app/settings/dialogs/settings-dialog.tsx:42-45 | merging batches of tab edits is associative |
| SettingsDialog.Dialog.constructor | front/src/app/settings/dialogs/settings-dialog.tsx:34-36 | the dialog starts closed, with a snapshot of the store and no changes |
| SettingsDialog.Dialog.HandleTabChange | front/src/app/settings/dialogs/settings-dialog.tsx:38-50 | edits are merged over the pending changes while open and ignored while closed; nothing else changes |
| SettingsDialog.Dialog.SetOpen | front/src/app/settings/dialogs/settings-dialog.tsx:66-80 | opening reloads the settings from the store, closing drops the pending changes, and setting the current value changes nothing |
| SettingsDialog.Dialog.HandleSave | front/src/app/settings/dialogs/settings-dialog.tsx:52-64 | with pending changes the merged settings become the dialog's and the store's and are saved; without, the store and storage are untouched; the dialog always closes with no changes |
| SettingsDialog.Dialog.Render | front/src/app/settings/dialogs/settings-dialog.tsx:82-91 | in replay mode nothing renders; otherwise the tabs receive the settings with the pending changes over them (also lines 150-153) |
| GeneralTab.StyleNamed | front/src/app/settings/tabs/general-tab.tsx:36 | an accepted style name names the style it reads as |
| GeneralTab.StyleNameRoundTrip | front/src/app/settings/tabs/general-tab.tsx:36 | every style's own name passes the style check and reads back as that style |
| GeneralTab.StyleNamedIff | front/src/app/settings/tabs/general-tab.tsx:36 | the style check accepts exactly "aggressive", "conservative", "go_nuts" and "friendly" |
| GeneralTab.Validate | front/src/app/settings/tabs/general-tab.tsx:31-38 | a form is valid exactly when the three counts are at least 1 and the style is one of the four names, and then reads as the settings it holds |
| GeneralTab.ValidateFormOf | front/src/app/settings/tabs/general-tab.tsx:31-57 | a form filled from settings is valid exactly when their counts are positive, and gives them back unchanged |
| GeneralTab.DefaultsAreValid | front/src/app/settings/tabs/general-tab.tsx:31-38 | the default settings pass validation |
| GeneralTab.Magnitude | front/src/app/settings/tabs/general-tab.tsx:201 | the unsigned part of `parseInt` is NaN exactly when no digit of the chosen base follows |
| GeneralTab.JsParseInt | front/src/app/settings/tabs/general-tab.tsx:201 | `parseInt` is NaN exactly when, after white space and one sign, no digit follows (also lines 230, 278) |
| GeneralTab.ParseIntOfNumeral | front/src/app/settings/tabs/general-tab.tsx:201 | every natural number written in decimal parses back to itself |
| GeneralTab.ParseIntOfNegative | front/src/app/settings/tabs/general-tab.tsx:201 | a minus sign before a positive numeral parses to the negative number |
| GeneralTab.ClearedInputIsZero | front/src/app/settings/tabs/general-tab.tsx:200-201 | a cleared numeric input reads as 0 (also lines 229-230, 277-278) |
| GeneralTab.ClearedInputIsInvalid | front/src/app/settings/tabs/general-tab.tsx:33-35 | a count taken from a cleared input fails validation (also lines 200-201) |
| GeneralTab.ChangeFor | front/src/app/settings/tabs/general-tab.tsx:61-76 | a change is reported exactly when the form differs from the settings, and then carries only `general`, holding the six form fields |
| GeneralTab.ChangeSettles | front/src/app/settings/tabs/general-tab.tsx:61-76 | once the reported change is applied, the effect reports nothing more |
| GeneralTab.UntouchedFormIsSilent | front/src/app/settings/tabs/general-tab.tsx:55-64 | a form still holding the settings it was given reports nothing |
| Onboarding.StepIndex | front/src/app/chat/components/onboarding-dialog.tsx:56-57 | every step is found in the step list, at its index |
| Onboarding.NextStep | front/src/app/chat/components/onboarding-dialog.tsx:55-61 | Next moves to the following step and does nothing at the last one |
| Onboarding.BackTarget | front/src/app/chat/components/onboarding-dialog.tsx:183 | only the profile and goals steps have a Back button, and it leads to the step before (also line 227) |
| Onboarding.BackUndoesNext | front/src/app/chat/components/onboarding-dialog.tsx:55-61 | Next after Back returns to where the user was (also lines 183, 227) |
| Onboarding.NextReachesComplete | front/src/app/chat/components/onboarding-dialog.tsx:55-61 | three presses of Next reach the complete step from anywhere, and Next keeps it there |
| Onboarding.FirstLabel | front/src/app/chat/components/onboarding-dialog.tsx:70-76 | there is a first filled-in field exactly unless the form is empty |
| Onboarding.NameOpens | front/src/app/chat/components/onboarding-dialog.tsx:71 | a given name yields a part opening with "Name:" |
| Onboarding.TitleOpens | front/src/app/chat/components/onboarding-dialog.tsx:72 | a given title yields a part opening with "Title:" |
| Onboarding.CompanyOpens | front/src/app/chat/components/onboarding-dialog.tsx:73 | a given company yields a part opening with "Company:" |
| Onboarding.BackgroundLabelOpens | front/src/app/chat/components/onboarding-dialog.tsx:74 | a given background yields a part opening, once trimmed, with "Background:" |
| Onboarding.GoalsOpens | front/src/app/chat/components/onboarding-dialog.tsx:75 | given goals yield a part opening, once trimmed, with "Goals:" |
| Onboarding.EmptyPartsVanish | front/src/app/chat/components/onboarding-dialog.tsx:70-76 | an empty field leaves no trace once the text is trimmed |
| Onboarding.BackgroundOpensWithFirstLabel | front/src/app/chat/components/onboarding-dialog.tsx:70-76 | the built background opens with the label of the first filled-in field |
| Onboarding.BackgroundEmptyIff | front/src/app/chat/components/onboarding-dialog.tsx:70-76 | the built background is empty exactly when every field is |
| Onboarding.WithField | front/src/app/chat/components/onboarding-dialog.tsx:150 | an input changes its own field of the form and no other (also lines 159, 168, 178, 216) |
| Onboarding.Dialog.constructor | front/src/app/chat/components/onboarding-dialog.tsx:22-30 | the dialog starts closed at the welcome step with an empty form |
| Onboarding.Dialog.AutoOpen | front/src/app/chat/components/onboarding-dialog.tsx:45-53 | the dialog opens when the background is empty and no completion is recorded, and nothing else changes |
| Onboarding.Dialog.Trigger | front/src/app/chat/components/onboarding-dialog.tsx:35-43 | the completion record is removed, the dialog opens and the step returns to welcome |
| Onboarding.Dialog.HandleNext | front/src/app/chat/components/onboarding-dialog.tsx:55-61 | only the step changes, to the next one |
| Onboarding.Dialog.Back | front/src/app/chat/components/onboarding-dialog.tsx:183 | only the step changes, to the one before (also line 227) |
| Onboarding.Dialog.UpdateField | front/src/app/chat/components/onboarding-dialog.tsx:150-216 | only the edited form field changes |
| Onboarding.Dialog.HandleSkip | front/src/app/chat/components/onboarding-dialog.tsx:63-66 | completion is recorded and the dialog closes; the settings are not touched and it will not reopen by itself |
| Onboarding.Dialog.HandleComplete | front/src/app/chat/components/onboarding-dialog.tsx:68-89 | only the user background changes, to the built text; the settings are saved, completion is recorded and the dialog closes |
| Onboarding.Dialog.Escape | front/src/app/chat/components/onboarding-dialog.tsx:278-288 | Escape acts as skip while open and does nothing while closed |
| Onboarding.Dialog.OnOpenChange | front/src/app/chat/components/onboarding-dialog.tsx:291-297 | dismissing acts as skip; any other change opens the dialog |
| TemplatesDialog.CatalogueWith | front/src/app/chat/components/templates-dialog.tsx:38-135 | the catalogue holds eight templates |
| TemplatesDialog.CatalogueColumns | front/src/app/chat/components/templates-dialog.tsx:38-135 | the catalogue's ids and categories, in order, are those of the shipped list |
| TemplatesDialog.CatalogueIdsDistinct | front/src/app/chat/components/templates-dialog.tsx:38-135 | the eight ids are pairwise distinct |
| TemplatesDialog.CategoryListDistinct | front/src/app/chat/components/templates-dialog.tsx:38-135 | the eight categories are pairwise distinct |
| TemplatesDialog.CategoriesSpec | front/src/app/chat/components/templates-dialog.tsx:137 | the tabs list each category once, hold every template's category and nothing else, and follow the order of first appearance |
| TemplatesDialog.CatalogueCategories | front/src/app/chat/components/templates-dialog.tsx:137 | the shipped catalogue has one tab per template, in catalogue order |
| TemplatesDialog.FilteredTemplates | front/src/app/chat/components/templates-dialog.tsx:144-146 | with no category (or the empty one) all templates show; otherwise exactly those of that category, in catalogue order |
| TemplatesDialog.CategoryTabsAreNonEmpty | front/src/app/chat/components/templates-dialog.tsx:137-146 | every category tab shows at least one template |
| TemplatesDialog.SelectTemplate | front/src/app/chat/components/templates-dialog.tsx:148-157 | selecting hands over the template's id, title, tone, use case and prompt, and closes the dialog |
| TemplatesDialog.StartFromScratch | front/src/app/chat/components/templates-dialog.tsx:279-282 | starting from scratch hands over nothing and closes |
| TemplatesDialog.SelectionIdentifiesTemplate | front/src/app/chat/components/templates-dialog.tsx:38-135 | two selections from the catalogue with the same id come from the same template (also lines 148-157) |
| LivePreview.FindMessageLine | front/src/app/chat/components/live-preview-panel.tsx:48-52 | the index found is the first line whose lower-case form holds "subject:", "message:" or "outreach message", or -1 when no line does |
| LivePreview.PreviewIsSuffix | front/src/app/chat/components/live-preview-panel.tsx:45-59 | the preview is always a final part of the content |
| LivePreview.PreviewStart | front/src/app/chat/components/live-preview-panel.tsx:47-58 | without a message line the preview is the content; with one, it is the lines from the first such line on, joined with '\n' |
| LivePreview.PreviewOfNonEmpty | front/src/app/chat/components/live-preview-panel.tsx:45-59 | non-empty content gives a non-empty preview |
| LivePreview.Slug | front/src/app/chat/components/live-preview-panel.tsx:76 | replacing white-space runs by '-' leaves no white space, and a name without white space is kept |
| LivePreview.SlugIdempotent | front/src/app/chat/components/live-preview-panel.tsx:76 | the replacement applied twice is applied once |
| LivePreview.ExportFilenameHasNoSpace | front/src/app/chat/components/live-preview-panel.tsx:76 | the exported file's name never holds white space |
| LivePreview.LowerRecipient | front/src/app/chat/components/live-preview-panel.tsx:35 | the default recipient name lower-cases to "recipient" (also line 76) |
| LivePreview.LetterNameFilename | front/src/app/chat/components/live-preview-panel.tsx:35 | a name that lower-cases to plain letters, the default one among them, gives "outreach-message-" + that + ".txt" (also line 76) |
| LivePreview.SubjectFrom | front/src/app/chat/components/live-preview-panel.tsx:84 | the match found is the leftmost case-insensitive "Subject: " followed by a character of the same line |
| LivePreview.Subject | front/src/app/chat/components/live-preview-panel.tsx:84 | the subject is the rest of the line after the first match, never empty and never crossing a line, and "Outreach Message" without a match |
| LivePreview.BodyFrom | front/src/app/chat/components/live-preview-panel.tsx:85 | the match found is the leftmost subject line that ends in a line feed |
| LivePreview.Body | front/src/app/chat/components/live-preview-panel.tsx:85 | the body is the draft with that first subject line and its line feed cut out, or the draft itself without one |
| LivePreview.BodyLineHasSubject | front/src/app/chat/components/live-preview-panel.tsx:84-85 | when a line is removed from the body, a subject is found no later than it |
| LivePreview.RemovedLineIsSubjectLine | front/src/app/chat/components/live-preview-panel.tsx:84-85 | when both match at the same place, the removed text is the literal, the subject and the line feed |
| LivePreview.ActionsEnabledForContent | front/src/app/chat/components/live-preview-panel.tsx:225-245 | once generation is over, non-empty content enables copy, export and send |
| InputBox.Box.constructor | front/src/app/chat/components/input-box.tsx:50-61 | the box starts idle, with an empty prompt and no template |
| InputBox.Box.Type | front/src/app/chat/components/input-box.tsx:207 | typing sets the tracked prompt and nothing else |
| InputBox.Box.SelectTemplate | front/src/app/chat/components/input-box.tsx:215-228 | choosing or removing a template sets the template and nothing else |
| InputBox.Box.HandleSendMessage | front/src/app/chat/components/input-box.tsx:63-85 | while responding the submit only cancels; a blank message does nothing; otherwise, with a receiver, it sends the message with the feedback's value and the resources and clears the feedback, the template and the animation; nothing else changes |
| InputBox.Box.BeginEnhance | front/src/app/chat/components/input-box.tsx:87-99 | a request goes out exactly when the button is enabled, carrying the prompt and the upper-cased style, and then both flags are set (also line 244) |
| InputBox.Box.FinishEnhance | front/src/app/chat/components/input-box.tsx:104-120 | the busy flag is always cleared; a new prompt replaces the text when the input is mounted; a failure stops the animation |
| InputBox.Box.EndAnimation | front/src/app/chat/components/input-box.tsx:111-113 | the timer stops the animation and nothing else |
| InputBox.EnhanceStyleNames | front/src/app/chat/components/input-box.tsx:98 | the enhancer receives one of the four style names in upper case |
| Jumbotron.NextIndex | front/src/app/landing/components/jumbotron.tsx:71-73 | forward stays in range and wraps from the last slide to the first |
| Jumbotron.PrevIndex | front/src/app/landing/components/jumbotron.tsx:75-77 | back stays in range and wraps from the first slide to the last |
| Jumbotron.NextPrevInverse | front/src/app/landing/components/jumbotron.tsx:71-77 | forward and back undo each other on every index in range |
| Jumbotron.StepsForwardIsModular | front/src/app/landing/components/jumbotron.tsx:71-73 | k steps forward land on (i + k) mod n |
| Jumbotron.FullCircle | front/src/app/landing/components/jumbotron.tsx:38-73 | three steps forward return to the starting slide |
| Jumbotron.CardFor | front/src/app/landing/components/jumbotron.tsx:341-345 | a slide is drawn as an image card exactly when its type is "inspiration", linking to the slide's link |
| Jumbotron.SlideCards | front/src/app/landing/components/jumbotron.tsx:38-69 | the first two slides show images and the third the acknowledgement text (also line 341) |
| Jumbotron.Carousel.constructor | front/src/app/landing/components/jumbotron.tsx:36 | the carousel starts at the first slide |
| Jumbotron.Carousel.Next | front/src/app/landing/components/jumbotron.tsx:71-73 | the index becomes the next one and stays in range |
| Jumbotron.Carousel.Prev | front/src/app/landing/components/jumbotron.tsx:75-77 | the index becomes the previous one and stays in range |
| Jumbotron.Carousel.Select | front/src/app/landing/components/jumbotron.tsx:461-464 | an indicator sets the index to its own slide |
| PlannerModel.FirstPending | src/graph/builder.py:26-30 | no position exactly when every step has a truthy execution result; otherwise the position of a step that has not run, with every step before it run |
| GraphBuilder.AgentFor | src/graph/builder.py:31-41 | research and persona-research steps go to the researcher, processing steps to the coder, strategy-formulation and message-drafting steps to the strategizer |
| GraphBuilder.ContinueToRunningResearchTeam | src/graph/builder.py:22-42 | the route is one of the declared targets; it is the planner exactly when there is no plan, no step or no step left to run, and otherwise the agent for the first step that has not run |
| GraphBuilder.RouteDependsOnFirstPending | src/graph/builder.py:26-41 | two plans whose first pending step is at the same position and of the same kind are routed to the same agent, whatever their later steps |
| GraphBuilder.FirstPendingIsFirst | src/graph/builder.py:28-30 | a step that has not run, with all steps before it run, is the one the router's loop stops at |
| GraphBuilder.EdgesAreSuccessors | src/graph/builder.py:48-64 | the three fixed edges and every route of the research team's conditional edge are among the declared successors |
| GraphBuilder.PathToEnd | src/graph/builder.py:45-65 | from every node there is a path along declared successors that reaches the end |
| GraphNodes.Iterations | src/graph/nodes.py:110 | a missing iteration count reads as zero, a stored one as itself |
| GraphNodes.OrElse | src/graph/nodes.py:237 | the result is truthy iff either operand is; the first operand wins when truthy, else the second |
| GraphNodes.ChooseTemplate | src/graph/nodes.py:239-245 | an id is chosen iff one is given; a template is attached only when the library holds one with that id, and none is attached only when no library entry has it |
| GraphNodes.FallBack | src/graph/nodes.py:219-229 | a plan that cannot be read sends the planner to the reporter iff an iteration has been made before, and to the end otherwise |
| GraphNodes.PlannerNode | src/graph/nodes.py:150-266 | an exhausted budget goes to the reporter without a new plan; a raised call or a blank answer ends the workflow; a plan is stored iff it decodes to an object with all required keys; a decoded list or string that holds every required field name passes the field check and then raises at `.get`, outside the try; human feedback follows iff that plan lacks enough context; only a plan with enough context carries a template choice |
| GraphNodes.PlannerBudgetIgnoresAnswer | src/graph/nodes.py:150-151 | once the budget is spent, any two answers give the same command |
| GraphNodes.PlanTemplateOverridesConfigured | src/graph/nodes.py:237 | a template id the plan names wins over the one chosen in the front end |
| GraphNodes.ProceedAsWritten | src/graph/nodes.py:293-336 | handling of an accepted plan as written: an undecodable plan goes to the reporter iff more than one iteration was stored; JSON of another shape fails the lookup with a caught TypeError after the count is raised, so it goes to the reporter iff one was made; an object is accepted |
| GraphNodes.Proceed | src/graph/nodes.py:293-336 | corrected handling of an accepted plan: an unreadable plan goes to the reporter iff an iteration was made before, else to the end; a readable one is accepted |
| GraphNodes.Accept | src/graph/nodes.py:305-336 | a decoded plan missing `has_enough_context` or `locale` raises; otherwise one more iteration is counted, the reporter follows iff it has enough context and the research team otherwise, and the plan's locale and its template choice are kept |
| GraphNodes.HumanFeedbackNode | src/graph/nodes.py:269-336 | without auto-acceptance an edit request returns to the planner with the reply, a reply that is neither edit nor accept raises, and an accepted plan proceeds by the rule as written (ProceedAsWritten); every hand-over is to one of the four declared targets |
| GraphNodes.AcceptanceCountsOneIteration | src/graph/nodes.py:294-305 | accepting a plan records exactly one more iteration than was stored |
| GraphNodes.MarkersIgnoreCase | src/graph/nodes.py:279-288 | a reply that upper-cases to the accept marker accepts and requests no edit |
| GraphNodes.LowerCaseAcceptance | src/graph/nodes.py:288 | "[accepted]" in lower case accepts the plan |
| GraphNodes.UnreadablePlanAfterOneIteration | src/graph/nodes.py:309-314 | with one earlier iteration and an undecodable plan the code as written ends the workflow, while the corrected rule goes to the reporter |
| GraphNodes.ProceedAgreesOnDecodablePlans | src/graph/nodes.py:296-336 | apart from an undecodable plan the code as written and the corrected rule agree |
| GraphNodes.FeedbackNodeEndsOnUnreadablePlan | src/graph/nodes.py:309-314 | the node itself, given an accepted undecodable plan after one iteration, ends the workflow where the corrected rule goes to the reporter |
| GraphNodes.FeedbackNodeIntendedOnDecodablePlans | src/graph/nodes.py:296-336 | on every accepted plan that is JSON, the node as written gives what the corrected rule gives |
| GraphNodes.FirstHandoff | src/graph/nodes.py:364-372 | no position iff no call is a complete hand-off to the planner; otherwise the first complete hand-off |
| GraphNodes.CoordinatorNode | src/graph/nodes.py:353-372 | no tool call ends the workflow; any call goes to the background investigation when enabled, else to the planner; locale and topic come from the first complete hand-off, else from the state with "en-US" and "" as defaults; the user background is kept iff configured non-empty |
| GraphNodes.HandoffIsFirst | src/graph/nodes.py:364-372 | a complete hand-off with none before it is the one the loop picks |
| GraphNodes.DropUnderscores | src/graph/nodes.py:528 | removing the underscores of a Python numeral leaves only digits, and a numeral without underscores is unchanged |
| GraphNodes.PyInt | src/graph/nodes.py:528 | `int(s)` succeeds only on stripped text that is an optional sign followed by a Python decimal numeral |
| GraphNodes.RecursionLimit | src/graph/nodes.py:525-545 | the limit is always positive; it is the environment's value (default text "25") when that parses to a positive integer, and 25 otherwise |
| GraphNodes.PyIntOfNumeral | src/graph/nodes.py:528 | the decimal text of a natural number parses back to that number |
| GraphNodes.RecursionLimitOfNumeral | src/graph/nodes.py:527-531 | a positive number written in the environment is used as it is |
| GraphNodes.RecursionLimitDefaults | src/graph/nodes.py:525-538 | without the variable, and with "0", the limit is 25 |
| GraphNodes.RecursionLimitOfWord | src/graph/nodes.py:539-545 | text that starts with neither a sign nor a digit gives 25 |
| GraphNodes.FindingsText | src/graph/nodes.py:462-467 | the findings text is empty exactly when no step has completed |
| GraphNodes.Completed | src/graph/nodes.py:562-572 | the chosen step gets the result and every other step is unchanged |
| GraphNodes.ExecutionAdvances | src/graph/nodes.py:446-453 | recording a non-empty result moves the first pending step strictly later, or leaves none (also line 562) |
| GraphNodes.EmptyResultRepeatsStep | src/graph/nodes.py:449 | an empty result leaves the same step first pending, since it is falsy (also line 562) |
| GraphNodes.FindingsStep | src/graph/nodes.py:465-467 | appending the next finding extends the findings of one more completed step |
| GraphNodes.ResearchState.constructor | src/graph/nodes.py:442-443 | the state starts with the plan's steps, the observations and no messages |
| GraphNodes.ResearchState.ExecuteAgentStep | src/graph/nodes.py:438-587 | without a pending step nothing changes; otherwise the agent gets the findings of the steps before the first pending one and that step's task, the step records the reply (or the error text), and the result is appended to observations and messages; the route is always the research team |
| GraphNodes.CompletedStepsInfo | src/graph/nodes.py:461-467 | the loop builds exactly the findings text of the completed steps |
| TemplateLoader.Loader.constructor | src/utils/template_loader.py:15-34 | the loaded records become the templates; a missing or unreadable file leaves none |
| TemplateLoader.FindById | src/utils/template_loader.py:40-45 | a template is found only if it is in the library with that id, and nothing is found exactly when no template has the id |
| TemplateLoader.FindByIdFirst | src/utils/template_loader.py:42-44 | the template found is the one at the first position carrying the id |
| TemplateLoader.Loader.GetTemplateById | src/utils/template_loader.py:40-45 | the scan returns the first template with the id, or nothing |
| TemplateLoader.Loader.ByTone | src/utils/template_loader.py:47-49 | the result keeps the library's order, holds only templates whose tone equals the given one ignoring case (a missing tone as ""), and every such template |
| TemplateLoader.Loader.ByUseCase | src/utils/template_loader.py:51-53 | the result keeps the library's order, holds only templates whose use case contains the given text ignoring case, and every such template |
| TemplateLoader.Loader.GetTemplateSummary | src/utils/template_loader.py:55-66 | the summary is the header followed by one block per template, in library order |
| TemplateLoader.Loader.GetTemplatesSummary | src/utils/template_loader.py:68-70 | the same summary as GetTemplateSummary |
| TemplateLoader.BlocksAppend | src/utils/template_loader.py:58-65 | summarising two lists one after the other gives the summary of their concatenation |
| TemplateLoader.BlockEndsWithRule | src/utils/template_loader.py:65 | every block ends with a rule of fifty dashes and a blank line |
| TemplateLoader.BlockOpensWithId | src/utils/template_loader.py:59 | every block opens with the template's id line, "N/A" when the id is missing |
| TemplateLoader.Dashes | src/utils/template_loader.py:65 | `"-" * n` is n dashes |
| TemplateSelector.Score | src/tools/template_selector.py:55-70 | a score is at most six; a use-case match guarantees at least two and without one it is at most four; it is zero exactly when no fillable placeholder is present and the use case does not match |
| TemplateSelector.CandidatesFromLibrary | src/tools/template_selector.py:31-47 | the scored templates keep the library's order and are never empty when the library is not |
| TemplateSelector.UseCaseOverridesTone | src/tools/template_selector.py:37-47 | when some template matches the use case the preferred tone has no effect on the templates scored |
| TemplateSelector.SelectBestTemplate | src/tools/template_selector.py:15-81 | an empty library gives nothing; nothing is chosen exactly when every candidate scores zero; otherwise the choice is the first candidate with the top, positive score, returned when it has a template_id and raising KeyError when it has none |
| TemplateSelector.BestOf | src/tools/template_selector.py:51-74 | the scoring loop returns nothing iff all scores are zero, and otherwise the first template with the highest score |
| TemplateSelector.BestBy | src/tools/template_selector.py:51-74 | the loop with `score > best_score` returns the first maximum of any non-negative scoring, and nothing iff all scores are zero |
| TemplateSelector.WordRun | src/tools/template_selector.py:89 | the longest prefix of `\w` characters: all word characters, followed by a non-word character or the end |
| TemplateSelector.MatchAt | src/tools/template_selector.py:89 | the expression `\{\{(\w+)\}\}` matches at a position exactly when a placeholder starts there, and captures its name |
| TemplateSelector.PlaceholderNameIsRun | src/tools/template_selector.py:89 | a placeholder's name is the whole run of word characters after its opening braces |
| TemplateSelector.VariablesFromSpec | src/tools/template_selector.py:89 | a name is collected from a position on exactly when a placeholder for it starts at or after that position |
| TemplateSelector.TemplateVariables | src/tools/template_selector.py:84-90 | the variables are exactly the names of the placeholders in the prompt, each a non-empty run of word characters |
| TemplateSelector.FillTemplate | src/tools/template_selector.py:93-100 | the text is the prompt after each key in turn has had every `{{key}}` replaced by its value |
| TemplateSelector.FilledWithoutPlaceholders | src/tools/template_selector.py:97-98 | a prompt without `{{` is returned unchanged, whatever the values |
| TemplateSelector.FillWithNothing | src/tools/template_selector.py:93-100 | with no values the prompt comes back as it is |
| TemplateSelector.Take | src/tools/template_selector.py:115 | `[:n]` is the prefix of length n, or the whole text when shorter |
| TemplateSelector.UiEntry | src/tools/template_selector.py:110-116 | the entry keeps id, tone and use case, labels itself "use case - tone" (with "None" for missing ones), and previews a prefix of at most a hundred characters followed by "..." |
| TemplateSelector.GetTemplatesForUi | src/tools/template_selector.py:103-118 | one entry per template, in library order |
| TavilyWrapper.Escaped | src/tools/tavily_search/enhanced_tavily_wrapper.py:55 | escaping adds exactly one character per Markdown special character, and leaves a text without any unchanged |
| TavilyWrapper.EscapeMd | src/tools/tavily_search/enhanced_tavily_wrapper.py:51-55 | a falsy text gives ""; otherwise the length grows by the number of special characters |
| TavilyWrapper.EscapedHead | src/tools/tavily_search/enhanced_tavily_wrapper.py:55 | an escaped text never starts with a bare special character |
| TavilyWrapper.UnescapeEscaped | src/tools/tavily_search/enhanced_tavily_wrapper.py:55 | escaping loses nothing: reading each backslash-special pair back gives the original text |
| TavilyWrapper.DedupResults | src/tools/tavily_search/enhanced_tavily_wrapper.py:67-80 | the loop with its two seen-sets keeps exactly the results that clash with no earlier kept url or stripped content |
| TavilyWrapper.DedupBy | src/tools/tavily_search/enhanced_tavily_wrapper.py:69-79 | the same loop for any content key |
| TavilyWrapper.DedupStep | src/tools/tavily_search/enhanced_tavily_wrapper.py:75-79 | one turn of the loop: a seen url or content skips the result, otherwise it is kept and both sets grow by its url and content |
| TavilyWrapper.ClashesSeen | src/tools/tavily_search/enhanced_tavily_wrapper.py:75 | clashing with the kept results is meeting a url or a content in the seen-sets |
| TavilyWrapper.DedupedIsSubsequence | src/tools/tavily_search/enhanced_tavily_wrapper.py:67-80 | the kept results are the input with some results deleted, order kept |
| TavilyWrapper.DedupedDistinct | src/tools/tavily_search/enhanced_tavily_wrapper.py:67-80 | no two kept results share a url or a content key |
| TavilyWrapper.DroppedClash | src/tools/tavily_search/enhanced_tavily_wrapper.py:75-76 | every dropped result repeats the url or content of a kept one |
| TavilyWrapper.DedupedOfDistinct | src/tools/tavily_search/enhanced_tavily_wrapper.py:67-80 | a list without repeats is kept whole |
| TavilyWrapper.DedupIdempotent | src/tools/tavily_search/enhanced_tavily_wrapper.py:67-80 | de-duplicating twice gives the same as once |
| TavilyWrapper.UrlLessResultsCollapse | src/tools/tavily_search/enhanced_tavily_wrapper.py:73-77 | results without a url share the url None, so only the first of them is kept |
| TavilyWrapper.Badge | src/tools/tavily_search/enhanced_tavily_wrapper.py:40-49 | a platform gets the table's emoji when listed and the globe exactly when not (also line 121) |
| TavilyWrapper.Platform | src/tools/tavily_search/enhanced_tavily_wrapper.py:119-120 | a searched domain is the platform; otherwise the third `/`-separated part of the url, "" for an empty url, and an IndexError when the url has no third part |
| TavilyWrapper.PlatformOfUrl | src/tools/tavily_search/enhanced_tavily_wrapper.py:119 | for `scheme://host` and `scheme://host/path` the platform is the host |
| TavilyWrapper.BareHostFails | src/tools/tavily_search/enhanced_tavily_wrapper.py:119 | a url without slashes, such as a bare host name, has no platform |
| TavilyWrapper.Truncated | src/tools/tavily_search/enhanced_tavily_wrapper.py:124-125 | content of at most 400 characters is kept; longer content is cut to 400 characters followed by a read-more link to the url |
| TavilyWrapper.TruncatedKeepsHead | src/tools/tavily_search/enhanced_tavily_wrapper.py:124-125 | the shown content starts with the first (at most 400) characters of the escaped content |
| TavilyWrapper.DomainSearchBadges | src/tools/tavily_search/enhanced_tavily_wrapper.py:177-199 | each platform-specific search shows its domain for every result, and that domain has an emoji in the table |
| TavilyWrapper.EntriesFor | src/tools/tavily_search/enhanced_tavily_wrapper.py:157-169 | each result gives its page entry, then an image entry exactly when it has an image link |
| TavilyWrapper.ExpandCounts | src/tools/tavily_search/enhanced_tavily_wrapper.py:156-169 | the list has one page entry per result and as many entries as results plus images |
| TavilyWrapper.ExpandAt | src/tools/tavily_search/enhanced_tavily_wrapper.py:156-169 | a result's entries sit, in order, between those of the results before and after it |
| TavilyWrapper.ExpandResults | src/tools/tavily_search/enhanced_tavily_wrapper.py:156-171 | the loop builds exactly the expanded entry list |
| TavilyWrapper.SearchTavily | src/tools/tavily_search/enhanced_tavily_wrapper.py:82-174 | no key gives the missing-key message and sends no request; otherwise the request carries query, limit and domain; a raised error is reported with its text; a reply is de-duplicated and, unless a url has no platform, expanded to the JSON list |
| TavilyWrapper.PlatformsOk | src/tools/tavily_search/enhanced_tavily_wrapper.py:110-121 | the Markdown loop gets through iff every kept result has a platform |
| ApiClient.NormalizedBaseUrl | benchmark/api_client.py:23 | the base url is a prefix of the given url with only slashes removed from its end, and does not end in a slash |
| ApiClient.NormalizedBaseUrlIdempotent | benchmark/api_client.py:23 | normalising a normalised url changes nothing |
| ApiClient.TrailingSlashesIgnored | benchmark/api_client.py:23 | urls that differ only in trailing slashes give the same base url |
| ApiClient.UnghostClient.constructor | benchmark/api_client.py:22-24 | the client keeps the normalised base url |
| ApiClient.BuildPrompt | benchmark/api_client.py:95-125 | building the prompt fails (a KeyError) exactly when the sender has no background, and otherwise starts with "Create a <use case> outreach message" |
| ApiClient.OutreachRequest | benchmark/api_client.py:61-78 | no request is sent exactly when the prompt cannot be built; otherwise the payload carries the prompt and the sender's background |
| ApiClient.PayloadSettings | benchmark/api_client.py:64-78 | the payload has one user message with the prompt and the benchmark's fixed settings: background investigation on, one plan iteration, three steps, three search results, plan auto-accepted, friendly style |
| ApiClient.DataPayload | benchmark/api_client.py:148-150 | a line has a payload exactly when its stripped text starts with "data: ", and the payload is what follows the prefix |
| ApiClient.DataPayloadNeverEmpty | benchmark/api_client.py:148-151 | a payload is never empty, since a stripped line does not end in white space |
| ApiClient.EventText | benchmark/api_client.py:155-158 | an event contributes text exactly when it decodes to an object with content or chunk, and content wins |
| ApiClient.PieceOf | benchmark/api_client.py:147-160 | a line contributes only when it carries a payload other than "" and "[DONE]", and then what its decoded event gives |
| ApiClient.IgnoredLine | benchmark/api_client.py:149-151 | a line that is not an event, or is the end marker, adds nothing to the response |
| ApiClient.StreamChatResponse | benchmark/api_client.py:127-169 | the response is the pieces of the lines, in order, joined |
| ApiClient.LatestStart | benchmark/api_client.py:191-195 | the position found is -1 or within the response |
| ApiClient.LatestStartSpec | benchmark/api_client.py:191-195 | -1 exactly when no start marker occurs; otherwise a marker occurs at the position found and none occurs after it |
| ApiClient.CutAtEndsSpec | benchmark/api_client.py:202-206 | the cut message is a piece of the message and contains none of the non-empty end markers |
| ApiClient.LastLongParagraph | benchmark/api_client.py:211-214 | a paragraph found is one of the paragraphs |
| ApiClient.LastLongParagraphSpec | benchmark/api_client.py:211-214 | nothing is found exactly when no stripped paragraph is over 50 characters; otherwise the one found is, and none after it is |
| ApiClient.ExtractedIsSubstring | benchmark/api_client.py:171-216 | whatever the response, the extracted message is a piece of it |
| ApiClient.ExtractedAvoidsEndMarkers | benchmark/api_client.py:197-208 | a message found from a start marker contains none of the end markers |
| ApiClient.ExtractedFallsBackToWhole | benchmark/api_client.py:209-216 | with no start marker and no long paragraph the message is the whole response, stripped |
| ApiClient.ExtractMessage | benchmark/api_client.py:171-216 | the method computes the message the extraction defines |
| ApiClient.LongParagraph | benchmark/api_client.py:211-214 | the backward loop returns the last long paragraph, stripped, or nothing |
| ApiClient.MessageStart | benchmark/api_client.py:191-195 | the loop finds the latest position of any start marker |
| ApiClient.CutMessage | benchmark/api_client.py:202-206 | the loop makes every end-marker cut in order |
| LlmConfig.EnvConf | src/llms/llm.py:39-45 | every value read from the environment is a string |
| LlmConfig.EnvConfSpec | src/llms/llm.py:39-45 | a key is set exactly when some variable carries the prefix and lowercases to it after the prefix, and its value is that of the last such variable |
| LlmConfig.EnvConfLast | src/llms/llm.py:41-44 | the last variable sets its key and leaves every other key as the earlier variables left it |
| LlmConfig.GetEnvLlmConf | src/llms/llm.py:33-45 | the loop over the environment builds exactly the prefixed settings |
| LlmConfig.Merge | src/llms/llm.py:66 | the merged keys are those of both; the environment's value wins where both have one, the file's applies elsewhere |
| LlmConfig.ClientFor | src/llms/llm.py:71-86 | a base url that is not text is rejected; an Azure client is made exactly when the base url contains "azure"; otherwise the reasoning type gets a DeepSeek client with `base_url` renamed to `api_base` and every other key kept, and any other type an OpenAI client with the merged settings |
| LlmConfig.CreateLlm | src/llms/llm.py:48-86 | an unknown type, a section that is not a mapping, and an empty merged configuration are each rejected exactly in their case; in every other case the outcome is ClientFor on the merge of the file's section and the environment, so a client is made unless base_url is not text |
| LlmConfig.EnvironmentWins | src/llms/llm.py:65-66 | a setting in the environment overrides the file's, and the client sees the environment's string |
| LlmConfig.LlmCache.constructor | src/llms/llm.py:16 | the cache starts empty and nothing has been loaded |
| LlmConfig.LlmCache.GetLlmByType | src/llms/llm.py:89-101 | a cached type is answered from the cache without loading the configuration; otherwise it is loaded once and a client made is cached, the cache otherwise unchanged |
| LlmConfig.SecondRequestIsCached | src/llms/llm.py:95-100 | once a client is made, asking again gives the same client whatever the file now says, with at most one load in all |
| LlmConfig.ListedSpec | src/llms/llm.py:115-131 | over distinct types, a type is listed exactly when its merged configuration names a truthy model, and then with that one model |
| LlmConfig.ListingFailureIsEmpty | src/llms/llm.py:111-138 | a failed load, or a section that cannot be spread, lists nothing at all |
| LlmConfig.GetConfiguredLlmModels | src/llms/llm.py:104-138 | the loop builds exactly the listed models, or nothing when the listing fails |
| Text.TrimEmptyIff | benchmark/api_client.py:148 | a strip gives "" exactly when every character is white space |
| Text.TrimEnds | benchmark/api_client.py:148 | neither end of a stripped text is white space |
| Text.TrimIdempotent | benchmark/api_client.py:148 | stripping twice is stripping once (also line 199) |
| Text.Find | benchmark/api_client.py:204 | `find` gives -1 exactly when the text does not occur, and otherwise its first position |
| Text.RFind | benchmark/api_client.py:193 | `rfind` gives -1 exactly when the text does not occur, and otherwise its last position |
| Text.JoinSplit | benchmark/api_client.py:211 | joining the parts of a split with the separator gives the text back |
| Text.SplitPartsAvoidSeparator | benchmark/api_client.py:211 | no part of a split contains the separator |
| Text.ReplaceIsSplitJoin | src/tools/template_selector.py:98 | `replace` is splitting on the old text and joining with the new one |
| Text.ReplaceAbsent | src/tools/template_selector.py:98 | a text without the old text is left as it is |
| Text.NatToString | src/graph/nodes.py:527 | `str(n)` is a decimal numeral without a leading zero that reads back as n |
| Seqs.Filter | src/utils/template_loader.py:49-53 | a comprehension's filter keeps exactly the elements passing the test, in order |
| Seqs.FilterIdempotent | src/utils/template_loader.py:49-53 | filtering twice with the same test is filtering once |
| Seqs.DedupSpec | front/src/app/chat/components/templates-dialog.tsx:137 | `[...new Set(xs)]` keeps exactly the elements of xs, each once, in order of first occurrence |

## Left out

- Case mapping and character classes: `toLowerCase`, `lower()`, `upper()` and the expression class `\w` are modelled on ASCII letters, digits and `_` only. The model has no Unicode case tables.
- GraphNodes.PyInt: Python's `int()` also accepts non-ASCII Unicode digits; the model reads ASCII digits only.
- The message-stream store (`openResearch`, `closeResearch`, `useMessage`, `researchReportIds`) is not part of this model. Its answers are inputs of the message-list functions, and its calls are named by the outcome they request.
- The plan card's title and steps come from `parseJSON` (a best-effort JSON parser), and the report card's parts from the lookahead expressions of `parseSection`. Both are inputs of the model.
- JSON handling:
  - `JSON.parse` / `JSON.stringify` of the settings entry are identity on a settings datatype, with unparsable text as its own case;
  - `json.loads`, `json.dumps` and `repair_json_output` are inputs (a decoded shape, a repaired string);
  - pydantic's `Plan.model_validate` is not modelled: a decoded plan is taken as valid once its required keys are there.
- GraphBuilder.ContinueToRunningResearchTeam: the final `return "planner"` for a step whose type is falsy cannot be reached, because pydantic requires `step_type` (src/prompts/planner_model.py:22); the step type is never missing in the model.
- LangGraph itself: the node functions are modelled by their decisions. Compilation, checkpointing, `interrupt`, the state reducers and the background-investigation and reporter nodes' model calls are left out.
- Language-model and agent calls (`invoke`, `stream`, `ainvoke`, `create_agent`) are inputs. The structured-output branch and the streaming branch of the planner share one answer type.
- The strategizer's extra template message and the researcher's resource and citation messages in `_execute_agent_step` are not modelled; only the task message, the step result, the observations and the message log are.
- LlmConfig: the set of model types that `get_configured_llm_models` iterates is a parameter, because src/config/agents.py is not part of this model. The client constructors are records of their arguments.
- LlmConfig: the errors of `_create_llm_use_conf` keep their kind and drop their message texts.
- The YAML file and the environment are inputs: `load_yaml_config` is a given configuration (or a failure), and `os.environ` is a list of name/value pairs.
- TavilyWrapper.SearchTavily: the HTTP request is described by a request record and the reply is an input. The Markdown blocks are only written to the log, so only their truncation, badge and platform (and the IndexError a url without a third part raises) are modelled. `normalize_date` (datetime parsing) is left out.
- TavilyWrapper: every field of a result is an optional string. A field of another JSON type is not modelled; `strip()` on it would raise. A result that is not a JSON object is not modelled either.
- Getting the Tavily API key from conf.yaml or the environment is reduced to the resulting key.
- ApiClient: `health_check`, the HTTP session, the timeout and the `datetime.now()` timings are left out. The streamed lines are given as decoded text, and decoding a payload is a parameter that yields an event. A payload that decodes to JSON other than an object is not modelled. For example, a JSON string holding "content" makes the source raise a TypeError.
- TemplateSelector.FillTemplate: the contract states that the placeholders are replaced key by key in order, and that a text without placeholders or an empty set of values is left as it is. It does not prove that a placeholder whose key has no value survives, since a replacement value may itself contain braces.
- TemplateSelector.TemplateVariables: Python returns `list(set(...))`, whose order is unspecified; the model returns the set.
- TemplateLoader: `get_all_templates` is the `templates` field itself. The file path and the JSON reading are an input outcome (missing, unreadable, or the records).
- Timers and asynchronous deferral: the settings dialog's `setTimeout` is modelled as immediate; the input box's animation timer is a separate method `EndAnimation`.
- Browser glue: clipboard writes, Blob downloads, the mail link, focus handling and window events other than Escape are left out of the live preview, onboarding and input box.
- Rendering-only parts (layout, animations, icons, themes) are not modelled. Only the decisions that choose what is shown are.
- The accept message's random greeting and emoji are parameters of `MessageListView.AcceptMessage`.
- The general tab's progress-bar width uses floating point and is left out.

## Findings

| source | as written | input that shows it | evidently intended | confidence | as-written member | corrected member |
|---|---|---|---|---|---|---|
| front/src/app/chat/components/message-list-view.tsx:687 | `!message.isStreaming && interruptMessage?.options?.length && (…)` renders the value of `length` when it is 0 | a finished plan whose interrupt carries an empty option list: React prints "0" in the card footer | render nothing when there are no options | not executed | MessageListView.FooterAsWritten, MessageListView.EmptyOptionsPrintZero | MessageListView.PlanFooter |
| src/graph/nodes.py:309-314 | on a plan that fails to decode, the code compares `plan_iterations > 1`, but the count is raised only after decoding succeeds, despite the comment at 311 | one earlier plan iteration (`plan_iterations == 1`) and an undecodable plan: the workflow ends instead of going to the reporter | the planner's own rule (src/graph/nodes.py:219-229): the reporter whenever an iteration was made before | not executed | GraphNodes.HumanFeedbackNode, GraphNodes.ProceedAsWritten, GraphNodes.FeedbackNodeEndsOnUnreadablePlan | GraphNodes.Proceed |
