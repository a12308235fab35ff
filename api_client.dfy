/**
 * The benchmark's client for the back end's chat API: the base url, the
 * prompt and request built from a test scenario, the collection of the
 * streamed `data:` events into one text, and the extraction of the
 * outreach message from that text.
 */
module ApiClient {
  import opened Wrappers
  import opened Text

  // ---------------------------------------------------------------------
  // Substrings
  // ---------------------------------------------------------------------

  /** Every part of a split is a substring of what was split. */
  lemma {:induction false} SplitPartsInfix(s: string, sep: string)
    requires sep != []
    ensures forall k :: 0 <= k < |Split(s, sep)| ==> Contains(s, Split(s, sep)[k])
    decreases |s|
  {
    var parts := Split(s, sep);
    var i := Find(s, sep);
    if i < 0 {
      assert parts == [s];
      ContainsSlice(s, 0, |s|);
      assert s[0..|s|] == s;
    } else {
      var rest := s[i + |sep|..];
      var tail := Split(rest, sep);
      assert parts == [s[..i]] + tail;
      SplitPartsInfix(rest, sep);
      ContainsSlice(s, 0, i);
      assert s[0..i] == s[..i];
      ContainsSlice(s, i + |sep|, |s|);
      assert s[i + |sep|..|s|] == rest;
      forall k | 0 < k < |parts|
        ensures Contains(s, parts[k])
      {
        assert parts[k] == tail[k - 1];
        ContainsTrans(s, rest, tail[k - 1]);
      }
    }
  }

  // ---------------------------------------------------------------------
  // The client and its base url
  // ---------------------------------------------------------------------

  predicate IsSlash(c: char) { c == '/' }

  const DefaultBaseUrl := "http://localhost:8000"

  /** `base_url.rstrip('/')`: the url without its trailing slashes, and nothing else removed. */
  function NormalizedBaseUrl(url: string): (r: string)
    ensures r <= url && forall i :: |r| <= i < |url| ==> url[i] == '/'
    ensures r == [] || r[|r| - 1] != '/'
  {
    TrimRightSpec(url, IsSlash);
    TrimRight(url, IsSlash)
  }

  /** Normalising a normalised url changes nothing. */
  lemma NormalizedBaseUrlIdempotent(url: string)
    ensures NormalizedBaseUrl(NormalizedBaseUrl(url)) == NormalizedBaseUrl(url)
  {
  }

  /** Urls that differ only in trailing slashes reach the same endpoints. */
  lemma TrailingSlashesIgnored(url: string, n: nat)
    ensures NormalizedBaseUrl(url + Slashes(n)) == NormalizedBaseUrl(url)
    decreases n
  {
    if n > 0 {
      assert (url + Slashes(n))[..|url + Slashes(n)| - 1] == url + Slashes(n - 1);
      TrailingSlashesIgnored(url, n - 1);
    } else {
      assert url + Slashes(n) == url;
    }
  }

  function Slashes(n: nat): string
  {
    if n == 0 then "" else Slashes(n - 1) + "/"
  }

  class UnghostClient {
    var baseUrl: string

    constructor(url: string)
      ensures baseUrl == NormalizedBaseUrl(url)
    {
      baseUrl := NormalizedBaseUrl(url);
    }

    function ChatStreamUrl(): string
      reads this
    {
      baseUrl + "/api/chat/stream"
    }

    function DocsUrl(): string
      reads this
    {
      baseUrl + "/docs"
    }
  }

  // ---------------------------------------------------------------------
  // The prompt and the request built from a scenario
  // ---------------------------------------------------------------------

  datatype Recipient = Recipient(
    name: string, role: string, company: string, recentActivity: string,
    interests: seq<string>, profileSummary: string)

  /** The background is the one field read both with and without a default. */
  datatype Sender = Sender(
    name: string, background: Option<string>, company: string, objective: string, valueProposition: string)

  datatype Scenario = Scenario(id: string, useCase: string, recipient: Recipient, sender: Sender)

  const PromptClosing := "\n\nGenerate ONLY the message content, without any preamble or explanation."

  function PromptHead(sc: Scenario): string
  {
    "Create a " + sc.useCase + " outreach message"
  }

  function PromptText(sc: Scenario, background: string): string
  {
    PromptHead(sc) + PromptBody(sc, background) + PromptClosing
  }

  function PromptBody(sc: Scenario, background: string): string
  {
    var rc, sd := sc.recipient, sc.sender;
    " with the following context:\n\n"
    + ("RECIPIENT INFORMATION:\n- Name: " + rc.name + "\n- Role: " + rc.role + " at " + rc.company
       + "\n- Recent Activity: " + rc.recentActivity + "\n- Interests: " + Join(rc.interests, ", ")
       + "\n- Profile: " + rc.profileSummary + "\n\n")
    + ("SENDER INFORMATION:\n- Name: " + sd.name + "\n- Background: " + background + "\n- Company: " + sd.company
       + "\n- Objective: " + sd.objective + "\n- Value Proposition: " + sd.valueProposition + "\n\n")
    + ("Please create a personalized outreach message that:\n"
       + "1. References the recipient's recent activity\n"
       + "2. Establishes common ground or mutual interests\n"
       + "3. Clearly communicates the value proposition\n"
       + "4. Includes a specific but low-pressure call-to-action\n"
       + "5. Maintains an authentic, human tone appropriate for " + sc.useCase)
  }

  /** `_build_prompt`: a missing sender background is a KeyError (None). */
  function BuildPrompt(sc: Scenario): (r: Option<string>)
    ensures r.None? <==> sc.sender.background.None?
    ensures r.Some? ==> StartsWith(r.value, "Create a " + sc.useCase + " outreach message")
                        && EndsWith(r.value, PromptClosing)
  {
    if sc.sender.background.None? then None
    else
      ConcatEnds(PromptHead(sc), PromptBody(sc, sc.sender.background.value), PromptClosing);
      Some(PromptText(sc, sc.sender.background.value))
  }

  datatype ChatMessage = ChatMessage(role: string, content: string)

  datatype ChatRequest = ChatRequest(
    messages: seq<ChatMessage>,
    userBackground: string,
    enableBackgroundInvestigation: bool,
    maxPlanIterations: int,
    maxStepNum: int,
    maxSearchResults: int,
    autoAcceptedPlan: bool,
    reportStyle: string)

  /**
   * The request `generate_outreach` sends, or None when building the prompt
   * raises; the prompt is built first, so the payload's default background
   * is never used.
   */
  function OutreachRequest(sc: Scenario): (r: Option<ChatRequest>)
    ensures r.None? <==> sc.sender.background.None?
    ensures r.Some? ==> r.value == Payload(BuildPrompt(sc).value, sc.sender.background.value)
  {
    match BuildPrompt(sc)
    case None => None
    case Some(prompt) => Some(Payload(prompt, GetOr(sc.sender.background, "")))
  }

  /** The request body: one user message and the benchmark's fixed settings. */
  function Payload(prompt: string, background: string): ChatRequest
  {
    ChatRequest([ChatMessage("user", prompt)], background, true, 1, 3, 3, true, "friendly")
  }

  /**
   * The benchmark runs with background investigation, one plan iteration,
   * at most three steps and three search results, the plan accepted
   * without review, and the friendly report style.
   */
  lemma PayloadSettings(prompt: string, background: string)
    ensures var p := Payload(prompt, background);
            p.messages == [ChatMessage("user", prompt)] && p.userBackground == background
            && p.enableBackgroundInvestigation && p.autoAcceptedPlan
            && p.maxPlanIterations == 1 && p.maxStepNum == 3 && p.maxSearchResults == 3
            && p.reportStyle == "friendly"
  {
  }

  // ---------------------------------------------------------------------
  // The streamed response
  // ---------------------------------------------------------------------

  /** What `json.loads` made of an event's payload. */
  datatype Event = NotJson | JsonObject(content: Option<string>, chunk: Option<string>)

  const DataPrefix := "data: "

  /** The text after "data: " on a stripped line, or None for any other line. */
  function DataPayload(line: string): (r: Option<string>)
    ensures r.Some? <==> StartsWith(PyStrip(line), DataPrefix)
    ensures r.Some? ==> PyStrip(line) == DataPrefix + r.value
  {
    var s := PyStrip(line);
    if StartsWith(s, DataPrefix) then
      assert s == s[..6] + s[6..];
      Some(s[6..])
    else None
  }

  /**
   * A stripped line does not end in a space, so a data line always carries
   * something after its prefix: the source's test for an empty payload never
   * succeeds.
   */
  lemma DataPayloadNeverEmpty(line: string)
    ensures DataPayload(line).Some? ==> DataPayload(line).value != ""
  {
    TrimEnds(line, IsPySpace);
    var s := PyStrip(line);
    if StartsWith(s, DataPrefix) {
      assert s[..6] == DataPrefix;
      assert s[5] == ' ' && IsPySpace(' ');
      assert |s| > 6;
    }
  }

  /** What an event adds to the response: its content, else its chunk. */
  function EventText(e: Event): (r: Option<string>)
    ensures r.Some? <==> e.JsonObject? && (e.content.Some? || e.chunk.Some?)
    ensures e.JsonObject? && e.content.Some? ==> r == e.content
  {
    match e
    case NotJson => None
    case JsonObject(content, chunk) => if content.Some? then content else chunk
  }

  /** A streamed line's piece of the response, if it has one. */
  function PieceOf(line: string, decode: string -> Event): (r: Option<string>)
    ensures r.Some? ==> DataPayload(line).Some? && DataPayload(line).value !in {"", "[DONE]"}
    ensures DataPayload(line).Some? && DataPayload(line).value !in {"", "[DONE]"} ==>
              r == EventText(decode(DataPayload(line).value))
  {
    var p := DataPayload(line);
    if p.None? || p.value == "" || p.value == "[DONE]" then None
    else EventText(decode(p.value))
  }

  function Pieces(lines: seq<string>, decode: string -> Event): seq<string>
  {
    if lines == [] then []
    else
      var init := Pieces(lines[..|lines| - 1], decode);
      match PieceOf(lines[|lines| - 1], decode)
      case Some(p) => init + [p]
      case None => init
  }

  /** A line that is not an event, or is the end marker, adds nothing. */
  lemma IgnoredLine(lines: seq<string>, line: string, decode: string -> Event)
    requires !StartsWith(PyStrip(line), DataPrefix) || PyStrip(line) == DataPrefix + "[DONE]"
    ensures Pieces(lines + [line], decode) == Pieces(lines, decode)
  {
    assert (lines + [line])[..|lines|] == lines;
    assert PieceOf(line, decode).None?;
  }

  /** `_stream_chat_response`: the pieces of the events, in order, joined. */
  method StreamChatResponse(lines: seq<string>, decode: string -> Event) returns (full: string)
    ensures full == Concat(Pieces(lines, decode))
  {
    var collected: seq<string> := [];
    var i := 0;
    while i < |lines|
      invariant 0 <= i <= |lines|
      invariant collected == Pieces(lines[..i], decode)
    {
      assert lines[..i + 1][..i] == lines[..i];
      var line := lines[i];
      if line != "" {
        var lineStr := PyStrip(line);
        if StartsWith(lineStr, DataPrefix) {
          var dataStr := lineStr[6..];
          if dataStr != "" && dataStr != "[DONE]" {
            var data := decode(dataStr);
            if data.JsonObject? && data.content.Some? {
              collected := collected + [data.content.value];
            } else if data.JsonObject? && data.chunk.Some? {
              collected := collected + [data.chunk.value];
            }
          }
        }
      } else {
        assert PyStrip(line) == [];
      }
      i := i + 1;
    }
    assert lines[..i] == lines;
    full := Concat(collected);
  }

  // ---------------------------------------------------------------------
  // The outreach message in the response
  // ---------------------------------------------------------------------

  const StartMarkers: seq<string> :=
    ["Subject:", "Hi ", "Hello ", "Dear ", "Hey ", "Good morning", "Good afternoon", "Good evening"]

  const EndMarkers: seq<string> := ["---", "```", "[End", "[Done", "Generated by"]

  /** The last position at which any of the markers occurs, or -1 when none does. */
  function LatestStart(s: string, markers: seq<string>): (r: int)
    ensures -1 <= r <= |s|
  {
    if markers == [] then -1
    else
      var prev := LatestStart(s, markers[..|markers| - 1]);
      var idx := RFind(s, markers[|markers| - 1]);
      if idx != -1 && (prev == -1 || idx > prev) then idx else prev
  }

  /**
   * -1 exactly when no marker occurs; otherwise some marker occurs at the
   * position found and none occurs after it.
   */
  lemma {:induction false} LatestStartSpec(s: string, markers: seq<string>)
    ensures LatestStart(s, markers) == -1 <==> forall k :: 0 <= k < |markers| ==> !Contains(s, markers[k])
    ensures LatestStart(s, markers) != -1 ==>
              exists k :: 0 <= k < |markers| && OccursAt(s, markers[k], LatestStart(s, markers))
    ensures forall k, i :: 0 <= k < |markers| && LatestStart(s, markers) < i ==> !OccursAt(s, markers[k], i)
  {
    if markers != [] {
      var init := markers[..|markers| - 1];
      var m := markers[|markers| - 1];
      var prev := LatestStart(s, init);
      var idx := RFind(s, m);
      var r := LatestStart(s, markers);
      LatestStartSpec(s, init);
      assert forall k :: 0 <= k < |init| ==> markers[k] == init[k];
      if r != -1 {
        if idx != -1 && (prev == -1 || idx > prev) {
          assert OccursAt(s, markers[|markers| - 1], r);
        } else {
          var k :| 0 <= k < |init| && OccursAt(s, init[k], prev);
          assert OccursAt(s, markers[k], r);
        }
      }
    }
  }

  /** The message cut before the first occurrence of each end marker in turn, stripped after each cut. */
  function CutAtEnds(msg: string, ems: seq<string>): string
  {
    if ems == [] then msg
    else
      var m := CutAtEnds(msg, ems[..|ems| - 1]);
      var idx := Find(m, ems[|ems| - 1]);
      if idx == -1 then m else PyStrip(m[..idx])
  }

  /** The cut message is a piece of the message and contains none of the (non-empty) end markers. */
  lemma {:induction false} CutAtEndsSpec(msg: string, ems: seq<string>)
    ensures Contains(msg, CutAtEnds(msg, ems))
    ensures forall k :: 0 <= k < |ems| && ems[k] != "" ==> !Contains(CutAtEnds(msg, ems), ems[k])
  {
    if ems == [] {
      ContainsSlice(msg, 0, |msg|);
      assert msg[0..|msg|] == msg;
    } else {
      var init := ems[..|ems| - 1];
      var m := CutAtEnds(msg, init);
      var em := ems[|ems| - 1];
      var idx := Find(m, em);
      CutAtEndsSpec(msg, init);
      assert forall k :: 0 <= k < |init| ==> ems[k] == init[k];
      if idx != -1 {
        CutKeepsAbsence(msg, m, idx, em, init);
      } else if em != "" {
        assert !Contains(m, em);
      }
    }
  }

  lemma CutKeepsAbsence(msg: string, m: string, idx: int, em: string, init: seq<string>)
    requires Contains(msg, m) && idx == Find(m, em) && idx != -1
    requires forall k :: 0 <= k < |init| && init[k] != "" ==> !Contains(m, init[k])
    ensures Contains(msg, PyStrip(m[..idx]))
    ensures forall k :: 0 <= k < |init| && init[k] != "" ==> !Contains(PyStrip(m[..idx]), init[k])
    ensures em != "" ==> !Contains(PyStrip(m[..idx]), em)
  {
    var head := m[..idx];
    var cut := PyStrip(head);
    ContainsSlice(m, 0, idx);
    assert m[0..idx] == head;
    ContainsStrip(head);
    ContainsTrans(m, head, cut);
    ContainsTrans(msg, m, cut);
    forall k | 0 <= k < |init| && init[k] != ""
      ensures !Contains(cut, init[k])
    {
      if Contains(cut, init[k]) {
        ContainsTrans(m, cut, init[k]);
      }
    }
    if em != "" {
      PrefixBeforeFind(m, em);
      if Contains(cut, em) {
        ContainsTrans(head, cut, em);
      }
    }
  }

  /** What comes before the first occurrence of a marker does not contain it. */
  lemma PrefixBeforeFind(m: string, em: string)
    requires em != "" && Find(m, em) != -1
    ensures !Contains(m[..Find(m, em)], em)
  {
    var idx := Find(m, em);
    var head := m[..idx];
    forall j | 0 <= j <= |head| - |em|
      ensures !OccursAt(head, em, j)
    {
      assert j < idx;
      assert !OccursAt(m, em, j);
      assert head[j..j + |em|] == m[j..j + |em|];
    }
  }

  /** The position of the last paragraph whose stripped text is longer than 50 characters. */
  function LastLongParagraph(paras: seq<string>): (r: Option<nat>)
    ensures r.Some? ==> r.value < |paras|
  {
    if paras == [] then None
    else if |PyStrip(paras[|paras| - 1])| > 50 then Some(|paras| - 1)
    else LastLongParagraph(paras[..|paras| - 1])
  }

  /**
   * None exactly when no paragraph is long; otherwise the paragraph found is
   * long and none after it is.
   */
  lemma {:induction false} LastLongParagraphSpec(paras: seq<string>)
    ensures LastLongParagraph(paras).None? <==> forall k :: 0 <= k < |paras| ==> |PyStrip(paras[k])| <= 50
    ensures LastLongParagraph(paras).Some? ==>
              var j := LastLongParagraph(paras).value;
              |PyStrip(paras[j])| > 50 && forall k :: j < k < |paras| ==> |PyStrip(paras[k])| <= 50
  {
    if paras != [] && |PyStrip(paras[|paras| - 1])| <= 50 {
      var init := paras[..|paras| - 1];
      LastLongParagraphSpec(init);
      assert forall k :: 0 <= k < |init| ==> paras[k] == init[k];
    }
  }

  /** What `_extract_message` returns for a response. */
  function ExtractedMessage(full: string): string
  {
    var start := LatestStart(full, StartMarkers);
    if start != -1 then CutAtEnds(PyStrip(full[start..]), EndMarkers)
    else
      var paras := Split(full, "\n\n");
      match LastLongParagraph(paras)
      case Some(k) => PyStrip(paras[k])
      case None => PyStrip(full)
  }

  /** Whatever the response, the message is a piece of it. */
  lemma ExtractedIsSubstring(full: string)
    ensures Contains(full, ExtractedMessage(full))
  {
    var start := LatestStart(full, StartMarkers);
    if start != -1 {
      var tail := PyStrip(full[start..]);
      ContainsSlice(full, start, |full|);
      assert full[start..|full|] == full[start..];
      ContainsStrip(full[start..]);
      ContainsTrans(full, full[start..], tail);
      CutAtEndsSpec(tail, EndMarkers);
      ContainsTrans(full, tail, CutAtEnds(tail, EndMarkers));
    } else {
      var paras := Split(full, "\n\n");
      match LastLongParagraph(paras)
      case Some(k) =>
        SplitPartsInfix(full, "\n\n");
        ContainsStrip(paras[k]);
        ContainsTrans(full, paras[k], PyStrip(paras[k]));
      case None =>
        ContainsStrip(full);
    }
  }

  /** A message found from a start marker carries none of the end markers. */
  lemma ExtractedAvoidsEndMarkers(full: string)
    requires LatestStart(full, StartMarkers) != -1
    ensures forall k :: 0 <= k < |EndMarkers| ==> !Contains(ExtractedMessage(full), EndMarkers[k])
  {
    var start := LatestStart(full, StartMarkers);
    var tail := PyStrip(full[start..]);
    assert ExtractedMessage(full) == CutAtEnds(tail, EndMarkers);
    CutAtEndsSpec(tail, EndMarkers);
    EndMarkersNonEmpty();
  }

  lemma EndMarkersNonEmpty()
    ensures forall k :: 0 <= k < |EndMarkers| ==> EndMarkers[k] != ""
  {
  }

  /**
   * With no start marker and no paragraph over 50 characters, the message is
   * the whole response, stripped.
   */
  lemma ExtractedFallsBackToWhole(full: string)
    requires LatestStart(full, StartMarkers) == -1
    requires forall k :: 0 <= k < |Split(full, "\n\n")| ==> |PyStrip(Split(full, "\n\n")[k])| <= 50
    ensures ExtractedMessage(full) == PyStrip(full)
  {
    LastLongParagraphSpec(Split(full, "\n\n"));
  }

  /** `_extract_message`. */
  method ExtractMessage(full: string) returns (message: string)
    ensures message == ExtractedMessage(full)
  {
    var start := MessageStart(full);
    if start != -1 {
      message := CutMessage(PyStrip(full[start..]));
      return;
    }
    var found := LongParagraph(Split(full, "\n\n"));
    message := if found.Some? then found.value else PyStrip(full);
  }

  /** One step of the backward paragraph scan, by the last paragraph of a prefix. */
  lemma LastLongParagraphStep(paras: seq<string>, i: nat)
    requires 0 < i <= |paras|
    ensures |PyStrip(paras[i - 1])| > 50 ==> LastLongParagraph(paras[..i]) == Some(i - 1)
    ensures |PyStrip(paras[i - 1])| <= 50 ==> LastLongParagraph(paras[..i]) == LastLongParagraph(paras[..i - 1])
  {
    var pre := paras[..i];
    assert pre[|pre| - 1] == paras[i - 1];
    assert pre[..|pre| - 1] == paras[..i - 1];
  }

  /** The loop over the paragraphs, from the last one back. */
  method LongParagraph(paragraphs: seq<string>) returns (r: Option<string>)
    ensures LastLongParagraph(paragraphs).None? ==> r.None?
    ensures LastLongParagraph(paragraphs).Some? ==> r == Some(PyStrip(paragraphs[LastLongParagraph(paragraphs).value]))
  {
    var i := |paragraphs|;
    assert paragraphs[..i] == paragraphs;
    while i > 0
      invariant 0 <= i <= |paragraphs|
      invariant LastLongParagraph(paragraphs) == LastLongParagraph(paragraphs[..i])
    {
      LastLongParagraphStep(paragraphs, i);
      var para := PyStrip(paragraphs[i - 1]);
      if |para| > 50 {
        return Some(para);
      }
      i := i - 1;
    }
    return None;
  }

  /** One step of the scan over the start markers, by the marker added to a prefix. */
  lemma LatestStartStep(s: string, ms: seq<string>, i: nat)
    requires i < |ms|
    ensures LatestStart(s, ms[..i + 1]) ==
      var prev := LatestStart(s, ms[..i]);
      var idx := RFind(s, ms[i]);
      if idx != -1 && (prev == -1 || idx > prev) then idx else prev
  {
    var pre := ms[..i + 1];
    assert pre[|pre| - 1] == ms[i];
    assert pre[..|pre| - 1] == ms[..i];
  }

  /** The loop over the start markers. */
  method MessageStart(full: string) returns (start: int)
    ensures start == LatestStart(full, StartMarkers)
  {
    start := -1;
    var i := 0;
    while i < |StartMarkers|
      invariant 0 <= i <= |StartMarkers|
      invariant start == LatestStart(full, StartMarkers[..i])
    {
      LatestStartStep(full, StartMarkers, i);
      var idx := RFind(full, StartMarkers[i]);
      if idx != -1 && (start == -1 || idx > start) {
        start := idx;
      }
      i := i + 1;
    }
    assert StartMarkers[..i] == StartMarkers;
  }

  /** One step of the cuts, by the end marker added to a prefix. */
  lemma CutAtEndsStep(msg: string, ems: seq<string>, i: nat)
    requires i < |ems|
    ensures CutAtEnds(msg, ems[..i + 1]) ==
      var m := CutAtEnds(msg, ems[..i]);
      var idx := Find(m, ems[i]);
      if idx == -1 then m else PyStrip(m[..idx])
  {
    var pre := ems[..i + 1];
    assert pre[|pre| - 1] == ems[i];
    assert pre[..|pre| - 1] == ems[..i];
  }

  /** The loop over the end markers. */
  method CutMessage(msg: string) returns (message: string)
    ensures message == CutAtEnds(msg, EndMarkers)
  {
    message := msg;
    var i := 0;
    while i < |EndMarkers|
      invariant 0 <= i <= |EndMarkers|
      invariant message == CutAtEnds(msg, EndMarkers[..i])
    {
      CutAtEndsStep(msg, EndMarkers, i);
      var idx := Find(message, EndMarkers[i]);
      if idx != -1 {
        message := PyStrip(message[..idx]);
      }
      i := i + 1;
    }
    assert EndMarkers[..i] == EndMarkers;
  }
}
