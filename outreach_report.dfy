/**
 * The structured outreach report: the markdown report is cut into sections
 * at its header lines, and the view picks the sections it shows by title.
 */
module OutreachReport {
  import opened Wrappers
  import opened Text

  datatype Section = Section(title: string, content: string)

  // ---------------------------------------------------------------------
  // Header lines: the regular expression /^#+\s+(.+)$/ written out
  // ---------------------------------------------------------------------

  predicate IsHash(c: char) { c == '#' }

  /** The length of the run of '#' that opens the line. */
  function HashRun(line: string): (k: nat)
    ensures k <= |line|
    ensures k < |line| ==> !IsHash(line[k])
  {
    if line != [] && IsHash(line[0]) then 1 + HashRun(line[1..]) else 0
  }

  /** The length of the run of spaces that opens `s`. */
  function SpaceRun(s: string): (n: nat)
    ensures n <= |s|
  {
    if s != [] && IsJsSpace(s[0]) then 1 + SpaceRun(s[1..]) else 0
  }

  predicate HasLineTerminator(s: string)
  {
    s != [] && (IsLineTerminator(s[0]) || HasLineTerminator(s[1..]))
  }

  /** Where the greedy `\s+` of the header expression stops and `(.+)` begins. */
  function CaptureStart(rest: string): int
  {
    if SpaceRun(rest) < |rest| then SpaceRun(rest) else |rest| - 1
  }

  /** The regular expression /^#+\s+(.+)$/ without the multi-line flag. */
  predicate IsHeaderLine(line: string)
  {
    var rest := line[HashRun(line)..];
    HashRun(line) >= 1 && CaptureStart(rest) >= 1 && !HasLineTerminator(rest[CaptureStart(rest)..])
  }

  /** The trimmed text after the '#' run. */
  function HeaderTitle(line: string): string
  {
    JsTrim(line[HashRun(line)..])
  }

  predicate NoLineTerminator(s: string)
  {
    forall i :: 0 <= i < |s| ==> !IsLineTerminator(s[i])
  }

  /**
   * After the '#' run, `\s+` may take `rest[..j]` and `(.+)$` then takes `rest[j..]`:
   * at least one space, then at least one character and no line terminator
   * up to the end of the line.
   */
  predicate CaptureSplit(rest: string, j: int)
  {
    1 <= j < |rest| && AllChars(rest[..j], IsJsSpace) && NoLineTerminator(rest[j..])
  }

  lemma {:induction false} SpaceRunIsSpaces(s: string, j: nat)
    ensures AllChars(s[..SpaceRun(s)], IsJsSpace)
    ensures j <= |s| && AllChars(s[..j], IsJsSpace) ==> j <= SpaceRun(s)
  {
    if s != [] && IsJsSpace(s[0]) {
      SpaceRunIsSpaces(s[1..], if j > 0 then j - 1 else 0);
      assert s[..SpaceRun(s)] == [s[0]] + s[1..][..SpaceRun(s[1..])];
      if 0 < j <= |s| && AllChars(s[..j], IsJsSpace) {
        assert s[1..][..j - 1] == s[1..j];
      }
    } else if j > 0 && j <= |s| {
      assert s[..j][0] == s[0];
    }
  }

  lemma {:induction false} TerminatorFree(s: string)
    ensures !HasLineTerminator(s) <==> NoLineTerminator(s)
  {
    if s != [] {
      TerminatorFree(s[1..]);
      assert forall i :: 1 <= i < |s| ==> s[i] == s[1..][i - 1];
    }
  }

  lemma NoTerminatorSuffix(s: string, j: nat, c: nat)
    requires j <= c <= |s| && NoLineTerminator(s[j..])
    ensures NoLineTerminator(s[c..])
  {
    assert forall i :: 0 <= i < |s| - c ==> s[c..][i] == s[j..][i + c - j];
  }

  /** The predicate says exactly what the regular expression accepts. */
  lemma HeaderIsRegexMatch(line: string)
    ensures IsHeaderLine(line)
            <==> HashRun(line) >= 1 && exists j :: CaptureSplit(line[HashRun(line)..], j)
  {
    var rest := line[HashRun(line)..];
    var c := CaptureStart(rest);
    SpaceRunIsSpaces(rest, 0);
    if c >= 0 {
      TerminatorFree(rest[c..]);
    }
    if IsHeaderLine(line) {
      assert rest[..c] == rest[..SpaceRun(rest)][..c];
      assert CaptureSplit(rest, c);
    }
    if HashRun(line) >= 1 && exists j :: CaptureSplit(rest, j) {
      var j :| CaptureSplit(rest, j);
      SpaceRunIsSpaces(rest, j);
      NoTerminatorSuffix(rest, j, c);
    }
  }

  /**
   * However the regular expression divides the spaces from the capture,
   * the trimmed capture is the header's title.
   */
  lemma CaptureTitle(line: string, j: int)
    requires HashRun(line) >= 1 && CaptureSplit(line[HashRun(line)..], j)
    ensures IsHeaderLine(line)
    ensures JsTrim(line[HashRun(line)..][j..]) == HeaderTitle(line)
  {
    HeaderIsRegexMatch(line);
    var rest := line[HashRun(line)..];
    assert rest == rest[..j] + rest[j..];
    TrimLeftSkipsSpaces(rest[..j], rest[j..], IsJsSpace);
  }

  /** A line that trims to nothing cannot be a header: it has no '#'. */
  lemma BlankIsNotHeader(line: string)
    requires JsTrim(line) == ""
    ensures !IsHeaderLine(line)
  {
    TrimEmptyIff(line, IsJsSpace);
    if line != [] {
      assert IsJsSpace(line[0]);
    }
  }

  // ---------------------------------------------------------------------
  // The parser as the source runs it: one line at a time
  // ---------------------------------------------------------------------

  /** The parser's three variables: finished sections, the open section's title, its lines. */
  datatype ParseState = ParseState(sections: seq<Section>, current: Option<string>, currentContent: seq<string>)

  const Start := ParseState([], None, [])

  /** A section's content: its lines joined with newlines and trimmed. */
  function Body(lines: seq<string>): string
  {
    JsTrim(Join(lines, "\n"))
  }

  /** The open section, if there is one, closed with its lines joined and trimmed. */
  function Flush(st: ParseState): seq<Section>
  {
    if st.current.Some? then [Section(st.current.value, Body(st.currentContent))] else []
  }

  function Step(st: ParseState, line: string): ParseState
  {
    if IsHeaderLine(line) then ParseState(st.sections + Flush(st), Some(HeaderTitle(line)), [])
    else if st.current.Some? then st.(currentContent := st.currentContent + [line])
    else if JsTrim(line) != "" && |st.sections| == 0 then st.(sections := st.sections + [Section("title", JsTrim(line))])
    else st
  }

  /** The end of the loop: the open section, if any, is closed and appended. */
  function Finish(st: ParseState): seq<Section>
  {
    st.sections + Flush(st)
  }

  function Run(st: ParseState, lines: seq<string>): ParseState
    decreases |lines|
  {
    if lines == [] then st else Run(Step(st, lines[0]), lines[1..])
  }

  function Lines(content: string): seq<string>
  {
    Split(content, "\n")
  }

  /** parseMarkdownSections as a function of the content. */
  function ParseSections(content: string): seq<Section>
  {
    Finish(Run(Start, Lines(content)))
  }

  /** parseMarkdownSections, the loop over the lines with its three variables. */
  method ParseMarkdownSections(content: string) returns (sections: seq<Section>)
    ensures sections == ParseSections(content)
  {
    var lines := Split(content, "\n");
    sections := [];
    var current: Option<string> := None;
    var currentContent: seq<string> := [];
    var i := 0;
    while i < |lines|
      invariant 0 <= i <= |lines|
      invariant Run(ParseState(sections, current, currentContent), lines[i..]) == Run(Start, lines)
    {
      var line := lines[i];
      ghost var before := ParseState(sections, current, currentContent);
      assert lines[i..][0] == line && lines[i..][1..] == lines[i + 1..];
      assert Run(before, lines[i..]) == Run(Step(before, line), lines[i + 1..]);
      if IsHeaderLine(line) {
        if current.Some? {
          sections := sections + [Section(current.value, Body(currentContent))];
        }
        current := Some(HeaderTitle(line));
        currentContent := [];
      } else if current.Some? {
        currentContent := currentContent + [line];
      } else if JsTrim(line) != "" && current.None? {
        if |sections| == 0 {
          sections := sections + [Section("title", JsTrim(line))];
        }
      }
      assert ParseState(sections, current, currentContent) == Step(before, line);
      i := i + 1;
    }
    if current.Some? {
      sections := sections + [Section(current.value, Body(currentContent))];
    }
  }

  // ---------------------------------------------------------------------
  // The same sections described block by block
  // ---------------------------------------------------------------------

  /** The index of the first header line, or the number of lines when there is none. */
  function FirstHeader(lines: seq<string>): (f: nat)
    ensures f <= |lines|
    ensures f < |lines| ==> IsHeaderLine(lines[f])
  {
    if lines == [] || IsHeaderLine(lines[0]) then 0 else 1 + FirstHeader(lines[1..])
  }

  lemma {:induction false} BeforeFirstHeader(lines: seq<string>)
    ensures forall i :: 0 <= i < FirstHeader(lines) ==> !IsHeaderLine(lines[i])
  {
    if lines != [] && !IsHeaderLine(lines[0]) {
      BeforeFirstHeader(lines[1..]);
      assert forall i :: 1 <= i < |lines| ==> lines[i] == lines[1..][i - 1];
    }
  }

  /** Before any header: the first non-blank line, trimmed, as a section titled "title". */
  function Preamble(lines: seq<string>): seq<Section>
  {
    if lines == [] then []
    else if JsTrim(lines[0]) != "" then [Section("title", JsTrim(lines[0]))]
    else Preamble(lines[1..])
  }

  /** From a header line to the next: one section per header. */
  function Blocks(lines: seq<string>): seq<Section>
    requires lines == [] || IsHeaderLine(lines[0])
    decreases |lines|
  {
    if lines == [] then []
    else
      var n := 1 + FirstHeader(lines[1..]);
      [Section(HeaderTitle(lines[0]), Body(lines[1..n]))] + Blocks(lines[n..])
  }

  function ReferenceSections(lines: seq<string>): seq<Section>
  {
    var f := FirstHeader(lines);
    Preamble(lines[..f]) + Blocks(lines[f..])
  }

  /** Slicing facts the two run lemmas need, kept apart so they do not crowd those proofs. */
  lemma SliceFacts<T>(acc: seq<T>, xs: seq<T>, f: nat)
    requires xs != [] && f <= |xs| - 1
    ensures xs[1..][f..] == xs[1 + f..]
    ensures [] + xs[1..][..f] == xs[1..1 + f]
    ensures acc + [xs[0]] + xs[1..][..f] == acc + xs[..1 + f]
    ensures acc + xs[..0] == acc && xs[0..] == xs && xs[..0] == []
    ensures xs[..1 + f][0] == xs[0] && xs[..1 + f][1..] == xs[1..][..f]
  {
  }

  lemma Assoc<T>(a: seq<T>, b: seq<T>, c: seq<T>)
    ensures (a + b) + c == a + (b + c)
  {
  }

  lemma UnfoldRun(st: ParseState, lines: seq<string>)
    requires lines != []
    ensures Run(st, lines) == Run(Step(st, lines[0]), lines[1..])
  {
  }

  lemma NextBlock(lines: seq<string>)
    requires lines != []
    ensures var n := 1 + FirstHeader(lines[1..]);
            n <= |lines| && (lines[n..] == [] || IsHeaderLine(lines[n..][0]))
  {
    var n := 1 + FirstHeader(lines[1..]);
    if n < |lines| {
      assert lines[n..][0] == lines[1..][n - 1];
    }
  }

  lemma UnfoldBlocks(lines: seq<string>)
    requires lines != [] && IsHeaderLine(lines[0])
    ensures var n := 1 + FirstHeader(lines[1..]);
            Blocks(lines) == [Section(HeaderTitle(lines[0]), Body(lines[1..n]))] + Blocks(lines[n..])
  {
  }

  /** With a section open, the run finishes it at the next header and then emits one block per header. */
  lemma {:induction false} RunFromOpen(done: seq<Section>, t: string, acc: seq<string>, lines: seq<string>)
    ensures Finish(Run(ParseState(done, Some(t), acc), lines))
              == done + ([Section(t, Body(acc + lines[..FirstHeader(lines)]))] + Blocks(lines[FirstHeader(lines)..]))
    decreases |lines|
  {
    var st0 := ParseState(done, Some(t), acc);
    if lines == [] {
      assert acc + lines[..0] == acc;
    } else {
      var f' := FirstHeader(lines[1..]);
      SliceFacts(acc, lines, f');
      UnfoldRun(st0, lines);
      if IsHeaderLine(lines[0]) {
        var close := Section(t, Body(acc));
        var next := Section(HeaderTitle(lines[0]), Body(lines[1..1 + f']));
        var tail := Blocks(lines[1 + f'..]);
        assert Step(st0, lines[0]) == ParseState(done + [close], Some(HeaderTitle(lines[0])), []);
        RunFromOpen(done + [close], HeaderTitle(lines[0]), [], lines[1..]);
        UnfoldBlocks(lines);
        Assoc(done, [close], [next] + tail);
      } else {
        assert Step(st0, lines[0]) == ParseState(done, Some(t), acc + [lines[0]]);
        RunFromOpen(done, t, acc + [lines[0]], lines[1..]);
      }
    }
  }

  /** With no section open, the run collects the preamble (while nothing is finished) and then the blocks. */
  lemma {:induction false} RunFromClosed(done: seq<Section>, acc: seq<string>, lines: seq<string>)
    ensures Finish(Run(ParseState(done, None, acc), lines))
              == (if done == [] then Preamble(lines[..FirstHeader(lines)]) else done)
                 + Blocks(lines[FirstHeader(lines)..])
    decreases |lines|
  {
    var st0 := ParseState(done, None, acc);
    if lines != [] {
      var f' := FirstHeader(lines[1..]);
      SliceFacts(acc, lines, f');
      UnfoldRun(st0, lines);
      if IsHeaderLine(lines[0]) {
        var t' := HeaderTitle(lines[0]);
        assert Step(st0, lines[0]) == ParseState(done, Some(t'), []);
        RunFromOpen(done, t', [], lines[1..]);
        UnfoldBlocks(lines);
      } else if JsTrim(lines[0]) != "" && done == [] {
        var title := Section("title", JsTrim(lines[0]));
        assert Step(st0, lines[0]) == ParseState([title], None, acc);
        RunFromClosed([title], acc, lines[1..]);
      } else {
        assert Step(st0, lines[0]) == st0;
        RunFromClosed(done, acc, lines[1..]);
      }
    }
  }

  /** The line-by-line parser and the block-by-block description agree on every input. */
  lemma ParseMatchesReference(content: string)
    ensures ParseSections(content) == ReferenceSections(Lines(content))
  {
    RunFromClosed([], [], Lines(content));
  }

  // ---------------------------------------------------------------------
  // What the sections are
  // ---------------------------------------------------------------------

  function Titles(ss: seq<Section>): seq<string>
  {
    if ss == [] then [] else [ss[0].title] + Titles(ss[1..])
  }

  /** The titles of the header lines, in document order. */
  function HeaderTitles(lines: seq<string>): seq<string>
  {
    if lines == [] then []
    else (if IsHeaderLine(lines[0]) then [HeaderTitle(lines[0])] else []) + HeaderTitles(lines[1..])
  }

  lemma {:induction false} TitlesAppend(a: seq<Section>, b: seq<Section>)
    ensures Titles(a + b) == Titles(a) + Titles(b)
  {
    if a != [] {
      assert (a + b)[1..] == a[1..] + b;
      TitlesAppend(a[1..], b);
    } else {
      assert a + b == b;
    }
  }

  lemma {:induction false} HeaderTitlesAppend(a: seq<string>, b: seq<string>)
    ensures HeaderTitles(a + b) == HeaderTitles(a) + HeaderTitles(b)
  {
    if a != [] {
      assert (a + b)[1..] == a[1..] + b;
      HeaderTitlesAppend(a[1..], b);
    } else {
      assert a + b == b;
    }
  }

  lemma {:induction false} NoHeaderNoTitles(lines: seq<string>)
    requires forall i :: 0 <= i < |lines| ==> !IsHeaderLine(lines[i])
    ensures HeaderTitles(lines) == []
  {
    if lines != [] {
      NoHeaderNoTitles(lines[1..]);
    }
  }

  /** No header title comes from the lines before the first header. */
  lemma {:induction false} PrefixHasNoTitles(lines: seq<string>)
    ensures HeaderTitles(lines[..FirstHeader(lines)]) == []
  {
    if lines != [] && !IsHeaderLine(lines[0]) {
      PrefixHasNoTitles(lines[1..]);
      var f := FirstHeader(lines);
      var ys := lines[1..][..f - 1];
      assert lines[..f] == [lines[0]] + ys;
      assert ([lines[0]] + ys)[1..] == ys;
    } else {
      assert lines[..0] == [];
    }
  }

  lemma SplitAt<T>(xs: seq<T>, n: nat)
    requires 1 <= n <= |xs|
    ensures xs[1..] == xs[1..n] + xs[n..] && xs[1..n] == xs[1..][..n - 1]
    ensures xs == xs[..n - 1] + xs[n - 1..]
  {
  }

  lemma {:induction false} BlocksTitles(lines: seq<string>)
    requires lines == [] || IsHeaderLine(lines[0])
    ensures Titles(Blocks(lines)) == HeaderTitles(lines)
    decreases |lines|
  {
    if lines != [] {
      var n := 1 + FirstHeader(lines[1..]);
      var head := Section(HeaderTitle(lines[0]), Body(lines[1..n]));
      NextBlock(lines);
      var rest := Blocks(lines[n..]);
      UnfoldBlocks(lines);
      BlocksTitles(lines[n..]);
      TitlesAppend([head], rest);
      assert Titles([head]) == [head.title];
      SplitAt(lines, n);
      HeaderTitlesAppend(lines[1..n], lines[n..]);
      PrefixHasNoTitles(lines[1..]);
      assert HeaderTitles(lines) == [HeaderTitle(lines[0])] + HeaderTitles(lines[1..]);
      assert HeaderTitles(lines[1..]) == HeaderTitles(lines[n..]);
    }
  }

  /** Whether the lines before the first header hold any non-blank line. */
  predicate HasPreambleText(lines: seq<string>)
  {
    exists i | 0 <= i < FirstHeader(lines) :: JsTrim(lines[i]) != ""
  }

  lemma {:induction false} PreambleShape(lines: seq<string>)
    ensures Preamble(lines) == [] <==> forall i :: 0 <= i < |lines| ==> JsTrim(lines[i]) == ""
    ensures |Preamble(lines)| <= 1
    ensures Preamble(lines) != [] ==> Preamble(lines)[0].title == "title"
  {
    if lines != [] {
      PreambleShape(lines[1..]);
      if JsTrim(lines[0]) == "" {
        assert forall i :: 1 <= i < |lines| ==> lines[i] == lines[1..][i - 1];
      }
    }
  }

  lemma {:induction false} HeaderTitlesSkipPreamble(lines: seq<string>)
    ensures HeaderTitles(lines) == HeaderTitles(lines[FirstHeader(lines)..])
  {
    var f := FirstHeader(lines);
    assert lines == lines[..f] + lines[f..];
    HeaderTitlesAppend(lines[..f], lines[f..]);
    PrefixHasNoTitles(lines);
  }

  /**
   * One section per header line, titled by the header in document order,
   * preceded by a single "title" section exactly when non-blank text comes before the first header.
   */
  lemma SectionTitles(content: string)
    ensures var lines := Lines(content);
            Titles(ParseSections(content))
              == (if HasPreambleText(lines) then ["title"] else []) + HeaderTitles(lines)
  {
    var lines := Lines(content);
    var f := FirstHeader(lines);
    ParseMatchesReference(content);
    TitlesAppend(Preamble(lines[..f]), Blocks(lines[f..]));
    BlocksTitles(lines[f..]);
    HeaderTitlesSkipPreamble(lines);
    PreambleShape(lines[..f]);
    if HasPreambleText(lines) {
      var i :| 0 <= i < f && JsTrim(lines[i]) != "";
      assert lines[..f][i] == lines[i];
    } else {
      assert forall i :: 0 <= i < f ==> lines[..f][i] == lines[i];
    }
  }

  /** The number of sections: one per header, plus one for text before the first header. */
  lemma SectionCount(content: string)
    ensures |ParseSections(content)|
              == |HeaderTitles(Lines(content))| + (if HasPreambleText(Lines(content)) then 1 else 0)
  {
    SectionTitles(content);
    TitlesLength(ParseSections(content));
  }

  lemma {:induction false} TitlesLength(ss: seq<Section>)
    ensures |Titles(ss)| == |ss|
  {
    if ss != [] {
      TitlesLength(ss[1..]);
    }
  }

  /** Content whose lines are all blank yields no section at all. */
  lemma BlankContentHasNoSections(content: string)
    requires forall i :: 0 <= i < |Lines(content)| ==> JsTrim(Lines(content)[i]) == ""
    ensures ParseSections(content) == []
  {
    var lines := Lines(content);
    forall i | 0 <= i < |lines| ensures !IsHeaderLine(lines[i]) {
      BlankIsNotHeader(lines[i]);
    }
    SectionCount(content);
    NoHeaderNoTitles(lines);
  }

  // ---------------------------------------------------------------------
  // The report view
  // ---------------------------------------------------------------------

  /** Whether the section's lower-cased title contains `word`. */
  predicate TitleHas(section: Section, word: string)
  {
    Contains(Lower(section.title), word)
  }

  /** The first section whose lower-cased title contains `word`. */
  function FindByTitle(sections: seq<Section>, word: string): (r: Option<Section>)
  {
    if sections == [] then None
    else if TitleHas(sections[0], word) then Some(sections[0])
    else FindByTitle(sections[1..], word)
  }

  /** The search finds nothing exactly when no title matches, and otherwise the first section that matches. */
  lemma {:induction false} FindByTitleSpec(sections: seq<Section>, word: string)
    ensures var r := FindByTitle(sections, word);
            (r.None? <==> forall i :: 0 <= i < |sections| ==> !TitleHas(sections[i], word))
            && (r.Some? ==> exists i :: 0 <= i < |sections| && sections[i] == r.value && TitleHas(r.value, word)
                              && forall k :: 0 <= k < i ==> !TitleHas(sections[k], word))
  {
    if sections != [] && !TitleHas(sections[0], word) {
      var tail := sections[1..];
      FindByTitleSpec(tail, word);
      assert forall i :: 1 <= i < |sections| ==> sections[i] == tail[i - 1];
      var r := FindByTitle(tail, word);
      if r.Some? {
        var i :| 0 <= i < |tail| && tail[i] == r.value && TitleHas(r.value, word)
                 && forall k :: 0 <= k < i ==> !TitleHas(tail[k], word);
        assert sections[i + 1] == r.value;
      }
    }
  }

  /** The search behind the copy button: "outreach message" or "message" in the title. */
  function FindMessage(sections: seq<Section>): Option<Section>
  {
    if sections == [] then None
    else
      var t := Lower(sections[0].title);
      if Contains(t, "outreach message") || Contains(t, "message") then Some(sections[0])
      else FindMessage(sections[1..])
  }

  /** Asking for "outreach message" adds nothing: such a title already contains "message". */
  lemma {:induction false} FindMessageIsMessageSearch(sections: seq<Section>)
    ensures FindMessage(sections) == FindByTitle(sections, "message")
  {
    if sections != [] {
      var t := Lower(sections[0].title);
      if Contains(t, "outreach message") {
        var i :| 0 <= i <= |t| - 16 && OccursAt(t, "outreach message", i);
        assert t[i + 9..i + 16] == t[i..i + 16][9..];
        assert OccursAt(t, "message", i + 9);
      }
      FindMessageIsMessageSearch(sections[1..]);
    }
  }

  /** The content of the first section titled exactly "title", else "Outreach Report". */
  function ReportTitle(sections: seq<Section>): (r: string)
    ensures (exists i :: 0 <= i < |sections| && sections[i].title == "title")
            || r == "Outreach Report"
    ensures forall i :: 0 <= i < |sections| && sections[i].title == "title"
              && (forall j :: 0 <= j < i ==> sections[j].title != "title")
              ==> r == sections[i].content
  {
    if sections == [] then "Outreach Report"
    else if sections[0].title == "title" then sections[0].content
    else
      var r := ReportTitle(sections[1..]);
      assert forall i :: 1 <= i < |sections| ==> sections[i] == sections[1..][i - 1];
      r
  }

  /** A report that opens with a plain non-blank line is titled by that line. */
  lemma OpeningLineIsTitle(content: string)
    requires |Lines(content)| > 0
    requires !IsHeaderLine(Lines(content)[0]) && JsTrim(Lines(content)[0]) != ""
    ensures ReportTitle(ParseSections(content)) == JsTrim(Lines(content)[0])
  {
    var lines := Lines(content);
    ParseMatchesReference(content);
    var f := FirstHeader(lines);
    assert lines[..f][0] == lines[0];
  }

  /** Everything the component derives from the parsed sections. */
  datatype ReportView = ReportView(
    title: string,
    summary: Option<Section>,
    profile: Option<Section>,
    strategy: Option<Section>,
    message: Option<Section>,
    nextSteps: Option<Section>,
    sources: Option<Section>)

  function View(content: string): (v: ReportView)
    ensures v.message == FindByTitle(ParseSections(content), "message")
  {
    var sections := ParseSections(content);
    FindMessageIsMessageSearch(sections);
    ReportView(
      ReportTitle(sections),
      FindByTitle(sections, "summary"),
      FindByTitle(sections, "profile"),
      FindByTitle(sections, "strategy"),
      FindMessage(sections),
      FindByTitle(sections, "next steps"),
      FindByTitle(sections, "sources"))
  }

  // ---------------------------------------------------------------------
  // Collapsible sections
  // ---------------------------------------------------------------------

  /** Only the summary starts expanded. */
  const InitialOpenSections: map<string, bool> :=
    map["summary" := true, "profile" := false, "strategy" := false, "nextSteps" := false, "sources" := false]

  /** `{...prev, [key]: !prev[key]}`: a key never seen reads as undefined and so becomes open. */
  function ToggleSection(openSections: map<string, bool>, key: string): (r: map<string, bool>)
    ensures r.Keys == openSections.Keys + {key}
    ensures r[key] == !(key in openSections && openSections[key])
    ensures forall k :: k in openSections && k != key ==> r[k] == openSections[k]
  {
    openSections[key := !(key in openSections && openSections[key])]
  }

  /** Toggling a known section twice restores the previous state. */
  lemma ToggleTwice(openSections: map<string, bool>, key: string)
    requires key in openSections
    ensures ToggleSection(ToggleSection(openSections, key), key) == openSections
  {
  }

  lemma InitiallyOnlySummaryOpen()
    ensures forall k :: k in InitialOpenSections ==> (InitialOpenSections[k] <==> k == "summary")
  {
  }
}
