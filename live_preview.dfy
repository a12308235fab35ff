/**
 * The live preview panel beside the chat: which part of the generated text
 * it shows as the message, the name of the exported file, how the subject
 * and body of the e-mail draft are taken apart, and when its actions are
 * disabled.
 */
module LivePreview {
  import opened Wrappers
  import opened Text

  // ---------------------------------------------------------------------
  // The message shown
  // ---------------------------------------------------------------------

  /** A line that opens the message: its lower-case form mentions a subject, a message or an outreach message. */
  predicate IsMessageLine(line: string)
  {
    var l := Lower(line);
    Contains(l, "subject:") || Contains(l, "message:") || Contains(l, "outreach message")
  }

  /** `lines.findIndex(IsMessageLine)` from position `from`. */
  function FindMessageLine(lines: seq<string>, from: nat): (r: int)
    requires from <= |lines|
    ensures r == -1 || (from <= r < |lines| && IsMessageLine(lines[r]))
    ensures forall i :: from <= i < |lines| && (r == -1 || i < r) ==> !IsMessageLine(lines[i])
    decreases |lines| - from
  {
    if from == |lines| then -1
    else if IsMessageLine(lines[from]) then from
    else FindMessageLine(lines, from + 1)
  }

  /** The preview: from the first message line on, or the whole content when there is none. */
  function Preview(content: string): string
  {
    var lines := Split(content, "\n");
    var start := FindMessageLine(lines, 0);
    if start != -1 then Join(lines[start..], "\n") else content
  }

  /** The preview is always a final part of the content. */
  lemma PreviewIsSuffix(content: string)
    ensures exists m :: 0 <= m <= |content| && Preview(content) == content[m..]
  {
    var lines := Split(content, "\n");
    var start := FindMessageLine(lines, 0);
    if start != -1 {
      JoinSplitSuffix(content, "\n", start);
    } else {
      assert content[0..] == content;
    }
  }

  /** Without a message line the preview is the content; with one, it opens with the first such line. */
  lemma PreviewStart(content: string)
    ensures (forall i :: 0 <= i < |Split(content, "\n")| ==> !IsMessageLine(Split(content, "\n")[i]))
              ==> Preview(content) == content
    ensures var lines := Split(content, "\n");
            forall k :: 0 <= k < |lines| && IsMessageLine(lines[k]) && (forall i :: 0 <= i < k ==> !IsMessageLine(lines[i]))
              ==> lines[k] <= Preview(content) && Preview(content) == Join(lines[k..], "\n")
  {
    var lines := Split(content, "\n");
    var start := FindMessageLine(lines, 0);
    if start != -1 {
      assert IsMessageLine(lines[start]);
      var rest := lines[start..];
      assert rest[0] == lines[start];
      if |rest| > 1 {
        assert Join(rest, "\n") == rest[0] + "\n" + Join(rest[1..], "\n");
      }
      forall k | 0 <= k < |lines| && IsMessageLine(lines[k]) && (forall i :: 0 <= i < k ==> !IsMessageLine(lines[i]))
        ensures k == start
      {
      }
    }
  }

  lemma ContainsIsLonger(s: string, sub: string)
    requires Contains(s, sub)
    ensures |s| >= |sub|
  {
  }

  /** Non-empty content always gives a non-empty preview. */
  lemma PreviewOfNonEmpty(content: string)
    requires content != ""
    ensures Preview(content) != ""
  {
    var lines := Split(content, "\n");
    var start := FindMessageLine(lines, 0);
    if start != -1 {
      PreviewStart(content);
      var l := Lower(lines[start]);
      if Contains(l, "subject:") {
        ContainsIsLonger(l, "subject:");
      } else if Contains(l, "message:") {
        ContainsIsLonger(l, "message:");
      } else {
        ContainsIsLonger(l, "outreach message");
      }
    }
  }

  // ---------------------------------------------------------------------
  // The exported file's name
  // ---------------------------------------------------------------------

  predicate NotJsSpace(c: char) { !IsJsSpace(c) }

  /** `s.replace(/\s+/g, '-')`: every run of white space becomes one hyphen. */
  function Slug(s: string): (r: string)
    ensures AllChars(r, NotJsSpace)
    ensures AllChars(s, NotJsSpace) ==> r == s
    decreases |s|
  {
    if s == [] then []
    else if IsJsSpace(s[0]) then
      var rest := TrimLeft(s, IsJsSpace);
      assert rest != s;
      "-" + Slug(rest)
    else
      assert AllChars(s, NotJsSpace) ==> AllChars(s[1..], NotJsSpace);
      [s[0]] + Slug(s[1..])
  }

  /** Turning a slug into a slug again changes nothing. */
  lemma SlugIdempotent(s: string)
    ensures Slug(Slug(s)) == Slug(s)
  {
  }

  function ExportFilename(recipientName: string): string
  {
    "outreach-message-" + Slug(Lower(recipientName)) + ".txt"
  }

  /** The exported file's name never holds white space. */
  lemma ExportFilenameHasNoSpace(recipientName: string)
    ensures AllChars(ExportFilename(recipientName), NotJsSpace)
  {
    var slug := Slug(Lower(recipientName));
    var f := ExportFilename(recipientName);
    assert f == "outreach-message-" + slug + ".txt";
    forall i | 0 <= i < |f|
      ensures NotJsSpace(f[i])
    {
      if 17 <= i < 17 + |slug| {
        assert f[i] == slug[i - 17];
      }
    }
  }

  /** The default recipient name lower-cases to plain letters. */
  lemma LowerRecipient()
    ensures Lower("Recipient") == "recipient"
  {
    LowerIs("Recipient", "recipient");
  }

  /**
   * A name that lower-cases to plain letters (as the default "Recipient" does)
   * is used, lower-cased, as it is.
   */
  lemma LetterNameFilename(name: string, lower: string)
    requires Lower(name) == lower
    requires forall i :: 0 <= i < |lower| ==> 'a' <= lower[i] <= 'z'
    ensures ExportFilename(name) == "outreach-message-" + lower + ".txt"
  {
    LettersHaveNoSpace(lower);
  }

  /** Lower-case ASCII letters are not white space. */
  lemma LettersHaveNoSpace(s: string)
    requires forall i :: 0 <= i < |s| ==> 'a' <= s[i] <= 'z'
    ensures AllChars(s, NotJsSpace)
  {
  }

  // ---------------------------------------------------------------------
  // Subject and body of the e-mail draft
  // ---------------------------------------------------------------------

  /** The case-insensitive literal "Subject: " at position p. */
  predicate SubjectLiteralAt(s: string, p: nat)
  {
    p + 9 <= |s| && Lower(s[p..p + 9]) == "subject: "
  }

  /** `/Subject: (.+)/i` matches at p: the literal, then at least one character of the same line. */
  predicate SubjectMatchAt(s: string, p: nat)
  {
    SubjectLiteralAt(s, p) && p + 9 < |s| && !IsLineTerminator(s[p + 9])
  }

  /** The leftmost match of the subject expression at or after `from`. */
  function SubjectFrom(s: string, from: nat): (r: Option<nat>)
    ensures r.Some? ==> from <= r.value && SubjectMatchAt(s, r.value)
    ensures r.Some? ==> forall q :: from <= q < r.value ==> !SubjectMatchAt(s, q)
    ensures r.None? ==> forall q :: from <= q ==> !SubjectMatchAt(s, q)
    decreases |s| - from
  {
    if from + 9 >= |s| then None
    else if SubjectMatchAt(s, from) then Some(from)
    else SubjectFrom(s, from + 1)
  }

  /** The e-mail subject: the greedy capture up to the end of its line, or "Outreach Message". */
  function Subject(s: string): (r: string)
    ensures r != [] && forall k :: 0 <= k < |r| ==> !IsLineTerminator(r[k])
    ensures SubjectFrom(s, 0).None? ==> r == "Outreach Message"
    ensures SubjectFrom(s, 0).Some? ==> r == s[SubjectFrom(s, 0).value + 9..LineEnd(s, SubjectFrom(s, 0).value + 9)]
  {
    match SubjectFrom(s, 0)
    case None => "Outreach Message"
    case Some(p) =>
      var e := LineEnd(s, p + 9);
      var r := s[p + 9..e];
      assert forall k :: 0 <= k < |r| ==> r[k] == s[p + 9 + k];
      r
  }

  /**
   * `/Subject: .+\n/i` matches at p: the subject expression matches there
   * and its line ends in a line feed (`.` cannot cross a line terminator,
   * so no shorter capture can be followed by one).
   */
  predicate BodyMatchAt(s: string, p: nat)
  {
    SubjectMatchAt(s, p) && LineEnd(s, p + 9) < |s| && s[LineEnd(s, p + 9)] == '\n'
  }

  function BodyFrom(s: string, from: nat): (r: Option<nat>)
    ensures r.Some? ==> from <= r.value && BodyMatchAt(s, r.value)
    ensures r.Some? ==> forall q :: from <= q < r.value ==> !BodyMatchAt(s, q)
    ensures r.None? ==> forall q :: from <= q ==> !BodyMatchAt(s, q)
    decreases |s| - from
  {
    if from + 9 >= |s| then None
    else if BodyMatchAt(s, from) then Some(from)
    else BodyFrom(s, from + 1)
  }

  /** The e-mail body: the first subject line ending in a line feed is removed, with its line feed. */
  function Body(s: string): (r: string)
    ensures BodyFrom(s, 0).None? ==> r == s
    ensures BodyFrom(s, 0).Some? ==>
              var p := BodyFrom(s, 0).value;
              r == s[..p] + s[LineEnd(s, p + 9) + 1..] && |r| < |s|
  {
    match BodyFrom(s, 0)
    case None => s
    case Some(p) => s[..p] + s[LineEnd(s, p + 9) + 1..]
  }

  /** A body match is a subject match, so the subject is found no later than the removed line. */
  lemma BodyLineHasSubject(s: string)
    requires BodyFrom(s, 0).Some?
    ensures SubjectFrom(s, 0).Some? && SubjectFrom(s, 0).value <= BodyFrom(s, 0).value
  {
  }

  /** When the subject is taken from the removed line, that line is the literal, the subject and a line feed. */
  lemma RemovedLineIsSubjectLine(s: string)
    requires BodyFrom(s, 0).Some? && SubjectFrom(s, 0) == BodyFrom(s, 0)
    ensures var p := BodyFrom(s, 0).value;
            s[p..LineEnd(s, p + 9) + 1] == s[p..p + 9] + Subject(s) + "\n"
  {
    var p := BodyFrom(s, 0).value;
    var e := LineEnd(s, p + 9);
    assert BodyMatchAt(s, p);
    assert Subject(s) == s[p + 9..e] && s[e] == '\n';
    SliceThree(s, p, p + 9, e);
  }

  // ---------------------------------------------------------------------
  // Actions
  // ---------------------------------------------------------------------

  /** Copy, export and send are disabled while generating and when there is nothing to act on. */
  function ActionsDisabled(preview: string, isGenerating: bool): bool
  {
    preview == "" || isGenerating
  }

  /** Once generation is over, any non-empty content enables the actions. */
  lemma ActionsEnabledForContent(content: string)
    requires content != ""
    ensures !ActionsDisabled(Preview(content), false)
  {
    PreviewOfNonEmpty(content);
  }
}
