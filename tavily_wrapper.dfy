/**
 * The enhanced Tavily search tool: Markdown escaping, de-duplication of the
 * results by url and by stripped content, the per-result platform badge and
 * truncation, and the JSON list of page and image entries handed to the
 * front end.
 */
module TavilyWrapper {
  import opened Wrappers
  import opened Text
  import opened Seqs
  import opened PlannerModel

  // ---------------------------------------------------------------------
  // Markdown escaping
  // ---------------------------------------------------------------------

  /** The characters `escape_md` puts a backslash in front of. */
  const MdSpecial: set<char> :=
    {'*', '_', '`', '[', ']', '(', ')', '~', '>', '#', '+', '-', '=', '|', '{', '}', '.', '!'}

  predicate IsMdSpecial(c: char) { c in MdSpecial }

  function SpecialCount(s: string): nat
  {
    if s == [] then 0 else (if IsMdSpecial(s[0]) then 1 else 0) + SpecialCount(s[1..])
  }

  function EscapeChar(c: char): string
  {
    if IsMdSpecial(c) then ['\\', c] else [c]
  }

  /** Every special character preceded by one backslash, every other character kept. */
  function Escaped(s: string): (r: string)
    ensures |r| == |s| + SpecialCount(s)
    ensures (forall i :: 0 <= i < |s| ==> !IsMdSpecial(s[i])) ==> r == s
  {
    if s == [] then [] else EscapeChar(s[0]) + Escaped(s[1..])
  }

  /** `escape_md`: a falsy text gives "". */
  function EscapeMd(text: Option<string>): (r: string)
    ensures !Truthy(text) ==> r == ""
    ensures Truthy(text) ==> |r| == |text.value| + SpecialCount(text.value)
  {
    if Truthy(text) then Escaped(text.value) else ""
  }

  /** Reading a backslash before a special character as that character. */
  function Unescape(s: string): string
  {
    if s == [] then []
    else if s[0] == '\\' && |s| >= 2 && IsMdSpecial(s[1]) then [s[1]] + Unescape(s[2..])
    else [s[0]] + Unescape(s[1..])
  }

  /** An escaped text never starts with a bare special character. */
  lemma EscapedHead(s: string)
    ensures Escaped(s) != [] ==> !IsMdSpecial(Escaped(s)[0])
  {
  }

  /** Escaping loses nothing: unescaping gives the text back, backslashes of its own included. */
  lemma {:induction false} UnescapeEscaped(s: string)
    ensures Unescape(Escaped(s)) == s
  {
    if s != [] {
      var c, rest := s[0], Escaped(s[1..]);
      UnescapeEscaped(s[1..]);
      assert Escaped(s) == EscapeChar(c) + rest;
      if IsMdSpecial(c) {
        assert (EscapeChar(c) + rest)[2..] == rest;
      } else {
        EscapedHead(s[1..]);
        assert (EscapeChar(c) + rest)[1..] == rest;
      }
    }
  }

  // ---------------------------------------------------------------------
  // Search results and their de-duplication
  // ---------------------------------------------------------------------

  /** One entry of the response's "results": each key may be missing. */
  datatype SearchResult = SearchResult(
    url: Option<string>,
    title: Option<string>,
    content: Option<string>,
    imageUrl: Option<string>,
    image: Option<string>)

  /** The content compared for duplicates: stripped, "" when missing. */
  function ContentKey(r: SearchResult): string
  {
    PyStrip(GetOr(r.content, ""))
  }

  /**
   * `r` repeats the url (a missing url included) or the content key of a
   * kept result. The key is a parameter so that the facts below hold for any
   * key; `dedup_results` uses ContentKey.
   */
  predicate Clashes(r: SearchResult, kept: seq<SearchResult>, key: SearchResult -> string)
  {
    exists i :: 0 <= i < |kept| && (kept[i].url == r.url || key(kept[i]) == key(r))
  }

  /** The results kept, in order: each one that does not clash with those kept before it. */
  function Deduped(rs: seq<SearchResult>, key: SearchResult -> string): seq<SearchResult>
  {
    if rs == [] then []
    else
      var init := Deduped(rs[..|rs| - 1], key);
      if Clashes(rs[|rs| - 1], init, key) then init else init + [rs[|rs| - 1]]
  }

  /** No two results share a url or a content key. */
  predicate Distinct(rs: seq<SearchResult>, key: SearchResult -> string)
  {
    forall i, j :: 0 <= i < j < |rs| ==> rs[i].url != rs[j].url && key(rs[i]) != key(rs[j])
  }

  function Urls(rs: seq<SearchResult>): set<Option<string>>
  {
    set i | 0 <= i < |rs| :: rs[i].url
  }

  function Contents(rs: seq<SearchResult>, key: SearchResult -> string): set<string>
  {
    set i | 0 <= i < |rs| :: key(rs[i])
  }

  /** `dedup_results`: one pass, remembering the urls and stripped contents kept so far. */
  method DedupResults(results: seq<SearchResult>) returns (deduped: seq<SearchResult>)
    ensures deduped == Deduped(results, ContentKey)
  {
    deduped := DedupBy(results, ContentKey);
  }

  /** The loop of `dedup_results`, for any content key. */
  method DedupBy(results: seq<SearchResult>, key: SearchResult -> string) returns (deduped: seq<SearchResult>)
    ensures deduped == Deduped(results, key)
  {
    var seenUrls: set<Option<string>> := {};
    var seenContent: set<string> := {};
    deduped := [];
    var i := 0;
    while i < |results|
      invariant 0 <= i <= |results|
      invariant deduped == Deduped(results[..i], key)
      invariant seenUrls == Urls(deduped) && seenContent == Contents(deduped, key)
    {
      var r := results[i];
      var content := key(r);
      DedupStep(results, i, deduped, seenUrls, seenContent, key);
      if r.url in seenUrls || content in seenContent {
      } else {
        seenUrls := seenUrls + {r.url};
        seenContent := seenContent + {content};
        deduped := deduped + [r];
      }
      i := i + 1;
    }
    assert results[..i] == results;
  }

  /** One turn of the loop in `DedupResults`. */
  lemma DedupStep(rs: seq<SearchResult>, i: nat, d: seq<SearchResult>, urls: set<Option<string>>,
                  contents: set<string>, key: SearchResult -> string)
    requires i < |rs| && d == Deduped(rs[..i], key) && urls == Urls(d) && contents == Contents(d, key)
    ensures rs[i].url in urls || key(rs[i]) in contents ==> Deduped(rs[..i + 1], key) == d
    ensures !(rs[i].url in urls || key(rs[i]) in contents) ==>
              Deduped(rs[..i + 1], key) == d + [rs[i]]
              && Urls(d + [rs[i]]) == urls + {rs[i].url} && Contents(d + [rs[i]], key) == contents + {key(rs[i])}
  {
    assert rs[..i + 1][..i] == rs[..i];
    ClashesSeen(rs[i], d, key);
    SeenAppend(d, rs[i], key);
  }

  /** Clashing with the kept results is meeting a url or a content already seen. */
  lemma ClashesSeen(r: SearchResult, kept: seq<SearchResult>, key: SearchResult -> string)
    ensures Clashes(r, kept, key) <==> r.url in Urls(kept) || key(r) in Contents(kept, key)
  {
    if r.url in Urls(kept) {
      var i :| 0 <= i < |kept| && kept[i].url == r.url;
    }
    if key(r) in Contents(kept, key) {
      var i :| 0 <= i < |kept| && key(kept[i]) == key(r);
    }
  }

  lemma SeenAppend(kept: seq<SearchResult>, r: SearchResult, key: SearchResult -> string)
    ensures Urls(kept + [r]) == Urls(kept) + {r.url}
    ensures Contents(kept + [r], key) == Contents(kept, key) + {key(r)}
  {
    var k := kept + [r];
    assert k[|kept|] == r;
    forall u | u in Urls(k) ensures u in Urls(kept) + {r.url} {
      var i :| 0 <= i < |k| && k[i].url == u;
      if i < |kept| { assert k[i] == kept[i]; }
    }
    forall u | u in Urls(kept) ensures u in Urls(k) {
      var i :| 0 <= i < |kept| && kept[i].url == u;
      assert k[i] == kept[i];
    }
    forall c | c in Contents(k, key) ensures c in Contents(kept, key) + {key(r)} {
      var i :| 0 <= i < |k| && key(k[i]) == c;
      if i < |kept| { assert k[i] == kept[i]; }
    }
    forall c | c in Contents(kept, key) ensures c in Contents(k, key) {
      var i :| 0 <= i < |kept| && key(kept[i]) == c;
      assert k[i] == kept[i];
    }
  }

  /** The kept results are the input with some results deleted. */
  lemma {:induction false} DedupedIsSubsequence(rs: seq<SearchResult>, key: SearchResult -> string)
    ensures IsSubsequence(Deduped(rs, key), rs)
  {
    if rs != [] {
      var init, last := rs[..|rs| - 1], rs[|rs| - 1];
      var d := Deduped(init, key);
      DedupedIsSubsequence(init, key);
      assert init + [last] == rs;
      if Clashes(last, d, key) {
        SubsequenceExtend(d, init, last);
      } else {
        SubsequenceAppend(d, init, last);
      }
    }
  }

  /** The kept results have pairwise distinct urls and content keys. */
  lemma {:induction false} DedupedDistinct(rs: seq<SearchResult>, key: SearchResult -> string)
    ensures Distinct(Deduped(rs, key), key)
  {
    if rs != [] {
      DedupedDistinct(rs[..|rs| - 1], key);
    }
  }

  /** Every dropped result repeats the url or the content key of a result that was kept. */
  lemma {:induction false} DroppedClash(rs: seq<SearchResult>, key: SearchResult -> string)
    ensures forall i :: 0 <= i < |rs| ==> rs[i] in Deduped(rs, key) || Clashes(rs[i], Deduped(rs, key), key)
  {
    if rs != [] {
      var init, last := rs[..|rs| - 1], rs[|rs| - 1];
      var d := Deduped(init, key);
      DroppedClash(init, key);
      forall i | 0 <= i < |rs|
        ensures rs[i] in Deduped(rs, key) || Clashes(rs[i], Deduped(rs, key), key)
      {
        if i < |rs| - 1 {
          assert rs[i] == init[i];
          if !Clashes(last, d, key) && Clashes(rs[i], d, key) {
            var k :| 0 <= k < |d| && (d[k].url == rs[i].url || key(d[k]) == key(rs[i]));
            assert Deduped(rs, key)[k] == d[k];
          }
        }
      }
    }
  }

  /** A list without repeats is kept whole. */
  lemma {:induction false} DedupedOfDistinct(rs: seq<SearchResult>, key: SearchResult -> string)
    requires Distinct(rs, key)
    ensures Deduped(rs, key) == rs
  {
    if rs != [] {
      var init := rs[..|rs| - 1];
      DedupedOfDistinct(init, key);
      assert init + [rs[|rs| - 1]] == rs;
    }
  }

  /** De-duplicating twice is de-duplicating once. */
  lemma DedupIdempotent(rs: seq<SearchResult>, key: SearchResult -> string)
    ensures Deduped(Deduped(rs, key), key) == Deduped(rs, key)
  {
    DedupedDistinct(rs, key);
    DedupedOfDistinct(Deduped(rs, key), key);
  }

  /** Results without a url all count as having the same url: only the first of them is kept. */
  lemma UrlLessResultsCollapse(a: SearchResult, b: SearchResult, key: SearchResult -> string)
    requires a.url.None? && b.url.None?
    ensures Deduped([a, b], key) == [a]
  {
    assert [a, b][..1] == [a];
    assert [a][..0] == [];
    assert Deduped([a], key) == [a];
    assert [a][0].url == b.url;
    assert Clashes(b, [a], key);
  }

  // ---------------------------------------------------------------------
  // The per-result Markdown block: platform, badge, truncation
  // ---------------------------------------------------------------------

  const Globe := "\U{1F310}"

  const PlatformEmojis: map<string, string> := map[
    "twitter.com" := "\U{1F426}",
    "x.com" := "\U{1F426}",
    "linkedin.com" := "\U{1F4BC}",
    "instagram.com" := "\U{1F4F8}",
    "reddit.com" := "\U{1F47D}",
    "github.com" := "\U{1F4BB}",
    "medium.com" := "\U{1F4DD}",
    "substack.com" := "\U{1F4F0}"]

  /** The table's emoji for the platform; the globe for any platform it does not list. */
  function Badge(platform: string): (r: string)
    ensures r == Globe <==> platform !in PlatformEmojis
    ensures platform in PlatformEmojis ==> r == PlatformEmojis[platform]
  {
    if platform in PlatformEmojis then PlatformEmojis[platform] else Globe
  }

  /**
   * The platform shown for a result: the domain searched, if any; else the
   * third '/'-separated part of the url, "" for an empty url. A url with
   * fewer than two '/' has no third part: Python raises IndexError (None).
   */
  function Platform(domain: Option<string>, url: string): (r: Option<string>)
    ensures Truthy(domain) ==> r == domain
    ensures !Truthy(domain) && url == "" ==> r == Some("")
    ensures !Truthy(domain) && url != "" ==>
              (r.Some? <==> |Split(url, "/")| >= 3) && (r.Some? ==> r.value == Split(url, "/")[2])
  {
    if Truthy(domain) then domain
    else if url == "" then Some("")
    else
      var parts := Split(url, "/");
      if |parts| >= 3 then Some(parts[2]) else None
  }

  lemma FindFirstSlash(s: string, k: nat)
    requires k < |s| && s[k] == '/' && forall i :: 0 <= i < k ==> s[i] != '/'
    ensures Find(s, "/") == k
  {
    assert s[k..k + 1] == "/";
    assert OccursAt(s, "/", k);
    var r := Find(s, "/");
    assert r != -1;
    assert s[r..r + 1][0] == s[r];
    assert s[r] == '/';
  }

  lemma NoSlashSplit(s: string)
    requires forall i :: 0 <= i < |s| ==> s[i] != '/'
    ensures Split(s, "/") == [s]
  {
    forall i | 0 <= i <= |s| - 1
      ensures !OccursAt(s, "/", i)
    {
      assert s[i..i + 1][0] == s[i];
    }
  }

  /** Splitting after a first part without slashes. */
  lemma SplitAfter(a: string, b: string)
    requires forall i :: 0 <= i < |a| ==> a[i] != '/'
    ensures Split(a + "/" + b, "/") == [a] + Split(b, "/")
  {
    var s := a + "/" + b;
    assert forall i :: 0 <= i < |a| ==> s[i] == a[i];
    assert s[..|a|] == a && s[|a|] == '/' && s[|a| + 1..] == b;
    FindFirstSlash(s, |a|);
  }

  /** Splitting after a scheme and the double slash. */
  lemma SplitAfterScheme(scheme: string, rest: string)
    requires forall i :: 0 <= i < |scheme| ==> scheme[i] != '/'
    ensures Split(scheme + "//" + rest, "/") == [scheme, ""] + Split(rest, "/")
  {
    var x := "" + "/" + rest;
    assert scheme + "//" + rest == scheme + "/" + x;
    SplitAfter(scheme, x);
    SplitAfter("", rest);
  }

  lemma SplitHost(scheme: string, host: string)
    requires forall i :: 0 <= i < |scheme| ==> scheme[i] != '/'
    requires forall i :: 0 <= i < |host| ==> host[i] != '/'
    ensures Split(scheme + "//" + host, "/") == [scheme, "", host]
  {
    SplitAfterScheme(scheme, host);
    NoSlashSplit(host);
  }

  lemma SplitHostPath(scheme: string, host: string, path: string)
    requires forall i :: 0 <= i < |scheme| ==> scheme[i] != '/'
    requires forall i :: 0 <= i < |host| ==> host[i] != '/'
    ensures var parts := Split(scheme + "//" + host + "/" + path, "/");
            |parts| >= 3 && parts[2] == host
  {
    var p := host + "/" + path;
    assert scheme + "//" + host + "/" + path == scheme + "//" + p;
    SplitAfterScheme(scheme, p);
    SplitAfter(host, path);
  }

  /** For a url `scheme://host/...` (or just `scheme://host`), the platform is the host. */
  lemma PlatformOfUrl(scheme: string, host: string, path: string)
    requires forall i :: 0 <= i < |scheme| ==> scheme[i] != '/'
    requires forall i :: 0 <= i < |host| ==> host[i] != '/'
    ensures Platform(None, scheme + "//" + host) == Some(host)
    ensures Platform(None, scheme + "//" + host + "/" + path) == Some(host)
  {
    SplitHost(scheme, host);
    SplitHostPath(scheme, host, path);
  }

  /** A bare host name has no third part: with no domain given, the whole search fails. */
  lemma BareHostFails()
    ensures Platform(None, "example.com") == None
  {
    NoSlashSplit("example.com");
  }

  const MaxContent := 400

  /** Escaped content over 400 characters: its first 400, then a read-more link to the url. */
  function Truncated(content: string, url: string): (r: string)
    ensures |content| <= MaxContent ==> r == content
    ensures |content| > MaxContent ==>
              |r| == MaxContent + 16 + |url| + 1 && r[..MaxContent] == content[..MaxContent]
              && r[MaxContent..] == "... [Read more](" + url + ")"
  {
    if |content| > MaxContent then content[..MaxContent] + "... [Read more](" + url + ")" else content
  }

  /** The shown content keeps the start of the escaped content, never more than 400 characters of it. */
  lemma TruncatedKeepsHead(content: string, url: string)
    ensures var n := if |content| < MaxContent then |content| else MaxContent;
            |Truncated(content, url)| >= n && Truncated(content, url)[..n] == content[..n]
  {
  }

  /** The domain-restricted searches, each with the domain it passes. */
  const DomainSearches: map<string, string> := map[
    "search_linkedin" := "linkedin.com",
    "search_twitter" := "x.com",
    "search_instagram" := "instagram.com",
    "search_reddit" := "reddit.com",
    "search_github" := "github.com",
    "search_medium" := "medium.com"]

  /** A domain-restricted search shows its domain for every result, with a badge from the table. */
  lemma DomainSearchBadges(name: string, url: string)
    requires name in DomainSearches
    ensures Platform(Some(DomainSearches[name]), url) == Some(DomainSearches[name])
    ensures Badge(DomainSearches[name]) != Globe
  {
  }

  // ---------------------------------------------------------------------
  // The JSON handed to the front end
  // ---------------------------------------------------------------------

  datatype JsonEntry =
    | PageEntry(title: string, url: string, content: string)
    | ImageEntry(imageUrl: string, imageDescription: string)

  /** `r.get("image_url") or r.get("image")`. */
  function ImageLink(r: SearchResult): Option<string>
  {
    if Truthy(r.imageUrl) then r.imageUrl else r.image
  }

  predicate HasImage(r: SearchResult)
  {
    Truthy(r.imageUrl) || Truthy(r.image)
  }

  /** A result's entries: its page, then its image when it has one. */
  function EntriesFor(r: SearchResult): (es: seq<JsonEntry>)
    ensures |es| == (if HasImage(r) then 2 else 1)
    ensures es[0] == PageEntry(GetOr(r.title, ""), GetOr(r.url, ""), GetOr(r.content, ""))
    ensures HasImage(r) ==>
              (es[1].ImageEntry? && Truthy(Some(es[1].imageUrl)) && es[1].imageDescription == GetOr(r.title, ""))
  {
    var page := PageEntry(GetOr(r.title, ""), GetOr(r.url, ""), GetOr(r.content, ""));
    if HasImage(r) then [page, ImageEntry(ImageLink(r).value, GetOr(r.title, ""))] else [page]
  }

  function Expand(rs: seq<SearchResult>): seq<JsonEntry>
  {
    if rs == [] then [] else Expand(rs[..|rs| - 1]) + EntriesFor(rs[|rs| - 1])
  }

  function ImageCount(rs: seq<SearchResult>): nat
  {
    if rs == [] then 0 else ImageCount(rs[..|rs| - 1]) + (if HasImage(rs[|rs| - 1]) then 1 else 0)
  }

  function PageCount(es: seq<JsonEntry>): nat
  {
    if es == [] then 0 else PageCount(es[..|es| - 1]) + (if es[|es| - 1].PageEntry? then 1 else 0)
  }

  lemma {:induction false} PageCountAppend(a: seq<JsonEntry>, b: seq<JsonEntry>)
    ensures PageCount(a + b) == PageCount(a) + PageCount(b)
    decreases |b|
  {
    if b == [] {
      assert a + b == a;
    } else {
      var b0 := b[..|b| - 1];
      assert (a + b)[..|a + b| - 1] == a + b0;
      PageCountAppend(a, b0);
    }
  }

  lemma {:induction false} ExpandAppend(a: seq<SearchResult>, b: seq<SearchResult>)
    ensures Expand(a + b) == Expand(a) + Expand(b)
    decreases |b|
  {
    if b == [] {
      assert a + b == a;
    } else {
      var b0 := b[..|b| - 1];
      assert (a + b)[..|a + b| - 1] == a + b0;
      ExpandAppend(a, b0);
    }
  }

  /** One page entry per result, and as many entries in all as results plus images. */
  lemma {:induction false} ExpandCounts(rs: seq<SearchResult>)
    ensures PageCount(Expand(rs)) == |rs|
    ensures |Expand(rs)| == |rs| + ImageCount(rs)
  {
    if rs != [] {
      var init := rs[..|rs| - 1];
      ExpandCounts(init);
      PageCountAppend(Expand(init), EntriesFor(rs[|rs| - 1]));
      var es := EntriesFor(rs[|rs| - 1]);
      assert Expand(rs) == Expand(init) + es;
      if |es| == 2 {
        assert es[..1] == [es[0]];
        assert [es[0]][..0] == [];
        assert es[1].ImageEntry?;
        assert PageCount([es[0]]) == 1;
        assert PageCount(es) == PageCount([es[0]]);
      } else {
        assert es[..0] == [];
        assert PageCount(es) == 1;
      }
    }
  }

  /** Result i's entries sit, in order, between the entries of the results before and after it. */
  lemma ExpandAt(rs: seq<SearchResult>, i: nat)
    requires i < |rs|
    ensures Expand(rs) == Expand(rs[..i]) + EntriesFor(rs[i]) + Expand(rs[i + 1..])
  {
    var a, mid, b := rs[..i], [rs[i]], rs[i + 1..];
    assert a + mid == rs[..i + 1];
    assert rs[..i + 1] + b == rs;
    ExpandAppend(a + mid, b);
    ExpandAppend(a, mid);
    assert mid[..0] == [];
    assert Expand(mid) == EntriesFor(rs[i]);
  }

  method ExpandResults(results: seq<SearchResult>) returns (json: seq<JsonEntry>)
    ensures json == Expand(results)
  {
    json := [];
    var i := 0;
    while i < |results|
      invariant 0 <= i <= |results|
      invariant json == Expand(results[..i])
    {
      var r := results[i];
      assert results[..i + 1][..i] == results[..i];
      json := json + [PageEntry(GetOr(r.title, ""), GetOr(r.url, ""), GetOr(r.content, ""))];
      if Truthy(r.imageUrl) || Truthy(r.image) {
        json := json + [ImageEntry(ImageLink(r).value, GetOr(r.title, ""))];
      }
      i := i + 1;
    }
    assert results[..i] == results;
  }

  // ---------------------------------------------------------------------
  // search_tavily
  // ---------------------------------------------------------------------

  const MissingKeyMessage := "Error: Tavily API key not found in conf.yaml or environment variables"
  const SearchErrorPrefix := "Error occurred during search: "
  /** What `str(IndexError)` reads for a list index past the end. */
  const IndexErrorText := "list index out of range"

  datatype SearchRequest = SearchRequest(
    query: string,
    maxResults: int,
    includeRawContent: bool,
    includeImages: bool,
    includeDomains: Option<seq<string>>)

  /** The search service's reply: a JSON body (its "results" key may be missing), or an exception. */
  datatype Reply = Replied(results: Option<seq<SearchResult>>) | RaisedError(error: string)

  datatype SearchOutput = ErrorText(text: string) | Entries(json: seq<JsonEntry>)

  function RequestFor(query: string, maxResults: int, domain: Option<string>): SearchRequest
  {
    SearchRequest(query, maxResults, true, true, if Truthy(domain) then Some([domain.value]) else None)
  }

  /** Every kept result has a platform: the Markdown loop does not raise. */
  predicate PlatformsDefined(rs: seq<SearchResult>, domain: Option<string>)
  {
    forall i :: 0 <= i < |rs| ==> Platform(domain, GetOr(rs[i].url, "")).Some?
  }

  /**
   * `search_tavily`. The Markdown blocks are only written to the log, so
   * all that is kept of that loop is that a url without a third part makes
   * it raise.
   */
  method SearchTavily(apiKey: string, query: string, maxResults: int, domain: Option<string>, reply: Reply)
    returns (request: Option<SearchRequest>, output: SearchOutput)
    ensures request.None? <==> apiKey == ""
    ensures apiKey == "" ==> output == ErrorText(MissingKeyMessage)
    ensures request.Some? ==> request.value == RequestFor(query, maxResults, domain)
    ensures apiKey != "" && reply.RaisedError? ==> output == ErrorText(SearchErrorPrefix + reply.error)
    ensures apiKey != "" && reply.Replied? ==>
              var kept := Deduped(GetOr(reply.results, []), ContentKey);
              output == (if PlatformsDefined(kept, domain) then Entries(Expand(kept))
                         else ErrorText(SearchErrorPrefix + IndexErrorText))
  {
    if apiKey == "" {
      return None, ErrorText(MissingKeyMessage);
    }
    request := Some(RequestFor(query, maxResults, domain));
    if reply.RaisedError? {
      return request, ErrorText(SearchErrorPrefix + reply.error);
    }
    var results := DedupResults(GetOr(reply.results, []));
    var ok := PlatformsOk(results, domain);
    if !ok {
      return request, ErrorText(SearchErrorPrefix + IndexErrorText);
    }
    var json := ExpandResults(results);
    output := Entries(json);
  }

  /** The Markdown loop of `search_tavily`, reduced to whether it gets through every result. */
  method PlatformsOk(results: seq<SearchResult>, domain: Option<string>) returns (ok: bool)
    ensures ok == PlatformsDefined(results, domain)
  {
    var i := 0;
    while i < |results|
      invariant 0 <= i <= |results|
      invariant forall j :: 0 <= j < i ==> Platform(domain, GetOr(results[j].url, "")).Some?
    {
      var platform := Platform(domain, GetOr(results[i].url, ""));
      if platform.None? {
        return false;
      }
      i := i + 1;
    }
    return true;
  }
}
