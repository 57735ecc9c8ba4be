/** The first step, `_extract_tools_step`: search for comparison articles,
    concatenate a bounded excerpt of each scraped article, ask the language
    model for tool names and parse its reply line by line. */
module Extraction {
  import opened Wrappers
  import opened Sequences
  import opened Text
  import opened Models

  const ArticleQuerySuffix := " tools comparison best alternatives"
  const ArticleResultCount := 3
  const ArticleExcerptLength := 1500
  const ArticleSeparator := "\n\n"
  /** The longest piece one article adds: 1500 characters and the separator. */
  const MaxExcerptLength := 1502

  /** The broadened query used to find comparison articles. */
  function ArticleQuery(query: string): (r: string)
    ensures |r| > |query| && r[..|query|] == query
  {
    query + ArticleQuerySuffix
  }

  /** What one search hit adds to the article text: nothing when its page
      cannot be scraped, otherwise at most the first 1500 characters of the
      page followed by a blank line. */
  function ArticleExcerpt(c: Collaborators, hit: SearchHit): (r: string)
    ensures |r| <= MaxExcerptLength
    ensures c.scrape(HitUrl(hit)).None? ==> r == ""
    ensures c.scrape(HitUrl(hit)).Some? ==>
              var page := c.scrape(HitUrl(hit)).value;
              |r| == Min(|page|, ArticleExcerptLength) + |ArticleSeparator| &&
              r[..|r| - 2] == page[..|r| - 2] && r[|r| - 2..] == ArticleSeparator
  {
    match c.scrape(HitUrl(hit))
    case None => ""
    case Some(page) => Truncate(page, ArticleExcerptLength) + ArticleSeparator
  }

  /** The article text built from the hits, in search-result order. */
  function ArticleText(c: Collaborators, hits: seq<SearchHit>): string {
    if hits == [] then ""
    else ArticleText(c, hits[..|hits| - 1]) + ArticleExcerpt(c, hits[|hits| - 1])
  }

  /** The article text is bounded by 1502 characters per hit. */
  lemma {:induction false} ArticleTextBound(c: Collaborators, hits: seq<SearchHit>)
    ensures |ArticleText(c, hits)| <= MaxExcerptLength * |hits|
  {
    if hits != [] {
      var init := hits[..|hits| - 1];
      ArticleTextBound(c, init);
      assert |ArticleText(c, hits)| <= |ArticleText(c, init)| + MaxExcerptLength;
      assert MaxExcerptLength * |init| + MaxExcerptLength == MaxExcerptLength * |hits|;
    }
  }

  /** The article text of a concatenation is the concatenation of the texts:
      the excerpts appear in the order of the hits. */
  lemma {:induction false} ArticleTextAppend(c: Collaborators, a: seq<SearchHit>, b: seq<SearchHit>)
    ensures ArticleText(c, a + b) == ArticleText(c, a) + ArticleText(c, b)
    decreases |b|
  {
    if b == [] {
      assert a + b == a;
    } else {
      var b' := b[..|b| - 1];
      var last := ArticleExcerpt(c, b[|b| - 1]);
      assert (a + b)[..|a + b| - 1] == a + b';
      assert (a + b)[|a + b| - 1] == b[|b| - 1];
      assert ArticleText(c, a + b) == ArticleText(c, a + b') + last;
      ArticleTextAppend(c, a, b');
      AppendAssoc(ArticleText(c, a), ArticleText(c, b'), last);
    }
  }

  /** A hit whose page cannot be scraped contributes nothing. */
  lemma ArticleTextSkipsFailedScrape(c: Collaborators, a: seq<SearchHit>, hit: SearchHit, b: seq<SearchHit>)
    requires c.scrape(HitUrl(hit)).None?
    ensures ArticleText(c, a + [hit] + b) == ArticleText(c, a + b)
  {
    assert ArticleText(c, [hit]) == "" by {
      assert [hit][..0] == [];
    }
    ArticleTextAppend(c, a + [hit], b);
    ArticleTextAppend(c, a, [hit]);
    assert ArticleText(c, a + [hit]) == ArticleText(c, a);
    ArticleTextAppend(c, a, b);
  }

  /** When no page can be scraped the model is asked about an empty text. */
  lemma {:induction false} ArticleTextEmptyWhenNothingScrapes(c: Collaborators, hits: seq<SearchHit>)
    requires forall i :: 0 <= i < |hits| ==> c.scrape(HitUrl(hits[i])).None?
    ensures ArticleText(c, hits) == ""
  {
    if hits != [] {
      ArticleTextEmptyWhenNothingScrapes(c, hits[..|hits| - 1]);
    }
  }

  /** The loop of `_extract_tools_step` that accumulates `all_content`. */
  method CollectArticles(c: Collaborators, hits: seq<SearchHit>) returns (allContent: string)
    ensures allContent == ArticleText(c, hits)
  {
    allContent := "";
    for i := 0 to |hits|
      invariant allContent == ArticleText(c, hits[..i])
    {
      var url := HitUrl(hits[i]);
      var scraped := c.scrape(url);
      if scraped.Some? {
        allContent := allContent + Truncate(scraped.value, ArticleExcerptLength) + ArticleSeparator;
      }
      assert hits[..i + 1][..i] == hits[..i];
    }
    assert hits[..|hits|] == hits;
  }

  /** Each line stripped, blank lines dropped, order and duplicates kept. */
  function StrippedNonBlank(lines: seq<string>): (names: seq<string>)
    ensures |names| <= |lines|
    ensures forall n :: n in names ==> IsTrimmedName(n)
  {
    if lines == [] then []
    else
      var init := StrippedNonBlank(lines[..|lines| - 1]);
      var name := Strip(lines[|lines| - 1]);
      if name == [] then init
      else
        assert IsTrimmedName(name);
        init + [name]
  }

  /** A non-empty name with no leading or trailing whitespace. */
  predicate IsTrimmedName(n: string) {
    n != [] && !IsSpace(n[0]) && !IsSpace(n[|n| - 1])
  }

  /** Each line stripped, blank or not. */
  function StripAll(lines: seq<string>): (r: seq<string>)
    ensures |r| == |lines| && forall i :: 0 <= i < |lines| ==> r[i] == Strip(lines[i])
  {
    if lines == [] then []
    else StripAll(lines[..|lines| - 1]) + [Strip(lines[|lines| - 1])]
  }

  /** How many lines strip to `name`. */
  function CountStrippedAs(lines: seq<string>, name: string): nat {
    if lines == [] then 0
    else CountStrippedAs(lines[..|lines| - 1], name) + (if Strip(lines[|lines| - 1]) == name then 1 else 0)
  }

  /** How many lines are not blank. */
  function CountNonBlank(lines: seq<string>): nat {
    if lines == [] then 0
    else CountNonBlank(lines[..|lines| - 1]) + (if Strip(lines[|lines| - 1]) == [] then 0 else 1)
  }

  /** The tool-name list parsed from the model's reply: every name is
      non-empty and has no whitespace at either end. */
  function ParseToolNames(reply: string): (names: seq<string>)
    ensures forall n :: n in names ==> IsTrimmedName(n)
  {
    StrippedNonBlank(SplitLines(Strip(reply)))
  }

  /** The parsed names keep the relative order of the reply's lines. */
  lemma {:induction false} StrippedNonBlankInOrder(lines: seq<string>)
    ensures IsSubsequence(StrippedNonBlank(lines), StripAll(lines))
  {
    if lines != [] {
      var init := lines[..|lines| - 1];
      var name := Strip(lines[|lines| - 1]);
      StrippedNonBlankInOrder(init);
      if name == [] {
        assert StrippedNonBlank(lines) == StrippedNonBlank(init);
        SubsequenceExtend(StrippedNonBlank(init), StripAll(init), name);
      } else {
        SubsequenceAppendBoth(StrippedNonBlank(init), StripAll(init), name);
      }
    }
  }

  /** Duplicates are kept: every non-blank name occurs in the result as many
      times as there are lines that strip to it. */
  lemma {:induction false} StrippedNonBlankCounts(lines: seq<string>, name: string)
    requires name != []
    ensures multiset(StrippedNonBlank(lines))[name] == CountStrippedAs(lines, name)
  {
    if lines != [] {
      StrippedNonBlankCounts(lines[..|lines| - 1], name);
    }
  }

  /** Every parsed tool name is non-empty and has no leading or trailing
      whitespace. */
  lemma ParsedNamesAreTrimmed(reply: string)
    ensures forall n :: n in ParseToolNames(reply) ==> n != [] && Strip(n) == n
  {
    forall n | n in ParseToolNames(reply) ensures n != [] && Strip(n) == n {
      StripOfTrimmed(n);
    }
  }

  /** The parsed names follow the order of the reply's lines. */
  lemma ParsedNamesInOrder(reply: string)
    ensures IsSubsequence(ParseToolNames(reply), StripAll(SplitLines(Strip(reply))))
  {
    StrippedNonBlankInOrder(SplitLines(Strip(reply)));
  }

  /** No name is dropped as a duplicate: each non-blank name occurs as often
      as there are reply lines that strip to it. */
  lemma ParsedNamesKeepDuplicates(reply: string, name: string)
    requires name != []
    ensures multiset(ParseToolNames(reply))[name] == CountStrippedAs(SplitLines(Strip(reply)), name)
  {
    StrippedNonBlankCounts(SplitLines(Strip(reply)), name);
  }

  /** The list is not capped: there is one name per non-blank line. */
  lemma {:induction false} ParsedNamesNotCapped(reply: string)
    ensures |ParseToolNames(reply)| == CountNonBlank(SplitLines(Strip(reply)))
  {
    StrippedNonBlankLength(SplitLines(Strip(reply)));
  }

  lemma {:induction false} StrippedNonBlankLength(lines: seq<string>)
    ensures |StrippedNonBlank(lines)| == CountNonBlank(lines)
  {
    if lines != [] {
      StrippedNonBlankLength(lines[..|lines| - 1]);
    }
  }

  /** Text that neither starts nor ends with whitespace is its own strip. */
  lemma StripOfTrimmed(s: string)
    requires s != [] && !IsSpace(s[0]) && !IsSpace(s[|s| - 1])
    ensures Strip(s) == s
  {
    assert TrimStart(s) == s;
  }

  /** A reply naming `a`, then `b`, a blank line `gap` (empty or only
      spaces) and `b` again, as in "Supabase\nAppwrite\n\nAppwrite\n",
      parses to `[a, b, b]`: the blank line is dropped and both copies of
      the duplicate are kept. */
  lemma {:induction false} ParseKeepsDuplicates(a: string, b: string, gap: string)
    requires IsTrimmedName(a) && IsTrimmedName(b) && AllSpace(gap)
    requires '\n' !in a && '\n' !in b && '\n' !in gap
    ensures ParseToolNames(a + "\n" + b + "\n" + gap + "\n" + b + "\n") == [a, b, b]
  {
    ParseFourLines(a, b, gap, b);
    DropsBlankKeepsDuplicate(a, b, gap);
  }

  /** A reply of four lines, each ended by a newline, parses like the list of
      those lines. */
  lemma ParseFourLines(w: string, x: string, y: string, z: string)
    requires '\n' !in w && '\n' !in x && '\n' !in y && '\n' !in z
    ensures ParseToolNames(w + "\n" + x + "\n" + y + "\n" + z + "\n")
         == StrippedNonBlank([w] + [x] + [y] + [z])
  {
    var lines := [w] + [x] + [y] + [z];
    JoinFourLines(w, x, y, z);
    assert lines[0] == w && lines[1] == x && lines[2] == y && lines[3] == z;
    ParseOfLines(lines);
  }

  /** A reply that lists break-free lines, each ended by a newline, parses to
      those lines stripped, blank ones dropped. */
  lemma ParseOfLines(lines: seq<string>)
    requires forall i :: 0 <= i < |lines| ==> '\n' !in lines[i]
    ensures ParseToolNames(JoinLines(lines) + "\n") == StrippedNonBlank(lines)
  {
    var body := JoinLines(lines);
    ParseIgnoresOuterWhitespace(body + "\n");
    assert body + "\n" == body + ['\n'];
    SplitLinesSnoc(body, '\n');
    var blank: string := [];
    assert AllSpace(blank);
    if lines == [] {
      assert SplitLines(body) == [blank];
      AppendBlank([], blank);
      AppendBlank([blank], blank);
      assert [] + [blank] == [blank];
    } else {
      SplitJoinLines(lines);
      AppendBlank(lines, blank);
    }
  }

  /** Stripping the whole reply before splitting it changes no name: it only
      removes whitespace that the per-line strip and the blank-line filter
      remove anyway. */
  lemma ParseIgnoresOuterWhitespace(reply: string)
    ensures ParseToolNames(reply) == StrippedNonBlank(SplitLines(reply))
  {
    TrimStartKeepsNames(reply);
    TrimEndKeepsNames(TrimStart(reply));
  }

  lemma {:induction false} TrimStartKeepsNames(s: string)
    ensures StrippedNonBlank(SplitLines(TrimStart(s))) == StrippedNonBlank(SplitLines(s))
    decreases |s|
  {
    if s != [] && IsSpace(s[0]) {
      TrimStartKeepsNames(s[1..]);
      LeadingSpaceKeepsNames(s);
    }
  }

  lemma {:induction false} TrimEndKeepsNames(s: string)
    ensures StrippedNonBlank(SplitLines(TrimEnd(s))) == StrippedNonBlank(SplitLines(s))
    decreases |s|
  {
    if s != [] && IsSpace(s[|s| - 1]) {
      var init, c := s[..|s| - 1], s[|s| - 1];
      assert TrimEnd(s) == TrimEnd(init);
      TrimEndKeepsNames(init);
      FrontLast(s);
      TrailingSpaceKeepsNames(init, c);
    }
  }

  /** A whitespace character in front of the text changes no name. */
  lemma LeadingSpaceKeepsNames(s: string)
    requires s != [] && IsSpace(s[0])
    ensures StrippedNonBlank(SplitLines(s)) == StrippedNonBlank(SplitLines(s[1..]))
  {
    var rest := SplitLines(s[1..]);
    if s[0] == '\n' {
      var blank: string := [];
      assert AllSpace(blank);
      assert SplitLines(s) == [blank] + rest;
      StrippedNonBlankAppend([blank], rest);
      AppendBlank([], blank);
      assert [] + [blank] == [blank];
    } else {
      var first := [s[0]] + rest[0];
      assert SplitLines(s) == [first] + rest[1..];
      assert rest == [rest[0]] + rest[1..];
      StrippedNonBlankAppend([first], rest[1..]);
      StrippedNonBlankAppend([rest[0]], rest[1..]);
      StripSpaceCons(s[0], rest[0]);
      SameStripSameNames([], first, rest[0]);
      assert [] + [first] == [first] && [] + [rest[0]] == [rest[0]];
    }
  }

  /** A whitespace character at the end of the text changes no name. */
  lemma TrailingSpaceKeepsNames(s: string, c: char)
    requires IsSpace(c)
    ensures StrippedNonBlank(SplitLines(s + [c])) == StrippedNonBlank(SplitLines(s))
  {
    var lines := SplitLines(s);
    var n := |lines|;
    SplitLinesSnoc(s, c);
    if c == '\n' {
      var blank: string := [];
      assert SplitLines(s + [c]) == lines + [blank];
      assert AllSpace(blank);
      AppendBlank(lines, blank);
    } else {
      var init, last := lines[..n - 1], lines[n - 1];
      assert SplitLines(s + [c]) == init + [last + [c]];
      StripSpaceSnoc(last, c);
      SameStripSameNames(init, last + [c], last);
      FrontLast(lines);
    }
  }

  /** The names of two runs of lines are the names of the first run followed
      by those of the second. */
  lemma {:induction false} StrippedNonBlankAppend(a: seq<string>, b: seq<string>)
    ensures StrippedNonBlank(a + b) == StrippedNonBlank(a) + StrippedNonBlank(b)
    decreases |b|
  {
    if b == [] {
      assert a + b == a;
    } else {
      var b' := b[..|b| - 1];
      assert (a + b)[..|a + b| - 1] == a + b';
      assert (a + b)[|a + b| - 1] == b[|b| - 1];
      StrippedNonBlankAppend(a, b');
      var name := Strip(b[|b| - 1]);
      if name != [] {
        AppendAssoc(StrippedNonBlank(a), StrippedNonBlank(b'), [name]);
      }
    }
  }

  /** Lines that strip to the same text give the same names. */
  lemma SameStripSameNames(init: seq<string>, x: string, y: string)
    requires Strip(x) == Strip(y)
    ensures StrippedNonBlank(init + [x]) == StrippedNonBlank(init + [y])
  {
    assert (init + [x])[..|init|] == init;
    assert (init + [y])[..|init|] == init;
  }

  lemma JoinFourLines(w: string, x: string, y: string, z: string)
    ensures JoinLines([w] + [x] + [y] + [z]) == w + "\n" + x + "\n" + y + "\n" + z
  {
    assert [w] + [x] + [y] + [z] == [w, x, y, z];
    var l1, l2, l3 := [z], [y, z], [x, y, z];
    assert l2[1..] == l1;
    assert l3[1..] == l2;
    assert [w, x, y, z][1..] == l3;
    assert JoinLines(l2) == y + "\n" + z;
    assert JoinLines(l3) == x + "\n" + (y + "\n" + z);
    AppendAssoc(x + "\n", y + "\n", z);
    AppendAssoc(x + "\n", y, "\n");
    assert JoinLines([w, x, y, z]) == w + "\n" + (x + "\n" + y + "\n" + z);
    AppendAssoc(w + "\n", x + "\n" + y + "\n", z);
    AppendAssoc(w + "\n", x + "\n" + y, "\n");
    AppendAssoc(w + "\n", x + "\n", y);
    AppendAssoc(w + "\n", x, "\n");
  }

  lemma DropsBlankKeepsDuplicate(a: string, b: string, gap: string)
    requires IsTrimmedName(a) && IsTrimmedName(b) && AllSpace(gap)
    ensures StrippedNonBlank([a] + [b] + [gap] + [b]) == [a, b, b]
  {
    assert [a] + [b] + [b] == [a, b, b];
    AppendName([], a);
    assert [] + [a] == [a];
    AppendName([a], b);
    AppendBlank([a] + [b], gap);
    AppendName([a] + [b] + [gap], b);
  }

  /** Appending a trimmed name to the lines appends it to the parsed names. */
  lemma AppendName(lines: seq<string>, name: string)
    requires IsTrimmedName(name)
    ensures StrippedNonBlank(lines + [name]) == StrippedNonBlank(lines) + [name]
  {
    StripOfTrimmed(name);
    assert (lines + [name])[..|lines|] == lines;
  }

  /** Appending a blank line leaves the parsed names as they were. */
  lemma AppendBlank(lines: seq<string>, blank: string)
    requires AllSpace(blank)
    ensures StrippedNonBlank(lines + [blank]) == StrippedNonBlank(lines)
  {
    StripEmptyIffBlank(blank);
    assert (lines + [blank])[..|lines|] == lines;
  }

  /** The reply of the extraction call for `query`, or `None` when it raised. */
  function ExtractionReply(c: Collaborators, query: string): Option<string> {
    var hits := c.search(ArticleQuery(query), ArticleResultCount);
    c.extractToolNames(query, ArticleText(c, hits))
  }

  /** The `extracted_tools` list the first step produces: the parsed reply,
      or the empty list when the model call raised. */
  function ExtractTools(c: Collaborators, query: string): (tools: seq<string>)
    ensures ExtractionReply(c, query).None? ==> tools == []
    ensures ExtractionReply(c, query).Some? ==> tools == ParseToolNames(ExtractionReply(c, query).value)
  {
    match ExtractionReply(c, query)
    case None => []
    case Some(reply) => ParseToolNames(reply)
  }
}
