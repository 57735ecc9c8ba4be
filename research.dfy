/** The second step, `_research_step`: choose which tools to research, then
    look each one up, scrape its site and merge the structured analysis into
    its record. */
module Research {
  import opened Wrappers
  import opened Sequences
  import opened Models

  const ResearchLimit := 4
  const FallbackResultCount := 4
  const SiteQuerySuffix := " official site"
  const UnknownTitle := "Unknown"

  /** `result.get("metadata", {}).get("title", "Unknown")` */
  function FallbackName(hit: SearchHit): (name: string)
    ensures hit.title.Some? ==> name == hit.title.value
    ensures hit.title.None? ==> name == UnknownTitle
  {
    hit.title.GetOr(UnknownTitle)
  }

  /** The tool names the research loop runs over: the first four extracted
      tools, or, when none were extracted, the titles of a direct search for
      the query with "Unknown" for a missing title. */
  function SelectToolNames(c: Collaborators, query: string, extracted: seq<string>): (names: seq<string>)
    ensures extracted != [] ==>
              |names| == Min(ResearchLimit, |extracted|) && names == extracted[..|names|]
    ensures extracted == [] ==>
              var hits := c.search(query, FallbackResultCount);
              |names| == |hits| &&
              forall i :: 0 <= i < |hits| ==>
                names[i] == (if hits[i].title.Some? then hits[i].title.value else UnknownTitle)
  {
    if extracted == [] then
      var hits := c.search(query, FallbackResultCount);
      seq(|hits|, i requires 0 <= i < |hits| => FallbackName(hits[i]))
    else
      extracted[..Min(ResearchLimit, |extracted|)]
  }

  /** At most four tools are researched, provided the search service honours
      the requested number of results in the fallback. */
  lemma SelectedAtMostFour(c: Collaborators, query: string, extracted: seq<string>)
    requires HonoursLimit(c.search)
    ensures |SelectToolNames(c, query, extracted)| <= ResearchLimit
  {
    var hits := c.search(query, FallbackResultCount);
  }

  /** The progress bar value while the tool at index `i` of `total` is being
      researched: it stays in [40, 70). */
  function ProgressAt(i: nat, total: nat): (p: int)
    requires i < total
    ensures 40 <= p < 70
  {
    40 + i * 30 / total
  }

  /** Later tools never move the bar backwards. */
  lemma ProgressMonotone(i: nat, j: nat, total: nat)
    requires i <= j < total
    ensures ProgressAt(i, total) <= ProgressAt(j, total)
  {
    DivMonotone(i * 30, j * 30, total);
  }

  lemma DivMonotone(a: nat, b: nat, d: nat)
    requires a <= b && 0 < d
    ensures a / d <= b / d
  {
    var qa, qb := a / d, b / d;
    assert qa * d <= a;
    assert b < (qb + 1) * d;
    MulCancel(qa, qb + 1, d);
  }

  /** Helper: a strict inequality between multiples of a positive `d`
      carries over to the factors. */
  lemma MulCancel(x: int, y: int, d: int)
    requires 0 < d && x * d < y * d
    ensures x < y
  {
  }

  /** `_analyze_company_content`: the model's analysis, or, when the call
      raised, a fixed record of unknown values. */
  function AnalyzeCompanyContent(c: Collaborators, name: string, content: string): (a: CompanyAnalysis)
    ensures c.analyzeTool(name, content).Some? ==> a == c.analyzeTool(name, content).value
    ensures c.analyzeTool(name, content).None? ==>
              a.pricingModel == "Unknown" && a.isOpenSource == None && a.techStack == [] &&
              a.description == "Failed" && a.apiAvailable == None &&
              a.languageSupport == [] && a.integrationCapabilities == []
  {
    match c.analyzeTool(name, content)
    case Some(analysis) => analysis
    case None => CompanyAnalysis("Unknown", None, [], "Failed", None, [], [])
  }

  /** The hits of the site search for one tool. */
  function SiteHits(c: Collaborators, toolName: string): seq<SearchHit> {
    c.search(toolName + SiteQuerySuffix, 1)
  }

  /** The record one iteration of the research loop appends, if any. A tool
      whose site search finds nothing yields no record. Otherwise the record is
      named after the tool and points at the first hit's URL; when that page
      cannot be scraped it keeps the hit's markdown as description and empty
      lists, and when it can, the seven analysis fields come from the
      analysis of the page. */
  function ResearchTool(c: Collaborators, toolName: string): (r: Option<CompanyInfo>)
    ensures r.None? <==> SiteHits(c, toolName) == []
    ensures r.Some? ==>
              var hit := SiteHits(c, toolName)[0];
              var info := r.value;
              info.name == toolName && info.website == HitUrl(hit) && info.competitors == [] &&
              match c.scrape(HitUrl(hit))
              case None =>
                info.description == hit.markdown.GetOr("") && info.techStack == [] &&
                info.pricingModel == None && info.isOpenSource == None && info.apiAvailable == None &&
                info.languageSupport == [] && info.integrationCapabilities == []
              case Some(content) =>
                var a := AnalyzeCompanyContent(c, toolName, content);
                info.pricingModel == Some(a.pricingModel) && info.isOpenSource == a.isOpenSource &&
                info.techStack == a.techStack && info.description == a.description &&
                info.apiAvailable == a.apiAvailable && info.languageSupport == a.languageSupport &&
                info.integrationCapabilities == a.integrationCapabilities
  {
    var hits := SiteHits(c, toolName);
    if hits == [] then None
    else
      var hit := hits[0];
      var url := HitUrl(hit);
      var company := NewCompanyInfo(toolName, hit.markdown.GetOr(""), url);
      match c.scrape(url)
      case None => Some(company)
      case Some(content) =>
        Some(WithAnalysis(company, AnalyzeCompanyContent(c, company.name, content)))
  }

  /** The `companies` list the research loop builds over `toolNames`. */
  function ResearchAll(c: Collaborators, toolNames: seq<string>): (companies: seq<CompanyInfo>)
    ensures |companies| <= |toolNames|
  {
    if toolNames == [] then []
    else
      var init := ResearchAll(c, toolNames[..|toolNames| - 1]);
      match ResearchTool(c, toolNames[|toolNames| - 1])
      case None => init
      case Some(company) => init + [company]
  }

  /** One more tool researched appends its record, if it has one. */
  lemma ResearchAllNext(c: Collaborators, toolNames: seq<string>, i: nat)
    requires i < |toolNames|
    ensures ResearchTool(c, toolNames[i]).None? ==>
              ResearchAll(c, toolNames[..i + 1]) == ResearchAll(c, toolNames[..i])
    ensures ResearchTool(c, toolNames[i]).Some? ==>
              ResearchAll(c, toolNames[..i + 1]) == ResearchAll(c, toolNames[..i]) + [ResearchTool(c, toolNames[i]).value]
  {
    assert toolNames[..i + 1][..i] == toolNames[..i];
  }

  function RecordNames(companies: seq<CompanyInfo>): (names: seq<string>)
    ensures |names| == |companies| && forall i :: 0 <= i < |companies| ==> names[i] == companies[i].name
  {
    seq(|companies|, i requires 0 <= i < |companies| => companies[i].name)
  }

  /** The researched records follow the order of the tool names. */
  lemma {:induction false} ResearchedNamesInOrder(c: Collaborators, toolNames: seq<string>)
    ensures IsSubsequence(RecordNames(ResearchAll(c, toolNames)), toolNames)
  {
    if toolNames != [] {
      var init := toolNames[..|toolNames| - 1];
      var last := toolNames[|toolNames| - 1];
      ResearchedNamesInOrder(c, init);
      assert toolNames == init + [last];
      var before := RecordNames(ResearchAll(c, init));
      match ResearchTool(c, last)
      case None =>
        SubsequenceExtend(before, init, last);
      case Some(company) =>
        assert RecordNames(ResearchAll(c, toolNames)) == before + [last];
        SubsequenceAppendBoth(before, init, last);
    }
  }

  /** Every record is exactly what researching its own name produces. */
  lemma {:induction false} ResearchedRecordsMatchTheirTool(c: Collaborators, toolNames: seq<string>)
    ensures forall company :: company in ResearchAll(c, toolNames) ==>
              ResearchTool(c, company.name) == Some(company)
  {
    if toolNames != [] {
      ResearchedRecordsMatchTheirTool(c, toolNames[..|toolNames| - 1]);
    }
  }

  /** A name has a record exactly when it is among the tool names and its
      site search found something. */
  lemma {:induction false} ResearchedNamesAreThoseWithHits(c: Collaborators, toolNames: seq<string>)
    ensures forall n :: n in RecordNames(ResearchAll(c, toolNames)) <==>
              n in toolNames && SiteHits(c, n) != []
  {
    if toolNames != [] {
      var init := toolNames[..|toolNames| - 1];
      var last := toolNames[|toolNames| - 1];
      ResearchedNamesAreThoseWithHits(c, init);
      assert toolNames == init + [last];
      var before := RecordNames(ResearchAll(c, init));
      if ResearchTool(c, last).Some? {
        assert RecordNames(ResearchAll(c, toolNames)) == before + [last];
      }
    }
  }

  /** The research step yields at most four records. */
  lemma ResearchedAtMostFour(c: Collaborators, query: string, extracted: seq<string>)
    requires HonoursLimit(c.search)
    ensures |ResearchAll(c, SelectToolNames(c, query, extracted))| <= ResearchLimit
  {
    SelectedAtMostFour(c, query, extracted);
  }
}
