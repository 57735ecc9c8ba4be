/** The records the workflow reads and writes, the collaborators it calls,
    and the way LangGraph folds each step's partial update into the state. */
module Models {
  import opened Wrappers

  /** The structured-extraction result for one tool. */
  datatype CompanyAnalysis = CompanyAnalysis(
    pricingModel: string,
    isOpenSource: Option<bool>,
    techStack: seq<string>,
    description: string,
    apiAvailable: Option<bool>,
    languageSupport: seq<string>,
    integrationCapabilities: seq<string>)

  /** The fact record for one researched tool. `pricingModel` is `None` while
      the workflow has not set it. */
  datatype CompanyInfo = CompanyInfo(
    name: string,
    description: string,
    website: string,
    pricingModel: Option<string>,
    isOpenSource: Option<bool>,
    techStack: seq<string>,
    competitors: seq<string>,
    apiAvailable: Option<bool>,
    languageSupport: seq<string>,
    integrationCapabilities: seq<string>)

  /** `CompanyInfo(name=..., description=..., website=..., tech_stack=[],
      competitors=[])`: the remaining fields keep their unset values. */
  function NewCompanyInfo(name: string, description: string, website: string): (c: CompanyInfo)
    ensures c.name == name && c.description == description && c.website == website
    ensures c.techStack == [] && c.competitors == []
    ensures c.pricingModel == None && c.isOpenSource == None && c.apiAvailable == None
    ensures c.languageSupport == [] && c.integrationCapabilities == []
  {
    CompanyInfo(name, description, website, None, None, [], [], None, [], [])
  }

  /** The seven field assignments that copy an analysis into a record: the
      name, website and competitors stay as they were. */
  function WithAnalysis(info: CompanyInfo, a: CompanyAnalysis): (r: CompanyInfo)
    ensures r.name == info.name && r.website == info.website && r.competitors == info.competitors
    ensures r.pricingModel == Some(a.pricingModel) && r.isOpenSource == a.isOpenSource
    ensures r.techStack == a.techStack && r.description == a.description
    ensures r.apiAvailable == a.apiAvailable && r.languageSupport == a.languageSupport
    ensures r.integrationCapabilities == a.integrationCapabilities
  {
    info.(pricingModel := Some(a.pricingModel), isOpenSource := a.isOpenSource,
          techStack := a.techStack, description := a.description,
          apiAvailable := a.apiAvailable, languageSupport := a.languageSupport,
          integrationCapabilities := a.integrationCapabilities)
  }

  /** One entry of a search response: the keys `url`, `markdown` and
      `metadata.title`, each of which may be missing. */
  datatype SearchHit = SearchHit(url: Option<string>, markdown: Option<string>, title: Option<string>)

  /** `result.get("url", "")` */
  function HitUrl(hit: SearchHit): (url: string)
    ensures hit.url.Some? ==> url == hit.url.value
    ensures hit.url.None? ==> url == ""
  {
    hit.url.GetOr("")
  }

  /** The external services, as functions. A `None` result stands for a call
      that raised (the language model) or for a falsy scrape response.
      - search(query, numResults): the hits of a web search
      - scrape(url): the page's markdown
      - extractToolNames(query, articleText): the raw reply listing tool names
      - analyzeTool(toolName, pageContent): the schema-validated analysis
      - recommend(query, companies): the recommendation text */
  datatype Collaborators = Collaborators(
    search: (string, nat) -> seq<SearchHit>,
    scrape: string -> Option<string>,
    extractToolNames: (string, string) -> Option<string>,
    analyzeTool: (string, string) -> Option<CompanyAnalysis>,
    recommend: (string, seq<CompanyInfo>) -> Option<string>)

  /** The search service never returns more hits than asked for. */
  ghost predicate HonoursLimit(search: (string, nat) -> seq<SearchHit>) {
    forall q, n :: |search(q, n)| <= n
  }

  /** The state threaded through the three steps. */
  datatype ResearchState = ResearchState(
    query: string,
    extractedTools: seq<string>,
    companies: seq<CompanyInfo>,
    analysis: Option<string>)

  /** `ResearchState(query=query)` */
  function InitialState(query: string): (s: ResearchState)
    ensures s.query == query && s.extractedTools == [] && s.companies == [] && s.analysis == None
  {
    ResearchState(query, [], [], None)
  }

  /** The partial dictionary a step returns: one key per step. */
  datatype StateUpdate =
    | ExtractedToolsUpdate(tools: seq<string>)
    | CompaniesUpdate(companies: seq<CompanyInfo>)
    | AnalysisUpdate(text: string)

  /** Merging a step's update overwrites exactly the key it returns and
      leaves every other field as it was. */
  function Merge(s: ResearchState, u: StateUpdate): (r: ResearchState)
    ensures r.query == s.query
    ensures r.extractedTools == (if u.ExtractedToolsUpdate? then u.tools else s.extractedTools)
    ensures r.companies == (if u.CompaniesUpdate? then u.companies else s.companies)
    ensures r.analysis == (if u.AnalysisUpdate? then Some(u.text) else s.analysis)
  {
    match u
    case ExtractedToolsUpdate(tools) => s.(extractedTools := tools)
    case CompaniesUpdate(companies) => s.(companies := companies)
    case AnalysisUpdate(text) => s.(analysis := Some(text))
  }
}
