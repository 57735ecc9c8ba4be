/** The orchestrator, `Workflow`: three steps run in the fixed order
    extract_tools, research, analyze, each returning a partial update that is
    merged into the research state, with progress reported to an optional
    callback of UI widgets. */
module Workflow {
  import opened Wrappers
  import opened Sequences
  import opened Models
  import opened Progress
  import opened Extraction
  import opened Research

  /** How many extracted names the status message shows. */
  const ShownToolCount := 5

  const ExtractedProgress := 40
  const ResearchedProgress := 70
  const AnalyzedProgress := 90

  // ---------------------------------------------------------------------
  // The steps as functions of the state

  /** The state after `extract_tools`. */
  function ExtractToolsStage(c: Collaborators, s: ResearchState): (r: ResearchState)
    ensures r.extractedTools == ExtractTools(c, s.query)
    ensures r.query == s.query && r.companies == s.companies && r.analysis == s.analysis
  {
    Merge(s, ExtractedToolsUpdate(ExtractTools(c, s.query)))
  }

  /** The state after `research`. */
  function ResearchStage(c: Collaborators, s: ResearchState): (r: ResearchState)
    ensures r.companies == ResearchAll(c, SelectToolNames(c, s.query, s.extractedTools))
    ensures r.query == s.query && r.extractedTools == s.extractedTools && r.analysis == s.analysis
  {
    Merge(s, CompaniesUpdate(ResearchAll(c, SelectToolNames(c, s.query, s.extractedTools))))
  }

  /** The state after `analyze`, or `None` when the recommendation call
      raised (the exception leaves the run). */
  function AnalyzeStage(c: Collaborators, s: ResearchState): (r: Option<ResearchState>)
    ensures r.None? <==> c.recommend(s.query, s.companies).None?
    ensures r.Some? ==> r.value == s.(analysis := c.recommend(s.query, s.companies))
  {
    match c.recommend(s.query, s.companies)
    case None => None
    case Some(text) => Some(Merge(s, AnalysisUpdate(text)))
  }

  /** `run(query)`: the three steps composed in graph order from
      `ResearchState(query=query)`. Each field of the result is written by the
      one step that owns it: the query is the input, the tools come from the
      extraction, the companies from researching the selected names, and the
      analysis is the recommendation reply verbatim. The run fails exactly when
      the recommendation call raises. */
  function RunPipeline(c: Collaborators, query: string): (r: Option<ResearchState>)
    ensures var tools := ExtractTools(c, query);
            var companies := ResearchAll(c, SelectToolNames(c, query, tools));
            var reply := c.recommend(query, companies);
            (r.None? <==> reply.None?) &&
            (r.Some? ==> r.value == ResearchState(query, tools, companies, reply))
  {
    AnalyzeStage(c, ResearchStage(c, ExtractToolsStage(c, InitialState(query))))
  }

  /** A completed run holds at most four company records when the search
      service honours the number of results asked for. */
  lemma RunResearchesAtMostFour(c: Collaborators, query: string)
    requires HonoursLimit(c.search)
    requires RunPipeline(c, query).Some?
    ensures |RunPipeline(c, query).value.companies| <= ResearchLimit
  {
    ResearchedAtMostFour(c, query, ExtractTools(c, query));
  }

  // ---------------------------------------------------------------------
  // The widget calls each step makes

  /** The calls of `extract_tools`; `tools` is its result and `failed` says
      whether the model call raised. */
  function ExtractStepEvents(cb: ProgressCallback, query: string, tools: seq<string>, failed: bool): (events: seq<UiEvent>)
    ensures |events| <= 3
  {
    Dispatch(cb, Step1Key, Some(FindingArticles(query)), None) +
    if failed then
      Dispatch(cb, Step1Key, Some(ExtractionFailed), None)
    else
      Dispatch(cb, Step1Key, Some(ToolsExtracted(tools[..Min(ShownToolCount, |tools|)])), None) +
      Dispatch(cb, ProgressBarKey, None, Some(ExtractedProgress))
  }

  /** The calls of the first `k` iterations of the research loop. */
  function ToolEvents(cb: ProgressCallback, names: seq<string>, k: nat): (events: seq<UiEvent>)
    requires k <= |names|
  {
    if k == 0 then []
    else
      ToolEvents(cb, names, k - 1) +
      Dispatch(cb, Step2Key, Some(AnalyzingTool(names[k - 1], k, |names|)), None) +
      Dispatch(cb, ProgressBarKey, None, Some(ProgressAt(k - 1, |names|)))
  }

  /** The calls of `research`: the fallback notice when nothing was
      extracted, the start notice, the loop's calls, the completion notice and
      the bar at 70. */
  function ResearchStepEvents(cb: ProgressCallback, extracted: seq<string>, names: seq<string>,
                              found: nat): (events: seq<UiEvent>)
    ensures |events| <= 2 * |names| + 4
  {
    ToolEventsCount(cb, names, |names|);
    (if extracted == [] then Dispatch(cb, Step2Key, Some(FallingBackToSearch), None) else []) +
    Dispatch(cb, Step2Key, Some(ResearchingTools(names)), None) +
    ToolEvents(cb, names, |names|) +
    Dispatch(cb, Step2Key, Some(ResearchComplete(found)), None) +
    Dispatch(cb, ProgressBarKey, None, Some(ResearchedProgress))
  }

  /** The calls of `analyze`; `succeeded` says whether the recommendation
      call returned. */
  function AnalyzeStepEvents(cb: ProgressCallback, succeeded: bool): (events: seq<UiEvent>)
    ensures |events| <= 3
  {
    Dispatch(cb, Step3Key, Some(GeneratingRecommendations), None) +
    if succeeded then
      Dispatch(cb, Step3Key, Some(RecommendationsReady), None) +
      Dispatch(cb, ProgressBarKey, None, Some(AnalyzedProgress))
    else []
  }

  /** Every widget call of one run, in order. */
  function RunEvents(cb: ProgressCallback, c: Collaborators, query: string): (events: seq<UiEvent>)
  {
    var tools := ExtractTools(c, query);
    var names := SelectToolNames(c, query, tools);
    var companies := ResearchAll(c, names);
    ExtractStepEvents(cb, query, tools, ExtractionReply(c, query).None?) +
    ResearchStepEvents(cb, tools, names, |companies|) +
    AnalyzeStepEvents(cb, c.recommend(query, companies).Some?)
  }

  // ---------------------------------------------------------------------
  // What a run reports

  lemma {:induction false} ToolEventsSilent(names: seq<string>, k: nat)
    requires k <= |names|
    ensures ToolEvents(None, names, k) == []
  {
    if k > 0 {
      ToolEventsSilent(names, k - 1);
    }
  }

  /** Each iteration of the loop calls at most two widgets. */
  lemma {:induction false} ToolEventsCount(cb: ProgressCallback, names: seq<string>, k: nat)
    requires k <= |names|
    ensures |ToolEvents(cb, names, k)| <= 2 * k
  {
    if k > 0 {
      ToolEventsCount(cb, names, k - 1);
    }
  }

  /** Without a callback a run touches no widget. */
  lemma RunSilentWithoutCallback(c: Collaborators, query: string)
    ensures RunEvents(None, c, query) == []
  {
    var names := SelectToolNames(c, query, ExtractTools(c, query));
    ToolEventsSilent(names, |names|);
  }

  /** The values the research loop sends to the progress bar in its first
      `k` iterations, when the callback has a bar: `40 + i * 30 // total` for
      each index `i` in turn. */
  function LoopProgress(total: nat, k: nat): (values: seq<int>)
    requires k <= total
    ensures |values| == k
    ensures forall i :: 0 <= i < k ==> values[i] == ProgressAt(i, total)
  {
    if k == 0 then [] else LoopProgress(total, k - 1) + [ProgressAt(k - 1, total)]
  }

  predicate HasProgressBar(cb: ProgressCallback) {
    cb.Some? && ProgressBarKey in cb.value
  }

  /** One more iteration of the research loop appends its two widget calls. */
  lemma ToolEventsNext(cb: ProgressCallback, names: seq<string>, i: nat, before: seq<UiEvent>)
    requires i < |names|
    ensures before + ToolEvents(cb, names, i) +
            Dispatch(cb, Step2Key, Some(AnalyzingTool(names[i], i + 1, |names|)), None) +
            Dispatch(cb, ProgressBarKey, None, Some(ProgressAt(i, |names|)))
         == before + ToolEvents(cb, names, i + 1)
  {
    var info := Dispatch(cb, Step2Key, Some(AnalyzingTool(names[i], i + 1, |names|)), None);
    var bar := Dispatch(cb, ProgressBarKey, None, Some(ProgressAt(i, |names|)));
    AppendAssoc(before, ToolEvents(cb, names, i), info);
    AppendAssoc(before, ToolEvents(cb, names, i) + info, bar);
  }

  /** The loop reports `40 + i * 30 // total` for each tool in turn, or
      nothing when there is no progress bar. */
  lemma {:induction false} ToolEventsProgress(cb: ProgressCallback, names: seq<string>, k: nat)
    requires k <= |names|
    ensures ProgressValues(ToolEvents(cb, names, k)) ==
              if HasProgressBar(cb) then LoopProgress(|names|, k) else []
  {
    if k > 0 {
      var before := ToolEvents(cb, names, k - 1);
      var v := ProgressAt(k - 1, |names|);
      var notice := AnalyzingTool(names[k - 1], k, |names|);
      assert ToolEvents(cb, names, k) ==
             before + Dispatch(cb, Step2Key, Some(notice), None) + Dispatch(cb, ProgressBarKey, None, Some(v));
      ToolEventsProgress(cb, names, k - 1);
      NoticeThenBar(cb, before, notice, v);
      if HasProgressBar(cb) {
        assert LoopProgress(|names|, k) == LoopProgress(|names|, k - 1) + [v];
      } else {
        assert ProgressValues(before) == [];
      }
    }
  }

  /** A status message followed by a bar value adds that value, or nothing
      when there is no bar, to what was reported before. */
  lemma NoticeThenBar(cb: ProgressCallback, before: seq<UiEvent>, notice: Notice, v: int)
    ensures ProgressValues(before + Dispatch(cb, Step2Key, Some(notice), None) +
                           Dispatch(cb, ProgressBarKey, None, Some(v))) ==
              ProgressValues(before) + if HasProgressBar(cb) then [v] else []
  {
    var info := Dispatch(cb, Step2Key, Some(notice), None);
    var bar := Dispatch(cb, ProgressBarKey, None, Some(v));
    DispatchInfoHasNoProgress(cb, Step2Key, notice);
    ProgressValuesAppend(before, info);
    ProgressValuesAppend(before + info, bar);
    DispatchProgressValues(cb, v);
  }

  /** The loop's values rise and stay in [40, 70). */
  lemma LoopProgressRises(total: nat, k: nat)
    requires k <= total
    ensures NonDecreasing(LoopProgress(total, k))
    ensures forall v :: v in LoopProgress(total, k) ==> 40 <= v < 70
  {
    var values := LoopProgress(total, k);
    forall i, j | 0 <= i <= j < |values| ensures values[i] <= values[j] {
      ProgressMonotone(i, j, total);
    }
  }

  /** The progress bar only ever moves forward during a run, and every value
      it is given lies between 40 and 90. */
  lemma RunProgressNonDecreasing(cb: ProgressCallback, c: Collaborators, query: string)
    ensures NonDecreasing(ProgressValues(RunEvents(cb, c, query)))
    ensures forall v :: v in ProgressValues(RunEvents(cb, c, query)) ==> 40 <= v <= 90
  {
    var tools := ExtractTools(c, query);
    var names := SelectToolNames(c, query, tools);
    var companies := ResearchAll(c, names);
    var succeeded := c.recommend(query, companies).Some?;
    var e1 := ExtractStepEvents(cb, query, tools, ExtractionReply(c, query).None?);
    var e2 := ResearchStepEvents(cb, tools, names, |companies|);
    var e3 := AnalyzeStepEvents(cb, succeeded);
    ExtractStepProgress(cb, query, tools, ExtractionReply(c, query).None?);
    ResearchStepProgress(cb, tools, names, |companies|);
    AnalyzeStepProgress(cb, succeeded);
    StepsInSequence(e1, e2, e3);
  }

  /** Steps whose bar values rise within 40, 40..70 and 90 rise together. */
  lemma StepsInSequence(e1: seq<UiEvent>, e2: seq<UiEvent>, e3: seq<UiEvent>)
    requires NonDecreasing(ProgressValues(e1)) && forall v :: v in ProgressValues(e1) ==> v == ExtractedProgress
    requires NonDecreasing(ProgressValues(e2)) &&
             forall v :: v in ProgressValues(e2) ==> ExtractedProgress <= v <= ResearchedProgress
    requires NonDecreasing(ProgressValues(e3)) && forall v :: v in ProgressValues(e3) ==> v == AnalyzedProgress
    ensures NonDecreasing(ProgressValues(e1 + e2 + e3))
    ensures forall v :: v in ProgressValues(e1 + e2 + e3) ==> 40 <= v <= 90
  {
    ProgressValuesAppend(e1 + e2, e3);
    ProgressValuesAppend(e1, e2);
    NonDecreasingAppend(ProgressValues(e1), ProgressValues(e2));
    NonDecreasingAppend(ProgressValues(e1) + ProgressValues(e2), ProgressValues(e3));
  }

  /** Helper: a step that reports nothing or the single value `v` reports
      only `v`, in non-decreasing order. */
  lemma AtMostOneValue(values: seq<int>, v: int)
    requires values == [] || values == [v]
    ensures forall x :: x in values ==> x == v
    ensures NonDecreasing(values)
  {
  }

  /** Two status messages and then a bar value `v` report `v` alone, or
      nothing when there is no bar. */
  lemma TwoNoticesThenBar(cb: ProgressCallback, k1: StepKey, n1: Notice, k2: StepKey, n2: Notice, v: int)
    requires k1 != ProgressBarKey && k2 != ProgressBarKey
    ensures var events := Dispatch(cb, k1, Some(n1), None) +
                          (Dispatch(cb, k2, Some(n2), None) + Dispatch(cb, ProgressBarKey, None, Some(v)));
            ProgressValues(events) == if HasProgressBar(cb) then [v] else []
  {
    var first := Dispatch(cb, k1, Some(n1), None);
    var second := Dispatch(cb, k2, Some(n2), None);
    var bar := Dispatch(cb, ProgressBarKey, None, Some(v));
    DispatchInfoHasNoProgress(cb, k1, n1);
    DispatchInfoHasNoProgress(cb, k2, n2);
    DispatchProgressValues(cb, v);
    ProgressValuesAppend(second, bar);
    ProgressValuesAppend(first, second + bar);
  }

  /** The extraction step reports at most the value 40. */
  lemma ExtractStepProgress(cb: ProgressCallback, query: string, tools: seq<string>, failed: bool)
    ensures forall v :: v in ProgressValues(ExtractStepEvents(cb, query, tools, failed)) ==> v == ExtractedProgress
    ensures NonDecreasing(ProgressValues(ExtractStepEvents(cb, query, tools, failed)))
  {
    var values := ProgressValues(ExtractStepEvents(cb, query, tools, failed));
    assert values == [] || values == [ExtractedProgress] by {
      var first := Dispatch(cb, Step1Key, Some(FindingArticles(query)), None);
      if failed {
        DispatchInfoHasNoProgress(cb, Step1Key, FindingArticles(query));
        DispatchInfoHasNoProgress(cb, Step1Key, ExtractionFailed);
        ProgressValuesAppend(first, Dispatch(cb, Step1Key, Some(ExtractionFailed), None));
      } else {
        var shown := tools[..Min(ShownToolCount, |tools|)];
        TwoNoticesThenBar(cb, Step1Key, FindingArticles(query), Step1Key, ToolsExtracted(shown), ExtractedProgress);
      }
    }
    AtMostOneValue(values, ExtractedProgress);
  }

  /** The research step reports the loop's values, then 70. */
  lemma ResearchStepProgressValues(cb: ProgressCallback, extracted: seq<string>, names: seq<string>, found: nat)
    ensures ProgressValues(ResearchStepEvents(cb, extracted, names, found)) ==
              if HasProgressBar(cb) then LoopProgress(|names|, |names|) + [ResearchedProgress] else []
  {
    var fallback := if extracted == [] then Dispatch(cb, Step2Key, Some(FallingBackToSearch), None) else [];
    var start := Dispatch(cb, Step2Key, Some(ResearchingTools(names)), None);
    var tools := ToolEvents(cb, names, |names|);
    var done := Dispatch(cb, Step2Key, Some(ResearchComplete(found)), None);
    var bar := Dispatch(cb, ProgressBarKey, None, Some(ResearchedProgress));
    assert ProgressValues(fallback) == [] by {
      if extracted == [] {
        DispatchInfoHasNoProgress(cb, Step2Key, FallingBackToSearch);
      }
    }
    var loop := if HasProgressBar(cb) then LoopProgress(|names|, |names|) else [];
    assert ProgressValues(fallback + start) == [] by {
      DispatchInfoHasNoProgress(cb, Step2Key, ResearchingTools(names));
      ProgressValuesAppend(fallback, start);
    }
    assert ProgressValues(fallback + start + tools) == loop by {
      ToolEventsProgress(cb, names, |names|);
      ProgressValuesAppend(fallback + start, tools);
    }
    assert ProgressValues(fallback + start + tools + done) == loop by {
      DispatchInfoHasNoProgress(cb, Step2Key, ResearchComplete(found));
      ProgressValuesAppend(fallback + start + tools, done);
    }
    assert ProgressValues(fallback + start + tools + done + bar) ==
             loop + (if HasProgressBar(cb) then [ResearchedProgress] else []) by {
      DispatchProgressValues(cb, ResearchedProgress);
      ProgressValuesAppend(fallback + start + tools + done, bar);
    }
    assert ResearchStepEvents(cb, extracted, names, found) == fallback + start + tools + done + bar;
  }

  lemma ResearchStepProgress(cb: ProgressCallback, extracted: seq<string>, names: seq<string>, found: nat)
    ensures forall v :: v in ProgressValues(ResearchStepEvents(cb, extracted, names, found)) ==>
              ExtractedProgress <= v <= ResearchedProgress
    ensures NonDecreasing(ProgressValues(ResearchStepEvents(cb, extracted, names, found)))
  {
    ResearchStepProgressValues(cb, extracted, names, found);
    if HasProgressBar(cb) {
      LoopThenResearched(|names|);
    }
  }

  /** Helper: the loop's values followed by 70 rise and stay within [40, 70]. */
  lemma LoopThenResearched(total: nat)
    ensures forall v :: v in LoopProgress(total, total) + [ResearchedProgress] ==>
              ExtractedProgress <= v <= ResearchedProgress
    ensures NonDecreasing(LoopProgress(total, total) + [ResearchedProgress])
  {
    var loop := LoopProgress(total, total);
    LoopProgressRises(total, total);
    NonDecreasingAppend(loop, [ResearchedProgress]);
    forall v | v in loop + [ResearchedProgress] ensures ExtractedProgress <= v <= ResearchedProgress {
      if v !in loop {
        assert v == ResearchedProgress;
      }
    }
  }

  /** The analysis step reports at most the value 90. */
  lemma AnalyzeStepProgress(cb: ProgressCallback, succeeded: bool)
    ensures forall v :: v in ProgressValues(AnalyzeStepEvents(cb, succeeded)) ==> v == AnalyzedProgress
    ensures NonDecreasing(ProgressValues(AnalyzeStepEvents(cb, succeeded)))
  {
    var values := ProgressValues(AnalyzeStepEvents(cb, succeeded));
    assert values == [] || values == [AnalyzedProgress] by {
      var first := Dispatch(cb, Step3Key, Some(GeneratingRecommendations), None);
      if succeeded {
        TwoNoticesThenBar(cb, Step3Key, GeneratingRecommendations, Step3Key, RecommendationsReady, AnalyzedProgress);
      } else {
        DispatchInfoHasNoProgress(cb, Step3Key, GeneratingRecommendations);
        assert AnalyzeStepEvents(cb, succeeded) == first;
      }
    }
    AtMostOneValue(values, AnalyzedProgress);
  }

  // ---------------------------------------------------------------------
  // The orchestrator object

  /** The workflow object: its collaborators, the progress callback installed
      by the current run, and the widget calls made so far. */
  class Workflow {
    const collab: Collaborators
    var progressCallback: ProgressCallback
    /** Every widget call made through `UpdateProgress`, oldest first. */
    var uiLog: seq<UiEvent>

    constructor (collab: Collaborators)
      ensures this.collab == collab && progressCallback == None && uiLog == []
    {
      this.collab := collab;
      progressCallback := None;
      uiLog := [];
    }

    /** `_update_progress`: calls at most one widget of the installed callback. */
    method UpdateProgress(step: StepKey, notice: Option<Notice>, progress: Option<int>)
      modifies this`uiLog
      ensures uiLog == old(uiLog) + Dispatch(progressCallback, step, notice, progress)
    {
      if progressCallback.Some? && progressCallback.value != map[] {
        if step in progressCallback.value {
          var widget := progressCallback.value[step];
          if step == ProgressBarKey && progress.Some? {
            uiLog := uiLog + [SetProgress(widget, progress.value)];
          } else {
            uiLog := uiLog + [ShowInfo(widget, notice)];
          }
        }
      }
    }

    /** `_extract_tools_step`: when the extraction call raises, the update is
        exactly `extracted_tools = []`. */
    method ExtractToolsStep(state: ResearchState) returns (update: StateUpdate)
      modifies this`uiLog
      ensures update == ExtractedToolsUpdate(ExtractTools(collab, state.query))
      ensures ExtractionReply(collab, state.query).None? ==> update == ExtractedToolsUpdate([])
      ensures uiLog == old(uiLog) + ExtractStepEvents(progressCallback, state.query, update.tools,
                                                      ExtractionReply(collab, state.query).None?)
    {
      ghost var start := uiLog;
      ghost var first := Dispatch(progressCallback, Step1Key, Some(FindingArticles(state.query)), None);
      UpdateProgress(Step1Key, Some(FindingArticles(state.query)), None);
      var hits := collab.search(ArticleQuery(state.query), ArticleResultCount);
      var allContent := CollectArticles(collab, hits);
      var response := collab.extractToolNames(state.query, allContent);
      match response {
        case Some(text) =>
          var toolNames := ParseToolNames(text);
          var shown := toolNames[..Min(ShownToolCount, |toolNames|)];
          ghost var listed := Dispatch(progressCallback, Step1Key, Some(ToolsExtracted(shown)), None);
          ghost var bar := Dispatch(progressCallback, ProgressBarKey, None, Some(ExtractedProgress));
          UpdateProgress(Step1Key, Some(ToolsExtracted(shown)), None);
          UpdateProgress(ProgressBarKey, None, Some(ExtractedProgress));
          AppendAssoc(start + first, listed, bar);
          AppendAssoc(start, first, listed + bar);
          update := ExtractedToolsUpdate(toolNames);
        case None =>
          UpdateProgress(Step1Key, Some(ExtractionFailed), None);
          update := ExtractedToolsUpdate([]);
      }
    }

    /** `_research_step`: selects the tool names, then researches them one by
        one, appending a record for each tool whose site search finds a hit. */
    method ResearchStep(state: ResearchState) returns (update: StateUpdate)
      modifies this`uiLog
      ensures update == CompaniesUpdate(ResearchAll(collab, SelectToolNames(collab, state.query, state.extractedTools)))
      ensures uiLog == old(uiLog) + ResearchStepEvents(progressCallback, state.extractedTools,
                                                       SelectToolNames(collab, state.query, state.extractedTools),
                                                       |update.companies|)
    {
      ghost var cb := progressCallback;
      ghost var fallback := if state.extractedTools == [] then Dispatch(cb, Step2Key, Some(FallingBackToSearch), None) else [];
      ghost var start := uiLog;
      var toolNames: seq<string>;
      if state.extractedTools == [] {
        UpdateProgress(Step2Key, Some(FallingBackToSearch), None);
        var searchResults := collab.search(state.query, FallbackResultCount);
        toolNames := seq(|searchResults|, i requires 0 <= i < |searchResults| => FallbackName(searchResults[i]));
      } else {
        toolNames := state.extractedTools[..Min(ResearchLimit, |state.extractedTools|)];
      }
      assert toolNames == SelectToolNames(collab, state.query, state.extractedTools);
      assert uiLog == start + fallback;
      ghost var opening := Dispatch(cb, Step2Key, Some(ResearchingTools(toolNames)), None);
      UpdateProgress(Step2Key, Some(ResearchingTools(toolNames)), None);
      AppendAssoc(start, fallback, opening);

      var companies := ResearchEach(toolNames);
      ghost var loopEvents := ToolEvents(cb, toolNames, |toolNames|);
      AppendAssoc(start, fallback + opening, loopEvents);

      ghost var done := Dispatch(cb, Step2Key, Some(ResearchComplete(|companies|)), None);
      UpdateProgress(Step2Key, Some(ResearchComplete(|companies|)), None);
      AppendAssoc(start, fallback + opening + loopEvents, done);

      ghost var bar := Dispatch(cb, ProgressBarKey, None, Some(ResearchedProgress));
      UpdateProgress(ProgressBarKey, None, Some(ResearchedProgress));
      AppendAssoc(start, fallback + opening + loopEvents + done, bar);
      update := CompaniesUpdate(companies);
    }

    /** The `for tool_name in tool_names` loop of `_research_step`: the
        records of the tools whose site search finds a hit, in order, with two
        widget calls per tool. */
    method ResearchEach(toolNames: seq<string>) returns (companies: seq<CompanyInfo>)
      modifies this`uiLog
      ensures companies == ResearchAll(collab, toolNames)
      ensures uiLog == old(uiLog) + ToolEvents(progressCallback, toolNames, |toolNames|)
    {
      ghost var cb := progressCallback;
      ghost var beforeLoop := uiLog;
      companies := [];
      var total := |toolNames|;
      for i := 0 to total
        invariant companies == ResearchAll(collab, toolNames[..i])
        invariant uiLog == beforeLoop + ToolEvents(cb, toolNames, i)
      {
        var toolName := toolNames[i];
        UpdateProgress(Step2Key, Some(AnalyzingTool(toolName, i + 1, total)), None);
        var progress := 40 + i * 30 / total;
        assert progress == ProgressAt(i, total);
        UpdateProgress(ProgressBarKey, None, Some(progress));
        ToolEventsNext(cb, toolNames, i, beforeLoop);

        var toolSearchResults := collab.search(toolName + SiteQuerySuffix, 1);
        if toolSearchResults != [] {
          var result := toolSearchResults[0];
          var url := HitUrl(result);
          var company := NewCompanyInfo(toolName, result.markdown.GetOr(""), url);
          var scraped := collab.scrape(url);
          if scraped.Some? {
            var analysis := AnalyzeCompanyContent(collab, company.name, scraped.value);
            company := WithAnalysis(company, analysis);
          }
          assert ResearchTool(collab, toolName) == Some(company);
          companies := companies + [company];
        }
        ResearchAllNext(collab, toolNames, i);
      }
      assert toolNames[..total] == toolNames;
    }

    /** `_analyze_step`: the recommendation reply becomes `analysis` verbatim;
        `None` stands for the call raising, which ends the run. */
    method AnalyzeStep(state: ResearchState) returns (update: Option<StateUpdate>)
      modifies this`uiLog
      ensures var reply := collab.recommend(state.query, state.companies);
              (update.None? <==> reply.None?) &&
              (update.Some? ==> update.value == AnalysisUpdate(reply.value)) &&
              uiLog == old(uiLog) + AnalyzeStepEvents(progressCallback, reply.Some?)
    {
      UpdateProgress(Step3Key, Some(GeneratingRecommendations), None);
      var response := collab.recommend(state.query, state.companies);
      if response.None? {
        return None;
      }
      UpdateProgress(Step3Key, Some(RecommendationsReady), None);
      UpdateProgress(ProgressBarKey, None, Some(AnalyzedProgress));
      update := Some(AnalysisUpdate(response.value));
    }

    /** `run`: installs the callback, then runs extract_tools, research and
        analyze in that order, merging each step's update into the state. */
    method Run(query: string, progressCallback: ProgressCallback) returns (result: Option<ResearchState>)
      modifies this
      ensures this.progressCallback == progressCallback
      ensures result == RunPipeline(collab, query)
      ensures uiLog == old(uiLog) + RunEvents(progressCallback, collab, query)
    {
      this.progressCallback := progressCallback;
      ghost var start := uiLog;
      ghost var tools := ExtractTools(collab, query);
      ghost var names := SelectToolNames(collab, query, tools);
      ghost var companies := ResearchAll(collab, names);
      ghost var e1 := ExtractStepEvents(progressCallback, query, tools, ExtractionReply(collab, query).None?);
      ghost var e2 := ResearchStepEvents(progressCallback, tools, names, |companies|);
      ghost var e3 := AnalyzeStepEvents(progressCallback, collab.recommend(query, companies).Some?);

      var state := InitialState(query);
      var extracted := ExtractToolsStep(state);
      state := Merge(state, extracted);
      assert state == ResearchState(query, tools, [], None);

      var researched := ResearchStep(state);
      state := Merge(state, researched);
      assert state == ResearchState(query, tools, companies, None);
      AppendAssoc(start, e1, e2);

      var analyzed := AnalyzeStep(state);
      AppendAssoc(start, e1 + e2, e3);
      assert uiLog == start + RunEvents(progressCallback, collab, query);
      if analyzed.None? {
        return None;
      }
      state := Merge(state, analyzed.value);
      result := Some(state);
    }
  }
}
