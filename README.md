# Developer-tools research workflow, modelled in Dafny

This project models the orchestrator of a research assistant for developer
tools. The class is `Workflow` in `src/workflow.py`. Given a query, it runs
three steps in a fixed order:

1. **extract_tools** searches for comparison articles, concatenates a bounded
   excerpt of each scraped page, asks a language model for tool names and
   parses its reply line by line.
2. **research** chooses up to four names, or falls back to the titles of a
   direct search when none were extracted. For each name it looks up the
   official site, scrapes it and copies a structured analysis of the page
   into a `CompanyInfo` record.
3. **analyze** asks the language model for a recommendation and stores the
   reply.

Each step returns a partial update that is merged into the `ResearchState`.
Along the way `_update_progress` tells optional UI widgets what is happening.

The external services become the fields of a `Collaborators` value:

- web search;
- page scraping;
- the three language-model calls.

A call that raises, or a falsy scrape response, is `None`. Everything else
is modelled as the code does it:

- Python's `str.strip()`, `str.split("\n")` and `s[:1500]`;
- the constants 3, 4, 5, 1500, 40, 70 and 90, and `"Unknown"`;
- the progress formula `40 + i * 30 // total`;
- the truthiness guard of `_update_progress`.

Modules, one file each:

- `wrappers.dfy`: `Option`.
- `sequences.dfy`: minimum, order-preserving subsequence, non-decreasing lists.
- `text.dfy`: strip, split and join on line breaks, truncation.
- `models.dfy`: the records, the collaborators, the state and the merge of a step's update.
- `progress.dfy`: the callback dictionary, the widget calls, and the guard of `_update_progress`.
- `extraction.dfy`: article aggregation and tool-name parsing.
- `research.dfy`: name selection, the progress formula, the default analysis, and researching one tool and a list of tools.
- `workflow.dfy`: the class `Workflow` with its step methods, the pipeline as a function, and the lemmas about what a run reports to the UI.

The class `Workflow` keeps the collaborators and the installed
`progressCallback`. The widgets' `.info` and `.progress` calls are appended to
a field `uiLog`, so each method's contract states exactly which widget calls
it makes. Each step method is proved against a specification function:

- `ExtractToolsStep` against `ExtractTools`;
- `ResearchStep` against `SelectToolNames` and `ResearchAll`;
- `AnalyzeStep` against the reply.

`Run` is proved against `RunPipeline`, the three steps composed in graph
order. The `for` loop of `_research_step` is its own method, `ResearchEach`.
It keeps the invariant that `companies` is `ResearchAll` of the names seen so
far, and that the log holds the loop's widget calls so far.

### Behaviour worth noting

- Parsing keeps every non-blank line, duplicates included, and has no cap.
  The reply `"Supabase\nAppwrite\n\nAppwrite\n"` parses to
  `["Supabase", "Appwrite", "Appwrite"]` (`ParseKeepsDuplicates`). The `[:5]`
  at line 63 only shortens the status message.
- A tool whose site search finds nothing is skipped and gets no record. So
  the number of records can be smaller than the number of names.
- A tool whose page cannot be scraped keeps the record built from the search
  hit: the hit's URL as website and its markdown as description.
- An empty extraction leads to a direct search for the query, whose titles
  become the names. The recommendation call is always made, even with no
  records.
- Only the article excerpts are cut to 1500 characters. Scraped company pages
  go to the analysis call whole.
- A search hit without a URL gives the empty string `""` as URL.
- A raising recommendation call ends the run, which the model writes as
  `None`. No status field records it.

## Model

| member | source | states |
|---|---|---|
| Text.Strip | src/workflow.py:59-60 | `str.strip()`: the result is no longer than the input, and is empty or neither starts nor ends with whitespace |
| Text.IsSpace | src/workflow.py:59-61 | the characters Python's `str.isspace()` accepts, which `strip()` removes |
| Text.TrimStart | src/workflow.py:59-60 | `lstrip()`: a suffix of the input, everything cut off is whitespace, and it does not start with whitespace |
| Text.TrimEnd | src/workflow.py:59-60 | `rstrip()`: a prefix of the input, everything cut off is whitespace, and it does not end with whitespace |
| Text.StripEmptyIffBlank | src/workflow.py:61 | a line is dropped (`if name.strip()` is false) exactly when it is all whitespace |
| Text.StripIdempotent | src/workflow.py:59-60 | stripping twice is stripping once |
| Text.StripIsInfix | src/workflow.py:59-60 | the stripped text is the slice of the input at some offset `k`, and everything before `k` and after the slice is whitespace |
| Text.StripSpaceCons | src/workflow.py:59-60 | a whitespace character in front of a text does not change its strip |
| Text.TrimStartSpaceSnoc | src/workflow.py:59-60 | `lstrip()` of a text with one more whitespace character at its end: empty for a blank text, otherwise the old result with that character |
| Text.StripSpaceSnoc | src/workflow.py:59-60 | a whitespace character at the end of a text does not change its strip |
| Text.SplitLines | src/workflow.py:60 | `split("\n")` gives at least one piece and no piece contains a line break |
| Text.WithChar | src/workflow.py:60 | reading one more character: a line break adds an empty piece, any other character changes only the last piece |
| Text.SplitLinesSnoc | src/workflow.py:60 | splitting a text with one more character at its end is splitting the text and then reading that character |
| Text.JoinSplitLines | src/workflow.py:60 | joining the pieces of a split with `"\n"` gives back the text |
| Text.SplitJoinLines | src/workflow.py:60 | splitting a join of break-free lines gives back the lines |
| Text.Truncate | src/workflow.py:49 | `s[:n]` has length `min(len(s), n)` and is a prefix of `s` |
| Extraction.ArticleQuery | src/workflow.py:41 | the article query extends the user's query, which it starts with |
| Extraction.ArticleExcerpt | src/workflow.py:46-49 | a failed scrape adds nothing; a scraped page adds its first `min(len, 1500)` characters followed by `"\n\n"`; at most 1502 characters |
| Extraction.ArticleText | src/workflow.py:44-49 | the article text: the excerpts of the hits, in search order |
| Extraction.ArticleTextEmptyWhenNothingScrapes | src/workflow.py:44-49 | when no page can be scraped, the extraction call gets an empty article text |
| Extraction.CollectArticles | src/workflow.py:44-49 | the accumulation loop builds exactly the article text of the hits |
| Extraction.ArticleTextAppend | src/workflow.py:44-49 | the text of a concatenation of hits is the concatenation of their texts, in search-result order |
| Extraction.ArticleTextSkipsFailedScrape | src/workflow.py:47-49 | removing a hit whose page cannot be scraped leaves the text unchanged |
| Extraction.ArticleTextBound | src/workflow.py:44-49 | the article text has at most 1502 characters per hit |
| Extraction.StrippedNonBlank | src/workflow.py:58-62 | the comprehension keeps at most one name per line, and every name is non-empty with no leading or trailing whitespace |
| Extraction.ParseToolNames | src/workflow.py:58-62 | the reply, stripped and split on line breaks, keeps each non-blank line stripped: every name is non-empty with no whitespace at either end |
| Extraction.ParseIgnoresOuterWhitespace | src/workflow.py:58-62 | the outer `content.strip()` changes no name: parsing equals splitting the raw reply and filtering its stripped lines |
| Extraction.TrimStartKeepsNames | src/workflow.py:58-62 | removing leading whitespace of the reply changes no name |
| Extraction.TrimEndKeepsNames | src/workflow.py:58-62 | removing trailing whitespace of the reply changes no name |
| Extraction.LeadingSpaceKeepsNames | src/workflow.py:58-62 | one whitespace character in front of the reply changes no name |
| Extraction.TrailingSpaceKeepsNames | src/workflow.py:58-62 | one whitespace character at the end of the reply changes no name |
| Extraction.StrippedNonBlankAppend | src/workflow.py:58-62 | the names of two runs of lines are those of the first run followed by those of the second |
| Extraction.SameStripSameNames | src/workflow.py:58-62 | a last line can be replaced by another with the same strip without changing the names |
| Extraction.ParsedNamesAreTrimmed | src/workflow.py:58-62 | every parsed name is non-empty and equal to its own strip |
| Extraction.StrippedNonBlankInOrder | src/workflow.py:58-62 | the names are an order-preserving subsequence of the stripped lines |
| Extraction.ParsedNamesInOrder | src/workflow.py:58-62 | the parsed names follow the order of the reply's lines |
| Extraction.StrippedNonBlankCounts | src/workflow.py:58-62 | each non-blank name occurs as many times as there are lines that strip to it |
| Extraction.ParsedNamesKeepDuplicates | src/workflow.py:58-62 | duplicates are kept: the multiplicity of a name equals the number of reply lines that strip to it |
| Extraction.StrippedNonBlankLength | src/workflow.py:58-62 | one name per non-blank line |
| Extraction.ParsedNamesNotCapped | src/workflow.py:58-63 | the list is not capped: its length is the number of non-blank reply lines |
| Extraction.ParseOfLines | src/workflow.py:58-62 | any list of break-free lines, each followed by a newline, parses to those lines stripped with the blank ones dropped |
| Extraction.AppendName | src/workflow.py:58-62 | a further trimmed line adds itself to the end of the names |
| Extraction.AppendBlank | src/workflow.py:58-62 | a further blank line adds nothing |
| Extraction.DropsBlankKeepsDuplicate | src/workflow.py:58-62 | the lines `a, b, blank, b` give the names `a, b, b` |
| Extraction.ParseFourLines | src/workflow.py:58-62 | any four break-free lines, each followed by a newline, parse like the list of those four lines |
| Extraction.ParseKeepsDuplicates | src/workflow.py:58-62 | the reply `a\nb\n<blank>\nb\n` parses to `[a, b, b]`: the blank line is dropped and the duplicate kept |
| Extraction.ExtractionReply | src/workflow.py:41-57 | the extraction call receives the query and the article text of the three article-search hits |
| Extraction.ExtractTools | src/workflow.py:56-72 | `extracted_tools` is `[]` when the extraction call raises and the parsed reply otherwise |
| Models.NewCompanyInfo | src/workflow.py:130-136 | a new record has the tool's name, the hit's markdown and URL, empty lists, and every other field unset |
| Models.WithAnalysis | src/workflow.py:143-149 | the seven analysis fields are copied; name, website and competitors are unchanged |
| Models.HitUrl | src/workflow.py:128 | `result.get("url", "")`: the hit's URL, or `""` when it has none |
| Models.InitialState | src/workflow.py:178 | `ResearchState(query=query)` holds the query and nothing else |
| Models.Merge | src/workflow.py:17-26 | merging a step's update overwrites exactly the field it returns |
| Progress.Dispatch | src/workflow.py:28-35 | at most one widget is called; one is called exactly when a callback is installed and has the step key; the bar gets the value when one is given, and every other case shows the message |
| Progress.ProgressValuesAppend | src/workflow.py:28-35 | the bar values of two call sequences are those of the first, then those of the second |
| Progress.DispatchProgressValues | src/workflow.py:32-33 | a progress call moves the bar to its value, or does nothing when no bar is installed |
| Progress.DispatchInfoHasNoProgress | src/workflow.py:34-35 | a status message never moves the bar |
| Research.SelectToolNames | src/workflow.py:98-109 | the first `min(4, n)` extracted names in order, or, when none were extracted, one name per direct-search hit: its title, or "Unknown" |
| Research.FallbackName | src/workflow.py:105 | a direct-search hit's title, or "Unknown" when it has none |
| Research.SelectedAtMostFour | src/workflow.py:100-109 | at most four names, when the search returns no more hits than asked for |
| Research.ProgressAt | src/workflow.py:121 | `40 + i * 30 // total` lies in [40, 70) for `i < total` |
| Research.ProgressMonotone | src/workflow.py:121 | the per-tool value never decreases as `i` grows |
| Research.AnalyzeCompanyContent | src/workflow.py:82-95 | the analysis, or, when the call raised, the default "Unknown", None, [], "Failed", None, [], [] |
| Research.SiteHits | src/workflow.py:124 | the site search asks for one hit for the tool name followed by " official site" |
| Research.ResearchTool | src/workflow.py:124-149 | no record without a site hit; otherwise a record named after the tool with the first hit's URL, and with either the hit's markdown and empty fields (failed scrape) or the page's analysis |
| Research.ResearchAll | src/workflow.py:115-151 | no more records than tool names |
| Research.ResearchAllNext | src/workflow.py:118-151 | one more tool appends its record, or nothing when it has none |
| Research.ResearchedNamesInOrder | src/workflow.py:118-151 | the records' names are an order-preserving subsequence of the tool names |
| Research.ResearchedRecordsMatchTheirTool | src/workflow.py:118-151 | every record is exactly what researching its own name yields |
| Research.ResearchedNamesAreThoseWithHits | src/workflow.py:118-151 | a name has a record exactly when it is a tool name whose site search found a hit |
| Research.ResearchedAtMostFour | src/workflow.py:98-151 | the research step yields at most four records when the search honours its result count |
| Workflow.ExtractToolsStage | src/workflow.py:37-72 | the first step sets `extracted_tools` to the extraction result and leaves every other field as it was |
| Workflow.ResearchStage | src/workflow.py:97-155 | the second step sets `companies` to the records of the selected names and leaves every other field as it was |
| Workflow.AnalyzeStage | src/workflow.py:157-173 | the last step fails exactly when the recommendation call raises, and otherwise sets only `analysis`, to the reply |
| Workflow.RunPipeline | src/workflow.py:17-26 | the run fails exactly when the recommendation call raises; otherwise the state holds the query, the extracted tools, the records of the selected names and the reply verbatim |
| Workflow.RunResearchesAtMostFour | src/workflow.py:17-26 | a completed run holds at most four records when the search honours its result count |
| Workflow.ExtractStepEvents | src/workflow.py:37-72 | the first step makes at most three widget calls: the search notice, then the failure notice or the found-tools notice and the bar |
| Workflow.ToolEvents | src/workflow.py:118-122 | the widget calls of the first `k` iterations of the research loop: its status message, then its bar value |
| Workflow.ToolEventsCount | src/workflow.py:118-122 | each loop iteration makes at most two widget calls |
| Workflow.ResearchStepEvents | src/workflow.py:97-155 | the second step makes at most two widget calls per name and four more |
| Workflow.AnalyzeStepEvents | src/workflow.py:157-173 | the last step makes at most three widget calls |
| Workflow.RunEvents | src/workflow.py:175-180 | every widget call of a run: those of the three steps, in graph order |
| Workflow.ToolEventsSilent | src/workflow.py:118-122 | without a callback the loop calls no widget |
| Workflow.RunSilentWithoutCallback | src/workflow.py:28-35 | without a callback a whole run calls no widget |
| Workflow.ToolEventsNext | src/workflow.py:118-122 | one more iteration appends its status message and its bar value |
| Workflow.LoopProgress | src/workflow.py:121 | the bar values of the first `k` iterations: `40 + i * 30 // total` for each index `i` in turn |
| Workflow.ToolEventsProgress | src/workflow.py:118-122 | the loop sends `40 + i * 30 // total` for each tool in turn when a bar is installed, and nothing otherwise |
| Workflow.NoticeThenBar | src/workflow.py:118-122 | one iteration's status message and bar value add that value to the bar's values, or nothing without a bar |
| Workflow.LoopProgressRises | src/workflow.py:121 | the loop's bar values are non-decreasing and lie in [40, 70) |
| Workflow.TwoNoticesThenBar | src/workflow.py:28-35 | two status messages followed by a bar value report that value alone |
| Workflow.ExtractStepProgress | src/workflow.py:64-72 | the first step sends the bar only the value 40 |
| Workflow.ResearchStepProgressValues | src/workflow.py:100-154 | the research step sends the loop's values, then 70 |
| Workflow.ResearchStepProgress | src/workflow.py:100-154 | the research step's bar values are non-decreasing and lie in [40, 70] |
| Workflow.LoopThenResearched | src/workflow.py:115-154 | the loop's values followed by 70 are non-decreasing and lie in [40, 70] |
| Workflow.AnalyzeStepProgress | src/workflow.py:171-172 | the last step sends the bar only the value 90 |
| Workflow.StepsInSequence | src/workflow.py:17-26 | steps whose values rise within 40, 40–70 and 90 rise together |
| Workflow.RunProgressNonDecreasing | src/workflow.py:37-173 | over a whole run the bar never moves backwards, and every value lies in [40, 90] |
| Workflow.Workflow.constructor | src/workflow.py:10-15 | a new workflow has no callback installed and has called no widget |
| Workflow.Workflow.UpdateProgress | src/workflow.py:28-35 | `_update_progress` appends exactly the widget calls of the guard |
| Workflow.Workflow.ExtractToolsStep | src/workflow.py:37-72 | the update is the parsed reply, or exactly `extracted_tools = []` when the call raised; the widget calls are the step's messages, with the bar at 40 on success |
| Workflow.Workflow.ResearchStep | src/workflow.py:97-155 | the update is the records of the selected names, and the widget calls are the fallback notice, the research notice, the loop's calls, the completion notice and 70 |
| Workflow.Workflow.ResearchEach | src/workflow.py:115-151 | the loop builds exactly the records of the names, and its widget calls are those of `ToolEvents`: for each name a status message and a bar value, each made only when the callback has that key, and none without a callback |
| Workflow.Workflow.AnalyzeStep | src/workflow.py:157-173 | `analysis` is the reply verbatim, the step fails exactly when the call raises, and the bar reaches 90 on success |
| Workflow.Workflow.Run | src/workflow.py:175-180 | installs the callback; the result is the pipeline's state and the widget calls are the three steps' calls in order |

## Left out

- The Gemini model, the Firecrawl client and the prompt texts are external services. Each is a function of `Collaborators`. An exception from the model is `None`. Search and scrape are assumed not to raise, so their exceptions are not modelled.
- LangGraph's `StateGraph` compile and invoke machinery is left out. Only the resulting composition is modelled (`RunPipeline`, `Run`), together with the merge of each step's dictionary into the state.
- `src/models.py` is not part of this model. The records carry the fields the workflow reads and writes. A field it does not set keeps an unset value: `None` for optional values, the empty list for lists.
- `print` calls and the emoji wording of the status messages are not modelled. A message is a `Notice` value that carries its data: the query, the shown names, the position, the count.
- The `.info` and `.progress` effects on Streamlit widgets are not modelled. They are recorded as a log of calls on the workflow object.
- The callback dictionary is keyed by the four step keys the workflow looks up. Other keys are never looked up, so they change nothing. A non-empty dictionary without the step key also calls no widget.
- The text of the exception in the "Error extracting tools" message (`str(e)`) is left out. The failure is one notice.
- The JSON serialisation of the records for the recommendation prompt (`company.json()`) is left out. The recommendation collaborator receives the records themselves.
- A search hit whose metadata holds a title of `None`, and a page whose markdown is `None`, are not modelled. A title is present or missing, and a scraped page is a string.
- Workflow.Workflow.ResearchStep: each `company` is a value updated field by field (`WithAnalysis`), not an object mutated in place. No record is aliased elsewhere, so the resulting list is the same.
- The collaborators are functions, so the same call made twice within a run gives the same answer. The real services may answer differently each time. `ResearchedRecordsMatchTheirTool` and `ResearchedNamesAreThoseWithHits` rely on this when a tool name occurs twice.
- `app.py` is left out: it is presentation only.
