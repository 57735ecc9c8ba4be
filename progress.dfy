/** The progress reporting of the workflow: the optional callback dictionary
    from step keys to UI widgets, and the guard in `_update_progress` that
    decides which widget, if any, is told what. The widgets themselves are
    represented by the events they receive. */
module Progress {
  import opened Wrappers

  /** An opaque handle for one UI placeholder or progress bar. */
  type WidgetId = nat

  /** The keys the workflow looks up in the callback dictionary: "step1",
      "step2", "step3" and "progress_bar". No other key is ever looked up, so
      the dictionary is modelled over these four. */
  datatype StepKey = Step1Key | Step2Key | Step3Key | ProgressBarKey

  /** `Optional[Dict]` from step keys to widgets. */
  type ProgressCallback = Option<map<StepKey, WidgetId>>

  /** What a status message reports (its wording is left out). */
  datatype Notice =
    | FindingArticles(query: string)
    | ToolsExtracted(shown: seq<string>)
    | ExtractionFailed
    | FallingBackToSearch
    | ResearchingTools(names: seq<string>)
    | AnalyzingTool(name: string, position: nat, total: nat)
    | ResearchComplete(found: nat)
    | GeneratingRecommendations
    | RecommendationsReady

  /** A call on a widget: `.info(message)` or `.progress(value)`. */
  datatype UiEvent =
    | ShowInfo(widget: WidgetId, notice: Option<Notice>)
    | SetProgress(widget: WidgetId, value: int)

  /** The widget calls one `_update_progress(step, message, progress)` makes.
      At most one widget is called, and one is called exactly when a callback
      is installed and has the step key; the progress bar takes the value when
      one is given and every other case shows the message. */
  function Dispatch(callback: ProgressCallback, step: StepKey, notice: Option<Notice>,
                    progress: Option<int>): (events: seq<UiEvent>)
    ensures |events| <= 1
    ensures events != [] <==> callback.Some? && step in callback.value
    ensures events != [] && step == ProgressBarKey && progress.Some? ==>
              events == [SetProgress(callback.value[step], progress.value)]
    ensures events != [] && !(step == ProgressBarKey && progress.Some?) ==>
              events == [ShowInfo(callback.value[step], notice)]
  {
    // `if self.progress_callback:` is false for None and for an empty dict
    if callback.Some? && callback.value != map[] then
      if step in callback.value then
        var widget := callback.value[step];
        if step == ProgressBarKey && progress.Some? then [SetProgress(widget, progress.value)]
        else [ShowInfo(widget, notice)]
      else []
    else []
  }

  /** The values sent to progress bars, in order. */
  function ProgressValues(events: seq<UiEvent>): (values: seq<int>)
    ensures |values| <= |events|
  {
    if events == [] then []
    else
      var last := events[|events| - 1];
      ProgressValues(events[..|events| - 1]) +
        (if last.SetProgress? then [last.value] else [])
  }

  lemma {:induction false} ProgressValuesAppend(a: seq<UiEvent>, b: seq<UiEvent>)
    ensures ProgressValues(a + b) == ProgressValues(a) + ProgressValues(b)
    decreases |b|
  {
    if b != [] {
      var b' := b[..|b| - 1];
      assert (a + b)[..|a + b| - 1] == a + b';
      ProgressValuesAppend(a, b');
    } else {
      assert a + b == a;
    }
  }

  /** A progress call contributes its value, or nothing when the bar is absent. */
  lemma DispatchProgressValues(callback: ProgressCallback, value: int)
    ensures ProgressValues(Dispatch(callback, ProgressBarKey, None, Some(value))) ==
              if callback.Some? && ProgressBarKey in callback.value then [value] else []
  {
    var e := Dispatch(callback, ProgressBarKey, None, Some(value));
    if e != [] {
      assert e[..0] == [];
    }
  }

  /** A status message never moves a progress bar. */
  lemma DispatchInfoHasNoProgress(callback: ProgressCallback, step: StepKey, notice: Notice)
    requires step != ProgressBarKey
    ensures ProgressValues(Dispatch(callback, step, Some(notice), None)) == []
  {
    var e := Dispatch(callback, step, Some(notice), None);
    if e != [] {
      assert e[..0] == [];
    }
  }
}
