/** The page's processing state machine as values: its state, the events that change it, and
    the properties of the transitions. Each event is one update the page's effects perform;
    the follow-up effect that issues the three downstream AI calls runs within the same step
    whenever its dependencies changed. */
module Pipeline {
  import opened Common
  import Catalog
  import ResultPane

  datatype Loading = Loading(transcript: bool, downstream: bool)

  /** The three AI calls that consume the transcript. */
  datatype Task = Translation | Transliteration | Summary

  /** An AI call, with the parameters it was issued with. */
  datatype Request =
    | Transcribe(dataUri: string)
    | Translate(text: string, targetLanguage: string)
    | Transliterate(text: string, targetScript: string)
    | Summarize(text: string)

  /** The page state. `notices` and `requests` log the toasts raised and the AI calls issued.
      The last three fields describe the pending asynchronous work: transcription runs not yet
      settled, downstream runs whose combined promise has not settled, and the individual
      downstream calls not yet answered. They are not identities: nothing tells runs apart. */
  datatype PageState = PageState(
    dataSource: Option<Blob>,
    selectedLanguage: string,
    transcript: string,
    translation: string,
    transliteration: string,
    summary: string,
    loading: Loading,
    notices: seq<Notice>,
    requests: seq<Request>,
    inFlight: nat,
    downstreamRuns: nat,
    pendingTasks: multiset<Task>)

  datatype Event =
    | SourceSelected(source: Option<Blob>)
    | LanguageSelected(language: string)
    | TranscriptionSettled(read: Outcome, transcription: Outcome)
    | TaskSettled(task: Task, result: Outcome)
    | DownstreamSettled(failed: bool)

  function Init(): (s: PageState)
    ensures s.selectedLanguage == Catalog.Languages[0].value
  {
    PageState(None, Catalog.DefaultLanguage, "", "", "", "", Loading(false, false), [], [], 0, 0, multiset{})
  }

  /** The uploader, the recorder and the language picker are disabled while this holds. */
  predicate IsProcessing(s: PageState)
  {
    s.loading.transcript || s.loading.downstream
  }

  /** When an event can happen: the user acts only on enabled controls, and an awaited call
      resolves only if it was made. */
  predicate Enabled(s: PageState, e: Event)
  {
    match e
    case SourceSelected(_) => !IsProcessing(s)
    case LanguageSelected(_) => !IsProcessing(s)
    case TranscriptionSettled(_, _) => s.inFlight > 0
    case TaskSettled(t, _) => t in s.pendingTasks
    case DownstreamSettled(_) => s.downstreamRuns > 0
  }

  function Result(s: PageState, t: Task): string
  {
    match t
    case Translation => s.translation
    case Transliteration => s.transliteration
    case Summary => s.summary
  }

  /** The state with the result of task `t` set to `text`. */
  function WithResult(s: PageState, t: Task, text: string): PageState
  {
    match t
    case Translation => s.(translation := text)
    case Transliteration => s.(transliteration := text)
    case Summary => s.(summary := text)
  }

  /** The transcription stage failed: one toast, both flags down. */
  function TranscriptionFailure(s: PageState): PageState
  {
    s.(notices := s.notices + [TranscriptionFailed], loading := Loading(false, false))
  }

  /** The state updates an event makes, before the downstream effect looks at the result. */
  function Apply(s: PageState, e: Event): PageState
    requires Enabled(s, e)
  {
    match e
    case SourceSelected(source) =>
      if source.None? then s.(dataSource := source)
      else s.(dataSource := source, loading := Loading(true, false),
              transcript := "", translation := "", transliteration := "", summary := "",
              inFlight := s.inFlight + 1)
    case LanguageSelected(language) =>
      s.(selectedLanguage := language)
    case TranscriptionSettled(read, transcription) =>
      var s1 := s.(inFlight := s.inFlight - 1);
      if read.Fail? then TranscriptionFailure(s1)
      else
        var s2 := s1.(requests := s1.requests + [Transcribe(read.text)]);
        if transcription.Fail? then TranscriptionFailure(s2)
        else s2.(transcript := transcription.text, loading := Loading(false, true))
    case TaskSettled(task, result) =>
      var s1 := s.(pendingTasks := s.pendingTasks - multiset{task});
      if result.Fail? then s1 else WithResult(s1, task, result.text)
    case DownstreamSettled(failed) =>
      s.(loading := s.loading.(downstream := false),
         notices := if failed then s.notices + [ProcessingError] else s.notices,
         downstreamRuns := s.downstreamRuns - 1)
  }

  /** The values the downstream effect depends on. The effect also lists the selected script,
      but that is a function of the selected language, so it changes only when the language does. */
  function Deps(s: PageState): (string, string, bool)
  {
    (s.transcript, s.selectedLanguage, s.loading.downstream)
  }

  /** The downstream effect's guard: a non-empty transcript while the downstream flag is up. */
  predicate DownstreamReady(s: PageState)
  {
    s.transcript != "" && s.loading.downstream
  }

  /** The three calls the downstream effect issues, parameterised by the current state. */
  function DownstreamRequests(s: PageState): seq<Request>
  {
    [Translate(s.transcript, s.selectedLanguage),
     Transliterate(s.transcript, Catalog.SelectedScript(s.selectedLanguage)),
     Summarize(s.transcript)]
  }

  const AllTasks: multiset<Task> := multiset{Translation, Transliteration, Summary}

  /** The downstream effect: it runs after a render in which its dependencies changed, and issues
      the three calls when its guard holds. */
  function DownstreamEffect(before: PageState, after: PageState): PageState
  {
    if Deps(after) != Deps(before) && DownstreamReady(after) then IssueDownstream(after) else after
  }

  /** The three calls go out together and one combined promise awaits them. */
  function IssueDownstream(s: PageState): PageState
  {
    s.(requests := s.requests + DownstreamRequests(s),
       downstreamRuns := s.downstreamRuns + 1,
       pendingTasks := s.pendingTasks + AllTasks)
  }

  function Step(s: PageState, e: Event): PageState
    requires Enabled(s, e)
  {
    DownstreamEffect(s, Apply(s, e))
  }

  /** A sequence of events each of which is enabled when it happens. */
  predicate Execution(s: PageState, es: seq<Event>)
    decreases |es|
  {
    es == [] || (Enabled(s, es[0]) && Execution(Step(s, es[0]), es[1..]))
  }

  function Run(s: PageState, es: seq<Event>): PageState
    requires Execution(s, es)
    decreases |es|
  {
    if es == [] then s else Run(Step(s, es[0]), es[1..])
  }

  predicate IsDownstreamRequest(r: Request)
  {
    r.Translate? || r.Transliterate? || r.Summarize?
  }

  function RequestText(r: Request): string
    requires IsDownstreamRequest(r)
  {
    match r
    case Translate(text, _) => text
    case Transliterate(text, _) => text
    case Summarize(text) => text
  }

  /** What holds in every reachable state: the transcript is empty while it is being produced;
      the two loading flags are never up together; the transcript flag is up exactly while a
      transcription is in flight; a downstream run is pending exactly while the downstream flag
      is up over a non-empty transcript; and no downstream call was ever made on an empty text. */
  ghost predicate Inv(s: PageState)
  {
    && (s.loading.transcript ==> s.transcript == "")
    && !(s.loading.transcript && s.loading.downstream)
    && (s.loading.transcript <==> s.inFlight == 1)
    && s.inFlight <= 1
    && (s.downstreamRuns == 1 <==> DownstreamReady(s))
    && s.downstreamRuns <= 1
    && NoEmptyDownstreamText(s.requests)
  }

  predicate NoEmptyDownstreamText(requests: seq<Request>)
  {
    forall i :: 0 <= i < |requests| && IsDownstreamRequest(requests[i]) ==> RequestText(requests[i]) != ""
  }

  /** The four result panes: the transcript pane follows the transcript flag, the other three the
      downstream flag. */
  function Panes(s: PageState): (seq<ResultPane.View>)
  {
    [ResultPane.ViewOf(s.transcript, s.loading.transcript),
     ResultPane.ViewOf(s.translation, s.loading.downstream),
     ResultPane.ViewOf(s.transliteration, s.loading.downstream),
     ResultPane.ViewOf(s.summary, s.loading.downstream)]
  }

  /** In every reachable state the page is processing exactly when a transcription or a downstream
      run is pending, or when an empty transcript has left the downstream flag up. */
  lemma ProcessingMeansPendingWork(s: PageState)
    requires Inv(s)
    ensures IsProcessing(s) <==> s.inFlight > 0 || s.downstreamRuns > 0 || (s.loading.downstream && s.transcript == "")
  {
  }

  lemma InitSatisfiesInv()
    ensures Inv(Init())
    ensures !IsProcessing(Init())
    ensures Panes(Init()) == [ResultPane.Placeholder, ResultPane.Placeholder, ResultPane.Placeholder, ResultPane.Placeholder]
  {
  }

  lemma StepPreservesInv(s: PageState, e: Event)
    requires Inv(s) && Enabled(s, e)
    ensures Inv(Step(s, e))
  {
    match e {
      case SourceSelected(source) => SourcePreservesInv(s, source);
      case LanguageSelected(language) => LanguagePreservesInv(s, language);
      case TranscriptionSettled(read, transcription) => TranscriptionPreservesInv(s, read, transcription);
      case TaskSettled(t, result) => TaskPreservesInv(s, t, result);
      case DownstreamSettled(failed) => SettlePreservesInv(s, failed);
    }
  }

  lemma SourcePreservesInv(s: PageState, source: Option<Blob>)
    requires Inv(s) && Enabled(s, SourceSelected(source))
    ensures Inv(Step(s, SourceSelected(source)))
  {
  }

  lemma LanguagePreservesInv(s: PageState, language: string)
    requires Inv(s) && Enabled(s, LanguageSelected(language))
    ensures Inv(Step(s, LanguageSelected(language)))
  {
  }

  lemma TaskPreservesInv(s: PageState, t: Task, result: Outcome)
    requires Inv(s) && Enabled(s, TaskSettled(t, result))
    ensures Inv(Step(s, TaskSettled(t, result)))
  {
    assert Deps(Apply(s, TaskSettled(t, result))) == Deps(s);
  }

  lemma SettlePreservesInv(s: PageState, failed: bool)
    requires Inv(s) && Enabled(s, DownstreamSettled(failed))
    ensures Inv(Step(s, DownstreamSettled(failed)))
  {
  }

  lemma TranscriptionPreservesInv(s: PageState, read: Outcome, transcription: Outcome)
    requires Inv(s) && Enabled(s, TranscriptionSettled(read, transcription))
    ensures Inv(Step(s, TranscriptionSettled(read, transcription)))
  {
    var a := Apply(s, TranscriptionSettled(read, transcription));
    var extra := if read.Ok? then [Transcribe(read.text)] else [];
    assert a.requests == s.requests + extra;
    if read.Ok? && transcription.Ok? {
      assert Deps(a) != Deps(s);
      if DownstreamReady(a) {
        assert Step(s, TranscriptionSettled(read, transcription)).requests == s.requests + extra + DownstreamRequests(a);
      }
    }
  }

  lemma {:induction false} RunPreservesInv(s: PageState, es: seq<Event>)
    requires Inv(s) && Execution(s, es)
    ensures Inv(Run(s, es))
    decreases |es|
  {
    if es != [] {
      StepPreservesInv(s, es[0]);
      RunPreservesInv(Step(s, es[0]), es[1..]);
    }
  }

  /** Starting a source empties the four results and raises the transcript flag; a missing source
      changes nothing but the source itself. */
  lemma SourceSelectedResets(s: PageState, source: Option<Blob>)
    requires Inv(s) && Enabled(s, SourceSelected(source))
    ensures var s' := Step(s, SourceSelected(source));
      && s'.dataSource == source
      && (source.None? ==> s' == s.(dataSource := None))
      && (source.Some? ==>
            && s'.transcript == "" && s'.translation == "" && s'.transliteration == "" && s'.summary == ""
            && s'.loading == Loading(true, false)
            && s'.requests == s.requests && s'.notices == s.notices
            && s'.selectedLanguage == s.selectedLanguage
            && Panes(s') == [ResultPane.Skeleton, ResultPane.Placeholder, ResultPane.Placeholder, ResultPane.Placeholder])
  {
  }

  /** A successful transcription stores the transcript, swaps the flags and, when the transcript
      is non-empty, issues exactly the three downstream calls for the current language and its
      script; the other three results stay as they were. */
  lemma TranscriptionSucceeds(s: PageState, dataUri: string, text: string)
    requires Inv(s) && Enabled(s, TranscriptionSettled(Ok(dataUri), Ok(text)))
    ensures var s' := Step(s, TranscriptionSettled(Ok(dataUri), Ok(text)));
      && s'.transcript == text
      && s'.loading == Loading(false, true)
      && s'.translation == s.translation && s'.transliteration == s.transliteration && s'.summary == s.summary
      && s'.notices == s.notices
      && (text != "" ==>
            s'.requests == s.requests + [Transcribe(dataUri),
                                         Translate(text, s.selectedLanguage),
                                         Transliterate(text, Catalog.SelectedScript(s.selectedLanguage)),
                                         Summarize(text)]
            && s'.pendingTasks == s.pendingTasks + AllTasks)
      && (text == "" ==> s'.requests == s.requests + [Transcribe(dataUri)] && s'.pendingTasks == s.pendingTasks)
  {
    var a := Apply(s, TranscriptionSettled(Ok(dataUri), Ok(text)));
    assert Deps(a) != Deps(s);
  }

  /** A failed file read or a failed transcription raises exactly one "Transcription Failed" toast,
      lowers both flags and issues no downstream call; a failed read issues no call at all. */
  lemma TranscriptionFails(s: PageState, read: Outcome, transcription: Outcome)
    requires Inv(s) && Enabled(s, TranscriptionSettled(read, transcription))
    requires read.Fail? || transcription.Fail?
    ensures var s' := Step(s, TranscriptionSettled(read, transcription));
      && s'.loading == Loading(false, false)
      && s'.notices == s.notices + [TranscriptionFailed]
      && s'.transcript == s.transcript == ""
      && s'.translation == s.translation && s'.transliteration == s.transliteration && s'.summary == s.summary
      && s'.requests == s.requests + (if read.Ok? then [Transcribe(read.text)] else [])
      && s'.downstreamRuns == s.downstreamRuns && s'.pendingTasks == s.pendingTasks
  {
  }

  /** Right after a new source fails to transcribe, all four panes show their placeholder. */
  lemma FailedSourceShowsNothing(s: PageState, b: Blob, read: Outcome, transcription: Outcome)
    requires Inv(s) && !IsProcessing(s)
    requires read.Fail? || transcription.Fail?
    ensures var s1 := Step(s, SourceSelected(Some(b)));
      && Enabled(s1, TranscriptionSettled(read, transcription))
      && var s2 := Step(s1, TranscriptionSettled(read, transcription));
      && s2.transcript == "" && s2.translation == "" && s2.transliteration == "" && s2.summary == ""
      && s2.notices == s.notices + [TranscriptionFailed]
      && !IsProcessing(s2)
      && Panes(s2) == [ResultPane.Placeholder, ResultPane.Placeholder, ResultPane.Placeholder, ResultPane.Placeholder]
  {
    SourceSelectedResets(s, Some(b));
    StepPreservesInv(s, SourceSelected(Some(b)));
    var s1 := Step(s, SourceSelected(Some(b)));
    TranscriptionFails(s1, read, transcription);
  }

  /** The downstream calls are issued by one step only: a successful transcription with a
      non-empty transcript. No other event issues any call but the transcription itself. */
  lemma DownstreamIssuedOnlyAfterTranscript(s: PageState, e: Event)
    requires Inv(s) && Enabled(s, e)
    ensures var s' := Step(s, e);
      (s'.downstreamRuns > s.downstreamRuns) <==>
        (e.TranscriptionSettled? && e.read.Ok? && e.transcription.Ok? && e.transcription.text != "")
    ensures !e.TranscriptionSettled? ==> Step(s, e).requests == s.requests
  {
    var a := Apply(s, e);
    match e {
      case SourceSelected(_) =>
      case LanguageSelected(_) =>
      case TranscriptionSettled(read, transcription) =>
        if read.Ok? && transcription.Ok? { assert Deps(a) != Deps(s); }
      case TaskSettled(_, _) =>
        assert Deps(a) == Deps(s);
      case DownstreamSettled(_) =>
    }
  }

  /** A downstream answer writes its own result only; the transcript, the flags, the other two
      results and the logs are untouched, and a failed answer writes nothing. */
  lemma TaskWritesOnlyItsResult(s: PageState, t: Task, result: Outcome)
    requires Inv(s) && Enabled(s, TaskSettled(t, result))
    ensures var s' := Step(s, TaskSettled(t, result));
      && Result(s', t) == (if result.Ok? then result.text else Result(s, t))
      && (forall u :: u != t ==> Result(s', u) == Result(s, u))
      && s'.transcript == s.transcript && s'.loading == s.loading
      && s'.selectedLanguage == s.selectedLanguage
      && s'.notices == s.notices && s'.requests == s.requests
      && s'.pendingTasks == s.pendingTasks - multiset{t}
  {
    assert Deps(Apply(s, TaskSettled(t, result))) == Deps(s);
  }

  /** When the downstream promise settles, the downstream flag drops, the transcript flag is kept,
      no result is cleared, and exactly one "Processing Error" toast is raised on failure. */
  lemma DownstreamSettles(s: PageState, failed: bool)
    requires Inv(s) && Enabled(s, DownstreamSettled(failed))
    ensures var s' := Step(s, DownstreamSettled(failed));
      && s'.loading == Loading(s.loading.transcript, false)
      && !IsProcessing(s')
      && s'.transcript == s.transcript && s'.translation == s.translation
      && s'.transliteration == s.transliteration && s'.summary == s.summary
      && s'.notices == s.notices + (if failed then [ProcessingError] else [])
      && s'.requests == s.requests
  {
  }

  /** The state a successful transcription leaves behind when the transcript is empty. */
  predicate Stalled(s: PageState)
  {
    s.loading == Loading(false, true) && s.transcript == "" && s.inFlight == 0 && s.downstreamRuns == 0
  }

  /** An empty transcript issues no downstream call, so nothing ever settles the downstream stage:
      the page stays processing, with its controls disabled, whatever happens afterwards. */
  lemma {:induction false} EmptyTranscriptStalls(s: PageState, es: seq<Event>)
    requires Inv(s) && Stalled(s) && Execution(s, es)
    ensures Stalled(Run(s, es)) && IsProcessing(Run(s, es))
    ensures Run(s, es).requests == s.requests && Run(s, es).notices == s.notices
    decreases |es|
  {
    if es != [] {
      var e := es[0];
      assert e.TaskSettled?;
      assert Deps(Apply(s, e)) == Deps(s);
      StepPreservesInv(s, e);
      EmptyTranscriptStalls(Step(s, e), es[1..]);
    }
  }

  /** An empty transcript leads to the stalled state. */
  lemma EmptyTranscriptLeadsToStall(s: PageState, dataUri: string)
    requires Inv(s) && Enabled(s, TranscriptionSettled(Ok(dataUri), Ok("")))
    ensures Stalled(Step(s, TranscriptionSettled(Ok(dataUri), Ok(""))))
    ensures Panes(Step(s, TranscriptionSettled(Ok(dataUri), Ok(""))))[0] == ResultPane.Placeholder
  {
    TranscriptionSucceeds(s, dataUri, "");
  }

  /** Choosing another language once processing is over issues nothing and leaves the results
      for the previous language in place: the downstream guard needs the downstream flag. */
  lemma LanguageChangeIssuesNothing(s: PageState, language: string)
    requires Inv(s) && Enabled(s, LanguageSelected(language))
    ensures var s' := Step(s, LanguageSelected(language));
      && s'.selectedLanguage == language
      && s'.requests == s.requests
      && s'.transcript == s.transcript && s'.translation == s.translation
      && s'.transliteration == s.transliteration && s'.summary == s.summary
  {
  }

  /** One step only appends to the logs. */
  lemma StepExtendsLogs(s: PageState, e: Event)
    requires Enabled(s, e)
    ensures |s.requests| <= |Step(s, e).requests| && Step(s, e).requests[..|s.requests|] == s.requests
    ensures |s.notices| <= |Step(s, e).notices| && Step(s, e).notices[..|s.notices|] == s.notices
  {
    var a := Apply(s, e);
    assert a.requests[..|s.requests|] == s.requests;
    assert a.notices[..|s.notices|] == s.notices;
  }

  /** Every run keeps what the logs already hold: toasts and calls are only ever appended. */
  lemma {:induction false} LogsOnlyGrow(s: PageState, es: seq<Event>)
    requires Execution(s, es)
    ensures |s.requests| <= |Run(s, es).requests| && Run(s, es).requests[..|s.requests|] == s.requests
    ensures |s.notices| <= |Run(s, es).notices| && Run(s, es).notices[..|s.notices|] == s.notices
    decreases |es|
  {
    if es != [] {
      var s1 := Step(s, es[0]);
      StepExtendsLogs(s, es[0]);
      LogsOnlyGrow(s1, es[1..]);
      var r := Run(s1, es[1..]);
      assert r.requests[..|s.requests|] == r.requests[..|s1.requests|][..|s.requests|];
      assert r.notices[..|s.notices|] == r.notices[..|s1.notices|][..|s.notices|];
    }
  }

  /** A downstream answer never triggers the downstream effect. */
  lemma TaskStepIsApply(s: PageState, t: Task, result: Outcome)
    requires Enabled(s, TaskSettled(t, result))
    ensures Step(s, TaskSettled(t, result)) == Apply(s, TaskSettled(t, result))
  {
    assert Deps(Apply(s, TaskSettled(t, result))) == Deps(s);
  }

  /** The settling of the combined promise never triggers the downstream effect. */
  lemma SettleStepIsApply(s: PageState, failed: bool)
    requires Enabled(s, DownstreamSettled(failed))
    ensures Step(s, DownstreamSettled(failed)) == Apply(s, DownstreamSettled(failed))
  {
  }

  /** Selecting a source never triggers the downstream effect: the downstream flag is down. */
  lemma SourceStepIsApply(s: PageState, source: Option<Blob>)
    requires Enabled(s, SourceSelected(source))
    ensures Step(s, SourceSelected(source)) == Apply(s, SourceSelected(source))
  {
  }

  /** A failed read or transcription call never triggers the downstream effect. */
  lemma TranscriptionStepIsFailure(s: PageState, read: Outcome, transcription: Outcome)
    requires Inv(s) && Enabled(s, TranscriptionSettled(read, transcription))
    requires read.Fail? || transcription.Fail?
    ensures var s1 := s.(inFlight := s.inFlight - 1);
      Step(s, TranscriptionSettled(read, transcription)) ==
        TranscriptionFailure(if read.Fail? then s1 else s1.(requests := s1.requests + [Transcribe(read.text)]))
  {
  }

  /** A stored transcript triggers the downstream effect exactly when it is non-empty. */
  lemma TranscriptionStepIsStore(s: PageState, dataUri: string, text: string)
    requires Inv(s) && Enabled(s, TranscriptionSettled(Ok(dataUri), Ok(text)))
    ensures var stored := s.(inFlight := s.inFlight - 1, requests := s.requests + [Transcribe(dataUri)],
                             transcript := text, loading := Loading(false, true));
      Step(s, TranscriptionSettled(Ok(dataUri), Ok(text))) ==
        if DownstreamReady(stored) then IssueDownstream(stored) else stored
  {
  }

  /** The effect of a successful transcription, field by field. */
  lemma TranscriptionStepIs(s: PageState, dataUri: string, text: string)
    requires Enabled(s, TranscriptionSettled(Ok(dataUri), Ok(text))) && !s.loading.downstream
    ensures var s' := Step(s, TranscriptionSettled(Ok(dataUri), Ok(text)));
      s' == s.(transcript := text, loading := Loading(false, true), inFlight := s.inFlight - 1,
               requests := s'.requests,
               downstreamRuns := if text != "" then s.downstreamRuns + 1 else s.downstreamRuns,
               pendingTasks := if text != "" then s.pendingTasks + AllTasks else s.pendingTasks)
  {
    assert Deps(Apply(s, TranscriptionSettled(Ok(dataUri), Ok(text)))) != Deps(s);
  }

  /** A successful downstream answer, as one state. */
  lemma TaskSucceedsIs(s: PageState, t: Task, text: string)
    requires t in s.pendingTasks
    ensures Step(s, TaskSettled(t, Ok(text))) == WithResult(s, t, text).(pendingTasks := s.pendingTasks - multiset{t})
  {
    TaskStepIsApply(s, t, Ok(text));
  }

  /** A successful answer to one of the pending calls. */
  lemma AnswerStep(s: PageState, t: Task, text: string, rest: multiset<Task>)
    requires s.pendingTasks == multiset{t} + rest
    ensures Enabled(s, TaskSettled(t, Ok(text)))
    ensures Step(s, TaskSettled(t, Ok(text))) == WithResult(s, t, text).(pendingTasks := rest)
  {
    assert s.pendingTasks - multiset{t} == rest;
    TaskSucceedsIs(s, t, text);
  }

  /** The state after the first `answered` downstream answers of the order translation,
      summary, transliteration have been written (results not yet given are left as they are). */
  function Answered(s: PageState, translated: string, transliterated: string, summary: string, answered: nat): PageState
    requires answered <= 3
  {
    match answered
    case 0 => s
    case 1 => s.(translation := translated, pendingTasks := multiset{Transliteration, Summary})
    case 2 => s.(translation := translated, summary := summary, pendingTasks := multiset{Transliteration})
    case _ => s.(translation := translated, summary := summary, transliteration := transliterated, pendingTasks := multiset{})
  }

  /** The three downstream answers succeed, here in the order translation, summary,
      transliteration, and the combined promise then settles without failure: each answer is
      written, both flags end down and nothing else changes. */
  lemma DownstreamCompletes(s: PageState, translated: string, transliterated: string, summary: string)
    requires s.downstreamRuns == 1 && s.pendingTasks == AllTasks
    ensures Enabled(s, TaskSettled(Translation, Ok(translated)))
    ensures Step(s, TaskSettled(Translation, Ok(translated))) == Answered(s, translated, "", "", 1)
    ensures Enabled(Answered(s, translated, "", "", 1), TaskSettled(Summary, Ok(summary)))
    ensures Step(Answered(s, translated, "", "", 1), TaskSettled(Summary, Ok(summary)))
              == Answered(s, translated, "", summary, 2)
    ensures Enabled(Answered(s, translated, "", summary, 2), TaskSettled(Transliteration, Ok(transliterated)))
    ensures Step(Answered(s, translated, "", summary, 2), TaskSettled(Transliteration, Ok(transliterated)))
              == Answered(s, translated, transliterated, summary, 3)
    ensures Enabled(Answered(s, translated, transliterated, summary, 3), DownstreamSettled(false))
    ensures Step(Answered(s, translated, transliterated, summary, 3), DownstreamSettled(false))
              == s.(translation := translated, transliteration := transliterated, summary := summary,
                    loading := s.loading.(downstream := false), downstreamRuns := 0, pendingTasks := multiset{})
  {
    var s4 := Answered(s, translated, "", "", 1);
    var s5 := Answered(s, translated, "", summary, 2);
    var s6 := Answered(s, translated, transliterated, summary, 3);
    assert AllTasks == multiset{Translation} + multiset{Transliteration, Summary};
    AnswerStep(s, Translation, translated, multiset{Transliteration, Summary});
    assert multiset{Transliteration, Summary} == multiset{Summary} + multiset{Transliteration};
    AnswerStep(s4, Summary, summary, multiset{Transliteration});
    assert multiset{Transliteration} == multiset{Transliteration} + multiset{};
    AnswerStep(s5, Transliteration, transliterated, multiset{});
    SettleStepIsApply(s6, false);
  }

  /** The state after selecting Hindi and a source whose transcript is non-empty: the transcript
      is stored and the three calls went out for Hindi and the Devanagari script. */
  function HindiTranscribedState(b: Blob, dataUri: string, text: string): PageState
  {
    PageState(Some(b), "Hindi", text, "", "", "", Loading(false, true), [],
              [Transcribe(dataUri), Translate(text, "Hindi"), Transliterate(text, "Devanagari"), Summarize(text)],
              0, 1, AllTasks)
  }

  lemma HindiTranscribed(b: Blob, dataUri: string, text: string)
    requires text != ""
    ensures Enabled(Init(), LanguageSelected("Hindi"))
    ensures var s1 := Step(Init(), LanguageSelected("Hindi"));
      && Enabled(s1, SourceSelected(Some(b)))
      && var s2 := Step(s1, SourceSelected(Some(b)));
      && Enabled(s2, TranscriptionSettled(Ok(dataUri), Ok(text)))
      && Step(s2, TranscriptionSettled(Ok(dataUri), Ok(text))) == HindiTranscribedState(b, dataUri, text)
  {
    assert Catalog.Languages[1].value == "Hindi";
    var s1 := Step(Init(), LanguageSelected("Hindi"));
    assert s1 == PageState(None, "Hindi", "", "", "", "", Loading(false, false), [], [], 0, 0, multiset{});
    var s2 := Step(s1, SourceSelected(Some(b)));
    assert s2 == PageState(Some(b), "Hindi", "", "", "", "", Loading(true, false), [], [], 1, 0, multiset{});
    TranscriptionSucceeds(s2, dataUri, text);
  }

  /** A complete run for Hindi: the transcription of HindiTranscribed followed by the answers
      and the settling of DownstreamCompletes end with the transcript, the three results for
      Hindi and the Devanagari script shown in the four panes, exactly four calls, both flags
      down and no toast. */
  lemma SuccessfulRun(b: Blob, dataUri: string, text: string, translated: string, transliterated: string, summary: string)
    requires text != "" && translated != "" && transliterated != "" && summary != ""
    ensures var s3 := HindiTranscribedState(b, dataUri, text);
      && s3.downstreamRuns == 1 && s3.pendingTasks == AllTasks
      && var r := Step(Answered(s3, translated, transliterated, summary, 3), DownstreamSettled(false));
      && !IsProcessing(r)
      && r.transcript == text && r.translation == translated
      && r.transliteration == transliterated && r.summary == summary
      && r.notices == []
      && r.requests == [Transcribe(dataUri), Translate(text, "Hindi"), Transliterate(text, "Devanagari"), Summarize(text)]
      && Panes(r) == [ResultPane.Text(text), ResultPane.Text(translated), ResultPane.Text(transliterated), ResultPane.Text(summary)]
  {
    var s3 := HindiTranscribedState(b, dataUri, text);
    DownstreamCompletes(s3, translated, transliterated, summary);
    var r := PageState(Some(b), "Hindi", text, translated, transliterated, summary, Loading(false, false), [],
                       s3.requests, 0, 0, multiset{});
    assert Step(Answered(s3, translated, transliterated, summary, 3), DownstreamSettled(false)) == r;
  }

  /** The state after a transcript for source `a` was stored, the transliteration call failed and
      the combined promise settled with that failure: the translation and summary calls are still
      pending, but no run is, and the page is idle again. */
  function EarlyFailureState(a: Blob, dataUri: string, text: string): PageState
  {
    PageState(Some(a), Catalog.DefaultLanguage, text, "", "", "", Loading(false, false), [ProcessingError],
              [Transcribe(dataUri), Translate(text, Catalog.DefaultLanguage),
               Transliterate(text, Catalog.SelectedScript(Catalog.DefaultLanguage)), Summarize(text)],
              0, 0, multiset{Translation, Summary})
  }

  /** The state after a first source `a` was transcribed to `text` for the default language: the
      three downstream calls are pending. */
  function TranscribedState(a: Blob, dataUri: string, text: string): PageState
  {
    EarlyFailureState(a, dataUri, text).(loading := Loading(false, true), notices := [],
                                         downstreamRuns := 1, pendingTasks := AllTasks)
  }

  lemma SourceTranscribed(a: Blob, dataUri: string, text: string)
    requires text != ""
    ensures var s1 := Init().(dataSource := Some(a), loading := Loading(true, false), inFlight := 1);
      && Enabled(Init(), SourceSelected(Some(a))) && Step(Init(), SourceSelected(Some(a))) == s1
      && Enabled(s1, TranscriptionSettled(Ok(dataUri), Ok(text)))
      && Step(s1, TranscriptionSettled(Ok(dataUri), Ok(text))) == TranscribedState(a, dataUri, text)
  {
    var s1 := Init().(dataSource := Some(a), loading := Loading(true, false), inFlight := 1);
    SourceStepIsApply(Init(), Some(a));
    TranscriptionSucceeds(s1, dataUri, text);
    TranscriptionStepIs(s1, dataUri, text);
  }

  /** `Promise.all` rejects as soon as one call fails: after `SourceTranscribed`, one failed answer
      settles the combined promise while the other two calls are still pending. */
  lemma FailureSettlesEarly(a: Blob, dataUri: string, text: string)
    ensures var s2 := TranscribedState(a, dataUri, text);
      var s3 := s2.(pendingTasks := multiset{Translation, Summary});
      && Enabled(s2, TaskSettled(Transliteration, Fail)) && Step(s2, TaskSettled(Transliteration, Fail)) == s3
      && Enabled(s3, DownstreamSettled(true)) && Step(s3, DownstreamSettled(true)) == EarlyFailureState(a, dataUri, text)
  {
    var s2 := TranscribedState(a, dataUri, text);
    assert AllTasks - multiset{Transliteration} == multiset{Translation, Summary};
    TaskStepIsApply(s2, Transliteration, Fail);
    SettleStepIsApply(s2.(pendingTasks := multiset{Translation, Summary}), true);
  }

  /** Nothing discards answers from an earlier source. After the early failure of
      `FailureSettlesEarly` the controls are enabled again while two calls are still pending; a new
      source can then be selected, and a late translation of the previous transcript is written and
      shown beside the new source's transcription in progress. */
  lemma LateAnswerIsWritten(a: Blob, b: Blob, dataUri: string, text: string, late: string)
    requires late != ""
    ensures var s4 := EarlyFailureState(a, dataUri, text);
      && !IsProcessing(s4)
      && Enabled(s4, SourceSelected(Some(b)))
      && var s5 := Step(s4, SourceSelected(Some(b)));
      && Enabled(s5, TaskSettled(Translation, Ok(late)))
      && var r := Step(s5, TaskSettled(Translation, Ok(late)));
      && r.dataSource == Some(b)
      && r.transcript == "" && r.translation == late
      && r.loading == Loading(true, false)
      && r.notices == [ProcessingError]
      && Panes(r) == [ResultPane.Skeleton, ResultPane.Text(late), ResultPane.Placeholder, ResultPane.Placeholder]
  {
    var s4 := EarlyFailureState(a, dataUri, text);
    var s5 := s4.(dataSource := Some(b), transcript := "", loading := Loading(true, false), inFlight := 1);
    assert Enabled(s4, SourceSelected(Some(b))) && Step(s4, SourceSelected(Some(b))) == s5 by {
      SourceStepIsApply(s4, Some(b));
    }
    var s6 := s5.(translation := late, pendingTasks := multiset{Summary});
    assert Enabled(s5, TaskSettled(Translation, Ok(late))) && Step(s5, TaskSettled(Translation, Ok(late))) == s6 by {
      assert multiset{Translation, Summary} - multiset{Translation} == multiset{Summary};
      TaskStepIsApply(s5, Translation, Ok(late));
    }
  }
}
