/** The page component: its state fields and the updates its two effects make, one method per
    event. Each method is proved to make exactly the transition `Pipeline.Step` describes, and to
    keep `Pipeline.Inv`. */
module Page {
  import opened Common
  import Catalog
  import opened Pipeline

  class VoiceScribeAI {
    var dataSource: Option<Blob>
    var selectedLanguage: string
    var transcript: string
    var translation: string
    var transliteration: string
    var summary: string
    var loading: Loading
    var notices: seq<Notice>
    var requests: seq<Request>
    // the pending asynchronous work (see Pipeline.PageState)
    ghost var inFlight: nat
    ghost var downstreamRuns: nat
    ghost var pendingTasks: multiset<Task>

    ghost function State(): PageState
      reads this
    {
      PageState(dataSource, selectedLanguage, transcript, translation, transliteration, summary,
                loading, notices, requests, inFlight, downstreamRuns, pendingTasks)
    }

    ghost predicate Valid()
      reads this
    {
      Inv(State())
    }

    constructor ()
      ensures Valid() && State() == Init()
    {
      dataSource := None;
      selectedLanguage := Catalog.Languages[0].value;
      transcript, translation, transliteration, summary := "", "", "", "";
      loading := Loading(false, false);
      notices, requests := [], [];
      inFlight, downstreamRuns, pendingTasks := 0, 0, multiset{};
    }

    /** Whether the page is busy; its controls are disabled while it is. It is busy exactly while
        a transcription or a downstream run is pending, or an empty transcript left the downstream
        flag up. */
    function IsProcessing(): (busy: bool)
      requires Valid()
      reads this
      ensures busy <==> inFlight > 0 || downstreamRuns > 0 || (loading.downstream && transcript == "")
    {
      ProcessingMeansPendingWork(State());
      loading.transcript || loading.downstream
    }

    function SelectedScript(): string
      reads this
    {
      Catalog.SelectedScript(selectedLanguage)
    }

    /** A new source from the uploader or the recorder, then the transcription effect: it clears
        the four results and raises the transcript flag; a missing source does nothing more. */
    method SelectSource(source: Option<Blob>)
      requires Valid() && !IsProcessing()
      modifies this
      ensures Valid() && State() == Step(old(State()), SourceSelected(source))
    {
      ghost var after := Step(State(), SourceSelected(source));
      StepPreservesInv(State(), SourceSelected(source));
      SourceStepIsApply(State(), source);
      dataSource := source;
      if source.None? {
        assert State() == after;
        return;
      }
      loading := Loading(true, false);
      transcript, translation, transliteration, summary := "", "", "", "";
      inFlight := inFlight + 1;
      assert State() == after;
    }

    /** The language picker, then the downstream effect, whose guard fails here. */
    method SelectLanguage(language: string)
      requires Valid() && !IsProcessing()
      modifies this
      ensures Valid() && State() == Step(old(State()), LanguageSelected(language))
    {
      selectedLanguage := language;
      DownstreamEffect();
      StepPreservesInv(old(State()), LanguageSelected(language));
    }

    /** The file read and the transcription call settle: the transcript is stored and the downstream
        effect runs, or one "Transcription Failed" toast is raised and both flags drop. */
    method SettleTranscription(read: Outcome, transcription: Outcome)
      requires Valid() && inFlight > 0
      modifies this
      ensures Valid() && State() == Step(old(State()), TranscriptionSettled(read, transcription))
    {
      inFlight := inFlight - 1;
      if read.Fail? {
        FailTranscription();
        TranscriptionStepIsFailure(old(State()), read, transcription);
      } else {
        requests := requests + [Transcribe(read.text)];
        if transcription.Fail? {
          FailTranscription();
          TranscriptionStepIsFailure(old(State()), read, transcription);
        } else {
          StoreTranscript(transcription.text);
          TranscriptionStepIsStore(old(State()), read.text, transcription.text);
        }
      }
      StepPreservesInv(old(State()), TranscriptionSettled(read, transcription));
    }

    /** The catch branch of the transcription effect: one toast, both flags down. */
    method FailTranscription()
      modifies this`notices, this`loading
      ensures State() == TranscriptionFailure(old(State()))
    {
      notices := notices + [TranscriptionFailed];
      loading := Loading(false, false);
    }

    /** The success branch of the transcription effect: the transcript is stored, the downstream
        flag goes up, and the downstream effect then runs on the new dependencies. */
    method StoreTranscript(text: string)
      modifies this
      ensures var stored := old(State()).(transcript := text, loading := Loading(false, true));
        State() == if DownstreamReady(stored) then IssueDownstream(stored) else stored
    {
      transcript := text;
      loading := Loading(false, true);
      DownstreamEffect();
    }

    /** One downstream call answers: a success writes its own result and nothing else. */
    method SettleTask(task: Task, result: Outcome)
      requires Valid() && task in pendingTasks
      modifies this
      ensures Valid() && State() == Step(old(State()), TaskSettled(task, result))
    {
      ghost var after := Step(State(), TaskSettled(task, result));
      TaskStepIsApply(State(), task, result);
      StepPreservesInv(State(), TaskSettled(task, result));
      pendingTasks := pendingTasks - multiset{task};
      if result.Ok? {
        WriteResult(task, result.text);
      }
      assert State() == after;
    }

    /** The setter of one downstream result. */
    method WriteResult(task: Task, text: string)
      modifies this`translation, this`transliteration, this`summary
      ensures State() == WithResult(old(State()), task, text)
    {
      match task {
        case Translation => translation := text;
        case Transliteration => transliteration := text;
        case Summary => summary := text;
      }
    }

    /** The combined downstream promise settles: one "Processing Error" toast on failure, then the
        downstream flag drops and the downstream effect runs again, with its guard failing. */
    method SettleDownstream(failed: bool)
      requires Valid() && downstreamRuns > 0
      modifies this
      ensures Valid() && State() == Step(old(State()), DownstreamSettled(failed))
    {
      if failed {
        notices := notices + [ProcessingError];
      }
      loading := loading.(downstream := false);
      downstreamRuns := downstreamRuns - 1;
      DownstreamEffect();
      StepPreservesInv(old(State()), DownstreamSettled(failed));
    }

    /** The downstream effect, run after a change of its dependencies: with a non-empty transcript
        and the downstream flag up, it issues translation for the selected language,
        transliteration into its script and summarisation, all of the current transcript. */
    method DownstreamEffect()
      modifies this`requests, this`downstreamRuns, this`pendingTasks
      ensures DownstreamReady(old(State())) ==> State() == IssueDownstream(old(State()))
      ensures !DownstreamReady(old(State())) ==> State() == old(State())
    {
      if transcript == "" || !loading.downstream {
        return;
      }
      requests := requests + [Translate(transcript, selectedLanguage),
                              Transliterate(transcript, SelectedScript()),
                              Summarize(transcript)];
      downstreamRuns := downstreamRuns + 1;
      pendingTasks := pendingTasks + AllTasks;
    }
  }
}
