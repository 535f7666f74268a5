# VoiceScribeAI client core in Dafny

VoiceScribeAI turns an audio or video source into four texts: a transcript, a translation into a
chosen language, a transliteration into that language's script, and a summary. The source is an
uploaded file or a microphone recording. The work happens on the client page:

- one AI call transcribes the source;
- once a non-empty transcript is stored, three independent AI calls consume it;
- a two-flag loading record, `{transcript, downstream}`, drives skeletons and disables the
  controls while the page is processing.

This project models that page and its two input components, and proves what they do.

- `common.dfy` (`Common`) holds the shared values:
  - `Option`;
  - `Outcome`, the result of an awaited call: `Ok(text)` or `Fail`;
  - `Blob`, a browser blob or file as its MIME type and bytes;
  - `Notice`, the destructive toasts.
- `catalog.dfy` (`Catalog`) holds the fixed language catalog and the selected-script lookup, with
  its `"Latin"` fallback.
- `result_pane.dfy` (`ResultPane`) holds the choice each result tab makes between a skeleton, a
  placeholder and the text.
- `pipeline.dfy` (`Pipeline`) models the page's processing state machine as values:
  - `PageState` and the `Event`s the page's effects react to;
  - `Apply`, the state updates of one event;
  - `Step`, which is `Apply` followed by the downstream effect whenever its dependencies changed
    and its guard holds;
  - `Run`, over sequences of enabled events;
  - the invariant `Inv` and the lemmas about all of these.
  AI results and file reads are event parameters. The fields `notices` and `requests` log the
  toasts raised and the AI calls issued, with their parameters.
- `page.dfy` (`Page`) holds the page component as a class, `VoiceScribeAI`:
  - its fields are the page's state, updated in place;
  - there is one method per event;
  - each method is proved to make exactly the transition `Pipeline.Step` describes, and to keep
    `Pipeline.Inv`.
- `recorder.dfy` (`Recorder`) holds the `AudioRecorder` component:
  - the permission outcome;
  - the start, stop and toggle guards;
  - the media recorder stopping by itself, which can leave the button stuck on Stop;
  - the chunk list, and the `audio/webm` clip assembled from it.
- `uploader.dfy` (`Uploader`) holds the file uploader:
  - the `audio/` and `video/` prefix check;
  - the forward, reject or ignore decision;
  - the drag, drop and click handlers and their `disabled` guards, as a class.

The asynchronous runtime is modelled by counters in the state:

- `inFlight` counts transcription runs not yet settled.
- `downstreamRuns` counts combined downstream promises not yet settled.
- `pendingTasks` is a multiset of downstream calls not yet answered.

An event that resolves a call is enabled only while such a call is pending. Selecting a source or
a language is enabled only while the page is not processing: the uploader's drop zone and picker,
the record button and the language picker are all disabled then. A recording that ends by itself
is the exception, listed under Left out below. The counters are not identities: no run can be told apart
from another, just as in the code.

## Model

| member | source | states |
|---|---|---|
| Catalog.Find | src/app/page.tsx:182 | `None` exactly when no entry has the value; otherwise the first entry with that value |
| Catalog.ScriptIn | src/app/page.tsx:182 | the listed entry's script (an empty script counts as missing); `"Latin"` for an unlisted value; never empty |
| Catalog.SelectedScript | src/app/page.tsx:182 | for the page's catalog: the script of the listed language, `"Latin"` for any unlisted value, and always one of the catalog's scripts |
| Catalog.CatalogIsWellFormed | src/app/page.tsx:20-27 | the catalog's values are distinct, every entry names a script, and the first entry is English |
| Catalog.ScriptExamples | src/app/page.tsx:20-27 | English gives Latin, Hindi and Marathi give Devanagari, Tamil gives Tamil, Kannada gives Kannada; French and the empty string fall back to Latin |
| ResultPane.ViewOf | src/app/page.tsx:48-65 | the skeleton exactly while loading; the placeholder exactly when not loading with empty content; the text exactly when not loading with non-empty content, and it is that content |
| ResultPane.ExactlyOneBlock | src/app/page.tsx:52-65 | exactly one of the three conditional blocks renders, for every content and flag |
| Uploader.StartsWithIff | src/components/file-uploader.tsx:19 | the prefix test holds exactly when the string is the prefix followed by something |
| Uploader.MediaTypeIff | src/components/file-uploader.tsx:19 | a type is accepted exactly when it reads `audio/…` or `video/…` |
| Uploader.MediaTypeExamples | src/components/file-uploader.tsx:19 | `audio/mpeg`, `audio/webm`, `video/mp4` and `audio/` are accepted; `image/png`, `application/ogg`, `audio`, `Audio/mpeg` and the empty type are not (the test is case-sensitive) |
| Uploader.Decide | src/components/file-uploader.tsx:18-28 | forward exactly a present file of an accepted type, and that very file; reject exactly a present file of any other type; ignore exactly a missing file |
| Uploader.First | src/components/file-uploader.tsx:48-50 | the first file exactly when the list is non-empty |
| Uploader.FileUploader.constructor | src/components/file-uploader.tsx:13-14 | starts not dragging, with nothing forwarded and no toast |
| Uploader.FileUploader.Highlighted | src/components/file-uploader.tsx:63 | the drop zone is never highlighted while disabled |
| Uploader.FileUploader.SetDisabled | src/components/file-uploader.tsx:8-13 | the parent's new `disabled` prop replaces the old one |
| Uploader.FileUploader.HandleFile | src/components/file-uploader.tsx:18-28 | appends the file to the forwarded files exactly when it is accepted; appends one "Invalid File Type" toast exactly when it is rejected |
| Uploader.FileUploader.DragOver | src/components/file-uploader.tsx:30-34 | raises the highlight only when enabled; otherwise leaves it as it was |
| Uploader.FileUploader.DragLeave | src/components/file-uploader.tsx:36-40 | always clears the highlight |
| Uploader.FileUploader.Drop | src/components/file-uploader.tsx:42-52 | always clears the highlight; does nothing else when disabled or for an empty list; otherwise handles the first file only |
| Uploader.FileUploader.ButtonClick | src/components/file-uploader.tsx:54-57 | opens the picker exactly when enabled |
| Uploader.FileUploader.InputChange | src/components/file-uploader.tsx:77 | the picker's first file, if any, is forwarded or rejected like a dropped file |
| Recorder.ClipOf | src/app/page.tsx:98-100 | the clip is an `audio/webm` blob, and is empty for no chunks |
| Recorder.JoinPlacesChunk | src/app/page.tsx:99 | every chunk's bytes appear in the clip at the offset where the earlier chunks end |
| Recorder.Join | src/app/page.tsx:99 | definition: the chunks' bytes in arrival order; `JoinPlacesChunk` states where each chunk lands |
| Recorder.AudioRecorder.constructor | src/app/page.tsx:84-87 | starts not recording, with permission unknown, no recorder, no chunks |
| Recorder.AudioRecorder.PermissionGranted | src/app/page.tsx:92-94 | permission granted and an idle media recorder exists |
| Recorder.AudioRecorder.PermissionDenied | src/app/page.tsx:104-111 | permission refused, no recorder, exactly one "Microphone Access Denied" toast |
| Recorder.AudioRecorder.StartRecording | src/app/page.tsx:115-121 | acts only on an idle recorder: empties the chunks, starts recording, sets `isRecording`; otherwise changes nothing |
| Recorder.AudioRecorder.StopRecording | src/app/page.tsx:123-128 | acts only on a recording recorder: stops it and clears `isRecording`; otherwise changes nothing |
| Recorder.AudioRecorder.Toggle | src/app/page.tsx:130-137 | ignored while disabled. When the button shows Stop it stops a recording recorder; when it shows Record it starts an idle one; otherwise nothing changes. A stuck button (Stop shown over an idle recorder) stays stuck |
| Recorder.AudioRecorder.Ended | src/app/page.tsx:123-137 | the media recorder stopping by itself becomes idle while `isRecording` is kept, so a running recording leaves the button stuck: `stopRecording`'s guard no longer holds |
| Recorder.AudioRecorder.DataAvailable | src/app/page.tsx:95-97 | appends the chunk |
| Recorder.AudioRecorder.Stopped | src/app/page.tsx:98-102 | once the recorder is idle, hands over one clip made of the chunks, whatever the `disabled` prop, then empties the chunk list |
| Common.Title | src/app/page.tsx:107-238 | definition: the title each toast shows (page.tsx lines 109, 203 and 236; the uploader's "Invalid File Type" is at src/components/file-uploader.tsx:24) |
| Uploader.IsMediaType | src/components/file-uploader.tsx:19 | definition: the type starts with `audio/` or `video/`; `MediaTypeIff` states its meaning |
| Pipeline.IsProcessing | src/app/page.tsx:181 | definition: either loading flag is up |
| Pipeline.ProcessingMeansPendingWork | src/app/page.tsx:181 | in every reachable state: processing exactly when a transcription or a downstream run is pending, or an empty transcript left the downstream flag up |
| Pipeline.Enabled | src/app/page.tsx:270-286 | definition: a source or a language only while the page is idle (the `disabled` props); a settle event only for a call that is pending |
| Pipeline.Apply | src/app/page.tsx:184-241 | definition: the state updates each event makes, before the downstream effect looks at them |
| Pipeline.DownstreamReady | src/app/page.tsx:214 | definition: the downstream effect's guard, a non-empty transcript with the downstream flag up |
| Pipeline.DownstreamRequests | src/app/page.tsx:220-228 | definition: the three calls and their parameters |
| Pipeline.IssueDownstream | src/app/page.tsx:216-231 | definition: the three calls go out and one combined run becomes pending |
| Pipeline.DownstreamEffect | src/app/page.tsx:213-245 | definition: the effect runs when its dependencies changed and its guard holds |
| Pipeline.Step | src/app/page.tsx:184-245 | definition: `Apply`, then the downstream effect; the lemmas below state its properties |
| Pipeline.Inv | src/app/page.tsx:166-245 | definition of the invariant; `InitSatisfiesInv` and `StepPreservesInv` show every reachable state meets it |
| Pipeline.Panes | src/app/page.tsx:311-321 | definition: the transcript pane follows the transcript flag, the other three the downstream flag |
| Pipeline.Deps | src/app/page.tsx:245 | definition: the effect's dependencies as the transcript, the language and the downstream flag; the selected script is left out because it changes only with the language, and `toast` because its identity never changes |
| Pipeline.TranscriptionFailure | src/app/page.tsx:199-206 | definition: the catch branch, one "Transcription Failed" toast and both flags down |
| Pipeline.WithResult | src/app/page.tsx:221-229 | definition: the one setter each downstream call uses for its result |
| ResultPane.HasContent | src/app/page.tsx:48 | definition: the content is non-empty, as the truthiness test reads it |
| ResultPane.ShowsSkeleton | src/app/page.tsx:52 | definition: the skeleton block's guard, the loading flag |
| ResultPane.ShowsPlaceholder | src/app/page.tsx:59 | definition: the placeholder block's guard, not loading and no content |
| ResultPane.ShowsText | src/app/page.tsx:65 | definition: the text block's guard, not loading and some content |
| Uploader.StartsWith | src/components/file-uploader.tsx:19 | definition: the string begins with the prefix, compared character by character and case-sensitively; `StartsWithIff` states its meaning |
| Pipeline.Init | src/app/page.tsx:169 | the initial language is the catalog's first entry |
| Pipeline.InitSatisfiesInv | src/app/page.tsx:168-179 | the initial state meets the invariant, is not processing and shows four placeholders |
| Pipeline.StepPreservesInv | src/app/page.tsx:184-245 | every enabled event keeps the invariant |
| Pipeline.SourcePreservesInv | src/app/page.tsx:184-192 | selecting a source keeps the invariant |
| Pipeline.LanguagePreservesInv | src/app/page.tsx:286 | selecting a language keeps the invariant |
| Pipeline.TranscriptionPreservesInv | src/app/page.tsx:194-228 | the transcription settling, with the downstream calls it may issue, keeps the invariant |
| Pipeline.TaskPreservesInv | src/app/page.tsx:219-230 | a downstream answer keeps the invariant |
| Pipeline.SettlePreservesInv | src/app/page.tsx:232-241 | the downstream stage settling keeps the invariant |
| Pipeline.RunPreservesInv | src/app/page.tsx:184-245 | every sequence of enabled events keeps the invariant |
| Pipeline.SourceSelectedResets | src/app/page.tsx:184-192 | a missing source changes only the source; a present one empties the four results, sets the flags to `{true, false}` and shows a skeleton beside three placeholders |
| Pipeline.TranscriptionSucceeds | src/app/page.tsx:194-228 | stores the transcript and sets the flags to `{false, true}`. For a non-empty transcript it issues exactly translate(transcript, language), transliterate(transcript, script of the language) and summarize(transcript). For an empty one it issues nothing after the transcription |
| Pipeline.TranscriptionFails | src/app/page.tsx:199-207 | a failed read or transcription sets both flags down and raises exactly one "Transcription Failed" toast. The transcript stays empty and no downstream call is issued. A failed read issues no call at all |
| Pipeline.FailedSourceShowsNothing | src/app/page.tsx:188-207 | a new source whose transcription fails leaves four empty results, one toast, an idle page and four placeholders |
| Pipeline.DownstreamIssuedOnlyAfterTranscript | src/app/page.tsx:213-231 | a downstream run starts exactly on a successful transcription with a non-empty transcript; no other event issues any call |
| Pipeline.TaskWritesOnlyItsResult | src/app/page.tsx:219-230 | an answer writes only its own result, and only on success. The transcript, the flags, the language, the logs and the other two results are untouched |
| Pipeline.DownstreamSettles | src/app/page.tsx:232-241 | the downstream flag drops and the transcript flag is kept. No result is cleared and the page is idle. There is exactly one "Processing Error" toast on failure and none otherwise |
| Pipeline.EmptyTranscriptLeadsToStall | src/app/page.tsx:196-214 | an empty transcript leaves the flags at `{false, true}` with no downstream run pending |
| Pipeline.EmptyTranscriptStalls | src/app/page.tsx:213-214 | from that state, every sequence of enabled events keeps the page processing, with its controls disabled, and raises or issues nothing |
| Pipeline.LanguageChangeIssuesNothing | src/app/page.tsx:213-214 | changing the language issues no call and keeps the four results |
| Pipeline.StepExtendsLogs | src/app/page.tsx:184-245 | one event only appends to the toasts and to the calls issued |
| Pipeline.LogsOnlyGrow | src/app/page.tsx:184-245 | every run keeps the earlier toasts and calls as a prefix |
| Pipeline.DownstreamCompletes | src/app/page.tsx:218-241 | three successful answers, in the one order translation, summary, transliteration, then the settling, write all three results. The flag drops and nothing else changes |
| Pipeline.HindiTranscribed | src/app/page.tsx:182-228 | after selecting Hindi and a source with a non-empty transcript, the calls issued are for Hindi and the Devanagari script |
| Pipeline.SuccessfulRun | src/app/page.tsx:166-245 | the whole run for Hindi shows the transcript and the three results, with exactly four calls, no toast and an idle page |
| Pipeline.SourceTranscribed | src/app/page.tsx:184-228 | a first source transcribed to a non-empty text leaves the three calls for the default language pending |
| Pipeline.FailureSettlesEarly | src/app/page.tsx:218-241 | one failed answer, then the rejection of the combined promise, leave the page idle with one "Processing Error" toast while the other two calls are still pending |
| Pipeline.LateAnswerIsWritten | src/app/page.tsx:184-241 | after that early failure a new source can be selected, and a late translation for the old transcript is then written and shown beside the new transcription in progress |
| Page.VoiceScribeAI.constructor | src/app/page.tsx:168-179 | the fields start as the initial state, which meets the invariant |
| Page.VoiceScribeAI.IsProcessing | src/app/page.tsx:181 | for a valid page: busy exactly when a transcription or a downstream run is pending, or an empty transcript left the downstream flag up |
| Page.VoiceScribeAI.SelectedScript | src/app/page.tsx:182 | definition: the catalog lookup for the selected language |
| Page.VoiceScribeAI.SelectSource | src/app/page.tsx:184-192 | the in-place update is the model's source-selected step and keeps the invariant |
| Page.VoiceScribeAI.SelectLanguage | src/app/page.tsx:286 | the in-place update is the model's language-selected step and keeps the invariant |
| Page.VoiceScribeAI.SettleTranscription | src/app/page.tsx:194-207 | the in-place update is the model's transcription-settled step, including the downstream effect, and keeps the invariant |
| Page.VoiceScribeAI.FailTranscription | src/app/page.tsx:199-206 | one toast more and both flags down, nothing else |
| Page.VoiceScribeAI.StoreTranscript | src/app/page.tsx:197-198 | stores the transcript and raises the downstream flag. The downstream calls are issued exactly when the page is then ready for them |
| Page.VoiceScribeAI.SettleTask | src/app/page.tsx:219-230 | the in-place update is the model's answer step and keeps the invariant |
| Page.VoiceScribeAI.WriteResult | src/app/page.tsx:221-229 | writes exactly the one result its call produces |
| Page.VoiceScribeAI.SettleDownstream | src/app/page.tsx:232-241 | the in-place update is the model's settle step and keeps the invariant |
| Page.VoiceScribeAI.DownstreamEffect | src/app/page.tsx:213-231 | with a non-empty transcript and the downstream flag up, appends the three calls and one pending run; otherwise changes nothing |

## Behaviour of the code worth knowing

The lemmas above prove three facts about the code as written:

- **Nothing discards an answer to a call issued for an earlier source.** No run carries an
  identity, and each downstream call writes its result whenever it answers.
  `Pipeline.LateAnswerIsWritten` shows a translation of the previous transcript being written
  after a new source was selected.
- **A language change after processing issues no call.** The downstream guard needs the downstream
  flag up. A language can only be chosen while the page is idle, and then that flag is down.
  `Pipeline.LanguageChangeIssuesNothing` shows that the change issues nothing and that the results
  for the previous language stay.
- **An empty transcript leaves the page processing for good.** If the transcription returns an
  empty text, the flags stay at `{false, true}` and nothing is issued. Unless a running recording
  ends by itself (see Left out), nothing ever lowers the downstream flag again, so the page stays
  processing and its controls stay disabled (`Pipeline.EmptyTranscriptStalls`).

## Left out

- The AI flows (transcription, translation, transliteration, summarization) are not part of this
  model. Each call is a parameter of the event that resolves it: `Ok(text)` or `Fail`.
- `readFileAsDataURI` (src/app/page.tsx:29-36) uses the browser's file reader. The data URI it
  produces is an opaque string parameter, and a failed read is `Fail`.
- `getUserMedia` and `MediaRecorder` are browser APIs. Their internals are not modelled; the
  permission outcome, the chunk deliveries and the stop notification are method calls.
- The recorder's `onstop` handler is registered once, with the `onRecordingComplete` callback of
  that render. Its identity is not modelled.
- The order in which the three downstream promises resolve is not modelled, and no ordering is
  claimed. `Promise.all` may reject on the first failure before the other two calls answer. The
  model therefore lets the combined promise settle whenever a run is pending, with `failed` as a
  free parameter. This over-approximates the runtime: it also allows a settle that `Promise.all`
  would not make yet. The properties stated over every enabled event or every run (the invariant,
  the logs, the stall, `DownstreamIssuedOnlyAfterTranscript`) therefore also hold for the real
  orderings, unless a running recording ends by itself (see the `Page.VoiceScribeAI.SelectSource`
  line below). The example runs settle only after a failed answer or after all three answers.
- React's scheduling is reduced to one event per render:
  - the downstream effect runs in the same step when its dependencies changed;
  - the selected script is left out of those dependencies, because it changes only with the
    language;
  - `toast` never changes identity, and neither do the state-setter functions.
- Re-selecting the very same blob object does not re-run the transcription effect in React.
  `Page.VoiceScribeAI.SelectSource` models every selection as a new source.
- The clipboard copy and its two-second `setTimeout` reset (src/app/page.tsx:41-46) are not
  modelled, nor are JSX layout, styling, toast descriptions and console logging.
- The permission messages (src/app/page.tsx:139-153) are rendering only.
- `MediaRecorder` can also be paused, but no code path in the component pauses it, so the model's
  recorder is only ever inactive or recording.
- Pipeline.Enabled: the recorder's `onstop` hands a clip to the page without checking `disabled`
  (src/app/page.tsx:98-102). A recording that ends by itself while the page is processing can
  therefore select a new source during processing, and could even end the stall of
  `Pipeline.EmptyTranscriptStalls`. The model enables source selection only while the page is
  idle, so it does not capture overlapping transcriptions.
- Pipeline.TranscriptionFails states that the other three results stay as they were, not that
  they are empty. A late answer from an earlier run can have been written into them
  (`Pipeline.LateAnswerIsWritten`).
- Pipeline.TranscriptionSucceeds states that the other three results stay as they were, not that
  they are empty. A late answer from an earlier run can have been written into them
  (`Pipeline.LateAnswerIsWritten`).
- Page.VoiceScribeAI.SelectSource requires an idle page, as the drop zone, the picker and the record
  button are disabled while processing. The recorder's `onstop` (src/app/page.tsx:98-102) calls
  `setDataSource` (src/app/page.tsx:273) without that check, so a recording that ends by itself can
  select a source while a transcription or a downstream run is pending, or during the
  empty-transcript stall. The model does not cover that path: two transcriptions in flight at once,
  a stall ended by a new source, and the invariant and logs after such a selection.
