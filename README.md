# Voice transcriber: a Dafny model

A model of the two halves of a small voice-transcription application. The
browser half (`frontend/script.js`, class `VoiceTranscriber`) records a clip
of up to five seconds or takes a chosen audio file, stages exactly one
payload, and posts it to the server. The server half (`app.py`, endpoint
`/transcribe`) validates the upload, converts it to WAV when needed, runs the
speech model over it, and returns the joined segment texts.

The project has four modules:

- `Text` (`text.dfy`): the string operations both halves rely on. These are
  ASCII lower-casing, the last occurrence of a character, Python's
  `rsplit(sep, 1)`, POSIX `os.path.splitext`, `str.strip()` over Python's
  whitespace set, and `str.join`.
- `Recorder` (`recorder.dfy`): the browser controller. Each event is a pure
  function from the controller's `State` to the next `State` (`Started`,
  `Stopped`, `TimerFiredIn`, `FileChosen`, `Submitted`, …). The lemmas are
  about these functions. The class `VoiceTranscriber` has the source's fields
  and one method per event. Each method changes the fields in place and
  ensures `Snapshot() == F(old(Snapshot()))` for its function `F`. It also
  keeps `Valid()`, the invariant that holds between events:
  - recording implies a recorder exists and the auto-stop timer is set;
  - the submit button is enabled exactly when a payload is staged;
  - a staged file always passed validation, and so does a file left in the
    file input;
  - the spinner is hidden.
- `Server` (`server.dfy`): `allowed_file`, `prepare_audio_for_whisper` and
  the `/transcribe` handler. The handler's cascade of early returns and its
  segment loop are methods. The operating system, ffmpeg and the speech model
  enter as parameters: whether the save succeeded, whether the conversion
  succeeded, and what the model produced or raised. The handler returns the
  response and the list of paths it asked `cleanup_temp_file` to remove.
- `Endpoint` (`endpoint.dfy`): lemmas that connect the two halves. The page's
  filename pattern and the server's `allowed_file` accept the same names. A
  recorded clip is sent as `audio.wav`, which the server accepts and does not
  convert. The page shows every server failure with the server's own message.

Two consequences of the code that the model keeps:

- No `onerror` handler is installed on the `MediaRecorder`. A capture error
  reaches the controller only as the recorder's `stop` (`RecorderStops`).
- A rejected file leaves `audioBlob` and the submit button as they were
  (frontend/script.js:139-150). Only the file input is cleared.

## Model

| member | source | states |
|---|---|---|
| `Text.LastIndexOf` | app.py:27 | the result is the index of the last occurrence of the character, or none exactly when it does not occur |
| `Text.RSplitOnce` | app.py:27 | Python `rsplit(c, 1)`: the whole string when `c` is absent; otherwise two parts that rebuild the input around `c`, and the second part has no `c` |
| `Text.SplitExt` | app.py:52 | `os.path.splitext`: the parts concatenate to the path; the extension is non-empty iff some non-dot character of the last path component precedes a dot, and then it starts at the last dot and has no other dot and no `/` |
| `Text.ComponentStart` | app.py:52 | the last path component starts just after the last `/`, and contains no `/` |
| `Text.HasExtensionAtLastDot` | app.py:52 | the extension condition is exactly `splitext`'s test: the last dot lies in the last component, after a character that is not a dot |
| `Text.TrimStart` | app.py:149 | removes exactly the longest all-whitespace prefix |
| `Text.TrimEnd` | app.py:149 | removes exactly the longest all-whitespace suffix |
| `Text.Strip` | app.py:149 | the result is a contiguous part of the input with only whitespace before and after it, and it neither starts nor ends with whitespace; a string without whitespace is unchanged |
| `Text.StripIdempotent` | app.py:149-150 | stripping twice equals stripping once |
| `Text.StripTrailingSpace` | app.py:140-149 | the space appended after the last segment never survives the strip |
| `Server.AllowedFileAfterLastDot` | app.py:24-27 | a name `stem.ext` whose `ext` has no dot (the form of every name with a dot) is allowed iff `ext`, lower-cased, is one of wav, mp3, m4a, flac, ogg, webm |
| `Server.AllowedFileUpperCaseAfterLastDot` | app.py:24-27 | every name ending in `.WAV` is accepted: case does not matter |
| `Server.AllowedFileNeedsExtension` | app.py:24-27 | `wav`, the empty name and `x.` are refused |
| `Server.AllowedFileIgnoresInnerExtension` | app.py:24-27 | a name `stem.wav.ext` is refused when `ext` is not allowed: only the text after the last dot counts |
| `Server.UploadPath` | app.py:115 | `os.path.join` of the upload folder and the secured name is non-empty and ends with the name; a name without `/` becomes the last path component, under `temp_uploads/` |
| `Text.SplitExtAtLastDot` | app.py:52 | the extension starts at the last dot when a non-dot character precedes it within the last path component |
| `Server.ConvertedPathIsWav` | app.py:59 | the converted path `stem + "_converted.wav"` always has the extension `.wav` |
| `Server.PrepareAudioResult` | app.py:50-68 | the returned path differs from the input iff the input is not a `.wav` path and conversion succeeded; then it is the converted path and the original is removed; otherwise nothing is removed; the result is always a `.wav` path or the untouched input |
| `Server.WavUploadNotConverted` | app.py:52-56 | an upload saved as `<stem>.wav` (stem without `/`, not starting with a dot) is handed to the model unconverted and nothing is removed, whatever ffmpeg would do |
| `Server.PrepareAudioConvertsOnce` | app.py:52-59 | a converted path is returned unchanged when prepared again, whatever the conversion would do |
| `Server.CheckUploadIff` | app.py:88-111 | a request passes the pre-save checks iff its selected field's filename is allowed; every rejection is a 400 |
| `Server.CheckUploadOrder` | app.py:88-111 | a missing field is reported before anything else; an empty name reports "No audio file selected" and not the format error; `file` is used in preference to `audio_file` |
| `Server.SpacedIsJoinPlusSpace` | app.py:138-140 | the accumulated text is the segments joined by single spaces plus one trailing space |
| `Server.TranscriptIsStrippedJoin` | app.py:138-150 | the transcript is the strip of the space-joined segments, and it is already stripped |
| `Server.TranscriptOfTwoSegments` | app.py:138-150 | the segments `" hello"` and `" world"` give `"hello  world"`, with two spaces |
| `Server.CollectTranscript` | app.py:138-140 | the loop accumulating `segment.text + " "`, stripped, yields `Transcript(texts)` |
| `Server.RemoveTemporaries` | app.py:143-145 | only the upload and the converted path are removed; the upload is always removed; the converted path is removed when it is non-empty; when it equals the upload it is not removed a second time |
| `Server.TranscribeSaved` | app.py:125-153 | after the save: 200 exactly when the model produced segments, with `text` and `transcription` both the transcript; otherwise 500; clean-up covers both files except when `model.transcribe` raises, in which case the file given to the model is not removed |
| `Server.Transcribe` | app.py:80-163 | each 400 of the pre-save cascade is returned with nothing removed; a save that raises gives "Server error" and removes the upload; a missing saved file gives "File upload failed"; 200 iff the checks pass, the save succeeds and the model produced segments |
| `Server.ClipPassesChecks` | app.py:88-111 | a request whose `file` field is named `clip.wav` passes every check before the save |
| `Server.UndecodableUploadIsKept` | app.py:129-135 | a request that passes the checks, is saved, cannot be converted and cannot be decoded by the model gets "Transcription failed" (500), and the saved upload is not among the removed files |
| `Server.TranscribeSavedWithCleanup` | app.py:125-159 | corrected tail: the upload and the file given to the model are removed on every outcome |
| `Server.TranscribeWithCleanup` | app.py:80-163 | corrected handler: the same responses as `Transcribe` for every check, save outcome and model outcome, and once the upload is on disk every temporary file is removed on every path |
| `Recorder.CheckFileIff` | frontend/script.js:136-151 | a file is accepted iff (its type is in the allow-list or its name matches the extension pattern) and its size is at most 52428800; both checks failing reports the format error; a recognised file over the limit reports the size error |
| `Recorder.CheckFileSizeBoundary` | frontend/script.js:146-147 | exactly 50 MiB is accepted; one byte more is too large |
| `Recorder.CheckFileByName` | frontend/script.js:137-139 | a name ending in `.MP3` with no type is accepted by its name, ignoring case |
| `Recorder.CheckFileByType` | frontend/script.js:136-139 | `voice` typed `audio/wav` is accepted by its type alone |
| `Recorder.MicErrorMessageCases` | frontend/script.js:101-109 | NotAllowedError, NotFoundError and NotSupportedError each get their own message; every other name gets the generic one |
| `Recorder.MicErrorMessagesDistinct` | frontend/script.js:101-109 | the four messages are pairwise different |
| `Recorder.ResultViewCases` | frontend/script.js:175-239 | no response, or a body that is not JSON, shows "Connection Error" with the fixed text; a non-2xx status shows "Transcription Failed" with `data.message` when truthy, else the fallback; a 2xx body with a truthy `error` shows that error and its message; a 2xx body without one shows the transcript |
| `Recorder.StepKeepsInvariant` | frontend/script.js:29-161 | every event keeps the controller invariant |
| `Recorder.RunKeepsInvariant` | frontend/script.js:29-161 | every sequence of events keeps the controller invariant |
| `Recorder.ToggleDispatch` | frontend/script.js:29-35 | the toggle starts exactly when not recording and stops otherwise; afterwards recording is on iff it was off and the microphone was granted |
| `Recorder.StopGuard` | frontend/script.js:115-130 | stop changes nothing unless a recorder exists and recording is on; when it acts it clears recording and the timer and changes only the status besides |
| `Recorder.TimerAfterStop` | frontend/script.js:92-97 | under the invariant the timer acts exactly as stop does; firing after a stop changes nothing |
| `Recorder.StartFailureStaysIdle` | frontend/script.js:99-112 | a failed start leaves recording, the timer, the payload and the submit button as they were, and shows `Error: ` and the mapped message |
| `Recorder.RecordingTransitions` | frontend/script.js:29-130 | recording begins only on a click with the microphone granted and ends only on a click or the timer |
| `Recorder.FileChosenEffect` | frontend/script.js:139-155 | a rejected file changes only the status line and leaves the input empty; an accepted file stays in the input, becomes the staged payload and enables submission |
| `Recorder.PayloadOwnership` | frontend/script.js:64-154 | the staged payload changes only wholesale: to the recorded chunks when the recorder stops, or to an accepted file |
| `Recorder.SubmitEffect` | frontend/script.js:196-240 | with nothing staged, no request is made and nothing changes; otherwise one request carries the payload under `file` with the file's own name or `audio.wav`, the result is shown, the spinner is hidden and the payload stays staged |
| `Recorder.RunSnoc` | frontend/script.js:23-27 | the events are handled one after another: one more event is one more step |
| `Recorder.RecordAndSubmitScenario` | frontend/script.js:37-97 | start, two chunks, the timer, the recorder's stop, then a 200 reply: the staged payload is exactly the two chunks, recording is off, and "hello world" is shown |
| `Recorder.VoiceTranscriber.constructor` | frontend/script.js:2-8 | the fields start as in the source, invariant established |
| `Recorder.VoiceTranscriber.Toggle` | frontend/script.js:29-35 | the new state is `Toggled` of the old one; the dispatch reports stop iff recording was on |
| `Recorder.VoiceTranscriber.StartSucceeded` | frontend/script.js:50-97 | the recorder is set, chunks are emptied, recording is on, the timer is pending |
| `Recorder.VoiceTranscriber.StartFailed` | frontend/script.js:99-112 | the new state is `StartFailedAt` of the old one: fields assigned before the failing call keep their values, and the status shows the message |
| `Recorder.VoiceTranscriber.Stop` | frontend/script.js:115-130 | the new state is `Stopped` of the old one |
| `Recorder.VoiceTranscriber.TimerFired` | frontend/script.js:92-97 | the new state is `TimerFiredIn` of the old one |
| `Recorder.VoiceTranscriber.OnDataAvailable` | frontend/script.js:57-61 | a non-empty chunk is appended, an empty one dropped |
| `Recorder.VoiceTranscriber.OnRecorderStop` | frontend/script.js:64-72 | the chunks become the staged `audio/wav` blob and submission is enabled |
| `Recorder.VoiceTranscriber.HandleFileUpload` | frontend/script.js:132-157 | the input holds the chosen file, then the new state is `FileChosen` of the old one |
| `Recorder.VoiceTranscriber.Submit` | frontend/script.js:196-240 | the new state is `Submitted` of the old one and the request sent is `SubmitRequest` of the old state |
| `Endpoint.PatternAgreesWithAllowedFile` | frontend/script.js:137 | a name matches the page's pattern iff the server's `allowed_file` accepts it |
| `Endpoint.PatternImpliesAllowedFile` | frontend/script.js:137-139 | every name the page accepts by pattern is accepted by the server |
| `Endpoint.SuffixAllowed` | app.py:24-27 | a name whose lower-case form ends in a dot and an allowed extension is allowed |
| `Endpoint.AllowedFileImpliesPattern` | app.py:24-27 | every name the server accepts matches the page's pattern |
| `Endpoint.AcceptedUploadOnServer` | frontend/script.js:208-213 | a file the page accepted is accepted by the server iff its name, not only its type, is recognised |
| `Endpoint.RecordedClipAccepted` | frontend/script.js:208-211 | a recorded clip is sent as `audio.wav`, which `allowed_file` accepts |
| `Endpoint.RecordedClipNotConverted` | app.py:52-56 | a clip saved as `audio.wav` is handed to the model without conversion and nothing is removed |
| `Endpoint.TypeOnlyUploadRefused` | frontend/script.js:139 | a file named `voice` passes the page's check by type but the server refuses it with the format error, which the page shows as "Transcription Failed" |
| `Endpoint.ServerFailureShown` | frontend/script.js:224-229 | a 400 or 500 failure with a non-empty message is shown as "Transcription Failed" with that message |
| `Endpoint.ServerFailureMessagesNonEmpty` | app.py:94-163 | every failure response of the handler has a non-empty message |
| `Endpoint.ServerSuccessShown` | frontend/script.js:222-223 | a 200 transcript response is shown with its transcript, language and probability |

## Left out

- The cosmetic countdown (frontend/script.js:83-89) and its `clearInterval` are left out. They only write the status line.
- The recording button's label and CSS class, `alert`, `console.error` and the `innerHTML` markup are left out. They are DOM output with no effect on the state.
- The formatting of the MB size and of the confidence percentage with `toFixed(1)` (frontend/script.js:155, 190) is left out, because it is floating-point formatting. The status keeps the name and size, and the view keeps the probability.
- The capture configuration and the recorder's MIME type and timeslice (frontend/script.js:40-52, 75) are passed to the platform and are left out.
- Releasing the microphone tracks in `onstop` (frontend/script.js:71) is left out. So is the stream that stays open when `new MediaRecorder` or `start` throws after `getUserMedia` succeeded. The model has no stream object.
- Async interleaving is not modelled. Every event runs to completion. A second click while `getUserMedia` is still pending finds `isRecording` false and starts a second session. A first session's timer, no longer referenced once a second session overwrites `recordingTimer`, can then stop that second session early. Both are concurrency.
- The `onstop` of an earlier recorder arriving after a new start is also not modelled.
- The initially disabled submit button and the hidden spinner come from the page markup, which is not part of this model. `Recorder.Initial` assumes them.
- Lower-casing is ASCII only. For the extension check this is exact. No non-ASCII character lower-cases in Python to a letter that occurs in the allowed extensions. A case-insensitive JavaScript pattern without the `u` flag never folds a non-ASCII character to an ASCII one.
- `secure_filename` is a library function. The handler takes its result as the parameter `secured`, and `Endpoint.RecordedClipNotConverted` assumes it leaves `audio.wav` as it is.
- `file.save` and `os.path.exists` are reduced to `SaveOutcome`. `convert_to_wav` is reduced to a boolean. The Whisper model is reduced to `ModelRun`, which also covers an exception raised while the lazy segment iterator is consumed.
- `os.remove` and the existence check inside `cleanup_temp_file` are left out. The model records every non-empty path passed to it.
- The `Supported formats` message joins a Python set, whose iteration order Python does not fix. The model uses one order (`Server.SupportedFormats`).
- Flask routing, CORS, the `/` and `/ping` routes, model loading and `jsonify` are plumbing and are left out. `Endpoint.ToJson` gives only the fields the page reads.
- The JSON fields the page reads are modelled as optional strings and an optional number. Other JSON types are not modelled.
- The file input is modelled as the file it holds, or none once its value is cleared. The string the browser reports as its `value` is not modelled.

## Findings

| source | as written | input that shows it | evidently intended | confidence | as-written member | corrected member |
|---|---|---|---|---|---|---|
| app.py:129-135 | when `model.transcribe` raises, the handler returns 500 from inside the inner `except`. It skips both the clean-up at lines 143-145 and the outer handler's clean-up at lines 157-159. | an upload `clip.wav` (`Server.ClipPassesChecks`), saved, which the model cannot decode | the saved upload and any converted copy are removed on every path, as the outer exception handler does | medium; not executed | `Server.UndecodableUploadIsKept` | `Server.TranscribeWithCleanup` |
