/** The browser controller of frontend/script.js, class `VoiceTranscriber`:
    a two-state recording toggle with a five-second auto-stop, the validation
    of a chosen file, the single staged payload, and the submission of that
    payload with the mapping from the server's answer to what is shown.

    The browser's media capture, timers, `fetch` and DOM are outside the
    model: their outcomes arrive as parameters of the event methods
    (`StartOutcome`, `FetchOutcome`, a `Chunk`, the chosen file). Each event
    is given twice: as a function from the controller's `State` before to the
    `State` after, which the lemmas talk about, and as a method of the class
    `VoiceTranscriber` that updates the fields in place and is proved to do
    what that function says. */
module Recorder {
  import opened Text

  // ---------------------------------------------------------------------
  // Upload validation (handleFileUpload)
  // ---------------------------------------------------------------------

  /** 50 MiB. */
  const MaxUploadSize: nat := 50 * 1024 * 1024

  const AllowedTypes: seq<string> :=
    ["audio/wav", "audio/mp3", "audio/mpeg", "audio/m4a", "audio/flac", "audio/ogg", "audio/webm"]

  /** The alternatives of the pattern `/\.(wav|mp3|m4a|flac|ogg|webm)$/i`. */
  const PatternExtensions: set<string> := {"wav", "mp3", "m4a", "flac", "ogg", "webm"}

  /** What the file picker reports about the chosen file. */
  datatype FileInfo = FileInfo(name: string, mime: string, size: nat)

  /** The pattern test: the name ends, ignoring case, with a dot and one of
      the extensions. */
  predicate MatchesExtensionPattern(name: string) {
    exists e :: e in PatternExtensions && EndsWith(Lower(name), "." + e)
  }

  datatype Verdict = Accepted | InvalidType | TooLarge

  /** The two checks of `handleFileUpload`, in its order. */
  function CheckFile(f: FileInfo): Verdict {
    if f.mime !in AllowedTypes && !MatchesExtensionPattern(f.name) then InvalidType
    else if f.size > MaxUploadSize then TooLarge
    else Accepted
  }

  const InvalidTypeMessage: string :=
    "Error: Please select a valid audio file (WAV, MP3, M4A, FLAC, OGG, or WebM)."
  const TooLargeMessage: string :=
    "Error: File is too large. Please select a file smaller than 50MB."

  /** A file is accepted exactly when its type or its name is recognised and
      it is at most 50 MiB; when both checks fail, the format is reported. */
  lemma CheckFileIff(f: FileInfo)
    ensures CheckFile(f) == Accepted <==>
      (f.mime in AllowedTypes || MatchesExtensionPattern(f.name)) && f.size <= 52428800
    ensures CheckFile(f) == InvalidType <==> f.mime !in AllowedTypes && !MatchesExtensionPattern(f.name)
    ensures CheckFile(f) == TooLarge <==>
      (f.mime in AllowedTypes || MatchesExtensionPattern(f.name)) && f.size > 52428800
  {
  }

  /** Exactly 50 MiB is accepted, one byte more is not. */
  lemma CheckFileSizeBoundary(name: string)
    ensures CheckFile(FileInfo(name, "audio/mpeg", 52428800)) == Accepted
    ensures CheckFile(FileInfo(name, "audio/mpeg", 52428801)) == TooLarge
  {
    assert AllowedTypes[2] == "audio/mpeg";
  }

  /** The name alone is enough, in any case: any name ending in `.MP3`
      with no type is accepted. */
  lemma CheckFileByName(stem: string)
    ensures MatchesExtensionPattern(stem + ".MP3")
    ensures CheckFile(FileInfo(stem + ".MP3", "", 10)) == Accepted
  {
    var n := stem + ".MP3";
    assert Lower(n)[|stem|..] == ".mp3" by {
      LowerSlice(n, |stem|);
      assert n[|stem|..] == ".MP3";
      assert Lower(".MP3") == ".mp3";
    }
    assert "mp3" in PatternExtensions && EndsWith(Lower(n), "." + "mp3");
  }

  /** The type alone is enough too. */
  lemma CheckFileByType()
    ensures CheckFile(FileInfo("voice", "audio/wav", 10)) == Accepted
  {
    assert AllowedTypes[0] == "audio/wav";
  }

  // ---------------------------------------------------------------------
  // Microphone errors (startRecording's catch block)
  // ---------------------------------------------------------------------

  const GenericMicMessage: string := "Could not access microphone."
  const DeniedMicMessage: string :=
    "Microphone access denied. Please allow microphone permissions and try again."
  const MissingMicMessage: string :=
    "No microphone found. Please connect a microphone and try again."
  const UnsupportedMicMessage: string :=
    "Your browser does not support audio recording. Please try a different browser."

  /** The message chosen from the error's `name`. */
  function MicErrorMessage(errName: string): string {
    if errName == "NotAllowedError" then DeniedMicMessage
    else if errName == "NotFoundError" then MissingMicMessage
    else if errName == "NotSupportedError" then UnsupportedMicMessage
    else GenericMicMessage
  }

  /** Each of the three known failures has its own message, and every other
      name gets the generic one. */
  lemma MicErrorMessageCases(errName: string)
    ensures errName == "NotAllowedError" ==> MicErrorMessage(errName) == DeniedMicMessage
    ensures errName == "NotFoundError" ==> MicErrorMessage(errName) == MissingMicMessage
    ensures errName == "NotSupportedError" ==> MicErrorMessage(errName) == UnsupportedMicMessage
    ensures errName != "NotAllowedError" && errName != "NotFoundError" && errName != "NotSupportedError"
      ==> MicErrorMessage(errName) == GenericMicMessage
  {
    assert "NotAllowedError" != "NotFoundError" && "NotAllowedError" != "NotSupportedError";
    assert "NotFoundError" != "NotSupportedError";
  }

  /** The four messages are pairwise different, so the page tells the
      failures apart. */
  lemma MicErrorMessagesDistinct()
    ensures |{DeniedMicMessage, MissingMicMessage, UnsupportedMicMessage, GenericMicMessage}| == 4
  {
    // They already differ in length.
    assert |DeniedMicMessage| == 76 && |MissingMicMessage| == 63;
    assert |UnsupportedMicMessage| == 78 && |GenericMicMessage| == 28;
  }

  // ---------------------------------------------------------------------
  // Submission (submitAudio, displayTranscription)
  // ---------------------------------------------------------------------

  datatype Chunk = Chunk(bytes: seq<bv8>)

  /** The staged audio: a blob built from recorded chunks, or a chosen file. */
  datatype Payload = Recording(chunks: seq<Chunk>, mime: string) | Upload(file: FileInfo)

  /** The multipart part the form carries. */
  datatype Request = Request(field: string, filename: string, payload: Payload)

  /** A file keeps its own name; a recorded blob is sent as `audio.wav`. */
  function SubmitFilename(p: Payload): string {
    if p.Upload? then p.file.name else "audio.wav"
  }

  /** The fields of the JSON body the page reads; a missing one is `None`. */
  datatype Json = Json(error: Option<string>, message: Option<string>, transcription: Option<string>,
                       language: Option<string>, probability: Option<real>)

  /** How the request ended: a response with a status code and a body that
      did or did not parse as JSON, or no response at all. */
  datatype FetchOutcome = Responded(status: nat, body: Option<Json>) | Unreachable

  datatype View =
    | ErrorView(error: string, message: string)
    | TranscriptView(text: string, language: string, probability: Option<real>)

  const FallbackMessage: string := "An error occurred during transcription."
  const ConnectionMessage: string :=
    "Could not connect to the transcription service. Please check if the server is running."

  /** JavaScript truthiness of an optional string. */
  predicate Truthy(s: Option<string>) {
    s.Some? && s.value != ""
  }

  /** A template literal shows a missing field as `undefined`. */
  function Shown(s: Option<string>): string {
    if s.Some? then s.value else "undefined"
  }

  /** `displayTranscription(data)`. */
  function Display(data: Json): View {
    if Truthy(data.error) then ErrorView(data.error.value, Shown(data.message))
    else TranscriptView(Shown(data.transcription), Shown(data.language), data.probability)
  }

  /** What `submitAudio` shows for each way the request can end. A body that
      is not JSON makes `response.json()` throw, which lands in the same
      handler as a failed connection. */
  function ResultView(o: FetchOutcome): View {
    match o
    case Unreachable => ErrorView("Connection Error", ConnectionMessage)
    case Responded(status, body) =>
      if body.None? then ErrorView("Connection Error", ConnectionMessage)
      else if 200 <= status <= 299 then Display(body.value)
      else ErrorView("Transcription Failed",
                     if Truthy(body.value.message) then body.value.message.value else FallbackMessage)
  }

  /** A failed status shows "Transcription Failed" with the server's message
      when it is truthy and the fallback otherwise; a request that got no
      JSON back shows "Connection Error"; a successful one shows the body's
      own error and message when the body carries an error, and the
      transcript otherwise. */
  lemma ResultViewCases(o: FetchOutcome)
    ensures o.Unreachable? || o.body.None? ==> ResultView(o) == ErrorView("Connection Error", ConnectionMessage)
    ensures o.Responded? && o.body.Some? && ResultView(o) == ErrorView("Connection Error", ConnectionMessage) ==>
      200 <= o.status <= 299 && o.body.value.error == Some("Connection Error")
    ensures o.Responded? && o.body.Some? && !(200 <= o.status <= 299) ==>
      ResultView(o).ErrorView? && ResultView(o).error == "Transcription Failed"
      && (Truthy(o.body.value.message) ==> ResultView(o).message == o.body.value.message.value)
      && (!Truthy(o.body.value.message) ==> ResultView(o).message == FallbackMessage)
    ensures o.Responded? && o.body.Some? && 200 <= o.status <= 299 && Truthy(o.body.value.error) ==>
      ResultView(o) == ErrorView(o.body.value.error.value, Shown(o.body.value.message))
    ensures o.Responded? && o.body.Some? && 200 <= o.status <= 299 && !Truthy(o.body.value.error) ==>
      ResultView(o) == TranscriptView(Shown(o.body.value.transcription), Shown(o.body.value.language), o.body.value.probability)
  {
  }

  // ---------------------------------------------------------------------
  // Controller state and its events
  // ---------------------------------------------------------------------

  /** The recording-status line: a fixed text, or the "File selected" line
      whose size in MB the page formats. */
  datatype Status = Blank | Message(text: string) | FileSelected(name: string, size: nat)

  /** The controller's fields. `hasRecorder` is `mediaRecorder != null`,
      `timerPending` is `recordingTimer != null`; `submitEnabled`, `loading`,
      `status`, `fileInput` and `view` are the state of the submit
      button, the spinner, the status line, the file input (the file it
      currently holds, `None` once its value is cleared) and the result
      box. */
  datatype State = State(
    isRecording: bool,
    hasRecorder: bool,
    timerPending: bool,
    audioChunks: seq<Chunk>,
    audioBlob: Option<Payload>,
    submitEnabled: bool,
    loading: bool,
    status: Status,
    fileInput: Option<FileInfo>,
    view: Option<View>)

  /** The state after construction, with the submit button disabled and the
      spinner hidden as the page starts. */
  const Initial: State := State(false, false, false, [], None, false, false, Blank, None, None)

  /** What holds between events. */
  predicate Invariant(s: State) {
    && (s.isRecording ==> s.hasRecorder && s.timerPending)
    && (s.submitEnabled <==> s.audioBlob.Some?)
    && (s.audioBlob.Some? && s.audioBlob.value.Upload? ==> CheckFile(s.audioBlob.value.file) == Accepted)
    && (s.fileInput.Some? ==> CheckFile(s.fileInput.value) == Accepted)
    && !s.loading
  }

  /** Where `startRecording` can fail: `getUserMedia`, `new MediaRecorder`,
      or `mediaRecorder.start`. */
  datatype FailurePoint = AtGetUserMedia | AtRecorderConstruction | AtRecorderStart

  datatype StartOutcome = Granted | Failed(at: FailurePoint, errName: string)

  const RecordingText: string := "Recording... Speak now! (5 seconds)"
  const ProcessingText: string := "Processing recording..."
  const CompletedText: string := "Recording completed! Ready to transcribe."

  /** `startRecording` when microphone, recorder and `start` all succeed. */
  function Started(s: State): State {
    s.(isRecording := true, hasRecorder := true, timerPending := true, audioChunks := [],
       status := Message(RecordingText))
  }

  /** `startRecording` when it throws: the fields it had assigned before the
      throw keep their new values, and the status shows the message. */
  function StartFailedAt(s: State, at: FailurePoint, errName: string): State {
    var shown := s.(status := Message("Error: " + MicErrorMessage(errName)));
    if at == AtRecorderStart then shown.(hasRecorder := true, audioChunks := []) else shown
  }

  function StartWith(s: State, mic: StartOutcome): State {
    match mic
    case Granted => Started(s)
    case Failed(at, errName) => StartFailedAt(s, at, errName)
  }

  /** `stopRecording`. */
  function Stopped(s: State): State {
    if s.hasRecorder && s.isRecording then
      s.(isRecording := false, timerPending := false, status := Message(ProcessingText))
    else s
  }

  /** `toggleRecording`. */
  function Toggled(s: State, mic: StartOutcome): State {
    if !s.isRecording then StartWith(s, mic) else Stopped(s)
  }

  /** The callback of the five-second timer. */
  function TimerFiredIn(s: State): State {
    if s.isRecording then Stopped(s) else s
  }

  /** `ondataavailable`: an empty chunk is dropped. */
  function DataAvailable(s: State, c: Chunk): State {
    if |c.bytes| > 0 then s.(audioChunks := s.audioChunks + [c]) else s
  }

  /** `onstop`: the chunks become the staged payload. */
  function RecorderStopped(s: State): State {
    s.(audioBlob := Some(Recording(s.audioChunks, "audio/wav")), submitEnabled := true,
       status := Message(CompletedText))
  }

  /** The input's `change` event: the input now holds `file`
      (`event.target.files[0]`), and `handleFileUpload` runs. */
  function FileChosen(s: State, file: Option<FileInfo>): State {
    var chosen := s.(fileInput := file);
    match file
    case None => chosen
    case Some(f) =>
      match CheckFile(f)
      case InvalidType => chosen.(status := Message(InvalidTypeMessage), fileInput := None)
      case TooLarge => chosen.(status := Message(TooLargeMessage), fileInput := None)
      case Accepted => chosen.(audioBlob := Some(Upload(f)), submitEnabled := true, status := FileSelected(f.name, f.size))
  }

  /** The request `submitAudio` makes, if any. */
  function SubmitRequest(s: State): Option<Request> {
    match s.audioBlob
    case None => None
    case Some(p) => Some(Request("file", SubmitFilename(p), p))
  }

  /** `submitAudio` once the request has ended. */
  function Submitted(s: State, o: FetchOutcome): State {
    if s.audioBlob.None? then s else s.(view := Some(ResultView(o)), loading := false)
  }

  /** The events the page delivers to the controller. */
  datatype Event =
    | ClickRecord(mic: StartOutcome)
    | TimerFires
    | ChunkArrives(chunk: Chunk)
    | RecorderStops
    | FileInputChanges(file: Option<FileInfo>)
    | ClickSubmit(outcome: FetchOutcome)

  function Step(s: State, e: Event): State {
    match e
    case ClickRecord(mic) => Toggled(s, mic)
    case TimerFires => TimerFiredIn(s)
    case ChunkArrives(c) => DataAvailable(s, c)
    case RecorderStops => RecorderStopped(s)
    case FileInputChanges(f) => FileChosen(s, f)
    case ClickSubmit(o) => Submitted(s, o)
  }

  /** The state after the events, in order. */
  function Run(s: State, events: seq<Event>): State
    decreases |events|
  {
    if events == [] then s else Step(Run(s, events[..|events| - 1]), events[|events| - 1])
  }

  // ---------------------------------------------------------------------
  // Properties of the events
  // ---------------------------------------------------------------------

  /** Every event keeps the invariant. */
  lemma StepKeepsInvariant(s: State, e: Event)
    requires Invariant(s)
    ensures Invariant(Step(s, e))
  {
  }

  /** Running one more event is one more step. */
  lemma RunSnoc(s: State, events: seq<Event>, e: Event)
    ensures Run(s, events + [e]) == Step(Run(s, events), e)
  {
    assert (events + [e])[..|events|] == events;
  }

  /** Every sequence of events from the initial state keeps the invariant. */
  lemma {:induction false} RunKeepsInvariant(s: State, events: seq<Event>)
    requires Invariant(s)
    ensures Invariant(Run(s, events))
    decreases |events|
  {
    if events != [] {
      RunKeepsInvariant(s, events[..|events| - 1]);
      StepKeepsInvariant(Run(s, events[..|events| - 1]), events[|events| - 1]);
    }
  }

  /** The toggle starts exactly when not recording and stops otherwise. */
  lemma ToggleDispatch(s: State, mic: StartOutcome)
    requires Invariant(s)
    ensures !s.isRecording ==> Toggled(s, mic) == StartWith(s, mic)
    ensures s.isRecording ==> Toggled(s, mic) == Stopped(s)
    ensures Toggled(s, mic).isRecording <==> !s.isRecording && mic == Granted
  {
  }

  /** `stopRecording` changes nothing unless a recorder exists and recording
      is on; when it acts, recording is off and no timer is pending, and
      everything but the status is as before. */
  lemma StopGuard(s: State)
    ensures Stopped(s) == s <==> !(s.hasRecorder && s.isRecording)
    ensures Invariant(s) ==> !Stopped(s).isRecording
    ensures s.hasRecorder && s.isRecording ==>
      !Stopped(s).timerPending && Stopped(s) == s.(isRecording := false, timerPending := false, status := Message(ProcessingText))
  {
  }

  /** The timer stops a running recording, and firing after a manual stop
      changes nothing. */
  lemma TimerAfterStop(s: State)
    requires Invariant(s)
    ensures TimerFiredIn(s) == Stopped(s)
    ensures TimerFiredIn(Stopped(s)) == Stopped(s)
  {
  }

  /** A failed start never turns recording on and leaves the staged payload
      and the submit button alone. */
  lemma StartFailureStaysIdle(s: State, at: FailurePoint, errName: string)
    ensures var t := StartFailedAt(s, at, errName);
      t.isRecording == s.isRecording && t.timerPending == s.timerPending
      && t.audioBlob == s.audioBlob && t.submitEnabled == s.submitEnabled
      && t.status == Message("Error: " + MicErrorMessage(errName))
  {
  }

  /** Recording starts only on a click with the microphone granted, and ends
      only on a click or the timer. */
  lemma RecordingTransitions(s: State, e: Event)
    ensures !s.isRecording && Step(s, e).isRecording ==> e == ClickRecord(Granted)
    ensures s.isRecording && !Step(s, e).isRecording ==> e.ClickRecord? || e == TimerFires
  {
  }

  /** A rejected file changes only the status line and leaves the input
      empty, so it can never be submitted; an accepted one stays in the
      input, becomes the staged payload and enables submission. */
  lemma FileChosenEffect(s: State, f: FileInfo)
    ensures CheckFile(f) != Accepted ==>
      FileChosen(s, Some(f)) == s.(status := FileChosen(s, Some(f)).status, fileInput := None)
    ensures CheckFile(f) == InvalidType ==> FileChosen(s, Some(f)).status == Message(InvalidTypeMessage)
    ensures CheckFile(f) == TooLarge ==> FileChosen(s, Some(f)).status == Message(TooLargeMessage)
    ensures CheckFile(f) == Accepted ==>
      FileChosen(s, Some(f)).audioBlob == Some(Upload(f)) && FileChosen(s, Some(f)).submitEnabled
      && FileChosen(s, Some(f)).fileInput == Some(f)
  {
  }

  /** The staged payload is replaced wholesale or not at all: by the recorded
      chunks when the recorder stops, by an accepted file, and by nothing
      else. */
  lemma PayloadOwnership(s: State, e: Event)
    ensures var t := Step(s, e);
      t.audioBlob == s.audioBlob
      || (e == RecorderStops && t.audioBlob == Some(Recording(s.audioChunks, "audio/wav")))
      || (e.FileInputChanges? && e.file.Some? && CheckFile(e.file.value) == Accepted
          && t.audioBlob == Some(Upload(e.file.value)))
  {
    match e
    case ClickRecord(mic) =>
      assert Toggled(s, mic).audioBlob == s.audioBlob;
    case FileInputChanges(f) =>
      if f.Some? && CheckFile(f.value) != Accepted {
        assert FileChosen(s, f).audioBlob == s.audioBlob;
      }
    case _ =>
  }

  /** Submitting with nothing staged sends nothing and changes nothing; with
      a payload, the request carries it under `file` with the file's own
      name or `audio.wav`, the result is shown and the spinner is hidden,
      and the payload stays staged. */
  lemma SubmitEffect(s: State, o: FetchOutcome)
    ensures s.audioBlob.None? <==> SubmitRequest(s).None?
    ensures s.audioBlob.None? ==> Submitted(s, o) == s
    ensures s.audioBlob.Some? ==>
      && SubmitRequest(s).value.field == "file"
      && SubmitRequest(s).value.payload == s.audioBlob.value
      && SubmitRequest(s).value.filename == (if s.audioBlob.value.Upload? then s.audioBlob.value.file.name else "audio.wav")
      && Submitted(s, o).view == Some(ResultView(o))
      && !Submitted(s, o).loading
      && Submitted(s, o).audioBlob == s.audioBlob
  {
  }

  /** Start, speak, let the timer stop the recording, and submit: the staged
      payload is the recorded chunks and the transcript is shown. */
  lemma RecordAndSubmitScenario(c1: Chunk, c2: Chunk)
    requires |c1.bytes| > 0 && |c2.bytes| > 0
    ensures var recording := [ClickRecord(Granted), ChunkArrives(c1), TimerFires, ChunkArrives(c2), RecorderStops];
      var reply := Json(None, None, Some("hello world"), Some("en"), Some(0.97));
      && Run(Initial, recording).audioBlob == Some(Recording([c1, c2], "audio/wav"))
      && !Run(Initial, recording).isRecording
      && Run(Initial, recording + [ClickSubmit(Responded(200, Some(reply)))]).view
         == Some(TranscriptView("hello world", "en", Some(0.97)))
  {
    var e1, e2, e3, e4, e5 := ClickRecord(Granted), ChunkArrives(c1), TimerFires, ChunkArrives(c2), RecorderStops;
    var reply := Json(None, None, Some("hello world"), Some("en"), Some(0.97));
    var e6 := ClickSubmit(Responded(200, Some(reply)));
    RunSnoc(Initial, [], e1);
    assert Run(Initial, [e1]).isRecording && Run(Initial, [e1]).audioChunks == [] by {
      assert [] + [e1] == [e1];
    }
    RunSnoc(Initial, [e1], e2);
    assert Run(Initial, [e1, e2]).audioChunks == [c1] by {
      assert [e1] + [e2] == [e1, e2];
    }
    RunSnoc(Initial, [e1, e2], e3);
    assert !Run(Initial, [e1, e2, e3]).isRecording && Run(Initial, [e1, e2, e3]).audioChunks == [c1] by {
      assert [e1, e2] + [e3] == [e1, e2, e3];
    }
    RunSnoc(Initial, [e1, e2, e3], e4);
    assert !Run(Initial, [e1, e2, e3, e4]).isRecording && Run(Initial, [e1, e2, e3, e4]).audioChunks == [c1, c2] by {
      assert [e1, e2, e3] + [e4] == [e1, e2, e3, e4];
    }
    RunSnoc(Initial, [e1, e2, e3, e4], e5);
    assert [e1, e2, e3, e4] + [e5] == [e1, e2, e3, e4, e5];
    RunSnoc(Initial, [e1, e2, e3, e4, e5], e6);
  }

  // ---------------------------------------------------------------------
  // The controller object
  // ---------------------------------------------------------------------

  datatype Dispatch = CalledStart | CalledStop

  class VoiceTranscriber {
    var isRecording: bool
    var hasRecorder: bool
    var timerPending: bool
    var audioChunks: seq<Chunk>
    var audioBlob: Option<Payload>
    var submitEnabled: bool
    var loading: bool
    var status: Status
    var fileInput: Option<FileInfo>
    var view: Option<View>

    function Snapshot(): State
      reads this
    {
      State(isRecording, hasRecorder, timerPending, audioChunks, audioBlob, submitEnabled, loading,
            status, fileInput, view)
    }

    ghost predicate Valid()
      reads this
    {
      Invariant(Snapshot())
    }

    constructor ()
      ensures Valid() && Snapshot() == Initial
    {
      isRecording, hasRecorder, timerPending := false, false, false;
      audioChunks, audioBlob := [], None;
      submitEnabled, loading := false, false;
      status, fileInput, view := Blank, None, None;
    }

    method Toggle(mic: StartOutcome) returns (d: Dispatch)
      requires Valid()
      modifies this
      ensures Valid() && Snapshot() == Toggled(old(Snapshot()), mic)
      ensures d == if old(isRecording) then CalledStop else CalledStart
    {
      if !isRecording {
        d := CalledStart;
        match mic {
          case Granted => StartSucceeded();
          case Failed(at, errName) => StartFailed(at, errName);
        }
      } else {
        d := CalledStop;
        Stop();
      }
    }

    method StartSucceeded()
      requires Valid()
      modifies this
      ensures Valid() && Snapshot() == Started(old(Snapshot()))
    {
      hasRecorder := true;
      audioChunks := [];
      isRecording := true;
      status := Message(RecordingText);
      timerPending := true;
    }

    method StartFailed(at: FailurePoint, errName: string)
      requires Valid()
      modifies this
      ensures Valid() && Snapshot() == StartFailedAt(old(Snapshot()), at, errName)
    {
      if at == AtRecorderStart {
        hasRecorder := true;
        audioChunks := [];
      }
      status := Message("Error: " + MicErrorMessage(errName));
    }

    method Stop()
      requires Valid()
      modifies this
      ensures Valid() && Snapshot() == Stopped(old(Snapshot()))
    {
      if hasRecorder && isRecording {
        if timerPending {
          timerPending := false;
        }
        isRecording := false;
        status := Message(ProcessingText);
      }
    }

    method TimerFired()
      requires Valid()
      modifies this
      ensures Valid() && Snapshot() == TimerFiredIn(old(Snapshot()))
    {
      if isRecording {
        Stop();
      }
    }

    method OnDataAvailable(c: Chunk)
      requires Valid()
      modifies this
      ensures Valid() && Snapshot() == DataAvailable(old(Snapshot()), c)
    {
      if |c.bytes| > 0 {
        audioChunks := audioChunks + [c];
      }
    }

    method OnRecorderStop()
      requires Valid()
      modifies this
      ensures Valid() && Snapshot() == RecorderStopped(old(Snapshot()))
    {
      audioBlob := Some(Recording(audioChunks, "audio/wav"));
      submitEnabled := true;
      status := Message(CompletedText);
    }

    /** The input's `change` event: the input holds `file`, then
        `handleFileUpload` runs. */
    method HandleFileUpload(file: Option<FileInfo>)
      requires Valid()
      modifies this
      ensures Valid() && Snapshot() == FileChosen(old(Snapshot()), file)
    {
      fileInput := file;
      if file.Some? {
        var f := file.value;
        if f.mime !in AllowedTypes && !MatchesExtensionPattern(f.name) {
          status := Message(InvalidTypeMessage);
          fileInput := None;
          return;
        }
        if f.size > MaxUploadSize {
          status := Message(TooLargeMessage);
          fileInput := None;
          return;
        }
        audioBlob := Some(Upload(f));
        submitEnabled := true;
        status := FileSelected(f.name, f.size);
      }
    }

    /** `sent` is the request posted, `None` when the page only alerts. */
    method Submit(outcome: FetchOutcome) returns (sent: Option<Request>)
      requires Valid()
      modifies this
      ensures Valid() && Snapshot() == Submitted(old(Snapshot()), outcome)
      ensures sent == SubmitRequest(old(Snapshot()))
    {
      if audioBlob.None? {
        return None;
      }
      loading := true;
      var filename := "audio.wav";
      if audioBlob.value.Upload? {
        filename := audioBlob.value.file.name;
      }
      sent := Some(Request("file", filename, audioBlob.value));
      var shown: View;
      match outcome {
        case Unreachable =>
          shown := ErrorView("Connection Error", ConnectionMessage);
        case Responded(code, body) =>
          if body.None? {
            shown := ErrorView("Connection Error", ConnectionMessage);
          } else if 200 <= code <= 299 {
            shown := Display(body.value);
          } else {
            var message := FallbackMessage;
            if Truthy(body.value.message) {
              message := body.value.message.value;
            }
            shown := ErrorView("Transcription Failed", message);
          }
      }
      view := Some(shown);
      loading := false;
    }
  }
}
