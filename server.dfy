/** The Flask side of app.py: which filenames the endpoint accepts, how an
    upload is prepared for the speech model, and the `/transcribe` handler
    with its cascade of early returns and its clean-up of temporary files.

    The file system, ffmpeg and the Whisper model are outside the model:
    whatever they do reaches the handler as a parameter (`SaveOutcome`,
    `conversionSucceeds`, `ModelRun`), and the files the handler asks to be
    removed are returned as a sequence of paths. */
module Server {
  import opened Text

  const UploadFolder: string := "temp_uploads"
  const AllowedExtensions: set<string> := {"wav", "mp3", "m4a", "flac", "ogg", "webm"}

  /** The list the format error names. Python gives no order for the
      elements of a set, so the model fixes this one. */
  const SupportedFormats: string := "wav, mp3, m4a, flac, ogg, webm"

  // ---------------------------------------------------------------------
  // allowed_file
  // ---------------------------------------------------------------------

  /** `allowed_file`: the name contains a dot and what follows its last dot,
      lower-cased, is one of the allowed extensions. */
  predicate AllowedFile(filename: string) {
    '.' in filename && Lower(RSplitOnce(filename, '.')[1]) in AllowedExtensions
  }

  /** A name is allowed exactly when the part after its last dot, ignoring
      case, is an allowed extension. (Every name that contains a dot has this
      form, by `RSplitOnce`.) */
  lemma AllowedFileAfterLastDot(stem: string, ext: string)
    requires '.' !in ext
    ensures AllowedFile(stem + "." + ext) <==> Lower(ext) in AllowedExtensions
  {
    var f := stem + "." + ext;
    assert f[|stem|] == '.' && f[|stem| + 1..] == ext;
    LastIndexOfUnique(f, '.', |stem|);
  }

  /** Case does not matter: any name ending in `.WAV` is allowed. */
  lemma AllowedFileUpperCaseAfterLastDot(stem: string)
    ensures AllowedFile(stem + ".WAV")
  {
    assert stem + "." + "WAV" == stem + ".WAV";
    AllowedFileAfterLastDot(stem, "WAV");
    assert Lower("WAV") == "wav";
  }

  /** A name without a dot, or with nothing after its last dot, is refused. */
  lemma AllowedFileNeedsExtension()
    ensures !AllowedFile("wav") && !AllowedFile("") && !AllowedFile("x.")
  {
    var x := "x.";
    LastIndexOfUnique(x, '.', 1);
    assert RSplitOnce(x, '.')[1] == "";
  }

  /** An allowed extension before the last dot does not help: a name
      `<stem>.wav.<ext>` is refused when `ext` is not allowed. */
  lemma AllowedFileIgnoresInnerExtension(stem: string, ext: string)
    requires '.' !in ext && Lower(ext) !in AllowedExtensions
    ensures !AllowedFile(stem + ".wav." + ext)
  {
    assert stem + ".wav." + ext == (stem + ".wav") + "." + ext;
    AllowedFileAfterLastDot(stem + ".wav", ext);
  }

  // ---------------------------------------------------------------------
  // prepare_audio_for_whisper
  // ---------------------------------------------------------------------

  /** `os.path.join(UPLOAD_FOLDER, name)`: the name is appended as the last
      path component, unless it is absolute, when it replaces the folder. */
  function UploadPath(name: string): (p: string)
    ensures p != []
    ensures EndsWith(p, name)
    ensures '/' !in name ==> p == UploadFolder + "/" + name && LastIndexOf(p, '/') == Some(|p| - |name| - 1)
  {
    if name != [] && name[0] == '/' then name
    else
      var p := UploadFolder + "/" + name;
      assert p[|p| - |name|..] == name;
      if '/' in name then p
      else
        LastIndexOfUnique(p, '/', |UploadFolder|);
        p
  }

  /** `cleanup_temp_file(p)` acts only on a non-empty path. */
  function Cleanup(p: string): seq<string> {
    if p == "" then [] else [p]
  }

  /** `os.path.splitext(p)[1].lower() == '.wav'`. */
  predicate IsWavPath(p: string) {
    Lower(SplitExt(p).1) == ".wav"
  }

  /** `p.rsplit('.', 1)[0] + '_converted.wav'`. */
  function ConvertedPath(p: string): string {
    RSplitOnce(p, '.')[0] + "_converted.wav"
  }

  /** What `prepare_audio_for_whisper` hands to the model, and which files it
      asked to be removed on the way. */
  datatype Prepared = Prepared(path: string, removed: seq<string>)

  /** `prepare_audio_for_whisper`, with the outcome of the ffmpeg conversion
      as a parameter. */
  function PrepareAudio(filepath: string, conversionSucceeds: bool): Prepared {
    if IsWavPath(filepath) then Prepared(filepath, [])
    else if conversionSucceeds then Prepared(ConvertedPath(filepath), Cleanup(filepath))
    else Prepared(filepath, [])
  }

  /** A path whose extension is `.wav` is a WAV path. */
  lemma WavExtensionIsWavPath(q: string)
    requires SplitExt(q).1 == ".wav"
    ensures IsWavPath(q)
  {
    assert Lower(".wav") == ".wav";
  }

  /** The converted path always has the extension `.wav`. */
  lemma ConvertedPathIsWav(p: string)
    ensures IsWavPath(ConvertedPath(p))
  {
    var stem := RSplitOnce(p, '.')[0];
    var tail := "_converted.wav";
    var q := stem + tail;
    var d := |stem| + 10;
    assert q[|stem|..] == tail;
    assert q[d..] == ".wav" by { assert q[d..] == tail[10..]; }
    assert q[d + 1..] == "wav" by { assert q[d + 1..] == tail[11..]; }
    SplitExtAtLastDot(q, d, |stem|);
    WavExtensionIsWavPath(q);
  }

  /** The path handed to the model is the input exactly when the input already
      is a WAV path or the conversion failed; otherwise it is the converted
      WAV file and the original was removed. */
  lemma PrepareAudioResult(filepath: string, conversionSucceeds: bool)
    ensures var r := PrepareAudio(filepath, conversionSucceeds);
      (r.path != filepath <==> !IsWavPath(filepath) && conversionSucceeds)
      && (r.path != filepath ==> r.path == ConvertedPath(filepath) && r.removed == Cleanup(filepath))
      && (r.path == filepath ==> r.removed == [])
      && (IsWavPath(r.path) || r.path == filepath)
  {
    ConvertedPathIsWav(filepath);
  }

  /** What the handler relies on about the prepared file: it has a name,
      and the only file removed on the way is the upload, removed exactly
      when the model is given a different file. */
  lemma PreparedFiles(filepath: string, conversionSucceeds: bool)
    requires filepath != ""
    ensures var r := PrepareAudio(filepath, conversionSucceeds);
      r.path != "" && (r.path == filepath ==> r.removed == [])
      && (r.path != filepath ==> r.removed == [filepath])
  {
  }

  /** An upload named `<stem>.wav` is handed to the model as it is, whatever
      its content, and nothing is removed on the way. */
  lemma WavUploadNotConverted(stem: string, ok: bool)
    requires stem != "" && stem[0] != '.' && '/' !in stem
    ensures PrepareAudio(UploadPath(stem + ".wav"), ok) == Prepared(UploadPath(stem + ".wav"), [])
  {
    var name := stem + ".wav";
    var p := UploadPath(name);
    assert name[0] == stem[0];
    assert p == UploadFolder + "/" + name;
    var d := |p| - 4;
    assert p[13..] == name;
    assert p[d..] == ".wav" && p[d + 1..] == "wav";
    SplitExtAtLastDot(p, d, 13);
    WavExtensionIsWavPath(p);
  }

  /** A converted file is never converted a second time. */
  lemma PrepareAudioConvertsOnce(filepath: string, ok: bool, ok2: bool)
    ensures var r := PrepareAudio(filepath, ok);
      r.path != filepath ==> PrepareAudio(r.path, ok2) == Prepared(r.path, [])
  {
    ConvertedPathIsWav(filepath);
  }

  // ---------------------------------------------------------------------
  // transcribe
  // ---------------------------------------------------------------------

  datatype Body =
    | Failure(error: string, message: string)
    | Transcription(text: string, transcription: string, language: string, probability: real)

  datatype Response = Response(status: nat, body: Body)

  /** What `file.save` and the `os.path.exists` check after it report. */
  datatype SaveOutcome = Saved | NotOnDisk | SaveRaised(reason: string)

  datatype Info = Info(language: string, probability: real)

  /** What the speech model does: produce segments, raise from
      `model.transcribe`, or raise while its segments are consumed. */
  datatype ModelRun =
    | Segments(texts: seq<string>, info: Info)
    | TranscribeRaised(reason: string)
    | SegmentsRaised(reason: string)

  /** The upload `request.files` yields: the `file` field, else `audio_file`.
      `files` maps each multipart field name to its filename. */
  function SelectedFilename(files: map<string, string>): Option<string> {
    if "file" in files then Some(files["file"])
    else if "audio_file" in files then Some(files["audio_file"])
    else None
  }

  const NoFileProvided := Response(400, Failure("No audio file provided", "Please record or upload an audio file"))
  const NoFileSelected := Response(400, Failure("No audio file selected", "Please record or select an audio file"))
  const FormatNotSupported := Response(400, Failure("Audio format not supported", "Supported formats: " + SupportedFormats))
  const UploadFailed := Response(500, Failure("File upload failed", "Could not save the audio file"))

  function ServerError(reason: string): Response {
    Response(500, Failure("Server error", "An unexpected error occurred: " + reason))
  }

  function ModelFailed(reason: string): Response {
    Response(500, Failure("Transcription failed", "Could not transcribe audio: " + reason))
  }

  datatype Checked = Pass(filename: string) | Reject(response: Response)

  /** The validation that runs before anything is written to disk, in the
      handler's order: missing field, empty filename, refused extension. */
  function CheckUpload(files: map<string, string>): Checked {
    match SelectedFilename(files)
    case None => Reject(NoFileProvided)
    case Some(name) =>
      if name == "" then Reject(NoFileSelected)
      else if !AllowedFile(name) then Reject(FormatNotSupported)
      else Pass(name)
  }

  /** A request passes exactly when its selected filename is allowed; the
      empty-name check only decides which message a 400 carries. */
  lemma CheckUploadIff(files: map<string, string>)
    ensures CheckUpload(files).Pass? <==> SelectedFilename(files).Some? && AllowedFile(SelectedFilename(files).value)
    ensures CheckUpload(files).Reject? ==> CheckUpload(files).response.status == 400
  {
  }

  /** The checks run in order: a missing field wins over everything, an
      empty name over the extension check, and `file` over `audio_file`. */
  lemma CheckUploadOrder(files: map<string, string>)
    ensures "file" !in files && "audio_file" !in files ==> CheckUpload(files) == Reject(NoFileProvided)
    ensures SelectedFilename(files) == Some("") ==> CheckUpload(files) == Reject(NoFileSelected) && !AllowedFile("")
    ensures "file" in files && files["file"] != "" ==>
      CheckUpload(files) == (if AllowedFile(files["file"]) then Pass(files["file"]) else Reject(FormatNotSupported))
  {
  }

  /** The text the loop of the handler accumulates: every segment followed
      by one space. */
  function Spaced(texts: seq<string>): string {
    if texts == [] then "" else Spaced(texts[..|texts| - 1]) + texts[|texts| - 1] + " "
  }

  /** The transcript the handler returns. */
  function Transcript(texts: seq<string>): string {
    Strip(Spaced(texts))
  }

  lemma {:induction false} SpacedIsJoinPlusSpace(texts: seq<string>)
    requires texts != []
    ensures Spaced(texts) == Join(texts, " ") + " "
    decreases |texts|
  {
    if |texts| > 1 {
      SpacedIsJoinPlusSpace(texts[..|texts| - 1]);
    } else {
      assert texts[..0] == [];
    }
  }

  /** The transcript is the segments joined by single spaces, stripped. */
  lemma TranscriptIsStrippedJoin(texts: seq<string>)
    ensures Transcript(texts) == Strip(Join(texts, " "))
    ensures Transcript(texts) == Strip(Transcript(texts))
  {
    if texts != [] {
      SpacedIsJoinPlusSpace(texts);
      StripTrailingSpace(Join(texts, " "));
    }
    StripIdempotent(Spaced(texts));
  }

  /** Whisper's segments start with a space, so two segments are joined
      by two spaces. */
  lemma TranscriptOfTwoSegments()
    ensures Transcript([" hello", " world"]) == "hello  world"
  {
    var texts := [" hello", " world"];
    var joined := " hello  world";
    assert Join(texts, " ") == joined by {
      assert texts[..1] == [" hello"];
    }
    assert TrimEnd(joined) == joined by {
      assert joined[|joined| - 1] == 'd';
      TrimEndOfUnspaced(joined);
    }
    assert TrimStart(joined) == "hello  world" by {
      assert joined[1..] == "hello  world";
      assert joined[1..][0] == 'h';
      TrimStartOfUnspaced(joined[1..]);
    }
    TranscriptIsStrippedJoin(texts);
  }

  /** The loop at the end of the handler. */
  method CollectTranscript(texts: seq<string>) returns (text: string)
    ensures text == Transcript(texts)
  {
    var acc := "";
    for i := 0 to |texts|
      invariant acc == Spaced(texts[..i])
    {
      assert texts[..i + 1][..i] == texts[..i];
      acc := acc + texts[i] + " ";
    }
    assert texts[..|texts|] == texts;
    text := Strip(acc);
  }

  /** The clean-up in both the success path and the exception handler:
      the upload, then the converted file if there is one distinct from it. */
  function RemoveTemporaries(filepath: string, wav: Option<string>): (r: seq<string>)
    ensures forall p :: p in r ==> p == filepath || (wav.Some? && p == wav.value)
    ensures filepath != "" ==> filepath in r
    ensures wav.Some? && wav.value != "" ==> wav.value in r
    ensures wav == Some(filepath) ==> r == Cleanup(filepath)
  {
    Cleanup(filepath) + (if wav.Some? && wav.value != "" && wav.value != filepath then [wav.value] else [])
  }

  /** The files removed after preparation, on top of what preparation
      removed: exactly the upload and the prepared file. */
  lemma RemovedAfterPreparing(filepath: string, wav: string, prior: seq<string>)
    requires filepath != "" && wav != "" && (prior == [] || prior == [filepath])
    ensures var r := prior + RemoveTemporaries(filepath, Some(wav));
      (forall p :: p in r ==> p == filepath || p == wav) && filepath in r && wav in r
  {
    var r := prior + RemoveTemporaries(filepath, Some(wav));
    if wav == filepath {
      assert r == prior + [filepath];
    } else {
      assert r == prior + [filepath, wav];
    }
  }

  /** The file the model reads for an upload saved under `secured`. */
  function StagedPath(secured: string, conversionSucceeds: bool): string {
    PrepareAudio(UploadPath(secured), conversionSucceeds).path
  }

  /** The handler from the moment the upload is on disk at `filepath`, as
      written: prepare it, run the model, collect the text, clean up. */
  method TranscribeSaved(filepath: string, conversionSucceeds: bool, run: ModelRun)
    returns (resp: Response, removed: seq<string>)
    requires filepath != ""
    ensures resp.status == 200 <==> run.Segments?
    ensures resp.status != 200 ==> resp.status == 500
    ensures resp.status == 200 ==>
      resp.body == Transcription(Transcript(run.texts), Transcript(run.texts), run.info.language, run.info.probability)
    ensures forall p :: p in removed ==> p == filepath || p == PrepareAudio(filepath, conversionSucceeds).path
    ensures !run.TranscribeRaised? ==>
      filepath in removed && PrepareAudio(filepath, conversionSucceeds).path in removed
    ensures run.TranscribeRaised? ==>
      resp == ModelFailed(run.reason) && PrepareAudio(filepath, conversionSucceeds).path !in removed
    ensures run.SegmentsRaised? ==> resp == ServerError(run.reason)
  {
    var prepared := PrepareAudio(filepath, conversionSucceeds);
    PreparedFiles(filepath, conversionSucceeds);
    var wavFilepath := prepared.path;
    removed := prepared.removed;
    match run {
      case TranscribeRaised(reason) =>
        assert wavFilepath !in removed && forall p :: p in removed ==> p == filepath by {
          if wavFilepath != filepath {
            assert removed == [filepath];
          }
        }
        resp := ModelFailed(reason);
      case SegmentsRaised(reason) =>
        RemovedAfterPreparing(filepath, wavFilepath, removed);
        removed := removed + RemoveTemporaries(filepath, Some(wavFilepath));
        resp := ServerError(reason);
      case Segments(texts, info) =>
        var text := CollectTranscript(texts);
        RemovedAfterPreparing(filepath, wavFilepath, removed);
        removed := removed + RemoveTemporaries(filepath, Some(wavFilepath));
        resp := Response(200, Transcription(text, text, info.language, info.probability));
    }
  }

  /** The same with the clean-up that the exception handler performs also
      done when `model.transcribe` raises. */
  method TranscribeSavedWithCleanup(filepath: string, conversionSucceeds: bool, run: ModelRun)
    returns (resp: Response, removed: seq<string>)
    requires filepath != ""
    ensures resp.status == 200 <==> run.Segments?
    ensures resp.status != 200 ==> resp.status == 500
    ensures resp.status == 200 ==>
      resp.body == Transcription(Transcript(run.texts), Transcript(run.texts), run.info.language, run.info.probability)
    ensures forall p :: p in removed ==> p == filepath || p == PrepareAudio(filepath, conversionSucceeds).path
    ensures filepath in removed && PrepareAudio(filepath, conversionSucceeds).path in removed
    ensures run.TranscribeRaised? ==> resp == ModelFailed(run.reason)
    ensures run.SegmentsRaised? ==> resp == ServerError(run.reason)
  {
    var prepared := PrepareAudio(filepath, conversionSucceeds);
    PreparedFiles(filepath, conversionSucceeds);
    var wavFilepath := prepared.path;
    RemovedAfterPreparing(filepath, wavFilepath, prepared.removed);
    removed := prepared.removed + RemoveTemporaries(filepath, Some(wavFilepath));
    match run {
      case TranscribeRaised(reason) =>
        resp := ModelFailed(reason);
      case SegmentsRaised(reason) =>
        resp := ServerError(reason);
      case Segments(texts, info) =>
        var text := CollectTranscript(texts);
        resp := Response(200, Transcription(text, text, info.language, info.probability));
    }
  }

  /** The `/transcribe` handler as written. `secured` is what
      `secure_filename` makes of the uploaded filename. */
  method Transcribe(files: map<string, string>, secured: string, save: SaveOutcome,
                    conversionSucceeds: bool, run: ModelRun)
    returns (resp: Response, removed: seq<string>)
    ensures CheckUpload(files).Reject? ==> resp == CheckUpload(files).response && removed == []
    ensures CheckUpload(files).Pass? ==> resp.status == 200 || resp.status == 500
    ensures resp.status == 200 <==> CheckUpload(files).Pass? && save.Saved? && run.Segments?
    ensures resp.status == 200 ==>
      resp.body == Transcription(Transcript(run.texts), Transcript(run.texts), run.info.language, run.info.probability)
    ensures forall p :: p in removed ==> p == UploadPath(secured) || p == StagedPath(secured, conversionSucceeds)
    ensures CheckUpload(files).Pass? && save.SaveRaised? ==>
      resp == ServerError(save.reason) && removed == [UploadPath(secured)]
    ensures CheckUpload(files).Pass? && save.NotOnDisk? ==> resp == UploadFailed && removed == []
    ensures CheckUpload(files).Pass? && save.Saved? && !run.TranscribeRaised? ==>
      UploadPath(secured) in removed && StagedPath(secured, conversionSucceeds) in removed
    ensures CheckUpload(files).Pass? && save.Saved? && run.TranscribeRaised? ==>
      resp == ModelFailed(run.reason) && StagedPath(secured, conversionSucceeds) !in removed
    ensures CheckUpload(files).Pass? && save.Saved? && run.SegmentsRaised? ==> resp == ServerError(run.reason)
  {
    var selected := SelectedFilename(files);
    if selected.None? {
      return NoFileProvided, [];
    }
    var filename := selected.value;
    if filename == "" {
      return NoFileSelected, [];
    }
    if !AllowedFile(filename) {
      return FormatNotSupported, [];
    }
    var filepath := UploadPath(secured);
    match save {
      case SaveRaised(reason) =>
        return ServerError(reason), RemoveTemporaries(filepath, None);
      case NotOnDisk =>
        return UploadFailed, [];
      case Saved =>
    }
    resp, removed := TranscribeSaved(filepath, conversionSucceeds, run);
  }

  /** A request for `clip.wav` passes every check before the save. */
  lemma ClipPassesChecks()
    ensures CheckUpload(map["file" := "clip.wav"]) == Pass("clip.wav")
  {
    assert "clip" + "." + "wav" == "clip.wav";
    AllowedFileAfterLastDot("clip", "wav");
    assert Lower("wav") == "wav";
  }

  /** A request that passes every check (such as one for `clip.wav`), is
      saved under `secured`, and whose audio ffmpeg cannot convert (if asked)
      and the model cannot decode: the handler answers 500, and the saved
      upload is not among the files it removes, so it stays in the upload
      folder. */
  method UndecodableUploadIsKept(files: map<string, string>, secured: string, reason: string)
    returns (resp: Response, removed: seq<string>)
    requires CheckUpload(files).Pass?
    ensures resp == ModelFailed(reason) && UploadPath(secured) !in removed
  {
    assert StagedPath(secured, false) == UploadPath(secured) by {
      PrepareAudioResult(UploadPath(secured), false);
    }
    resp, removed := Transcribe(files, secured, Saved, false, TranscribeRaised(reason));
  }

  /** The handler with the clean-up corrected: every file it saved or
      converted is removed on every path once the upload is on disk. */
  method TranscribeWithCleanup(files: map<string, string>, secured: string, save: SaveOutcome,
                               conversionSucceeds: bool, run: ModelRun)
    returns (resp: Response, removed: seq<string>)
    ensures CheckUpload(files).Reject? ==> resp == CheckUpload(files).response && removed == []
    ensures CheckUpload(files).Pass? ==> resp.status == 200 || resp.status == 500
    ensures resp.status == 200 <==> CheckUpload(files).Pass? && save.Saved? && run.Segments?
    ensures resp.status == 200 ==>
      resp.body == Transcription(Transcript(run.texts), Transcript(run.texts), run.info.language, run.info.probability)
    ensures forall p :: p in removed ==> p == UploadPath(secured) || p == StagedPath(secured, conversionSucceeds)
    ensures CheckUpload(files).Pass? && save.SaveRaised? ==>
      resp == ServerError(save.reason) && removed == [UploadPath(secured)]
    ensures CheckUpload(files).Pass? && save.NotOnDisk? ==> resp == UploadFailed && removed == []
    ensures CheckUpload(files).Pass? && save.Saved? ==>
      UploadPath(secured) in removed && StagedPath(secured, conversionSucceeds) in removed
    ensures CheckUpload(files).Pass? && save.Saved? && run.TranscribeRaised? ==> resp == ModelFailed(run.reason)
    ensures CheckUpload(files).Pass? && save.Saved? && run.SegmentsRaised? ==> resp == ServerError(run.reason)
  {
    var selected := SelectedFilename(files);
    if selected.None? {
      return NoFileProvided, [];
    }
    var filename := selected.value;
    if filename == "" {
      return NoFileSelected, [];
    }
    if !AllowedFile(filename) {
      return FormatNotSupported, [];
    }
    var filepath := UploadPath(secured);
    match save {
      case SaveRaised(reason) =>
        return ServerError(reason), RemoveTemporaries(filepath, None);
      case NotOnDisk =>
        return UploadFailed, [];
      case Saved =>
    }
    resp, removed := TranscribeSavedWithCleanup(filepath, conversionSucceeds, run);
  }
}
