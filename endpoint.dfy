/** How the page and the server fit together: the page's filename pattern
    and the server's `allowed_file` agree, what a recorded clip is sent as,
    and what the page shows for each answer the server gives. */
module Endpoint {
  import opened Text
  import Recorder
  import Server

  /** The JSON the server's body turns into, as the page reads it. The page
      reads the `transcription` field, not `text`. */
  function ToJson(b: Server.Body): Recorder.Json {
    match b
    case Failure(error, message) => Recorder.Json(Some(error), Some(message), None, None, None)
    case Transcription(_, transcription, language, probability) =>
      Recorder.Json(None, None, Some(transcription), Some(language), Some(probability))
  }

  /** The outcome the page sees for a server response. */
  function Delivered(r: Server.Response): Recorder.FetchOutcome {
    Recorder.Responded(r.status, Some(ToJson(r.body)))
  }

  /** The page's pattern and the server's check name the same extensions. */
  lemma SameExtensions()
    ensures Recorder.PatternExtensions == Server.AllowedExtensions
  {
  }

  /** No allowed extension contains a dot. */
  lemma ExtensionsHaveNoDot(e: string)
    requires e in Server.AllowedExtensions
    ensures '.' !in e
  {
  }

  /** A name matching the page's pattern passes `allowed_file`. */
  lemma PatternImpliesAllowedFile(name: string)
    requires Recorder.MatchesExtensionPattern(name)
    ensures Server.AllowedFile(name)
  {
    var e :| e in Recorder.PatternExtensions && EndsWith(Lower(name), "." + e);
    SameExtensions();
    SuffixAllowed(name, e);
  }

  /** A name whose lower-case form ends in a dot and an allowed extension
      is allowed. */
  lemma SuffixAllowed(name: string, e: string)
    requires e in Server.AllowedExtensions && EndsWith(Lower(name), "." + e)
    ensures Server.AllowedFile(name)
  {
    ExtensionsHaveNoDot(e);
    var i := |name| - |e| - 1;
    var l := Lower(name);
    var t := name[i + 1..];
    assert l[i..] == "." + e;
    LowerFrom(name, i);
    assert LowerChar(name[i]) == '.' && Lower(t) == e by {
      assert l[i..][0] == LowerChar(name[i]);
      assert l[i..][1..] == Lower(t);
    }
    DotsSurviveLower(t);
    assert name == name[..i] + "." + t by {
      assert name[..i] + [name[i]] + t == name;
    }
    Server.AllowedFileAfterLastDot(name[..i], t);
  }

  /** A name passing `allowed_file` matches the page's pattern. */
  lemma AllowedFileImpliesPattern(name: string)
    requires Server.AllowedFile(name)
    ensures Recorder.MatchesExtensionPattern(name)
  {
    var i := LastIndexOf(name, '.').value;
    var e := Lower(name[i + 1..]);
    assert e in Recorder.PatternExtensions by {
      assert RSplitOnce(name, '.')[1] == name[i + 1..];
      SameExtensions();
    }
    LowerFrom(name, i);
    EndsWithAt(Lower(name), "." + e, i);
  }

  /** A name passes the page's pattern exactly when it passes the server's
      `allowed_file`: both look at what follows the last dot, ignoring case. */
  lemma PatternAgreesWithAllowedFile(name: string)
    ensures Recorder.MatchesExtensionPattern(name) <==> Server.AllowedFile(name)
  {
    if Recorder.MatchesExtensionPattern(name) {
      PatternImpliesAllowedFile(name);
    }
    if Server.AllowedFile(name) {
      AllowedFileImpliesPattern(name);
    }
  }

  /** A recorded clip is sent as `audio.wav`, a name the server accepts. */
  lemma RecordedClipAccepted(chunks: seq<Recorder.Chunk>)
    ensures Recorder.SubmitFilename(Recorder.Recording(chunks, "audio/wav")) == "audio.wav"
    ensures Server.AllowedFile("audio.wav")
  {
    assert "audio" + "." + "wav" == "audio.wav";
    Server.AllowedFileAfterLastDot("audio", "wav");
    assert Lower("wav") == "wav";
  }

  /** The server never converts a recorded clip: it is saved as
      `audio.wav` (what `secure_filename` leaves of that name), so the bytes
      the page recorded reach the model unchanged, whatever their format. */
  lemma RecordedClipNotConverted(ok: bool)
    ensures Server.PrepareAudio(Server.UploadPath("audio.wav"), ok) == Server.Prepared(Server.UploadPath("audio.wav"), [])
  {
    assert "audio" + ".wav" == "audio.wav";
    Server.WavUploadNotConverted("audio", ok);
  }

  /** A file the page accepted reaches the server under its own name, and
      the server accepts it exactly when the name, not just the type, is
      recognised. */
  lemma AcceptedUploadOnServer(f: Recorder.FileInfo)
    requires Recorder.CheckFile(f) == Recorder.Accepted
    ensures Server.AllowedFile(Recorder.SubmitFilename(Recorder.Upload(f))) <==> Recorder.MatchesExtensionPattern(f.name)
  {
    PatternAgreesWithAllowedFile(f.name);
  }

  /** A file the page accepts for its type alone is refused by the server,
      and the page then shows the server's format message. */
  lemma TypeOnlyUploadRefused()
    ensures Server.CheckUpload(map["file" := "voice"]) == Server.Reject(Server.FormatNotSupported)
    ensures Recorder.ResultView(Delivered(Server.FormatNotSupported))
      == Recorder.ErrorView("Transcription Failed", "Supported formats: " + Server.SupportedFormats)
  {
    assert !Server.AllowedFile("voice");
  }

  /** Every failure the server reports carries a non-empty message, so the
      page shows that message and never its own fallback. */
  lemma ServerFailureShown(r: Server.Response)
    requires r.status == 400 || r.status == 500
    requires r.body.Failure? && r.body.message != ""
    ensures Recorder.ResultView(Delivered(r)) == Recorder.ErrorView("Transcription Failed", r.body.message)
  {
  }

  lemma ServerFailureMessagesNonEmpty(reason: string)
    ensures Server.NoFileProvided.body.message != "" && Server.NoFileSelected.body.message != ""
    ensures Server.FormatNotSupported.body.message != "" && Server.UploadFailed.body.message != ""
    ensures Server.ServerError(reason).body.message != "" && Server.ModelFailed(reason).body.message != ""
  {
  }

  /** A successful answer shows the server's transcript and language. */
  lemma ServerSuccessShown(t: string, info: Server.Info)
    ensures Recorder.ResultView(Delivered(Server.Response(200, Server.Transcription(t, t, info.language, info.probability))))
      == Recorder.TranscriptView(t, info.language, Some(info.probability))
  {
  }
}
