/**
 * The model lifecycle and the transcription gateway (TranscriptionService.swift):
 * the load task that downloads the model file when it is missing and then loads
 * it while publishing progress, the `transcribe` call that waits for that task,
 * decodes the audio bytes and joins and trims the engine's segments, the engine
 * delegate callbacks, and the error messages.
 */
module Transcription {
  import opened Wrappers
  import Audio
  import App

  type Byte = Audio.Byte
  type Sample = Audio.Sample

  // ---------------------------------------------------------------------------
  // Errors
  // ---------------------------------------------------------------------------

  /** `enum TranscriptionError` */
  datatype TranscriptionError =
    | ModelNotLoaded
    | ModelDownloadFailed(reason: string)
    | InvalidAudioFormat
    | TranscriptionFailed(reason: string)

  /** What a throwing call of the service can throw: its own errors or one from Foundation or the engine. */
  datatype ServiceError = Service(error: TranscriptionError) | External(description: string)

  /** `errorDescription`: never empty, and a reason-carrying case ends with its reason. */
  function ErrorDescription(e: TranscriptionError): (d: string)
    ensures d != []
    ensures e.ModelDownloadFailed? ==> |d| >= |e.reason| && d[|d| - |e.reason|..] == e.reason
    ensures e.TranscriptionFailed? ==> |d| >= |e.reason| && d[|d| - |e.reason|..] == e.reason
  {
    match e
    case ModelNotLoaded => "Whisper model is not loaded yet"
    case ModelDownloadFailed(reason) => "Failed to download model: " + reason
    case InvalidAudioFormat => "Invalid audio format provided"
    case TranscriptionFailed(reason) => "Transcription failed: " + reason
  }

  /** The messages of the two reason-carrying cases end with the reason. */
  lemma DescriptionEmbedsReason(reason: string)
    ensures ErrorDescription(ModelDownloadFailed(reason)) == "Failed to download model: " + reason
    ensures ErrorDescription(TranscriptionFailed(reason)) == "Transcription failed: " + reason
    ensures |ErrorDescription(ModelDownloadFailed(reason))| == 26 + |reason|
    ensures |ErrorDescription(TranscriptionFailed(reason))| == 22 + |reason|
  {
  }

  /** Different errors (including different reasons) get different messages. */
  lemma ErrorDescriptionInjective(a: TranscriptionError, b: TranscriptionError)
    ensures ErrorDescription(a) == ErrorDescription(b) <==> a == b
  {
    var da, db := ErrorDescription(a), ErrorDescription(b);
    if da == db {
      // The first character tells the case apart: 'W', 'F', 'I' or 'T'.
      assert da[0] == db[0];
      match a
      case ModelDownloadFailed(ra) =>
        assert b.ModelDownloadFailed?;
        assert ra == da[26..] == db[26..] == b.reason;
      case TranscriptionFailed(ra) =>
        assert b.TranscriptionFailed?;
        assert ra == da[22..] == db[22..] == b.reason;
      case _ =>
    }
  }

  // ---------------------------------------------------------------------------
  // Joining and trimming segment texts
  // ---------------------------------------------------------------------------

  /** A span of recognised text emitted by the engine. */
  datatype Segment = Segment(text: string)

  /** The characters of `CharacterSet.whitespacesAndNewlines`: Unicode separators, tab, line ends and NEL. */
  predicate IsWhitespaceOrNewline(c: char)
  {
    || c == ' ' || c == '\t' || c == '\n' || c == '\r' || c == '\U{000B}' || c == '\U{000C}'
    || c == '\U{0085}' || c == '\U{00A0}' || c == '\U{1680}' || ('\U{2000}' <= c <= '\U{200A}')
    || c == '\U{2028}' || c == '\U{2029}' || c == '\U{202F}' || c == '\U{205F}' || c == '\U{3000}'
  }

  /** Every segment's text is empty. */
  predicate AllEmpty(segments: seq<Segment>)
  {
    forall k :: 0 <= k < |segments| ==> segments[k].text == ""
  }

  /** `segments.map { $0.text }.joined()`: the texts in emission order. */
  function Join(segments: seq<Segment>): (text: string)
    ensures text == "" <==> AllEmpty(segments)
  {
    if segments == [] then "" else Join(segments[..|segments| - 1]) + segments[|segments| - 1].text
  }

  /** Joining two runs of segments joins their texts. */
  lemma {:induction false} JoinAppend(a: seq<Segment>, b: seq<Segment>)
    ensures Join(a + b) == Join(a) + Join(b)
  {
    if b == [] {
      assert a + b == a;
    } else {
      var init := b[..|b| - 1];
      assert (a + b)[..|a + b| - 1] == a + init;
      assert (a + b)[|a + b| - 1] == b[|b| - 1];
      JoinAppend(a, init);
      assert Join(b) == Join(init) + b[|b| - 1].text;
    }
  }

  /** Leading whitespace and newlines removed. */
  function TrimLeading(s: string): (r: string)
    ensures |r| <= |s| && r == s[|s| - |r|..]
    ensures forall k :: 0 <= k < |s| - |r| ==> IsWhitespaceOrNewline(s[k])
    ensures r != [] ==> !IsWhitespaceOrNewline(r[0])
  {
    if s != [] && IsWhitespaceOrNewline(s[0]) then TrimLeading(s[1..]) else s
  }

  /** Trailing whitespace and newlines removed. */
  function TrimTrailing(s: string): (r: string)
    ensures |r| <= |s| && r == s[..|r|]
    ensures forall k :: |r| <= k < |s| ==> IsWhitespaceOrNewline(s[k])
    ensures r != [] ==> !IsWhitespaceOrNewline(r[|r| - 1])
  {
    if s != [] && IsWhitespaceOrNewline(s[|s| - 1]) then TrimTrailing(s[..|s| - 1]) else s
  }

  /** `trimmingCharacters(in: .whitespacesAndNewlines)`: never longer than its input (see TrimEdges and TrimSpec). */
  function Trim(s: string): (r: string)
    ensures |r| <= |s|
  {
    TrimTrailing(TrimLeading(s))
  }

  /** The trimmed text neither starts nor ends with whitespace. */
  lemma {:induction false} TrimEdges(s: string)
    ensures Trim(s) != [] ==> !IsWhitespaceOrNewline(Trim(s)[0]) && !IsWhitespaceOrNewline(Trim(s)[|Trim(s)| - 1])
  {
    var l := TrimLeading(s);
    var t := TrimTrailing(l);
    if t != [] {
      assert t == l[..|t|];
      assert t[0] == l[0];
    }
  }

  /** The trimmed text is a piece of the input with only whitespace cut off either side. */
  lemma {:induction false} TrimSpec(s: string)
    ensures exists i, j :: (0 <= i <= j <= |s| && Trim(s) == s[i..j]
                            && (forall k :: 0 <= k < i ==> IsWhitespaceOrNewline(s[k]))
                            && (forall k :: j <= k < |s| ==> IsWhitespaceOrNewline(s[k])))
  {
    var l := TrimLeading(s);
    var t := TrimTrailing(l);
    var i := |s| - |l|;
    var j := i + |t|;
    assert t == s[i..j] by {
      assert l == s[i..];
      assert t == l[..|t|];
    }
    assert forall k :: 0 <= k < i ==> IsWhitespaceOrNewline(s[k]);
    forall k | j <= k < |s| ensures IsWhitespaceOrNewline(s[k]) {
      assert s[k] == l[k - i];
    }
    assert Trim(s) == t;
  }

  /** A text that neither starts nor ends with whitespace is its own trim. */
  lemma {:induction false} TrimFixed(t: string)
    requires t != [] ==> !IsWhitespaceOrNewline(t[0]) && !IsWhitespaceOrNewline(t[|t| - 1])
    ensures Trim(t) == t
  {
    assert TrimLeading(t) == t;
  }

  /** Trimming a trimmed text changes nothing. */
  lemma {:induction false} TrimIdempotent(s: string)
    ensures Trim(Trim(s)) == Trim(s)
  {
    TrimEdges(s);
    TrimFixed(Trim(s));
  }

  /** Zero segments give "", and the segments "Hello " and "world" give "Hello world". */
  lemma JoinTrimExamples()
    ensures Trim(Join([])) == ""
    ensures Trim(Join([Segment("Hello "), Segment("world")])) == "Hello world"
  {
    var segments := [Segment("Hello "), Segment("world")];
    assert segments[..1] == [Segment("Hello ")];
    assert segments[..1][..0] == [];
    assert Join(segments[..1]) == "Hello ";
    assert Join(segments) == "Hello world";
    var t := "Hello world";
    assert t[0] == 'H' && t[|t| - 1] == 'd';
    assert !IsWhitespaceOrNewline('H') && !IsWhitespaceOrNewline('d');
    TrimFixed(t);
  }

  // ---------------------------------------------------------------------------
  // Bytes to frames
  // ---------------------------------------------------------------------------

  /** The sample whose memory image is the four bytes `b` (little-endian). */
  function SampleOf(b: seq<Byte>): (w: Sample)
    requires |b| == 4
    ensures Audio.SampleBytes(w) == b
  {
    (b[0] as Sample) | ((b[1] as Sample) << 8) | ((b[2] as Sample) << 16) | ((b[3] as Sample) << 24)
  }

  lemma SampleOfBytes(w: Sample)
    ensures SampleOf(Audio.SampleBytes(w)) == w
  {
  }

  /** The frames `convertDataToFrames` copies out of `data`: one per whole group of four bytes. */
  function Frames(data: seq<Byte>): (frames: seq<Sample>)
    ensures |frames| == |data| / 4
  {
    if |data| < 4 then [] else [SampleOf(data[..4])] + Frames(data[4..])
  }

  /** Frame `k` is decoded from bytes 4k to 4k+3. */
  lemma {:induction false} FramesAt(data: seq<Byte>, k: nat)
    requires k < |data| / 4
    ensures 4 * k + 4 <= |data| && Frames(data)[k] == SampleOf(data[4 * k..4 * k + 4])
  {
    if k > 0 {
      FramesAt(data[4..], k - 1);
      var j := 4 * (k - 1);
      assert j + 4 == 4 * k;
      assert data[4..][j..j + 4] == data[4 + j..4 + j + 4];
    }
  }

  /** Decoding the byte image of samples gives back the samples. */
  lemma {:induction false} FramesOfSamplesToData(samples: seq<Sample>)
    ensures Frames(Audio.SamplesToData(samples)) == samples
  {
    if samples != [] {
      var data := Audio.SamplesToData(samples);
      assert data[..4] == Audio.SampleBytes(samples[0]);
      assert data[4..] == Audio.SamplesToData(samples[1..]);
      SampleOfBytes(samples[0]);
      FramesOfSamplesToData(samples[1..]);
    }
  }

  /** Encoding decoded frames gives back the data without its trailing partial sample. */
  lemma {:induction false} SamplesToDataOfFrames(data: seq<Byte>)
    ensures Audio.SamplesToData(Frames(data)) == data[..4 * (|data| / 4)]
  {
    if |data| >= 4 {
      SamplesToDataOfFrames(data[4..]);
      var frames := Frames(data);
      assert frames[1..] == Frames(data[4..]);
      assert data[..4 * (|data| / 4)] == data[..4] + data[4..][..4 * (|data[4..]| / 4)];
    }
  }

  /** `convertDataToFrames`: fills a zeroed array of `byteCount / 4` floats from the bytes. */
  method ConvertDataToFrames(data: seq<Byte>) returns (frames: seq<Sample>)
    ensures frames == Frames(data)
    ensures |frames| == |data| / 4
  {
    var floatCount := |data| / 4;
    var floats := new Sample[floatCount];
    var i := 0;
    while i < floatCount
      invariant 0 <= i <= floatCount
      invariant forall k :: 0 <= k < i ==> floats[k] == Frames(data)[k]
    {
      FramesAt(data, i);
      floats[i] := SampleOf(data[4 * i..4 * i + 4]);
      i := i + 1;
    }
    frames := floats[..];
  }

  // ---------------------------------------------------------------------------
  // The load sequence
  // ---------------------------------------------------------------------------

  /** Composite progress published before the download, before the load, and when ready. */
  const DownloadStartProgress: real := 0.01
  const LoadStartProgress: real := 0.5
  const ReadyProgress: real := 1.0

  /** How the model download ends. */
  datatype DownloadReply =
    /** Creating the model directory or the transfer itself threw. */
    | TransferFailed(description: string)
    /**
     * A response arrived; `removed` is whether `removeItem` of a model file
     * already in place succeeds (consulted only when there is one), and `moved`
     * whether `moveItem` of the download into place succeeds.
     */
    | Response(isHttp: bool, statusCode: int, removed: bool, moved: bool)

  /**
   * The outcome of `downloadModel` for a reply, `fileExists` being whether a model
   * file is already in place: it passes only for an HTTP 200 whose file was moved
   * into place, after the old file (if any) was removed.
   */
  function DownloadOutcome(fileExists: bool, reply: DownloadReply): (o: Outcome<ServiceError>)
    ensures o.Pass? <==> reply.Response? && reply.isHttp && reply.statusCode == 200 && (fileExists ==> reply.removed) && reply.moved
  {
    match reply
    case TransferFailed(d) => Fail(External(d))
    case Response(isHttp, statusCode, removed, moved) =>
      if !isHttp || statusCode != 200 then Fail(Service(ModelDownloadFailed("Server returned error")))
      else if fileExists && !removed then Fail(External("removing the old model failed"))
      else if !moved then Fail(External("moving the downloaded model failed"))
      else Pass
  }

  /** Whether the load task ends with the model loaded; it downloads only when no file is in place. */
  function LoadSucceeds(fileOnDisk: bool, reply: DownloadReply): bool
  {
    fileOnDisk || DownloadOutcome(false, reply).Pass?
  }

  /** The values the load task publishes to `modelLoadingProgress`, in order. */
  function LoadProgressSteps(fileOnDisk: bool, reply: DownloadReply): (steps: seq<real>)
    ensures steps != [] && (steps[|steps| - 1] == ReadyProgress <==> LoadSucceeds(fileOnDisk, reply))
  {
    if fileOnDisk then [LoadStartProgress, ReadyProgress]
    else if DownloadOutcome(false, reply).Fail? then [DownloadStartProgress]
    else [DownloadStartProgress, LoadStartProgress, ReadyProgress]
  }

  predicate NonDecreasing(s: seq<real>)
  {
    forall i, j :: 0 <= i <= j < |s| ==> s[i] <= s[j]
  }

  /**
   * A successful load publishes non-decreasing progress ending at 1.0; a failed
   * one publishes only the download start, so the progress stays frozen at 0.01.
   */
  lemma LoadProgressShape(fileOnDisk: bool, reply: DownloadReply)
    ensures var steps := LoadProgressSteps(fileOnDisk, reply);
      && steps != [] && NonDecreasing(steps)
      && (forall k :: 0 <= k < |steps| ==> 0.0 < steps[k] <= 1.0)
      && (LoadSucceeds(fileOnDisk, reply) <==> steps[|steps| - 1] == ReadyProgress)
      && (!LoadSucceeds(fileOnDisk, reply) ==> steps == [DownloadStartProgress])
      && (!fileOnDisk ==> steps[0] == DownloadStartProgress)
  {
  }

  /** The delegate's progress mapping: the engine's fraction `p` rescaled into the second half. */
  function EngineProgress(p: real): (progress: real)
    ensures 0.0 <= p <= 1.0 ==> LoadStartProgress <= progress <= ReadyProgress
    ensures p == 0.0 ==> progress == LoadStartProgress
    ensures p == 1.0 ==> progress == ReadyProgress
  {
    LoadStartProgress + p * 0.5
  }

  /**
   * Progress is not monotonic: a load from disk ends at 1.0, and an engine
   * progress update of 0 arriving after it pushes the published value back to 0.5.
   */
  method ProgressCanRegress() returns (svc: TranscriptionService, ready: real, after: real)
    ensures ready == ReadyProgress && after == LoadStartProgress && after < ready
    ensures svc.appState.modelLoaded && !NonDecreasing(svc.appState.progressLog)
  {
    var app := new App.AppState(App.DefaultAutoPaste, App.DefaultLaunchAtLogin, App.DefaultShowWaveform);
    svc := new TranscriptionService(app);
    svc.RunLoadTask(true, TransferFailed(""));
    ready := app.modelLoadingProgress;
    svc.DidUpdateProgress(0.0);
    after := app.modelLoadingProgress;
    assert app.progressLog == [LoadStartProgress, ReadyProgress, LoadStartProgress];
    assert app.progressLog[1] > app.progressLog[2];
  }

  // ---------------------------------------------------------------------------
  // The service
  // ---------------------------------------------------------------------------

  /** The engine's answer to one `whisper.transcribe` call. */
  datatype EngineResult = Segments(segments: seq<Segment>) | EngineFailed(description: string)

  /**
   * What `transcribe` returns or throws once the load task is over: `ready` is
   * whether the model is loaded and an engine exists.
   */
  function TranscribeOutcome(ready: bool, audioData: seq<Byte>, engine: EngineResult): (r: Result<string, ServiceError>)
    ensures r.Failure? <==> !ready || (|audioData| >= 4 && engine.EngineFailed?)
  {
    if !ready then Failure(Service(ModelNotLoaded))
    else if |Frames(audioData)| == 0 then Success("")
    else match engine
      case EngineFailed(d) => Failure(External(d))
      case Segments(segments) => Success(Trim(Join(segments)))
  }

  /**
   * `transcribe` throws `modelNotLoaded` unless the model is ready; input with
   * no whole frame gives "" whatever the engine would say; otherwise the engine's
   * error is rethrown or its segments are joined and trimmed.
   */
  lemma {:induction false} TranscribeOutcomeCases(ready: bool, audioData: seq<Byte>, engine: EngineResult)
    ensures !ready ==> TranscribeOutcome(ready, audioData, engine) == Failure(Service(ModelNotLoaded))
    ensures ready && |audioData| < 4 ==> forall other :: TranscribeOutcome(ready, audioData, other) == Success("")
    ensures ready && |audioData| >= 4 && engine.EngineFailed? ==> TranscribeOutcome(ready, audioData, engine) == Failure(External(engine.description))
    ensures ready && |audioData| >= 4 && engine.Segments? ==> TranscribeOutcome(ready, audioData, engine) == Success(Trim(Join(engine.segments)))
    ensures TranscribeOutcome(ready, audioData, engine).Success? ==> Trim(TranscribeOutcome(ready, audioData, engine).value) == TranscribeOutcome(ready, audioData, engine).value
  {
    if ready && |audioData| >= 4 && engine.Segments? {
      TrimIdempotent(Join(engine.segments));
    }
  }

  /** `modelLoadingTask`: started by `init`, finished once its body has run. */
  datatype LoadTask = Running | Finished

  class TranscriptionService {
    /** `AppState.shared` */
    const appState: App.AppState
    /** Whether a file exists at the model path, as far as this service has looked or changed it. */
    var modelFileOnDisk: bool
    /** `whisper != nil` */
    var hasWhisper: bool
    var isModelLoaded: bool
    var loadTask: LoadTask

    /**
     * `init`, which starts `loadModelAsync`; the task's body runs later, as
     * `RunLoadTask`, which is also when the disk is first looked at.
     */
    constructor (appState: App.AppState)
      ensures this.appState == appState && !modelFileOnDisk
      ensures !hasWhisper && !isModelLoaded && loadTask == Running
    {
      this.appState := appState;
      modelFileOnDisk := false;
      hasWhisper, isModelLoaded := false, false;
      loadTask := Running;
    }

    /** `isModelDownloaded` */
    function IsModelDownloaded(): bool
      reads this
    {
      modelFileOnDisk
    }

    /**
     * `downloadModel`: any non-200 or non-HTTP response throws `modelDownloadFailed`;
     * otherwise a model file already in place is removed and the download moved there.
     */
    method DownloadModel(reply: DownloadReply) returns (outcome: Outcome<ServiceError>)
      modifies this`modelFileOnDisk
      ensures outcome == DownloadOutcome(old(modelFileOnDisk), reply)
      ensures outcome.Pass? ==> modelFileOnDisk
      ensures reply.TransferFailed? || (reply.Response? && (!reply.isHttp || reply.statusCode != 200))
              ==> modelFileOnDisk == old(modelFileOnDisk)
      // a failed removal keeps the old file
      ensures reply.Response? && reply.isHttp && reply.statusCode == 200 && old(modelFileOnDisk) && !reply.removed
              ==> modelFileOnDisk
      // once no file is in place, a failed move leaves none
      ensures reply.Response? && reply.isHttp && reply.statusCode == 200 && (old(modelFileOnDisk) ==> reply.removed) && !reply.moved
              ==> !modelFileOnDisk
    {
      if reply.TransferFailed? {
        return Fail(External(reply.description));
      }
      if !reply.isHttp || reply.statusCode != 200 {
        return Fail(Service(ModelDownloadFailed("Server returned error")));
      }
      if modelFileOnDisk {
        if !reply.removed {
          return Fail(External("removing the old model failed"));
        }
        modelFileOnDisk := false;
      }
      if !reply.moved {
        return Fail(External("moving the downloaded model failed"));
      }
      modelFileOnDisk := true;
      outcome := Pass;
    }

    /** `loadModel`: throws `modelNotLoaded` when the file is missing, otherwise creates the engine. */
    method LoadModel() returns (outcome: Outcome<ServiceError>)
      modifies this`hasWhisper, this`isModelLoaded
      ensures !modelFileOnDisk ==> outcome == Fail(Service(ModelNotLoaded)) && unchanged(this)
      ensures modelFileOnDisk ==> outcome == Pass && hasWhisper && isModelLoaded
    {
      if !IsModelDownloaded() {
        return Fail(Service(ModelNotLoaded));
      }
      hasWhisper := true;
      isModelLoaded := true;
      outcome := Pass;
    }

    /** Publishes one value to `AppState.modelLoadingProgress`. */
    method PublishProgress(p: real)
      requires appState.Valid()
      modifies appState`modelLoadingProgress, appState`progressLog
      ensures appState.modelLoadingProgress == p && appState.progressLog == old(appState.progressLog) + [p]
    {
      appState.modelLoadingProgress := p;
      appState.progressLog := appState.progressLog + [p];
    }

    /**
     * The body of the `loadModelAsync` task: download when the file is missing,
     * then load, then mark the model loaded. A thrown error is only logged: the
     * task ends normally, `modelLoaded` stays false and progress keeps its last value.
     * `fileOnDisk` is whether the model file exists when the task looks.
     */
    method RunLoadTask(fileOnDisk: bool, reply: DownloadReply)
      requires appState.Valid() && loadTask == Running
      modifies this, appState`modelLoadingProgress, appState`progressLog, appState`modelLoaded
      ensures appState.Valid() && loadTask == Finished
      ensures appState.progressLog == old(appState.progressLog) + LoadProgressSteps(fileOnDisk, reply)
      ensures appState.modelLoadingProgress == appState.progressLog[|appState.progressLog| - 1]
      ensures LoadSucceeds(fileOnDisk, reply) ==> appState.modelLoaded && isModelLoaded && hasWhisper
      ensures !LoadSucceeds(fileOnDisk, reply) ==>
                (appState.modelLoaded == old(appState.modelLoaded) && isModelLoaded == old(isModelLoaded) && hasWhisper == old(hasWhisper))
    {
      modelFileOnDisk := fileOnDisk;
      if !IsModelDownloaded() {
        PublishProgress(DownloadStartProgress);
        var downloaded := DownloadModel(reply);
        if downloaded.Fail? {
          loadTask := Finished;
          return;
        }
      }
      PublishProgress(LoadStartProgress);
      // The file is present here, so the load succeeds.
      var loaded := LoadModel();
      if loaded.Pass? {
        appState.modelLoaded := true;
        PublishProgress(ReadyProgress);
      }
      loadTask := Finished;
    }

    /**
     * `transcribe`, resumed after its `await` on the load task has returned.
     * `engine` is what the engine would answer; it is consulted only when there
     * is at least one frame.
     */
    method Transcribe(audioData: seq<Byte>, engine: EngineResult) returns (r: Result<string, ServiceError>)
      requires loadTask == Finished
      ensures r == TranscribeOutcome(isModelLoaded && hasWhisper, audioData, engine)
    {
      if !(isModelLoaded && hasWhisper) {
        return Failure(Service(ModelNotLoaded));
      }
      var audioFrames := ConvertDataToFrames(audioData);
      if |audioFrames| == 0 {
        return Success("");
      }
      match engine
      case EngineFailed(d) => return Failure(External(d));
      case Segments(segments) =>
        var text := Trim(Join(segments));
        return Success(text);
    }

    /** `whisper(_:didUpdateProgress:)` */
    method DidUpdateProgress(progress: real)
      requires appState.Valid()
      modifies appState`modelLoadingProgress, appState`progressLog
      ensures appState.modelLoadingProgress == EngineProgress(progress)
      ensures appState.progressLog == old(appState.progressLog) + [EngineProgress(progress)]
    {
      PublishProgress(LoadStartProgress + progress * 0.5);
    }

    /** `whisper(_:didProcessNewSegments:atIndex:)`: the overlay shows the partial text, joined and trimmed. */
    method DidProcessNewSegments(segments: seq<Segment>)
      modifies appState`currentTranscription
      ensures appState.currentTranscription == Trim(Join(segments))
    {
      var partialText := Join(segments);
      appState.currentTranscription := Trim(partialText);
    }
  }

  /** A transcription result never starts or ends with whitespace, and trimming it again changes nothing. */
  lemma {:induction false} TranscriptNormalised(segments: seq<Segment>)
    ensures var text := Trim(Join(segments));
      && (text != [] ==> !IsWhitespaceOrNewline(text[0]) && !IsWhitespaceOrNewline(text[|text| - 1]))
      && Trim(text) == text
  {
    TrimEdges(Join(segments));
    TrimIdempotent(Join(segments));
  }
}
