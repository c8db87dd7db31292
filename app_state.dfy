/**
 * The shared application state (AppState.swift): the recording and processing
 * flags, the text shown in the overlay, a most-recent-first history of at most
 * ten transcriptions, and the model-readiness fields the load task publishes.
 */
module App {

  /** The `@AppStorage` defaults of the three preferences. */
  const DefaultAutoPaste: bool := true
  const DefaultLaunchAtLogin: bool := false
  const DefaultShowWaveform: bool := true

  /** The history keeps at most this many results. */
  const MaxHistory: nat := 10

  /** `TranscriptionResult.preview` keeps at most this many characters of the text. */
  const PreviewLength: nat := 50

  /** One finished transcription; `timestamp` is the clock reading in milliseconds. */
  datatype TranscriptionResult = TranscriptionResult(text: string, timestamp: int)

  /**
   * `preview`: the text itself when it has at most 50 characters, otherwise its
   * first 50 characters followed by "...".
   */
  function Preview(text: string): (p: string)
    ensures |text| <= PreviewLength ==> p == text
    ensures |text| > PreviewLength ==> |p| == PreviewLength + 3 && p[..PreviewLength] == text[..PreviewLength] && p[PreviewLength..] == "..."
  {
    if |text| <= PreviewLength then text else text[..PreviewLength] + "..."
  }

  /**
   * The history after `finishTranscription` adds `r`: `r` is inserted at the
   * front, and the last entry is dropped when that makes the history too long.
   */
  function HistoryInsert<T>(history: seq<T>, r: T): (h: seq<T>)
    ensures |h| == if |history| < MaxHistory then |history| + 1 else |history|
    ensures h[0] == r && h[1..] == history[..|h| - 1]
  {
    var inserted := [r] + history;
    if |inserted| > MaxHistory then inserted[..|inserted| - 1] else inserted
  }

  function Min(a: int, b: int): int { if a <= b then a else b }

  /**
   * A bounded history stays bounded; the new result is at the front, followed by
   * the nine most recent old ones (the oldest is evicted at capacity).
   */
  lemma HistoryInsertBounded<T>(history: seq<T>, r: T)
    requires |history| <= MaxHistory
    ensures |HistoryInsert(history, r)| <= MaxHistory
    ensures HistoryInsert(history, r) == [r] + history[..Min(|history|, MaxHistory - 1)]
    ensures |history| < MaxHistory ==> |HistoryInsert(history, r)| == |history| + 1
    ensures |history| == MaxHistory ==> HistoryInsert(history, r)[1..] == history[..|history| - 1]
  {
  }

  /** The history after `finishTranscription` has been called with each of `rs`, in order. */
  function InsertAll<T>(history: seq<T>, rs: seq<T>): seq<T>
  {
    if rs == [] then history else HistoryInsert(InsertAll(history, rs[..|rs| - 1]), rs[|rs| - 1])
  }

  function Reverse<T>(s: seq<T>): (r: seq<T>)
    ensures |r| == |s|
  {
    if s == [] then [] else Reverse(s[1..]) + [s[0]]
  }

  lemma {:induction false} ReverseSnoc<T>(s: seq<T>, x: T)
    ensures Reverse(s + [x]) == [x] + Reverse(s)
  {
    if s == [] {
      assert s + [x] == [x];
    } else {
      assert (s + [x])[1..] == s[1..] + [x];
      ReverseSnoc(s[1..], x);
    }
  }

  /**
   * After any run of insertions into a bounded history, the history is the ten
   * most recent results of all, newest first: the inserted ones in reverse
   * order of insertion, then the old history.
   */
  lemma {:induction false} HistoryInsertAll<T>(history: seq<T>, rs: seq<T>)
    requires |history| <= MaxHistory
    ensures InsertAll(history, rs) == (Reverse(rs) + history)[..Min(|rs| + |history|, MaxHistory)]
  {
    if rs != [] {
      var init, last := rs[..|rs| - 1], rs[|rs| - 1];
      assert init + [last] == rs;
      HistoryInsertAll(history, init);
      ReverseSnoc(init, last);
      var all := Reverse(init) + history;
      assert Reverse(rs) + history == [last] + all;
    }
  }

  /**
   * The fields of AppState that the recording flow never writes: model readiness
   * and progress, the audio level, the selected device and the preferences.
   */
  datatype BackgroundFields = BackgroundFields(
    modelLoaded: bool, modelLoadingProgress: real, progressLog: seq<real>, audioLevel: real,
    selectedInputDevice: string, autoPasteEnabled: bool, launchAtLogin: bool, showWaveform: bool)

  class AppState {
    // Recording state
    var isRecording: bool
    var isProcessing: bool
    var showOverlay: bool
    // Transcription state
    var currentTranscription: string
    var recentTranscriptions: seq<TranscriptionResult>
    // Audio state
    var audioLevel: real
    var selectedInputDevice: string
    // Model state
    var modelLoaded: bool
    var modelLoadingProgress: real
    /** Every value published to `modelLoadingProgress`, oldest first. */
    ghost var progressLog: seq<real>
    // Settings (persisted preferences)
    var autoPasteEnabled: bool
    var launchAtLogin: bool
    var showWaveform: bool

    const modelName: string := "ggml-medium.bin"
    const modelUrl: string := "https://huggingface.co/ggerganov/whisper.cpp/resolve/main/ggml-medium.bin"

    ghost predicate Valid()
      reads this
    {
      |recentTranscriptions| <= MaxHistory
    }

    ghost function Background(): BackgroundFields
      reads this
    {
      BackgroundFields(modelLoaded, modelLoadingProgress, progressLog, audioLevel,
                       selectedInputDevice, autoPasteEnabled, launchAtLogin, showWaveform)
    }

    /**
     * The field initialisers of `AppState`. The three preferences are `@AppStorage`
     * values: the stored ones are passed in (on a first launch they are their
     * defaults, `DefaultAutoPaste`, `DefaultLaunchAtLogin` and `DefaultShowWaveform`).
     */
    constructor (autoPasteEnabled: bool, launchAtLogin: bool, showWaveform: bool)
      ensures Valid()
      ensures !isRecording && !isProcessing && !showOverlay
      ensures currentTranscription == "" && recentTranscriptions == []
      ensures audioLevel == 0.0 && selectedInputDevice == "Default"
      ensures !modelLoaded && modelLoadingProgress == 0.0 && progressLog == []
      ensures this.autoPasteEnabled == autoPasteEnabled && this.launchAtLogin == launchAtLogin
      ensures this.showWaveform == showWaveform
    {
      isRecording, isProcessing, showOverlay := false, false, false;
      currentTranscription, recentTranscriptions := "", [];
      audioLevel, selectedInputDevice := 0.0, "Default";
      modelLoaded, modelLoadingProgress, progressLog := false, 0.0, [];
      this.autoPasteEnabled, this.launchAtLogin, this.showWaveform := autoPasteEnabled, launchAtLogin, showWaveform;
    }

    method StartRecording()
      requires Valid()
      modifies this
      ensures Valid()
      ensures isRecording && showOverlay && currentTranscription == ""
      ensures isProcessing == old(isProcessing) && recentTranscriptions == old(recentTranscriptions)
      ensures modelLoaded == old(modelLoaded) && modelLoadingProgress == old(modelLoadingProgress)
      ensures progressLog == old(progressLog) && audioLevel == old(audioLevel)
      ensures autoPasteEnabled == old(autoPasteEnabled) && selectedInputDevice == old(selectedInputDevice)
      ensures launchAtLogin == old(launchAtLogin) && showWaveform == old(showWaveform)
    {
      isRecording := true;
      showOverlay := true;
      currentTranscription := "";
    }

    method StopRecording()
      requires Valid()
      modifies this
      ensures Valid()
      ensures !isRecording && isProcessing
      ensures showOverlay == old(showOverlay) && currentTranscription == old(currentTranscription)
      ensures recentTranscriptions == old(recentTranscriptions)
      ensures modelLoaded == old(modelLoaded) && modelLoadingProgress == old(modelLoadingProgress)
      ensures progressLog == old(progressLog) && audioLevel == old(audioLevel)
      ensures autoPasteEnabled == old(autoPasteEnabled) && selectedInputDevice == old(selectedInputDevice)
      ensures launchAtLogin == old(launchAtLogin) && showWaveform == old(showWaveform)
    {
      isRecording := false;
      isProcessing := true;
    }

    /** `finishTranscription(text)`, with `now` standing for `Date()`. Empty text is recorded too. */
    method FinishTranscription(text: string, now: int)
      requires Valid()
      modifies this
      ensures Valid()
      ensures !isProcessing && currentTranscription == text
      ensures recentTranscriptions == HistoryInsert(old(recentTranscriptions), TranscriptionResult(text, now))
      ensures recentTranscriptions[0] == TranscriptionResult(text, now)
      ensures isRecording == old(isRecording) && showOverlay == old(showOverlay)
      ensures modelLoaded == old(modelLoaded) && modelLoadingProgress == old(modelLoadingProgress)
      ensures progressLog == old(progressLog) && audioLevel == old(audioLevel)
      ensures autoPasteEnabled == old(autoPasteEnabled) && selectedInputDevice == old(selectedInputDevice)
      ensures launchAtLogin == old(launchAtLogin) && showWaveform == old(showWaveform)
    {
      isProcessing := false;
      currentTranscription := text;
      var result := TranscriptionResult(text, now);
      recentTranscriptions := [result] + recentTranscriptions;
      if |recentTranscriptions| > MaxHistory {
        recentTranscriptions := recentTranscriptions[..|recentTranscriptions| - 1];
      }
    }

    method HideOverlay()
      requires Valid()
      modifies this
      ensures Valid()
      ensures !showOverlay && currentTranscription == ""
      ensures isRecording == old(isRecording) && isProcessing == old(isProcessing)
      ensures recentTranscriptions == old(recentTranscriptions)
      ensures modelLoaded == old(modelLoaded) && modelLoadingProgress == old(modelLoadingProgress)
      ensures progressLog == old(progressLog) && audioLevel == old(audioLevel)
      ensures autoPasteEnabled == old(autoPasteEnabled) && selectedInputDevice == old(selectedInputDevice)
      ensures launchAtLogin == old(launchAtLogin) && showWaveform == old(showWaveform)
    {
      showOverlay := false;
      currentTranscription := "";
    }
  }

  /** The recording flow the unit tests walk through: start, stop, finish. */
  method RecordingFlow(text: string, now: int) returns (s: AppState)
    ensures fresh(s) && s.Valid()
    ensures !s.isRecording && !s.isProcessing && s.showOverlay
    ensures s.currentTranscription == text && s.recentTranscriptions == [TranscriptionResult(text, now)]
  {
    s := new AppState(DefaultAutoPaste, DefaultLaunchAtLogin, DefaultShowWaveform);
    s.StartRecording();
    assert s.isRecording && s.showOverlay;
    s.StopRecording();
    assert !s.isRecording && s.isProcessing;
    s.FinishTranscription(text, now);
  }
}
