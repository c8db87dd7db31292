/**
 * The push-to-talk controller (HotkeyManager.swift). Key-down and key-up events
 * start, lock and stop recordings through the shared AppState and the audio
 * manager; each stop queues a completion that, when it runs, transcribes the
 * captured audio and records the result. Events arrive one at a time, in order:
 * `now` stands for `Date()` in milliseconds, and the queued completion of a stop
 * runs when `ResumeCompletion` is called for it.
 */
module Hotkey {
  import opened Wrappers
  import App
  import Audio
  import Transcription
  import Settings

  /** A release sooner than this many milliseconds after the press locks the recording on. */
  const LockThresholdMs: int := 400

  const LoadingMessage: string := "Model is still loading, please wait..."
  const NoAudioMessage: string := "No audio recorded"
  const TranscribingMessage: string := "Transcribing..."
  const NoSpeechMessage: string := "No speech detected"
  const FailedMessage: string := "Transcription failed"

  /** Overlay hide delays, in milliseconds. */
  const ShortHideDelay: nat := 1500
  const LongHideDelay: nat := 2000

  // ---------------------------------------------------------------------------
  // The recording flags and how hotkey events change them
  // ---------------------------------------------------------------------------

  /**
   * The flags the controller's decisions depend on: AppState's `isRecording` and
   * `isProcessing`, and the controller's `isLockedMode`, `recordingStartTime` and
   * `isHotkeyPressed`.
   */
  datatype Flags = Flags(recording: bool, processing: bool, locked: bool, startTime: Option<int>, pressed: bool)

  const Idle: Flags := Flags(false, false, false, None, false)

  /** The flags after `stopAndTranscribe`. */
  const Stopped: Flags := Flags(false, true, false, None, false)

  /** A key-down starts a recording: not recording and the model is loaded (processing is not consulted). */
  predicate KeyDownStarts(f: Flags, modelLoaded: bool)
  {
    !f.recording && modelLoaded
  }

  /** A key-down stops the recording: recording in locked mode. */
  predicate KeyDownStops(f: Flags)
  {
    f.recording && f.locked
  }

  /** `handleKeyDown` on the flags: they change exactly when the key-down starts or stops a recording. */
  function KeyDownFlags(f: Flags, modelLoaded: bool, now: int): (g: Flags)
    ensures g != f <==> KeyDownStarts(f, modelLoaded) || KeyDownStops(f)
    ensures g.recording <==> (f.recording && !f.locked) || KeyDownStarts(f, modelLoaded)
  {
    if f.recording then (if f.locked then Stopped else f)
    else if !modelLoaded then f
    else Flags(true, f.processing, false, Some(now), true)
  }

  /** A key-up locks the recording on: a press released within the threshold. */
  predicate KeyUpLocks(f: Flags, modelLoaded: bool, now: int)
  {
    modelLoaded && f.recording && !f.locked && f.startTime.Some? && now - f.startTime.value < LockThresholdMs
  }

  /** A key-up stops the recording: recording, not locked, and not released within the threshold. */
  predicate KeyUpStops(f: Flags, modelLoaded: bool, now: int)
  {
    modelLoaded && f.recording && !f.locked && !KeyUpLocks(f, modelLoaded, now)
  }

  /** `handleKeyUp` on the flags: they change exactly when the key-up locks or stops, and it never starts a recording. */
  function KeyUpFlags(f: Flags, modelLoaded: bool, now: int): (g: Flags)
    ensures g != f <==> KeyUpLocks(f, modelLoaded, now) || KeyUpStops(f, modelLoaded, now)
    ensures g.recording ==> f.recording
  {
    if !modelLoaded || !f.recording || f.locked then f
    else if f.startTime.Some? && now - f.startTime.value < LockThresholdMs then f.(locked := true)
    else Stopped
  }

  /** A key-down with the model not loaded, or while recording unlocked, changes no flag. */
  lemma KeyDownIgnored(f: Flags, now: int)
    ensures !f.recording ==> KeyDownFlags(f, false, now) == f
    ensures f.recording && !f.locked ==> forall loaded :: KeyDownFlags(f, loaded, now) == f
  {
  }

  /**
   * A key-down that starts a recording clears locked mode, takes the press time
   * and marks the key pressed; only `recording` is consulted, so a key-down while
   * a transcription is still processing starts a new recording.
   */
  lemma KeyDownStartsRecording(f: Flags, now: int)
    requires KeyDownStarts(f, true)
    ensures KeyDownFlags(f, true, now) == Flags(true, f.processing, false, Some(now), true)
    ensures f.processing ==> KeyDownFlags(f, true, now).recording && KeyDownFlags(f, true, now).processing
  {
  }

  /** A key-down in locked mode stops recording and starts processing, whatever the model state. */
  lemma KeyDownInLockedModeStops(f: Flags, loaded: bool, now: int)
    requires KeyDownStops(f)
    ensures KeyDownFlags(f, loaded, now) == Stopped
    ensures !Stopped.recording && Stopped.processing && !Stopped.locked && Stopped.startTime.None? && !Stopped.pressed
  {
  }

  /** A key-up while unloaded, not recording or locked changes no flag; otherwise it locks or stops, by elapsed time. */
  lemma KeyUpCases(f: Flags, loaded: bool, now: int)
    ensures !loaded || !f.recording || f.locked ==> KeyUpFlags(f, loaded, now) == f
    ensures KeyUpLocks(f, loaded, now) ==> KeyUpFlags(f, loaded, now) == f.(locked := true)
    ensures KeyUpStops(f, loaded, now) ==> KeyUpFlags(f, loaded, now) == Stopped
    ensures loaded && f.recording && !f.locked ==> (KeyUpLocks(f, loaded, now) != KeyUpStops(f, loaded, now))
  {
  }

  /** A tap (released after 100 ms) locks the recording on; a hold (released after 600 ms) stops it. */
  lemma TapLocksHoldStops(t: int)
    ensures KeyUpFlags(KeyDownFlags(Idle, true, t), true, t + 100) == Flags(true, false, true, Some(t), true)
    ensures KeyUpFlags(KeyDownFlags(Idle, true, t), true, t + 600) == Stopped
    ensures KeyDownFlags(KeyUpFlags(KeyDownFlags(Idle, true, t), true, t + 100), true, t + 900) == Stopped
    ensures KeyUpFlags(KeyUpFlags(KeyDownFlags(Idle, true, t), true, t + 100), true, t + 900).locked
  {
  }

  /** The elapsed-time test is exact: 399 ms locks, 400 ms stops. */
  lemma ThresholdBoundary(t: int)
    ensures KeyUpLocks(KeyDownFlags(Idle, true, t), true, t + LockThresholdMs - 1)
    ensures KeyUpStops(KeyDownFlags(Idle, true, t), true, t + LockThresholdMs)
  {
  }

  /**
   * Recording and processing at once is reachable: hold, release, and press again
   * before the completion has run.
   */
  lemma RecordingWhileProcessing(t: int)
    ensures var f := KeyDownFlags(KeyUpFlags(KeyDownFlags(Idle, true, t), true, t + 600), true, t + 700);
      f.recording && f.processing
  {
  }

  // ---------------------------------------------------------------------------
  // Side effects
  // ---------------------------------------------------------------------------

  /** Calls on the overlay, the history and the clipboard. */
  datatype Effect =
    | OverlayShown
    | OverlayHidden(delayMs: nat)
    | OverlayClosed
    /** `finishTranscription(text)` added `text` to the history. */
    | Recorded(text: string)
    | Copied(text: string)
    | Pasted

  /** How a completion ends: nothing was captured, the transcription gave a text, or it threw. */
  datatype Completion = NoAudio | Text(text: string) | Failed

  /**
   * The outcome of the completion queued for `audioData`, with a service whose
   * model is loaded and `engine` as the engine's answer.
   */
  function CompletionFor(audioData: Option<seq<Audio.Byte>>, engine: Transcription.EngineResult): (c: Completion)
    ensures c == NoAudio <==> audioData.None? || audioData.value == []
  {
    if audioData.None? || audioData.value == [] then NoAudio
    else match Transcription.TranscribeOutcome(true, audioData.value, engine)
      case Success(text) => Text(text)
      case Failure(_) => Failed
  }

  /** The text each outcome hands to `finishTranscription`. */
  function RecordedText(c: Completion): string
  {
    if c.Text? then c.text else ""
  }

  /** What the overlay text is once the completion has run: empty exactly after a failure or an empty transcript. */
  function OverlayTextAfter(c: Completion): (text: string)
    ensures text == "" <==> c == Failed || c == Text("")
  {
    match c
    case NoAudio => NoAudioMessage
    case Text(text) => text
    case Failed => ""
  }

  /** The effects of a completion, in order; `autoPaste` is `autoPasteEnabled`. */
  function CompletionEffects(c: Completion, autoPaste: bool): (es: seq<Effect>)
    ensures es != [] && es[0] == Recorded(RecordedText(c))
    ensures es[|es| - 1] == OverlayHidden(if c.Text? then LongHideDelay else ShortHideDelay)
  {
    match c
    case NoAudio => [Recorded(""), OverlayHidden(ShortHideDelay)]
    case Text(text) =>
      if text == "" then [Recorded(""), OverlayHidden(LongHideDelay)]
      else [Recorded(text)] + (if autoPaste then [Copied(text), Pasted] else []) + [OverlayHidden(LongHideDelay)]
    case Failed => [Recorded(""), OverlayHidden(ShortHideDelay)]
  }

  /** Every completion records exactly one history entry, first, with its text; nothing else recorded. */
  lemma CompletionRecordsOnce(c: Completion, autoPaste: bool)
    ensures var es := CompletionEffects(c, autoPaste);
      && es != [] && es[0] == Recorded(RecordedText(c))
      && (forall i :: 0 < i < |es| ==> !es[i].Recorded?)
  {
  }

  /**
   * The clipboard is used exactly when the text is non-empty and auto-paste is on,
   * and then only after the history entry: record, copy, paste, hide.
   */
  lemma PasteOnlyAfterRecording(c: Completion, autoPaste: bool)
    ensures var es := CompletionEffects(c, autoPaste);
      (exists i :: 0 <= i < |es| && es[i].Copied?) <==> (c.Text? && c.text != "" && autoPaste)
    ensures c.Text? && c.text != "" && autoPaste ==>
      CompletionEffects(c, autoPaste) == [Recorded(c.text), Copied(c.text), Pasted, OverlayHidden(LongHideDelay)]
  {
    var es := CompletionEffects(c, autoPaste);
    if !(c.Text? && c.text != "" && autoPaste) {
      assert forall i :: 0 <= i < |es| ==> !es[i].Copied?;
    } else {
      assert es[1].Copied?;
    }
  }

  /**
   * No audio, an empty text and a failure all record "" (empty text is not
   * filtered out); the "No speech detected" and "Transcription failed" messages
   * are overwritten by that call, while "No audio recorded" is set after it.
   */
  lemma EmptyOutcomesRecordEmpty(c: Completion)
    ensures !(c.Text? && c.text != "") ==> RecordedText(c) == ""
    ensures c == Failed || c == Text("") ==> OverlayTextAfter(c) == ""
    ensures c == NoAudio ==> OverlayTextAfter(c) == NoAudioMessage
  {
  }

  /** Audio with no bytes never reaches the engine; a non-empty transcript is always kept as it is. */
  lemma {:induction false} CompletionForCases(audioData: Option<seq<Audio.Byte>>, engine: Transcription.EngineResult)
    ensures audioData.None? || audioData == Some([]) ==> CompletionFor(audioData, engine) == NoAudio
    ensures audioData.Some? && 0 < |audioData.value| < 4 ==> CompletionFor(audioData, engine) == Text("")
    ensures audioData.Some? && |audioData.value| >= 4 && engine.EngineFailed? ==> CompletionFor(audioData, engine) == Failed
    ensures audioData.Some? && |audioData.value| >= 4 && engine.Segments? ==>
      CompletionFor(audioData, engine) == Text(Transcription.Trim(Transcription.Join(engine.segments)))
  {
    if audioData.Some? && audioData.value != [] {
      var data := audioData.value;
      var outcome := Transcription.TranscribeOutcome(true, data, engine);
      assert CompletionFor(audioData, engine) == (if outcome.Success? then Text(outcome.value) else Failed);
      Transcription.TranscribeOutcomeCases(true, data, engine);
    }
  }

  /** A completion fails only when there is a whole frame and the engine throws. */
  lemma FailedOnlyOnEngineError(audioData: Option<seq<Audio.Byte>>, engine: Transcription.EngineResult)
    ensures CompletionFor(audioData, engine) == Failed <==> audioData.Some? && |audioData.value| >= 4 && engine.EngineFailed?
  {
    CompletionForCases(audioData, engine);
  }

  /** Registering `b` and then unregistering `p` leaves exactly `b` registered where `p` was. */
  lemma ReplaceRegistration(p: Settings.Binding, b: Settings.Binding)
    ensures multiset{p} + multiset{b} - multiset{p} == multiset{b}
  {
    var m := multiset{p} + multiset{b} - multiset{p};
    assert m[b] == 1;
    forall x ensures m[x] == multiset{b}[x] {}
  }

  // ---------------------------------------------------------------------------
  // The controller
  // ---------------------------------------------------------------------------

  class HotkeyManager {
    /** `AppState.shared` */
    const appState: App.AppState
    var hotKey: Option<Settings.Binding>
    var audioManager: Audio.AudioManager?
    var transcriptionService: Transcription.TranscriptionService?
    /** `overlayController != nil` */
    var hasOverlayController: bool
    var isHotkeyPressed: bool
    var recordingStartTime: Option<int>
    var isLockedMode: bool
    /** The audio handed to each completion that has been queued by a stop and has not run yet, oldest first. */
    var pending: seq<Option<seq<Audio.Byte>>>
    /** The bindings registered with the global hotkey library, with multiplicity. */
    ghost var registrations: multiset<Settings.Binding>

    function CurrentFlags(): Flags
      reads this, appState
    {
      Flags(appState.isRecording, appState.isProcessing, isLockedMode, recordingStartTime, isHotkeyPressed)
    }

    ghost predicate Valid()
      reads this, appState, audioManager, transcriptionService
    {
      && appState.Valid()
      && (audioManager != null ==> audioManager.Valid())
      && (transcriptionService != null ==> transcriptionService.appState == appState)
      // the services are created together
      && (audioManager != null) == hasOverlayController && (transcriptionService != null) == hasOverlayController
      // recording is only ever started with the model loaded, through the audio manager
      && (appState.isRecording ==> appState.modelLoaded && audioManager != null)
      && (audioManager != null && audioManager.isRecording ==> appState.isRecording)
      && (|pending| > 0 ==> appState.modelLoaded)
      // the model is marked loaded only by a successful load task of this controller's service
      && (appState.modelLoaded ==>
            transcriptionService != null && transcriptionService.loadTask == Transcription.Finished
            && transcriptionService.isModelLoaded && transcriptionService.hasWhisper)
    }

    /**
     * Exactly the current hotkey is registered with the hotkey library. Kept apart
     * from `Valid` because only the methods that assign `hotKey` touch it; every
     * other method leaves `hotKey` and `registrations` as they were.
     */
    ghost predicate Registered()
      reads this
    {
      registrations == (if hotKey.Some? then multiset{hotKey.value} else multiset{})
    }

    /** `private init()`: no hotkey, no services, nothing pressed. */
    constructor (appState: App.AppState)
      requires appState.Valid() && !appState.isRecording && !appState.modelLoaded
      ensures Valid() && this.appState == appState
      ensures hotKey.None? && audioManager == null && transcriptionService == null && !hasOverlayController
      ensures !isHotkeyPressed && recordingStartTime.None? && !isLockedMode
      ensures pending == [] && registrations == multiset{} && Registered()
    {
      this.appState := appState;
      hotKey := None;
      audioManager, transcriptionService, hasOverlayController := null, null, false;
      isHotkeyPressed, recordingStartTime, isLockedMode := false, None, false;
      pending, registrations := [], multiset{};
    }

    /** `initializeServices`: creates each missing service and never replaces an existing one. */
    method InitializeServices()
      requires Valid()
      modifies this
      ensures Valid()
      ensures audioManager != null && transcriptionService != null && hasOverlayController
      ensures old(audioManager) != null ==> audioManager == old(audioManager)
      ensures old(audioManager) == null ==>
        (fresh(audioManager) && audioManager.State() == Audio.ManagerState(true, true, false, false, [], false))
      ensures old(transcriptionService) != null ==> transcriptionService == old(transcriptionService)
      ensures old(transcriptionService) == null ==>
        (fresh(transcriptionService) && transcriptionService.loadTask == Transcription.Running)
      ensures old(audioManager != null && transcriptionService != null && hasOverlayController) ==> unchanged(this)
      ensures hotKey == old(hotKey) && registrations == old(registrations) && CurrentFlags() == old(CurrentFlags())
      ensures pending == old(pending)
    {
      if audioManager == null {
        audioManager := new Audio.AudioManager();
      }
      if transcriptionService == null {
        transcriptionService := new Transcription.TranscriptionService(appState);
      }
      if !hasOverlayController {
        hasOverlayController := true;
      }
    }

    /**
     * `hotKey = HotKey(...)`: the new binding is registered when it is created,
     * and the binding it replaces (if any) is unregistered when it is released.
     */
    method AssignHotKey(b: Settings.Binding)
      requires Valid() && Registered()
      modifies this`hotKey, this`registrations
      ensures Valid() && Registered()
      ensures hotKey == Some(b) && registrations == multiset{b}
    {
      var previous := hotKey;
      registrations := registrations + multiset{b};
      if previous.Some? {
        ReplaceRegistration(previous.value, b);
        registrations := registrations - multiset{previous.value};
      }
      hotKey := Some(b);
    }

    /** `hotKey = nil`: the current binding (if any) is unregistered. */
    method ReleaseHotKey()
      requires Valid() && Registered()
      modifies this`hotKey, this`registrations
      ensures Valid() && Registered()
      ensures hotKey.None? && registrations == multiset{}
    {
      if hotKey.Some? {
        registrations := registrations - multiset{hotKey.value};
      }
      hotKey := None;
    }

    /** `registerDefaultHotkey`: option + space, then the services. */
    method RegisterDefaultHotkey()
      requires Valid() && Registered()
      modifies this
      ensures Valid() && Registered()
      ensures hotKey == Some(Settings.DefaultBinding)
      ensures registrations == multiset{Settings.DefaultBinding}
      ensures audioManager != null && transcriptionService != null && hasOverlayController
      ensures old(audioManager) == null ==>
        (fresh(audioManager) && audioManager.State() == Audio.ManagerState(true, true, false, false, [], false))
      ensures old(transcriptionService) == null ==>
        (fresh(transcriptionService) && transcriptionService.loadTask == Transcription.Running)
      ensures CurrentFlags() == old(CurrentFlags()) && pending == old(pending)
    {
      AssignHotKey(Settings.DefaultBinding);
      InitializeServices();
    }

    /**
     * `updateHotkey`: the old registration is dropped before the new one is made,
     * so exactly the new binding is registered afterwards; nothing else changes.
     */
    method UpdateHotkey(key: Settings.Key, modifiers: set<Settings.ModifierFlag>)
      requires Valid() && Registered()
      modifies this`hotKey, this`registrations
      ensures Valid() && Registered()
      ensures hotKey == Some(Settings.Binding(key, modifiers))
      ensures registrations == multiset{Settings.Binding(key, modifiers)}
    {
      ReleaseHotKey();
      AssignHotKey(Settings.Binding(key, modifiers));
    }

    /**
     * `stopAndTranscribe`: clears the press state, moves AppState to processing,
     * stops capture and queues the completion with the captured audio.
     */
    method StopAndTranscribe()
      requires Valid() && appState.isRecording
      modifies this, appState, audioManager
      ensures Valid()
      ensures CurrentFlags() == Stopped
      ensures audioManager == old(audioManager) && transcriptionService == old(transcriptionService)
      ensures !audioManager.isRecording && audioManager.recordedData == old(audioManager.recordedData)
      ensures audioManager.hasEngine == old(audioManager.hasEngine) && audioManager.hasInputNode == old(audioManager.hasInputNode)
      ensures old(audioManager.isRecording) ==> !audioManager.tapInstalled && !audioManager.engineRunning
      ensures !old(audioManager.isRecording) ==>
        audioManager.tapInstalled == old(audioManager.tapInstalled) && audioManager.engineRunning == old(audioManager.engineRunning)
      ensures pending == old(pending) + [if old(audioManager.isRecording) then Some(Audio.SamplesToData(old(audioManager.recordedData))) else None]
      ensures appState.currentTranscription == old(appState.currentTranscription) && appState.showOverlay == old(appState.showOverlay)
      ensures appState.recentTranscriptions == old(appState.recentTranscriptions)
      ensures appState.modelLoaded == old(appState.modelLoaded) && appState.autoPasteEnabled == old(appState.autoPasteEnabled)
      ensures appState.Background() == old(appState.Background())
      ensures hotKey == old(hotKey) && registrations == old(registrations) && hasOverlayController == old(hasOverlayController)
    {
      isLockedMode := false;
      isHotkeyPressed := false;
      recordingStartTime := None;
      appState.StopRecording();
      if audioManager != null {
        var audioData := audioManager.StopRecording();
        pending := pending + [audioData];
      }
    }

    /**
     * `handleKeyDown`. `formatCreated` and `engineStarts` are whether the audio
     * manager can build its target format and whether the engine starts, if a
     * recording is started; `es` are the calls made on the overlay.
     */
    method HandleKeyDown(now: int, formatCreated: bool, engineStarts: bool) returns (es: seq<Effect>)
      requires Valid()
      modifies this, appState, audioManager
      ensures Valid()
      ensures CurrentFlags() == KeyDownFlags(old(CurrentFlags()), old(appState.modelLoaded), now)
      ensures audioManager != null && transcriptionService != null
      ensures old(audioManager) != null ==> audioManager == old(audioManager)
      ensures old(audioManager) == null ==> audioManager.hasEngine && audioManager.hasInputNode
      ensures old(audioManager) != null ==>
        (audioManager.hasEngine == old(audioManager.hasEngine) && audioManager.hasInputNode == old(audioManager.hasInputNode))
      ensures old(transcriptionService) != null ==> transcriptionService == old(transcriptionService)
      ensures hasOverlayController
      ensures appState.modelLoaded == old(appState.modelLoaded) && appState.autoPasteEnabled == old(appState.autoPasteEnabled)
      ensures appState.Background() == old(appState.Background())
      ensures appState.recentTranscriptions == old(appState.recentTranscriptions)
      ensures !KeyDownStarts(old(CurrentFlags()), old(appState.modelLoaded)) ==> appState.showOverlay == old(appState.showOverlay)
      ensures hotKey == old(hotKey) && registrations == old(registrations)
      // not recording, model not loaded: only the loading message
      ensures !old(appState.isRecording) && !old(appState.modelLoaded) ==>
        appState.currentTranscription == LoadingMessage && pending == old(pending) && es == [OverlayShown]
      // not recording, model loaded: a new capture starts
      ensures KeyDownStarts(old(CurrentFlags()), old(appState.modelLoaded)) ==>
        && appState.currentTranscription == "" && appState.showOverlay
        && audioManager.recordedData == []
        && audioManager.isRecording == (audioManager.hasEngine && audioManager.hasInputNode && formatCreated && engineStarts)
        && audioManager.engineRunning == audioManager.isRecording
        && (audioManager.hasEngine && audioManager.hasInputNode && formatCreated ==> audioManager.tapInstalled)
        && pending == old(pending) && es == [OverlayShown]
      // recording in locked mode: stop, queue the completion
      ensures KeyDownStops(old(CurrentFlags())) ==>
        && !audioManager.isRecording && audioManager.recordedData == old(audioManager.recordedData)
        && (old(audioManager.isRecording) ==> !audioManager.tapInstalled && !audioManager.engineRunning)
        && pending == old(pending) + [if old(audioManager.isRecording) then Some(Audio.SamplesToData(old(audioManager.recordedData))) else None]
        && appState.currentTranscription == old(appState.currentTranscription) && es == []
      // recording, not locked: nothing happens
      ensures old(appState.isRecording) && !old(isLockedMode) ==>
        && pending == old(pending) && es == []
        && appState.currentTranscription == old(appState.currentTranscription)
        && audioManager.isRecording == old(audioManager.isRecording)
        && audioManager.recordedData == old(audioManager.recordedData)
      // neither a start nor a stop: the audio manager is untouched, or new and idle
      ensures !KeyDownStarts(old(CurrentFlags()), old(appState.modelLoaded)) && !KeyDownStops(old(CurrentFlags())) ==>
        if old(audioManager) != null then audioManager.State() == old(audioManager.State())
        else audioManager.State() == Audio.ManagerState(true, true, false, false, [], false)
    {
      InitializeServices();
      es := [];
      if appState.isRecording {
        if isLockedMode {
          StopAndTranscribe();
        }
      } else if !appState.modelLoaded {
        es := [OverlayShown];
        appState.currentTranscription := LoadingMessage;
      } else {
        es := [OverlayShown];
        BeginRecording(now, formatCreated, engineStarts);
      }
    }

    /** The key-down branch that starts a recording. */
    method BeginRecording(now: int, formatCreated: bool, engineStarts: bool)
      requires Valid() && audioManager != null && !appState.isRecording && appState.modelLoaded
      modifies this`isHotkeyPressed, this`isLockedMode, this`recordingStartTime, appState, audioManager
      ensures Valid()
      ensures CurrentFlags() == Flags(true, old(appState.isProcessing), false, Some(now), true)
      ensures appState.modelLoaded && appState.autoPasteEnabled == old(appState.autoPasteEnabled)
      ensures appState.Background() == old(appState.Background())
      ensures appState.recentTranscriptions == old(appState.recentTranscriptions)
      ensures appState.currentTranscription == "" && appState.showOverlay
      ensures audioManager.recordedData == []
      ensures audioManager.isRecording == (audioManager.hasEngine && audioManager.hasInputNode && formatCreated && engineStarts)
      ensures audioManager.engineRunning == audioManager.isRecording
      ensures audioManager.hasEngine && audioManager.hasInputNode && formatCreated ==> audioManager.tapInstalled
      ensures audioManager.hasEngine == old(audioManager.hasEngine) && audioManager.hasInputNode == old(audioManager.hasInputNode)
    {
      isHotkeyPressed := true;
      isLockedMode := false;
      recordingStartTime := Some(now);
      appState.StartRecording();
      audioManager.StartRecording(formatCreated, engineStarts);
    }

    /** `handleKeyUp`; `es` are the calls made on the overlay. */
    method HandleKeyUp(now: int) returns (es: seq<Effect>)
      requires Valid()
      modifies this, appState, audioManager
      ensures Valid()
      ensures CurrentFlags() == KeyUpFlags(old(CurrentFlags()), old(appState.modelLoaded), now)
      ensures audioManager == old(audioManager) && transcriptionService == old(transcriptionService)
      ensures audioManager != null ==>
        audioManager.hasEngine == old(audioManager.hasEngine) && audioManager.hasInputNode == old(audioManager.hasInputNode)
      ensures appState.modelLoaded == old(appState.modelLoaded) && appState.autoPasteEnabled == old(appState.autoPasteEnabled)
      ensures appState.recentTranscriptions == old(appState.recentTranscriptions)
      ensures appState.currentTranscription == old(appState.currentTranscription) && appState.showOverlay == old(appState.showOverlay)
      ensures appState.Background() == old(appState.Background())
      ensures hotKey == old(hotKey) && registrations == old(registrations) && hasOverlayController == old(hasOverlayController)
      ensures es == (if old(appState.modelLoaded) || !hasOverlayController then [] else [OverlayHidden(ShortHideDelay)])
      ensures KeyUpStops(old(CurrentFlags()), old(appState.modelLoaded), now) ==>
        && !audioManager.isRecording && audioManager.recordedData == old(audioManager.recordedData)
        && (old(audioManager.isRecording) ==> !audioManager.tapInstalled && !audioManager.engineRunning)
        && pending == old(pending) + [if old(audioManager.isRecording) then Some(Audio.SamplesToData(old(audioManager.recordedData))) else None]
      ensures !KeyUpStops(old(CurrentFlags()), old(appState.modelLoaded), now) ==>
        && pending == old(pending)
        && (audioManager != null ==> audioManager.State() == old(audioManager.State()))
    {
      es := [];
      if !appState.modelLoaded {
        if hasOverlayController {
          es := [OverlayHidden(ShortHideDelay)];
        }
        return;
      }
      if !appState.isRecording {
        return;
      }
      if isLockedMode {
        return;
      }
      if recordingStartTime.Some? && now - recordingStartTime.value < LockThresholdMs {
        isLockedMode := true;
        return;
      }
      StopAndTranscribe();
    }

    /**
     * The completion branches of `stopAndTranscribe` for an outcome; `now` stands
     * for `Date()` and `es` are the calls made on the overlay and the clipboard.
     */
    method Complete(c: Completion, now: int) returns (es: seq<Effect>)
      requires Valid()
      modifies appState
      ensures Valid()
      ensures appState.recentTranscriptions == App.HistoryInsert(old(appState.recentTranscriptions), App.TranscriptionResult(RecordedText(c), now))
      ensures appState.currentTranscription == OverlayTextAfter(c)
      ensures !appState.isProcessing && appState.isRecording == old(appState.isRecording)
      ensures appState.showOverlay == old(appState.showOverlay)
      ensures appState.Background() == old(appState.Background())
      ensures es == CompletionEffects(c, old(appState.autoPasteEnabled))
    {
      match c
      case NoAudio =>
        appState.FinishTranscription("", now);
        appState.currentTranscription := NoAudioMessage;
        es := [Recorded(""), OverlayHidden(ShortHideDelay)];
      case Text(finalText) =>
        if finalText == "" {
          appState.currentTranscription := NoSpeechMessage;
          appState.FinishTranscription("", now);
          es := [Recorded("")];
        } else {
          appState.FinishTranscription(finalText, now);
          es := [Recorded(finalText)];
          if appState.autoPasteEnabled {
            es := es + [Copied(finalText), Pasted];
          }
        }
        es := es + [OverlayHidden(LongHideDelay)];
      case Failed =>
        appState.currentTranscription := FailedMessage;
        appState.FinishTranscription("", now);
        es := [Recorded(""), OverlayHidden(ShortHideDelay)];
    }

    /**
     * The `k`-th queued completion runs: no or empty audio finishes with "";
     * otherwise the overlay says "Transcribing..." and the service transcribes,
     * `engine` being the engine's answer.
     */
    method ResumeCompletion(k: nat, engine: Transcription.EngineResult, now: int) returns (es: seq<Effect>)
      requires Valid() && k < |pending|
      modifies this`pending, appState
      ensures Valid()
      ensures pending == old(pending[..k] + pending[k + 1..])
      ensures var c := CompletionFor(old(pending[k]), engine);
        && appState.recentTranscriptions == App.HistoryInsert(old(appState.recentTranscriptions), App.TranscriptionResult(RecordedText(c), now))
        && appState.currentTranscription == OverlayTextAfter(c)
        && es == CompletionEffects(c, old(appState.autoPasteEnabled))
      ensures CurrentFlags() == old(CurrentFlags()).(processing := false)
      ensures appState.showOverlay == old(appState.showOverlay)
      ensures appState.Background() == old(appState.Background())
    {
      var audioData := pending[k];
      pending := pending[..k] + pending[k + 1..];
      es := FinishCompletion(audioData, engine, now);
    }

    /** The body of a dequeued completion for `audioData`, the engine answering `engine`. */
    method FinishCompletion(audioData: Option<seq<Audio.Byte>>, engine: Transcription.EngineResult, now: int) returns (es: seq<Effect>)
      requires Valid() && appState.modelLoaded
      modifies appState
      ensures Valid()
      ensures var c := CompletionFor(audioData, engine);
        && appState.recentTranscriptions == App.HistoryInsert(old(appState.recentTranscriptions), App.TranscriptionResult(RecordedText(c), now))
        && appState.currentTranscription == OverlayTextAfter(c)
        && es == CompletionEffects(c, old(appState.autoPasteEnabled))
      ensures !appState.isProcessing && appState.isRecording == old(appState.isRecording)
      ensures appState.showOverlay == old(appState.showOverlay)
      ensures appState.Background() == old(appState.Background())
    {
      var outcome := NoAudio;
      if audioData.Some? && audioData.value != [] {
        outcome := TranscribeAudio(audioData.value, engine);
      }
      assert outcome == CompletionFor(audioData, engine);
      es := Complete(outcome, now);
    }

    /** The transcribing part of a completion: the overlay says "Transcribing..." and the service transcribes. */
    method TranscribeAudio(audioData: seq<Audio.Byte>, engine: Transcription.EngineResult) returns (outcome: Completion)
      requires Valid() && appState.modelLoaded && audioData != []
      modifies appState`currentTranscription
      ensures Valid()
      ensures outcome == CompletionFor(Some(audioData), engine)
    {
      appState.currentTranscription := TranscribingMessage;
      var r := transcriptionService.Transcribe(audioData, engine);
      outcome := if r.Success? then Text(r.value) else Failed;
    }

    /** The body of the service's load task runs (see `TranscriptionService.RunLoadTask`). */
    method LoadTaskRuns(fileOnDisk: bool, reply: Transcription.DownloadReply)
      requires Valid() && transcriptionService != null && transcriptionService.loadTask == Transcription.Running
      modifies transcriptionService, appState`modelLoadingProgress, appState`progressLog, appState`modelLoaded
      ensures Valid()
      ensures appState.modelLoaded == Transcription.LoadSucceeds(fileOnDisk, reply)
      ensures appState.progressLog == old(appState.progressLog) + Transcription.LoadProgressSteps(fileOnDisk, reply)
      ensures CurrentFlags() == old(CurrentFlags())
    {
      transcriptionService.RunLoadTask(fileOnDisk, reply);
    }

    /** `cleanup`: drops the hotkey, cleans up the audio manager and closes the overlay. */
    method Cleanup() returns (es: seq<Effect>)
      requires Valid() && Registered()
      modifies this`hotKey, this`registrations, audioManager
      ensures Valid() && Registered()
      ensures hotKey.None? && registrations == multiset{}
      ensures audioManager != null ==>
        !audioManager.hasEngine && !audioManager.hasInputNode && !audioManager.tapInstalled && !audioManager.engineRunning
      ensures audioManager != null ==>
        audioManager.isRecording == old(audioManager.isRecording) && audioManager.recordedData == old(audioManager.recordedData)
      ensures CurrentFlags() == old(CurrentFlags()) && pending == old(pending)
      ensures es == (if hasOverlayController then [OverlayClosed] else [])
    {
      ReleaseHotKey();
      if audioManager != null {
        audioManager.Cleanup();
      }
      es := if hasOverlayController then [OverlayClosed] else [];
    }
  }

  // ---------------------------------------------------------------------------
  // Sessions
  // ---------------------------------------------------------------------------

  /** Launch: the default hotkey is registered and the model, found on disk, is loaded. */
  method Launch() returns (h: HotkeyManager)
    ensures fresh(h) && fresh(h.appState) && h.Valid() && h.Registered()
    ensures h.CurrentFlags() == Idle && h.appState.modelLoaded && h.pending == []
    ensures h.appState.recentTranscriptions == [] && h.appState.autoPasteEnabled
    ensures h.hotKey == Some(Settings.DefaultBinding)
    ensures h.audioManager != null && fresh(h.audioManager)
    ensures h.audioManager.hasEngine && h.audioManager.hasInputNode && !h.audioManager.isRecording
  {
    var app := new App.AppState(App.DefaultAutoPaste, App.DefaultLaunchAtLogin, App.DefaultShowWaveform);
    h := new HotkeyManager(app);
    h.RegisterDefaultHotkey();
    h.LoadTaskRuns(true, Transcription.TransferFailed(""));
  }

  /**
   * A quick tap locks recording on, and the engine delivers `samples` through
   * the tap while it stays on.
   */
  method TapOn(h: HotkeyManager, t: int, samples: seq<Audio.Sample>)
    requires h.Valid() && h.CurrentFlags() == Idle && h.appState.modelLoaded
    requires h.audioManager != null && h.audioManager.hasEngine && h.audioManager.hasInputNode
    modifies h, h.appState, h.audioManager
    ensures h.Valid() && h.audioManager == old(h.audioManager) && h.pending == old(h.pending)
    ensures h.CurrentFlags() == Flags(true, false, true, Some(t), true)
    ensures h.audioManager.isRecording && h.audioManager.recordedData == samples
    ensures h.audioManager.hasEngine && h.audioManager.hasInputNode
    ensures h.appState.modelLoaded && h.appState.autoPasteEnabled == old(h.appState.autoPasteEnabled)
    ensures h.appState.recentTranscriptions == old(h.appState.recentTranscriptions)
    ensures h.hotKey == old(h.hotKey) && h.registrations == old(h.registrations)
  {
    var _ := h.HandleKeyDown(t, true, true);
    var audio := h.audioManager;
    assert audio.isRecording && audio.engineRunning && audio.tapInstalled && audio.recordedData == [];
    audio.TapDelivers(Audio.PcmBuffer(Some(samples), |samples|));
    assert audio.recordedData == samples;
    var _ := h.HandleKeyUp(t + 100);
  }

  /** Recorded samples on which the engine hears "Hello " and "world" complete with "Hello world". */
  lemma {:induction false} HelloWorldCompletion(samples: seq<Audio.Sample>)
    requires |samples| > 0
    ensures CompletionFor(Some(Audio.SamplesToData(samples)),
                          Transcription.Segments([Transcription.Segment("Hello "), Transcription.Segment("world")])) == Text("Hello world")
  {
    var data := Audio.SamplesToData(samples);
    var engine := Transcription.Segments([Transcription.Segment("Hello "), Transcription.Segment("world")]);
    Transcription.JoinTrimExamples();
    CompletionForCases(Some(data), engine);
  }

  /** A locked recording is stopped by the next press, which queues the captured samples. */
  method PressToStop(h: HotkeyManager, t: int)
    requires h.Valid() && h.appState.isRecording && h.isLockedMode
    requires h.audioManager != null && h.audioManager.isRecording
    modifies h, h.appState, h.audioManager
    ensures h.Valid() && h.CurrentFlags() == Stopped
    ensures h.pending == old(h.pending) + [Some(Audio.SamplesToData(old(h.audioManager.recordedData)))]
    ensures h.audioManager == old(h.audioManager)
    ensures h.audioManager.hasEngine == old(h.audioManager.hasEngine) && h.audioManager.hasInputNode == old(h.audioManager.hasInputNode)
    ensures !h.audioManager.isRecording && !h.audioManager.tapInstalled && !h.audioManager.engineRunning
    ensures h.appState.modelLoaded == old(h.appState.modelLoaded) && h.appState.autoPasteEnabled == old(h.appState.autoPasteEnabled)
    ensures h.appState.recentTranscriptions == old(h.appState.recentTranscriptions)
    ensures h.hotKey == old(h.hotKey) && h.registrations == old(h.registrations)
  {
    var _ := h.HandleKeyDown(t, true, true);
  }

  /**
   * One tap-toggle session on an idle controller with the model loaded: a quick
   * tap locks recording on while the engine delivers `samples`, a second press
   * stops it, and the engine hears "Hello " and "world". "Hello world" goes into
   * the history, is copied and pasted, and the controller is idle again with the
   * audio manager's engine and input node in place and nothing captured.
   */
  method HelloWorldSession(h: HotkeyManager, t: int, samples: seq<Audio.Sample>) returns (es: seq<Effect>)
    requires |samples| > 0
    requires h.Valid() && h.CurrentFlags() == Idle && h.pending == []
    requires h.appState.modelLoaded && h.appState.autoPasteEnabled
    requires h.audioManager != null && h.audioManager.hasEngine && h.audioManager.hasInputNode
    modifies h, h.appState, h.audioManager
    ensures h.Valid() && h.CurrentFlags() == Idle && h.pending == []
    ensures h.appState.modelLoaded && h.appState.autoPasteEnabled
    ensures h.appState.recentTranscriptions == App.HistoryInsert(old(h.appState.recentTranscriptions), App.TranscriptionResult("Hello world", t + 2000))
    ensures es == [Recorded("Hello world"), Copied("Hello world"), Pasted, OverlayHidden(LongHideDelay)]
    ensures h.hotKey == old(h.hotKey) && h.registrations == old(h.registrations)
    ensures h.audioManager == old(h.audioManager) && h.audioManager.hasEngine && h.audioManager.hasInputNode
    ensures !h.audioManager.isRecording && !h.audioManager.tapInstalled && !h.audioManager.engineRunning
  {
    TapOn(h, t, samples);
    PressToStop(h, t + 900);
    var engine := Transcription.Segments([Transcription.Segment("Hello "), Transcription.Segment("world")]);
    HelloWorldCompletion(samples);
    es := CompleteWithText(h, engine, "Hello world", t + 2000);
  }

  /**
   * A session from launch. The history then holds exactly "Hello world", which
   * is copied and pasted, and `ready` says the controller can start the next
   * session: idle, the model loaded, the default hotkey, and the audio manager
   * with its engine and input node and nothing captured.
   */
  method TapToggleSession(t: int, samples: seq<Audio.Sample>) returns (history: seq<App.TranscriptionResult>, es: seq<Effect>, ready: bool)
    requires |samples| > 0
    ensures history == [App.TranscriptionResult("Hello world", t + 2000)]
    ensures es == [Recorded("Hello world"), Copied("Hello world"), Pasted, OverlayHidden(LongHideDelay)]
    ensures ready
  {
    var h := Launch();
    es := HelloWorldSession(h, t, samples);
    history := h.appState.recentTranscriptions;
    var audio := h.audioManager;
    ready := h.CurrentFlags() == Idle && h.appState.modelLoaded && h.hotKey == Some(Settings.DefaultBinding)
      && audio != null && audio.hasEngine && audio.hasInputNode && !audio.isRecording && !audio.tapInstalled;
  }

  /** Two sessions from launch, the second 3 s after the first: both transcripts are in the history, newest first. */
  method TwoSessions(t: int, first: seq<Audio.Sample>, second: seq<Audio.Sample>) returns (history: seq<App.TranscriptionResult>)
    requires |first| > 0 && |second| > 0
    ensures history == [App.TranscriptionResult("Hello world", t + 5000), App.TranscriptionResult("Hello world", t + 2000)]
  {
    var h := Launch();
    var _ := HelloWorldSession(h, t, first);
    var _ := HelloWorldSession(h, t + 3000, second);
    history := h.appState.recentTranscriptions;
  }

  /** The one queued completion runs with auto-paste on, and the engine's answer gives the non-empty `text`. */
  method CompleteWithText(h: HotkeyManager, engine: Transcription.EngineResult, text: string, now: int) returns (es: seq<Effect>)
    requires h.Valid() && |h.pending| == 1 && CompletionFor(h.pending[0], engine) == Text(text) && text != ""
    requires h.appState.autoPasteEnabled && h.CurrentFlags() == Stopped
    modifies h`pending, h.appState
    ensures h.Valid() && h.pending == [] && h.CurrentFlags() == Idle
    ensures h.appState.recentTranscriptions == App.HistoryInsert(old(h.appState.recentTranscriptions), App.TranscriptionResult(text, now))
    ensures es == [Recorded(text), Copied(text), Pasted, OverlayHidden(LongHideDelay)]
    ensures h.appState.modelLoaded == old(h.appState.modelLoaded) && h.appState.autoPasteEnabled
  {
    PasteOnlyAfterRecording(Text(text), true);
    es := h.ResumeCompletion(0, engine, now);
  }

  /**
   * Hold-to-record with no audio delivered, then a new press before the queued
   * completion has run: the new recording starts while the old one is still
   * processing, and the old completion then records "", shows "No audio
   * recorded" on top of the live recording and asks for the overlay to be hidden.
   */
  method PressDuringProcessing(t: int) returns (overlapped: bool, history: seq<App.TranscriptionResult>, text: string, stillRecording: bool, es: seq<Effect>)
    ensures overlapped && stillRecording
    ensures history == [App.TranscriptionResult("", t + 800)] && text == NoAudioMessage
    ensures es == [Recorded(""), OverlayHidden(ShortHideDelay)]
  {
    var h := Launch();
    var _ := h.HandleKeyDown(t, true, true);
    var _ := h.HandleKeyUp(t + 600);
    assert h.pending == [Some([])];
    var _ := h.HandleKeyDown(t + 700, true, true);
    overlapped := h.appState.isRecording && h.appState.isProcessing;
    es := h.ResumeCompletion(0, Transcription.EngineFailed(""), t + 800);
    history, text := h.appState.recentTranscriptions, h.appState.currentTranscription;
    stillRecording := h.appState.isRecording && !h.appState.isProcessing;
  }
}
