# TypeNone push-to-talk core, modelled in Dafny

TypeNone is a macOS menu-bar dictation tool. The user holds a global hotkey (option + space by
default) to record from the microphone; releasing it stops the recording, the audio is transcribed
by a local Whisper model, the text is added to a short history and, when auto-paste is on, copied
to the clipboard and pasted. A quick tap (released within 400 ms) instead locks recording on until
the next press.

This project models the logic behind that, one Dafny module per source file:

- `Hotkey` (HotkeyManager.swift): the push-to-talk controller. Key-down and key-up are methods of a
  `HotkeyManager` class taking the clock reading `now` in milliseconds. Their effect on the
  recording flags is specified by the pure functions `KeyDownFlags` / `KeyUpFlags`, about which the
  state-machine lemmas are proved. A stop queues the audio for its completion; `ResumeCompletion`
  runs a queued completion, transcribes through the service and records the result. Overlay,
  history and clipboard calls are returned as a list of `Effect` values.
- `App` (AppState.swift): the shared state object as a class, the bounded most-recent-first
  history, and `TranscriptionResult.preview`.
- `Audio` (AudioManager.swift): the capture buffer lifecycle as a class, with the engine, input node
  and tap reduced to flags; samples are 32-bit words and the data handed on is their little-endian
  byte image.
- `Transcription` (TranscriptionService.swift): the load task (download when missing, load, publish
  progress), the `transcribe` gateway, the bytes-to-frames decoding over an array, segment join and
  trim, the delegate callbacks and the error messages.
- `Waveform` (WaveformView.swift): the sliding window of levels and the bar-height map.
- `Settings` (SettingsView.swift): the `ModifierOption` and `KeyOption` tables.
- `Wrappers`: `Option`, `Result` and `Outcome`.

The controller's invariant `Valid` ties the services, the recording flags, the queue and the load
state together. The registration invariant `Registered` (exactly the current hotkey is registered with
the hotkey library) is a separate predicate: the methods that assign `hotKey` require and ensure it,
and every other method leaves `hotKey` and `registrations` unchanged. The app's preferences
(`autoPasteEnabled`, `launchAtLogin`, `showWaveform`) are `@AppStorage` values, so AppState's
constructor takes their stored values as parameters.

Asynchronous hops are flattened into sequential calls. `init` of the service starts its load task,
and the task's body runs when `HotkeyManager.LoadTaskRuns` (that is, `TranscriptionService.RunLoadTask`)
is called. `Transcribe` requires the load task to be finished, which stands for its `await` having
returned. The completion that `stopRecording` schedules is queued in `pending` and runs when
`ResumeCompletion` is called for it, in any order relative to later key events. Outside inputs are
parameters: whether the audio engine starts, whether the model file is on disk, the download reply,
the engine's answer (`EngineResult`), whether the audio manager can build its target format, the
discovered device names and the clock.

Where the behaviour differs from what the app's description suggests, the model follows the code:

- A key-down consults only `isRecording`, never `isProcessing`, so a press while a transcription is
  still running starts a new recording (`Hotkey.RecordingWhileProcessing`, `Hotkey.PressDuringProcessing`).
- Every completion calls `finishTranscription`, and the no-audio, empty-text and failure paths pass
  `""`, so each of them adds an empty history entry.
- On empty text and on failure, "No speech detected" and "Transcription failed" are set just before
  `finishTranscription("")` overwrites them, so the overlay ends with "". "No audio recorded" is
  set after the call and stays until the hide that the completion schedules clears it
  (`Hotkey.EmptyOutcomesRecordEmpty`).
- The engine-progress delegate writes `0.5 + 0.5·p` at any time, so `modelLoadingProgress` can fall
  back from 1.0 to 0.5 after the model is loaded (`Transcription.ProgressCanRegress`).
- When the audio engine fails to start, AppState has already been set to recording while the audio
  manager is not recording. The tap installed before the failed start stays installed until
  cleanup: `stopRecording` returns at its `isRecording` guard before it would remove the tap.
- The unit tests also refer to a `WhisperModel` enum that does not exist in the sources; that test
  has nothing to model.

## Model

| member | source | states |
|---|---|---|
| Settings.ModifierId | TypeNone/Sources/Views/SettingsView.swift:135 | a modifier option's id is its raw value, and no other modifier option has that id |
| Settings.KeyId | TypeNone/Sources/Views/SettingsView.swift:164 | a key option's id is its raw value, and no other key option has that id |
| Settings.ModifierRawValue | TypeNone/Sources/Views/SettingsView.swift:128-133 | a non-empty raw value that contains "+" exactly for the two-modifier options (distinctness: `ModifierRawValuesDistinct`) |
| Settings.KeyRawValue | TypeNone/Sources/Views/SettingsView.swift:158-162 | a non-empty lower-case name (distinctness: `KeyRawValuesDistinct`) |
| Settings.ModifierDisplayName | TypeNone/Sources/Views/SettingsView.swift:137-145 | the label shows ⌥, ⌘ and ⌃ exactly for the modifiers the option stands for (distinctness: `DisplayNamesDistinct`) |
| Settings.KeyDisplayName | TypeNone/Sources/Views/SettingsView.swift:166-173 | the label is the raw value with its first letter capitalised (distinctness: `DisplayNamesDistinct`) |
| Settings.ModifierFlags | TypeNone/Sources/Views/SettingsView.swift:147-155 | one or two modifiers, never command together with control (the exact sets: `SingleModifierFlags`, `CombinedModifierFlags`, `ModifierFlagsInjective`) |
| Settings.HotKeyKey | TypeNone/Sources/Views/SettingsView.swift:175-182 | the space key exactly for the one multi-letter raw value, a letter key otherwise (injectivity: `HotKeyKeyInjective`) |
| Settings.ModifierRawValuesDistinct | TypeNone/Sources/Views/SettingsView.swift:128-133 | two modifier options have the same raw value exactly when they are the same option |
| Settings.KeyRawValuesDistinct | TypeNone/Sources/Views/SettingsView.swift:158-162 | two key options have the same raw value exactly when they are the same option |
| Settings.DisplayNamesDistinct | TypeNone/Sources/Views/SettingsView.swift:137-173 | each modifier option and each key option has a label no other option of its kind shares |
| Settings.AllCasesComplete | TypeNone/Sources/Views/SettingsView.swift:128-162 | `allCases` lists every modifier option and every key option exactly once |
| Settings.SingleModifierFlags | TypeNone/Sources/Views/SettingsView.swift:149-151 | option, command and control each stand for the singleton set of their own modifier |
| Settings.CombinedModifierFlags | TypeNone/Sources/Views/SettingsView.swift:152-153 | the two combined options stand for the union of their two components, two modifiers each |
| Settings.ModifierFlagsInjective | TypeNone/Sources/Views/SettingsView.swift:147-155 | different modifier options select different modifier sets |
| Settings.HotKeyKeyInjective | TypeNone/Sources/Views/SettingsView.swift:175-182 | two key options select the same key exactly when they are the same option |
| Settings.SelectedBinding | TypeNone/Sources/Views/SettingsView.swift:100-106 | the binding the settings screen installs has the selected key's hotkey key and the selected modifier's flags, and always at least one modifier |
| Settings.SelectedBindingInjective | TypeNone/Sources/Views/SettingsView.swift:100-106 | two selections install the same binding exactly when they are the same selection |
| Settings.DefaultSelectionIsDefaultBinding | TypeNone/Sources/Views/SettingsView.swift:35-36 | the picker's initial selection is option + space, the binding installed at launch |
| App.Preview | TypeNone/Sources/App/AppState.swift:83-88 | up to 50 characters the preview is the text; longer texts give their first 50 characters followed by "...", 53 in all |
| App.HistoryInsert | TypeNone/Sources/App/AppState.swift:55-61 | the history grows by one up to 10 entries and then keeps 10; the new result is first, followed by the old entries in order, minus the oldest at capacity |
| App.HistoryInsertBounded | TypeNone/Sources/App/AppState.swift:55-61 | a history of at most 10 stays at most 10; the new result is first, followed by the nine most recent old ones, and at capacity the oldest is evicted |
| App.HistoryInsertAll | TypeNone/Sources/App/AppState.swift:55-61 | after any run of finishes the history is the ten most recent results of all, newest first |
| App.AppState.constructor | TypeNone/Sources/App/AppState.swift:10-33 | the initial values: not recording, processing or showing, empty text and history, device "Default", model not loaded at progress 0; the three preferences are their stored values, passed in |
| App.AppState.StartRecording | TypeNone/Sources/App/AppState.swift:39-43 | recording and overlay shown with empty text; processing, history and every other field unchanged |
| App.AppState.StopRecording | TypeNone/Sources/App/AppState.swift:45-48 | not recording and processing; nothing else changes |
| App.AppState.FinishTranscription | TypeNone/Sources/App/AppState.swift:50-62 | processing ends, the text is shown and a result with it (empty text included) is inserted first into the bounded history |
| App.AppState.HideOverlay | TypeNone/Sources/App/AppState.swift:64-67 | overlay hidden and text cleared; nothing else changes |
| App.RecordingFlow | TypeNone/Tests/TypeNoneTests.swift:17-50 | start, stop, finish leaves not recording, not processing, the text shown and exactly one history entry |
| Audio.SampleBytes | TypeNone/Sources/Services/AudioManager.swift:163-167 | a sample occupies four bytes |
| Audio.SamplesToData | TypeNone/Sources/Services/AudioManager.swift:163-167 | the data holds four bytes per sample |
| Audio.SamplesToDataAppend | TypeNone/Sources/Services/AudioManager.swift:163-167 | the image of a concatenation of samples is the concatenation of their images |
| Audio.SamplesToDataAt | TypeNone/Sources/Services/AudioManager.swift:163-167 | sample k occupies bytes 4k to 4k+3 |
| Audio.Delivered | TypeNone/Sources/Services/AudioManager.swift:134-141 | a buffer contributes its first `frameLength` channel-0 samples, or nothing without channel data |
| Audio.AudioManager.constructor | TypeNone/Sources/Services/AudioManager.swift:19-28 | an engine and input node exist, no tap, nothing running or recorded |
| Audio.AudioManager.StartRecording | TypeNone/Sources/Services/AudioManager.swift:40-110 | a no-op while recording; otherwise the buffer is cleared and recording starts exactly when engine, node and format exist and the engine starts; a tap stays installed after a failed start |
| Audio.AudioManager.AppendBuffer | TypeNone/Sources/Services/AudioManager.swift:134-141 | the buffer's samples are appended in index order after the old ones, which are untouched |
| Audio.AudioManager.TapDelivers | TypeNone/Sources/Services/AudioManager.swift:72-100 | a block reaching an installed tap on a running engine is appended; otherwise nothing is |
| Audio.AudioManager.StopRecording | TypeNone/Sources/Services/AudioManager.swift:113-131 | nil and no change when not recording; otherwise tap removed, engine stopped, not recording, and the byte image of every sample since the start delivered |
| Audio.AudioManager.Cleanup | TypeNone/Sources/Services/AudioManager.swift:187-194 | engine, node and tap gone and nothing running; `isRecording` and the buffer kept |
| Audio.StartAfterCleanup | TypeNone/Sources/Services/AudioManager.swift:187-194 | after cleanup a start changes no flag and deliveries add nothing; a recording still on keeps its flag and samples, otherwise the buffer is empty; engine, node and tap stay gone; a second cleanup leaves the state exactly as it was |
| Audio.AudioManager.GetAvailableInputDevices | TypeNone/Sources/Services/AudioManager.swift:170-184 | "Default" first, then the discovered names in order |
| Transcription.ErrorDescription | TypeNone/Sources/Services/TranscriptionService.swift:193-204 | a message is never empty, and those of the reason-carrying errors end with the reason (injectivity: `ErrorDescriptionInjective`) |
| Transcription.DescriptionEmbedsReason | TypeNone/Sources/Services/TranscriptionService.swift:193-204 | the messages of the two reason-carrying errors are their fixed prefix followed by the reason |
| Transcription.ErrorDescriptionInjective | TypeNone/Sources/Services/TranscriptionService.swift:193-204 | two errors get the same message exactly when they are the same error, reason included |
| Transcription.Join | TypeNone/Sources/Services/TranscriptionService.swift:140 | the joined text is empty exactly when every segment's text is (concatenation: `JoinAppend`) |
| Transcription.JoinAppend | TypeNone/Sources/Services/TranscriptionService.swift:140 | joining two runs of segments joins their texts in emission order |
| Transcription.TrimLeading | TypeNone/Sources/Services/TranscriptionService.swift:140 | the result is a suffix of the input, everything cut off is whitespace and it does not start with whitespace |
| Transcription.TrimTrailing | TypeNone/Sources/Services/TranscriptionService.swift:140 | the result is a prefix of the input, everything cut off is whitespace and it does not end with whitespace |
| Transcription.Trim | TypeNone/Sources/Services/TranscriptionService.swift:140 | the result is never longer than the input (its meaning: `TrimEdges`, `TrimSpec`, `TrimFixed`, `TrimIdempotent`) |
| Transcription.TrimEdges | TypeNone/Sources/Services/TranscriptionService.swift:140 | a trimmed text neither starts nor ends with whitespace |
| Transcription.TrimSpec | TypeNone/Sources/Services/TranscriptionService.swift:140 | the trimmed text is a slice of the input with only whitespace cut off either side |
| Transcription.TrimFixed | TypeNone/Sources/Services/TranscriptionService.swift:140 | a text without whitespace at either end is its own trim |
| Transcription.TrimIdempotent | TypeNone/Sources/Services/TranscriptionService.swift:140 | trimming twice is trimming once |
| Transcription.JoinTrimExamples | TypeNone/Sources/Services/TranscriptionService.swift:140 | zero segments give ""; "Hello " and "world" give "Hello world" |
| Transcription.TranscriptNormalised | TypeNone/Sources/Services/TranscriptionService.swift:140 | a transcript never starts or ends with whitespace and trimming it again changes nothing |
| Transcription.SampleOf | TypeNone/Sources/Services/TranscriptionService.swift:148-157 | encoding the sample decoded from four bytes gives the four bytes back |
| Transcription.SampleOfBytes | TypeNone/Sources/Services/TranscriptionService.swift:148-157 | decoding the bytes of a sample gives the sample |
| Transcription.Frames | TypeNone/Sources/Services/TranscriptionService.swift:149-150 | one frame per whole group of four bytes; trailing bytes are dropped |
| Transcription.FramesAt | TypeNone/Sources/Services/TranscriptionService.swift:148-157 | frame k is decoded from bytes 4k to 4k+3 |
| Transcription.FramesOfSamplesToData | TypeNone/Sources/Services/TranscriptionService.swift:148-157 | decoding the data made from samples gives back the samples |
| Transcription.SamplesToDataOfFrames | TypeNone/Sources/Services/TranscriptionService.swift:148-157 | encoding the decoded frames gives back the data without its trailing partial sample |
| Transcription.ConvertDataToFrames | TypeNone/Sources/Services/TranscriptionService.swift:148-157 | the preallocated array is filled with exactly the decoded frames |
| Transcription.DownloadOutcome | TypeNone/Sources/Services/TranscriptionService.swift:48-69 | the download succeeds exactly for an HTTP 200 response whose file was moved into place, after a model file already there was removed |
| Transcription.LoadProgressSteps | TypeNone/Sources/Services/TranscriptionService.swift:72-99 | the load publishes at least one value, and its last is 1.0 exactly when the load succeeds (its shape: `LoadProgressShape`) |
| Transcription.LoadProgressShape | TypeNone/Sources/Services/TranscriptionService.swift:72-99 | the published progress is non-empty, non-decreasing and in (0, 1]; it ends at 1.0 exactly when the load succeeds, a failure publishes only 0.01, and a missing file publishes 0.01 first |
| Transcription.EngineProgress | TypeNone/Sources/Services/TranscriptionService.swift:163 | the engine's fraction in [0, 1] is rescaled into [0.5, 1.0], with 0 giving the load-start value 0.5 and 1 giving the ready value 1.0 |
| Transcription.ProgressCanRegress | TypeNone/Sources/Services/TranscriptionService.swift:161-166 | a load from disk publishes 1.0 and loads the model; an engine update of 0 arriving after it publishes 0.5, so the published progress is no longer non-decreasing |
| Transcription.TranscribeOutcome | TypeNone/Sources/Services/TranscriptionService.swift:117-145 | the call throws exactly when the model is not ready, or when there is a whole frame and the engine throws (the cases: `TranscribeOutcomeCases`) |
| Transcription.TranscribeOutcomeCases | TypeNone/Sources/Services/TranscriptionService.swift:117-145 | not ready throws `modelNotLoaded`; fewer than four bytes give "" whatever the engine says; otherwise the engine's error is rethrown or its segments joined and trimmed; a result is always its own trim |
| Transcription.TranscriptionService.constructor | TypeNone/Sources/Services/TranscriptionService.swift:27-31 | the load task is started and no model is loaded |
| Transcription.TranscriptionService.DownloadModel | TypeNone/Sources/Services/TranscriptionService.swift:48-69 | the outcome is the download outcome for the file present beforehand; a transfer error or a non-200 response leaves the file as it was; a failed removal keeps the old file; once no file is in place a failed move leaves none; a success leaves the new file in place |
| Transcription.TranscriptionService.LoadModel | TypeNone/Sources/Services/TranscriptionService.swift:102-114 | without the file it throws `modelNotLoaded` and changes nothing; otherwise the engine exists and the model is loaded |
| Transcription.TranscriptionService.PublishProgress | TypeNone/Sources/Services/TranscriptionService.swift:77-94 | the value becomes the current progress and is appended to the published sequence |
| Transcription.TranscriptionService.RunLoadTask | TypeNone/Sources/Services/TranscriptionService.swift:72-99 | the task publishes the load sequence's progress values in order and marks the model loaded exactly when the load succeeds; a failure is only logged and keeps the last progress |
| Transcription.TranscriptionService.Transcribe | TypeNone/Sources/Services/TranscriptionService.swift:117-145 | after the load has finished the result is the gateway outcome for the model's readiness, the audio and the engine's answer |
| Transcription.TranscriptionService.DidUpdateProgress | TypeNone/Sources/Services/TranscriptionService.swift:161-166 | progress becomes 0.5 plus half the engine's fraction |
| Transcription.TranscriptionService.DidProcessNewSegments | TypeNone/Sources/Services/TranscriptionService.swift:168-175 | the overlay text becomes the partial segments joined and trimmed |
| Waveform.BarHeight | TypeNone/Sources/Views/WaveformView.swift:29-37 | past the window the bar is 4 high; for levels in [0, 1] it lies within [4, maxHeight], sitting at the floor exactly for level 0 and at the full height exactly for level 1 |
| Waveform.Shifted | TypeNone/Sources/Views/WaveformView.swift:39-52 | the window keeps its length, or becomes a single level when it held at most one, and ends with the new level (`ShiftedSlides`, `ShiftedRestarts`, `ShiftedAllWindow`) |
| Waveform.ShiftedSlides | TypeNone/Sources/Views/WaveformView.swift:41-44 | a window of more than one level keeps its length, gets the new level last and moves the others one place left |
| Waveform.ShiftedRestarts | TypeNone/Sources/Views/WaveformView.swift:45-46 | a window of at most one level becomes exactly the new level |
| Waveform.ShiftedAllWindow | TypeNone/Sources/Views/WaveformView.swift:39-52 | after a run of updates the window holds the most recent levels of all |
| Waveform.ShiftedKeepsRange | TypeNone/Sources/Views/WaveformView.swift:39-52 | levels in [0, 1] stay in [0, 1] |
| Waveform.WaveformView.constructor | TypeNone/Sources/Views/WaveformView.swift:5-8 | the view holds its level and an empty window |
| Waveform.WaveformView.OnAppear | TypeNone/Sources/Views/WaveformView.swift:24-26 | the window becomes twelve zeros |
| Waveform.WaveformView.UpdateLevels | TypeNone/Sources/Views/WaveformView.swift:39-52 | the window becomes the shifted window |
| Waveform.WaveformView.LevelChanged | TypeNone/Sources/Views/WaveformView.swift:21-23 | the view takes the new level, and its window shifts exactly when the level differs from the previous one |
| Waveform.AppearThenUpdate | TypeNone/Sources/Views/WaveformView.swift:21-26 | a view shown at level 0, after appearing and a new level from its parent: twelve levels ending with the new one, the other bars at the minimum height, and no change at all when the new level is also 0 |
| Hotkey.KeyDownFlags | TypeNone/Sources/Services/HotkeyManager.swift:75-111 | the flags change exactly when the key-down starts or stops a recording; afterwards it is recording exactly when it was recording unlocked or the key-down starts (the cases: `KeyDownIgnored`, `KeyDownStartsRecording`, `KeyDownInLockedModeStops`) |
| Hotkey.KeyUpFlags | TypeNone/Sources/Services/HotkeyManager.swift:114-140 | the flags change exactly when the key-up locks or stops the recording, and a key-up never starts one (the cases: `KeyUpCases`, `ThresholdBoundary`) |
| Hotkey.KeyDownIgnored | TypeNone/Sources/Services/HotkeyManager.swift:80-95 | a key-down without the model, or while recording unlocked, changes no flag |
| Hotkey.KeyDownStartsRecording | TypeNone/Sources/Services/HotkeyManager.swift:97-103 | a starting key-down records, clears locked mode, takes the press time and marks the key pressed, keeping `isProcessing` |
| Hotkey.KeyDownInLockedModeStops | TypeNone/Sources/Services/HotkeyManager.swift:81-87 | a key-down in locked mode stops: not recording, processing, unlocked, no start time, not pressed |
| Hotkey.KeyUpCases | TypeNone/Sources/Services/HotkeyManager.swift:114-140 | without the model, not recording or locked, a key-up changes no flag; otherwise it locks within 400 ms and stops after, exactly one of the two |
| Hotkey.TapLocksHoldStops | TypeNone/Sources/Services/HotkeyManager.swift:132-139 | a 100 ms tap locks and the next press stops; a 600 ms hold stops; a key-up while locked keeps it locked |
| Hotkey.ThresholdBoundary | TypeNone/Sources/Services/HotkeyManager.swift:132 | 399 ms after the press a release locks, 400 ms after it stops |
| Hotkey.RecordingWhileProcessing | TypeNone/Sources/Services/HotkeyManager.swift:81-103 | hold, release and press again before the completion runs gives recording and processing at once |
| Hotkey.CompletionEffects | TypeNone/Sources/Services/HotkeyManager.swift:156-190 | the first effect records the outcome's text and the last hides the overlay, after 2 s for a transcript and 1.5 s otherwise (`CompletionRecordsOnce`, `PasteOnlyAfterRecording`) |
| Hotkey.OverlayTextAfter | TypeNone/Sources/Services/HotkeyManager.swift:156-190 | the overlay text is empty exactly after a failure or an empty transcript (`EmptyOutcomesRecordEmpty`) |
| Hotkey.CompletionRecordsOnce | TypeNone/Sources/Services/HotkeyManager.swift:156-190 | every completion records exactly one history entry, first, with its text |
| Hotkey.PasteOnlyAfterRecording | TypeNone/Sources/Services/HotkeyManager.swift:174-180 | the clipboard is used exactly for non-empty text with auto-paste on, and then as record, copy, paste, hide |
| Hotkey.EmptyOutcomesRecordEmpty | TypeNone/Sources/Services/HotkeyManager.swift:156-190 | no audio, empty text and failure record ""; the last two leave the overlay at "" and no audio leaves "No audio recorded" |
| Hotkey.CompletionFor | TypeNone/Sources/Services/HotkeyManager.swift:152-190 | a completion has no audio exactly when the data is nil or empty (the cases: `CompletionForCases`, `FailedOnlyOnEngineError`) |
| Hotkey.CompletionForCases | TypeNone/Sources/Services/HotkeyManager.swift:153-168 | no or empty audio never reaches the engine; under four bytes give empty text; otherwise the engine's failure or its joined and trimmed text |
| Hotkey.FailedOnlyOnEngineError | TypeNone/Sources/Services/HotkeyManager.swift:166-190 | a completion fails exactly when the data holds a whole frame and the engine throws |
| Hotkey.HelloWorldCompletion | TypeNone/Sources/Services/HotkeyManager.swift:163-180 | recorded audio on which the engine hears "Hello " and "world" completes with "Hello world" |
| Hotkey.HotkeyManager.constructor | TypeNone/Sources/Services/HotkeyManager.swift:10-17 | no hotkey, no services, nothing pressed, nothing queued |
| Hotkey.HotkeyManager.InitializeServices | TypeNone/Sources/Services/HotkeyManager.swift:59-69 | each missing service is created, a new audio manager with engine and input node and nothing installed, running or captured; an existing one is never replaced, and with all present nothing changes |
| Hotkey.HotkeyManager.AssignHotKey | TypeNone/Sources/Services/HotkeyManager.swift:43 | the new binding is the only registration left once the binding it replaces is released |
| Hotkey.HotkeyManager.ReleaseHotKey | TypeNone/Sources/Services/HotkeyManager.swift:42 | no hotkey and no registration |
| Hotkey.HotkeyManager.RegisterDefaultHotkey | TypeNone/Sources/Services/HotkeyManager.swift:20-38 | option + space is the only registration and the services exist, a new audio manager idle with engine and input node and a new service with a running load task; the recording flags are unchanged |
| Hotkey.HotkeyManager.UpdateHotkey | TypeNone/Sources/Services/HotkeyManager.swift:41-56 | exactly the new key and modifiers are registered; only the hotkey changes |
| Hotkey.HotkeyManager.StopAndTranscribe | TypeNone/Sources/Services/HotkeyManager.swift:143-153 | the press state is cleared, AppState moves to processing and a completion is queued with every captured sample's bytes (nil when capture was not on); a capture that was on ends with the tap removed and the engine stopped; the overlay, history, text, preferences, progress, hotkey and registrations are unchanged |
| Hotkey.HotkeyManager.HandleKeyDown | TypeNone/Sources/Services/HotkeyManager.swift:75-111 | the flags follow the key-down table; without the model only the loading message shows; a start clears the buffer and shows the overlay, installs the tap when engine, node and format exist, and records exactly when the engine also starts; a locked stop queues the captured audio and removes the tap; a key-down that neither starts nor stops leaves an existing audio manager's whole state (engine, node, tap, running engine, buffer, flag) as it was; an existing audio manager always keeps its engine and node, and an existing service is kept; preferences, progress, history and hotkey are unchanged |
| Hotkey.HotkeyManager.BeginRecording | TypeNone/Sources/Services/HotkeyManager.swift:97-110 | recording from the press time, unlocked and pressed, with a cleared buffer and the engine running exactly when it started |
| Hotkey.HotkeyManager.HandleKeyUp | TypeNone/Sources/Services/HotkeyManager.swift:114-140 | the flags follow the key-up table; without the model the overlay is hidden; a completion is queued exactly when the release stops the recording, and then the tap is removed and the engine stopped; a release that does not stop leaves the audio manager's whole state (engine, node, tap, running engine, buffer, flag) as it was; the engine and node are always kept; overlay, text, preferences, progress and hotkey are unchanged |
| Hotkey.HotkeyManager.Complete | TypeNone/Sources/Services/HotkeyManager.swift:156-190 | the history gets the outcome's text, the overlay ends with its message and the overlay and clipboard calls are the outcome's effects; the overlay flag, preferences and progress are unchanged |
| Hotkey.HotkeyManager.ResumeCompletion | TypeNone/Sources/Services/HotkeyManager.swift:152-191 | the queued completion is removed and finishes with the outcome of its audio and the engine's answer; only `isProcessing` among the flags changes; the overlay flag, `modelLoaded`, auto-paste and progress are unchanged |
| Hotkey.HotkeyManager.FinishCompletion | TypeNone/Sources/Services/HotkeyManager.swift:155-190 | with the model loaded, a dequeued completion finishes with the outcome of its audio and the engine's answer: history, overlay text and effects follow that outcome, processing ends, and recording, overlay flag, preferences and progress are unchanged |
| Hotkey.HotkeyManager.TranscribeAudio | TypeNone/Sources/Services/HotkeyManager.swift:163-168 | with the model loaded, the outcome is the completion for the audio and the engine's answer |
| Hotkey.HotkeyManager.LoadTaskRuns | TypeNone/Sources/Services/TranscriptionService.swift:72-99 | the model is marked loaded exactly when the load succeeds, with the load sequence's progress published; the recording flags are unchanged |
| Hotkey.HotkeyManager.Cleanup | TypeNone/Sources/Services/HotkeyManager.swift:196-200 | the hotkey is unregistered, the audio manager loses engine, node and tap with its buffer and recording flag kept, and the overlay is closed; flags and queue unchanged |
| Hotkey.Launch | TypeNone/Sources/App/TypeNoneApp.swift:33-40 | after launch with the model on disk: idle, model loaded, empty history, default hotkey |
| Hotkey.TapOn | TypeNone/Sources/Services/HotkeyManager.swift:97-136 | a quick tap locks recording on and keeps every delivered sample; the engine and input node stay, and the hotkey and its registration are unchanged |
| Hotkey.PressToStop | TypeNone/Sources/Services/HotkeyManager.swift:81-87 | a press in locked mode stops and queues the byte image of the captured samples, removing the tap and stopping the engine while keeping the engine and input node, and leaves the history and hotkey as they were |
| Hotkey.TapToggleSession | TypeNone/Sources/Services/HotkeyManager.swift:75-193 | from launch, tap to lock, press to stop: the history is exactly "Hello world", which is copied and pasted before the overlay hides; afterwards the controller is idle with the model loaded, the default hotkey, and an audio manager with engine and input node and no tap |
| Hotkey.HelloWorldSession | TypeNone/Sources/Services/HotkeyManager.swift:75-193 | on any idle controller with the model, auto-paste and an audio manager with engine and node: one tap-toggle session adds "Hello world" to the history, copies and pastes it, and ends in the state it started from (idle, nothing queued, engine and node in place, no tap, hotkey unchanged) |
| Hotkey.TwoSessions | TypeNone/Sources/Services/HotkeyManager.swift:75-193 | two sessions in a row from launch both complete: the history holds both transcripts, newest first |
| Hotkey.CompleteWithText | TypeNone/Sources/Services/HotkeyManager.swift:163-184 | the one queued completion, whose transcript is non-empty, with auto-paste on: the text goes into the history, is copied and pasted, the overlay hides after 2 s and the controller is idle |
| Hotkey.PressDuringProcessing | TypeNone/Sources/Services/HotkeyManager.swift:81-110 | a hold during which no audio is delivered queues an empty buffer; a press before that completion has run records while processing; the completion then records "", shows "No audio recorded" over the live recording and schedules a hide after 1.5 s |

## Left out

- Microphone permission, the `AVAudioConverter` resampling and its frame-capacity arithmetic on Doubles are left out. A tap delivery is a buffer already in the target format. Whether the target format can be built and whether the engine starts are inputs.
- `calculateAudioLevel` and the `audioLevel` updates are floating-point RMS and decibel arithmetic, so they are left out. Waveform levels are plain reals.
- `modelLoadingProgress` is a `Double` and `updateLevels` works on `Float`s; the model uses exact `real`s for both, so `EngineProgress`, `LoadProgressShape` and the waveform lemmas ignore rounding.
- `TranscriptionResult.id` (a fresh `UUID`) and `formattedTime` (a `DateFormatter` string) are left out: a result is its text and timestamp, so two results with the same text and time are equal in the model, where the app's list tells them apart by id.
- Audio.AudioManager.Cleanup: also clears `tapInstalled` when a failed start left a tap behind. The source's `cleanup` removes the tap only while recording and then releases the input node; the model treats the tap as released with the node, which the source does not do explicitly.
- Float samples are their 32-bit patterns. Only the byte layout is modelled, not floating-point values.
- `URLSession`, `FileManager` and `createDirectory` are not modelled. The download is a `DownloadReply` input: its `removed` flag is whether `removeItem` of a model file already in place succeeds, and its `moved` flag whether `moveItem` of the download succeeds.
- The Whisper engine is not modelled. Its answer to a transcription is an `EngineResult` input, and a successful load always creates the engine.
- Concurrency is not modelled: `Task { @MainActor }`, `DispatchQueue` hops and the tap callback thread. Events are sequential calls in arrival order, and the hotkey handlers' `[weak self]` guard always finds the controller alive.
- Timing is not modelled. `Date()` is an integer in milliseconds, and the overlay hide delays appear only as numbers in the `OverlayHidden` effect.
- The overlay window, the clipboard service and the paste keystroke are effect values, not behaviour.
- `OverlayHidden` effects are not applied. The real `hideOverlay(afterDelay:)` later calls `AppState.hideOverlay` (FloatingOverlay.swift:68-83), which hides the overlay and clears the text, so in `Hotkey.PressDuringProcessing` that call would hide the live recording's overlay; the model stops at the request.
- Installing a tap on bus 0 when a failed start has already left one there is treated as harmless: `tapInstalled` simply stays true. AVFoundation does not allow two taps on one bus, and what it then does is not modelled.
- `@AppStorage` persistence is not modelled: the three preferences are constructor parameters standing for their stored values, and later writes are not saved anywhere.
- `Recorded` is an effect the model adds for bookkeeping. It marks each `finishTranscription` call so that the order of recording and pasting can be stated.
- A queued completion runs as one step. Key events cannot interleave with its `await` on `transcribe`, so the "Transcribing..." message is always replaced in the same step.
- `getModelSize`, the `onProgressUpdate` and `onNewSegments` callbacks, and the `didCompleteWithSegments` and `didErrorWith` delegates do nothing the model can observe beyond logging, so they are left out.
- The views themselves are not part of this model: MenuBarView, FloatingOverlay, TypeNoneApp (beyond the launch scenario) and the SettingsView bodies, together with the standalone website.
- App.Preview: counts `Character`s as Dafny `char`s, so grapheme clusters of several scalars are not modelled.
- Transcription.Trim: uses a fixed list of Unicode whitespace and line-separator scalars, which stands for `CharacterSet.whitespacesAndNewlines`.
- Settings.HotKeyKeyInjective: the `Key` type holds only the four keys the settings screen offers, not the HotKey library's full key set.
