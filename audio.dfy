/**
 * Audio capture (AudioManager.swift): the recording flag, the buffer of captured
 * samples, and how starting, tap deliveries, stopping and cleanup act on them.
 * The audio engine and its input node are reduced to whether they exist, whether
 * a tap is installed and whether the engine runs; a sample is the 32-bit pattern
 * of a Float and the data handed on is its byte image.
 */
module Audio {
  import opened Wrappers

  type Byte = bv8
  /** The bit pattern of one 32-bit Float sample. */
  type Sample = bv32

  /** The four bytes of a sample as it lies in memory (little-endian). */
  function SampleBytes(w: Sample): (b: seq<Byte>)
    ensures |b| == 4
  {
    [(w & 0xFF) as Byte, ((w >> 8) & 0xFF) as Byte, ((w >> 16) & 0xFF) as Byte, ((w >> 24) & 0xFF) as Byte]
  }

  /** `convertSamplesToData`: the byte image of the sample array, four bytes per sample. */
  function SamplesToData(samples: seq<Sample>): (data: seq<Byte>)
    ensures |data| == 4 * |samples|
  {
    if samples == [] then [] else SampleBytes(samples[0]) + SamplesToData(samples[1..])
  }

  /** The image of a concatenation is the concatenation of the images. */
  lemma {:induction false} SamplesToDataAppend(a: seq<Sample>, b: seq<Sample>)
    ensures SamplesToData(a + b) == SamplesToData(a) + SamplesToData(b)
  {
    if a != [] {
      assert (a + b)[1..] == a[1..] + b;
      SamplesToDataAppend(a[1..], b);
    } else {
      assert a + b == b;
    }
  }

  /** Sample `k` occupies bytes 4k to 4k+3 of the image. */
  lemma {:induction false} SamplesToDataAt(samples: seq<Sample>, k: nat)
    requires k < |samples|
    ensures SamplesToData(samples)[4 * k..4 * k + 4] == SampleBytes(samples[k])
  {
    if k > 0 {
      SamplesToDataAt(samples[1..], k - 1);
      assert SamplesToData(samples)[4 * k..4 * k + 4] == SamplesToData(samples[1..])[4 * (k - 1)..4 * (k - 1) + 4];
    }
  }

  /** One buffer handed to `appendBuffer`: its channel-0 samples, if any, and its frame length. */
  datatype PcmBuffer = PcmBuffer(channelData: Option<seq<Sample>>, frameLength: nat)

  predicate WellFormed(buffer: PcmBuffer)
  {
    buffer.channelData.Some? ==> buffer.frameLength <= |buffer.channelData.value|
  }

  /** The samples `appendBuffer` adds for a buffer: the first `frameLength` of channel 0, or none. */
  function Delivered(buffer: PcmBuffer): (s: seq<Sample>)
    requires WellFormed(buffer)
    ensures buffer.channelData.None? ==> s == []
    ensures buffer.channelData.Some? ==> |s| == buffer.frameLength && s == buffer.channelData.value[..buffer.frameLength]
  {
    if buffer.channelData.None? then [] else buffer.channelData.value[..buffer.frameLength]
  }

  /** Every field of an audio manager at one moment. */
  datatype ManagerState = ManagerState(hasEngine: bool, hasInputNode: bool, tapInstalled: bool,
                                       engineRunning: bool, recordedData: seq<Sample>, isRecording: bool)

  class AudioManager {
    /** `audioEngine != nil` */
    var hasEngine: bool
    /** `inputNode != nil` */
    var hasInputNode: bool
    /** A tap is installed on bus 0 of the input node. */
    var tapInstalled: bool
    /** The engine has been started and not stopped. */
    var engineRunning: bool
    var recordedData: seq<Sample>
    var isRecording: bool

    /**
     * A running engine belongs to a recording whose engine is still held, and a
     * tap lives on a held input node (releasing the node releases its tap).
     */
    ghost predicate Valid()
      reads this
    {
      && (engineRunning ==> isRecording && hasEngine)
      && (tapInstalled ==> hasInputNode)
    }

    function State(): ManagerState
      reads this
    {
      ManagerState(hasEngine, hasInputNode, tapInstalled, engineRunning, recordedData, isRecording)
    }

    /** `init` followed by `setupAudioEngine`: an engine and its input node exist, nothing runs. */
    constructor ()
      ensures Valid()
      ensures hasEngine && hasInputNode && !tapInstalled && !engineRunning
      ensures !isRecording && recordedData == []
    {
      hasEngine, hasInputNode := true, true;
      tapInstalled, engineRunning := false, false;
      recordedData, isRecording := [], false;
    }

    /**
     * `startRecording`. `formatCreated` is whether the 16 kHz mono Float target
     * format could be built; `engineStarts` is whether `audioEngine.start()` succeeds.
     * A tap installed before a failed start stays installed.
     */
    method StartRecording(formatCreated: bool, engineStarts: bool)
      requires Valid()
      modifies this
      ensures Valid()
      ensures old(isRecording) ==> unchanged(this)
      ensures !old(isRecording) ==> recordedData == []
      ensures !old(isRecording) ==> isRecording == (hasEngine && hasInputNode && formatCreated && engineStarts)
      ensures !old(isRecording) ==> tapInstalled == (old(tapInstalled) || (hasEngine && hasInputNode && formatCreated))
      ensures !old(isRecording) ==> engineRunning == isRecording
      ensures hasEngine == old(hasEngine) && hasInputNode == old(hasInputNode)
    {
      if isRecording { return; }
      recordedData := [];
      if !hasInputNode || !hasEngine {
        return;
      }
      if !formatCreated {
        return;
      }
      tapInstalled := true;
      if engineStarts {
        engineRunning := true;
        isRecording := true;
      }
    }

    /** `appendBuffer`: the buffer's samples go to the end of `recordedData`, in index order. */
    method AppendBuffer(buffer: PcmBuffer)
      requires WellFormed(buffer)
      modifies this`recordedData
      ensures recordedData == old(recordedData) + Delivered(buffer)
    {
      if buffer.channelData.None? { return; }
      var channelData := buffer.channelData.value;
      var frameLength := buffer.frameLength;
      for i := 0 to frameLength
        invariant recordedData == old(recordedData) + channelData[..i]
      {
        recordedData := recordedData + [channelData[i]];
      }
    }

    /**
     * One block reaching the tap: AVFoundation calls the tap's block only while a
     * tap is installed and the engine runs, and the block hands the (converted)
     * buffer to `appendBuffer`.
     */
    method TapDelivers(buffer: PcmBuffer)
      requires WellFormed(buffer)
      modifies this`recordedData
      ensures recordedData == old(recordedData) + (if tapInstalled && engineRunning then Delivered(buffer) else [])
    {
      if tapInstalled && engineRunning {
        AppendBuffer(buffer);
      }
    }

    /**
     * `stopRecording`: the completion receives nil when not recording; otherwise
     * the tap is removed, the engine stopped and the completion receives the
     * byte image of every sample recorded since the last start.
     */
    method StopRecording() returns (audioData: Option<seq<Byte>>)
      requires Valid()
      modifies this
      ensures Valid()
      ensures !old(isRecording) ==> audioData == None && unchanged(this)
      ensures old(isRecording) ==> audioData == Some(SamplesToData(old(recordedData)))
      ensures old(isRecording) ==> !isRecording && !engineRunning && !tapInstalled
      ensures recordedData == old(recordedData)
      ensures hasEngine == old(hasEngine) && hasInputNode == old(hasInputNode)
    {
      if !isRecording {
        return None;
      }
      if hasInputNode {
        tapInstalled := false;
      }
      if hasEngine {
        engineRunning := false;
      }
      isRecording := false;
      audioData := Some(SamplesToData(recordedData));
    }

    /**
     * `cleanup`: removes the tap and stops the engine only while recording, always
     * drops the engine and input node, and leaves `isRecording` as it was.
     */
    method Cleanup()
      requires Valid()
      modifies this
      ensures Valid()
      ensures !hasEngine && !hasInputNode && !tapInstalled && !engineRunning
      ensures isRecording == old(isRecording) && recordedData == old(recordedData)
    {
      if isRecording {
        if hasInputNode {
          tapInstalled := false;
        }
        if hasEngine {
          engineRunning := false;
        }
      }
      // Releasing the input node releases any tap left on it by a failed start.
      tapInstalled := false;
      hasEngine := false;
      hasInputNode := false;
    }

    /** `getAvailableInputDevices`, given the names the discovery session finds, in its order. */
    method GetAvailableInputDevices(discovered: seq<string>) returns (devices: seq<string>)
      ensures devices == ["Default"] + discovered
      ensures |devices| == 1 + |discovered| && devices[0] == "Default"
    {
      devices := ["Default"];
      for i := 0 to |discovered|
        invariant devices == ["Default"] + discovered[..i]
      {
        devices := devices + [discovered[i]];
      }
    }
  }

  /**
   * After cleanup nothing can be recorded any more: a start changes no flag,
   * tap deliveries add nothing, and a second cleanup changes nothing. A recording
   * still under way when cleanup runs keeps its flag and its samples; otherwise
   * the start empties the buffer. `beforeSecond` and `afterSecond` are the
   * manager's state on either side of the second cleanup.
   */
  method StartAfterCleanup(a: AudioManager, formatCreated: bool, engineStarts: bool, buffer: PcmBuffer)
    returns (beforeSecond: ManagerState, afterSecond: ManagerState)
    requires a.Valid() && WellFormed(buffer)
    modifies a
    ensures a.Valid() && a.isRecording == old(a.isRecording)
    ensures a.recordedData == if old(a.isRecording) then old(a.recordedData) else []
    ensures !a.hasEngine && !a.hasInputNode && !a.tapInstalled && !a.engineRunning
    ensures afterSecond == beforeSecond && afterSecond == a.State()
  {
    a.Cleanup();
    a.StartRecording(formatCreated, engineStarts);
    a.TapDelivers(buffer);
    beforeSecond := a.State();
    a.Cleanup();
    afterSecond := a.State();
  }
}
