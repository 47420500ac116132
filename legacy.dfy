/** autosampler.py: the older single-file sampler. Its recording loop
    `record_audio` is the same threshold/silence machine as recorder.py's,
    with these differences: every waiting phase starts from an empty chunk
    list, the status line says when a segment starts, an error discards the
    segment, a manual stop discards it too, the sample rate of a saved file
    is looked up from the selected device at save time, and the capture
    callback queues a block only while recording. */
module Legacy {
  import opened Common
  import opened Audio
  import opened Handler
  import opened Segmenter
  import opened History
  import Recorder
  import Gui

  /** What the status line shows. `Failure(prefix)` stands for a message made of
      a fixed prefix and the text of an exception the model does not track. */
  datatype Notice = Status(text: string) | Failure(prefix: string)

  const WAITING: string := "Waiting for sound..."
  const RECORDING: string := "Recording..."
  const RECORDING_STOPPED: string := "Recording stopped"
  const MONITORING: string := "Monitoring audio levels..."
  const MONITORING_STOPPED: string := "Monitoring stopped"
  const NO_DEVICE: string := "Error: No audio device selected"
  const ERROR_PREFIX: string := "Error: "
  const SAVE_ERROR_PREFIX: string := "Error saving recording: "

  /** The status shown after a save: the file name only, not the directory. */
  function SavedText(stamp: string): string {
    "Saved: " + RecordingName(stamp) + "\nWaiting for new sound..."
  }

  /** Whether `sd.InputStream(...).start()` succeeds. */
  datatype StreamOpen = Opens | OpenFails

  /** The state of the sampler window that the modelled methods touch. */
  datatype SamplerState = SamplerState(
    recording: bool, monitoring: bool, running: bool,
    threshold: real, silenceTimeout: real, outputDir: string,
    phase: Recorder.Phase, chunks: seq<Block>, silenceStart: Option<real>,
    audioQueue: seq<Block>, levelQueue: seq<real>,
    stream: Option<StreamParams>,
    notices: seq<Notice>, files: seq<WavFile>)

  /** Chunks exist exactly during the active phase (the list is local to the
      loop and emptied at the start of every waiting phase); the timer lives
      only in the active phase; the loop runs exactly when both flags are set. */
  predicate Valid(s: SamplerState) {
    (s.phase == Recorder.Idle <==> !(s.recording && s.running)) &&
    (s.chunks != [] <==> s.phase == Recorder.Active) &&
    (s.phase != Recorder.Active ==> s.silenceStart.None?)
  }

  /** `get_channel_count`. */
  function ChannelCount(mode: string): int {
    if mode == "Stereo" then 2 else 1
  }

  /** The sample rate `save_recording` writes with: that of the device
      selected at that moment, `None` when the lookup raises or finds nothing. */
  function SelectedRate(dev: PyResult<Option<InputDevice>>): Option<int> {
    if dev.Ok? && dev.value.Some? then Some(Trunc(dev.value.value.samplerate)) else None
  }

  // ---------------------------------------------------------------------------
  // The recording loop
  // ---------------------------------------------------------------------------

  /** The head of `record_audio`'s outer loop: a status message and an empty list. */
  function Rewait(s: SamplerState): (r: SamplerState)
    ensures Valid(s) && s.phase != Recorder.Idle ==> Valid(r)
  {
    s.(phase := Recorder.Waiting, chunks := [], silenceStart := None, notices := s.notices + [Status(WAITING)])
  }

  /** `save_recording(chunks)`: one file of the blocks in order at the selected
      device's rate, with a status naming it; otherwise (no device, disk
      failure, mismatched blocks) an error status and no file. */
  function SaveChunks(s: SamplerState, disk: Disk, rate: Option<int>): (r: SamplerState)
    ensures r.(notices := s.notices, files := s.files) == s
    ensures s.chunks == [] ==> r == s
    ensures s.chunks != [] && rate.Some? && Stackable(s.chunks) && disk.ok ==>
              r.files == s.files + [WavFile(RecordingPath(s.outputDir, disk.stamp), VStack(s.chunks), rate.value)] &&
              r.notices == s.notices + [Status(SavedText(disk.stamp))]
    ensures s.chunks != [] && !(rate.Some? && Stackable(s.chunks) && disk.ok) ==>
              r.files == s.files && r.notices == s.notices + [Failure(SAVE_ERROR_PREFIX)]
  {
    if s.chunks == [] then s
    else if rate.None? then s.(notices := s.notices + [Failure(SAVE_ERROR_PREFIX)])
    else
      match WrittenFile(s.chunks, s.outputDir, disk, rate.value)
      case None => s.(notices := s.notices + [Failure(SAVE_ERROR_PREFIX)])
      case Some(f) => s.(files := s.files + [f], notices := s.notices + [Status(SavedText(disk.stamp))])
  }

  /** One poll of `record_audio`. A block without samples raises inside the
      loop: the error is shown and the outer loop starts over, dropping the
      segment. A segment that ends is saved and the outer loop starts over. */
  function Next(s: SamplerState, p: Recorder.Poll, rate: Option<int>): SamplerState {
    if s.phase == Recorder.Idle || p.Empty? then s
    else
      match Level(p.block)
      case None =>
        Rewait(s.(notices := s.notices + [Status(ERROR_PREFIX + Recorder.ZERO_SIZE_ERROR)]))
      case Some(level) =>
        if s.phase == Recorder.Waiting then
          if Triggers(level, s.threshold) then
            s.(phase := Recorder.Active, chunks := [p.block], silenceStart := None, notices := s.notices + [Status(RECORDING)])
          else s
        else
          var s1 := s.(chunks := s.chunks + [p.block]);
          match SilenceStep(level, s.threshold, s.silenceStart, p.now, s.silenceTimeout)
          case Continue(t) => s1.(silenceStart := t)
          case End => Rewait(SaveChunks(s1, p.disk, rate))
  }

  /** `Next` for a block numpy cannot reduce. */
  lemma DropNext(s: SamplerState, p: Recorder.Poll, rate: Option<int>)
    requires s.phase != Recorder.Idle && p.Got? && Level(p.block).None?
    ensures Next(s, p, rate) ==
            s.(phase := Recorder.Waiting, chunks := [], silenceStart := None,
               notices := s.notices + [Status(ERROR_PREFIX + Recorder.ZERO_SIZE_ERROR), Status(WAITING)])
  {
    assert s.notices + [Status(ERROR_PREFIX + Recorder.ZERO_SIZE_ERROR)] + [Status(WAITING)] ==
           s.notices + [Status(ERROR_PREFIX + Recorder.ZERO_SIZE_ERROR), Status(WAITING)];
  }

  /** `Next` in the active phase, for a block with samples. */
  lemma ActiveNext(s: SamplerState, p: Recorder.Poll, level: real, rate: Option<int>)
    requires s.phase == Recorder.Active && p.Got? && Level(p.block) == Some(level)
    ensures var s1 := s.(chunks := s.chunks + [p.block]);
            Next(s, p, rate) ==
            match SilenceStep(level, s.threshold, s.silenceStart, p.now, s.silenceTimeout)
            case Continue(t) => s1.(silenceStart := t)
            case End => Rewait(SaveChunks(s1, p.disk, rate))
  {
  }

  function Run(s: SamplerState, polls: seq<Recorder.Poll>, rate: Option<int>): SamplerState {
    if polls == [] then s
    else Next(Run(s, polls[..|polls| - 1], rate), polls[|polls| - 1], rate)
  }

  // ---------------------------------------------------------------------------
  // Callback, monitoring and the two buttons
  // ---------------------------------------------------------------------------

  /** `audio_callback`: nothing for a non-zero status or a block numpy cannot
      reduce; otherwise the level is always queued and a copy of the block
      only while recording. */
  function Callback(s: SamplerState, indata: Block, status: nat): (r: SamplerState)
    ensures r.(audioQueue := s.audioQueue, levelQueue := s.levelQueue) == s
    ensures status != 0 || Level(indata).None? ==> r == s
    ensures status == 0 && Level(indata).Some? ==>
              r.levelQueue == s.levelQueue + [Level(indata).value] &&
              r.audioQueue == s.audioQueue + (if s.recording then [indata] else [])
  {
    if status != 0 then s
    else
      match Level(indata)
      case None => s
      case Some(level) =>
        var s1 := s.(levelQueue := s.levelQueue + [level]);
        if s.recording then s1.(audioQueue := s1.audioQueue + [indata]) else s1
  }

  /** `toggle_monitoring`: start a stream on the selected device with the
      chosen channel count and the device's rate, or stop the running one.
      Starting fails visibly when no device is selected, when the selection
      does not parse, or when the stream does not start. */
  function Monitor(s: SamplerState, dev: PyResult<Option<InputDevice>>, mode: string, open: StreamOpen): SamplerState {
    if !s.monitoring then
      match dev
      case ValueError => s.(notices := s.notices + [Failure(ERROR_PREFIX)])
      case Ok(None) => s.(notices := s.notices + [Status(NO_DEVICE)])
      case Ok(Some(d)) =>
        if open == Opens then
          s.(monitoring := true, stream := Some(StreamParams(d.index, ChannelCount(mode), Trunc(d.samplerate))),
             notices := s.notices + [Status(MONITORING)])
        else s.(notices := s.notices + [Failure(ERROR_PREFIX)])
    else s.(monitoring := false, stream := None, notices := s.notices + [Status(MONITORING_STOPPED)])
  }

  /** The start branch of `toggle_recording` once monitoring runs: the flag,
      a status message and the loop thread (which starts waiting unless the
      window is closing). */
  function BeginRecording(s: SamplerState): SamplerState {
    var s1 := s.(recording := true, notices := s.notices + [Status(WAITING)]);
    if s1.running then Rewait(s1) else s1
  }

  /** The stop branch: the loop ends and its chunk list is dropped unsaved. */
  function EndRecording(s: SamplerState): SamplerState {
    s.(recording := false, phase := Recorder.Idle, chunks := [], silenceStart := None,
       notices := s.notices + [Status(RECORDING_STOPPED)])
  }

  /** `toggle_recording`: start monitoring first if needed, and record only
      if monitoring is then on; or stop. */
  function Toggle(s: SamplerState, dev: PyResult<Option<InputDevice>>, mode: string, open: StreamOpen): SamplerState {
    if !s.recording then
      var s1 := if !s.monitoring then Monitor(s, dev, mode, open) else s;
      if s1.monitoring then BeginRecording(s1) else s1
    else EndRecording(s)
  }

  /** `on_closing`: both flags cleared and the stream closed; the segment in
      progress is lost. */
  function Close(s: SamplerState): SamplerState {
    s.(running := false, recording := false, phase := Recorder.Idle, chunks := [], silenceStart := None, stream := None)
  }

  // ---------------------------------------------------------------------------
  // Properties
  // ---------------------------------------------------------------------------

  /** One poll keeps the invariant: in particular every waiting phase begins
      with an empty list, and flags, settings, queues and stream are untouched. */
  lemma NextKeepsValid(s: SamplerState, p: Recorder.Poll, rate: Option<int>)
    requires Valid(s)
    ensures Valid(Next(s, p, rate))
    ensures var r := Next(s, p, rate);
            r.recording == s.recording && r.running == s.running && r.monitoring == s.monitoring &&
            r.threshold == s.threshold && r.silenceTimeout == s.silenceTimeout && r.outputDir == s.outputDir &&
            r.audioQueue == s.audioQueue && r.levelQueue == s.levelQueue && r.stream == s.stream &&
            s.notices <= r.notices && s.files <= r.files
  {
    if s.phase == Recorder.Active && p.Got? && Level(p.block).Some? {
      ActiveNext(s, p, Level(p.block).value, rate);
    }
  }

  lemma {:induction false} RunKeepsValid(s: SamplerState, polls: seq<Recorder.Poll>, rate: Option<int>)
    requires Valid(s)
    ensures Valid(Run(s, polls, rate))
    ensures s.files <= Run(s, polls, rate).files && s.notices <= Run(s, polls, rate).notices
  {
    if polls != [] {
      RunKeepsValid(s, polls[..|polls| - 1], rate);
      NextKeepsValid(Run(s, polls[..|polls| - 1], rate), polls[|polls| - 1], rate);
    }
  }

  /** While waiting, a strictly louder block than the threshold starts a
      segment of exactly that block and says so; any other block changes nothing. */
  lemma WaitingTriggersAboveThreshold(s: SamplerState, b: Block, now: real, disk: Disk, rate: Option<int>)
    requires s.phase == Recorder.Waiting && Level(b).Some?
    ensures Level(b).value > s.threshold ==>
              Next(s, Recorder.Got(b, now, disk), rate) ==
              s.(phase := Recorder.Active, chunks := [b], silenceStart := None, notices := s.notices + [Status(RECORDING)])
    ensures Level(b).value <= s.threshold ==> Next(s, Recorder.Got(b, now, disk), rate) == s
  {
  }

  /** In the active phase the block is appended; the first quiet block starts
      the timer and a loud one clears it. */
  lemma ActiveAppends(s: SamplerState, b: Block, now: real, disk: Disk, rate: Option<int>)
    requires s.phase == Recorder.Active && Level(b).Some?
    ensures Level(b).value >= s.threshold ==>
              Next(s, Recorder.Got(b, now, disk), rate) == s.(chunks := s.chunks + [b], silenceStart := None)
    ensures Level(b).value < s.threshold && s.silenceStart.None? ==>
              Next(s, Recorder.Got(b, now, disk), rate) == s.(chunks := s.chunks + [b], silenceStart := Some(now))
  {
  }

  /** A segment ends exactly on a quiet block at least `silenceTimeout` after
      the timer started. It is saved, this block included, and the loop waits
      again with an empty list. */
  lemma SegmentEndsOnTimeout(s: SamplerState, b: Block, now: real, disk: Disk, rate: Option<int>)
    requires s.phase == Recorder.Active && Level(b).Some?
    ensures Next(s, Recorder.Got(b, now, disk), rate).phase == Recorder.Waiting <==>
            Level(b).value < s.threshold && s.silenceStart.Some? && now - s.silenceStart.value >= s.silenceTimeout
    ensures Next(s, Recorder.Got(b, now, disk), rate).phase == Recorder.Waiting ==>
            var r := Next(s, Recorder.Got(b, now, disk), rate);
            r.chunks == [] &&
            (rate.Some? && Stackable(s.chunks + [b]) && disk.ok ==>
               r.files == s.files + [WavFile(RecordingPath(s.outputDir, disk.stamp), VStack(s.chunks + [b]), rate.value)])
  {
  }

  /** Unlike recorder.py, an unreducible block drops the segment in progress. */
  lemma EmptyBlockDropsSegment(s: SamplerState, b: Block, now: real, disk: Disk, rate: Option<int>)
    requires s.phase != Recorder.Idle && Level(b).None?
    ensures Next(s, Recorder.Got(b, now, disk), rate).chunks == []
    ensures Next(s, Recorder.Got(b, now, disk), rate).files == s.files
    ensures Next(s, Recorder.Got(b, now, disk), rate).phase == Recorder.Waiting
  {
  }

  /** Unlike recorder.py, a manual stop saves nothing and drops the chunks. */
  lemma StopDiscardsSegment(s: SamplerState, dev: PyResult<Option<InputDevice>>, mode: string, open: StreamOpen)
    requires Valid(s) && s.recording
    ensures var r := Toggle(s, dev, mode, open);
            Valid(r) && !r.recording && r.phase == Recorder.Idle && r.chunks == [] && r.files == s.files
  {
  }

  /** Recording is switched on only when monitoring runs afterwards, and then
      the loop is waiting with an empty list (unless the window is closing). */
  lemma StartRequiresMonitoring(s: SamplerState, dev: PyResult<Option<InputDevice>>, mode: string, open: StreamOpen)
    requires Valid(s) && !s.recording
    ensures var r := Toggle(s, dev, mode, open);
            Valid(r) && r.recording == r.monitoring &&
            (r.monitoring <==> s.monitoring || (dev.Ok? && dev.value.Some? && open == Opens)) &&
            (r.recording && s.running ==> r.phase == Recorder.Waiting && r.chunks == [])
  {
  }

  /** Starting monitoring opens the selected device with the chosen channel
      count and the device's rate truncated; any failure leaves monitoring off
      and the stream as it was. Stopping always closes the stream. */
  lemma MonitorOpensSelected(s: SamplerState, dev: PyResult<Option<InputDevice>>, mode: string, open: StreamOpen)
    ensures var r := Monitor(s, dev, mode, open);
            r.(monitoring := s.monitoring, stream := s.stream, notices := s.notices) == s &&
            |r.notices| == |s.notices| + 1
    ensures !s.monitoring ==>
              var r := Monitor(s, dev, mode, open);
              (r.monitoring <==> dev.Ok? && dev.value.Some? && open == Opens) &&
              (r.monitoring ==>
                 r.stream == Some(StreamParams(dev.value.value.index, if mode == "Stereo" then 2 else 1,
                                               Trunc(dev.value.value.samplerate)))) &&
              (!r.monitoring ==> r.stream == s.stream)
    ensures s.monitoring ==> !Monitor(s, dev, mode, open).monitoring && Monitor(s, dev, mode, open).stream.None?
  {
  }

  /** With the loop stopped no poll changes anything. */
  lemma {:induction false} IdleRun(s: SamplerState, polls: seq<Recorder.Poll>, rate: Option<int>)
    requires s.phase == Recorder.Idle
    ensures Run(s, polls, rate) == s
  {
    if polls != [] {
      IdleRun(s, polls[..|polls| - 1], rate);
    }
  }

  /** Closing the window stops the loop for good: it keeps the files, drops
      the segment, and no later poll or button restarts the loop. */
  lemma CloseIsFinal(s: SamplerState, dev: PyResult<Option<InputDevice>>, mode: string, open: StreamOpen,
                     polls: seq<Recorder.Poll>, rate: Option<int>)
    requires Valid(s)
    ensures Valid(Close(s)) && Close(s).files == s.files && Close(s).chunks == [] && Close(s).stream.None?
    ensures Run(Close(s), polls, rate) == Close(s)
    ensures Toggle(Close(s), dev, mode, open).phase == Recorder.Idle
  {
    IdleRun(Close(s), polls, rate);
  }

  /** The start branch of `toggle_recording` in two steps: monitoring, then recording. */
  lemma ToggleStarts(s: SamplerState, dev: PyResult<Option<InputDevice>>, mode: string, open: StreamOpen, s1: SamplerState)
    requires !s.recording
    requires s1 == if !s.monitoring then Monitor(s, dev, mode, open) else s
    ensures Toggle(s, dev, mode, open) == if s1.monitoring then BeginRecording(s1) else s1
  {
  }

  /** The callback queues a block only while recording, but always its level. */
  lemma CallbackQueuesBlocksOnlyWhileRecording(s: SamplerState, indata: Block)
    requires Level(indata).Some?
    ensures |Callback(s, indata, 0).levelQueue| == |s.levelQueue| + 1
    ensures |Callback(s, indata, 0).audioQueue| == |s.audioQueue| + (if s.recording then 1 else 0)
  {
  }

  /** The two recording loops take the same decisions: from corresponding
      active states, a block leaves both machines in the same phase with the
      same chunks and timer; and when the segment ends, both save the same
      samples to the same path. */
  lemma SameSegmentsAsRecorder(s: SamplerState, t: Recorder.RecState, b: Block, now: real, disk: Disk, rate: int)
    requires s.phase == Recorder.Active && t.phase == Recorder.Active && Level(b).Some?
    requires s.chunks == t.chunks && s.silenceStart == t.silenceStart
    requires s.threshold == t.threshold && s.silenceTimeout == t.silenceTimeout && s.outputDir == t.outputDir
    requires Stackable(s.chunks + [b]) && disk.ok
    ensures var r := Next(s, Recorder.Got(b, now, disk), Some(rate));
            var q := Recorder.Next(t, Recorder.Got(b, now, disk), rate);
            r.phase == q.phase && r.chunks == q.chunks && r.silenceStart == q.silenceStart &&
            r.files[|s.files|..] == q.files[|t.files|..]
  {
    var p := Recorder.Got(b, now, disk);
    ActiveNext(s, p, Level(b).value, Some(rate));
    match SilenceStep(Level(b).value, s.threshold, s.silenceStart, now, s.silenceTimeout)
    case Continue(_) =>
    case End =>
      VStackHasSamples(s.chunks + [b], |s.chunks|);
      Recorder.SegmentEndsOnTimeout(t, b, now, disk, rate);
      SegmentEndsOnTimeout(s, b, now, disk, Some(rate));
  }

  // ---------------------------------------------------------------------------
  // The window object
  // ---------------------------------------------------------------------------

  class AudioSampler {
    const history: LevelHistory
    var recording: bool
    var monitoring: bool
    var running: bool
    var threshold: real
    var silenceTimeout: real
    var outputDir: string
    var phase: Recorder.Phase
    var recordedChunks: seq<Block>
    var silenceStart: Option<real>
    var audioQueue: seq<Block>
    var levelQueue: seq<real>
    var stream: Option<StreamParams>
    var notices: seq<Notice>
    var files: seq<WavFile>
    var inputDevices: seq<InputDevice>
    var interfaceSel: string
    var modeValues: seq<string>
    var modeSel: string

    function State(): SamplerState
      reads this
    {
      SamplerState(recording, monitoring, running, threshold, silenceTimeout, outputDir,
                   phase, recordedChunks, silenceStart, audioQueue, levelQueue, stream, notices, files)
    }

    /** `get_selected_device` on the interface selector. */
    function SelectedDevice(): PyResult<Option<InputDevice>>
      reads this`interfaceSel, this`inputDevices
    {
      Gui.GetSelectedDevice(interfaceSel, inputDevices)
    }

    /** `__init__` with the devices `sd.query_devices` reports: the same input
        filter as audio_handler.py's, the first entry selected, the status
        "Ready", and the mode options of that device (none without devices). */
    constructor (history: LevelHistory, devices: seq<RawDevice>)
      ensures this.history == history
      ensures inputDevices == InputDevices(devices)
      ensures interfaceSel == if inputDevices == [] then "" else Gui.InterfaceLabel(inputDevices[0])
      ensures Valid(State()) && phase == Recorder.Idle && !recording && !monitoring && running
      ensures threshold == 0.01 && silenceTimeout == 1.0 && outputDir == "recordings"
      ensures audioQueue == [] && levelQueue == [] && stream == None && files == []
      ensures notices == [Status("Ready")]
      ensures modeSel == "Mono"
      ensures modeValues == if inputDevices == [] then [] else Gui.ModeOptions(inputDevices[0].channels)
    {
      this.history := history;
      recording := false;
      monitoring := false;
      running := true;
      threshold := 0.01;
      silenceTimeout := 1.0;
      outputDir := "recordings";
      phase := Recorder.Idle;
      recordedChunks := [];
      silenceStart := None;
      audioQueue := [];
      levelQueue := [];
      stream := None;
      notices := [Status("Ready")];
      files := [];
      inputDevices := [];
      interfaceSel := "";
      modeValues := [];
      modeSel := "Mono";
      new;
      SetupSelectors(devices);
    }

    /** The selector part of `setup_gui`: the input devices, the first one
        selected, and the channel modes it offers with mono chosen. */
    method SetupSelectors(devices: seq<RawDevice>)
      requires modeValues == [] && modeSel == "Mono"
      modifies this`inputDevices, this`interfaceSel, this`modeValues, this`modeSel
      ensures inputDevices == InputDevices(devices)
      ensures interfaceSel == if inputDevices == [] then "" else Gui.InterfaceLabel(inputDevices[0])
      ensures modeValues == if inputDevices == [] then [] else Gui.ModeOptions(inputDevices[0].channels)
      ensures modeSel == "Mono"
    {
      var listed := InputDevices(devices);
      inputDevices := listed;
      interfaceSel := if listed == [] then "" else Gui.InterfaceLabel(listed[0]);
      ghost var dev := SelectedDevice();
      if listed != [] {
        Gui.ListedInterfacesSelect(devices, 0);
        assert dev == Ok(Some(listed[0]));
      }
      UpdateChannelOptions();
      assert dev == SelectedDevice();
    }

    /** `update_channel_options`: stereo is offered only for a device with two
        or more channels, and the mode goes back to mono. */
    method UpdateChannelOptions()
      modifies this`modeValues, this`modeSel
      ensures var dev := SelectedDevice();
              if dev.Ok? && dev.value.Some? then
                modeValues == Gui.ModeOptions(dev.value.value.channels) && modeSel == "Mono"
              else
                modeValues == old(modeValues) && modeSel == old(modeSel)
    {
      var dev := Gui.GetSelectedDevice(interfaceSel, inputDevices);
      if dev.Ok? && dev.value.Some? {
        modeValues := Gui.ModeOptions(dev.value.value.channels);
        modeSel := "Mono";
      }
      assert dev == SelectedDevice();
    }

    method AudioCallback(indata: Block, status: nat)
      modifies this`levelQueue, this`audioQueue
      ensures State() == Callback(old(State()), indata, status)
    {
      if status != 0 {
        return;
      }
      var level := Level(indata);
      if level.None? {
        return;
      }
      levelQueue := levelQueue + [level.value];
      if recording {
        audioQueue := audioQueue + [indata];
      }
    }

    method ToggleMonitoring(open: StreamOpen)
      modifies this`monitoring, this`stream, this`notices
      ensures State() == Monitor(old(State()), SelectedDevice(), modeSel, open)
    {
      if !monitoring {
        var dev := Gui.GetSelectedDevice(interfaceSel, inputDevices);
        assert dev == SelectedDevice();
        if dev.ValueError? {
          notices := notices + [Failure(ERROR_PREFIX)];
          return;
        }
        if dev.value.None? {
          notices := notices + [Status(NO_DEVICE)];
          return;
        }
        var device := dev.value.value;
        if open == OpenFails {
          notices := notices + [Failure(ERROR_PREFIX)];
          return;
        }
        stream := Some(StreamParams(device.index, ChannelCount(modeSel), Trunc(device.samplerate)));
        monitoring := true;
        notices := notices + [Status(MONITORING)];
      } else {
        stream := None;
        monitoring := false;
        notices := notices + [Status(MONITORING_STOPPED)];
      }
    }

    method ToggleRecording(open: StreamOpen)
      requires Valid(State())
      modifies this`recording, this`monitoring, this`stream, this`notices, this`phase, this`recordedChunks, this`silenceStart
      ensures Valid(State())
      ensures State() == Toggle(old(State()), SelectedDevice(), modeSel, open)
    {
      if !recording {
        StartRecording(open);
      } else {
        recording := false;
        phase := Recorder.Idle;
        recordedChunks := [];
        silenceStart := None;
        notices := notices + [Status(RECORDING_STOPPED)];
      }
    }

    /** The start branch of `toggle_recording`. */
    method StartRecording(open: StreamOpen)
      requires Valid(State()) && !recording
      modifies this`recording, this`monitoring, this`stream, this`notices, this`phase, this`recordedChunks, this`silenceStart
      ensures Valid(State())
      ensures State() == Toggle(old(State()), SelectedDevice(), modeSel, open)
    {
      ghost var s0 := State();
      ghost var dev := SelectedDevice();
      if !monitoring {
        ToggleMonitoring(open);
      }
      ghost var s1 := State();
      assert s1 == if !s0.monitoring then Monitor(s0, dev, modeSel, open) else s0;
      BeginIfMonitoring();
      ToggleStarts(s0, dev, modeSel, open, s1);
      StartRequiresMonitoring(s0, dev, modeSel, open);
    }

    /** Set the flag, show the status and start the loop thread, provided
        monitoring runs. */
    method BeginIfMonitoring()
      modifies this`recording, this`notices, this`phase, this`recordedChunks, this`silenceStart
      ensures State() == if old(monitoring) then BeginRecording(old(State())) else old(State())
    {
      if monitoring {
        recording := true;
        notices := notices + [Status(WAITING)];
        if running {
          phase := Recorder.Waiting;
          recordedChunks := [];
          silenceStart := None;
          notices := notices + [Status(WAITING)];
        }
      }
    }

    /** One poll of `record_audio`. */
    method Step(p: Recorder.Poll)
      requires Valid(State())
      modifies this`phase, this`recordedChunks, this`silenceStart, this`notices, this`files
      ensures Valid(State())
      ensures State() == Next(old(State()), p, SelectedRate(SelectedDevice()))
    {
      NextKeepsValid(State(), p, SelectedRate(SelectedDevice()));
      if phase == Recorder.Idle || p.Empty? {
        return;
      }
      var level := Level(p.block);
      if level.None? {
        DropBlock(p);
      } else if phase == Recorder.Waiting {
        WaitStep(p, level.value);
      } else {
        ActiveStep(p, level.value);
      }
    }

    /** The `except` branch: the error, then the loop waits again. */
    method DropBlock(p: Recorder.Poll)
      requires phase != Recorder.Idle && p.Got? && Level(p.block).None?
      modifies this`phase, this`recordedChunks, this`silenceStart, this`notices
      ensures State() == Next(old(State()), p, SelectedRate(SelectedDevice()))
    {
      DropNext(State(), p, SelectedRate(SelectedDevice()));
      notices := notices + [Status(ERROR_PREFIX + Recorder.ZERO_SIZE_ERROR)];
      notices := notices + [Status(WAITING)];
      phase := Recorder.Waiting;
      recordedChunks := [];
      silenceStart := None;
    }

    /** The inner waiting loop, for one block. */
    method WaitStep(p: Recorder.Poll, level: real)
      requires phase == Recorder.Waiting && p.Got? && Level(p.block) == Some(level)
      modifies this`phase, this`recordedChunks, this`silenceStart, this`notices
      ensures State() == Next(old(State()), p, SelectedRate(SelectedDevice()))
    {
      if Triggers(level, threshold) {
        recordedChunks := [p.block];
        silenceStart := None;
        phase := Recorder.Active;
        notices := notices + [Status(RECORDING)];
      }
    }

    /** The recording loop, for one block. */
    method ActiveStep(p: Recorder.Poll, level: real)
      requires phase == Recorder.Active && p.Got? && Level(p.block) == Some(level)
      modifies this`phase, this`recordedChunks, this`silenceStart, this`notices, this`files
      ensures State() == Next(old(State()), p, SelectedRate(SelectedDevice()))
    {
      ActiveNext(State(), p, level, SelectedRate(SelectedDevice()));
      recordedChunks := recordedChunks + [p.block];
      var silence := SilenceStep(level, threshold, silenceStart, p.now, silenceTimeout);
      if silence.Continue? {
        silenceStart := silence.silenceStart;
      } else {
        EndSegment(p.disk);
      }
    }

    /** A segment that ends is saved, and the outer loop starts over. */
    method EndSegment(disk: Disk)
      requires phase == Recorder.Active
      modifies this`phase, this`recordedChunks, this`silenceStart, this`notices, this`files
      ensures State() == Rewait(SaveChunks(old(State()), disk, SelectedRate(SelectedDevice())))
    {
      SaveRecording(disk);
      phase := Recorder.Waiting;
      recordedChunks := [];
      silenceStart := None;
      notices := notices + [Status(WAITING)];
    }

    /** `save_recording(recorded_chunks)`. */
    method SaveRecording(disk: Disk)
      modifies this`notices, this`files
      ensures State() == SaveChunks(old(State()), disk, SelectedRate(SelectedDevice()))
    {
      if recordedChunks == [] {
        return;
      }
      var dev := Gui.GetSelectedDevice(interfaceSel, inputDevices);
      assert dev == SelectedDevice();
      if !disk.ok || !Stackable(recordedChunks) || !(dev.Ok? && dev.value.Some?) {
        notices := notices + [Failure(SAVE_ERROR_PREFIX)];
        return;
      }
      var data := VStack(recordedChunks);
      var filename := RecordingPath(outputDir, disk.stamp);
      files := files + [WavFile(filename, data, Trunc(dev.value.value.samplerate))];
      notices := notices + [Status(SavedText(disk.stamp))];
    }

    /** `record_audio` over a sequence of polls. */
    method RecordAudio(polls: seq<Recorder.Poll>)
      requires Valid(State())
      modifies this`phase, this`recordedChunks, this`silenceStart, this`notices, this`files
      ensures Valid(State())
      ensures State() == Run(old(State()), polls, SelectedRate(SelectedDevice()))
    {
      var i := 0;
      while i < |polls|
        invariant 0 <= i <= |polls|
        invariant Valid(State())
        invariant State() == Run(old(State()), polls[..i], SelectedRate(SelectedDevice()))
      {
        Step(polls[i]);
        assert polls[..i + 1][..i] == polls[..i];
        i := i + 1;
      }
      assert polls[..|polls|] == polls;
    }

    /** `update_plot`: the queued levels enter the history, oldest first. */
    method UpdatePlot()
      requires history.Valid()
      modifies this`levelQueue, history.levelData
      ensures levelQueue == []
      ensures history.levelData[..] == Drained(old(history.levelData[..]), old(levelQueue))
    {
      history.Drain(levelQueue);
      levelQueue := [];
    }

    method OnClosing()
      requires Valid(State())
      modifies this
      ensures Valid(State())
      ensures State() == Close(old(State()))
    {
      running := false;
      recording := false;
      phase := Recorder.Idle;
      recordedChunks := [];
      silenceStart := None;
      stream := None;
    }
  }
}
