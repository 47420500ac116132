/** recorder.py: the two-phase threshold/silence segment recorder. The loop
    thread of `record_loop` is modelled as a sequence of polls of the audio
    queue, each either a block (with the time it is taken and the state of
    the disk should a save happen then) or a 0.1 s timeout; the queue
    hand-off between threads is not part of this model. */
module Recorder {
  import opened Common
  import opened Audio
  import opened Handler
  import opened Segmenter
  import Config

  /** `Idle`: no loop thread runs (the loop condition `recording and running`
      is false). `Waiting` and `Active` are the outer and inner loop. */
  datatype Phase = Idle | Waiting | Active

  /** The three kinds of `gui_callback` notification. */
  datatype Event = StatusUpdate(message: string) | RecordingSaved(filename: string) | Error(message: string)

  /** One `audio_queue.get(timeout=0.1)`. */
  datatype Poll = Got(block: Block, now: real, disk: Disk) | Empty

  /** The text of the ValueError numpy raises for `np.max` of an empty array. */
  const ZERO_SIZE_ERROR: string := "zero-size array to reduction operation maximum which has no identity"

  const STARTED: string := "Recording started"

  /** Everything the recorder holds, plus the notifications it has sent and
      the files it has had written, oldest first. */
  datatype RecState = RecState(
    recording: bool, running: bool,
    threshold: real, silenceTimeout: real, outputDir: string,
    phase: Phase, chunks: seq<Block>, silenceStart: Option<real>,
    events: seq<Event>, files: seq<WavFile>)

  /** Every block in the list has at least one sample: the loop measures a
      block's level before it appends it. */
  predicate Sampled(chunks: seq<Block>) {
    forall k :: 0 <= k < |chunks| ==> Level(chunks[k]).Some?
  }

  /** The loop runs exactly when both flags are set; an active segment is never
      empty; the silence timer exists only inside the active phase; every
      pending chunk has samples. */
  predicate Valid(s: RecState) {
    (s.phase == Idle <==> !(s.recording && s.running)) &&
    (s.phase == Active ==> s.chunks != []) &&
    (s.phase != Active ==> s.silenceStart.None?) &&
    Sampled(s.chunks)
  }

  /** The state `__init__` sets up. */
  function Initial(): (s: RecState)
    ensures Valid(s) && s.phase == Idle && s.chunks == [] && s.events == [] && s.files == []
  {
    RecState(false, true, 0.01, 1.0, Config.DEFAULT_OUTPUT_DIR, Idle, [], None, [], [])
  }

  /** True when `s2` differs from `s` at most in the fields the loop changes:
      flags, settings and output directory are untouched, and the event and
      file logs only grow. */
  predicate Extends(s: RecState, s2: RecState) {
    s2.recording == s.recording && s2.running == s.running &&
    s2.threshold == s.threshold && s2.silenceTimeout == s.silenceTimeout &&
    s2.outputDir == s.outputDir &&
    s.events <= s2.events && s.files <= s2.files
  }

  // ---------------------------------------------------------------------------
  // Saving
  // ---------------------------------------------------------------------------

  /** Hand the pending chunks to `save_recording` when there are any, and
      announce the file name it returns. The chunks themselves stay. */
  function SavePending(s: RecState, disk: Disk, rate: int): (r: RecState)
    ensures r.(events := s.events, files := s.files) == s
    ensures s.files <= r.files && |r.files| <= |s.files| + 1
    ensures |r.files| == |s.files| + 1 <==> s.chunks != [] && Stackable(s.chunks) && disk.ok && Level(VStack(s.chunks)).Some?
    ensures |r.files| == |s.files| + 1 ==>
              r.files[|s.files|].data == VStack(s.chunks) &&
              r.files[|s.files|].path == RecordingPath(s.outputDir, disk.stamp) &&
              r.files[|s.files|].samplerate == rate
    ensures r.events == s.events + (if |r.files| == |s.files| + 1 then [RecordingSaved(r.files[|s.files|].path)] else [])
  {
    if s.chunks == [] then s
    else
      match SavedFile(s.chunks, s.outputDir, disk, rate)
      case None => s
      case Some(f) => s.(events := s.events + [RecordingSaved(f.path)], files := s.files + [f])
  }

  /** `save_current_recording`: nothing on an empty list; otherwise save and
      announce as `SavePending` does, then clear the list whatever the outcome. */
  function SaveCurrent(s: RecState, disk: Disk, rate: int): (r: RecState)
    ensures s.chunks == [] ==> r == s
    ensures s.chunks != [] ==> r == SavePending(s, disk, rate).(chunks := [])
  {
    if s.chunks == [] then s else SavePending(s, disk, rate).(chunks := [])
  }

  // ---------------------------------------------------------------------------
  // One poll of the loop thread
  // ---------------------------------------------------------------------------

  /** One iteration of `record_loop`'s outer or inner loop. A timeout, or a
      stopped loop, changes nothing. A block without samples makes `np.max`
      raise: the outer handler reports the error and the loop goes back to
      waiting, keeping the chunks. In the waiting phase a strictly louder
      block than the threshold starts a new segment of just that block.
      In the active phase the block is appended before the silence test,
      and a finished segment is saved and cleared. */
  function Next(s: RecState, p: Poll, rate: int): RecState {
    if s.phase == Idle || p.Empty? then s
    else
      match Level(p.block)
      case None =>
        s.(phase := Waiting, silenceStart := None, events := s.events + [Error(ZERO_SIZE_ERROR)])
      case Some(level) =>
        if s.phase == Waiting then
          if Triggers(level, s.threshold) then s.(phase := Active, chunks := [p.block], silenceStart := None)
          else s
        else
          var s1 := s.(chunks := s.chunks + [p.block]);
          match SilenceStep(level, s.threshold, s.silenceStart, p.now, s.silenceTimeout)
          case Continue(t) => s1.(silenceStart := t)
          case End => SaveCurrent(s1, p.disk, rate).(phase := Waiting, silenceStart := None)
  }

  /** The state after a sequence of polls. */
  function Run(s: RecState, polls: seq<Poll>, rate: int): RecState {
    if polls == [] then s
    else Next(Run(s, polls[..|polls| - 1], rate), polls[|polls| - 1], rate)
  }

  // ---------------------------------------------------------------------------
  // The control operations
  // ---------------------------------------------------------------------------

  /** `start_recording`: a fresh, empty segment list, the loop thread (which
      exits at once when the recorder was cleaned up) and one status message. */
  function Start(s: RecState): RecState {
    s.(recording := true, chunks := [], phase := if s.running then Waiting else Idle,
       silenceStart := None, events := s.events + [StatusUpdate(STARTED)])
  }

  /** `stop_recording`: the loop stops and any pending chunks are saved. The
      chunk list is not cleared. */
  function Stop(s: RecState, disk: Disk, rate: int): RecState {
    SavePending(s.(recording := false, phase := Idle, silenceStart := None), disk, rate)
  }

  /** `cleanup`: both flags cleared, nothing saved. */
  function CleanedUp(s: RecState): RecState {
    s.(running := false, recording := false, phase := Idle, silenceStart := None)
  }

  // ---------------------------------------------------------------------------
  // Properties of one poll
  // ---------------------------------------------------------------------------

  /** A timeout of `audio_queue.get` changes nothing, in either phase. */
  lemma TimeoutIsNoOp(s: RecState, rate: int)
    ensures Next(s, Empty, rate) == s
  {
  }

  /** While waiting, a block starts a segment exactly when its level is above
      the threshold; a level equal to the threshold does not. The new segment
      holds just the triggering block, whatever was pending before. */
  lemma WaitingTriggersAboveThreshold(s: RecState, b: Block, now: real, disk: Disk, rate: int)
    requires s.phase == Waiting && Level(b).Some?
    ensures Next(s, Got(b, now, disk), rate).phase == Active <==> Level(b).value > s.threshold
    ensures Level(b).value == s.threshold ==> Next(s, Got(b, now, disk), rate) == s
    ensures Next(s, Got(b, now, disk), rate).phase == Active ==>
              Next(s, Got(b, now, disk), rate).chunks == [b] &&
              Next(s, Got(b, now, disk), rate).silenceStart.None? &&
              Next(s, Got(b, now, disk), rate).events == s.events
  {
  }

  /** In the active phase every block is appended before the silence test:
      while the segment goes on it has grown by exactly that block; when it
      ends, the block is the last of the saved file. */
  lemma ActiveAppends(s: RecState, b: Block, now: real, disk: Disk, rate: int)
    requires s.phase == Active && Level(b).Some?
    ensures var r := Next(s, Got(b, now, disk), rate);
            (r.phase == Active && r.chunks == s.chunks + [b] && r.events == s.events && r.files == s.files) ||
            (r.phase == Waiting && r.chunks == [] &&
             r == SavePending(s.(chunks := s.chunks + [b]), disk, rate).(chunks := [], phase := Waiting, silenceStart := None))
  {
  }

  /** The first quiet block of the active phase only starts the silence timer,
      even for a zero timeout. */
  lemma FirstQuietBlockStartsTimer(s: RecState, b: Block, now: real, disk: Disk, rate: int)
    requires s.phase == Active && s.silenceStart.None?
    requires Level(b).Some? && Level(b).value < s.threshold
    ensures Next(s, Got(b, now, disk), rate) ==
            s.(chunks := s.chunks + [b], silenceStart := Some(now))
  {
  }

  /** A block at or above the threshold in the active phase clears the timer. */
  lemma SoundResetsTimer(s: RecState, b: Block, now: real, disk: Disk, rate: int)
    requires s.phase == Active
    requires Level(b).Some? && Level(b).value >= s.threshold
    ensures Next(s, Got(b, now, disk), rate) == s.(chunks := s.chunks + [b], silenceStart := None)
  {
  }

  /** A segment ends exactly on a quiet block that arrives while the timer runs
      and at least `silenceTimeout` after it was started; the segment, this
      block included, is then handed to `save_recording`. */
  lemma SegmentEndsOnTimeout(s: RecState, b: Block, now: real, disk: Disk, rate: int)
    requires s.phase == Active && Level(b).Some?
    ensures Next(s, Got(b, now, disk), rate).phase == Waiting <==>
            Level(b).value < s.threshold && s.silenceStart.Some? && now - s.silenceStart.value >= s.silenceTimeout
    ensures Next(s, Got(b, now, disk), rate).phase == Waiting ==>
            var r := Next(s, Got(b, now, disk), rate);
            r.chunks == [] &&
            (Stackable(s.chunks + [b]) && disk.ok ==>
               r.files == s.files + [WavFile(RecordingPath(s.outputDir, disk.stamp), VStack(s.chunks + [b]), rate)])
  {
    VStackHasSamples(s.chunks + [b], |s.chunks|);
  }

  /** A block numpy cannot reduce ends the active segment with an error
      notification; the chunks are kept (a later stop saves them). */
  lemma EmptyBlockReportsError(s: RecState, b: Block, now: real, disk: Disk, rate: int)
    requires s.phase != Idle && Level(b).None?
    ensures Next(s, Got(b, now, disk), rate) ==
            s.(phase := Waiting, silenceStart := None, events := s.events + [Error(ZERO_SIZE_ERROR)])
  {
  }

  /** One poll keeps the invariant, touches no flag or setting, and only adds
      to the logs. */
  lemma NextKeepsValid(s: RecState, p: Poll, rate: int)
    requires Valid(s)
    ensures Valid(Next(s, p, rate))
    ensures Extends(s, Next(s, p, rate))
  {
  }

  // ---------------------------------------------------------------------------
  // Properties of runs
  // ---------------------------------------------------------------------------

  lemma {:induction false} RunKeepsValid(s: RecState, polls: seq<Poll>, rate: int)
    requires Valid(s)
    ensures Valid(Run(s, polls, rate))
    ensures Extends(s, Run(s, polls, rate))
  {
    if polls != [] {
      var prefix := Run(s, polls[..|polls| - 1], rate);
      RunKeepsValid(s, polls[..|polls| - 1], rate);
      NextKeepsValid(prefix, polls[|polls| - 1], rate);
    }
  }

  lemma RunAppend(s: RecState, polls: seq<Poll>, p: Poll, rate: int)
    ensures Run(s, polls + [p], rate) == Next(Run(s, polls, rate), p, rate)
  {
    assert (polls + [p])[..|polls|] == polls;
  }

  /** The blocks carried by a sequence of polls that are all blocks. */
  function Blocks(polls: seq<Poll>): (bs: seq<Block>)
    requires forall i :: 0 <= i < |polls| ==> polls[i].Got?
    ensures |bs| == |polls| && forall i :: 0 <= i < |polls| ==> bs[i] == polls[i].block
  {
    if polls == [] then [] else Blocks(polls[..|polls| - 1]) + [polls[|polls| - 1].block]
  }

  /** Blocks no louder than the threshold never start a segment: the waiting
      recorder ends up exactly as it was. */
  lemma {:induction false} QuietWaitingStaysWaiting(s: RecState, polls: seq<Poll>, rate: int)
    requires s.phase == Waiting
    requires forall i :: 0 <= i < |polls| ==>
               polls[i].Empty? || (Level(polls[i].block).Some? && Level(polls[i].block).value <= s.threshold)
    ensures Run(s, polls, rate) == s
  {
    if polls != [] {
      QuietWaitingStaysWaiting(s, polls[..|polls| - 1], rate);
    }
  }

  /** Quiet blocks that arrive before the silence timeout has elapsed are all
      appended and leave the timer where it was. */
  lemma {:induction false} QuietBeforeTimeout(s: RecState, polls: seq<Poll>, rate: int)
    requires s.phase == Active && s.silenceStart.Some?
    requires forall i :: 0 <= i < |polls| ==> polls[i].Got? && QuietBefore(polls[i], s.threshold, s.silenceStart.value + s.silenceTimeout)
    ensures Run(s, polls, rate) == s.(chunks := s.chunks + Blocks(polls))
  {
    if polls != [] {
      var init := polls[..|polls| - 1];
      var p := polls[|polls| - 1];
      assert forall i :: 0 <= i < |init| ==> init[i] == polls[i];
      QuietBeforeTimeout(s, init, rate);
      var mid := s.(chunks := s.chunks + Blocks(init));
      assert Run(s, polls, rate) == Next(mid, p, rate);
      QuietBlockAppends(mid, p, rate);
      assert Blocks(polls) == Blocks(init) + [p.block];
      assert s.chunks + Blocks(init) + [p.block] == s.chunks + Blocks(polls);
    }
  }

  /** A block quieter than the threshold that arrives before `deadline`. */
  predicate QuietBefore(p: Poll, threshold: real, deadline: real) {
    p.Got? && Level(p.block).Some? && Level(p.block).value < threshold && p.now < deadline
  }

  lemma QuietBlockAppends(s: RecState, p: Poll, rate: int)
    requires s.phase == Active && s.silenceStart.Some?
    requires QuietBefore(p, s.threshold, s.silenceStart.value + s.silenceTimeout)
    ensures Next(s, p, rate) == s.(chunks := s.chunks + [p.block])
  {
  }

  /** A whole segment: a loud block `b0` while waiting, then quiet blocks,
      the last of them arriving at least `silenceTimeout` after the first
      quiet one and all others before. The segment is saved as one file made
      of all these blocks in order, and the recorder waits again. */
  lemma SegmentScenario(s: RecState, b0: Block, t0: real, q: Poll, quiet: seq<Poll>, last: Poll, rate: int)
    requires Valid(s) && s.phase == Waiting
    requires Level(b0).Some? && Level(b0).value > s.threshold
    requires q.Got? && Level(q.block).Some? && Level(q.block).value < s.threshold
    requires forall i :: 0 <= i < |quiet| ==> quiet[i].Got? && QuietBefore(quiet[i], s.threshold, q.now + s.silenceTimeout)
    requires last.Got? && Level(last.block).Some? && Level(last.block).value < s.threshold
    requires last.now - q.now >= s.silenceTimeout
    requires Stackable([b0, q.block] + Blocks(quiet) + [last.block]) && last.disk.ok
    ensures var r := Run(s, [Got(b0, t0, q.disk), q] + quiet + [last], rate);
            r.phase == Waiting && r.chunks == [] && r.silenceStart.None? &&
            r.files == s.files + [WavFile(RecordingPath(s.outputDir, last.disk.stamp),
                                          VStack([b0, q.block] + Blocks(quiet) + [last.block]), rate)] &&
            r.events == s.events + [RecordingSaved(RecordingPath(s.outputDir, last.disk.stamp))]
  {
    var opening := [Got(b0, t0, q.disk), q];
    ScenarioOpening(s, b0, t0, q, rate);
    var s2 := s.(phase := Active, chunks := [b0, q.block], silenceStart := Some(q.now));
    RunSplit(s, opening, quiet, rate);
    QuietBeforeTimeout(s2, quiet, rate);
    var s3 := s2.(chunks := [b0, q.block] + Blocks(quiet));
    RunAppend(s, opening + quiet, last, rate);
    ScenarioClosing(s3, last, rate);
  }

  /** The trigger and the first quiet block: active, two chunks, timer running. */
  lemma ScenarioOpening(s: RecState, b0: Block, t0: real, q: Poll, rate: int)
    requires Valid(s) && s.phase == Waiting
    requires Level(b0).Some? && Level(b0).value > s.threshold
    requires q.Got? && Level(q.block).Some? && Level(q.block).value < s.threshold
    ensures Run(s, [Got(b0, t0, q.disk), q], rate) ==
            s.(phase := Active, chunks := [b0, q.block], silenceStart := Some(q.now))
  {
    var p0 := Got(b0, t0, q.disk);
    var s1 := Next(s, p0, rate);
    assert Run(s, [p0], rate) == s1 by {
      assert [p0][..0] == [];
    }
    assert s1 == s.(phase := Active, chunks := [b0], silenceStart := None);
    RunAppend(s, [p0], q, rate);
    assert [p0] + [q] == [p0, q];
  }

  /** The quiet block after the timeout saves every chunk and waits again. */
  lemma ScenarioClosing(s: RecState, last: Poll, rate: int)
    requires s.phase == Active && s.silenceStart.Some?
    requires last.Got? && Level(last.block).Some? && Level(last.block).value < s.threshold
    requires last.now - s.silenceStart.value >= s.silenceTimeout
    requires Stackable(s.chunks + [last.block]) && last.disk.ok
    ensures var r := Next(s, last, rate);
            r.phase == Waiting && r.chunks == [] && r.silenceStart.None? &&
            r.files == s.files + [WavFile(RecordingPath(s.outputDir, last.disk.stamp), VStack(s.chunks + [last.block]), rate)] &&
            r.events == s.events + [RecordingSaved(RecordingPath(s.outputDir, last.disk.stamp))]
  {
    VStackHasSamples(s.chunks + [last.block], |s.chunks|);
  }

  lemma {:induction false} RunSplit(s: RecState, xs: seq<Poll>, ys: seq<Poll>, rate: int)
    ensures Run(s, xs + ys, rate) == Run(Run(s, xs, rate), ys, rate)
  {
    if ys == [] {
      assert xs + ys == xs;
    } else {
      var init := ys[..|ys| - 1];
      RunSplit(s, xs, init, rate);
      assert (xs + ys)[..|xs + ys| - 1] == xs + init;
    }
  }

  // ---------------------------------------------------------------------------
  // Properties of the control operations
  // ---------------------------------------------------------------------------

  /** A start sets the flag, empties the list, sends one status message and
      begins waiting unless the recorder was cleaned up. */
  lemma StartBeginsWaiting(s: RecState)
    requires Valid(s) && !s.recording
    ensures Valid(Start(s))
    ensures Start(s).recording && Start(s).chunks == []
    ensures Start(s).events == s.events + [StatusUpdate(STARTED)] && Start(s).files == s.files
    ensures Start(s).phase == Waiting <==> s.running
  {
  }

  /** A stop ends the loop and saves what is pending exactly when there is
      any, without clearing it; with nothing pending it saves nothing. */
  lemma StopSavesPending(s: RecState, disk: Disk, rate: int)
    requires Valid(s)
    ensures var r := Stop(s, disk, rate);
            Valid(r) && !r.recording && r.phase == Idle && r.chunks == s.chunks &&
            (s.chunks == [] ==> r.files == s.files && r.events == s.events) &&
            (s.chunks != [] && Stackable(s.chunks) && disk.ok ==>
               r.files == s.files + [WavFile(RecordingPath(s.outputDir, disk.stamp), VStack(s.chunks), rate)] &&
               r.events == s.events + [RecordingSaved(RecordingPath(s.outputDir, disk.stamp))])
  {
    if s.chunks != [] {
      VStackHasSamples(s.chunks, 0);
    }
  }

  /** After a stop no poll changes anything until the next start. */
  lemma StoppedIgnoresPolls(s: RecState, disk: Disk, polls: seq<Poll>, rate: int)
    requires Valid(s)
    ensures Run(Stop(s, disk, rate), polls, rate) == Stop(s, disk, rate)
  {
    IdleRun(Stop(s, disk, rate), polls, rate);
  }

  lemma {:induction false} IdleRun(s: RecState, polls: seq<Poll>, rate: int)
    requires s.phase == Idle
    ensures Run(s, polls, rate) == s
  {
    if polls != [] {
      IdleRun(s, polls[..|polls| - 1], rate);
    }
  }

  /** `cleanup` stops the loop for good: pending chunks are not saved, and no
      later start runs the loop again. */
  lemma CleanupIsFinal(s: RecState)
    requires Valid(s)
    ensures Valid(CleanedUp(s)) && CleanedUp(s).files == s.files && CleanedUp(s).chunks == s.chunks
    ensures Start(CleanedUp(s)).phase == Idle
  {
  }

  // ---------------------------------------------------------------------------
  // The recorder object
  // ---------------------------------------------------------------------------

  class AudioRecorder {
    const handler: AudioHandler
    var recording: bool
    var running: bool
    var threshold: real
    var silenceTimeout: real
    var outputDir: string
    var phase: Phase
    var currentChunks: seq<Block>
    var silenceStart: Option<real>
    var events: seq<Event>
    var files: seq<WavFile>

    function State(): RecState
      reads this
    {
      RecState(recording, running, threshold, silenceTimeout, outputDir, phase, currentChunks, silenceStart, events, files)
    }

    /** `__init__`; creating the output directory is left to the first save. */
    constructor (handler: AudioHandler)
      ensures this.handler == handler
      ensures State() == Initial()
    {
      this.handler := handler;
      recording := false;
      running := true;
      threshold := 0.01;
      silenceTimeout := 1.0;
      outputDir := Config.DEFAULT_OUTPUT_DIR;
      phase := Idle;
      currentChunks := [];
      silenceStart := None;
      events := [];
      files := [];
    }

    method SaveCurrentRecording(disk: Disk)
      modifies this
      ensures State() == SaveCurrent(old(State()), disk, handler.currentSamplerate)
    {
      if currentChunks != [] {
        var filename, written := handler.SaveRecording(currentChunks, outputDir, disk);
        if filename.Some? {
          events := events + [RecordingSaved(filename.value)];
          files := files + [written.value];
        }
        currentChunks := [];
      }
    }

    /** One iteration of `record_loop`. */
    method Step(p: Poll)
      requires Valid(State())
      modifies this
      ensures Valid(State())
      ensures State() == Next(old(State()), p, handler.currentSamplerate)
    {
      NextKeepsValid(State(), p, handler.currentSamplerate);
      if phase == Idle || p.Empty? {
        return;
      }
      var level := Level(p.block);
      if level.None? {
        events := events + [Error(ZERO_SIZE_ERROR)];
        phase := Waiting;
        silenceStart := None;
        return;
      }
      if phase == Waiting {
        if Triggers(level.value, threshold) {
          currentChunks := [p.block];
          silenceStart := None;
          phase := Active;
        }
        return;
      }
      currentChunks := currentChunks + [p.block];
      match SilenceStep(level.value, threshold, silenceStart, p.now, silenceTimeout)
      case Continue(t) =>
        silenceStart := t;
      case End =>
        SaveCurrentRecording(p.disk);
        phase := Waiting;
        silenceStart := None;
    }

    /** `record_loop` over a sequence of polls. */
    method RecordLoop(polls: seq<Poll>)
      requires Valid(State())
      modifies this
      ensures Valid(State())
      ensures State() == Run(old(State()), polls, handler.currentSamplerate)
    {
      var i := 0;
      while i < |polls|
        invariant 0 <= i <= |polls|
        invariant Valid(State())
        invariant State() == Run(old(State()), polls[..i], handler.currentSamplerate)
      {
        RunAppend(old(State()), polls[..i], polls[i], handler.currentSamplerate);
        Step(polls[i]);
        assert polls[..i + 1] == polls[..i] + [polls[i]];
        i := i + 1;
      }
      assert polls[..|polls|] == polls;
    }

    /** `start_recording`; a start is only issued while not recording. */
    method StartRecording()
      requires Valid(State()) && !recording
      modifies this
      ensures Valid(State())
      ensures State() == Start(old(State()))
    {
      recording := true;
      currentChunks := [];
      phase := if running then Waiting else Idle;
      silenceStart := None;
      events := events + [StatusUpdate(STARTED)];
    }

    method StopRecording(disk: Disk)
      requires Valid(State())
      modifies this
      ensures Valid(State())
      ensures State() == Stop(old(State()), disk, handler.currentSamplerate)
    {
      StopSavesPending(State(), disk, handler.currentSamplerate);
      ghost var stopped := State().(recording := false, phase := Idle, silenceStart := None);
      recording := false;
      phase := Idle;
      silenceStart := None;
      assert State() == stopped;
      if currentChunks != [] {
        var filename, written := handler.SaveRecording(currentChunks, outputDir, disk);
        if filename.Some? {
          events := events + [RecordingSaved(filename.value)];
          files := files + [written.value];
        }
      }
      assert State() == SavePending(stopped, disk, handler.currentSamplerate);
    }

    method ToggleRecording(disk: Disk)
      requires Valid(State())
      modifies this
      ensures Valid(State())
      ensures State() == if old(recording) then Stop(old(State()), disk, handler.currentSamplerate)
                         else Start(old(State()))
    {
      if !recording {
        StartRecording();
      } else {
        StopRecording(disk);
      }
    }

    method Cleanup()
      requires Valid(State())
      modifies this
      ensures Valid(State())
      ensures State() == CleanedUp(old(State()))
    {
      running := false;
      recording := false;
      phase := Idle;
      silenceStart := None;
    }
  }
}
