/** audio_handler.py: the device list filter, the stream parameters, the
    capture callback (channel selection, level, the two queue pushes) and the
    saving of a segment. */
module Handler {
  import opened Common
  import opened Audio
  import opened PyStr
  import Config

  /** One entry of `sd.query_devices()`. */
  datatype RawDevice = RawDevice(name: string, maxInputChannels: int, defaultSamplerate: real)

  /** One dictionary of the list `get_input_devices` returns. */
  datatype InputDevice = InputDevice(index: nat, name: string, channels: int, samplerate: real)

  /** What the file system answers when a segment is saved: the wall-clock
      timestamp `datetime.now().strftime(...)` gives at that moment, and
      whether creating the directory and writing the file succeed. */
  datatype Disk = Disk(stamp: string, ok: bool)

  /** A file handed to `sf.write`: path, samples and sample rate. */
  datatype WavFile = WavFile(path: string, data: Block, samplerate: int)

  /** The arguments `sd.InputStream` is opened with. */
  datatype StreamParams = StreamParams(device: int, channels: int, samplerate: int)

  function InputEntry(i: nat, d: RawDevice): InputDevice {
    InputDevice(i, d.name, d.maxInputChannels, d.defaultSamplerate)
  }

  /** The input devices among the first `i` devices, in enumeration order. */
  function InputsBefore(devices: seq<RawDevice>, i: nat): seq<InputDevice>
    requires i <= |devices|
  {
    if i == 0 then []
    else
      InputsBefore(devices, i - 1) +
        (if devices[i - 1].maxInputChannels > 0 then [InputEntry(i - 1, devices[i - 1])] else [])
  }

  function InputDevices(devices: seq<RawDevice>): seq<InputDevice> {
    InputsBefore(devices, |devices|)
  }

  /** Every listed entry is an input device (at least one input channel),
      tagged with its own position and carrying that device's name, channel
      count and default rate. */
  lemma {:induction false} InputsAreTagged(devices: seq<RawDevice>, i: nat)
    requires i <= |devices|
    ensures forall k :: 0 <= k < |InputsBefore(devices, i)| ==>
              var e := InputsBefore(devices, i)[k];
              e.index < i && devices[e.index].maxInputChannels > 0 && e == InputEntry(e.index, devices[e.index])
  {
    if i > 0 {
      InputsAreTagged(devices, i - 1);
    }
  }

  /** The entries keep the enumeration order, so no index is listed twice. */
  lemma {:induction false} InputsAreOrdered(devices: seq<RawDevice>, i: nat)
    requires i <= |devices|
    ensures forall k, l :: 0 <= k < l < |InputsBefore(devices, i)| ==>
              InputsBefore(devices, i)[k].index < InputsBefore(devices, i)[l].index
  {
    if i > 0 {
      InputsAreOrdered(devices, i - 1);
      InputsAreTagged(devices, i - 1);
    }
  }

  /** No input device is left out. */
  lemma {:induction false} InputsAreComplete(devices: seq<RawDevice>, i: nat, j: nat)
    requires j < i <= |devices| && devices[j].maxInputChannels > 0
    ensures exists k :: 0 <= k < |InputsBefore(devices, i)| && InputsBefore(devices, i)[k].index == j
  {
    var prev := InputsBefore(devices, i - 1);
    var r := InputsBefore(devices, i);
    assert forall k :: 0 <= k < |prev| ==> r[k] == prev[k];
    if j < i - 1 {
      InputsAreComplete(devices, i - 1, j);
      var k :| 0 <= k < |prev| && prev[k].index == j;
      assert r[k].index == j;
    } else {
      assert r[|prev|].index == j;
    }
  }

  /** `get_input_devices` lists exactly the devices with input channels. */
  lemma InputDevicesExact(devices: seq<RawDevice>)
    ensures forall k :: 0 <= k < |InputDevices(devices)| ==>
              var e := InputDevices(devices)[k];
              e.index < |devices| && devices[e.index].maxInputChannels > 0 &&
              e == InputEntry(e.index, devices[e.index])
    ensures forall k, l :: 0 <= k < l < |InputDevices(devices)| ==>
              InputDevices(devices)[k].index < InputDevices(devices)[l].index
    ensures forall j :: 0 <= j < |devices| && devices[j].maxInputChannels > 0 ==>
              exists k :: 0 <= k < |InputDevices(devices)| && InputDevices(devices)[k].index == j
  {
    InputsAreTagged(devices, |devices|);
    InputsAreOrdered(devices, |devices|);
    forall j | 0 <= j < |devices| && devices[j].maxInputChannels > 0
      ensures exists k :: 0 <= k < |InputDevices(devices)| && InputDevices(devices)[k].index == j
    {
      InputsAreComplete(devices, |devices|, j);
      assert InputDevices(devices) == InputsBefore(devices, |devices|);
    }
  }

  // ---------------------------------------------------------------------------
  // Channel arithmetic of create_input_stream
  // ---------------------------------------------------------------------------

  /** Python `max(xs)`. */
  function MaxOf(xs: seq<int>): (m: int)
    requires xs != []
    ensures forall k :: 0 <= k < |xs| ==> xs[k] <= m
    ensures exists k :: 0 <= k < |xs| && xs[k] == m
  {
    if |xs| == 1 then xs[0]
    else
      var rest := MaxOf(xs[1..]);
      assert forall k :: 1 <= k < |xs| ==> xs[k] == xs[1..][k - 1];
      if xs[0] >= rest then xs[0] else rest
  }

  /** `current_channels`: the number of mapped channels, or the requested
      count when there is no map. */
  function ActiveChannels(channelMap: seq<int>, channels: int): int {
    if channelMap != [] then |channelMap| else channels
  }

  /** The channel count the stream is opened with: one more than the highest
      mapped index, so every mapped channel exists in the captured blocks. */
  function RequestedWidth(channelMap: seq<int>, channels: int): (w: int)
    ensures channelMap != [] ==> forall k :: 0 <= k < |channelMap| ==> channelMap[k] < w
    ensures channelMap != [] ==> exists k :: 0 <= k < |channelMap| && channelMap[k] == w - 1
    ensures channelMap == [] ==> w == channels
  {
    if channelMap != [] then MaxOf(channelMap) + 1 else channels
  }

  // ---------------------------------------------------------------------------
  // indata[:, channel_map]
  // ---------------------------------------------------------------------------

  /** numpy accepts an index `i` on an axis of length `w` when `-w <= i < w`. */
  predicate ValidColumn(i: int, width: nat) {
    -(width as int) <= i < width
  }

  /** The column a valid numpy index denotes (negative indices count from the end). */
  function Resolve(i: int, width: nat): (c: nat)
    requires ValidColumn(i, width)
    ensures c < width
    ensures i >= 0 ==> c == i
  {
    if i < 0 then i + width else i
  }

  /** `indata[:, channel_map]` when the map is non-empty, `indata` itself
      otherwise; `None` where numpy raises IndexError. The result keeps the
      frame count and holds, in map order, the selected columns. */
  function SelectColumns(b: Block, channelMap: seq<int>): (r: Option<Block>)
    requires Shaped(b)
    ensures channelMap == [] ==> r == Some(b)
    ensures r.Some? <==> channelMap == [] || forall k :: 0 <= k < |channelMap| ==> ValidColumn(channelMap[k], b.width)
    ensures r.Some? ==> Shaped(r.value) && Frames(r.value) == Frames(b)
    ensures r.Some? && channelMap != [] ==>
              r.value.width == |channelMap| &&
              forall f, k :: 0 <= f < Frames(b) && 0 <= k < |channelMap| ==>
                r.value.rows[f][k] == b.rows[f][Resolve(channelMap[k], b.width)]
  {
    if channelMap == [] then Some(b)
    else if exists k :: 0 <= k < |channelMap| && !ValidColumn(channelMap[k], b.width) then None
    else
      Some(Block(|channelMap|, seq(|b.rows|, f requires 0 <= f < |b.rows| =>
        seq(|channelMap|, k requires 0 <= k < |channelMap| => b.rows[f][Resolve(channelMap[k], b.width)]))))
  }

  function Columns(w: nat): (r: seq<int>)
    ensures |r| == w && forall k :: 0 <= k < w ==> r[k] == k
  {
    seq(w, k => k)
  }

  /** Mapping every channel in order gives the block back unchanged. */
  lemma SelectAllColumns(b: Block)
    requires Shaped(b) && b.width > 0
    ensures SelectColumns(b, Columns(b.width)) == Some(b)
  {
    var r := SelectColumns(b, Columns(b.width)).value;
    assert |r.rows| == |b.rows|;
    forall f | 0 <= f < |b.rows|
      ensures r.rows[f] == b.rows[f]
    {
      assert forall k :: 0 <= k < b.width ==> r.rows[f][k] == b.rows[f][k];
    }
    assert r.rows == b.rows;
  }

  /** The level of the mapped block never exceeds the level of the raw input. */
  lemma SelectedLevelBounded(b: Block, channelMap: seq<int>)
    requires Shaped(b)
    requires SelectColumns(b, channelMap).Some?
    requires Level(SelectColumns(b, channelMap).value).Some?
    ensures Level(b).Some?
    ensures Level(SelectColumns(b, channelMap).value).value <= Level(b).value
  {
    var r := SelectColumns(b, channelMap).value;
    var v := Level(r).value;
    var f, k :| 0 <= f < |r.rows| && 0 <= k < |r.rows[f]| && Abs(r.rows[f][k]) == v;
    if channelMap != [] {
      var c := Resolve(channelMap[k], b.width);
      assert r.rows[f][k] == b.rows[f][c];
      assert b.rows[f] != [];
    }
  }

  /** A stream opened for a map of valid (non-negative) indices delivers blocks
      that the callback can always map: the width the stream was opened with
      covers every index of the map. */
  lemma StreamBlocksAreMappable(b: Block, channelMap: seq<int>, channels: int)
    requires Shaped(b)
    requires forall k :: 0 <= k < |channelMap| ==> channelMap[k] >= 0
    requires b.width as int == RequestedWidth(channelMap, channels)
    ensures SelectColumns(b, channelMap).Some?
    ensures SelectColumns(b, channelMap).value.width == ActiveChannels(channelMap, b.width)
  {
  }

  // ---------------------------------------------------------------------------
  // save_recording
  // ---------------------------------------------------------------------------

  predicate EndsWith(s: string, suffix: string) {
    |suffix| <= |s| && s[|s| - |suffix|..] == suffix
  }

  /** `f"recording_{timestamp}.wav"`. */
  function RecordingName(stamp: string): string {
    "recording_" + stamp + ".wav"
  }

  /** `os.path.join(dir, name)` on POSIX. */
  function JoinPath(dir: string, name: string): string {
    if name != [] && name[0] == '/' then name
    else if dir == [] || dir[|dir| - 1] == '/' then dir + name
    else dir + "/" + name
  }

  /** The file name of a segment: inside the output directory, named after the timestamp. */
  function RecordingPath(dir: string, stamp: string): (p: string)
    ensures StartsWith(p, dir)
    ensures EndsWith(p, RecordingName(stamp))
    ensures |p| <= |dir| + 1 + |RecordingName(stamp)|
  {
    var name := RecordingName(stamp);
    var p := JoinPath(dir, name);
    assert p[..|dir|] == dir;
    assert p[|p| - |name|..] == name;
    p
  }

  /** What `np.vstack(chunks)` followed by `sf.write` leaves on disk: nothing
      for an empty list, for blocks of different channel counts (np.vstack
      raises ValueError) or when the file system fails; otherwise one file
      whose samples are the blocks in order, at the given sample rate. */
  function WrittenFile(chunks: seq<Block>, dir: string, disk: Disk, rate: int): (r: Option<WavFile>)
    ensures chunks == [] ==> r.None?
    ensures r.Some? <==> Stackable(chunks) && disk.ok
    ensures r.Some? ==> r.value.path == RecordingPath(dir, disk.stamp) && r.value.samplerate == rate
    ensures r.Some? ==> r.value.data.width == chunks[0].width && Frames(r.value.data) == TotalFrames(chunks)
    ensures r.Some? ==>
              forall k :: 0 <= k < |chunks| ==>
                TotalFrames(chunks[..k]) + Frames(chunks[k]) <= Frames(r.value.data) &&
                r.value.data.rows[TotalFrames(chunks[..k]) .. TotalFrames(chunks[..k]) + Frames(chunks[k])] == chunks[k].rows
  {
    if Stackable(chunks) && disk.ok then
      ConcatRowsLength(chunks);
      assert forall k :: 0 <= k < |chunks| ==>
        TotalFrames(chunks[..k]) + Frames(chunks[k]) <= |ConcatRows(chunks)| &&
        ConcatRows(chunks)[TotalFrames(chunks[..k]) .. TotalFrames(chunks[..k]) + Frames(chunks[k])] == chunks[k].rows
      by {
        forall k | 0 <= k < |chunks|
          ensures TotalFrames(chunks[..k]) + Frames(chunks[k]) <= |ConcatRows(chunks)| &&
                  ConcatRows(chunks)[TotalFrames(chunks[..k]) .. TotalFrames(chunks[..k]) + Frames(chunks[k])] == chunks[k].rows
        {
          ChunkPlacement(chunks, k);
        }
      }
      Some(WavFile(RecordingPath(dir, disk.stamp), VStack(chunks), rate))
    else None
  }

  /** What `save_recording(chunks, output_dir)` leaves on disk. Before
      writing it prints `np.max(np.abs(data))`, which raises on stacked data
      without any sample; the handler catches that too, so no file is
      written then. */
  function SavedFile(chunks: seq<Block>, dir: string, disk: Disk, rate: int): (r: Option<WavFile>)
    ensures chunks == [] ==> r.None?
    ensures r.Some? <==> Stackable(chunks) && disk.ok && Level(VStack(chunks)).Some?
    ensures r.Some? ==> r == WrittenFile(chunks, dir, disk, rate)
  {
    if Stackable(chunks) && Level(VStack(chunks)).None? then None
    else WrittenFile(chunks, dir, disk, rate)
  }

  /** The saved file of mono (or equal-width) genuine blocks is itself a
      genuine matrix: N blocks of L frames give N * L frames of that width. */
  lemma SavedFileShape(chunks: seq<Block>, dir: string, disk: Disk, rate: int, frames: nat)
    requires SavedFile(chunks, dir, disk, rate).Some?
    requires forall k :: 0 <= k < |chunks| ==> Shaped(chunks[k]) && Frames(chunks[k]) == frames
    ensures Shaped(SavedFile(chunks, dir, disk, rate).value.data)
    ensures Frames(SavedFile(chunks, dir, disk, rate).value.data) == |chunks| * frames
  {
    VStackShape(chunks);
    EqualFrames(chunks, frames);
  }

  lemma {:induction false} EqualFrames(chunks: seq<Block>, frames: nat)
    requires forall k :: 0 <= k < |chunks| ==> Frames(chunks[k]) == frames
    ensures TotalFrames(chunks) == |chunks| * frames
  {
    if chunks != [] {
      EqualFrames(chunks[1..], frames);
    }
  }

  // ---------------------------------------------------------------------------
  // The handler object
  // ---------------------------------------------------------------------------

  class AudioHandler {
    /** `audio_queue` and `level_queue`: unbounded FIFO queues, oldest first. */
    var audioQueue: seq<Block>
    var levelQueue: seq<real>
    var currentSamplerate: int
    var currentChannels: Option<int>
    /** `channel_map`; `None` and `[]` behave alike everywhere and are both `[]` here. */
    var channelMap: seq<int>

    constructor ()
      ensures audioQueue == [] && levelQueue == []
      ensures currentSamplerate == 48000 && currentChannels == None && channelMap == []
    {
      audioQueue := [];
      levelQueue := [];
      currentSamplerate := 48000;
      currentChannels := None;
      channelMap := [];
    }

    /** `get_input_devices`: the loop over `sd.query_devices()` builds
        `InputDevices(devices)`, whose content `InputDevicesExact` describes. */
    method GetInputDevices(devices: seq<RawDevice>) returns (r: seq<InputDevice>)
      ensures r == InputDevices(devices)
    {
      r := [];
      for i := 0 to |devices|
        invariant r == InputsBefore(devices, i)
      {
        if devices[i].maxInputChannels > 0 {
          r := r + [InputEntry(i, devices[i])];
        }
      }
    }

    /** `create_input_stream`: records the sample rate, active channel count
        and map, and opens the stream on enough channels to cover the map.
        The fields are assigned before the stream is opened, so they change
        even when opening fails. */
    method CreateInputStream(deviceIndex: int, channels: int, samplerate: real, channelMap: seq<int>)
      returns (stream: StreamParams)
      modifies this`currentSamplerate, this`currentChannels, this`channelMap
      ensures currentSamplerate == Trunc(samplerate)
      ensures currentChannels == Some(ActiveChannels(channelMap, channels))
      ensures this.channelMap == channelMap
      ensures stream == StreamParams(deviceIndex, RequestedWidth(channelMap, channels), currentSamplerate)
    {
      currentSamplerate := Trunc(samplerate);
      currentChannels := Some(if channelMap != [] then |channelMap| else channels);
      this.channelMap := channelMap;
      var maxChannel := if channelMap != [] then MaxOf(channelMap) + 1 else channels;
      stream := StreamParams(deviceIndex, maxChannel, currentSamplerate);
    }

    /** `audio_callback`: with a non-zero status nothing is queued. Otherwise
        the mapped block is queued first and its level second; numpy errors
        are caught, so an unmappable block queues nothing and a block without
        samples queues the block but no level. */
    method AudioCallback(indata: Block, status: nat)
      requires Shaped(indata)
      modifies this`audioQueue, this`levelQueue
      ensures var mapped := SelectColumns(indata, channelMap);
              if status != 0 || mapped.None? then
                audioQueue == old(audioQueue) && levelQueue == old(levelQueue)
              else
                audioQueue == old(audioQueue) + [mapped.value] &&
                levelQueue == old(levelQueue) +
                  (if Level(mapped.value).Some? then [Level(mapped.value).value] else [])
    {
      if status != 0 {
        return;
      }
      var data := SelectColumns(indata, channelMap);
      if data.None? {
        return;
      }
      audioQueue := audioQueue + [data.value];
      var level := Level(data.value);
      if level.None? {
        return;
      }
      levelQueue := levelQueue + [level.value];
    }

    /** `save_recording`: returns the file name exactly when a file was
        written, and the file written is `SavedFile` at the current rate. */
    method SaveRecording(chunks: seq<Block>, outputDir: string, disk: Disk)
      returns (filename: Option<string>, written: Option<WavFile>)
      ensures written == SavedFile(chunks, outputDir, disk, currentSamplerate)
      ensures filename.Some? <==> written.Some?
      ensures written.Some? ==> filename.value == written.value.path
    {
      if chunks == [] {
        return None, None;
      }
      if !disk.ok || !Stackable(chunks) {
        return None, None;
      }
      var filename' := RecordingPath(outputDir, disk.stamp);
      var data := VStack(chunks);
      if Level(data).None? {
        return None, None;
      }
      written := Some(WavFile(filename', data, currentSamplerate));
      filename := Some(filename');
    }
  }
}
