# autosampler — a Dafny model of the capture and segmentation core

autosampler is a desktop sampler. It listens on an audio input. A recording
starts when a block gets louder than a threshold, and it ends when the input
has stayed quieter than the threshold for a set number of seconds. Each
segment is written to `recordings/recording_<timestamp>.wav`, and the
recorder then waits for the next sound. This project models, in Dafny, the
code that makes those decisions:

- **recorder.py** (`recorder.dfy`, module `Recorder`):
  - the `AudioRecorder` class and its two-phase loop `record_loop`;
  - `start_recording`, `stop_recording`, `toggle_recording`, `cleanup` and
    `save_current_recording`.
- **audio_handler.py** (`handler.dfy`, module `Handler`):
  - the input-device filter;
  - the channel arithmetic of `create_input_stream`;
  - the capture callback, with its column selection, peak level and the
    order of its two queue pushes;
  - `save_recording`, which concatenates the chunks in order into a file
    named after the timestamp.
- **gui.py** (`gui.dfy`, module `Gui`):
  - the input and mode option lists;
  - parsing of the selected input and interface strings;
  - the level-history shift buffer;
  - the status message for each recorder notification.
- **autosampler.py** (`legacy.dfy`, module `Legacy`), the older
  single-file version:
  - its capture callback, monitoring toggle, recording toggle and recording
    loop;
  - its save, level plot update and window closing.

Shared pieces:

- `segmenter.dfy`: the two decisions both loops make. A block triggers when
  it is strictly louder than the threshold. The silence timer starts,
  resets or ends the segment.
- `audio.dfy`:
  - the numpy block as a `frames x channels` matrix;
  - the peak level `max |x|`, which fails on an empty array as numpy does;
  - `vstack`.
- `pystr.dfy`: the Python string operations the parsers use:
  - `strip`, `split`, `replace`, `in`, the digit filter;
  - `str(n)` and `int(s)`.
- `history.dfy`: the fixed-length level history that new levels shift in
  from the right.
- `common.dfy` and `config.dfy`: `Option`, a ValueError-or-value result,
  `int()` of a float, and the configuration constants.

Modelling choices:

- **Loops as steps.** Each recording loop is a step function over polls.
  A poll (`Poll`) is one `audio_queue.get(timeout=0.1)`. It either times out
  (`Empty`) or delivers a block, together with two things:
  - the clock reading `time.time()` gives at that moment;
  - the answer of the file system (`Disk`) for a save triggered by that
    block: the timestamp string and whether the write succeeds.
- **Classes over the step functions.** Each class (`AudioRecorder`,
  `AudioHandler`, `SamplerGui`, `AudioSampler`, `LevelHistory`) holds the
  fields the source updates. Its methods are proved equal to these step
  functions, and the properties are lemmas about the functions.
- **Notifications and files as logs.** Everything the recorder sends to the
  window is a log of `Event`s. The status lines of the single-file version
  are a log of `Notice`s in the order the code hands them to
  `update_status`. Every entry but the saved message is shown at once, so
  the last of those is the one on screen. Every file
  handed to `sf.write` goes into a log of `WavFile`s.
- **Where the two versions differ.** recorder.py keeps its chunk list after
  an error, and `stop_recording` saves it. autosampler.py discards the
  segment in progress both on an error and on a manual stop. It also
  queues a block only while recording. It writes each file at the rate of
  the device selected at save time, which is not necessarily the rate the
  stream was opened with.
- **Behaviour described for the system but absent from the code.** None of
  the following exists in the code, so none is modelled:
  - reconciling mono and stereo blocks before concatenation
    (audio_handler.py:108 calls `np.vstack` directly);
  - bounded queues with drop counters (the queues are unbounded,
    audio_handler.py:12);
  - monitor passthrough to an output buffer (the callbacks have no output
    buffer).

## Model

| member | source | states |
|---|---|---|
| Common.Trunc | audio_handler.py:45 | `int(x)` of a float truncates toward zero: the result lies within one of `x`, on the same side of zero |
| Audio.Level | audio_handler.py:86 | the level is undefined (numpy raises) exactly when the block holds no sample; otherwise it is non-negative, at least every sample's absolute value, and equal to one of them |
| Audio.LevelOfShaped | audio_handler.py:86 | for a genuine matrix the level fails exactly when there is no frame or no channel |
| Audio.ChunkPlacement | audio_handler.py:108 | in the stacked rows, block `k` occupies exactly the frames after the frames of the blocks before it |
| Audio.VStackShape | audio_handler.py:108 | stacking matrices of one width gives a matrix of that width whose frame count is the sum of theirs |
| PyStr.StripMaximal | gui.py:337 | `strip` removes exactly the maximal whitespace prefix and suffix, and the result neither starts nor ends with whitespace |
| PyStr.StripPadded | gui.py:338 | whitespace added around a string without outer whitespace is stripped back off |
| PyStr.Split | gui.py:323 | `split` gives at least one piece, no piece contains the separator, joining the pieces with the separator gives back the string, and a string without the separator is its only piece |
| PyStr.SplitHead | gui.py:323 | the first piece of `split` is the text before the first separator |
| PyStr.SplitTwo | gui.py:338 | a string with exactly one separator splits into the two pieces around it |
| PyStr.ReplaceAll | gui.py:338 | `replace` leaves a string unchanged when the pattern cannot start anywhere in it |
| PyStr.FilterDigits | gui.py:343 | the digit filter keeps only digits: all of an all-digit string, none of a digit-free one |
| PyStr.FilterDigitsAppend | gui.py:343 | filtering distributes over concatenation |
| PyStr.ParseDecimal | gui.py:323 | round trip: `int(str(n)) == n` |
| PyStr.ParsePaddedDecimal | gui.py:338 | `int` reads the number back also with whitespace around it |
| Handler.InputsAreTagged | audio_handler.py:23-34 | after any prefix of the device loop, every entry is an input device with at least one input channel, tagged with its own position and carrying that device's name, channels and rate |
| Handler.InputsAreOrdered | audio_handler.py:23-34 | after any prefix of the loop, the entries are in enumeration order, so no index is listed twice |
| Handler.InputsAreComplete | audio_handler.py:23-34 | after any prefix of the loop, every input device of that prefix is listed |
| Handler.InputDevicesExact | audio_handler.py:17-36 | the list holds exactly the devices with `max_input_channels > 0`, in order, each tagged with its original index |
| Handler.AudioHandler.GetInputDevices | audio_handler.py:17-36 | the append loop returns exactly that list |
| Handler.MaxOf | audio_handler.py:50 | `max(channel_map)` is at least every entry and equal to one of them |
| Handler.RequestedWidth | audio_handler.py:50 | the stream width is `channels` without a map; with a map every mapped index is below it and the highest is one below it |
| Handler.AudioHandler.CreateInputStream | audio_handler.py:38-63 | records `int(samplerate)`, the active channel count (the map's length, or `channels` without a map) and the map, and opens the stream on the device with that width and rate |
| Handler.Resolve | audio_handler.py:78 | a valid numpy column index denotes a column of the block, itself when non-negative |
| Handler.SelectColumns | audio_handler.py:77-80 | no map gives the block unchanged; the selection fails exactly when some index is out of range; otherwise the frame count is kept, the width is the map's length and `out[f][k] == in[f][map[k]]` |
| Handler.SelectAllColumns | audio_handler.py:77-80 | mapping every channel in order gives the block back |
| Handler.SelectedLevelBounded | audio_handler.py:78-86 | the level of the mapped block never exceeds that of the raw block |
| Handler.StreamBlocksAreMappable | audio_handler.py:50-80 | a block as wide as the stream was opened for can always be mapped, and the mapped block has the active channel count |
| Handler.RecordingPath | audio_handler.py:105 | the path starts with the output directory and ends with `recording_<timestamp>.wav`, with at most one separator between them |
| Handler.WrittenFile | audio_handler.py:108-117 | `np.vstack` then `sf.write`: a file exists exactly when there are chunks, they share one width and the disk accepts the write; it lies at `RecordingPath` with the given rate and holds every chunk in order, with the sum of their frame counts |
| Handler.SavedFile | audio_handler.py:95-122 | a file is written exactly when there are chunks, they share one width, the stacked data has at least one sample (`np.max` at line 115 raises otherwise, and the handler catches it) and the disk accepts the write; the file is then `WrittenFile`'s |
| Audio.VStackHasSamples | audio_handler.py:108-115 | a stack containing one block with samples has a level, so `np.max` of it is defined |
| Handler.SavedFileShape | audio_handler.py:108 | chunks of equal frame count give a genuine matrix of `len(chunks) * frames` frames |
| Handler.AudioHandler.constructor | audio_handler.py:10-15 | empty queues, rate 48000, no channel count, no map |
| Handler.AudioHandler.AudioCallback | audio_handler.py:69-93 | a non-zero status or a failing column selection queues nothing; otherwise the mapped block is queued, and then its level unless numpy raises on it |
| Handler.AudioHandler.SaveRecording | audio_handler.py:95-122 | the file written is `SavedFile` at the rate of the last stream (nothing for empty chunks, mismatched widths, data without samples or a failed write), and the file name is returned exactly when a file was written |
| Segmenter.SilenceStep | recorder.py:78-85 | a segment ends exactly on a quiet block that arrives `silence_timeout` or more after the timer started; a block at or above the threshold clears the timer; the first quiet block starts it, whatever the timeout |
| Segmenter.SilenceEndsAtTimeout | recorder.py:72-83 | a run of quiet blocks ends the segment exactly when some block after the first arrives `timeout` or more after the first, and the first alone never ends it |
| Segmenter.QuietWhileTimed | recorder.py:78-83 | with the timer running, quiet blocks end the segment exactly when one arrives `timeout` after the timer's start, and otherwise leave the timer where it was |
| Segmenter.SoundRestartsSilence | recorder.py:84-85 | after a loud block, silence counts from scratch: earlier quiet time earns no credit |
| Recorder.Initial | recorder.py:10-18 | the new recorder is valid, idle, with no chunks, notifications or files |
| Recorder.SavePending | recorder.py:44-50 | only the two logs change; a file is added exactly when chunks are pending, share one width, hold at least one sample between them and the write succeeds; it holds the stacked chunks at `RecordingPath` and the current rate, and exactly then `recording_saved` with its path is sent; the chunks stay |
| Recorder.SaveCurrent | recorder.py:96-104 | nothing on an empty list; otherwise the save of `SavePending`, and the list is cleared whether or not a file was written |
| Recorder.TimeoutIsNoOp | recorder.py:87-91 | a poll timeout changes nothing |
| Recorder.WaitingTriggersAboveThreshold | recorder.py:62-71 | while waiting, a block starts a segment exactly when its level is strictly above the threshold; a block level with the threshold changes nothing; a trigger replaces the chunks by exactly that block |
| Recorder.ActiveAppends | recorder.py:74-83 | in the active phase each block is appended; the segment either goes on, with no notification and no file, or is saved with that block included and the loop waits again with an empty list |
| Recorder.FirstQuietBlockStartsTimer | recorder.py:78-80 | the first quiet block only appends and starts the timer at its arrival time |
| Recorder.SoundResetsTimer | recorder.py:84-85 | a block at or above the threshold appends and clears the timer |
| Recorder.SegmentEndsOnTimeout | recorder.py:78-83 | the loop returns to waiting exactly on a quiet block while the timer runs and `now - silence_start >= silence_timeout`; then the list is empty and the file holds every chunk up to and including that block |
| Recorder.EmptyBlockReportsError | recorder.py:92-94 | a block numpy cannot reduce sends an `error` notification with numpy's message and returns the loop to waiting, with the chunks kept |
| Recorder.NextKeepsValid | recorder.py:57-94 | each poll keeps the invariant (the loop runs exactly while recording and running, an active segment is never empty, the timer exists only in the active phase, every pending chunk has samples), changes no flag or setting, and only appends to the logs |
| Recorder.RunKeepsValid | recorder.py:57-94 | the same holds for any sequence of polls |
| Recorder.QuietWaitingStaysWaiting | recorder.py:59-66 | while waiting, blocks no louder than the threshold never start a segment |
| Recorder.QuietBeforeTimeout | recorder.py:72-83 | with the timer running, quiet blocks that arrive before the timeout are all appended, in order, and nothing else changes |
| Recorder.QuietBlockAppends | recorder.py:76-81 | one such block is appended and changes nothing else |
| Recorder.SegmentScenario | recorder.py:57-104 | trigger, a first quiet block, quiet blocks before the timeout and a quiet block after it: exactly one file holding all those blocks in order, one `recording_saved`, and the loop waits again |
| Recorder.StartBeginsWaiting | recorder.py:30-37 | a start sets the flag, empties the list and sends one status message; the loop waits exactly when the recorder is still running |
| Recorder.StopSavesPending | recorder.py:39-50 | a stop ends the loop and keeps the chunk list; with chunks pending (which all have samples, by the invariant) it saves them and sends `recording_saved` when the write succeeds; without chunks it sends nothing |
| Recorder.StoppedIgnoresPolls | recorder.py:39-59 | after a stop no poll changes anything |
| Recorder.IdleRun | recorder.py:59 | with the loop stopped, polls change nothing |
| Recorder.CleanupIsFinal | recorder.py:52-55 | cleanup keeps the invariant, saves nothing, and a later start no longer starts the loop |
| Recorder.AudioRecorder.constructor | recorder.py:10-18 | the state is `Initial()` |
| Recorder.AudioRecorder.SaveCurrentRecording | recorder.py:96-104 | the new state is `SaveCurrent` of the old one |
| Recorder.AudioRecorder.Step | recorder.py:57-94 | one iteration of either loop is `Next` of the old state, and the invariant is kept |
| Recorder.AudioRecorder.RecordLoop | recorder.py:57-94 | the loop over any polls ends in `Run` of the old state, and the invariant is kept |
| Recorder.AudioRecorder.StartRecording | recorder.py:30-37 | the new state is `Start` of the old one |
| Recorder.AudioRecorder.StopRecording | recorder.py:39-50 | the new state is `Stop` of the old one |
| Recorder.AudioRecorder.ToggleRecording | recorder.py:24-28 | a stop while recording, otherwise a start |
| Recorder.AudioRecorder.Cleanup | recorder.py:52-55 | both flags cleared, loop stopped, nothing saved |
| History.Pushed | gui.py:400-401 | one new level keeps the length, becomes the last entry, and moves every other entry one place to the left |
| History.Drained | gui.py:399-401 | draining the queue keeps the history's length |
| History.DrainedIsWindow | gui.py:399-401 | after draining, the history is the last `LEVEL_HISTORY` values of old history followed by the queue |
| History.DrainKeepsNewest | gui.py:399-401 | draining `k <= LEVEL_HISTORY` levels keeps the newest `LEVEL_HISTORY - k` old values followed by the new ones in arrival order; draining more keeps only the newest new ones |
| History.DrainTwice | gui.py:396-411 | draining in two display updates is draining once |
| History.LevelHistory.constructor | gui.py:357 | `LEVEL_HISTORY` zeros |
| History.LevelHistory.Push | gui.py:400-401 | the in-place shift leaves `Pushed` of the old contents |
| History.LevelHistory.Drain | gui.py:399-401 | the drain loop leaves `Drained` of the old contents |
| Gui.InputOptions | gui.py:298-306 | for `n` channels: `n` mono entries `Input 1..n (Mono)`, then one stereo entry `Inputs 2j+1/2j+2 (Stereo)` per full pair, `n + n div 2` entries in total |
| Gui.MonoOptions | gui.py:300-302 | the first loop gives `n` entries, entry `k` being `Input k+1 (Mono)` |
| Gui.StereoOptions | gui.py:304-306 | the second loop gives one entry per full pair, entry `j` being `Inputs 2j+1/2j+2 (Stereo)` |
| Gui.ModeOptions | gui.py:313 | mono comes first, and stereo is offered exactly for two or more channels |
| Gui.FirstPosition | gui.py:324 | the position of the first device with the index, or the list's length when none has it |
| Gui.FirstWithIndex | gui.py:324 | `next(...)` is `None` exactly when no device has the index, else the first that has it |
| Gui.GetSelectedDevice | gui.py:319-324 | an empty selection gives `None`; a device found is one of the listed devices |
| Gui.GetSelectedDeviceSplit | gui.py:319-324 | a selection `a:b` with no ':' in `a` gives ValueError when `a` is not an integer, else the first device whose index is `a`'s value (or `None`), whatever `b` is |
| Gui.GetSelectedDeviceNoColon | gui.py:319-324 | a non-empty selection without ':' is read as an index as a whole: ValueError or the first device with that index |
| Gui.InterfaceLabelSelects | gui.py:319-324 | each `index: name` entry selects its own device, for devices with increasing indices |
| Gui.ListedInterfacesSelect | gui.py:169-173 | every entry of the interface selector selects its own device |
| Gui.ParseEach | gui.py:338 | the list comprehension raises exactly when one piece is not an integer; otherwise each result is its piece's value minus one |
| Gui.InputChannels | gui.py:326-352 | at least one index; `[0]` for an empty selection; one index outside stereo mode; exactly two for the stereo entries the selector offers (StereoLabelParses, OptionsParseInRange) |
| Gui.MonoLabelParses | gui.py:341-346 | `Input k (Mono)` gives `[k-1]`; in stereo mode `[k-1, min(k, channels-1)]` for the selected device, and `[0]` when there is none |
| Gui.PairParses | gui.py:338 | the numbers `a/b` parse to `[a-1, b-1]` |
| Gui.StereoLabelParses | gui.py:336-339 | `Inputs a/b (Stereo)` gives `[a-1, b-1]` in stereo mode and `[a-1]` otherwise |
| Gui.OptionsParseInRange | gui.py:298-346 | round trip: every entry listed for an `n`-channel device parses to one or two channel indices below `n` |
| Gui.MonoInRange | gui.py:343-346 | a mono entry of an `n`-channel device parses within range, the stereo clamp included |
| Gui.StereoInRange | gui.py:336-339 | a stereo entry of an `n`-channel device parses within range |
| Gui.CallbackMessageShowsPayload | gui.py:459-466 | a status update shows its text; a save shows `Saved: <file>` and the waiting hint; an error shows `Error: <message>` |
| Gui.CallbackMessageInjective | gui.py:459-466 | notifications of the same kind with the same message are the same notification |
| Gui.SamplerGui.constructor | gui.py:149-198 | the window `setup_gui` builds once the settings are defined (as written, `__init__` fails before it; see Left out): status `Ready`, the handler's input devices, the first selected, and the input and mode options of that device |
| Gui.SamplerGui.SetupInputOptions | gui.py:198 | the first `update_input_options` builds the options of the first listed device |
| Gui.SamplerGui.UpdateInputOptions | gui.py:293-314 | for a selected device: its option list, the first entry selected, its mode options with mono chosen; otherwise nothing changes |
| Gui.SamplerGui.UpdatedSelectionInRange | gui.py:308-346 | after the options were rebuilt, the selected input parses to valid channels of the device |
| Gui.SamplerGui.UpdateLevelDisplay | gui.py:396-401 | every queued level enters the history, oldest first, and the queue is left empty |
| Gui.SamplerGui.HandleRecorderCallback | gui.py:459-466 | the status shows `CallbackMessage` of the notification |
| Legacy.Rewait | autosampler.py:281-285 | the head of the outer loop keeps the invariant |
| Legacy.SaveChunks | autosampler.py:336-362 | nothing for no chunks; a file of the stacked chunks at the selected device's rate and a status naming it when a device is selected, the chunks share one width and the write succeeds; otherwise an error status and no file; nothing else changes |
| Legacy.Callback | autosampler.py:216-231 | a non-zero status or a block numpy cannot reduce queues nothing; otherwise the level is always queued and the block only while recording |
| Legacy.NextKeepsValid | autosampler.py:279-334 | each poll keeps the invariant (chunks exist exactly in the active phase, so each waiting phase starts empty), touches no flag, setting, queue or stream, and only appends to the logs |
| Legacy.RunKeepsValid | autosampler.py:279-334 | the same for any sequence of polls |
| Legacy.WaitingTriggersAboveThreshold | autosampler.py:288-299 | while waiting, a block strictly above the threshold starts a segment of exactly that block and shows `Recording...`; any other block changes nothing |
| Legacy.ActiveAppends | autosampler.py:308-326 | in the active phase a loud block is appended and clears the timer; the first quiet block is appended and starts it |
| Legacy.SegmentEndsOnTimeout | autosampler.py:315-324 | the loop returns to waiting exactly on a quiet block `silence_timeout` after the timer started; then the list is empty and the file holds every block up to and including that one |
| Legacy.EmptyBlockDropsSegment | autosampler.py:331-334 | a block numpy cannot reduce drops the segment, writes nothing and returns to waiting |
| Legacy.StopDiscardsSegment | autosampler.py:274-277 | a manual stop ends the loop and drops the chunks without saving |
| Legacy.StartRequiresMonitoring | autosampler.py:264-273 | the start branch turns monitoring on first if needed, and recording is on exactly when monitoring ends up on, which happens exactly when it was on or the selected device opened; a started loop waits with an empty list |
| Legacy.MonitorOpensSelected | autosampler.py:233-262 | starting opens the selected device with one or two channels and its rate truncated, and fails with monitoring off and the stream unchanged when there is no device, the selection does not parse or the stream does not start; stopping closes the stream; each call shows one status |
| Legacy.IdleRun | autosampler.py:281 | with the loop stopped, polls change nothing |
| Legacy.CloseIsFinal | autosampler.py:364-374 | closing keeps the files, drops the segment, closes the stream, and neither a poll nor the record button restarts the loop |
| Legacy.CallbackQueuesBlocksOnlyWhileRecording | autosampler.py:222-227 | one level per block always, one block only while recording |
| Legacy.SameSegmentsAsRecorder | autosampler.py:308-324 | from corresponding active states, a block leaves both loops in the same phase with the same chunks and timer, and any file either loop adds is the same |
| Legacy.AudioSampler.constructor | autosampler.py:17-89 | flags, settings and queues as initialised, status `Ready`, the input devices listed, the first selected, and the modes that device offers with mono chosen |
| Legacy.AudioSampler.SetupSelectors | autosampler.py:65-89 | the device loop, the first entry selected and the first `update_channel_options` |
| Legacy.AudioSampler.UpdateChannelOptions | autosampler.py:149-158 | for a selected device, its mode options with mono chosen; otherwise nothing changes |
| Legacy.AudioSampler.AudioCallback | autosampler.py:216-231 | the new state is `Callback` of the old one |
| Legacy.AudioSampler.ToggleMonitoring | autosampler.py:233-262 | the new state is `Monitor` of the old one on the current selection |
| Legacy.AudioSampler.ToggleRecording | autosampler.py:264-277 | the new state is `Toggle` of the old one, and the invariant is kept |
| Legacy.AudioSampler.StartRecording | autosampler.py:265-273 | the start branch, as `Toggle` of a state that is not recording |
| Legacy.AudioSampler.BeginIfMonitoring | autosampler.py:268-273 | with monitoring on, the flag, the status and the loop's first waiting phase; otherwise nothing |
| Legacy.AudioSampler.Step | autosampler.py:279-334 | one iteration of either loop is `Next` of the old state with the selected device's rate, and the invariant is kept |
| Legacy.AudioSampler.DropBlock | autosampler.py:331-334 | a block numpy cannot reduce: the error status, then the outer loop starts over with an empty list, as `Next` says |
| Legacy.AudioSampler.WaitStep | autosampler.py:288-299 | one block of the waiting loop is `Next` of the old state |
| Legacy.AudioSampler.ActiveStep | autosampler.py:305-329 | one block of the recording loop is `Next` of the old state |
| Legacy.AudioSampler.EndSegment | autosampler.py:319-324 | a segment that ends is saved with `SaveChunks`, then the outer loop starts over with `Rewait` |
| Legacy.AudioSampler.SaveRecording | autosampler.py:336-362 | the new state is `SaveChunks` of the old one |
| Legacy.AudioSampler.RecordAudio | autosampler.py:279-334 | the loop over any polls ends in `Run` of the old state |
| Legacy.AudioSampler.UpdatePlot | autosampler.py:182-188 | every queued level enters the history, oldest first, and the queue is left empty |
| Legacy.AudioSampler.OnClosing | autosampler.py:364-374 | the new state is `Close` of the old one |

## Left out

- Threads, queue blocking and real time are not modelled. Each loop is a sequential step function over given polls. Left out with them:
  - the wait in `audio_queue.get(timeout=0.1)`;
  - the `time.sleep(1)` after an error;
  - races between the window thread and the loop thread, such as a stop and a restart overlapping with a loop that has not yet exited.
- The polls are inputs. The model does not link the blocks the loop receives to those the callback queued, because the hand-over between the two threads is exactly what is abstracted.
- The clock and the file system are oracle values carried by each poll.
- `datetime.now().strftime` is an opaque timestamp string of the `Disk` oracle.
- `os.path.exists`/`os.makedirs` (recorder.py:21-22, audio_handler.py:101-102) are folded into the single success flag of `Disk`.
- The threshold and silence timeout are fields held fixed during a run. autosampler.py reads its sliders on every block, so a slider moved mid-run is not modelled.
- Tk and matplotlib are not modelled: widgets, themes, plots, file dialogs, button labels and `update_silence_label`. All `print` and `debug_print` output is left out too.
- Exception texts from sounddevice, soundfile and numpy are not modelled, except the zero-size message of `np.max`. In autosampler.py an error status is a `Failure` carrying its fixed prefix.
- The float32 cast before writing (audio_handler.py:109) is left out. Samples and levels are exact reals, so there is no NaN and no infinity.
- Handler.AudioHandler.AudioCallback requires a genuine matrix because numpy arrays are always rectangular.
- A failure of `sd.InputStream` in `create_input_stream` is not modelled. The source re-raises it, and the method models only the parameters the stream is opened with.
- Recorder.AudioRecorder.StartRecording requires that the recorder is not recording. Both callers (recorder.py:24-28 and gui.py:439-452) start only then, and a second start would run a second loop thread, which a sequential model cannot express.
- gui.py's stream lifecycle is not modelled: `start_monitoring`, `stop_monitoring`, `restart_monitoring`, `on_selection_change`, `toggle_monitoring` and `on_closing`. They call handler methods that do not exist in audio_handler.py.
- gui.py's own `toggle_recording`, which copies the settings into the recorder, is not modelled.
- Settings persistence is not modelled: `load_settings`, `save_settings`, `delayed_init`, `restore_input_settings`, `prompt_output_directory`, and their restoring of saved selections in setup_gui (gui.py:280-289). As written they cannot run: config.py:40-50 has `SETTINGS_FILE` and `DEFAULT_SETTINGS` commented out, so `load_settings` raises NameError at gui.py:503, catches it, and raises it again, uncaught, at gui.py:508. `AudioSamplerGUI.__init__` therefore stops at gui.py:31, before `setup_gui`, and main.py:7 exits with that error. Gui.SamplerGui.constructor models `setup_gui` as it would run with those settings defined and no saved selection.
- The constructor of Gui.SamplerGui starts from the handler's devices. The `restart_monitoring` call inside `update_input_options` is left out with the stream lifecycle.
- Gui.InputChannels has many possible inputs, and its contract states only their shape. Exact results are stated for the strings the selector offers (MonoLabelParses, StereoLabelParses). `str.isdigit` and `int` also accept non-ASCII digits, which the model treats as non-digits. The entries the code builds are ASCII.
- Legacy.MonitorOpensSelected: when `stream.start()` fails, the source keeps the created but unstarted stream in `self.stream`; the model leaves the stream as it was.
- Legacy.SaveChunks: the "Saved" status goes through `root.after(0, ...)` (autosampler.py:358). The Tk event loop shows it later, after or racing with the loop thread's next "Waiting for sound..." (autosampler.py:284). The notice log records the order of the calls, not the order of display. Thread scheduling is not modelled.
- Gui.SamplerGui.UpdateInputOptions: when the text before the first ':' is not an integer, `int()` raises ValueError (gui.py:322). The error escapes `update_input_options` (gui.py:295). The model leaves the state unchanged and does not model the raise. The interface selector is read-only (gui.py:164), so only the labels it lists, which all parse (Gui.ListedInterfacesSelect), reach it.
- Legacy.AudioSampler.UpdateChannelOptions: a selection that does not parse makes the source's Tk callback raise; the model leaves the selectors unchanged.
- In autosampler.py, `browse_output_dir` and `setup_level_monitor` are UI and are not modelled.
- main.py is not part of this model. Of config.py, only the constants the modelled code reads are modelled.
