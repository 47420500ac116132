/** gui.py: the option lists of the input and mode selectors, the parsing of
    the selected input back into channel indices, the lookup of the selected
    interface, the level meter's history and the status text it shows for
    recorder notifications. Widgets are reduced to the values they hold. */
module Gui {
  import opened Common
  import opened PyStr
  import opened Handler
  import opened History
  import opened Recorder

  // ---------------------------------------------------------------------------
  // Option labels
  // ---------------------------------------------------------------------------

  /** `f"Input {k} (Mono)"`. */
  function MonoLabel(k: nat): string {
    "Input " + Decimal(k) + " (Mono)"
  }

  /** `f"Inputs {a}/{b} (Stereo)"`, grouped as its parser takes it apart. */
  function StereoLabel(a: nat, b: nat): string {
    "Inputs" + (" " + (Decimal(a) + "/" + Decimal(b))) + " " + "(Stereo)"
  }

  /** `f"{d['index']}: {d['name']}"`, one entry of the interface selector. */
  function InterfaceLabel(d: InputDevice): string {
    Decimal(d.index) + ": " + d.name
  }

  /** Entries of `range(max_channels)`. */
  function MonoCount(n: int): nat {
    if n > 0 then n else 0
  }

  /** Entries of `range(0, max_channels - 1, 2)`: the full pairs of channels. */
  function PairCount(n: int): nat {
    if n >= 2 then n / 2 else 0
  }

  /** The input selector's values for a device of `n` channels: one mono entry
      per channel, numbered from 1, then one stereo entry per full pair. */
  predicate IsOptionList(inputs: seq<string>, n: int) {
    |inputs| == MonoCount(n) + PairCount(n) &&
    (forall i :: 0 <= i < MonoCount(n) ==> inputs[i] == MonoLabel(i + 1)) &&
    (forall j :: 0 <= j < PairCount(n) ==> inputs[MonoCount(n) + j] == StereoLabel(2 * j + 1, 2 * j + 2))
  }

  /** The two loops of `update_input_options`: the mono entries, then the
      stereo entries appended after them. */
  method InputOptions(maxChannels: int) returns (inputs: seq<string>)
    ensures IsOptionList(inputs, maxChannels)
  {
    var mono := MonoOptions(maxChannels);
    var stereo := StereoOptions(maxChannels);
    inputs := mono + stereo;
    assert forall j :: 0 <= j < |stereo| ==> inputs[|mono| + j] == stereo[j];
  }

  /** `for i in range(max_channels)`: one mono entry per channel. */
  method MonoOptions(maxChannels: int) returns (inputs: seq<string>)
    ensures |inputs| == MonoCount(maxChannels)
    ensures forall k :: 0 <= k < |inputs| ==> inputs[k] == MonoLabel(k + 1)
  {
    inputs := [];
    var i := 0;
    while i < maxChannels
      invariant 0 <= i <= MonoCount(maxChannels)
      invariant |inputs| == i
      invariant forall k :: 0 <= k < i ==> inputs[k] == MonoLabel(k + 1)
    {
      inputs := inputs + [MonoLabel(i + 1)];
      i := i + 1;
    }
  }

  /** `for i in range(0, max_channels - 1, 2)`: one stereo entry per full pair. */
  method StereoOptions(maxChannels: int) returns (inputs: seq<string>)
    ensures |inputs| == PairCount(maxChannels)
    ensures forall j :: 0 <= j < |inputs| ==> inputs[j] == StereoLabel(2 * j + 1, 2 * j + 2)
  {
    inputs := [];
    var i := 0;
    while i < maxChannels - 1
      invariant i == 2 * |inputs| && 0 <= |inputs| <= PairCount(maxChannels)
      invariant forall j :: 0 <= j < |inputs| ==> inputs[j] == StereoLabel(2 * j + 1, 2 * j + 2)
      decreases maxChannels - 1 - i
    {
      inputs := inputs + [StereoLabel(i + 1, i + 2)];
      i := i + 2;
    }
  }

  /** The mode selector offers stereo exactly for devices of two or more channels. */
  function ModeOptions(n: int): (r: seq<string>)
    ensures |r| >= 1 && r[0] == "Mono"
    ensures "Stereo" in r <==> n >= 2
  {
    if n >= 2 then ["Mono", "Stereo"] else ["Mono"]
  }

  // ---------------------------------------------------------------------------
  // get_selected_device
  // ---------------------------------------------------------------------------

  /** Position of the first device with index `idx`, `|devices|` when none has it. */
  function FirstPosition(devices: seq<InputDevice>, idx: int): (k: nat)
    ensures k <= |devices|
    ensures forall l :: 0 <= l < k ==> devices[l].index != idx
    ensures k < |devices| ==> devices[k].index == idx
  {
    if devices == [] then 0
    else if devices[0].index == idx then 0
    else
      var k := FirstPosition(devices[1..], idx);
      assert forall l :: 1 <= l < |devices| ==> devices[l] == devices[1..][l - 1];
      k + 1
  }

  /** `next((d for d in devices if d['index'] == idx), None)`. */
  function FirstWithIndex(devices: seq<InputDevice>, idx: int): (r: Option<InputDevice>)
    ensures r.None? <==> forall k :: 0 <= k < |devices| ==> devices[k].index != idx
    ensures r.Some? ==> r.value == devices[FirstPosition(devices, idx)]
  {
    var k := FirstPosition(devices, idx);
    if k < |devices| then Some(devices[k]) else None
  }

  /** `get_selected_device`: `None` for an empty selection, ValueError when the
      text before the first ':' is not an integer, else the first device with
      that index (or `None`). */
  function GetSelectedDevice(interfaceStr: string, devices: seq<InputDevice>): (r: PyResult<Option<InputDevice>>)
    ensures interfaceStr == [] ==> r == Ok(None)
    ensures r.Ok? && r.value.Some? ==> r.value.value in devices
  {
    if interfaceStr == [] then Ok(None)
    else
      match ParseInt(Split(interfaceStr, ':')[0])
      case None => ValueError
      case Some(idx) => Ok(FirstWithIndex(devices, idx))
  }

  /** A selection with a ':' is decided by the text before the first ':'
      alone: ValueError unless that text is an integer, else the first
      device with that index, whatever follows. */
  lemma GetSelectedDeviceSplit(a: string, b: string, devices: seq<InputDevice>)
    requires ':' !in a
    ensures GetSelectedDevice(a + [':'] + b, devices) ==
            (if ParseInt(a).None? then ValueError else Ok(FirstWithIndex(devices, ParseInt(a).value)))
  {
    assert (a + [':'] + b)[|a|] == ':';
    SplitHead(a, ':', b);
  }

  /** A non-empty selection without ':' is read as an index as a whole. */
  lemma GetSelectedDeviceNoColon(a: string, devices: seq<InputDevice>)
    requires a != [] && ':' !in a
    ensures GetSelectedDevice(a, devices) ==
            (if ParseInt(a).None? then ValueError else Ok(FirstWithIndex(devices, ParseInt(a).value)))
  {
    assert Split(a, ':') == [a];
  }

  /** Every entry of the interface selector selects its own device, provided
      the devices carry distinct indices (as `get_input_devices` guarantees). */
  lemma InterfaceLabelSelects(devices: seq<InputDevice>, k: nat)
    requires k < |devices|
    requires forall i, j :: 0 <= i < j < |devices| ==> devices[i].index < devices[j].index
    ensures GetSelectedDevice(InterfaceLabel(devices[k]), devices) == Ok(Some(devices[k]))
  {
    var d := devices[k];
    var digits := Decimal(d.index);
    DigitsAvoid(digits, ':');
    assert InterfaceLabel(d) == digits + [':'] + (" " + d.name);
    SplitHead(digits, ':', " " + d.name);
    ParseDecimal(d.index);
    var m := FirstPosition(devices, d.index);
    assert m == k;
  }

  /** The entries `get_input_devices` lists all select themselves. */
  lemma ListedInterfacesSelect(raw: seq<RawDevice>, k: nat)
    requires k < |InputDevices(raw)|
    ensures GetSelectedDevice(InterfaceLabel(InputDevices(raw)[k]), InputDevices(raw)) == Ok(Some(InputDevices(raw)[k]))
  {
    InputDevicesExact(raw);
    InterfaceLabelSelects(InputDevices(raw), k);
  }

  // ---------------------------------------------------------------------------
  // get_input_channels
  // ---------------------------------------------------------------------------

  /** The values of a comprehension over `int()` results, each minus one;
      `None` as soon as one of them raised. */
  function MinusOne(ps: seq<Option<int>>): (r: Option<seq<int>>)
    ensures r.None? <==> exists i :: 0 <= i < |ps| && ps[i].None?
    ensures r.Some? ==> |r.value| == |ps| &&
                        forall i :: 0 <= i < |ps| ==> ps[i] == Some(r.value[i] + 1)
  {
    if ps == [] then Some([])
    else
      match ps[0]
      case None => None
      case Some(v) =>
        var rest := MinusOne(ps[1..]);
        if rest.None? then
          var i :| 0 <= i < |ps[1..]| && ps[1..][i].None?;
          assert ps[i + 1].None?;
          None
        else
          var r := [v - 1] + rest.value;
          assert forall i :: 1 <= i < |ps| ==> ps[i] == ps[1..][i - 1] && r[i] == rest.value[i - 1];
          Some(r)
  }

  /** `[int(n) - 1 for n in parts]`; `None` when one `int` raises. */
  function ParseEach(parts: seq<string>): (r: Option<seq<int>>)
    ensures r.None? <==> exists i :: 0 <= i < |parts| && ParseInt(parts[i]).None?
    ensures r.Some? ==> |r.value| == |parts| &&
                        forall i :: 0 <= i < |parts| ==> ParseInt(parts[i]) == Some(r.value[i] + 1)
  {
    var parsed := seq(|parts|, i requires 0 <= i < |parts| => ParseInt(parts[i]));
    assert forall i :: 0 <= i < |parts| ==> parsed[i] == ParseInt(parts[i]);
    MinusOne(parsed)
  }

  /** The numbers of a stereo entry: the text before '(' stripped, "Inputs"
      removed, stripped again and split at '/'. */
  function PairNumbers(inputStr: string): seq<string> {
    var numbers := Strip(Split(inputStr, '(')[0]);
    Split(Strip(ReplaceAll(numbers, "Inputs", "")), '/')
  }

  /** `get_input_channels`: `[0]` for an empty selection and whenever parsing
      raises (the handler catches every exception). A stereo entry gives its
      numbers minus one (only the first outside stereo mode); any other entry
      gives its digits minus one, in stereo mode followed by the next channel
      clamped to the selected device's last channel. */
  function InputChannels(inputStr: string, mode: string, interfaceStr: string, devices: seq<InputDevice>): (r: seq<int>)
    ensures |r| >= 1
    ensures inputStr == [] ==> r == [0]
    ensures mode != "Stereo" ==> |r| == 1
  {
    if inputStr == [] then [0]
    else if Contains(inputStr, "Inputs") && Contains(inputStr, "/") then PairChannels(inputStr, mode)
    else MonoChannels(inputStr, mode, interfaceStr, devices)
  }

  /** The stereo branch of `get_input_channels`. */
  function PairChannels(inputStr: string, mode: string): (r: seq<int>)
    ensures |r| >= 1
    ensures mode != "Stereo" ==> |r| == 1
  {
    match ParseEach(PairNumbers(inputStr))
    case None => [0]
    case Some(channels) => if mode == "Stereo" then channels else [channels[0]]
  }

  /** The mono branch of `get_input_channels`. */
  function MonoChannels(inputStr: string, mode: string, interfaceStr: string, devices: seq<InputDevice>): (r: seq<int>)
    ensures |r| >= 1
    ensures mode != "Stereo" ==> |r| == 1
  {
    match ParseInt(FilterDigits(inputStr))
    case None => [0]
    case Some(v) =>
      var channel := v - 1;
      if mode == "Stereo" then
        match GetSelectedDevice(interfaceStr, devices)
        case Ok(Some(d)) => [channel, MinInt(channel + 1, d.channels - 1)]
        case _ => [0]
      else [channel]
  }

  lemma {:induction false} ContainsChar(s: string, c: char)
    ensures Contains(s, [c]) <==> c in s
  {
    if s != [] {
      ContainsChar(s[1..], c);
      assert s == [s[0]] + s[1..];
    }
  }

  lemma DigitsAvoid(d: string, c: char)
    requires forall k :: 0 <= k < |d| ==> IsDigit(d[k])
    requires !IsDigit(c)
    ensures c !in d
  {
    assert forall k :: 0 <= k < |d| ==> d[k] != c;
  }

  /** A mono entry parses back to its channel (minus one); in stereo mode the
      next channel, clamped to the device's last one, is added. */
  lemma MonoLabelParses(k: nat, mode: string, interfaceStr: string, devices: seq<InputDevice>)
    ensures InputChannels(MonoLabel(k), mode, interfaceStr, devices) ==
            if mode != "Stereo" then [k - 1]
            else match GetSelectedDevice(interfaceStr, devices)
                 case Ok(Some(d)) => [k - 1, MinInt(k, d.channels - 1)]
                 case _ => [0]
  {
    MonoLabelHasNoSlash(k);
    MonoLabelDigits(k);
    ParseDecimal(k);
  }

  lemma MonoLabelHasNoSlash(k: nat)
    ensures !Contains(MonoLabel(k), "/")
  {
    DigitsAvoid(Decimal(k), '/');
    assert '/' !in MonoLabel(k);
    ContainsChar(MonoLabel(k), '/');
  }

  lemma MonoLabelDigits(k: nat)
    ensures FilterDigits(MonoLabel(k)) == Decimal(k)
  {
    var digits := Decimal(k);
    MonoWordsHaveNoDigits();
    FilterDigitsAppend("Input " + digits, " (Mono)");
    FilterDigitsAppend("Input ", digits);
  }

  lemma MonoWordsHaveNoDigits()
    ensures FilterDigits("Input ") == [] && FilterDigits(" (Mono)") == []
  {
    assert forall k :: 0 <= k < |"Input "| ==> !IsDigit("Input "[k]);
    assert forall k :: 0 <= k < |" (Mono)"| ==> !IsDigit(" (Mono)"[k]);
  }

  /** The steps of parsing a stereo entry, one string operation each. */
  lemma StereoBeforeParen(x: string)
    requires '(' !in x
    ensures Split(x + " " + "(Stereo)", '(')[0] == x + " "
  {
    assert x + " " + "(Stereo)" == (x + " ") + ['('] + "Stereo)";
    SplitHead(x + " ", '(', "Stereo)");
  }

  lemma StripTrailingSpace(x: string)
    requires x != [] && !IsSpace(x[0]) && !IsSpace(x[|x| - 1])
    ensures Strip(x + " ") == x
  {
    assert "" + x + " " == x + " ";
    StripPadded("", x, " ");
  }

  lemma StripLeadingSpace(y: string)
    requires y != [] && !IsSpace(y[0]) && !IsSpace(y[|y| - 1])
    ensures Strip(" " + y) == y
  {
    assert " " + y + "" == " " + y;
    StripPadded(" ", y, "");
  }

  lemma ReplaceLeadingWord(t: string)
    requires 'I' !in t
    ensures ReplaceAll("Inputs" + t, "Inputs", "") == t
  {
    var x := "Inputs" + t;
    assert x[..6] == "Inputs" && x[6..] == t;
  }

  /** `"a/b"` of two decimals parses to both numbers minus one. */
  lemma PairParses(a: nat, b: nat)
    ensures ParseEach(Split(Decimal(a) + "/" + Decimal(b), '/')) == Some([a - 1, b - 1])
  {
    var da, db := Decimal(a), Decimal(b);
    DigitsAvoid(da, '/');
    DigitsAvoid(db, '/');
    assert da + "/" + db == da + ['/'] + db;
    SplitTwo(da, '/', db);
    ParseDecimal(a);
    ParseDecimal(b);
    ParseEachTwo(da, db, a, b);
  }

  lemma ParseEachTwo(p: string, q: string, x: int, y: int)
    requires ParseInt(p) == Some(x) && ParseInt(q) == Some(y)
    ensures ParseEach([p, q]) == Some([x - 1, y - 1])
  {
    var parts := [p, q];
    assert parts[0] == p && parts[1] == q;
    var r := ParseEach(parts);
    assert r.Some?;
    assert |r.value| == 2 && r.value[0] == x - 1 && r.value[1] == y - 1;
    assert r.value == [x - 1, y - 1];
  }

  lemma PairNumbersOfStereo(a: nat, b: nat)
    ensures PairNumbers(StereoLabel(a, b)) == Split(Decimal(a) + "/" + Decimal(b), '/')
  {
    var y := Decimal(a) + "/" + Decimal(b);
    PairTextAvoids(a, b);
    PairNumbersOfWords("Inputs" + (" " + y), y);
  }

  /** `a/b` has no '(' and no 'I', and starts and ends with a digit. */
  lemma PairTextAvoids(a: nat, b: nat)
    ensures var y := Decimal(a) + "/" + Decimal(b);
            '(' !in "Inputs" + (" " + y) && 'I' !in " " + y &&
            y != [] && !IsSpace(y[0]) && !IsSpace(y[|y| - 1])
  {
    var da, db := Decimal(a), Decimal(b);
    var y := da + "/" + db;
    assert y[0] == da[0] && y[|y| - 1] == db[|db| - 1];
    DigitsAvoid(da, '(');
    DigitsAvoid(db, '(');
    DigitsAvoid(da, 'I');
    DigitsAvoid(db, 'I');
  }

  /** `Inputs <y> (Stereo)` gives the pieces of `y`. */
  lemma PairNumbersOfWords(x: string, y: string)
    requires x == "Inputs" + (" " + y)
    requires '(' !in x && 'I' !in " " + y
    requires y != [] && !IsSpace(y[0]) && !IsSpace(y[|y| - 1])
    ensures PairNumbers(x + " " + "(Stereo)") == Split(y, '/')
  {
    TextBeforeParen(x, y);
    NumbersAfterWord(x, y);
  }

  /** The text before '(' stripped is `Inputs <y>`. */
  lemma TextBeforeParen(x: string, y: string)
    requires x == "Inputs" + (" " + y)
    requires '(' !in x
    requires y != [] && !IsSpace(y[|y| - 1])
    ensures Strip(Split(x + " " + "(Stereo)", '(')[0]) == x
  {
    assert x[0] == 'I' && x[|x| - 1] == y[|y| - 1];
    StereoBeforeParen(x);
    StripTrailingSpace(x);
  }

  /** Removing the word and stripping again leaves `y`. */
  lemma NumbersAfterWord(x: string, y: string)
    requires x == "Inputs" + (" " + y)
    requires 'I' !in " " + y
    requires y != [] && !IsSpace(y[0]) && !IsSpace(y[|y| - 1])
    ensures Split(Strip(ReplaceAll(x, "Inputs", "")), '/') == Split(y, '/')
  {
    ReplaceLeadingWord(" " + y);
    StripLeadingSpace(y);
  }

  /** A stereo entry parses back to both of its channels (minus one) in stereo
      mode and to the first of them otherwise. */
  lemma StereoLabelParses(a: nat, b: nat, mode: string, interfaceStr: string, devices: seq<InputDevice>)
    ensures InputChannels(StereoLabel(a, b), mode, interfaceStr, devices) ==
            if mode == "Stereo" then [a - 1, b - 1] else [a - 1]
  {
    var s := StereoLabel(a, b);
    assert StartsWith(s, "Inputs") by {
      assert s[..6] == "Inputs";
    }
    assert '/' in s by {
      assert s[7 + |Decimal(a)|] == '/';
    }
    ContainsChar(s, '/');
    PairNumbersOfStereo(a, b);
    PairParses(a, b);
  }

  /** Round trip: whatever entry of the list built for a device of `n`
      channels is selected, in either mode, parsing yields one or two channel
      indices of that device. Stereo mode consults the selected device, which
      is the one the list was built for. */
  lemma OptionsParseInRange(inputs: seq<string>, n: int, mode: string, interfaceStr: string, devices: seq<InputDevice>)
    requires IsOptionList(inputs, n)
    requires mode == "Stereo" ==> SelectedChannelCount(interfaceStr, devices) == Some(n)
    ensures forall i :: 0 <= i < |inputs| ==> ChannelsInRange(InputChannels(inputs[i], mode, interfaceStr, devices), n)
  {
    forall i | 0 <= i < |inputs|
      ensures ChannelsInRange(InputChannels(inputs[i], mode, interfaceStr, devices), n)
    {
      EntryInRange(inputs, n, i, mode, interfaceStr, devices);
    }
  }

  lemma EntryInRange(inputs: seq<string>, n: int, i: nat, mode: string, interfaceStr: string, devices: seq<InputDevice>)
    requires IsOptionList(inputs, n) && i < |inputs|
    requires mode == "Stereo" ==> SelectedChannelCount(interfaceStr, devices) == Some(n)
    ensures ChannelsInRange(InputChannels(inputs[i], mode, interfaceStr, devices), n)
  {
    var o := inputs[i];
    if i < MonoCount(n) {
      assert o == MonoLabel(i + 1);
      MonoInRange(i + 1, n, mode, interfaceStr, devices);
    } else {
      var j := i - MonoCount(n);
      assert o == StereoLabel(2 * j + 1, 2 * j + 2);
      StereoInRange(j, n, mode, interfaceStr, devices);
    }
  }

  /** One or two channel indices, each a channel of an `n`-channel device. */
  predicate ChannelsInRange(r: seq<int>, n: int) {
    1 <= |r| <= 2 && forall c :: 0 <= c < |r| ==> 0 <= r[c] < n
  }

  /** The channel count of the selected device, if the selection names one. */
  function SelectedChannelCount(interfaceStr: string, devices: seq<InputDevice>): Option<int> {
    var dev := GetSelectedDevice(interfaceStr, devices);
    if dev.Ok? && dev.value.Some? then Some(dev.value.value.channels) else None
  }

  lemma MonoInRange(k: nat, n: int, mode: string, interfaceStr: string, devices: seq<InputDevice>)
    requires 1 <= k <= n
    requires mode == "Stereo" ==> SelectedChannelCount(interfaceStr, devices) == Some(n)
    ensures ChannelsInRange(InputChannels(MonoLabel(k), mode, interfaceStr, devices), n)
  {
    MonoLabelParses(k, mode, interfaceStr, devices);
  }

  lemma StereoInRange(j: nat, n: int, mode: string, interfaceStr: string, devices: seq<InputDevice>)
    requires j < PairCount(n)
    ensures ChannelsInRange(InputChannels(StereoLabel(2 * j + 1, 2 * j + 2), mode, interfaceStr, devices), n)
  {
    StereoLabelParses(2 * j + 1, 2 * j + 2, mode, interfaceStr, devices);
  }

  // ---------------------------------------------------------------------------
  // handle_recorder_callback
  // ---------------------------------------------------------------------------

  const SAVED_PREFIX: string := "Saved: "
  const SAVED_SUFFIX: string := "\nWaiting for new sound..."
  const ERROR_PREFIX: string := "Error: "

  /** The status text shown for a recorder notification. */
  function CallbackMessage(e: Event): string {
    match e
    case StatusUpdate(m) => m
    case RecordingSaved(p) => SAVED_PREFIX + p + SAVED_SUFFIX
    case Error(m) => ERROR_PREFIX + m
  }

  /** The status text shows the saved file's name and the error's text in
      full, so different files or errors never read the same. */
  lemma CallbackMessageShowsPayload(e: Event)
    ensures e.StatusUpdate? ==> CallbackMessage(e) == e.message
    ensures e.RecordingSaved? ==>
              StartsWith(CallbackMessage(e), SAVED_PREFIX) &&
              CallbackMessage(e)[|SAVED_PREFIX|..|CallbackMessage(e)| - |SAVED_SUFFIX|] == e.filename
    ensures e.Error? ==>
              StartsWith(CallbackMessage(e), ERROR_PREFIX) && CallbackMessage(e)[|ERROR_PREFIX|..] == e.message
  {
  }

  lemma CallbackMessageInjective(e1: Event, e2: Event)
    requires e1.RecordingSaved? == e2.RecordingSaved? && e1.Error? == e2.Error?
    requires CallbackMessage(e1) == CallbackMessage(e2)
    ensures e1 == e2
  {
    CallbackMessageShowsPayload(e1);
    CallbackMessageShowsPayload(e2);
  }

  // ---------------------------------------------------------------------------
  // The window
  // ---------------------------------------------------------------------------

  class SamplerGui {
    const handler: AudioHandler
    const history: LevelHistory
    /** `input_devices` and the current value of each selector. */
    var inputDevices: seq<InputDevice>
    var interfaceSel: string
    var inputValues: seq<string>
    var inputSel: string
    var modeValues: seq<string>
    var modeSel: string
    var status: string

    /** `setup_gui` without the saved settings: the status "Ready", the input
        devices the handler lists, the interface selector on the first of
        them, and the input and mode options that device offers. */
    constructor (handler: AudioHandler, history: LevelHistory, devices: seq<RawDevice>)
      ensures this.handler == handler && this.history == history
      ensures status == "Ready"
      ensures inputDevices == InputDevices(devices)
      ensures interfaceSel == if inputDevices == [] then "" else InterfaceLabel(inputDevices[0])
      ensures inputDevices == [] ==>
                inputValues == [] && inputSel == "" && modeValues == ["Mono", "Stereo"] && modeSel == "Mono"
      ensures inputDevices != [] ==>
                IsOptionList(inputValues, inputDevices[0].channels) &&
                inputSel == (if inputValues != [] then inputValues[0] else "") &&
                modeValues == ModeOptions(inputDevices[0].channels) && modeSel == "Mono"
    {
      this.handler := handler;
      this.history := history;
      status := "Ready";
      var listed := handler.GetInputDevices(devices);
      inputDevices := listed;
      interfaceSel := if listed == [] then "" else InterfaceLabel(listed[0]);
      inputValues := [];
      inputSel := "";
      modeValues := ["Mono", "Stereo"];
      modeSel := "Mono";
      new;
      SetupInputOptions(devices);
    }

    /** The first `update_input_options` of `setup_gui`, on the first listed device. */
    method SetupInputOptions(devices: seq<RawDevice>)
      requires inputDevices == InputDevices(devices)
      requires interfaceSel == if inputDevices == [] then "" else InterfaceLabel(inputDevices[0])
      modifies this`inputValues, this`inputSel, this`modeValues, this`modeSel
      ensures inputDevices == [] ==>
                inputValues == old(inputValues) && inputSel == old(inputSel) &&
                modeValues == old(modeValues) && modeSel == old(modeSel)
      ensures inputDevices != [] ==>
                IsOptionList(inputValues, inputDevices[0].channels) &&
                inputSel == (if inputValues != [] then inputValues[0] else old(inputSel)) &&
                modeValues == ModeOptions(inputDevices[0].channels) && modeSel == "Mono"
    {
      if inputDevices != [] {
        ListedInterfacesSelect(devices, 0);
        assert SelectedChannelCount(interfaceSel, inputDevices) == Some(inputDevices[0].channels);
      }
      UpdateInputOptions();
    }

    /** `update_input_options`: for a selected device, the option lists for its
        channel count, the first input entry and mono mode. Nothing changes
        without a device. A lookup that raises ValueError leaves the state
        as it was, and the raise itself is not modelled; the read-only
        selector only offers labels that parse. */
    method UpdateInputOptions()
      modifies this`inputValues, this`inputSel, this`modeValues, this`modeSel
      ensures var count := SelectedChannelCount(interfaceSel, inputDevices);
              if count.Some? then
                IsOptionList(inputValues, count.value) &&
                inputSel == (if inputValues != [] then inputValues[0] else old(inputSel)) &&
                modeValues == ModeOptions(count.value) && modeSel == "Mono"
              else
                inputValues == old(inputValues) && inputSel == old(inputSel) &&
                modeValues == old(modeValues) && modeSel == old(modeSel)
    {
      var count := SelectedChannelCount(interfaceSel, inputDevices);
      if count.None? {
        return;
      }
      var maxChannels := count.value;
      var inputs := InputOptions(maxChannels);
      inputValues := inputs;
      if inputs != [] {
        inputSel := inputs[0];
      }
      modeValues := ModeOptions(maxChannels);
      modeSel := "Mono";
      assert count == SelectedChannelCount(interfaceSel, inputDevices);
    }

    /** `get_input_channels` on the current selection. */
    function SelectedChannels(): seq<int>
      reads this
    {
      InputChannels(inputSel, modeSel, interfaceSel, inputDevices)
    }

    /** After `update_input_options` found a device, the selected input parses
        to valid channels of that device. */
    lemma UpdatedSelectionInRange()
      requires SelectedChannelCount(interfaceSel, inputDevices).Some?
      requires IsOptionList(inputValues, SelectedChannelCount(interfaceSel, inputDevices).value)
      requires inputValues != [] && inputSel == inputValues[0]
      ensures ChannelsInRange(SelectedChannels(), SelectedChannelCount(interfaceSel, inputDevices).value)
    {
      var n := SelectedChannelCount(interfaceSel, inputDevices).value;
      OptionsParseInRange(inputValues, n, modeSel, interfaceSel, inputDevices);
    }

    /** `update_level_display`: every queued level enters the history, oldest
        first, and the queue is left empty. */
    method UpdateLevelDisplay()
      requires history.Valid()
      modifies handler`levelQueue, history.levelData
      ensures handler.levelQueue == []
      ensures history.levelData[..] == Drained(old(history.levelData[..]), old(handler.levelQueue))
    {
      var pending := handler.levelQueue;
      history.Drain(pending);
      handler.levelQueue := [];
    }

    /** `handle_recorder_callback`. */
    method HandleRecorderCallback(e: Event)
      modifies this`status
      ensures status == CallbackMessage(e)
    {
      match e
      case StatusUpdate(m) =>
        status := m;
      case RecordingSaved(p) =>
        status := SAVED_PREFIX + p + SAVED_SUFFIX;
      case Error(m) =>
        status := ERROR_PREFIX + m;
    }
  }
}
