/** The two decisions that both recording loops (recorder.py `record_loop`
    and autosampler.py `record_audio`) make on every block: whether a block
    starts a segment, and what a block of the active phase does to the
    silence timer. */
module Segmenter {
  import opened Common

  /** A segment starts on a level strictly above the threshold. */
  predicate Triggers(level: real, threshold: real) {
    level > threshold
  }

  /** Effect of one active-phase block: the segment goes on with the given
      timer (`silence_start`), or it ends. */
  datatype Silence = Continue(silenceStart: Option<real>) | End

  /** The silence test of the active phase, for a block of level `level`
      arriving at time `now` (seconds). */
  function SilenceStep(level: real, threshold: real, silenceStart: Option<real>, now: real, timeout: real): (r: Silence)
    ensures r.End? <==> level < threshold && silenceStart.Some? && now - silenceStart.value >= timeout
    ensures level >= threshold ==> r == Continue(None)
    ensures level < threshold && silenceStart.None? ==> r == Continue(Some(now))
    ensures level < threshold && silenceStart.Some? && r.Continue? ==> r == Continue(silenceStart)
  {
    if level < threshold then
      if silenceStart.None? then Continue(Some(now))
      else if now - silenceStart.value >= timeout then End
      else Continue(silenceStart)
    else Continue(None)
  }

  /** Quiet blocks that arrive before the timeout keep the timer where the
      first of them set it. */
  function SilenceRun(levels: seq<real>, times: seq<real>, threshold: real, silenceStart: Option<real>, timeout: real): (r: Silence)
    requires |levels| == |times|
  {
    if levels == [] then Continue(silenceStart)
    else
      match SilenceStep(levels[0], threshold, silenceStart, times[0], timeout)
      case End => End
      case Continue(t) => SilenceRun(levels[1..], times[1..], threshold, t, timeout)
  }

  /** A stretch of quiet blocks ends the segment at the first block that
      arrives `timeout` or more after the first quiet block, and not before;
      the first quiet block itself never ends it, whatever the timeout. */
  lemma {:induction false} SilenceEndsAtTimeout(levels: seq<real>, times: seq<real>, threshold: real, timeout: real)
    requires |levels| == |times| >= 1
    requires forall i :: 0 <= i < |levels| ==> levels[i] < threshold
    ensures SilenceRun(levels, times, threshold, None, timeout).End? <==>
            exists i :: 1 <= i < |times| && times[i] - times[0] >= timeout
    ensures SilenceRun(levels, times, threshold, None, timeout).Continue? ==>
            SilenceRun(levels, times, threshold, None, timeout) == Continue(Some(times[0]))
  {
    assert SilenceRun(levels, times, threshold, None, timeout) ==
           SilenceRun(levels[1..], times[1..], threshold, Some(times[0]), timeout);
    QuietWhileTimed(levels[1..], times[1..], threshold, times[0], timeout);
    assert forall i :: 1 <= i < |times| ==> times[i] == times[1..][i - 1];
  }

  lemma {:induction false} QuietWhileTimed(levels: seq<real>, times: seq<real>, threshold: real, t0: real, timeout: real)
    requires |levels| == |times|
    requires forall i :: 0 <= i < |levels| ==> levels[i] < threshold
    ensures SilenceRun(levels, times, threshold, Some(t0), timeout).End? <==>
            exists i :: 0 <= i < |times| && times[i] - t0 >= timeout
    ensures SilenceRun(levels, times, threshold, Some(t0), timeout).Continue? ==>
            SilenceRun(levels, times, threshold, Some(t0), timeout) == Continue(Some(t0))
  {
    if levels != [] && times[0] - t0 < timeout {
      QuietWhileTimed(levels[1..], times[1..], threshold, t0, timeout);
      assert forall i :: 1 <= i < |times| ==> times[i] == times[1..][i - 1];
      if exists i :: 0 <= i < |times| && times[i] - t0 >= timeout {
        var i :| 0 <= i < |times| && times[i] - t0 >= timeout;
        assert times[1..][i - 1] == times[i];
      }
    }
  }

  /** A block at or above the threshold wipes out any earlier silence: quiet
      blocks after it count again from the first of them. */
  lemma SoundRestartsSilence(loud: real, levels: seq<real>, times: seq<real>, now: real,
                             threshold: real, silenceStart: Option<real>, timeout: real)
    requires |levels| == |times|
    requires loud >= threshold
    ensures SilenceRun([loud] + levels, [now] + times, threshold, silenceStart, timeout) ==
            SilenceRun(levels, times, threshold, None, timeout)
  {
    assert ([loud] + levels)[1..] == levels;
    assert ([now] + times)[1..] == times;
  }
}
