/** The level meter's history (`level_data`), shared by gui.py
    `update_level_display` and autosampler.py `update_plot`: a fixed-length
    array that every new level shifts one place to the left
    (`np.roll(level_data, -1)`) before it is written into the last slot. */
module History {
  import Config

  /** The history after one new level: the oldest value drops out. */
  function Pushed(h: seq<real>, x: real): (r: seq<real>)
    requires |h| >= 1
    ensures |r| == |h| && r[|r| - 1] == x
    ensures forall k :: 0 <= k < |h| - 1 ==> r[k] == h[k + 1]
  {
    h[1..] + [x]
  }

  /** The history after a whole queue of levels, taken oldest first. */
  function Drained(h: seq<real>, xs: seq<real>): (r: seq<real>)
    requires |h| >= 1
    ensures |r| == |h|
  {
    if xs == [] then h else Pushed(Drained(h, xs[..|xs| - 1]), xs[|xs| - 1])
  }

  /** Draining keeps a sliding window over the old history followed by the
      new levels: it is the last `|h|` values of `h + xs`. */
  lemma {:induction false} DrainedIsWindow(h: seq<real>, xs: seq<real>)
    requires |h| >= 1
    ensures Drained(h, xs) == (h + xs)[|xs|..]
  {
    if xs != [] {
      var init := xs[..|xs| - 1];
      DrainedIsWindow(h, init);
      assert (h + init)[|init|..][1..] + [xs[|xs| - 1]] == (h + xs)[|xs|..];
    }
  }

  /** Draining `k` levels keeps the newest `|h| - k` old values followed by the
      new ones in arrival order; draining more than `|h|` keeps only the newest
      `|h|` new ones. */
  lemma DrainKeepsNewest(h: seq<real>, xs: seq<real>)
    requires |h| >= 1
    ensures |xs| <= |h| ==> Drained(h, xs) == h[|xs|..] + xs
    ensures |xs| >= |h| ==> Drained(h, xs) == xs[|xs| - |h|..]
  {
    DrainedIsWindow(h, xs);
    if |xs| <= |h| {
      assert (h + xs)[|xs|..] == h[|xs|..] + xs;
    } else {
      assert (h + xs)[|xs|..] == xs[|xs| - |h|..];
    }
  }

  /** Draining in two installments is draining once. */
  lemma {:induction false} DrainTwice(h: seq<real>, xs: seq<real>, ys: seq<real>)
    requires |h| >= 1
    ensures Drained(Drained(h, xs), ys) == Drained(h, xs + ys)
  {
    if ys == [] {
      assert xs + ys == xs;
    } else {
      var init := ys[..|ys| - 1];
      DrainTwice(h, xs, init);
      assert (xs + ys)[..|xs + ys| - 1] == xs + init;
    }
  }

  class LevelHistory {
    const levelData: array<real>

    predicate Valid()
      reads this
    {
      levelData.Length == Config.LEVEL_HISTORY
    }

    /** `np.zeros(LEVEL_HISTORY)`. */
    constructor ()
      ensures Valid() && fresh(levelData)
      ensures forall k :: 0 <= k < levelData.Length ==> levelData[k] == 0.0
    {
      levelData := new real[Config.LEVEL_HISTORY](_ => 0.0);
    }

    /** `level_data = np.roll(level_data, -1); level_data[-1] = x`, done in place. */
    method Push(x: real)
      requires Valid()
      modifies levelData
      ensures levelData[..] == Pushed(old(levelData[..]), x)
    {
      var n := levelData.Length;
      var i := 0;
      while i < n - 1
        invariant 0 <= i <= n - 1
        invariant forall k :: 0 <= k < i ==> levelData[k] == old(levelData[k + 1])
        invariant forall k :: i <= k < n ==> levelData[k] == old(levelData[k])
      {
        levelData[i] := levelData[i + 1];
        i := i + 1;
      }
      levelData[n - 1] := x;
    }

    /** The drain loop: every queued level, oldest first. */
    method Drain(pending: seq<real>)
      requires Valid()
      modifies levelData
      ensures levelData[..] == Drained(old(levelData[..]), pending)
    {
      var i := 0;
      while i < |pending|
        invariant 0 <= i <= |pending|
        invariant levelData[..] == Drained(old(levelData[..]), pending[..i])
      {
        Push(pending[i]);
        assert pending[..i + 1][..i] == pending[..i];
        i := i + 1;
      }
      assert pending[..|pending|] == pending;
    }
  }
}
