/** Audio blocks (numpy `frames x channels` arrays), the peak level of a block
    (`float(np.max(np.abs(data)))`) and the stacking of blocks along the time
    axis (`np.vstack(chunks)`). */
module Audio {
  import opened Common

  /** One block of samples: `rows[f][c]` is channel `c` of frame `f`. The
      channel count is kept explicitly because numpy keeps it for an array
      with no frames, and indexing or stacking such an array still checks it. */
  datatype Block = Block(width: nat, rows: seq<seq<real>>)

  /** The block is a genuine `frames x width` matrix. */
  predicate Shaped(b: Block) {
    forall f :: 0 <= f < |b.rows| ==> |b.rows[f]| == b.width
  }

  function Frames(b: Block): nat {
    |b.rows|
  }

  // ---------------------------------------------------------------------------
  // Level: np.max(np.abs(data))
  // ---------------------------------------------------------------------------

  /** All samples of a block in row-major order (what `np.max` reduces over). */
  function Samples(rows: seq<seq<real>>): seq<real> {
    if rows == [] then [] else rows[0] + Samples(rows[1..])
  }

  lemma {:induction false} SamplesMembership(rows: seq<seq<real>>, x: real)
    ensures x in Samples(rows) <==>
            exists f, c :: 0 <= f < |rows| && 0 <= c < |rows[f]| && rows[f][c] == x
  {
    if rows != [] {
      SamplesMembership(rows[1..], x);
      if x in Samples(rows[1..]) {
        var f, c :| 0 <= f < |rows[1..]| && 0 <= c < |rows[1..][f]| && rows[1..][f][c] == x;
        assert rows[f + 1][c] == x;
      }
      if exists f, c :: 0 <= f < |rows| && 0 <= c < |rows[f]| && rows[f][c] == x {
        var f, c :| 0 <= f < |rows| && 0 <= c < |rows[f]| && rows[f][c] == x;
        if f == 0 {
          assert rows[0][c] in rows[0];
        } else {
          assert rows[1..][f - 1][c] == x;
        }
      }
    }
  }

  lemma {:induction false} SamplesEmpty(rows: seq<seq<real>>)
    ensures Samples(rows) == [] <==> forall f :: 0 <= f < |rows| ==> rows[f] == []
  {
    if rows != [] {
      SamplesEmpty(rows[1..]);
      if rows[0] == [] {
        assert forall f :: 1 <= f < |rows| ==> rows[f] == rows[1..][f - 1];
      }
    }
  }

  /** The largest absolute value in a non-empty sequence. */
  function PeakAbs(xs: seq<real>): (r: real)
    requires xs != []
    ensures forall i :: 0 <= i < |xs| ==> Abs(xs[i]) <= r
    ensures exists i :: 0 <= i < |xs| && Abs(xs[i]) == r
  {
    if |xs| == 1 then Abs(xs[0])
    else
      var rest := PeakAbs(xs[1..]);
      assert forall i :: 1 <= i < |xs| ==> xs[i] == xs[1..][i - 1];
      Max(Abs(xs[0]), rest)
  }

  /** `float(np.max(np.abs(data)))`, or `None` where numpy raises ValueError
      because the block holds no sample (zero frames or zero channels). The
      level bounds every sample's magnitude and is reached by one of them. */
  function Level(b: Block): (r: Option<real>)
    ensures r.None? <==> forall f :: 0 <= f < |b.rows| ==> b.rows[f] == []
    ensures r.Some? ==> r.value >= 0.0
    ensures r.Some? ==>
              forall f, c :: 0 <= f < |b.rows| && 0 <= c < |b.rows[f]| ==> Abs(b.rows[f][c]) <= r.value
    ensures r.Some? ==>
              exists f, c :: 0 <= f < |b.rows| && 0 <= c < |b.rows[f]| && Abs(b.rows[f][c]) == r.value
  {
    SamplesEmpty(b.rows);
    var xs := Samples(b.rows);
    if xs == [] then None
    else
      var v := PeakAbs(xs);
      PeakOfRows(b.rows, v);
      Some(v)
  }

  lemma PeakOfRows(rows: seq<seq<real>>, v: real)
    requires Samples(rows) != [] && v == PeakAbs(Samples(rows))
    ensures v >= 0.0
    ensures forall f, c :: 0 <= f < |rows| && 0 <= c < |rows[f]| ==> Abs(rows[f][c]) <= v
    ensures exists f, c :: 0 <= f < |rows| && 0 <= c < |rows[f]| && Abs(rows[f][c]) == v
  {
    var xs := Samples(rows);
    assert Abs(xs[0]) <= v;
    forall f, c | 0 <= f < |rows| && 0 <= c < |rows[f]|
      ensures Abs(rows[f][c]) <= v
    {
      SamplesMembership(rows, rows[f][c]);
      var i :| 0 <= i < |xs| && xs[i] == rows[f][c];
    }
    var i :| 0 <= i < |xs| && Abs(xs[i]) == v;
    SamplesMembership(rows, xs[i]);
  }

  /** For a genuine matrix, numpy raises exactly when it has no frame or no channel. */
  lemma LevelOfShaped(b: Block)
    requires Shaped(b)
    ensures Level(b).None? <==> Frames(b) == 0 || b.width == 0
  {
    if Frames(b) > 0 && b.width > 0 {
      assert b.rows[0] != [];
    }
  }

  // ---------------------------------------------------------------------------
  // np.vstack(chunks)
  // ---------------------------------------------------------------------------

  /** np.vstack succeeds: at least one block and one common channel count. */
  predicate Stackable(cs: seq<Block>) {
    cs != [] && forall k :: 0 <= k < |cs| ==> cs[k].width == cs[0].width
  }

  function ConcatRows(cs: seq<Block>): seq<seq<real>> {
    if cs == [] then [] else cs[0].rows + ConcatRows(cs[1..])
  }

  /** The blocks joined along the time axis, in order. */
  function VStack(cs: seq<Block>): Block
    requires cs != []
  {
    Block(cs[0].width, ConcatRows(cs))
  }

  /** Sum of the frame counts. */
  function TotalFrames(cs: seq<Block>): nat {
    if cs == [] then 0 else Frames(cs[0]) + TotalFrames(cs[1..])
  }

  lemma {:induction false} ConcatRowsLength(cs: seq<Block>)
    ensures |ConcatRows(cs)| == TotalFrames(cs)
  {
    if cs != [] {
      ConcatRowsLength(cs[1..]);
    }
  }

  lemma {:induction false} ConcatRowsAppend(cs: seq<Block>, ds: seq<Block>)
    ensures ConcatRows(cs + ds) == ConcatRows(cs) + ConcatRows(ds)
    ensures TotalFrames(cs + ds) == TotalFrames(cs) + TotalFrames(ds)
  {
    if cs == [] {
      assert cs + ds == ds;
    } else {
      assert (cs + ds)[1..] == cs[1..] + ds;
      ConcatRowsAppend(cs[1..], ds);
    }
  }

  /** Block `k` occupies frames `TotalFrames(cs[..k])` up to the next block's
      start in the stacked array: nothing is reordered, dropped or padded. */
  lemma ChunkPlacement(cs: seq<Block>, k: nat)
    requires k < |cs|
    ensures TotalFrames(cs[..k]) + Frames(cs[k]) <= |ConcatRows(cs)|
    ensures ConcatRows(cs)[TotalFrames(cs[..k]) .. TotalFrames(cs[..k]) + Frames(cs[k])] == cs[k].rows
  {
    assert cs == cs[..k] + ([cs[k]] + cs[k + 1..]);
    ConcatRowsAppend(cs[..k], [cs[k]] + cs[k + 1..]);
    ConcatRowsAppend([cs[k]], cs[k + 1..]);
    assert ConcatRows([cs[k]]) == cs[k].rows + ConcatRows([]);
    ConcatRowsLength(cs[..k]);
    ConcatRowsLength(cs);
  }

  /** Every row of the stacked blocks has the common width. */
  lemma {:induction false} ConcatRowsWidth(cs: seq<Block>, w: nat)
    requires forall k :: 0 <= k < |cs| ==> cs[k].width == w && Shaped(cs[k])
    ensures forall f :: 0 <= f < |ConcatRows(cs)| ==> |ConcatRows(cs)[f]| == w
  {
    if cs != [] {
      var tail := cs[1..];
      assert forall k :: 0 <= k < |tail| ==> tail[k] == cs[k + 1];
      ConcatRowsWidth(tail, w);
      var head := cs[0].rows;
      var rest := ConcatRows(tail);
      assert ConcatRows(cs) == head + rest;
      forall f | 0 <= f < |head + rest|
        ensures |(head + rest)[f]| == w
      {
        if f < |head| {
          assert (head + rest)[f] == head[f];
        } else {
          assert (head + rest)[f] == rest[f - |head|];
        }
      }
    }
  }

  /** Stacking genuine matrices of one width yields a genuine matrix of that
      width whose frame count is the sum of theirs. */
  lemma VStackShape(cs: seq<Block>)
    requires Stackable(cs)
    requires forall k :: 0 <= k < |cs| ==> Shaped(cs[k])
    ensures Shaped(VStack(cs)) && VStack(cs).width == cs[0].width
    ensures Frames(VStack(cs)) == TotalFrames(cs)
  {
    ConcatRowsLength(cs);
    ConcatRowsWidth(cs, cs[0].width);
  }

  /** A stack that contains a block with samples has samples itself, so
      `np.max` of it is defined. */
  lemma VStackHasSamples(cs: seq<Block>, k: nat)
    requires k < |cs| && Level(cs[k]).Some?
    ensures Level(VStack(cs)).Some?
  {
    var f :| 0 <= f < |cs[k].rows| && cs[k].rows[f] != [];
    ChunkPlacement(cs, k);
    var start := TotalFrames(cs[..k]);
    assert ConcatRows(cs)[start + f] == cs[k].rows[f];
  }
}
