/** The fixed block gate of noisegate.py: the signal is cut to a whole number
    of `spread`-sample blocks, a block lets all its samples through when one of
    them rises above the level and is silenced otherwise, and the cut tail
    comes back as zeros.

    Source file: noisegate.py (no underscore); noise_gate.py is module NoiseGate. */
module BlockGate {
  import opened Outcomes
  import opened Samples

  /** `int(np.floor(len / spread)) * spread` for a positive spread: the length
      of the whole blocks. */
  function TrimmedLength(n: nat, w: int): (m: nat)
    requires w > 0
    ensures m == (n / w) * w && m <= n && n - m < w
  {
    DivMod(n, w);
    MulLe(0, n / w, w);
    n / w * w
  }

  /** `np.greater(np.abs(s), level)` */
  function Exceeds(s: seq<real>, level: real): (e: seq<bool>)
    ensures |e| == |s| && forall i :: 0 <= i < |s| ==> (e[i] <==> Abs(s[i]) > level)
  {
    seq(|s|, i requires 0 <= i < |s| => Abs(s[i]) > level)
  }

  /** `np.sum(b, dtype=bool)`: some entry of `b` is set. */
  function Any(b: seq<bool>): (r: bool)
    ensures r <==> exists j :: 0 <= j < |b| && b[j]
  {
    if b == [] then false
    else
      assert forall j :: 1 <= j < |b| ==> b[j] == b[1..][j - 1];
      b[0] || Any(b[1..])
  }

  /** The mask of noisegate: reshape the exceedances into blocks of `w`, OR each
      block, and repeat each block's flag `w` times. */
  function BlockMask(s: seq<real>, level: real, w: int, k: nat): (m: seq<bool>)
    requires w > 0 && |s| == k * w
    ensures |m| == |s|
  {
    var blocks := Windows(Exceeds(s, level), w, k);
    Repeat(seq(|blocks|, b requires 0 <= b < |blocks| => Any(blocks[b])), w)
  }

  /** The mask is set at `i` exactly when some sample of i's block rises above the level. */
  lemma BlockMaskAt(s: seq<real>, level: real, w: int, k: nat, i: int)
    requires w > 0 && |s| == k * w && 0 <= i < |s|
    ensures BlockMask(s, level, w, k)[i] <==> BlockExceeds(s, level, w, i)
  {
    var e := Exceeds(s, level);
    var blocks := Windows(e, w, k);
    var flags := seq(|blocks|, b requires 0 <= b < |blocks| => Any(blocks[b]));
    RepeatAt(flags, w, i);
    var b := i / w;
    WindowsAt(e, w, k, b);
    var block := blocks[b];
    assert |block| == w;
    if Any(block) {
      var j :| 0 <= j < w && block[j];
      assert block[j] == e[b * w + j];
      assert Abs(s[b * w + j]) > level;
    }
    if BlockExceeds(s, level, w, i) {
      var j :| b * w <= j < b * w + w && 0 <= j < |s| && Abs(s[j]) > level;
      assert block[j - b * w] == e[j];
    }
  }

  /** What noisegate returns for a positive spread: within the whole blocks,
      the samples whose block mask is set and zeros elsewhere, then the zeros
      that restore the original length. */
  function Gated(x: seq<real>, level: real, w: int): (r: seq<real>)
    requires w > 0
    ensures |r| == |x|
  {
    var n := TrimmedLength(|x|, w);
    var mask := BlockMask(x[..n], level, w, |x| / w);
    seq(n, i requires 0 <= i < n => if mask[i] then x[i] else 0.0) + Zeros(|x| - n)
  }

  /** Gating sample by sample: a sample of the whole blocks is kept exactly when
      its block has a sample above the level, and everything past the whole
      blocks is zero. */
  lemma GatedAt(x: seq<real>, level: real, w: int, i: int)
    requires w > 0 && 0 <= i < |x|
    ensures i >= TrimmedLength(|x|, w) ==> Gated(x, level, w)[i] == 0.0
    ensures i < TrimmedLength(|x|, w) ==>
      Gated(x, level, w)[i] == if BlockExceeds(x, level, w, i) then x[i] else 0.0
  {
    var n := TrimmedLength(|x|, w);
    if i < n {
      BlockMaskAt(x[..n], level, w, |x| / w, i);
      InOwnBlock(i, w);
      IndexBlock(i, w, |x| / w);
      BlockInside(i / w, w, |x| / w);
      assert BlockExceeds(x[..n], level, w, i) <==> BlockExceeds(x, level, w, i) by {
        if BlockExceeds(x, level, w, i) {
          var j :| (i / w) * w <= j < (i / w) * w + w && 0 <= j < |x| && Abs(x[j]) > level;
          assert j < n && x[..n][j] == x[j];
        }
      }
    }
  }

  /** Every output sample is its input sample or zero. */
  lemma GatedKeepsOrZeroes(x: seq<real>, level: real, w: int)
    requires w > 0
    ensures forall i :: 0 <= i < |x| ==> Gated(x, level, w)[i] == x[i] || Gated(x, level, w)[i] == 0.0
  {
    forall i | 0 <= i < |x|
      ensures Gated(x, level, w)[i] == x[i] || Gated(x, level, w)[i] == 0.0
    {
      GatedAt(x, level, w, i);
    }
  }

  /** Whether a block lets its samples through depends on the block only. */
  lemma BlockExceedsSameBlock(s: seq<real>, level: real, w: int, i: int, j: int)
    requires w > 0 && 0 <= i && 0 <= j && j / w == i / w
    ensures BlockExceeds(s, level, w, i) <==> BlockExceeds(s, level, w, j)
  {
  }

  /** Gating an already gated signal again with the same level and spread changes
      nothing: a block that passed keeps the sample that let it pass, and a block
      that was silenced stays silent. */
  lemma GatedIdempotent(x: seq<real>, level: real, w: int)
    requires w > 0
    ensures Gated(Gated(x, level, w), level, w) == Gated(x, level, w)
  {
    var y := Gated(x, level, w);
    var n := TrimmedLength(|x|, w);
    forall i | 0 <= i < |x|
      ensures Gated(y, level, w)[i] == y[i]
    {
      GatedAt(x, level, w, i);
      GatedAt(y, level, w, i);
      if i < n && BlockExceeds(x, level, w, i) {
        var j :| (i / w) * w <= j < (i / w) * w + w && 0 <= j < |x| && Abs(x[j]) > level;
        InOwnBlock(i, w);
        SameBlock(i, j, w);
        IndexBlock(i, w, |x| / w);
        BlockInside(i / w, w, |x| / w);
        GatedAt(x, level, w, j);
        BlockExceedsSameBlock(x, level, w, i, j);
        assert y[j] == x[j];
      }
    }
  }

  /** noisegate(level, data, mult, spread). The prefix of whole blocks is a view
      of the caller's array, so its silenced samples are zeroed in the caller's
      array as well; the samples past it stay as they were there. The result is
      a new array of the original length, and `mult` plays no part. A zero
      spread divides by zero and a negative one makes reshape fail, before any
      write. */
  method NoiseGate(level: real, data: array<real>, mult: real, spread: int) returns (r: Result<seq<real>>)
    modifies data
    ensures spread == 0 ==> r == Failure(ZeroDivision) && data[..] == old(data[..])
    ensures spread < 0 ==> r == Failure(BadShape) && data[..] == old(data[..])
    ensures spread > 0 ==>
      var n := TrimmedLength(data.Length, spread);
      && r == Success(Gated(old(data[..]), level, spread))
      && data[..] == Gated(old(data[..]), level, spread)[..n] + old(data[..])[n..]
  {
    if spread == 0 {
      return Failure(ZeroDivision);
    }
    if spread < 0 {
      return Failure(BadShape);
    }
    ghost var x := data[..];
    var oldlen := data.Length;
    var newlen := TrimmedLength(oldlen, spread);
    var mask := BlockMask(data[..newlen], level, spread, oldlen / spread);
    forall i | 0 <= i < newlen && !mask[i] {
      data[i] := 0.0;
    }
    r := Success(data[..newlen] + Zeros(oldlen - newlen));
    assert data[..newlen] == Gated(x, level, spread)[..newlen];
    assert data[..] == data[..newlen] + x[newlen..];
  }

  /** noisegate_rel exactly as written: `noisegate(level, data, spread)` hands its
      spread to noisegate's `mult`, so the blocks are always 10 samples long.
      An empty input has no maximum; a maximum of 0 turns the nonzero samples of
      the whole blocks into infinities times zero, that is NaN. */
  function NoiseGateRelAsWritten(level: real, x: seq<real>, spread: int): (r: Result<seq<real>>)
    ensures x == [] ==> r == Failure(EmptyReduction)
    ensures r.Success? ==> |r.value| == |x|
  {
    if x == [] then Failure(EmptyReduction)
    else
      var top := PeakValue(x);
      var n := TrimmedLength(|x|, 10);
      if top == 0.0 then
        if exists j :: 0 <= j < n && x[j] != 0.0 then Failure(NotANumber) else Success(Zeros(|x|))
      else
        var g := Gated(Scaled(x, 1.0 / top), level, 10);
        Success(Scaled(g, top))
  }

  /** noisegate_rel as its documentation means it: blocks of `spread` samples. */
  function NoiseGateRel(level: real, x: seq<real>, spread: int): (r: Result<seq<real>>)
    ensures x == [] ==> r == Failure(EmptyReduction)
    ensures x != [] && spread == 0 ==> r == Failure(ZeroDivision)
    ensures x != [] && spread < 0 ==> r == Failure(BadShape)
    ensures r.Success? ==> |r.value| == |x|
  {
    if x == [] then Failure(EmptyReduction)
    else if spread == 0 then Failure(ZeroDivision)
    else if spread < 0 then Failure(BadShape)
    else
      var top := PeakValue(x);
      var n := TrimmedLength(|x|, spread);
      if top == 0.0 then
        if exists j :: 0 <= j < n && x[j] != 0.0 then Failure(NotANumber) else Success(Zeros(|x|))
      else
        var g := Gated(Scaled(x, 1.0 / top), level, spread);
        Success(Scaled(g, top))
  }

  /** `np.max(data)` of a non-empty signal. */
  function PeakValue(x: seq<real>): (m: real)
    requires |x| > 0
    ensures forall j :: 0 <= j < |x| ==> x[j] <= m
    ensures exists j :: 0 <= j < |x| && m == x[j]
  {
    if |x| == 1 then x[0]
    else
      var rest := PeakValue(x[1..]);
      assert forall j :: 1 <= j < |x| ==> x[j] == x[1..][j - 1];
      if x[0] >= rest then x[0] else rest
  }

  /** With a nonzero maximum `top`, the relative gate with `w`-sample blocks
      keeps a sample of the whole blocks, at its original value, exactly when
      its block has a sample with `|x| / top` above the level; the rest is zero. */
  lemma RelativeGateAt(level: real, x: seq<real>, w: int, i: int)
    requires w > 0 && 0 <= i < |x| && PeakValue(x) != 0.0
    ensures var top := PeakValue(x);
            var g := Scaled(Gated(Scaled(x, 1.0 / top), level, w), top);
            && (i < TrimmedLength(|x|, w) && BlockExceeds(Scaled(x, 1.0 / top), level, w, i) ==> g[i] == x[i])
            && (i < TrimmedLength(|x|, w) && !BlockExceeds(Scaled(x, 1.0 / top), level, w, i) ==> g[i] == 0.0)
            && (i >= TrimmedLength(|x|, w) ==> g[i] == 0.0)
  {
    var top := PeakValue(x);
    UnscaleFactor(top);
    ScaledGateAt(level, x, 1.0 / top, top, w, i);
  }

  /** Dividing by a nonzero maximum and multiplying back is the identity factor. */
  lemma UnscaleFactor(t: real)
    requires t != 0.0
    ensures (1.0 / t) * t == 1.0
  {
  }

  /** Gating a signal scaled by `c` and scaling the result by `t`, with `c * t == 1`. */
  lemma ScaledGateAt(level: real, x: seq<real>, c: real, t: real, w: int, i: int)
    requires w > 0 && 0 <= i < |x| && c * t == 1.0
    ensures var g := Scaled(Gated(Scaled(x, c), level, w), t);
            && (i < TrimmedLength(|x|, w) && BlockExceeds(Scaled(x, c), level, w, i) ==> g[i] == x[i])
            && (i < TrimmedLength(|x|, w) && !BlockExceeds(Scaled(x, c), level, w, i) ==> g[i] == 0.0)
            && (i >= TrimmedLength(|x|, w) ==> g[i] == 0.0)
  {
    var y := Scaled(x, c);
    var g := Gated(y, level, w);
    GatedAt(y, level, w, i);
    UnscaleAt(g, x, c, t, i);
  }

  /** Scaling by `t` undoes a scaling by `c` when `c * t == 1`, and keeps a zero. */
  lemma UnscaleAt(g: seq<real>, x: seq<real>, c: real, t: real, i: int)
    requires 0 <= i < |g| && 0 <= i < |x| && c * t == 1.0
    ensures g[i] == x[i] * c ==> Scaled(g, t)[i] == x[i]
    ensures g[i] == 0.0 ==> Scaled(g, t)[i] == 0.0
  {
    if g[i] == x[i] * c {
      assert Scaled(g, t)[i] == x[i] * c * t == x[i] * (c * t);
    }
  }

  /** The corrected noisegate_rel gates with the caller's block size. */
  lemma NoiseGateRelUsesSpread(level: real, x: seq<real>, spread: int, i: int)
    requires spread > 0 && 0 <= i < |x| && PeakValue(x) != 0.0
    ensures NoiseGateRel(level, x, spread).Success?
    ensures var top := PeakValue(x);
            var r := NoiseGateRel(level, x, spread).value;
            && (i < TrimmedLength(|x|, spread) && BlockExceeds(Scaled(x, 1.0 / top), level, spread, i) ==> r[i] == x[i])
            && (i < TrimmedLength(|x|, spread) && !BlockExceeds(Scaled(x, 1.0 / top), level, spread, i) ==> r[i] == 0.0)
            && (i >= TrimmedLength(|x|, spread) ==> r[i] == 0.0)
  {
    RelativeGateAt(level, x, spread, i);
  }

  /** As written, the caller's spread is ignored: the gate is the same for every spread. */
  lemma NoiseGateRelIgnoresSpread(level: real, x: seq<real>, s1: int, s2: int)
    ensures NoiseGateRelAsWritten(level, x, s1) == NoiseGateRelAsWritten(level, x, s2)
    ensures NoiseGateRelAsWritten(level, x, s1) == NoiseGateRel(level, x, 10)
  {
  }

  /** A four-sample signal with spread 2: its first block has a sample at the
      maximum, so the intended gate keeps it, but as written the signal is shorter
      than one 10-sample block and comes back silent. */
  lemma NoiseGateRelCounterexample()
    ensures var x := [1.0, 0.25, 0.25, 0.25];
            && NoiseGateRelAsWritten(0.5, x, 2) == Success([0.0, 0.0, 0.0, 0.0])
            && NoiseGateRel(0.5, x, 2).Success? && NoiseGateRel(0.5, x, 2).value[0] == 1.0
  {
    ExampleSilencedAsWritten();
    ExampleKept();
  }

  lemma ExamplePeak()
    ensures PeakValue([1.0, 0.25, 0.25, 0.25]) == 1.0
  {
    var x := [1.0, 0.25, 0.25, 0.25];
    assert PeakValue(x[3..]) == 0.25;
    assert x[2..][1..] == x[3..];
    assert PeakValue(x[2..]) == 0.25;
    assert x[1..][1..] == x[2..];
    assert PeakValue(x[1..]) == 0.25;
  }

  lemma ExampleSilencedAsWritten()
    ensures NoiseGateRelAsWritten(0.5, [1.0, 0.25, 0.25, 0.25], 2) == Success([0.0, 0.0, 0.0, 0.0])
  {
    ExamplePeak();
    var x := [1.0, 0.25, 0.25, 0.25];
    assert TrimmedLength(4, 10) == 0;
    var g := Gated(Scaled(x, 1.0), 0.5, 10);
    assert g == [] + Zeros(4);
    assert Scaled(g, 1.0) == [0.0, 0.0, 0.0, 0.0];
  }

  lemma ExampleKept()
    ensures NoiseGateRel(0.5, [1.0, 0.25, 0.25, 0.25], 2).Success?
    ensures NoiseGateRel(0.5, [1.0, 0.25, 0.25, 0.25], 2).value[0] == 1.0
  {
    ExamplePeak();
    var x := [1.0, 0.25, 0.25, 0.25];
    NoiseGateRelUsesSpread(0.5, x, 2, 0);
    assert TrimmedLength(4, 2) == 4;
    var y := Scaled(x, 1.0 / 1.0);
    assert Abs(y[0]) > 0.5;
    assert BlockExceeds(y, 0.5, 2, 0);
  }
}
