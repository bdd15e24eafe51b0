/** The envelope gate of noise_gate.py: wave2vol, the block envelope of a
    signal, and the class whose gate silences every sample where the envelope
    stays at or below a level calibrated per note from a background recording.

    numpy's `np.std` and `np.mean` of the calibration are parameters (`std`,
    `mean`); the square root of the 'rms' envelope is left out, so that
    envelope is the mean square.

    Source file: noise_gate.py; noisegate.py is module BlockGate. */
module NoiseGate {
  import opened Outcomes
  import opened Samples
  import TableStore

  // ---------------------------------------------------------------- wave2vol

  /** `int(np.ceil(n / w))`: the number of blocks of width `w` that cover `n` samples. */
  function CoverBlocks(n: nat, w: int): (m: nat)
    requires w > 0
    ensures n <= m * w < n + w
  {
    DivMod(n + w - 1, w);
    MulLe(0, (n + w - 1) / w, w);
    (n + w - 1) / w
  }

  /** `np.append(wave, np.zeros(newlen - oldlen))`: the signal padded with zeros
      to a whole number of blocks. */
  function Padded(wave: seq<real>, w: int): (p: seq<real>)
    requires w > 0
    ensures |p| == CoverBlocks(|wave|, w) * w
    ensures p[..|wave|] == wave
    ensures forall j :: |wave| <= j < |p| ==> p[j] == 0.0
  {
    wave + Zeros(CoverBlocks(|wave|, w) * w - |wave|)
  }

  /** The padded block of width `w` that holds sample `i`. */
  function Window(wave: seq<real>, w: int, i: int): (win: seq<real>)
    requires w > 0 && 0 <= i < |wave|
    ensures |win| == w
  {
    var p := Padded(wave, w);
    IndexBlock(i, w, CoverBlocks(|wave|, w));
    BlockInside(i / w, w, CoverBlocks(|wave|, w));
    p[(i / w) * w .. (i / w) * w + w]
  }

  /** A block reduction repeated over its block and trimmed back to `n` samples. */
  function Spread(vol: seq<real>, w: int, n: nat): (v: seq<real>)
    requires w > 0 && n <= |vol| * w
    ensures |v| == n
  {
    Repeat(vol, w)[..n]
  }

  /** `np.max(np.abs(wave), axis=1)` of the padded wave reshaped into blocks: one peak per block. */
  function BlockPeaks(wave: seq<real>, w: int): (vol: seq<real>)
    requires w > 0
    ensures |vol| == CoverBlocks(|wave|, w)
  {
    var m := CoverBlocks(|wave|, w);
    var p := Padded(wave, w);
    seq(m, b requires 0 <= b < m => WindowsAt(p, w, m, b); PeakAbs(Windows(p, w, m)[b]))
  }

  /** `np.sum(wave**2, axis=1) / spread` of the padded wave reshaped into blocks. */
  function BlockMeanSquares(wave: seq<real>, w: int): (vol: seq<real>)
    requires w > 0
    ensures |vol| == CoverBlocks(|wave|, w)
  {
    var m := CoverBlocks(|wave|, w);
    var blocks := Windows(Padded(wave, w), w, m);
    seq(m, b requires 0 <= b < m => SumSquares(blocks[b]) / (w as real))
  }

  /** The 'peak' envelope: the block peaks repeated and trimmed. */
  function PeakEnvelope(wave: seq<real>, w: int): (v: seq<real>)
    requires w > 0
    ensures |v| == |wave|
  {
    Spread(BlockPeaks(wave, w), w, |wave|)
  }

  /** The 'rms' envelope without its square root: the block mean squares repeated and trimmed. */
  function RmsEnvelope(wave: seq<real>, w: int): (v: seq<real>)
    requires w > 0
    ensures |v| == |wave|
  {
    Spread(BlockMeanSquares(wave, w), w, |wave|)
  }

  /** wave2vol(wave, spread, detect_type): a spread of 0 divides by zero, a negative
      one asks numpy for a negative number of zeros, and a detect type other than
      'peak' or 'rms' raises. */
  function Wave2Vol(wave: seq<real>, spread: int, detect: string): (r: Result<seq<real>>)
    ensures r.Failure? <==> spread <= 0 || (detect != "peak" && detect != "rms")
    ensures spread == 0 ==> r == Failure(ZeroDivision)
    ensures spread < 0 ==> r == Failure(BadShape)
    ensures spread > 0 && detect != "peak" && detect != "rms" ==> r == Failure(UnknownDetectType(detect))
    ensures r.Success? ==> |r.value| == |wave|
  {
    if spread == 0 then Failure(ZeroDivision)
    else if spread < 0 then Failure(BadShape)
    else if detect == "peak" then Success(PeakEnvelope(wave, spread))
    else if detect == "rms" then Success(RmsEnvelope(wave, spread))
    else Failure(UnknownDetectType(detect))
  }

  /** Entry `i` of a spread block reduction is the reduction of i's block. */
  lemma SpreadAt(vol: seq<real>, w: int, n: nat, i: int)
    requires w > 0 && n <= |vol| * w && 0 <= i < n
    ensures 0 <= i / w < |vol| && Spread(vol, w, n)[i] == vol[i / w]
  {
    RepeatAt(vol, w, i);
  }

  /** The peak envelope at `i` is the largest magnitude in i's padded block. */
  lemma PeakEnvelopeAt(wave: seq<real>, w: int, i: int)
    requires w > 0 && 0 <= i < |wave|
    ensures PeakEnvelope(wave, w)[i] == PeakAbs(Window(wave, w, i))
  {
    SpreadAt(BlockPeaks(wave, w), w, |wave|, i);
    WindowsAt(Padded(wave, w), w, CoverBlocks(|wave|, w), i / w);
  }

  /** The mean-square envelope at `i` is i's block's sum of squares over `w`. */
  lemma RmsEnvelopeAt(wave: seq<real>, w: int, i: int)
    requires w > 0 && 0 <= i < |wave|
    ensures RmsEnvelope(wave, w)[i] == SumSquares(Window(wave, w, i)) / (w as real)
  {
    SpreadAt(BlockMeanSquares(wave, w), w, |wave|, i);
    WindowsAt(Padded(wave, w), w, CoverBlocks(|wave|, w), i / w);
  }

  /** The samples of i's block that come from the signal, without the padding. */
  function SignalPart(wave: seq<real>, w: int, i: int): (part: seq<real>)
    requires w > 0 && 0 <= i < |wave|
    ensures 0 < |part| <= w
  {
    InOwnBlock(i, w);
    var start := (i / w) * w;
    wave[start .. if start + w <= |wave| then start + w else |wave|]
  }

  /** A padded block is its signal part followed by zeros. */
  lemma WindowSplit(wave: seq<real>, w: int, i: int)
    requires w > 0 && 0 <= i < |wave|
    ensures Window(wave, w, i) == SignalPart(wave, w, i) + Zeros(w - |SignalPart(wave, w, i)|)
  {
    InOwnBlock(i, w);
    var start := (i / w) * w;
    var win, part := Window(wave, w, i), SignalPart(wave, w, i);
    var tail := Zeros(w - |part|);
    var p := Padded(wave, w);
    IndexBlock(i, w, CoverBlocks(|wave|, w));
    BlockInside(i / w, w, CoverBlocks(|wave|, w));
    assert win == p[start .. start + w];
    forall j | 0 <= j < w
      ensures win[j] == (part + tail)[j]
    {
      assert win[j] == p[start + j];
      if j < |part| {
        assert part[j] == wave[start + j];
        assert start + j < |wave|;
      } else {
        assert start + j >= |wave|;
        assert (part + tail)[j] == tail[j - |part|] == 0.0;
      }
    }
  }

  /** 'rms' counts the padding as zeros in the sum but still divides by the full
      spread: the square of the envelope is the signal part's sum of squares
      over `w`. */
  lemma RmsCountsPadding(wave: seq<real>, w: int, i: int)
    requires w > 0 && 0 <= i < |wave|
    ensures Wave2Vol(wave, w, "rms").value[i] == SumSquares(SignalPart(wave, w, i)) / (w as real)
  {
    RmsEnvelopeAt(wave, w, i);
    WindowSplit(wave, w, i);
    SumSquaresZeroTail(SignalPart(wave, w, i), w - |SignalPart(wave, w, i)|);
  }

  /** Samples in the same block share the envelope value, for either detect type. */
  lemma Wave2VolBlockConstant(wave: seq<real>, w: int, detect: string, i: int, j: int)
    requires w > 0 && (detect == "peak" || detect == "rms")
    requires 0 <= i < |wave| && 0 <= j < |wave| && i / w == j / w
    ensures Wave2Vol(wave, w, detect).value[i] == Wave2Vol(wave, w, detect).value[j]
  {
    if detect == "peak" {
      PeakEnvelopeAt(wave, w, i);
      PeakEnvelopeAt(wave, w, j);
    } else {
      RmsEnvelopeAt(wave, w, i);
      RmsEnvelopeAt(wave, w, j);
    }
  }

  /** Entry `k` of i's padded block is the signal sample it covers, or 0 past the
      end of the signal. */
  lemma WindowAt(wave: seq<real>, w: int, i: int, k: int)
    requires w > 0 && 0 <= i < |wave| && 0 <= k < w
    ensures 0 <= (i / w) * w <= i
    ensures var start := (i / w) * w;
            Window(wave, w, i)[k] == if start + k < |wave| then wave[start + k] else 0.0
  {
    InOwnBlock(i, w);
    WindowSplit(wave, w, i);
    var part := SignalPart(wave, w, i);
    if k < |part| {
      assert Window(wave, w, i)[k] == part[k];
    } else {
      assert Window(wave, w, i)[k] == Zeros(w - |part|)[k - |part|];
    }
  }

  /** The peak envelope at `i` bounds every magnitude of i's block from above,
      sample i's own included, so it is never negative; it is attained by a sample
      of the block or, when every sample there is 0, it is 0 (the padding). */
  lemma PeakEnvelopeBounds(wave: seq<real>, w: int, i: int)
    requires w > 0 && 0 <= i < |wave|
    ensures var v := Wave2Vol(wave, w, "peak").value[i];
            && v >= 0.0 && v >= Abs(wave[i])
            && (forall j :: (i / w) * w <= j < (i / w) * w + w && 0 <= j < |wave| ==> Abs(wave[j]) <= v)
            && (v == 0.0 || exists j :: (i / w) * w <= j < (i / w) * w + w && 0 <= j < |wave| && v == Abs(wave[j]))
  {
    var win := Window(wave, w, i);
    var v := PeakAbs(win);
    PeakEnvelopeAt(wave, w, i);
    assert Wave2Vol(wave, w, "peak").value[i] == v;
    InOwnBlock(i, w);
    var start := (i / w) * w;
    forall j | start <= j < start + w && 0 <= j < |wave|
      ensures Abs(wave[j]) <= v
    {
      WindowAt(wave, w, i, j - start);
    }
    var k :| 0 <= k < w && v == Abs(win[k]);
    WindowAt(wave, w, i, k);
  }

  /** The peak envelope rises above a level exactly when some sample of the block does. */
  lemma PeakAboveLevel(wave: seq<real>, w: int, level: real, i: int)
    requires w > 0 && 0 <= i < |wave|
    ensures Wave2Vol(wave, w, "peak").value[i] > level <==> BlockExceeds(wave, level, w, i)
  {
    PeakEnvelopeBounds(wave, w, i);
    InOwnBlock(i, w);
  }

  // ---------------------------------------------------------------- calibration

  /** The envelope recorded for a background band: wave2vol with spread 1000. */
  function BackgroundVolume(band: seq<real>): (v: seq<real>)
    ensures Wave2Vol(band, 1000, "peak") == Success(v)
  {
    PeakEnvelope(band, 1000)
  }

  /** The `for key in list(fp.keys())` loop of `__init__`: skipping "meta", each
      background key gets the deviation and the mean of its band's envelope. */
  method Calibrate(bg: TableStore.Store, mean: seq<real> -> real, std: seq<real> -> real)
    returns (bgSigma: map<string, real>, bgMean: map<string, real>)
    requires TableStore.WellFormed(bg)
    ensures forall k :: k in bgSigma <==> k in bg.keys && k != TableStore.MetaKey
    ensures forall k :: k in bgMean <==> k in bg.keys && k != TableStore.MetaKey
    ensures forall k :: k in bgSigma ==> k in bg.data && bgSigma[k] == std(BackgroundVolume(bg.data[k]))
    ensures forall k :: k in bgMean ==> k in bg.data && bgMean[k] == mean(BackgroundVolume(bg.data[k]))
  {
    bgSigma, bgMean := map[], map[];
    var i := 0;
    while i < |bg.keys|
      invariant 0 <= i <= |bg.keys|
      invariant forall k :: k in bgSigma <==> k in bg.keys[..i] && k != TableStore.MetaKey
      invariant forall k :: k in bgMean <==> k in bg.keys[..i] && k != TableStore.MetaKey
      invariant forall k :: k in bgSigma ==> k in bg.data && bgSigma[k] == std(BackgroundVolume(bg.data[k]))
      invariant forall k :: k in bgMean ==> k in bg.data && bgMean[k] == mean(BackgroundVolume(bg.data[k]))
    {
      var key := bg.keys[i];
      assert bg.keys[..i + 1] == bg.keys[..i] + [key];
      if key != TableStore.MetaKey {
        var volume := Wave2Vol(bg.data[key], 1000, "peak");
        bgSigma := bgSigma[key := std(volume.value)];
        bgMean := bgMean[key := mean(volume.value)];
      }
      i := i + 1;
    }
    assert bg.keys[..i] == bg.keys;
  }

  // ---------------------------------------------------------------- the gate

  /** `level = bg_mean[key] + bg_sigma[key] * sigma`, or the KeyError of a key
      that was not calibrated. */
  function GateLevel(bgSigma: map<string, real>, bgMean: map<string, real>, key: string, sigma: real): (r: Result<real>)
    ensures r.Failure? <==> key !in bgMean || key !in bgSigma
    ensures r.Failure? ==> r.error == MissingKey(key)
    ensures r.Success? ==> r.value == bgMean[key] + bgSigma[key] * sigma
  {
    if key !in bgMean || key !in bgSigma then Failure(MissingKey(key))
    else Success(bgMean[key] + bgSigma[key] * sigma)
  }

  /** The samples where the envelope is above the level, zeros elsewhere. */
  function EnvelopeGate(x: seq<real>, vol: seq<real>, level: real): (r: seq<real>)
    requires |vol| == |x|
    ensures |r| == |x|
    ensures forall i :: 0 <= i < |x| ==> r[i] == if vol[i] > level then x[i] else 0.0
  {
    seq(|x|, i requires 0 <= i < |x| => if vol[i] > level then x[i] else 0.0)
  }

  /** The calibrated gate of noise_gate.py (`noise_gate_sigma`). */
  class SigmaGate {
    var bgSigma: map<string, real>
    var bgMean: map<string, real>

    /** `__init__` on the background decomposition `bg`, already written and
        opened for reading. */
    constructor (bg: TableStore.Store, mean: seq<real> -> real, std: seq<real> -> real)
      requires TableStore.WellFormed(bg)
      ensures forall k :: k in bgSigma <==> k in bg.keys && k != TableStore.MetaKey
      ensures forall k :: k in bgMean <==> k in bg.keys && k != TableStore.MetaKey
      ensures forall k :: k in bgSigma ==> k in bg.data && bgSigma[k] == std(BackgroundVolume(bg.data[k]))
      ensures forall k :: k in bgMean ==> k in bg.data && bgMean[k] == mean(BackgroundVolume(bg.data[k]))
    {
      var s, m := Calibrate(bg, mean, std);
      bgSigma, bgMean := s, m;
    }

    /** noise_gate_sigma(data, key, sigma, spread): a copy of `data` with every
        sample whose peak envelope is at or below the key's level set to 0; the
        caller's array is left as it was. */
    method GateSigma(data: array<real>, key: string, sigma: real, spread: int) returns (r: Result<seq<real>>)
      ensures GateLevel(bgSigma, bgMean, key, sigma).Failure? ==> r == Failure(MissingKey(key))
      ensures GateLevel(bgSigma, bgMean, key, sigma).Success? && spread <= 0 ==>
        r == Failure(if spread == 0 then ZeroDivision else BadShape)
      ensures GateLevel(bgSigma, bgMean, key, sigma).Success? && spread > 0 ==>
        r == Success(EnvelopeGate(data[..], Wave2Vol(data[..], spread, "peak").value,
                                  GateLevel(bgSigma, bgMean, key, sigma).value))
    {
      var level := GateLevel(bgSigma, bgMean, key, sigma);
      if level.Failure? {
        return Failure(level.error);
      }
      var volume := Wave2Vol(data[..], spread, "peak");
      if volume.Failure? {
        return Failure(volume.error);
      }
      var gated := CopyGated(data, volume.value, level.value);
      r := Success(gated);
    }
  }

  /** `new_data = np.copy(data); new_data[np.logical_not(np.greater(vol, level))] = 0`. */
  method CopyGated(data: array<real>, vol: seq<real>, level: real) returns (out: seq<real>)
    requires |vol| == data.Length
    ensures out == EnvelopeGate(data[..], vol, level)
  {
    var newData := new real[data.Length](i requires 0 <= i < data.Length reads data => data[i]);
    forall i | 0 <= i < newData.Length && !(vol[i] > level) {
      newData[i] := 0.0;
    }
    out := newData[..];
  }

  /** Sample by sample, the calibrated gate keeps exactly the samples whose block
      has a sample above the level, and keeps them unchanged. */
  lemma SigmaGateKeepsLoudBlocks(x: seq<real>, w: int, level: real, i: int)
    requires w > 0 && 0 <= i < |x|
    ensures var r := EnvelopeGate(x, Wave2Vol(x, w, "peak").value, level);
            && (BlockExceeds(x, level, w, i) ==> r[i] == x[i])
            && (!BlockExceeds(x, level, w, i) ==> r[i] == 0.0)
  {
    PeakAboveLevel(x, w, level, i);
  }

  /** The calibrated gate is the reference block gate, so gating its output
      again at the same level changes nothing. */
  lemma SigmaGateIsBlockwise(x: seq<real>, w: int, level: real)
    requires w > 0
    ensures EnvelopeGate(x, Wave2Vol(x, w, "peak").value, level) == KeepLoudBlocks(x, level, w)
    ensures var y := EnvelopeGate(x, Wave2Vol(x, w, "peak").value, level);
            EnvelopeGate(y, Wave2Vol(y, w, "peak").value, level) == y
  {
    var y := EnvelopeGate(x, Wave2Vol(x, w, "peak").value, level);
    forall i | 0 <= i < |x|
      ensures y[i] == KeepLoudBlocks(x, level, w)[i]
    {
      SigmaGateKeepsLoudBlocks(x, w, level, i);
    }
    var z := EnvelopeGate(y, Wave2Vol(y, w, "peak").value, level);
    forall i | 0 <= i < |y|
      ensures z[i] == KeepLoudBlocks(y, level, w)[i]
    {
      SigmaGateKeepsLoudBlocks(y, w, level, i);
    }
    KeepLoudBlocksIdempotent(x, level, w);
  }
}
