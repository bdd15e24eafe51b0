/** The in-place mask gate of noise_gate_sigma.py: the samples above a
    calibrated level form a mask, the mask's block envelope marks the blocks
    that hold such a sample, and every sample of the other blocks is zeroed in
    the caller's array. The class's own wave2vol is the same code as
    noise_gate.py's, and so is its calibration loop; both come from module NoiseGate.

    Source file: noise_gate_sigma.py. */
module NoiseGateSigma {
  import opened Outcomes
  import opened Samples
  import TableStore
  // noise_gate.py's wave2vol and calibration, named for what this module uses them for
  import Envelope = NoiseGate
  import BlockGate

  /** `np.greater(np.abs(data), level)` as the 0/1 samples wave2vol turns it into. */
  function Indicator(x: seq<real>, level: real): (m: seq<real>)
    ensures |m| == |x|
    ensures forall i :: 0 <= i < |x| ==> m[i] == if Abs(x[i]) > level then 1.0 else 0.0
  {
    seq(|x|, i requires 0 <= i < |x| => if Abs(x[i]) > level then 1.0 else 0.0)
  }

  /** The samples where the envelope is nonzero, zeros elsewhere. */
  function KeepWhere(x: seq<real>, vol: seq<real>): (r: seq<real>)
    requires |vol| == |x|
    ensures |r| == |x|
    ensures forall i :: 0 <= i < |x| ==> r[i] == if vol[i] != 0.0 then x[i] else 0.0
  {
    seq(|x|, i requires 0 <= i < |x| => if vol[i] != 0.0 then x[i] else 0.0)
  }

  /** What noisegate leaves in `data` for a positive spread. */
  function MaskGate(x: seq<real>, level: real, w: int): (r: seq<real>)
    requires w > 0
    ensures |r| == |x|
  {
    KeepWhere(x, Envelope.Wave2Vol(Indicator(x, level), w, "peak").value)
  }

  /** The envelope of the mask is nonzero exactly on the blocks holding a sample
      above the level, so the mask gate is the reference block gate; a trailing
      partial block is judged by its own samples, since the padding only adds
      zeros to the mask. */
  lemma MaskGateIsBlockwise(x: seq<real>, level: real, w: int)
    requires w > 0
    ensures MaskGate(x, level, w) == KeepLoudBlocks(x, level, w)
  {
    var m := Indicator(x, level);
    var vol := Envelope.Wave2Vol(m, w, "peak").value;
    forall i | 0 <= i < |x|
      ensures MaskGate(x, level, w)[i] == KeepLoudBlocks(x, level, w)[i]
    {
      Envelope.PeakAboveLevel(m, w, 0.0, i);
      InOwnBlock(i, w);
      if BlockExceeds(x, level, w, i) {
        var j :| (i / w) * w <= j < (i / w) * w + w && 0 <= j < |x| && Abs(x[j]) > level;
        assert Abs(m[j]) > 0.0;
      } else {
        Envelope.PeakEnvelopeBounds(m, w, i);
      }
    }
  }

  /** Gating the gated array again with the same level changes nothing. */
  lemma MaskGateIdempotent(x: seq<real>, level: real, w: int)
    requires w > 0
    ensures MaskGate(MaskGate(x, level, w), level, w) == MaskGate(x, level, w)
  {
    MaskGateIsBlockwise(x, level, w);
    MaskGateIsBlockwise(MaskGate(x, level, w), level, w);
    KeepLoudBlocksIdempotent(x, level, w);
  }

  /** On the whole blocks the mask gate agrees with noisegate.py's block gate;
      past them noisegate.py zeroes everything while the mask gate keeps a loud
      trailing block: one loud sample and a spread of 2 shows the difference. */
  lemma MaskGateAgreesOnWholeBlocks(x: seq<real>, level: real, w: int, i: int)
    requires w > 0 && 0 <= i < BlockGate.TrimmedLength(|x|, w)
    ensures MaskGate(x, level, w)[i] == BlockGate.Gated(x, level, w)[i]
    ensures MaskGate([1.0], 0.5, 2) == [1.0] && BlockGate.Gated([1.0], 0.5, 2) == [0.0]
  {
    MaskGateIsBlockwise(x, level, w);
    BlockGate.GatedAt(x, level, w, i);
    MaskGateIsBlockwise([1.0], 0.5, 2);
    assert BlockExceeds([1.0], 0.5, 2, 0);
    BlockGate.GatedAt([1.0], 0.5, 2, 0);
  }

  /** The in-place gate of noise_gate_sigma.py (`noise_gate_sigma`). */
  class SigmaGate {
    var bgSigma: map<string, real>
    var bgMean: map<string, real>

    /** `__init__` on the background decomposition `bg`, already written and
        opened for reading. */
    constructor (bg: TableStore.Store, mean: seq<real> -> real, std: seq<real> -> real)
      requires TableStore.WellFormed(bg)
      ensures forall k :: k in bgSigma <==> k in bg.keys && k != TableStore.MetaKey
      ensures forall k :: k in bgMean <==> k in bg.keys && k != TableStore.MetaKey
      ensures forall k :: k in bgSigma ==> k in bg.data && bgSigma[k] == std(Envelope.BackgroundVolume(bg.data[k]))
      ensures forall k :: k in bgMean ==> k in bg.data && bgMean[k] == mean(Envelope.BackgroundVolume(bg.data[k]))
    {
      var s, m := Envelope.Calibrate(bg, mean, std);
      bgSigma, bgMean := s, m;
    }

    /** noisegate(data, key, sigma, spread): zeroes the silent blocks of the
        caller's array and returns that same array. An uncalibrated key or a
        spread that is not positive raises before anything is written. */
    method NoiseGate(data: array<real>, key: string, sigma: real, spread: int) returns (r: Result<array<real>>)
      modifies data
      ensures Envelope.GateLevel(bgSigma, bgMean, key, sigma).Failure? ==>
        r == Failure(MissingKey(key)) && data[..] == old(data[..])
      ensures Envelope.GateLevel(bgSigma, bgMean, key, sigma).Success? && spread <= 0 ==>
        r == Failure(if spread == 0 then ZeroDivision else BadShape) && data[..] == old(data[..])
      ensures Envelope.GateLevel(bgSigma, bgMean, key, sigma).Success? && spread > 0 ==>
        r == Success(data) && data[..] == MaskGate(old(data[..]), Envelope.GateLevel(bgSigma, bgMean, key, sigma).value, spread)
    {
      var level := Envelope.GateLevel(bgSigma, bgMean, key, sigma);
      if level.Failure? {
        return Failure(level.error);
      }
      var mask := Indicator(data[..], level.value);
      var volume := Envelope.Wave2Vol(mask, spread, "peak");
      if volume.Failure? {
        return Failure(volume.error);
      }
      ZeroSilent(data, volume.value);
      r := Success(data);
    }
  }

  /** `data[np.logical_not(volume)] = 0` */
  method ZeroSilent(data: array<real>, vol: seq<real>)
    requires |vol| == data.Length
    modifies data
    ensures data[..] == KeepWhere(old(data[..]), vol)
  {
    forall i | 0 <= i < data.Length && vol[i] == 0.0 {
      data[i] := 0.0;
    }
  }
}
