/** Sample sequences and the numpy array steps the gates share:
    `np.abs`, `np.zeros`, `reshape(-1, w)` (Windows), `np.repeat` (Repeat). */
module Samples {

  function Abs(x: real): (r: real)
    ensures r >= 0.0 && (r == x || r == -x)
  {
    if x < 0.0 then -x else x
  }

  /** np.zeros(n) */
  function Zeros(n: nat): (z: seq<real>)
    ensures |z| == n && forall i :: 0 <= i < n ==> z[i] == 0.0
  {
    seq(n, _ => 0.0)
  }

  /** `data * c`: every sample scaled by `c`. */
  function Scaled(x: seq<real>, c: real): (r: seq<real>)
    ensures |r| == |x| && forall i :: 0 <= i < |x| ==> r[i] == x[i] * c
  {
    seq(|x|, i requires 0 <= i < |x| => x[i] * c)
  }

  /** The sum of a sequence of samples. */
  function Sum(s: seq<real>): real
  {
    if s == [] then 0.0 else Sum(s[..|s| - 1]) + s[|s| - 1]
  }

  /** A sum of `n` copies of `c` is `n * c`. */
  lemma {:induction false} SumConstant(s: seq<real>, c: real)
    requires forall i :: 0 <= i < |s| ==> s[i] == c
    ensures Sum(s) == (|s| as real) * c
  {
    if s != [] {
      SumConstant(s[..|s| - 1], c);
    }
  }

  lemma MulLe(a: int, b: int, w: int)
    requires a <= b && w >= 0
    ensures a * w <= b * w
  {
    assert (b - a) * w >= 0;
  }

  lemma LeFromMul(a: int, b: int, w: int)
    requires w > 0 && a * w < (b + 1) * w
    ensures a <= b
  {
  }

  lemma DivMod(i: int, w: int)
    requires w > 0
    ensures i == (i / w) * w + i % w && 0 <= i % w < w
  {
  }

  /** Block `b` of `m` blocks of width `w` lies inside the `m * w` samples. */
  lemma BlockInside(b: int, w: int, m: int)
    requires w > 0 && 0 <= b < m
    ensures 0 <= b * w && b * w + w <= m * w
  {
    MulLe(0, b, w);
    MulLe(b + 1, m, w);
  }

  /** The sample at `i` lies in the aligned block `i / w`. */
  lemma InOwnBlock(i: int, w: int)
    requires w > 0 && i >= 0
    ensures 0 <= (i / w) * w <= i < (i / w) * w + w
  {
    DivMod(i, w);
    MulLe(0, i / w, w);
  }

  /** An index below `m * w` falls in one of the first `m` blocks. */
  lemma IndexBlock(i: int, w: int, m: int)
    requires w > 0 && 0 <= i < m * w
    ensures 0 <= i / w < m
  {
    DivMod(i, w);
    MulLe(0, i / w, w);
    assert (i / w) * w < ((m - 1) + 1) * w;
    LeFromMul(i / w, m - 1, w);
  }

  /** Two indices in the same aligned block share its start. */
  lemma SameBlock(i: int, j: int, w: int)
    requires w > 0 && i >= 0 && j >= 0
    requires (i / w) * w <= j < (i / w) * w + w
    ensures j / w == i / w
  {
    InOwnBlock(j, w);
    var q, r := i / w, j / w;
    assert r * w < (q + 1) * w;
    assert q * w < (r + 1) * w;
    LeFromMul(r, q, w);
    LeFromMul(q, r, w);
  }

  /** `reshape(m, w)` of `m * w` samples: the consecutive blocks of width `w`. */
  function Windows<T>(p: seq<T>, w: int, m: nat): (r: seq<seq<T>>)
    requires w > 0 && |p| == m * w
    ensures |r| == m
  {
    seq(m, b requires 0 <= b < m => BlockInside(b, w, m); p[b * w .. b * w + w])
  }

  /** `np.repeat(v, w)`: every entry of `v` repeated `w` times. */
  function Repeat<T>(v: seq<T>, w: int): (r: seq<T>)
    requires w > 0
    ensures |r| == |v| * w
  {
    seq(|v| * w, i requires 0 <= i < |v| * w => IndexBlock(i, w, |v|); v[i / w])
  }

  lemma RepeatAt<T>(v: seq<T>, w: int, i: int)
    requires w > 0 && 0 <= i < |v| * w
    ensures 0 <= i / w < |v| && Repeat(v, w)[i] == v[i / w]
  {
    IndexBlock(i, w, |v|);
  }

  lemma WindowsAt<T>(p: seq<T>, w: int, m: nat, b: int)
    requires w > 0 && |p| == m * w && 0 <= b < m
    ensures 0 <= b * w && b * w + w <= |p| && Windows(p, w, m)[b] == p[b * w .. b * w + w]
  {
    BlockInside(b, w, m);
  }

  /** Some sample of `s` in the `w`-aligned block holding index `i` has magnitude above `level`. */
  ghost predicate BlockExceeds(s: seq<real>, level: real, w: int, i: int)
    requires w > 0
  {
    exists j :: (i / w) * w <= j < (i / w) * w + w && 0 <= j < |s| && Abs(s[j]) > level
  }

  /** The reference block gate: every sample of a block with a sample above the
      level is kept, every other sample is 0. */
  ghost function KeepLoudBlocks(x: seq<real>, level: real, w: int): (r: seq<real>)
    requires w > 0
    ensures |r| == |x|
    ensures forall i :: 0 <= i < |x| ==> r[i] == if BlockExceeds(x, level, w, i) then x[i] else 0.0
  {
    seq(|x|, i requires 0 <= i < |x| => if BlockExceeds(x, level, w, i) then x[i] else 0.0)
  }

  /** Gating twice with the reference gate is gating once: a kept block keeps the
      sample that made it loud. */
  lemma KeepLoudBlocksIdempotent(x: seq<real>, level: real, w: int)
    requires w > 0
    ensures KeepLoudBlocks(KeepLoudBlocks(x, level, w), level, w) == KeepLoudBlocks(x, level, w)
  {
    var y := KeepLoudBlocks(x, level, w);
    forall i | 0 <= i < |x|
      ensures KeepLoudBlocks(y, level, w)[i] == y[i]
    {
      if BlockExceeds(x, level, w, i) {
        var j :| (i / w) * w <= j < (i / w) * w + w && 0 <= j < |x| && Abs(x[j]) > level;
        InOwnBlock(i, w);
        SameBlock(i, j, w);
        assert BlockExceeds(x, level, w, j);
        assert y[j] == x[j];
      }
    }
  }

  /** np.max(np.abs(s)) over a non-empty block. */
  function PeakAbs(s: seq<real>): (m: real)
    requires |s| > 0
    ensures forall j :: 0 <= j < |s| ==> Abs(s[j]) <= m
    ensures exists j :: 0 <= j < |s| && m == Abs(s[j])
  {
    if |s| == 1 then Abs(s[0])
    else
      var rest := PeakAbs(s[1..]);
      assert forall j :: 1 <= j < |s| ==> s[j] == s[1..][j - 1];
      if Abs(s[0]) >= rest then Abs(s[0]) else rest
  }

  /** np.sum(s**2) */
  function SumSquares(s: seq<real>): (r: real)
    ensures r >= 0.0
  {
    if s == [] then 0.0 else SumSquares(s[..|s| - 1]) + s[|s| - 1] * s[|s| - 1]
  }

  /** Appending zeros does not change a sum of squares. */
  lemma {:induction false} SumSquaresZeroTail(s: seq<real>, n: nat)
    ensures SumSquares(s + Zeros(n)) == SumSquares(s)
  {
    if n > 0 {
      var x := s + Zeros(n);
      assert x[..|x| - 1] == s + Zeros(n - 1);
      assert x[|x| - 1] == 0.0;
      SumSquaresZeroTail(s, n - 1);
      assert SumSquares(x) == SumSquares(x[..|x| - 1]) + x[|x| - 1] * x[|x| - 1];
    } else {
      assert s + Zeros(n) == s;
    }
  }
}
