/** The note selection of automid.py. It reuses freq2index (the same argmin as
    note_decompose.py's, `NoteDecompose.FreqToIndex`) but measures sigma towards
    the semitone ABOVE the note and has no sentinel: a band is always produced,
    with sigma 0 when both notes fall in the same bin. */
module Automid {
  import NoteUtils
  import NoteDecompose

  /** `(floor((noteint + 1) / 12) + octave, mod(noteint + 1, 12))`: the semitone above. */
  function NextSemitone(octave: int, noteint: int): (int, int)
  {
    ((noteint + 1) / 12 + octave, (noteint + 1) % 12)
  }

  /** The semitone above stays in the octave, except above index 11, which wraps to
      index 0 of the octave above. */
  lemma NextSemitoneCases(octave: int, noteint: int)
    ensures -1 <= noteint <= 10 ==> NextSemitone(octave, noteint) == (octave, noteint + 1)
    ensures noteint == 11 ==> NextSemitone(octave, noteint) == (octave + 1, 0)
  {
  }

  /** For every index, the semitone above is exactly one offset higher. */
  lemma NextSemitoneOffset(octave: int, noteint: int)
    ensures NoteUtils.SemitoneOffset(NextSemitone(octave, noteint).0, NextSemitone(octave, noteint).1)
            == NoteUtils.SemitoneOffset(octave, noteint) + 1
  {
  }

  /** gauss_select of automid.py: the band at the note's bin with
      `sigma = width * (bin of the semitone above - mu)`, whatever sigma is. Notes are
      integer indices, so note2freq is the frequency of the semitone offset. */
  function GaussSelect(freqs: seq<real>, pitch: int -> real, width: real, octave: int, noteint: int)
    : (s: NoteDecompose.Selection)
    requires |freqs| > 0
    ensures s.Band? && s.mu < |freqs|
  {
    var mu := NoteDecompose.NoteBin(freqs, pitch, NoteUtils.SemitoneOffset(octave, noteint));
    var (no, nk) := NextSemitone(octave, noteint);
    var muplus1 := NoteDecompose.NoteBin(freqs, pitch, NoteUtils.SemitoneOffset(no, nk));
    NoteDecompose.Band(mu, width * ((muplus1 - mu) as real))
  }

  /** The selection compares the bin of the note's offset `n` with the bin of `n + 1`. */
  lemma GaussSelectAdjacent(freqs: seq<real>, pitch: int -> real, width: real, octave: int, noteint: int)
    requires |freqs| > 0
    ensures var n := NoteUtils.SemitoneOffset(octave, noteint);
            var mu := NoteDecompose.NoteBin(freqs, pitch, n);
            GaussSelect(freqs, pitch, width, octave, noteint)
              == NoteDecompose.Band(mu, width * ((NoteDecompose.NoteBin(freqs, pitch, n + 1) - mu) as real))
  {
    NextSemitoneOffset(octave, noteint);
  }

  /** On an ascending axis with rising pitches sigma is never negative for a
      non-negative width, and it is 0 exactly when the width is 0 or the semitone
      above falls in the note's own bin. */
  lemma GaussSelectSigma(freqs: seq<real>, pitch: int -> real, width: real, octave: int, noteint: int)
    requires |freqs| > 0 && NoteDecompose.Ascending(freqs) && NoteDecompose.Increasing(pitch) && width >= 0.0
    ensures var n := NoteUtils.SemitoneOffset(octave, noteint);
            var s := GaussSelect(freqs, pitch, width, octave, noteint);
            && s.sigma >= 0.0
            && (s.sigma == 0.0 <==> width == 0.0 || NoteDecompose.NoteBin(freqs, pitch, n + 1) == s.mu)
  {
    var n := NoteUtils.SemitoneOffset(octave, noteint);
    GaussSelectAdjacent(freqs, pitch, width, octave, noteint);
    NoteDecompose.FreqToIndexMonotone(freqs, pitch(n), pitch(n + 1));
    var d := NoteDecompose.NoteBin(freqs, pitch, n + 1) - NoteDecompose.NoteBin(freqs, pitch, n);
    ProductZero(width, d as real);
  }

  lemma ProductZero(a: real, b: real)
    requires a >= 0.0 && b >= 0.0
    ensures a * b >= 0.0
    ensures a * b == 0.0 <==> a == 0.0 || b == 0.0
  {
  }

  /** automid's sigma for a note is note_decompose's sigma for the semitone above;
      where note_decompose stops with its sentinel, automid builds a band with
      sigma 0. Both take mu from the same freq2index. */
  lemma SigmaMatchesDecomposeAbove(freqs: seq<real>, pitch: int -> real, width: real, octave: int, noteint: int)
    requires |freqs| > 0
    ensures var above := NoteDecompose.GaussSelect(freqs, pitch, width,
                           NextSemitone(octave, noteint).0, NextSemitone(octave, noteint).1);
            var s := GaussSelect(freqs, pitch, width, octave, noteint);
            && (above.Band? ==> s.sigma == above.sigma)
            && (above.Exhausted? ==> s.sigma == 0.0)
  {
    var n := NoteUtils.SemitoneOffset(octave, noteint);
    GaussSelectAdjacent(freqs, pitch, width, octave, noteint);
    NextSemitoneOffset(octave, noteint);
    AboveAdjacent(freqs, pitch, width, NextSemitone(octave, noteint).0, NextSemitone(octave, noteint).1, n);
  }

  /** note_decompose's selection of a note one offset above `n` compares the bins
      of `n + 1` and `n`. */
  lemma AboveAdjacent(freqs: seq<real>, pitch: int -> real, width: real, no: int, nk: int, n: int)
    requires |freqs| > 0 && NoteUtils.SemitoneOffset(no, nk) == n + 1
    ensures var mu := NoteDecompose.NoteBin(freqs, pitch, n);
            var up := NoteDecompose.NoteBin(freqs, pitch, n + 1);
            NoteDecompose.GaussSelect(freqs, pitch, width, no, nk)
              == if up == mu then NoteDecompose.Exhausted else NoteDecompose.Band(up, width * ((up - mu) as real))
  {
    NoteDecompose.GaussSelectAdjacent(freqs, pitch, width, no, nk);
  }
}
