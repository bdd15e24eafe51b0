/** The spectral decomposer of note_decompose.py: channel reduction, the
    nearest-bin search, the previous-semitone step and stop test of
    gauss_select, and the note loop of decompose that writes one band per note.

    The transform itself is opaque. A note's frequency is `pitch(n)` for its
    semitone offset `n` (440 * 2^(n/12) in the source), and the dataset stored
    for a band centred on bin `mu` with deviation `sigma` is `timeBand(mu, sigma)`
    (savetype 0, the inverse transform of the windowed spectrum) or
    `specBand(mu, sigma)` (savetype 1, the windowed spectrum itself). */
module NoteDecompose {
  import opened Outcomes
  import opened Samples
  import NoteUtils
  import TableStore

  // ---------------------------------------------------------------- stereo2mono

  /** A numpy sample array of rank 1, or of rank 2 with `width` columns (channels). */
  datatype AudioArray = Mono(samples: seq<real>) | Frames(width: nat, rows: seq<seq<real>>)

  /** A rank-2 numpy array is rectangular. */
  ghost predicate Rectangular(d: AudioArray)
  {
    d.Frames? ==> forall i :: 0 <= i < |d.rows| ==> |d.rows[i]| == d.width
  }

  /** `d[:, c]` */
  function Column(rows: seq<seq<real>>, c: nat): (col: seq<real>)
    requires forall i :: 0 <= i < |rows| ==> c < |rows[i]|
    ensures |col| == |rows| && forall i :: 0 <= i < |rows| ==> col[i] == rows[i][c]
  {
    seq(|rows|, i requires 0 <= i < |rows| => rows[i][c])
  }

  /** stereo2mono(d, channel): a copy of a rank-1 array; for rank 2 the left
      ('l', column 0) or right ('r', column 1) channel or the per-row mean ('a'). */
  function StereoToMono(d: AudioArray, channel: string): (r: Result<seq<real>>)
    requires Rectangular(d)
    ensures d.Mono? ==> r == Success(d.samples)
    ensures d.Frames? && r.Success? ==> |r.value| == |d.rows|
    ensures d.Frames? && channel == "l" ==>
      (r.Success? <==> d.width >= 1) && (r.Failure? ==> r.error == ColumnOutOfRange(0)) &&
      (r.Success? ==> forall i :: 0 <= i < |d.rows| ==> r.value[i] == d.rows[i][0])
    ensures d.Frames? && channel == "r" ==>
      (r.Success? <==> d.width >= 2) && (r.Failure? ==> r.error == ColumnOutOfRange(1)) &&
      (r.Success? ==> forall i :: 0 <= i < |d.rows| ==> r.value[i] == d.rows[i][1])
    ensures d.Frames? && channel == "a" ==>
      (r.Failure? <==> d.width == 0 && |d.rows| > 0) && (r.Failure? ==> r.error == NotANumber) &&
      (r.Success? && d.width > 0 ==> forall i :: 0 <= i < |d.rows| ==> r.value[i] * (d.width as real) == Sum(d.rows[i]))
    ensures d.Frames? && channel != "l" && channel != "r" && channel != "a" ==> r == Failure(UnknownChannel(channel))
  {
    match d
    case Mono(s) => Success(s)
    case Frames(width, rows) =>
      if channel == "l" then
        if width >= 1 then Success(Column(rows, 0)) else Failure(ColumnOutOfRange(0))
      else if channel == "r" then
        if width >= 2 then Success(Column(rows, 1)) else Failure(ColumnOutOfRange(1))
      else if channel == "a" then
        if width == 0 then (if |rows| == 0 then Success([]) else Failure(NotANumber))
        else Success(seq(|rows|, i requires 0 <= i < |rows| => Sum(rows[i]) / (width as real)))
      else Failure(UnknownChannel(channel))
  }

  /** Averaging a row whose channels all carry `c` gives `c`; for two channels
      the average is (left + right) / 2. */
  lemma MeanOfChannels(d: AudioArray, i: int)
    requires Rectangular(d) && d.Frames? && d.width > 0 && 0 <= i < |d.rows|
    ensures StereoToMono(d, "a").Success?
    ensures (forall j :: 0 <= j < d.width ==> d.rows[i][j] == d.rows[i][0]) ==>
      StereoToMono(d, "a").value[i] == d.rows[i][0]
    ensures d.width == 2 ==> StereoToMono(d, "a").value[i] == (d.rows[i][0] + d.rows[i][1]) / 2.0
  {
    var row := d.rows[i];
    if forall j :: 0 <= j < d.width ==> row[j] == row[0] {
      SumConstant(row, row[0]);
    }
    if d.width == 2 {
      assert row[..1][..0] == [];
      assert Sum(row[..1]) == row[0];
      assert row[..1] == [row[0]];
      assert row[..|row| - 1] == row[..1];
    }
  }

  // ---------------------------------------------------------------- freq2index

  /** `np.argmin(np.abs(freqs[..n] - f))`; `NearestInIsNearest` says what it finds. */
  function NearestIn(freqs: seq<real>, f: real, n: nat): (r: nat)
    requires 0 < n <= |freqs|
    ensures r < n
  {
    if n == 1 then 0
    else
      var b := NearestIn(freqs, f, n - 1);
      if Abs(freqs[n - 1] - f) < Abs(freqs[b] - f) then n - 1 else b
  }

  /** The first index of least distance to `f` among the first `n` bins. */
  lemma {:induction false} NearestInIsNearest(freqs: seq<real>, f: real, n: nat)
    requires 0 < n <= |freqs|
    ensures var r := NearestIn(freqs, f, n);
            && (forall j :: 0 <= j < n ==> Abs(freqs[r] - f) <= Abs(freqs[j] - f))
            && (forall j :: 0 <= j < r ==> Abs(freqs[j] - f) > Abs(freqs[r] - f))
  {
    if n > 1 {
      NearestInIsNearest(freqs, f, n - 1);
    }
  }

  /** freq2index: argmin on the whole axis. The axis is never empty: it comes from
      rfftfreq, which always has at least one bin. */
  function FreqToIndex(freqs: seq<real>, f: real): (r: nat)
    requires |freqs| > 0
    ensures r < |freqs|
  {
    NearestIn(freqs, f, |freqs|)
  }

  /** freq2index returns the first bin of least distance to `f`. */
  lemma FreqToIndexNearest(freqs: seq<real>, f: real)
    requires |freqs| > 0
    ensures var r := FreqToIndex(freqs, f);
            && (forall j :: 0 <= j < |freqs| ==> Abs(freqs[r] - f) <= Abs(freqs[j] - f))
            && (forall j :: 0 <= j < r ==> Abs(freqs[j] - f) > Abs(freqs[r] - f))
  {
    NearestInIsNearest(freqs, f, |freqs|);
  }

  ghost predicate Ascending(freqs: seq<real>)
  {
    forall i, j :: 0 <= i < j < |freqs| ==> freqs[i] <= freqs[j]
  }

  /** If a lower bin `a` is strictly worse than a higher bin `b` for `f1`, it is
      strictly worse for every `f2 >= f1` too. */
  lemma LowerBinStaysWorse(a: real, b: real, f1: real, f2: real)
    requires a <= b && f1 <= f2 && Abs(a - f1) > Abs(b - f1)
    ensures Abs(a - f2) > Abs(b - f2)
  {
  }

  /** On an ascending axis the nearest index is monotone in the frequency. */
  lemma FreqToIndexMonotone(freqs: seq<real>, f1: real, f2: real)
    requires |freqs| > 0 && Ascending(freqs) && f1 <= f2
    ensures FreqToIndex(freqs, f1) <= FreqToIndex(freqs, f2)
  {
    var i1 := FreqToIndex(freqs, f1);
    FreqToIndexNearest(freqs, f1);
    FreqToIndexNearest(freqs, f2);
    forall j | 0 <= j < i1
      ensures Abs(freqs[j] - f2) > Abs(freqs[i1] - f2)
    {
      LowerBinStaysWorse(freqs[j], freqs[i1], f1, f2);
    }
  }

  /** `np.fft.rfftfreq(n, 1 / rate)`: bin k sits at k * rate / n, for k in 0..n/2. */
  function RfftFreq(n: nat, rate: nat): (freqs: seq<real>)
    requires n > 0
    ensures |freqs| == n / 2 + 1 && freqs[0] == 0.0
  {
    seq(n / 2 + 1, k => (k as real) * (rate as real) / (n as real))
  }

  /** The bin axis is ascending and starts at 0 Hz. */
  lemma RfftFreqAscending(n: nat, rate: nat)
    requires n > 0
    ensures Ascending(RfftFreq(n, rate))
  {
    var freqs := RfftFreq(n, rate);
    forall i, j | 0 <= i < j < |freqs|
      ensures freqs[i] <= freqs[j]
    {
      assert (i as real) * (rate as real) <= (j as real) * (rate as real);
    }
  }

  // ---------------------------------------------------------------- gauss_select

  /** `(floor((noteint - 1) / 12) + octave, mod(noteint - 1, 12))`: the semitone below. */
  function PrevSemitone(octave: int, noteint: int): (int, int)
  {
    ((noteint - 1) / 12 + octave, (noteint - 1) % 12)
  }

  /** The semitone below stays in the octave, except below index 0, which wraps to
      index 11 of the octave below. */
  lemma PrevSemitoneCases(octave: int, noteint: int)
    ensures 1 <= noteint <= 12 ==> PrevSemitone(octave, noteint) == (octave, noteint - 1)
    ensures noteint == 0 ==> PrevSemitone(octave, noteint) == (octave - 1, 11)
  {
  }

  /** For every index, the semitone below is exactly one offset lower. */
  lemma PrevSemitoneOffset(octave: int, noteint: int)
    ensures NoteUtils.SemitoneOffset(PrevSemitone(octave, noteint).0, PrevSemitone(octave, noteint).1)
            == NoteUtils.SemitoneOffset(octave, noteint) - 1
  {
  }

  /** gauss_select's result: the NaN sentinel, or the band's Gaussian parameters. */
  datatype Selection = Exhausted | Band(mu: nat, sigma: real)

  /** The bin nearest to the frequency of semitone offset `n`. */
  function NoteBin(freqs: seq<real>, pitch: int -> real, n: int): (r: nat)
    requires |freqs| > 0
    ensures r < |freqs|
  {
    FreqToIndex(freqs, pitch(n))
  }

  /** gauss_select: the sentinel when the note and the semitone below fall in the
      same bin, otherwise a band at the note's bin with `sigma = width * (mu - muminus1)`.
      note2freq of an integer index is the frequency of its semitone offset
      (`NoteUtils.NoteToOffset` on `Index`). */
  function GaussSelect(freqs: seq<real>, pitch: int -> real, width: real, octave: int, noteint: int): (s: Selection)
    requires |freqs| > 0
  {
    var mu := NoteBin(freqs, pitch, NoteUtils.SemitoneOffset(octave, noteint));
    var (po, pk) := PrevSemitone(octave, noteint);
    var muminus1 := NoteBin(freqs, pitch, NoteUtils.SemitoneOffset(po, pk));
    if mu - muminus1 == 0 then Exhausted else Band(mu, width * ((mu - muminus1) as real))
  }

  /** The selection compares the bin of the note's offset `n` with the bin of `n - 1`:
      it is the sentinel exactly when those coincide. */
  lemma GaussSelectAdjacent(freqs: seq<real>, pitch: int -> real, width: real, octave: int, noteint: int)
    requires |freqs| > 0
    ensures var n := NoteUtils.SemitoneOffset(octave, noteint);
            var mu := NoteBin(freqs, pitch, n);
            var below := NoteBin(freqs, pitch, n - 1);
            GaussSelect(freqs, pitch, width, octave, noteint)
              == if mu == below then Exhausted else Band(mu, width * ((mu - below) as real))
  {
    PrevSemitoneOffset(octave, noteint);
  }

  /** Frequencies rise with the semitone offset. */
  ghost predicate Increasing(pitch: int -> real)
  {
    forall a, b :: a < b ==> pitch(a) < pitch(b)
  }

  /** On an ascending axis with rising pitches a selected band lies above the
      semitone below, so its sigma is positive for a positive width. */
  lemma GaussSelectSigmaPositive(freqs: seq<real>, pitch: int -> real, width: real, octave: int, noteint: int)
    requires |freqs| > 0 && Ascending(freqs) && Increasing(pitch) && width > 0.0
    requires GaussSelect(freqs, pitch, width, octave, noteint).Band?
    ensures GaussSelect(freqs, pitch, width, octave, noteint).sigma > 0.0
  {
    var n := NoteUtils.SemitoneOffset(octave, noteint);
    GaussSelectAdjacent(freqs, pitch, width, octave, noteint);
    FreqToIndexMonotone(freqs, pitch(n - 1), pitch(n));
  }

  // ---------------------------------------------------------------- decompose

  /** `range(*octaves) x range(12)` in loop order. */
  function Notes(lo: int, hi: int): (ns: seq<(int, int)>)
    ensures |ns| == if lo < hi then (hi - lo) * 12 else 0
  {
    if lo < hi then seq((hi - lo) * 12, i => (lo + i / 12, i % 12)) else []
  }

  /** The i-th note of the loop is octave `lo + i / 12`, index `i % 12`. */
  lemma NoteAt(lo: int, hi: int, i: int)
    requires 0 <= i < |Notes(lo, hi)|
    ensures Notes(lo, hi)[i] == (lo + i / 12, i % 12) && 0 <= Notes(lo, hi)[i].1 < 12
  {
  }

  /** Note (octave, noteint) is the loop's ((octave - lo) * 12 + noteint)-th. */
  lemma NotesAt(lo: int, hi: int, octave: int, noteint: int)
    requires lo <= octave < hi && 0 <= noteint < 12
    ensures (octave - lo) * 12 + noteint < |Notes(lo, hi)|
    ensures Notes(lo, hi)[(octave - lo) * 12 + noteint] == (octave, noteint)
  {
    var i := (octave - lo) * 12 + noteint;
    assert i < (hi - lo) * 12;
    NoteAt(lo, hi, i);
  }

  /** The i-th note of the loop is `i` semitones above (lo, 0): the loop visits
      consecutive semitones in ascending order, each once. */
  lemma NotesOffset(lo: int, hi: int, i: int)
    requires 0 <= i < |Notes(lo, hi)|
    ensures NoteUtils.SemitoneOffset(Notes(lo, hi)[i].0, Notes(lo, hi)[i].1) == NoteUtils.SemitoneOffset(lo, 0) + i
  {
    NoteAt(lo, hi, i);
  }

  /** gauss_select's result for each note of the loop. */
  function Selections(freqs: seq<real>, pitch: int -> real, width: real, notes: seq<(int, int)>): (sels: seq<Selection>)
    requires |freqs| > 0
    ensures |sels| == |notes|
  {
    seq(|notes|, i requires 0 <= i < |notes| => GaussSelect(freqs, pitch, width, notes[i].0, notes[i].1))
  }

  /** The number of notes the loop writes: those before the first sentinel. */
  function ReachedCount(sels: seq<Selection>): (c: nat)
    ensures c <= |sels|
    ensures forall i :: 0 <= i < c ==> sels[i].Band?
    ensures c < |sels| ==> sels[c].Exhausted?
  {
    if sels == [] || sels[0].Exhausted? then 0
    else
      var c := ReachedCount(sels[1..]);
      assert forall i :: 1 <= i < |sels| ==> sels[i] == sels[1..][i - 1];
      1 + c
  }

  /** A band right at a prefix of bands lies inside the counted prefix. */
  lemma ReachedCountBeyond(sels: seq<Selection>, d: nat)
    requires d <= ReachedCount(sels) && d < |sels| && sels[d].Band?
    ensures d < ReachedCount(sels)
  {
  }

  /** A sentinel right after a counted prefix ends the count there. */
  lemma ReachedCountStops(sels: seq<Selection>, d: nat)
    requires d <= ReachedCount(sels) && d < |sels| && sels[d].Exhausted?
    ensures ReachedCount(sels) == d
  {
  }

  function DigitChar(d: int): char
    requires 0 <= d < 10
  {
    (48 + d) as char
  }

  /** `str(n)` of a non-negative integer. */
  function NatToString(n: nat): (s: string)
    ensures |s| > 0 && forall i :: 0 <= i < |s| ==> '0' <= s[i] <= '9'
    ensures n >= 10 ==> |s| >= 2
  {
    if n < 10 then [DigitChar(n)] else NatToString(n / 10) + [DigitChar(n % 10)]
  }

  /** Distinct numbers have distinct decimal strings. */
  lemma {:induction false} NatToStringInjective(a: nat, b: nat)
    ensures NatToString(a) == NatToString(b) ==> a == b
  {
    if NatToString(a) == NatToString(b) && a >= 10 && b >= 10 {
      var s := NatToString(a);
      assert s[..|s| - 1] == NatToString(a / 10);
      assert NatToString(b)[..|s| - 1] == NatToString(b / 10);
      NatToStringInjective(a / 10, b / 10);
      assert DigitChar(a % 10) == DigitChar(b % 10);
    }
  }

  /** `str(octave)` */
  function IntToString(i: int): string
  {
    if i < 0 then "-" + NatToString(-i) else NatToString(i)
  }

  lemma IntToStringInjective(a: int, b: int)
    ensures IntToString(a) == IntToString(b) ==> a == b
  {
    NatToStringInjective(if a < 0 then -a else a, if b < 0 then -b else b);
    if a < 0 && b >= 0 {
      assert IntToString(a)[0] == '-';
    }
    if b < 0 && a >= 0 {
      assert IntToString(b)[0] == '-';
    }
    if a < 0 && b < 0 && IntToString(a) == IntToString(b) {
      assert IntToString(a)[1..] == NatToString(-a);
      assert IntToString(b)[1..] == NatToString(-b);
    }
  }

  /** `str(octave) + '-' + notenames[noteint]`: the dataset name of a note. */
  function NoteKey(octave: int, noteint: int): string
    requires 0 <= noteint < 12
  {
    IntToString(octave) + "-" + NoteUtils.NameTable[noteint]
  }

  /** A table name ends in '#' exactly when it has two characters. */
  lemma NameShapes()
    ensures forall k :: 0 <= k < 12 ==>
      && |NoteUtils.NameTable[k]| > 0
      && (NoteUtils.NameTable[k][|NoteUtils.NameTable[k]| - 1] == '#' <==> |NoteUtils.NameTable[k]| == 2)
  {
  }

  /** Distinct notes get distinct dataset names, and none is the reserved "meta". */
  lemma NoteKeyInjective(o1: int, k1: int, o2: int, k2: int)
    requires 0 <= k1 < 12 && 0 <= k2 < 12
    ensures NoteKey(o1, k1) == NoteKey(o2, k2) ==> o1 == o2 && k1 == k2
    ensures NoteKey(o1, k1) != TableStore.MetaKey
  {
    var s1, s2 := IntToString(o1), IntToString(o2);
    var n1, n2 := NoteUtils.NameTable[k1], NoteUtils.NameTable[k2];
    var key := NoteKey(o1, k1);
    assert key[|s1|] == '-';
    assert '-' !in TableStore.MetaKey;
    if key == NoteKey(o2, k2) {
      NameShapes();
      assert key[|key| - 1] == n1[|n1| - 1] == n2[|n2| - 1];
      assert |n1| == |n2|;
      assert s1 == key[..|s1|] == s2;
      assert n1 == key[|s1| + 1..] == n2;
      IntToStringInjective(o1, o2);
      NoteUtils.NoteNamesTable();
    }
  }

  /** The dataset names of the loop's notes, in loop order. */
  function LoopKeys(lo: int, hi: int): (keys: seq<string>)
    ensures |keys| == |Notes(lo, hi)|
  {
    var notes := Notes(lo, hi);
    seq(|notes|, i requires 0 <= i < |notes| => NoteAt(lo, hi, i); NoteKey(notes[i].0, notes[i].1))
  }

  /** Step (octave, noteint) of the loop: its position in the loop order, its
      selection and its dataset name. */
  lemma LoopStep(freqs: seq<real>, pitch: int -> real, width: real, lo: int, hi: int, octave: int, noteint: int)
    requires |freqs| > 0 && lo <= octave < hi && 0 <= noteint < 12
    ensures var i := (octave - lo) * 12 + noteint;
            && i < |Notes(lo, hi)|
            && Selections(freqs, pitch, width, Notes(lo, hi))[i] == GaussSelect(freqs, pitch, width, octave, noteint)
            && LoopKeys(lo, hi)[i] == NoteKey(octave, noteint)
  {
    NotesAt(lo, hi, octave, noteint);
  }

  /** The loop never writes a name twice and never writes "meta" again, so no
      create_dataset of decompose fails. */
  lemma LoopKeysDistinct(lo: int, hi: int)
    ensures forall i, j :: 0 <= i < j < |LoopKeys(lo, hi)| ==> LoopKeys(lo, hi)[i] != LoopKeys(lo, hi)[j]
    ensures TableStore.MetaKey !in LoopKeys(lo, hi)
  {
    var notes, keys := Notes(lo, hi), LoopKeys(lo, hi);
    forall i, j | 0 <= i < j < |keys|
      ensures keys[i] != keys[j]
    {
      NoteAt(lo, hi, i);
      NoteAt(lo, hi, j);
      NoteKeyInjective(notes[i].0, notes[i].1, notes[j].0, notes[j].1);
      NotesOffset(lo, hi, i);
      NotesOffset(lo, hi, j);
    }
    forall i | 0 <= i < |keys|
      ensures keys[i] != TableStore.MetaKey
    {
      NoteAt(lo, hi, i);
      NoteKeyInjective(notes[i].0, notes[i].1, notes[i].0, notes[i].1);
    }
  }

  /** The dataset written for a selected band (the sentinel is never written). */
  function StoredBand(savetype: int, sel: Selection, timeBand: (nat, real) -> seq<real>,
                      specBand: (nat, real) -> seq<real>): seq<real>
  {
    match sel
    case Exhausted => []
    case Band(mu, sigma) => if savetype == 0 then timeBand(mu, sigma) else specBand(mu, sigma)
  }

  /** The file holds the meta record and, after it, the datasets of the first `done` notes. */
  ghost predicate WrittenPrefix(names: seq<string>, data: map<string, seq<real>>, meta: seq<real>,
                                keys: seq<string>, stored: seq<seq<real>>, done: nat)
  {
    && done <= |keys| && done <= |stored|
    && names == [TableStore.MetaKey] + keys[..done]
    && TableStore.MetaKey in data && data[TableStore.MetaKey] == meta
    && forall i :: 0 <= i < done ==> keys[i] in data && data[keys[i]] == stored[i]
  }

  /** Writing the next note's dataset extends the prefix; with pairwise distinct
      names, none of them "meta", the name is new to the file. */
  lemma WrittenStep(names: seq<string>, data: map<string, seq<real>>, meta: seq<real>,
                    keys: seq<string>, stored: seq<seq<real>>, done: nat)
    requires forall i, j :: 0 <= i < j < |keys| ==> keys[i] != keys[j]
    requires TableStore.MetaKey !in keys
    requires TableStore.WellFormed(TableStore.Store(names, data))
    requires WrittenPrefix(names, data, meta, keys, stored, done)
    requires done < |keys| && done < |stored|
    ensures keys[done] !in data
    ensures WrittenPrefix(names + [keys[done]], data[keys[done] := stored[done]], meta, keys, stored, done + 1)
  {
    assert keys[..done + 1] == keys[..done] + [keys[done]];
    forall i | 0 <= i < |names|
      ensures names[i] != keys[done]
    {
      if i > 0 {
        assert names[i] == keys[i - 1];
      }
    }
  }

  /** The datasets decompose would write for every note: StoredBand of each selection. */
  function StoredBands(sels: seq<Selection>, savetype: int, timeBand: (nat, real) -> seq<real>,
                       specBand: (nat, real) -> seq<real>): (stored: seq<seq<real>>)
    ensures |stored| == |sels|
  {
    seq(|sels|, i requires 0 <= i < |sels| => StoredBand(savetype, sels[i], timeBand, specBand))
  }

  /** What the note loop leaves in a file that held only the meta record, given
      the loop's selections `sels` and dataset names `keys` in loop order: the
      datasets of the notes before the first sentinel or, when the savetype is
      neither 0 nor 1 and there is a first band to write, the error and nothing new. */
  ghost predicate LoopResult(outcome: Outcome, names: seq<string>, data: map<string, seq<real>>, meta: seq<real>,
                             sels: seq<Selection>, keys: seq<string>, savetype: int,
                             timeBand: (nat, real) -> seq<real>, specBand: (nat, real) -> seq<real>)
  {
    var c := ReachedCount(sels);
    var bad := savetype != 0 && savetype != 1;
    && c <= |keys|
    && (bad && c > 0 ==> outcome == Fail(UnknownSaveType) && names == [TableStore.MetaKey]
                         && data == map[TableStore.MetaKey := meta])
    && (!bad || c == 0 ==>
          && outcome == Pass
          && names == [TableStore.MetaKey] + keys[..c]
          && TableStore.MetaKey in data && data[TableStore.MetaKey] == meta
          && forall i :: 0 <= i < c ==> keys[i] in data && data[keys[i]] == StoredBand(savetype, sels[i], timeBand, specBand))
  }

  /** A loop that wrote the whole counted prefix passes. */
  lemma LoopPasses(names: seq<string>, data: map<string, seq<real>>, meta: seq<real>,
                   sels: seq<Selection>, keys: seq<string>, savetype: int,
                   timeBand: (nat, real) -> seq<real>, specBand: (nat, real) -> seq<real>)
    requires WrittenPrefix(names, data, meta, keys, StoredBands(sels, savetype, timeBand, specBand), ReachedCount(sels))
    requires savetype != 0 && savetype != 1 ==> ReachedCount(sels) == 0
    ensures LoopResult(Pass, names, data, meta, sels, keys, savetype, timeBand, specBand)
  {
  }

  /** The loop order: `sels` and `keys` have one entry per note, the note
      (octave, k) at position (octave - lo) * 12 + k. */
  ghost predicate LoopOrder(freqs: seq<real>, pitch: int -> real, width: real, lo: int, hi: int,
                            sels: seq<Selection>, keys: seq<string>)
    requires |freqs| > 0
  {
    && |sels| == |keys| == (if lo < hi then (hi - lo) * 12 else 0)
    && forall octave, k :: lo <= octave < hi && 0 <= k < 12 ==>
         && sels[(octave - lo) * 12 + k] == GaussSelect(freqs, pitch, width, octave, k)
         && keys[(octave - lo) * 12 + k] == NoteKey(octave, k)
  }

  /** The loop's tables as the loop methods see them: in loop order, with names
      that are pairwise distinct and never "meta". */
  ghost predicate LoopTables(freqs: seq<real>, pitch: int -> real, width: real, lo: int, hi: int,
                             sels: seq<Selection>, keys: seq<string>)
    requires |freqs| > 0
  {
    && LoopOrder(freqs, pitch, width, lo, hi, sels, keys)
    && (forall i, j :: 0 <= i < j < |keys| ==> keys[i] != keys[j])
    && TableStore.MetaKey !in keys
  }

  /** The tables' entry for note (octave, k): its selection and its dataset name. */
  lemma LoopTablesAt(freqs: seq<real>, pitch: int -> real, width: real, lo: int, hi: int,
                     sels: seq<Selection>, keys: seq<string>, octave: int, k: int, pos: int)
    requires |freqs| > 0 && LoopOrder(freqs, pitch, width, lo, hi, sels, keys)
    requires lo <= octave < hi && 0 <= k < 12 && pos == (octave - lo) * 12 + k
    ensures 0 <= pos < |sels| && pos < |keys|
    ensures sels[pos] == GaussSelect(freqs, pitch, width, octave, k) && keys[pos] == NoteKey(octave, k)
  {
    assert 0 <= pos < |sels| == |keys|;
    assert sels[(octave - lo) * 12 + k] == GaussSelect(freqs, pitch, width, octave, k);
  }

  /** Selections and LoopKeys are the loop's tables. */
  lemma LoopTablesHold(freqs: seq<real>, pitch: int -> real, width: real, lo: int, hi: int)
    requires |freqs| > 0
    ensures LoopTables(freqs, pitch, width, lo, hi, Selections(freqs, pitch, width, Notes(lo, hi)), LoopKeys(lo, hi))
  {
    LoopKeysDistinct(lo, hi);
    forall octave, k | lo <= octave < hi && 0 <= k < 12
      ensures (octave - lo) * 12 + k < |Notes(lo, hi)|
      ensures Selections(freqs, pitch, width, Notes(lo, hi))[(octave - lo) * 12 + k] == GaussSelect(freqs, pitch, width, octave, k)
      ensures LoopKeys(lo, hi)[(octave - lo) * 12 + k] == NoteKey(octave, k)
    {
      LoopStep(freqs, pitch, width, lo, hi, octave, k);
    }
  }

  /** `fp.create_dataset(name, data=values)` for the next note of the loop order:
      the name is new to the file, so the written prefix grows by one. */
  method WriteBand(fp: TableStore.TableFile, name: string, values: seq<real>, ghost meta: seq<real>,
                   ghost keys: seq<string>, ghost stored: seq<seq<real>>, ghost pos: nat)
    requires fp.Valid() && WrittenPrefix(fp.names, fp.data, meta, keys, stored, pos)
    requires forall i, j :: 0 <= i < j < |keys| ==> keys[i] != keys[j]
    requires TableStore.MetaKey !in keys
    requires pos < |keys| && pos < |stored| && name == keys[pos] && values == stored[pos]
    modifies fp
    ensures fp.Valid() && WrittenPrefix(fp.names, fp.data, meta, keys, stored, pos + 1)
  {
    WrittenStep(fp.names, fp.data, meta, keys, stored, pos);
    var created := fp.CreateDataset(name, values);
  }

  /** One iteration of the inner loop of decompose, for note (octave, noteint) at
      position `pos` of the loop order: the sentinel stops the loop with the file
      unchanged, a savetype other than 0 or 1 fails with the file unchanged, and
      otherwise the note's band is written under its name. */
  method WriteNote(fp: TableStore.TableFile, freqs: seq<real>, pitch: int -> real, width: real,
                   lo: int, hi: int, octave: int, noteint: int, savetype: int,
                   timeBand: (nat, real) -> seq<real>, specBand: (nat, real) -> seq<real>,
                   ghost meta: seq<real>, ghost sels: seq<Selection>, ghost keys: seq<string>,
                   ghost stored: seq<seq<real>>, ghost pos: nat)
    returns (outcome: Outcome, stopped: bool)
    requires |freqs| > 0 && fp.Valid() && LoopTables(freqs, pitch, width, lo, hi, sels, keys)
    requires lo <= octave < hi && 0 <= noteint < 12 && pos == (octave - lo) * 12 + noteint
    requires pos <= ReachedCount(sels) && stored == StoredBands(sels, savetype, timeBand, specBand)
    requires WrittenPrefix(fp.names, fp.data, meta, keys, stored, pos)
    modifies fp
    ensures fp.Valid()
    ensures outcome.Fail? ==> outcome == Fail(UnknownSaveType) && stopped && savetype != 0 && savetype != 1
                              && pos < ReachedCount(sels) && fp.names == old(fp.names) && fp.data == old(fp.data)
    ensures outcome.Pass? && stopped ==> ReachedCount(sels) == pos && fp.names == old(fp.names) && fp.data == old(fp.data)
    ensures outcome.Pass? && !stopped ==> pos < ReachedCount(sels) && (savetype == 0 || savetype == 1)
                                          && WrittenPrefix(fp.names, fp.data, meta, keys, stored, pos + 1)
  {
    var selected := GaussSelect(freqs, pitch, width, octave, noteint);
    LoopTablesAt(freqs, pitch, width, lo, hi, sels, keys, octave, noteint, pos);
    if selected.Exhausted? {
      ReachedCountStops(sels, pos);
      return Pass, true;
    }
    ReachedCountBeyond(sels, pos);
    var newdata;
    if savetype == 0 {
      newdata := timeBand(selected.mu, selected.sigma);
    } else if savetype == 1 {
      newdata := specBand(selected.mu, selected.sigma);
    } else {
      return Fail(UnknownSaveType), true;
    }
    WriteBand(fp, NoteKey(octave, noteint), newdata, meta, keys, stored, pos);
    return Pass, false;
  }

  /** One pass of the inner `for noteint in range(12)` loop of decompose, for the
      octave whose notes start at position `done` of the loop order: each note's
      band is written under its name until gauss_select returns the sentinel
      (`stopped`), and a savetype other than 0 or 1 fails at the first band. */
  method WriteOctave(fp: TableStore.TableFile, freqs: seq<real>, pitch: int -> real, width: real,
                     lo: int, hi: int, octave: int, savetype: int, timeBand: (nat, real) -> seq<real>,
                     specBand: (nat, real) -> seq<real>, ghost meta: seq<real>,
                     ghost sels: seq<Selection>, ghost keys: seq<string>, ghost done: nat)
    returns (outcome: Outcome, stopped: bool)
    requires |freqs| > 0 && fp.Valid() && lo <= octave < hi
    requires LoopTables(freqs, pitch, width, lo, hi, sels, keys)
    requires done == (octave - lo) * 12 && done <= ReachedCount(sels)
    requires WrittenPrefix(fp.names, fp.data, meta, keys, StoredBands(sels, savetype, timeBand, specBand), done)
    requires savetype != 0 && savetype != 1 ==> done == 0 && fp.names == [TableStore.MetaKey]
                                                 && fp.data == map[TableStore.MetaKey := meta]
    modifies fp
    ensures fp.Valid()
    ensures var c := ReachedCount(sels);
            var stored := StoredBands(sels, savetype, timeBand, specBand);
            && (outcome.Fail? ==> outcome == Fail(UnknownSaveType) && c > 0 && savetype != 0 && savetype != 1
                                  && fp.names == old(fp.names) && fp.data == old(fp.data))
            && (outcome.Pass? && stopped ==> WrittenPrefix(fp.names, fp.data, meta, keys, stored, c)
                                             && (savetype != 0 && savetype != 1 ==> c == 0))
            && (outcome.Pass? && !stopped ==> done + 12 <= c && (savetype == 0 || savetype == 1)
                                              && WrittenPrefix(fp.names, fp.data, meta, keys, stored, done + 12))
  {
    ghost var stored := StoredBands(sels, savetype, timeBand, specBand);
    var noteint := 0;
    while noteint < 12
      invariant 0 <= noteint <= 12
      invariant done + noteint <= ReachedCount(sels)
      invariant fp.Valid()
      invariant WrittenPrefix(fp.names, fp.data, meta, keys, stored, done + noteint)
      invariant noteint > 0 ==> savetype == 0 || savetype == 1
      invariant noteint == 0 ==> fp.names == old(fp.names) && fp.data == old(fp.data)
    {
      outcome, stopped := WriteNote(fp, freqs, pitch, width, lo, hi, octave, noteint, savetype, timeBand, specBand,
                                    meta, sels, keys, stored, done + noteint);
      if stopped {
        return;
      }
      noteint := noteint + 1;
    }
    return Pass, false;
  }

  /** The nested `for octave in range(*octaves)` / `for noteint in range(12)` loop of
      decompose on the bin axis `freqs`: the sentinel breaks out of both loops. */
  method WriteNotes(fp: TableStore.TableFile, freqs: seq<real>, pitch: int -> real, width: real,
                    lo: int, hi: int, savetype: int, timeBand: (nat, real) -> seq<real>,
                    specBand: (nat, real) -> seq<real>, ghost meta: seq<real>,
                    ghost sels: seq<Selection>, ghost keys: seq<string>)
    returns (outcome: Outcome)
    requires |freqs| > 0 && fp.Valid()
    requires LoopTables(freqs, pitch, width, lo, hi, sels, keys)
    requires fp.names == [TableStore.MetaKey] && fp.data == map[TableStore.MetaKey := meta]
    modifies fp
    ensures fp.Valid()
    ensures LoopResult(outcome, fp.names, fp.data, meta, sels, keys, savetype, timeBand, specBand)
  {
    ghost var done := 0;
    var octave := lo;
    while octave < hi
      invariant lo <= octave && (lo < hi ==> octave <= hi)
      invariant done == (octave - lo) * 12 && done <= ReachedCount(sels)
      invariant fp.Valid()
      invariant WrittenPrefix(fp.names, fp.data, meta, keys, StoredBands(sels, savetype, timeBand, specBand), done)
      invariant savetype != 0 && savetype != 1 ==> done == 0 && fp.names == [TableStore.MetaKey]
                                                    && fp.data == map[TableStore.MetaKey := meta]
    {
      var stopped;
      outcome, stopped := WriteOctave(fp, freqs, pitch, width, lo, hi, octave, savetype, timeBand, specBand,
                                      meta, sels, keys, done);
      if outcome.Fail? {
        return;
      }
      if stopped {
        LoopPasses(fp.names, fp.data, meta, sels, keys, savetype, timeBand, specBand);
        return;
      }
      octave := octave + 1;
      done := done + 12;
    }
    LoopPasses(fp.names, fp.data, meta, sels, keys, savetype, timeBand, specBand);
    outcome := Pass;
  }

  /** decompose(filename_out, savetype) on a signal of `signalLength` samples: a zero
      length fails in the transform and a zero rate in `1 / sample_rate`; otherwise a
      new file receives the meta record `[savetype, sample_rate]` and then the note loop. */
  method Decompose(signalLength: nat, sampleRate: nat, pitch: int -> real, octaves: (int, int), width: real,
                   savetype: int, timeBand: (nat, real) -> seq<real>, specBand: (nat, real) -> seq<real>)
    returns (outcome: Outcome, fp: TableStore.TableFile?)
    ensures signalLength == 0 ==> outcome == Fail(BadShape) && fp == null
    ensures signalLength > 0 && sampleRate == 0 ==> outcome == Fail(ZeroDivision) && fp == null
    ensures signalLength > 0 && sampleRate > 0 ==>
      && fp != null && fresh(fp) && fp.Valid()
      && LoopResult(outcome, fp.names, fp.data, [savetype as real, sampleRate as real],
                    Selections(RfftFreq(signalLength, sampleRate), pitch, width, Notes(octaves.0, octaves.1)),
                    LoopKeys(octaves.0, octaves.1), savetype, timeBand, specBand)
  {
    if signalLength == 0 {
      return Fail(BadShape), null;
    }
    if sampleRate == 0 {
      return Fail(ZeroDivision), null;
    }
    var freqs := RfftFreq(signalLength, sampleRate);
    var meta := [savetype as real, sampleRate as real];
    fp := new TableStore.TableFile();
    var created := fp.CreateDataset(TableStore.MetaKey, meta);
    LoopTablesHold(freqs, pitch, width, octaves.0, octaves.1);
    outcome := WriteNotes(fp, freqs, pitch, width, octaves.0, octaves.1, savetype, timeBand, specBand, meta,
                          Selections(freqs, pitch, width, Notes(octaves.0, octaves.1)), LoopKeys(octaves.0, octaves.1));
  }
}
