/** The note frequency model of note_utils.py, on the integer semitone offset
    `n` from the reference pitch (A4 = 440 Hz): the frequency itself,
    440 * 2^(n/12), and the `round(12 * log2(f / 440))` that recovers `n` from
    a frequency are floating point and stay outside the model.

    The name table starts at 'A' (index 0): octave 4 index 0 is the 440 Hz
    reference, so an octave number runs from A up to G#. */
module NoteUtils {
  import opened Outcomes

  /** `list(notenames.values())`: the names in key order 0..11. */
  const NameTable: seq<string> := ["A", "A#", "B", "C", "C#", "D", "D#", "E", "F", "F#", "G", "G#"]

  /** `notenames`: pitch index -> name. */
  const NoteNames: map<int, string> := map k | 0 <= k < 12 :: NameTable[k]

  /** The table has exactly the keys 0..11 and twelve pairwise distinct names. */
  lemma NoteNamesTable()
    ensures forall k :: k in NoteNames <==> 0 <= k < 12
    ensures forall k :: 0 <= k < 12 ==> NoteNames[k] == NameTable[k]
    ensures |NameTable| == 12
    ensures forall i, j :: 0 <= i < j < 12 ==> NameTable[i] != NameTable[j]
  {
  }

  /** The second argument of note2freq: a pitch index or a pitch name. */
  datatype NoteArg = Index(k: int) | Name(name: string)

  /** First position of `name` in NameTable at or after `from`. */
  function IndexFrom(name: string, from: nat): (r: Result<int>)
    requires from <= 12
    decreases 12 - from
    ensures r.Success? <==> exists j :: from <= j < 12 && NameTable[j] == name
    ensures r.Success? ==> from <= r.value < 12 && NameTable[r.value] == name
    ensures r.Success? ==> forall j :: from <= j < r.value ==> NameTable[j] != name
    ensures r.Failure? ==> r.error == NameNotFound(name)
  {
    if from == 12 then Failure(NameNotFound(name))
    else if NameTable[from] == name then Success(from)
    else IndexFrom(name, from + 1)
  }

  /** `list(notenames.values()).index(name)`: the index of a name, or the
      ValueError that list.index raises for a name not in the table. */
  function NameIndex(name: string): (r: Result<int>)
    ensures r.Success? <==> name in NameTable
    ensures r.Success? ==> 0 <= r.value < 12 && NameTable[r.value] == name
    ensures r.Failure? ==> r.error == NameNotFound(name)
  {
    IndexFrom(name, 0)
  }

  /** `note + 12 * int(octave - 4)`: the semitone offset from A4. */
  function SemitoneOffset(octave: int, k: int): int
  {
    k + 12 * (octave - 4)
  }

  /** note2freq up to the frequency: the semitone offset it raises 2 to (over 12).
      A name is first turned into its index (mod 12, which leaves it unchanged). */
  function NoteToOffset(octave: int, note: NoteArg): (r: Result<int>)
    ensures r.Failure? <==> note.Name? && note.name !in NameTable
    ensures note.Index? ==> r == Success(SemitoneOffset(octave, note.k))
  {
    match note
    case Index(k) => Success(SemitoneOffset(octave, k))
    case Name(s) =>
      match NameIndex(s)
      case Success(k) => Success(SemitoneOffset(octave, k % 12))
      case Failure(e) => Failure(e)
  }

  /** `(floor(n / 12) + 4, mod(n, 12))`: octave and pitch index of offset `n`. */
  function SplitOffset(n: int): (int, int)
  {
    (n / 12 + 4, n % 12)
  }

  /** freq2note from the rounded offset on: the octave and the name of offset `n`. */
  function FreqToNote(n: int): (r: (int, string))
  {
    var (octave, k) := SplitOffset(n);
    (octave, NoteNames[k])
  }

  /** The pitch index of any offset lies in [0, 12) and its octave is floor(n / 12) + 4;
      floor holds for negative offsets too. */
  lemma SplitOffsetRange(n: int)
    ensures 0 <= SplitOffset(n).1 < 12
    ensures 12 * (SplitOffset(n).0 - 4) <= n < 12 * (SplitOffset(n).0 - 4) + 12
  {
  }

  /** Splitting an offset and recombining the parts gives the offset back. */
  lemma SplitRecombine(n: int)
    ensures SemitoneOffset(SplitOffset(n).0, SplitOffset(n).1) == n
  {
  }

  /** For a pitch index in [0, 12), the offset split again is exactly (octave, index). */
  lemma OffsetSplit(octave: int, k: int)
    requires 0 <= k < 12
    ensures SplitOffset(SemitoneOffset(octave, k)) == (octave, k)
  {
    var n := SemitoneOffset(octave, k);
    assert n == 12 * (octave - 4) + k;
  }

  /** A name maps to an index that looks the same name up again, and an index in
      [0, 12) maps to a name whose lookup is that index. */
  lemma NameRoundTrip(k: int)
    requires 0 <= k < 12
    ensures NameIndex(NameTable[k]) == Success(k)
  {
    NoteNamesTable();
  }

  /** A name from the table leads note2freq to the offset of its index. */
  lemma NameOffset(octave: int, k: int)
    requires 0 <= k < 12
    ensures NoteToOffset(octave, Name(NameTable[k])) == Success(SemitoneOffset(octave, k))
  {
    var name := NameTable[k];
    NameRoundTrip(k);
    assert NameIndex(name) == Success(k);
    assert k % 12 == k;
  }

  /** freq2note names the pitch index through the table. */
  lemma FreqToNoteName(n: int)
    ensures 0 <= SplitOffset(n).1 < 12
    ensures FreqToNote(n) == (SplitOffset(n).0, NameTable[SplitOffset(n).1])
  {
    NoteNamesTable();
  }

  /** freq2note(note2freq(octave, k)) == (octave, notenames[k]) on exact offsets,
      whether the note is given by its index or by its name. */
  lemma NoteRoundTrip(octave: int, k: int)
    requires 0 <= k < 12
    ensures NoteToOffset(octave, Index(k)).Success?
    ensures FreqToNote(NoteToOffset(octave, Index(k)).value) == (octave, NameTable[k])
    ensures NoteToOffset(octave, Name(NameTable[k])) == NoteToOffset(octave, Index(k))
  {
    var n := SemitoneOffset(octave, k);
    OffsetSplit(octave, k);
    FreqToNoteName(n);
    NameOffset(octave, k);
  }

  /** A name and octave from freq2note lead note2freq back to the same offset. */
  lemma OffsetRoundTrip(n: int)
    ensures NoteToOffset(FreqToNote(n).0, Name(FreqToNote(n).1)) == Success(n)
  {
    var (octave, k) := SplitOffset(n);
    FreqToNoteName(n);
    NameOffset(octave, k);
    SplitRecombine(n);
  }

  /** The offset is strictly increasing in (octave, index) lexicographic order. */
  lemma OffsetIncreasing(o1: int, k1: int, o2: int, k2: int)
    requires 0 <= k1 < 12 && 0 <= k2 < 12
    requires o1 < o2 || (o1 == o2 && k1 < k2)
    ensures SemitoneOffset(o1, k1) < SemitoneOffset(o2, k2)
  {
  }

  /** Index 0 is named 'A' and octave 4 index 0 is offset 0, the 440 Hz reference;
      the C of the same octave is three semitones above it. */
  lemma ReferencePitch()
    ensures NameTable[0] == "A" && NoteToOffset(4, Index(0)) == Success(0)
    ensures NoteToOffset(4, Name("C")) == Success(3)
    ensures FreqToNote(-1) == (3, "G#")
  {
    NameRoundTrip(3);
  }
}
