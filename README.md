# Note decomposition and noise gates, modelled in Dafny

This project models the core of a Python audio tool that splits a recording
into one band per musical note, gates those bands against noise, and recombines
them. It covers:

- **Pitch arithmetic** (`NoteUtils`, note_utils.py). The twelve-name table, the
  name-to-index lookup, and the split of an integer semitone offset from A4
  into an octave and a pitch index, plus the reverse.
- **Decomposition** (`NoteDecompose`, note_decompose.py). The channel
  reduction, the nearest-bin search `freq2index`, the previous-semitone step
  and stop test of `gauss_select`, and the nested note loop of the `decompose`
  method (note_decompose.py:123-170). The nested loop is a pair of while loops
  (`WriteNotes`, `WriteOctave`, one note at a time in `WriteNote` and
  `WriteBand`) that write one dataset per note into the HDF5 file opened at
  note_decompose.py:131, modelled as the class `TableStore.TableFile`.
- **Envelope and gates** (`NoiseGate`, `NoiseGateSigma` and `BlockGate`, from
  noise_gate.py, noise_gate_sigma.py and noisegate.py):
  - the block envelope `wave2vol`;
  - the calibrated envelope gate, which works on a copy;
  - the in-place mask gate;
  - the trimmed block gate `noisegate` and its relative variant.
- **Recombination** (`NoteRecompose`, note_recompose.py). `get_file_len` and
  the savetype-0 accumulate-then-divide path of `recompose`, with its savetype
  dispatch.
- **Automid selection** (`Automid`, automid.py). The next-semitone step and
  the sigma computation of its `gauss_select`.

Raised exceptions become `Outcomes.Result` / `Outcomes.Outcome` values with a
named error. Samples are exact `real`s. The FFT, the Gaussian window and the
frequency `440 * 2^(n/12)` are opaque:

- a note's frequency is `pitch(n)` for its semitone offset `n`;
- the band stored for a selection `(mu, sigma)` is `timeBand(mu, sigma)` or
  `specBand(mu, sigma)`.

`np.std` and `np.mean` of the calibration are parameters.

In two places the source's own comments disagree with its code; the model follows the code:

- The name table starts at 'A' (note_utils.py:8-14; index 0, octave 4 index
  0 = 440 Hz), although the comment at note_utils.py:5 says octaves start on C.
- Two gates write into the caller's array, although both docstrings say
  "side effects: None" (noisegate.py:14, noise_gate_sigma.py:70):
  - `noisegate` writes through a slice view of the caller's array
    (noisegate.py:22, 37);
  - noise_gate_sigma.py's `noisegate` zeroes the caller's array itself
    (noise_gate_sigma.py:81).

Behaviour the model follows as written:

- The decompose metadata record is exactly `[savetype, sample_rate]`
  (note_decompose.py:134-136).
- The recombined sum is divided by `len(keys) - 1` (note_recompose.py:63).
  `BandCount` shows this is the number of bands.
- The savetype-1 combine path reads `fourier_data`, a name defined nowhere in
  `recompose` (note_recompose.py:58), so it fails with a NameError.
- `noisegate_rel` multiplies the gated signal back by the maximum
  (noisegate.py:60), so its output is on the input's scale.

Two functions appear twice in the source and are modelled once:

- `freq2index` of automid.py:55-64 is the same argmin as note_decompose.py's,
  so it is `NoteDecompose.FreqToIndex`.
- `wave2vol` and the calibration loop of noise_gate_sigma.py (lines 19-25 and
  39-59) are the same code as noise_gate.py's, so they are `NoiseGate.Wave2Vol`
  and `NoiseGate.Calibrate`.

## Model

| member | source | states |
|---|---|---|
| NoteUtils.NoteNamesTable | note_utils.py:8-14 | `notenames` has exactly the keys 0..11, agrees with the ordered name list, and its twelve names are pairwise distinct |
| NoteUtils.NameIndex | note_utils.py:49 | `list(...).index(name)` succeeds exactly for a name in the table, and returns an index in [0, 12) whose entry is that name; any other name gives the ValueError |
| NoteUtils.NoteToOffset | note_utils.py:45-52 | note2freq's semitone offset fails exactly for a name that is not in the table; an index k gives `k + 12*(octave-4)` |
| NoteUtils.NameRoundTrip | note_utils.py:45-49 | looking up the index of the k-th name gives k back |
| NoteUtils.NameOffset | note_utils.py:45-52 | a name from the table leads note2freq to the same offset as its index |
| NoteUtils.FreqToNoteName | note_utils.py:29-32 | freq2note's pitch index lies in [0, 12) and is named through the table |
| NoteUtils.SplitOffsetRange | note_utils.py:29-30 | for every offset n, n mod 12 lies in [0, 12) and the octave is floor(n / 12) + 4, negative n included |
| NoteUtils.SplitRecombine | note_utils.py:29-30 | splitting n and recombining with `note + 12 * (octave - 4)` (line 52) gives n back |
| NoteUtils.OffsetSplit | note_utils.py:52 | the offset of (octave, k), k in [0, 12), splits back into exactly (octave, k) |
| NoteUtils.NoteRoundTrip | note_utils.py:29-52 | on exact offsets, freq2note(note2freq(octave, k)) is (octave, notenames[k]), whether the note is given by index or by name |
| NoteUtils.OffsetRoundTrip | note_utils.py:45-52 | the octave and name that freq2note gives for n lead note2freq back to n |
| NoteUtils.OffsetIncreasing | note_utils.py:52 | the offset rises strictly in (octave, index) lexicographic order |
| NoteUtils.ReferencePitch | note_utils.py:5-53 | index 0 is 'A' and (4, 0) is offset 0, the 440 Hz reference, although the comment on line 5 says octaves start on C; C4 is 3 semitones above it and offset -1 is G# of octave 3 |
| TableStore.TableFile.constructor | note_decompose.py:131 | a file opened with mode 'w' holds no dataset |
| TableStore.TableFile.CreateDataset | note_decompose.py:162 | create_dataset appends a new name with its values, and a name that already exists is refused with the file unchanged |
| NoteDecompose.Column | note_decompose.py:53-56 | `d[:, c]` has one entry per row, namely that row's entry c |
| NoteDecompose.StereoToMono | note_decompose.py:46-62 | rank 1 is returned equal; for rank 2, 'l' is column 0 and 'r' is column 1 (failing without that column), 'a' is the per-row mean, whose value times the channel count is the row's sum (NaN for zero channels), and any other channel raises |
| NoteDecompose.MeanOfChannels | note_decompose.py:58-59 | the mean of equal channels is that value, and for two channels it is (l + r) / 2 |
| NoteDecompose.NearestInIsNearest | note_decompose.py:79 | the argmin over the first n bins has least distance to f, and every earlier bin is strictly farther |
| NoteDecompose.FreqToIndex | note_decompose.py:70-79 | freq2index returns an index inside the non-empty bin axis |
| NoteDecompose.FreqToIndexNearest | note_decompose.py:79 | freq2index returns the first bin of least distance to f |
| NoteDecompose.FreqToIndexMonotone | automid.py:64 | on an ascending axis the shared argmin is monotone in f, so a higher note never gets a lower bin |
| NoteDecompose.RfftFreq | note_decompose.py:128 | rfftfreq(n, 1/rate) has n/2 + 1 bins and starts at 0 Hz |
| NoteDecompose.RfftFreqAscending | note_decompose.py:128 | the bin axis is ascending |
| NoteDecompose.PrevSemitoneCases | note_decompose.py:101-102 | for noteint 1..12 the previous semitone is (octave, noteint - 1), and for noteint 0 it is (octave - 1, 11) |
| NoteDecompose.PrevSemitoneOffset | note_decompose.py:101-102 | the previous semitone is exactly one offset lower, for every index |
| NoteDecompose.NoteBin | note_decompose.py:104-105 | a note's bin lies on the axis |
| NoteDecompose.GaussSelectAdjacent | note_decompose.py:94-111 | gauss_select gives the NaN sentinel exactly when the bins of offsets n and n - 1 coincide, and otherwise a band at mu with sigma = width * (mu - muminus1) |
| NoteDecompose.GaussSelectSigmaPositive | note_decompose.py:104-111 | on an ascending axis with rising pitches, a selected band has positive sigma for a positive width |
| NoteDecompose.Notes | note_decompose.py:142-143 | the loop visits 12 notes per octave of `range(*octaves)` |
| NoteDecompose.NoteAt | note_decompose.py:142-143 | the i-th visited note is (lo + i / 12, i mod 12) |
| NoteDecompose.NotesAt | note_decompose.py:142-143 | note (octave, k) is visited at position (octave - lo) * 12 + k |
| NoteDecompose.NotesOffset | note_decompose.py:142-143 | the i-th visited note is i semitones above (lo, 0), so the notes ascend and each is visited once |
| NoteDecompose.Selections | note_decompose.py:146 | one gauss_select result per visited note |
| NoteDecompose.ReachedCount | note_decompose.py:148-166 | the number of notes written: all selections before it are bands, and the one at it (if any) is the sentinel |
| NoteDecompose.ReachedCountStops | note_decompose.py:148-149 | a sentinel right after a prefix of bands ends the count there |
| NoteDecompose.NatToString | note_decompose.py:162 | `str(n)` is a non-empty string of decimal digits |
| NoteDecompose.NatToStringInjective | note_decompose.py:162 | distinct non-negative numbers have distinct decimal strings |
| NoteDecompose.IntToStringInjective | note_decompose.py:162 | distinct octaves, negative ones included, have distinct strings |
| NoteDecompose.NoteKeyInjective | note_decompose.py:162 | distinct notes get distinct `str(octave) + '-' + name` keys, and no key is "meta" |
| NoteDecompose.LoopKeys | note_decompose.py:142-162 | one dataset name per visited note |
| NoteDecompose.LoopStep | note_decompose.py:142-162 | at position (octave - lo) * 12 + k sit the selection and the key of note (octave, k) |
| NoteDecompose.LoopKeysDistinct | note_decompose.py:162 | the loop's names are pairwise distinct and never "meta", so no create_dataset of the loop is refused |
| NoteDecompose.WrittenStep | note_decompose.py:162 | writing the next note extends the written prefix by its name and band |
| NoteDecompose.StoredBands | note_decompose.py:151-162 | one stored dataset per selection |
| NoteDecompose.LoopTablesHold | note_decompose.py:142-162 | the selections and keys in loop order meet the loop's table invariant |
| NoteDecompose.WriteBand | note_decompose.py:162 | creating the next note's dataset adds a new name with its band, extending the written prefix by one |
| NoteDecompose.WriteNote | note_decompose.py:146-162 | one pass of the inner loop: the sentinel stops with the file unchanged, a savetype other than 0 or 1 fails with the file unchanged, otherwise the note's band is written under its name |
| NoteDecompose.WriteOctave | note_decompose.py:143-162 | the inner loop writes each band under its name until the sentinel; a savetype other than 0 or 1 fails at the first band with the file unchanged |
| NoteDecompose.WriteNotes | note_decompose.py:142-166 | the nested loop leaves the meta record, then the bands of exactly the notes before the first sentinel, in loop order; a bad savetype fails before any band is written |
| NoteDecompose.Decompose | note_decompose.py:122-170 | a zero-length signal and a zero rate fail; otherwise a fresh file holds `meta = [savetype, sample_rate]` and then the loop's bands |
| BlockGate.TrimmedLength | noisegate.py:19 | `floor(n / spread) * spread` is the longest whole-block prefix, less than one block short of n |
| BlockGate.Exceeds | noisegate.py:25 | the mask is set exactly where the magnitude is above the level |
| BlockGate.Any | noisegate.py:31 | a boolean sum is set exactly when some entry is set |
| BlockGate.BlockMaskAt | noisegate.py:25-34 | the repeated block mask is set at i exactly when some sample of i's block is above the level |
| BlockGate.GatedAt | noisegate.py:18-40 | the output has the input length, is zero from the trimmed length on, and below it keeps sample i unchanged exactly when i's block has a sample above the level, else 0 |
| BlockGate.GatedKeepsOrZeroes | noisegate.py:37-40 | every output sample is the input sample or 0 |
| BlockGate.GatedIdempotent | noisegate.py:25-40 | gating the output again with the same level and spread changes nothing |
| BlockGate.NoiseGate | noisegate.py:5-42 | returns the gated signal for any `mult`; the caller's array is zeroed in place on the silent whole blocks and untouched past them; spread 0 divides by zero and a negative spread fails the reshape, both with the array unchanged |
| BlockGate.NoiseGateRelAsWritten | noisegate.py:45-60 | as written: always 10-sample blocks; an empty input has no maximum, and a zero maximum gives NaN for a nonzero sample of the whole blocks |
| BlockGate.NoiseGateRel | noisegate.py:45-60 | as intended: the caller's spread is the block size, with the empty-input, zero-spread and negative-spread errors |
| BlockGate.PeakValue | noisegate.py:53 | `np.max` bounds every sample and is attained |
| BlockGate.RelativeGateAt | noisegate.py:53-60 | with a nonzero maximum, a sample of the whole blocks is kept at its original value exactly when its block has a sample with \|x\| / max above the level, else 0 |
| BlockGate.NoiseGateRelUsesSpread | noisegate.py:45-60 | the corrected relative gate gates with the caller's block size |
| BlockGate.NoiseGateRelIgnoresSpread | noisegate.py:57 | as written the result is the same for every spread, namely the corrected gate with spread 10 |
| BlockGate.NoiseGateRelCounterexample | noisegate.py:57 | x = [1, 0.25, 0.25, 0.25], level 0.5, spread 2: as written, four zeros; as intended, the first sample is kept |
| NoiseGate.CoverBlocks | noise_gate.py:14 | `ceil(n / spread)` blocks cover n samples with less than one block of padding |
| NoiseGate.Padded | noise_gate.py:16 | the padded wave starts with the signal and continues with zeros, up to whole blocks |
| NoiseGate.Window | noise_gate.py:18 | i's row of the reshaped wave has spread samples |
| NoiseGate.Spread | noise_gate.py:27-29 | repeating and trimming gives the original length |
| NoiseGate.Wave2Vol | noise_gate.py:11-31 | spread 0, a negative spread and an unknown detect type raise, and nothing else does; the envelope has the input's length |
| NoiseGate.SpreadAt | noise_gate.py:27-29 | entry i of the repeated reduction is the value of block i / spread |
| NoiseGate.PeakEnvelopeAt | noise_gate.py:20-21 | the 'peak' envelope at i is the largest magnitude of i's padded block |
| NoiseGate.RmsEnvelopeAt | noise_gate.py:22-23 | the 'rms' envelope at i, squared, is i's padded block's sum of squares over spread |
| NoiseGate.WindowSplit | noise_gate.py:16-18 | a padded block is its signal samples followed by zeros |
| NoiseGate.WindowAt | noise_gate.py:16-18 | entry k of i's block is the signal sample it covers, or 0 past the signal |
| NoiseGate.RmsCountsPadding | noise_gate.py:23 | 'rms' counts the padding as zeros but still divides by the full spread |
| NoiseGate.Wave2VolBlockConstant | noise_gate_sigma.py:39-59 | the envelope (the same code as noise_gate.py:11-31) is constant on each spread-aligned block, for either detect type |
| NoiseGate.PeakEnvelopeBounds | noise_gate.py:16-21 | the 'peak' envelope is non-negative, at least \|x[i]\|, bounds every magnitude of i's block and is attained there (or is 0) |
| NoiseGate.PeakAboveLevel | noise_gate.py:21 | the peak envelope is above a level exactly when some sample of the block is |
| NoiseGate.BackgroundVolume | noise_gate.py:53-54 | a background band's envelope is wave2vol with spread 1000, which never raises |
| NoiseGate.Calibrate | noise_gate.py:48-54 | the tables hold exactly the non-meta background keys, each with the std and the mean of its band's envelope |
| NoiseGate.GateLevel | noise_gate.py:70 | the level is `bg_mean[key] + bg_sigma[key] * sigma`, and a key that is missing from either table raises KeyError |
| NoiseGate.EnvelopeGate | noise_gate.py:74-77 | sample i is kept where the envelope is above the level and is 0 elsewhere |
| NoiseGate.SigmaGate.constructor | noise_gate.py:38-57 | `__init__` fills `bg_sigma` and `bg_mean` with exactly the non-meta keys and their envelope statistics |
| NoiseGate.SigmaGate.GateSigma | noise_gate.py:59-79 | returns the gated copy of the data, leaving the caller's array alone; a missing key and a non-positive spread raise |
| NoiseGate.CopyGated | noise_gate.py:76-77 | the copy with the masked entries set to 0 |
| NoiseGate.SigmaGateKeepsLoudBlocks | noise_gate.py:70-79 | sample i is kept unchanged exactly when its block has a sample above the level, else it is 0 |
| NoiseGate.SigmaGateIsBlockwise | noise_gate.py:70-79 | the calibrated gate equals the reference block gate, and gating its output again changes nothing |
| NoiseGateSigma.Indicator | noise_gate_sigma.py:76 | the mask is 1 exactly where the magnitude is above the level, else 0 |
| NoiseGateSigma.KeepWhere | noise_gate_sigma.py:81 | samples are kept where the envelope is nonzero and set to 0 elsewhere |
| NoiseGateSigma.MaskGate | noise_gate_sigma.py:73-81 | the gated array has the input's length |
| NoiseGateSigma.MaskGateIsBlockwise | noise_gate_sigma.py:76-81 | the mask envelope is nonzero exactly on the blocks with a sample above the level, so a trailing partial block is judged by its own samples |
| NoiseGateSigma.MaskGateIdempotent | noise_gate_sigma.py:76-81 | gating the gated array again with the same level changes nothing |
| NoiseGateSigma.MaskGateAgreesOnWholeBlocks | noise_gate_sigma.py:42-44 | on whole blocks the mask gate agrees with noisegate.py's gate; a loud trailing partial block is kept here but zeroed there ([1.0] with spread 2) |
| NoiseGateSigma.SigmaGate.constructor | noise_gate_sigma.py:19-25 | `__init__` fills both tables with exactly the non-meta background keys |
| NoiseGateSigma.SigmaGate.NoiseGate | noise_gate_sigma.py:61-83 | zeroes the silent blocks of the caller's array in place and returns that same array; a missing key or a non-positive spread raises with the array unchanged |
| NoiseGateSigma.ZeroSilent | noise_gate_sigma.py:81 | the masked assignment zeroes the entries where the envelope is 0 and leaves the rest |
| NoteRecompose.FileLen | note_recompose.py:9-16 | the length of the first non-meta dataset in key order; with none, `length` is unbound (UnboundLocalError) |
| NoteRecompose.GetFileLen | note_recompose.py:11-16 | the loop with `break` computes FileLen |
| NoteRecompose.AddBand | note_recompose.py:46 | `data += band` adds entry by entry, broadcasts a one-sample band, and raises for any other length |
| NoteRecompose.SumBands | note_recompose.py:38-46 | a successful sum keeps the file length |
| NoteRecompose.SumBandsFailureStays | note_recompose.py:40-46 | a failed addition ends the sum with its error |
| NoteRecompose.MetaNeverContributes | note_recompose.py:42-43 | the sum is the same whatever "meta" holds |
| NoteRecompose.SumBandsColumns | note_recompose.py:40-46 | with bands of the file length, the sum succeeds and entry i is the sum of the bands' entries i |
| NoteRecompose.BandsAfterMeta | note_recompose.py:63 | a file with meta and a band has at least two keys, so the divisor is positive |
| NoteRecompose.Divided | note_recompose.py:63 | `data / d` divides every entry |
| NoteRecompose.AccumulateBands | note_recompose.py:38-46 | the accumulate loop computes SumBands |
| NoteRecompose.Recompose | note_recompose.py:30-65 | recompose up to the wav write computes Recomposed: the missing meta, a meta of the wrong shape, savetype 1 and an unknown savetype raise |
| NoteRecompose.RecomposedAverage | note_recompose.py:36-63 | with savetype 0 and bands of the file length, the output has that length, keeps the sample rate, and entry i is the bands' sum at i over `len(keys) - 1` |
| NoteRecompose.BandCount | note_recompose.py:63 | with "meta" listed once, `len(keys) - 1` is the number of bands |
| NoteRecompose.SumEqualBands | note_recompose.py:40-46 | summing c copies of s gives c * s |
| NoteRecompose.RecomposeEqualBands | note_recompose.py:36-63 | if every band is the same signal s, the recombined output is s |
| NoteRecompose.SaveTypeDispatch | note_recompose.py:48-61 | savetype 1 always raises a NameError, any savetype other than 0 and 1 raises, and a file with no band raises |
| Automid.NextSemitoneCases | automid.py:84 | the semitone above (octave, 11) is (octave + 1, 0), and otherwise it is (octave, noteint + 1) |
| Automid.NextSemitoneOffset | automid.py:84 | the semitone above is exactly one offset higher, for every index |
| Automid.GaussSelect | automid.py:67-95 | a band is always produced, with its mu on the axis |
| Automid.GaussSelectAdjacent | automid.py:81-87 | mu is the bin of the note's offset n, and sigma is width times the bin distance to offset n + 1 |
| Automid.GaussSelectSigma | automid.py:86-87 | on an ascending axis with rising pitches sigma is non-negative for width >= 0, and it is 0 exactly when width is 0 or both notes share a bin; the band is still produced |
| Automid.SigmaMatchesDecomposeAbove | automid.py:84-87 | automid's sigma for a note is note_decompose's sigma for the note above, and it is 0 where note_decompose stops with its sentinel |

## Left out

- FFTs (fft_wrapper.py, the rfft/irfft calls). They are opaque: the stored band
  is a function of `(mu, sigma)`.
- The Gaussian window (math_fun.py, automid.py:51-53) and the linspace axis
  `g_init` (note_decompose.py:139).
- Floating point. `440 * 2^(n/12)` is the opaque `pitch`, and the
  `12 * log2(f / 440)` rounding of freq2note is not modelled: freq2note starts
  from the integer offset.
- NoiseGate.Wave2Vol: the 'rms' envelope omits the final square root, so it is
  the mean square. Its comparisons with a level are not those of the root.
- NoiseGate.Calibrate: `np.std` and `np.mean` are parameters. The model does
  not give them numpy's definitions.
- NoiseGate.SigmaGate.constructor and NoiseGateSigma.SigmaGate.constructor: the
  background decomposition and the HDF5 read (noise_gate.py:39-43,
  noise_gate_sigma.py:10-14) are outside the model. The constructor takes the
  background store as already read.
- TableStore: a reader's key order is the `keys` of the store it is given. h5py
  lists keys by name, while `TableFile` keeps creation order.
- NoteDecompose.StereoToMono: arrays of rank above 2 (note_decompose.py:65-66)
  are not modelled. The sample array is rank 1 or rank 2.
- NoteDecompose.Decompose: the wav read and the `decompose` object's fields are
  parameters. The debugging `freq2note`/print calls (note_decompose.py:96-98,
  165) are not modelled.
- NoteDecompose.Decompose: for savetype 1 the selected band is complex, and
  `create_dataset(..., dtype=np.float64)` (note_decompose.py:162) must convert
  it to float64. The model does not decide whether h5py accepts that
  conversion or raises at the first band. It stores the band as a real
  sequence (`specBand`).
- NoteDecompose.Decompose: `octaves` is a pair `(lo, hi)` for
  `range(*self.octaves)` (note_decompose.py:142). The three-element form with a
  step is not modelled.
- NoteRecompose.Recompose: the wav write (note_recompose.py:67) is not
  modelled. The method returns the sample rate and the samples it would write,
  and `np.real(x) + np.imag(x)` is the identity on real samples.
- NoteRecompose.Recompose: the savetype-1 path is modelled only as the
  NameError that its undefined `fourier_data` raises, not as a working inverse
  transform.
- BlockGate.NoiseGateRelAsWritten: NaN samples in the input and a NaN maximum
  are not modelled. The model's zero-maximum case already returns NotANumber.
- `split2wav` (note_recompose.py:71-120) is not modelled. Its parameter is
  `file_in`, but it opens an undefined `in_file` and fails.
- `noise_gate_PWVD` (noise_gate.py:91-120) is not modelled. It needs the
  optional tftb library and refers to the undefined names `tbtb` and `volume`.
- automid.py's `stereo2mono`, `main` and its FFT calls are not modelled.
  `stereo2mono`'s first test is `len(d.shape == 1)`, which raises, so `main`
  fails as well.
- The `input` prompts (`cmdline_recomp`, automid's `ask_input`) are not
  modelled. They are console I/O.
- main.py and plot_wav.py are scripts around the core.
- Thread counts (`n_cpu`, `threads=`) are not modelled. They are performance
  hints to the FFT library.

## Findings

| source | as written | input that shows it | evidently intended | confidence | as-written member | corrected member |
|---|---|---|---|---|---|---|
| noisegate.py:57 | `noisegate(level, data, spread)` passes the caller's spread into `mult`, so the block size is always the default 10 | level 0.5, data [1.0, 0.25, 0.25, 0.25], spread 2: the signal is shorter than one 10-sample block and comes back as zeros | `noisegate(level, data, spread=spread)`: the first 2-sample block holds the maximum and is kept | high; not executed | BlockGate.NoiseGateRelAsWritten | BlockGate.NoiseGateRel |
