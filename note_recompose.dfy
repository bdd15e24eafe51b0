/** The recombination of note_recompose.py: the bands of a decomposition file
    (savetype 0, one time-domain band per note) are summed and divided by the
    number of bands. The file is read as a `TableStore.Store`; writing the wav
    file is left out, so the result is the sample rate and the samples that
    would be written. */
module NoteRecompose {
  import opened Outcomes
  import opened Samples
  import TableStore

  /** Every listed key can be read. */
  ghost predicate Readable(keys: seq<string>, data: map<string, seq<real>>)
  {
    forall i :: 0 <= i < |keys| ==> keys[i] in data
  }

  // ---------------------------------------------------------------- get_file_len

  /** The length of the first non-meta dataset in key order; with none, `length`
      is never bound and Python raises UnboundLocalError. */
  function FileLen(keys: seq<string>, data: map<string, seq<real>>): (r: Result<nat>)
    requires Readable(keys, data)
    ensures r.Failure? <==> forall i :: 0 <= i < |keys| ==> keys[i] == TableStore.MetaKey
    ensures r.Failure? ==> r.error == UndefinedName
    ensures r.Success? ==> exists i :: && 0 <= i < |keys| && keys[i] != TableStore.MetaKey
                                       && (forall j :: 0 <= j < i ==> keys[j] == TableStore.MetaKey)
                                       && r.value == |data[keys[i]]|
  {
    if keys == [] then Failure(UndefinedName)
    else if keys[0] != TableStore.MetaKey then Success(|data[keys[0]]|)
    else
      var rest := FileLen(keys[1..], data);
      assert forall i :: 1 <= i < |keys| ==> keys[i] == keys[1..][i - 1];
      if rest.Success? then
        ghost var i :| && 0 <= i < |keys[1..]| && keys[1..][i] != TableStore.MetaKey
                       && (forall j :: 0 <= j < i ==> keys[1..][j] == TableStore.MetaKey)
                       && rest.value == |data[keys[1..][i]]|;
        assert keys[i + 1] != TableStore.MetaKey && forall j :: 0 <= j < i + 1 ==> keys[j] == TableStore.MetaKey;
        rest
      else rest
  }

  /** get_file_len(fp): the loop over the keys that breaks at the first non-meta key. */
  method GetFileLen(fp: TableStore.Store) returns (r: Result<nat>)
    requires TableStore.WellFormed(fp)
    ensures r == FileLen(fp.keys, fp.data)
  {
    var i := 0;
    while i < |fp.keys|
      invariant 0 <= i <= |fp.keys|
      invariant forall j :: 0 <= j < i ==> fp.keys[j] == TableStore.MetaKey
      invariant FileLen(fp.keys, fp.data) == FileLen(fp.keys[i..], fp.data)
    {
      var key := fp.keys[i];
      if key != TableStore.MetaKey {
        return Success(|fp.data[key]|);
      }
      assert fp.keys[i..][1..] == fp.keys[i + 1..];
      i := i + 1;
    }
    return Failure(UndefinedName);
  }

  // ---------------------------------------------------------------- the sum

  /** `data += band` on numpy arrays: equal lengths add entry by entry, a band of
      one sample is broadcast to every entry, and any other length cannot be
      added in place. */
  function AddBand(acc: seq<real>, band: seq<real>): (r: Result<seq<real>>)
    ensures r.Failure? <==> |band| != |acc| && |band| != 1
    ensures r.Failure? ==> r.error == BadShape
    ensures r.Success? ==> |r.value| == |acc|
    ensures r.Success? && |band| == |acc| ==> forall i :: 0 <= i < |acc| ==> r.value[i] == acc[i] + band[i]
    ensures r.Success? && |band| == 1 ==> forall i :: 0 <= i < |acc| ==> r.value[i] == acc[i] + band[0]
  {
    if |band| == |acc| then Success(seq(|acc|, i requires 0 <= i < |acc| => acc[i] + band[i]))
    else if |band| == 1 then Success(seq(|acc|, i requires 0 <= i < |acc| => acc[i] + band[0]))
    else Failure(BadShape)
  }

  /** The accumulator after the loop has visited `keys`, starting from `n` zeros:
      "meta" is skipped and the first band that cannot be added stops the sum. */
  function SumBands(n: nat, keys: seq<string>, data: map<string, seq<real>>): (r: Result<seq<real>>)
    requires Readable(keys, data)
    ensures r.Success? ==> |r.value| == n
  {
    if keys == [] then Success(Zeros(n))
    else
      var prev := SumBands(n, keys[..|keys| - 1], data);
      var key := keys[|keys| - 1];
      if prev.Failure? || key == TableStore.MetaKey then prev
      else AddBand(prev.value, data[key])
  }

  /** Once the sum has failed it stays failed with the same error. */
  lemma {:induction false} SumBandsFailureStays(n: nat, keys: seq<string>, data: map<string, seq<real>>, j: nat)
    requires Readable(keys, data) && j <= |keys|
    requires SumBands(n, keys[..j], data).Failure?
    ensures SumBands(n, keys, data) == SumBands(n, keys[..j], data)
  {
    if j < |keys| {
      assert keys[..|keys| - 1][..j] == keys[..j];
      SumBandsFailureStays(n, keys[..|keys| - 1], data, j);
    } else {
      assert keys[..j] == keys;
    }
  }

  /** The "meta" dataset never enters the sum, whatever it holds. */
  lemma {:induction false} MetaNeverContributes(n: nat, keys: seq<string>, data: map<string, seq<real>>, meta: seq<real>)
    requires Readable(keys, data)
    ensures Readable(keys, data[TableStore.MetaKey := meta])
    ensures SumBands(n, keys, data[TableStore.MetaKey := meta]) == SumBands(n, keys, data)
  {
    if keys != [] {
      MetaNeverContributes(n, keys[..|keys| - 1], data, meta);
    }
  }

  /** The non-meta keys among `keys`. */
  function BandKeys(keys: seq<string>): (b: seq<string>)
    ensures |b| <= |keys|
    ensures forall i :: 0 <= i < |b| ==> b[i] != TableStore.MetaKey
  {
    if keys == [] then []
    else
      var prev := BandKeys(keys[..|keys| - 1]);
      if keys[|keys| - 1] == TableStore.MetaKey then prev else prev + [keys[|keys| - 1]]
  }

  /** Entry `i` summed over the non-meta bands. */
  function ColumnSum(keys: seq<string>, data: map<string, seq<real>>, i: nat): real
    requires Readable(keys, data)
    requires forall j :: 0 <= j < |keys| && keys[j] != TableStore.MetaKey ==> i < |data[keys[j]]|
  {
    if keys == [] then 0.0
    else
      var prev := ColumnSum(keys[..|keys| - 1], data, i);
      var key := keys[|keys| - 1];
      if key == TableStore.MetaKey then prev else prev + data[key][i]
  }

  /** When every band has the file's length the sum succeeds and holds, entry by
      entry, the sum of the bands. */
  lemma {:induction false} SumBandsColumns(n: nat, keys: seq<string>, data: map<string, seq<real>>)
    requires Readable(keys, data)
    requires forall j :: 0 <= j < |keys| && keys[j] != TableStore.MetaKey ==> |data[keys[j]]| == n
    ensures SumBands(n, keys, data).Success?
    ensures forall i :: 0 <= i < n ==> SumBands(n, keys, data).value[i] == ColumnSum(keys, data, i)
  {
    if keys != [] {
      SumBandsColumns(n, keys[..|keys| - 1], data);
    }
  }

  lemma MulSucc(c: nat, x: real)
    ensures x * ((c + 1) as real) == x * (c as real) + x
  {
  }

  // ---------------------------------------------------------------- recompose

  /** What recompose writes: the sample rate and `data / (len(fp.keys()) - 1)`. A
      file without "meta" or whose meta record does not unpack into two values
      raises; savetype 1 reads `fourier_data`, which is never bound; any other
      savetype but 0 raises. `np.real(x) + np.imag(x)` is the identity on real
      samples. */
  function Recomposed(fp: TableStore.Store): (r: Result<(real, seq<real>)>)
    requires TableStore.WellFormed(fp)
  {
    if TableStore.MetaKey !in fp.data then Failure(MissingKey(TableStore.MetaKey))
    else
      var meta := fp.data[TableStore.MetaKey];
      if |meta| != 2 then Failure(BadShape)
      else if meta[0] == 0.0 then
        match FileLen(fp.keys, fp.data)
        case Failure(e) => Failure(e)
        case Success(n) =>
          match SumBands(n, fp.keys, fp.data)
          case Failure(e) => Failure(e)
          case Success(data) =>
            BandsAfterMeta(fp);
            Success((meta[1], Divided(data, |fp.keys| - 1)))
      else if meta[0] == 1.0 then
        match FileLen(fp.keys, fp.data)
        case Failure(e) => Failure(e)
        case Success(_) => Failure(UndefinedName)
      else Failure(UnknownSaveType)
  }

  /** A readable band besides "meta" means at least two keys, so the divisor
      `len(keys) - 1` is positive. */
  lemma BandsAfterMeta(fp: TableStore.Store)
    requires TableStore.WellFormed(fp) && TableStore.MetaKey in fp.data
    requires FileLen(fp.keys, fp.data).Success?
    ensures |fp.keys| >= 2
  {
    var j :| 0 <= j < |fp.keys| && fp.keys[j] != TableStore.MetaKey;
    var k :| 0 <= k < |fp.keys| && fp.keys[k] == TableStore.MetaKey;
    assert j != k;
  }

  /** `data / d` */
  function Divided(data: seq<real>, d: int): (r: seq<real>)
    requires d > 0
    ensures |r| == |data| && forall i :: 0 <= i < |data| ==> r[i] == data[i] / (d as real)
  {
    seq(|data|, i requires 0 <= i < |data| => data[i] / (d as real))
  }

  /** The savetype-0 loop: `data = np.zeros(n)`, then `data += fp[key]` for every
      key but "meta". */
  method AccumulateBands(fp: TableStore.Store, n: nat) returns (r: Result<seq<real>>)
    requires TableStore.WellFormed(fp)
    ensures r == SumBands(n, fp.keys, fp.data)
  {
    var data := Zeros(n);
    var i := 0;
    while i < |fp.keys|
      invariant 0 <= i <= |fp.keys|
      invariant SumBands(n, fp.keys[..i], fp.data) == Success(data)
    {
      var key := fp.keys[i];
      assert fp.keys[..i + 1][..i] == fp.keys[..i];
      if key != TableStore.MetaKey {
        var next := AddBand(data, fp.data[key]);
        if next.Failure? {
          SumBandsFailureStays(n, fp.keys, fp.data, i + 1);
          return Failure(next.error);
        }
        data := next.value;
      }
      i := i + 1;
    }
    assert fp.keys[..i] == fp.keys;
    r := Success(data);
  }

  /** recompose(in_file, out_file) up to the wav write. */
  method Recompose(fp: TableStore.Store) returns (r: Result<(real, seq<real>)>)
    requires TableStore.WellFormed(fp)
    ensures r == Recomposed(fp)
  {
    if TableStore.MetaKey !in fp.data {
      return Failure(MissingKey(TableStore.MetaKey));
    }
    var meta := fp.data[TableStore.MetaKey];
    if |meta| != 2 {
      return Failure(BadShape);
    }
    var savetype, sampleRate := meta[0], meta[1];
    if savetype == 0.0 {
      var len := GetFileLen(fp);
      if len.Failure? {
        return Failure(len.error);
      }
      var data := AccumulateBands(fp, len.value);
      if data.Failure? {
        return Failure(data.error);
      }
      BandsAfterMeta(fp);
      r := Success((sampleRate, Divided(data.value, |fp.keys| - 1)));
    } else if savetype == 1.0 {
      var len := GetFileLen(fp);
      if len.Failure? {
        return Failure(len.error);
      }
      r := Failure(UndefinedName);
    } else {
      r := Failure(UnknownSaveType);
    }
  }

  /** With savetype 0 and bands of the file's length, the output has that length
      and entry `i` is the sum of the bands' entries over `len(keys) - 1`. */
  lemma RecomposedAverage(fp: TableStore.Store, i: nat)
    requires TableStore.WellFormed(fp) && TableStore.MetaKey in fp.data
    requires |fp.data[TableStore.MetaKey]| == 2 && fp.data[TableStore.MetaKey][0] == 0.0
    requires FileLen(fp.keys, fp.data).Success? && i < FileLen(fp.keys, fp.data).value
    requires forall j :: 0 <= j < |fp.keys| && fp.keys[j] != TableStore.MetaKey ==>
      |fp.data[fp.keys[j]]| == FileLen(fp.keys, fp.data).value
    ensures Recomposed(fp).Success?
    ensures |Recomposed(fp).value.1| == FileLen(fp.keys, fp.data).value
    ensures Recomposed(fp).value.0 == fp.data[TableStore.MetaKey][1]
    ensures Recomposed(fp).value.1[i] == ColumnSum(fp.keys, fp.data, i) / ((|fp.keys| - 1) as real)
  {
    SumBandsColumns(FileLen(fp.keys, fp.data).value, fp.keys, fp.data);
  }

  /** "meta" is listed exactly once, so `len(keys) - 1` counts the bands. */
  lemma BandCount(keys: seq<string>)
    requires forall i, j :: 0 <= i < j < |keys| ==> keys[i] != keys[j]
    requires TableStore.MetaKey in keys
    ensures |BandKeys(keys)| == |keys| - 1
  {
    var k :| 0 <= k < |keys| && keys[k] == TableStore.MetaKey;
    BandCountFrom(keys, k);
  }

  lemma {:induction false} BandCountFrom(keys: seq<string>, k: nat)
    requires k < |keys| && keys[k] == TableStore.MetaKey
    requires forall j :: 0 <= j < |keys| && j != k ==> keys[j] != TableStore.MetaKey
    ensures |BandKeys(keys)| == |keys| - 1
  {
    var last := |keys| - 1;
    if k == last {
      BandKeysNoMeta(keys[..last]);
    } else {
      BandCountFrom(keys[..last], k);
    }
  }

  lemma {:induction false} BandKeysNoMeta(keys: seq<string>)
    requires forall j :: 0 <= j < |keys| ==> keys[j] != TableStore.MetaKey
    ensures |BandKeys(keys)| == |keys|
  {
    if keys != [] {
      BandKeysNoMeta(keys[..|keys| - 1]);
    }
  }

  /** If every band is the same signal `s`, recomposing gives `s` back. */
  lemma RecomposeEqualBands(fp: TableStore.Store, s: seq<real>)
    requires TableStore.WellFormed(fp) && TableStore.MetaKey in fp.data
    requires |fp.data[TableStore.MetaKey]| == 2 && fp.data[TableStore.MetaKey][0] == 0.0
    requires exists j :: 0 <= j < |fp.keys| && fp.keys[j] != TableStore.MetaKey
    requires forall j :: 0 <= j < |fp.keys| && fp.keys[j] != TableStore.MetaKey ==> fp.data[fp.keys[j]] == s
    ensures Recomposed(fp) == Success((fp.data[TableStore.MetaKey][1], s))
  {
    FileLenEqualBands(fp.keys, fp.data, s);
    BandCount(fp.keys);
    BandsAfterMeta(fp);
    SumEqualBands(fp.keys, fp.data, s);
    DividedCopies(|fp.keys| - 1, s);
  }

  /** With some band present and every band equal to `s`, the file length is |s|. */
  lemma FileLenEqualBands(keys: seq<string>, data: map<string, seq<real>>, s: seq<real>)
    requires Readable(keys, data)
    requires exists j :: 0 <= j < |keys| && keys[j] != TableStore.MetaKey
    requires forall j :: 0 <= j < |keys| && keys[j] != TableStore.MetaKey ==> data[keys[j]] == s
    ensures FileLen(keys, data) == Success(|s|)
  {
  }

  /** Summing copies of `s` gives (number of bands) * s. */
  lemma {:induction false} SumEqualBands(keys: seq<string>, data: map<string, seq<real>>, s: seq<real>)
    requires Readable(keys, data)
    requires forall j :: 0 <= j < |keys| && keys[j] != TableStore.MetaKey ==> data[keys[j]] == s
    ensures SumBands(|s|, keys, data) == Success(Scaled(s, |BandKeys(keys)| as real))
  {
    if keys == [] {
      assert Zeros(|s|) == Scaled(s, 0.0);
    } else {
      var init, key := keys[..|keys| - 1], keys[|keys| - 1];
      SumEqualBands(init, data, s);
      if key != TableStore.MetaKey {
        AddCopy(|BandKeys(init)|, s);
      }
    }
  }

  lemma AddCopy(c: nat, s: seq<real>)
    ensures AddBand(Scaled(s, c as real), s) == Success(Scaled(s, (c + 1) as real))
  {
    forall i | 0 <= i < |s|
      ensures Scaled(s, c as real)[i] + s[i] == Scaled(s, (c + 1) as real)[i]
    {
      MulSucc(c, s[i]);
    }
    assert AddBand(Scaled(s, c as real), s).value == Scaled(s, (c + 1) as real);
  }

  /** Dividing `s * c` by `c` gives `s` back. */
  lemma DividedCopies(c: nat, s: seq<real>)
    requires c > 0
    ensures Divided(Scaled(s, c as real), c) == s
  {
    forall i | 0 <= i < |s|
      ensures Divided(Scaled(s, c as real), c)[i] == s[i]
    {
      CancelCount(s[i], c);
    }
  }

  lemma CancelCount(a: real, c: int)
    requires c > 0
    ensures a * (c as real) / (c as real) == a
  {
  }

  /** The savetype decides the path: 1 always fails because `fourier_data` is
      never bound, and a value that is neither 0 nor 1 raises. */
  lemma SaveTypeDispatch(fp: TableStore.Store)
    requires TableStore.WellFormed(fp) && TableStore.MetaKey in fp.data
    requires |fp.data[TableStore.MetaKey]| == 2
    ensures fp.data[TableStore.MetaKey][0] == 1.0 ==> Recomposed(fp) == Failure(UndefinedName)
    ensures fp.data[TableStore.MetaKey][0] != 0.0 && fp.data[TableStore.MetaKey][0] != 1.0 ==>
      Recomposed(fp) == Failure(UnknownSaveType)
    ensures FileLen(fp.keys, fp.data).Failure? ==>
      Recomposed(fp).Failure? && (fp.data[TableStore.MetaKey][0] == 0.0 ==> Recomposed(fp) == Failure(UndefinedName))
  {
  }
}
