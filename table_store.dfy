/** The HDF5 table store the decomposition is written to and read from:
    named one-dimensional datasets, one of them the reserved key "meta". */
module TableStore {

  /** The reserved key of the metadata record `[savetype, sample_rate]`. */
  const MetaKey: string := "meta"

  /** An opened file as its readers see it: `fp.keys()` in the order the store
      lists them, and each dataset's values. */
  datatype Store = Store(keys: seq<string>, data: map<string, seq<real>>)

  /** Every dataset is listed exactly once. */
  ghost predicate WellFormed(fp: Store)
  {
    && (forall i, j :: 0 <= i < j < |fp.keys| ==> fp.keys[i] != fp.keys[j])
    && (forall k :: k in fp.data <==> k in fp.keys)
  }

  /** A file opened for writing (`h5py.File(name, 'w')`): the datasets created so
      far, in creation order, and their values. */
  class TableFile {
    var names: seq<string>
    var data: map<string, seq<real>>

    ghost predicate Valid()
      reads this
    {
      WellFormed(Store(names, data))
    }

    /** Mode 'w' truncates: a new file holds no dataset. */
    constructor ()
      ensures Valid() && names == [] && data == map[]
    {
      names := [];
      data := map[];
    }

    /** `fp.create_dataset(name, data=values)`; h5py refuses a name that already exists. */
    method CreateDataset(name: string, values: seq<real>) returns (ok: bool)
      requires Valid()
      modifies this
      ensures Valid()
      ensures ok <==> name !in old(data)
      ensures ok ==> names == old(names) + [name] && data == old(data)[name := values]
      ensures !ok ==> names == old(names) && data == old(data)
    {
      ok := name !in data;
      if ok {
        names := names + [name];
        data := data[name := values];
      }
    }

  }
}
