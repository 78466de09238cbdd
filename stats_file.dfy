/**
 * The stats file shared by the three generations of `TrackLog`: loading it, the first-match merge that
 * `save_to_file` performs, and the `retain` that `delete_from_file` performs. Each generation supplies the
 * record type `T`, the function giving a record's `process_name` and the way a stored record is overwritten.
 */
module StatsFile {
  import opened Wrappers
  import Seqs

  /** Why a load or a save of the stats file failed. */
  datatype IoError = NotFound | Malformed | WriteFailed

  /**
   * The stats file: missing, whitespace only, a list of records that parses, or content that does not
   * parse as a list of records.
   */
  datatype File<T> = Absent | Blank | Stored(records: seq<T>) | Corrupt

  /** What the file system does with the `File::create` and the `fs::write` of one save or delete. */
  datatype FsOutcome = FsOutcome(createOk: bool, writeOk: bool)

  /** `get_stats_from_file`: a missing or unparsable file is an error, a blank one is empty. */
  function Load<T>(f: File<T>): (r: Result<seq<T>, IoError>)
    ensures r.Err? <==> f.Absent? || f.Corrupt?
    ensures f.Absent? ==> r == Err(NotFound)
    ensures f.Blank? ==> r == Ok([])
    ensures f.Stored? ==> r == Ok(f.records)
  {
    match f
    case Absent => Err(NotFound)
    case Blank => Ok([])
    case Stored(records) => Ok(records)
    case Corrupt => Err(Malformed)
  }

  /** No two records share a key. */
  ghost predicate UniqueKeys<T>(s: seq<T>, key: T -> string) {
    forall i, j :: 0 <= i < j < |s| ==> key(s[i]) != key(s[j])
  }

  /** The index of the first record whose key is `k`, if any. */
  function FirstIndexOf<T>(s: seq<T>, key: T -> string, k: string): (r: Option<nat>)
    ensures r.Some? ==> r.value < |s| && key(s[r.value]) == k
    ensures r.Some? ==> forall j :: 0 <= j < r.value ==> key(s[j]) != k
    ensures r.None? <==> forall j :: 0 <= j < |s| ==> key(s[j]) != k
  {
    if |s| == 0 then None
    else if key(s[0]) == k then Some(0)
    else match FirstIndexOf(s[1..], key, k)
      case None => None
      case Some(i) => Some(i + 1)
  }

  /** Any index holding key `k` with no earlier `k` is the one `FirstIndexOf` finds. */
  lemma FirstIndexOfIsFirst<T>(s: seq<T>, key: T -> string, k: string, i: nat)
    requires i < |s| && key(s[i]) == k
    requires forall j :: 0 <= j < i ==> key(s[j]) != k
    ensures FirstIndexOf(s, key, k) == Some(i)
  {
  }

  /**
   * The merge of `save_to_file`: overwrite the first stored record with the same key as `self`,
   * or append `self` when there is none.
   */
  function Merge<T>(prev: seq<T>, self: T, key: T -> string, overwrite: (T, T) -> T): seq<T> {
    match FirstIndexOf(prev, key, key(self))
    case Some(i) => prev[i := overwrite(prev[i], self)]
    case None => prev + [self]
  }

  /** The records `save_to_file` starts from, and the file after its `File::create` fallback. */
  function LoadForSave<T>(file: File<T>, fs: FsOutcome): (seq<T>, File<T>) {
    match Load(file)
    case Ok(data) => (data, file)
    case Err(_) => ([], if fs.createOk then Blank else file)
  }

  /** Result and resulting file of `save_to_file`. */
  function Saved<T>(file: File<T>, self: T, key: T -> string, overwrite: (T, T) -> T, fs: FsOutcome)
    : (r: (Result<(), IoError>, File<T>))
    ensures r.0.Ok? <==> fs.writeOk
    ensures r.0.Err? ==> r.0.error == WriteFailed
    ensures fs.writeOk ==> r.1 == Stored(Merge(Load(file).GetOr([]), self, key, overwrite))
    ensures !fs.writeOk && Load(file).Ok? ==> r.1 == file
  {
    var (prev, created) := LoadForSave(file, fs);
    if fs.writeOk then (Ok(()), Stored(Merge(prev, self, key, overwrite)))
    else (Err(WriteFailed), created)
  }

  /**
   * `save_to_file`: load (an unreadable file counts as empty and is re-created), walk the records with
   * an index and an `is_in_file` flag, overwrite the first match or push `self`, then write the whole list.
   */
  method SaveToFile<T>(file: File<T>, self: T, key: T -> string, overwrite: (T, T) -> T, fs: FsOutcome)
    returns (result: Result<(), IoError>, after: File<T>)
    ensures (result, after) == Saved(file, self, key, overwrite, fs)
  {
    var prevStats: seq<T>;
    match Load(file) {
      case Ok(data) =>
        prevStats := data;
        after := file;
      case Err(_) =>
        prevStats := [];
        after := if fs.createOk then Blank else file;
    }
    ghost var loaded := prevStats;
    var isInFile := false;
    var ind := 0;
    while ind < |prevStats|
      invariant 0 <= ind <= |prevStats| == |loaded|
      invariant !isInFile
      invariant prevStats == loaded
      invariant forall j :: 0 <= j < ind ==> key(loaded[j]) != key(self)
    {
      if key(prevStats[ind]) == key(self) {
        FirstIndexOfIsFirst(loaded, key, key(self), ind);
        prevStats := prevStats[ind := overwrite(prevStats[ind], self)];
        isInFile := true;
        break;
      } else {
        isInFile := false;
      }
      ind := ind + 1;
    }
    if !isInFile {
      prevStats := prevStats + [self];
    }
    if fs.writeOk {
      result := Ok(());
      after := Stored(prevStats);
    } else {
      result := Err(WriteFailed);
    }
  }

  /** The filter of `delete_from_file`: keep the records whose key is not `k`. */
  function OtherKey<T>(key: T -> string, k: string): T -> bool {
    x => key(x) != k
  }

  /**
   * Result and resulting file of `delete_from_file`: a load error is returned and nothing is written; a
   * failed delete never changes the file, and a successful one leaves no record with key `k`.
   */
  function Deleted<T>(file: File<T>, key: T -> string, k: string, fs: FsOutcome): (r: (Result<(), IoError>, File<T>))
    ensures r.0.Ok? <==> Load(file).Ok? && fs.writeOk
    ensures Load(file).Err? ==> r.0 == Err(Load(file).error)
    ensures r.0.Err? ==> r.1 == file
    ensures r.0.Ok? ==> r.1 == Stored(Seqs.Filter(Load(file).value, OtherKey(key, k)))
    ensures r.0.Ok? ==> forall i :: 0 <= i < |r.1.records| ==> key(r.1.records[i]) != k
  {
    match Load(file)
    case Err(e) => (Err(e), file)
    case Ok(prev) =>
      if fs.writeOk then
        Seqs.FilterAllKept(prev, OtherKey(key, k));
        (Ok(()), Stored(Seqs.Filter(prev, OtherKey(key, k))))
      else (Err(WriteFailed), file)
  }

  /** The filter of `get_tracked_procs_by_user`: keep the records owned by `user`. */
  function OwnedBy<T>(owner: T -> string, user: string): T -> bool {
    x => owner(x) == user
  }

  /** `get_tracked_procs_by_user`: the records whose owner is `user`, in file order. */
  function RecordsOf<T>(file: File<T>, owner: T -> string, user: string): (r: Result<seq<T>, IoError>)
    ensures r.Err? <==> Load(file).Err?
    ensures r.Err? ==> r == Load(file)
    ensures file.Blank? ==> r == Ok([])
    ensures r.Ok? ==> |r.value| <= |Load(file).value|
  {
    match Load(file)
    case Err(e) => Err(e)
    case Ok(records) => Ok(Seqs.Filter(records, OwnedBy(owner, user)))
  }

  /** The load error passes through; otherwise exactly the records of `user` are kept (in file order, as `Filter` keeps them). */
  lemma RecordsOfMembership<T>(file: File<T>, owner: T -> string, user: string)
    ensures RecordsOf(file, owner, user).Err? <==> Load(file).Err?
    ensures RecordsOf(file, owner, user).Ok? ==>
      forall x :: x in RecordsOf(file, owner, user).value <==> x in Load(file).value && owner(x) == user
  {
    if Load(file).Ok? {
      forall x ensures x in RecordsOf(file, owner, user).value <==> x in Load(file).value && owner(x) == user {
        Seqs.FilterMembership(Load(file).value, OwnedBy(owner, user), x);
      }
    }
  }

  // ----- Properties of the merge -----

  /** With a stored match, only the first match changes and the length stays the same. */
  lemma MergeOverwritesFirstMatch<T>(prev: seq<T>, self: T, key: T -> string, overwrite: (T, T) -> T, i: nat)
    requires i < |prev| && key(prev[i]) == key(self)
    requires forall j :: 0 <= j < i ==> key(prev[j]) != key(self)
    ensures |Merge(prev, self, key, overwrite)| == |prev|
    ensures Merge(prev, self, key, overwrite)[i] == overwrite(prev[i], self)
    ensures forall j :: 0 <= j < |prev| && j != i ==> Merge(prev, self, key, overwrite)[j] == prev[j]
  {
    FirstIndexOfIsFirst(prev, key, key(self), i);
  }

  /** Without a stored match, `self` is appended unchanged at the end. */
  lemma MergeAppendsWhenAbsent<T>(prev: seq<T>, self: T, key: T -> string, overwrite: (T, T) -> T)
    requires forall j :: 0 <= j < |prev| ==> key(prev[j]) != key(self)
    ensures Merge(prev, self, key, overwrite) == prev + [self]
  {
  }

  /** Merging never duplicates a key: a collection with unique keys keeps them unique. */
  lemma MergeKeepsKeysUnique<T>(prev: seq<T>, self: T, key: T -> string, overwrite: (T, T) -> T)
    requires UniqueKeys(prev, key)
    requires forall a, b :: key(overwrite(a, b)) == key(a)
    ensures UniqueKeys(Merge(prev, self, key, overwrite), key)
  {
    var m := Merge(prev, self, key, overwrite);
    match FirstIndexOf(prev, key, key(self))
    case Some(i) =>
      forall p, q | 0 <= p < q < |m| ensures key(m[p]) != key(m[q]) {
        assert key(m[p]) == key(prev[p]) && key(m[q]) == key(prev[q]);
      }
    case None =>
      forall p, q | 0 <= p < q < |m| ensures key(m[p]) != key(m[q]) {
        if q == |prev| {
          assert m[q] == self && m[p] == prev[p];
        }
      }
  }

  /** Merging keeps every key that was stored and adds the key of `self`. */
  lemma MergeKeepsKeys<T>(prev: seq<T>, self: T, key: T -> string, overwrite: (T, T) -> T, k: string)
    requires forall a, b :: key(overwrite(a, b)) == key(a)
    requires FirstIndexOf(prev, key, k).Some? || k == key(self)
    ensures FirstIndexOf(Merge(prev, self, key, overwrite), key, k).Some?
  {
    var m := Merge(prev, self, key, overwrite);
    if FirstIndexOf(prev, key, k).Some? {
      var j := FirstIndexOf(prev, key, k).value;
      assert key(m[j]) == k;
    } else {
      MergeThenFind(prev, self, key, overwrite);
    }
  }

  /** The merged record is the first one with its key, whether it was overwritten or appended. */
  lemma MergeThenFind<T>(prev: seq<T>, self: T, key: T -> string, overwrite: (T, T) -> T)
    requires forall a, b :: key(overwrite(a, b)) == key(a)
    ensures var m := Merge(prev, self, key, overwrite);
      && FirstIndexOf(m, key, key(self)).Some?
      && var i := FirstIndexOf(m, key, key(self)).value;
      && (FirstIndexOf(prev, key, key(self)).Some? ==> i < |prev| && m[i] == overwrite(prev[i], self))
      && (FirstIndexOf(prev, key, key(self)).None? ==> i == |prev| && m[i] == self)
  {
    var m := Merge(prev, self, key, overwrite);
    match FirstIndexOf(prev, key, key(self))
    case Some(i) =>
      assert key(m[i]) == key(self);
      FirstIndexOfIsFirst(m, key, key(self), i);
    case None =>
      assert m[|prev|] == self;
      FirstIndexOfIsFirst(m, key, key(self), |prev|);
  }

  // ----- Properties of save and delete -----

  /**
   * Round trip of `save_to_file`: after a successful write, loading finds the saved record first under its
   * key, overwritten from `self` when a stored record matched and equal to `self` otherwise; a file that
   * could not be loaded counts as empty.
   */
  lemma SaveThenLoad<T>(file: File<T>, self: T, key: T -> string, overwrite: (T, T) -> T, fs: FsOutcome)
    requires forall a, b :: key(overwrite(a, b)) == key(a)
    requires fs.writeOk
    ensures var (r, after) := Saved(file, self, key, overwrite, fs);
      && r.Ok? && Load(after).Ok?
      && var prev := Load(file).GetOr([]);
      && var m := Load(after).value;
      && FirstIndexOf(m, key, key(self)).Some?
      && var i := FirstIndexOf(m, key, key(self)).value;
      && (FirstIndexOf(prev, key, key(self)).Some? ==> |m| == |prev| && m[i] == overwrite(prev[i], self))
      && (FirstIndexOf(prev, key, key(self)).None? ==> m == prev + [self] && m[i] == self)
  {
    var prev := Load(file).GetOr([]);
    assert LoadForSave(file, fs).0 == prev;
    MergeThenFind(prev, self, key, overwrite);
  }

  /** A failed write leaves the file as the load left it; an unreadable file may have been re-created blank. */
  lemma SaveWriteFailure<T>(file: File<T>, self: T, key: T -> string, overwrite: (T, T) -> T, fs: FsOutcome)
    requires !fs.writeOk
    ensures var (r, after) := Saved(file, self, key, overwrite, fs);
      && r == Err(WriteFailed)
      && (Load(file).Ok? ==> after == file)
      && (Load(file).Err? ==> after == (if fs.createOk then Blank else file))
  {
  }

  /**
   * `delete_from_file` removes every record with key `k` and keeps every other one, in order (the stored
   * list is the filter of the loaded one); a load error is returned with the file untouched.
   */
  lemma DeleteRemovesEveryMatch<T>(file: File<T>, key: T -> string, k: string, fs: FsOutcome)
    ensures var (r, after) := Deleted(file, key, k, fs);
      && (Load(file).Err? ==> r == Err(Load(file).error) && after == file)
      && (Load(file).Ok? && fs.writeOk ==>
            r.Ok? && Load(after).Ok?
            && Load(after).value == Seqs.Filter(Load(file).value, OtherKey(key, k))
            && (forall x :: x in Load(after).value <==> x in Load(file).value && key(x) != k)
            && (forall i :: 0 <= i < |Load(after).value| ==> key(Load(after).value[i]) != k))
  {
    if Load(file).Ok? && fs.writeOk {
      var prev := Load(file).value;
      forall x ensures x in Seqs.Filter(prev, OtherKey(key, k)) <==> x in prev && key(x) != k {
        Seqs.FilterMembership(prev, OtherKey(key, k), x);
      }
      Seqs.FilterAllKept(prev, OtherKey(key, k));
    }
  }

  /** Deleting a key that no stored record has rewrites the same records. */
  lemma DeleteAbsentKeyKeepsRecords<T>(records: seq<T>, key: T -> string, k: string, fs: FsOutcome)
    requires fs.writeOk
    requires forall i :: 0 <= i < |records| ==> key(records[i]) != k
    ensures Deleted(Stored(records), key, k, fs) == (Ok(()), Stored(records))
  {
    Seqs.FilterKeepsAll(records, OtherKey(key, k));
  }
}
