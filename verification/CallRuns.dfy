/** Runs of system calls: what the calls of each operation come to when every one
    of them succeeds. */
module CallRuns {
  import opened Wrappers
  import opened FileSystem
  import opened Cipher
  import opened Journal

  predicate Possible(fs: Fs, ops: seq<Op>)
    decreases |ops|
  {
    ops == [] || (CanDo(fs, ops[0]) && Possible(Do(fs, ops[0]), ops[1..]))
  }

  function After(fs: Fs, ops: seq<Op>): (after: Fs)
    requires Possible(fs, ops)
    decreases |ops|
  {
    if ops == [] then fs else After(Do(fs, ops[0]), ops[1..])
  }

  ghost predicate Leads(fs: Fs, ops: seq<Op>, after: Fs) {
    Possible(fs, ops) && After(fs, ops) == after
  }

  lemma {:induction false} LeadsOn(fs: Fs, ops: seq<Op>, mid: Fs, more: seq<Op>, after: Fs)
    requires Leads(fs, ops, mid) && Leads(mid, more, after)
    ensures Leads(fs, ops + more, after)
    decreases |ops|
  {
    if ops == [] {
      assert ops + more == more;
    } else {
      LeadsOn(Do(fs, ops[0]), ops[1..], mid, more, after);
      assert (ops + more)[0] == ops[0] && (ops + more)[1..] == ops[1..] + more;
    }
  }

  lemma LeadsOne(fs: Fs, op: Op)
    requires CanDo(fs, op)
    ensures Leads(fs, [op], Do(fs, op))
  {
    assert Possible(Do(fs, op), [op][1..]);
  }

  lemma Leads2(fs: Fs, ops: seq<Op>)
    requires |ops| == 2 && CanDo(fs, ops[0]) && CanDo(Do(fs, ops[0]), ops[1])
    ensures Leads(fs, ops, Do(Do(fs, ops[0]), ops[1]))
  {
    hide CanDo, Do;
    var t := Do(fs, ops[0]);
    LeadsOne(fs, ops[0]);
    LeadsOne(t, ops[1]);
    LeadsOn(fs, [ops[0]], t, [ops[1]], Do(t, ops[1]));
    assert ops == [ops[0]] + [ops[1]];
  }

  lemma Leads4(fs: Fs, ops: seq<Op>)
    requires |ops| == 4 && CanDo(fs, ops[0]) && CanDo(Do(fs, ops[0]), ops[1])
    requires var t := Do(Do(fs, ops[0]), ops[1]); CanDo(t, ops[2]) && CanDo(Do(t, ops[2]), ops[3])
    ensures Leads(fs, ops, Do(Do(Do(Do(fs, ops[0]), ops[1]), ops[2]), ops[3]))
  {
    hide CanDo, Do;
    var t := Do(Do(fs, ops[0]), ops[1]);
    Leads2(fs, ops[..2]);
    Leads2(t, ops[2..]);
    LeadsOn(fs, ops[..2], t, ops[2..], Do(Do(t, ops[2]), ops[3]));
    assert ops == ops[..2] + ops[2..];
  }

  // ---- The calls a method makes when each succeeds.

  /** Steps 2 and 3 of a quarantine of file content `bytes`, as file `k`. */
  function CopyCalls(id: Id, key: Bytes, bytes: Bytes, k: Ino): (ops: seq<Op>)
    requires |key| == KEY_LEN
  {
    [MakeFile(DataTmpAt(id), k), AppendTo(k, DATA_MAGIC), AppendTo(k, Mask(key, 0, bytes)), SyncFile(k)]
  }

  /** Saving a record, written as file `j`, up to the rename, and all of it. */
  function OverwriteCalls(rec: Record, j: Ino): (ops: seq<Op>) {
    [MakeFile(RecordTmpAt(rec.core.id), j), PutRecord(j, rec), SyncFile(j), Rename(RecordTmpAt(rec.core.id), RecordAt(rec.core.id))]
  }

  function SaveCalls(rec: Record, j: Ino): (ops: seq<Op>) {
    OverwriteCalls(rec, j) + [SyncDir(Items)]
  }

  /** Step 5. */
  function CommitCalls(id: Id): (ops: seq<Op>) {
    [Rename(DataTmpAt(id), DataAt(id)), SyncDir(Items)]
  }

  /** Step 6. */
  function RemoveCalls(l: Loc): (ops: seq<Op>) {
    [Unlink(l), SyncDir(l.dir)]
  }

  /** Steps 2 to 5. */
  function TakeCalls(rec: Record, bytes: Bytes, k: Ino, p: Ino): (ops: seq<Op>)
    requires |rec.core.key| == KEY_LEN
  {
    CopyCalls(rec.core.id, rec.core.key, bytes, k) + SaveCalls(rec, p) + CommitCalls(rec.core.id)
  }

  /** A restore up to the rename that gives the file its name. */
  function PublishCalls(tmp: Loc, target: Loc, bytes: Bytes, i: Ino): (ops: seq<Op>) {
    [MakeFile(tmp, i), AppendTo(i, bytes), SyncFile(i), Rename(tmp, target)]
  }

  // ---- What they come to.

  function Copied(fs: Fs, id: Id, key: Bytes, bytes: Bytes, k: Ino): (after: Fs)
    requires |key| == KEY_LEN
  {
    fs.(view := fs.view[DataTmpAt(id) := k], pending := fs.pending + {Update(DataTmpAt(id), Some(k))},
        files := fs.files[k := File(Raw(Encoded(key, bytes)), true)])
  }

  lemma CopyLeads(fs: Fs, id: Id, key: Bytes, bytes: Bytes, k: Ino)
    requires |key| == KEY_LEN && k !in fs.files
    ensures Leads(fs, CopyCalls(id, key, bytes, k), Copied(fs, id, key, bytes, k))
  {
    hide Mask, Possible, After;
    var ops := CopyCalls(id, key, bytes, k);
    var t2 := Do(Do(fs, ops[0]), ops[1]);
    var t4 := Do(Do(t2, ops[2]), ops[3]);
    assert [] + DATA_MAGIC + Mask(key, 0, bytes) == Encoded(key, bytes);
    assert t4.files == Copied(fs, id, key, bytes, k).files;
    Leads4(fs, ops);
  }

  function Overwritten(fs: Fs, rec: Record, j: Ino): (after: Fs) {
    fs.(view := fs.view[RecordAt(rec.core.id) := j] - {RecordTmpAt(rec.core.id)},
        pending := fs.pending + {Update(RecordTmpAt(rec.core.id), Some(j)), Update(RecordAt(rec.core.id), Some(j)),
                                 Update(RecordTmpAt(rec.core.id), None)},
        files := fs.files[j := File(Json(rec), true)])
  }

  lemma OverwriteLeads(fs: Fs, rec: Record, j: Ino)
    requires j !in fs.files
    ensures Leads(fs, OverwriteCalls(rec, j), Overwritten(fs, rec, j))
  {
    hide Possible, After;
    var ops := OverwriteCalls(rec, j);
    var t3 := Do(Do(Do(fs, ops[0]), ops[1]), ops[2]);
    assert t3.files == fs.files[j := File(Json(rec), true)] && t3.view == fs.view[RecordTmpAt(rec.core.id) := j];
    var t4 := Do(t3, ops[3]);
    assert t4.view == fs.view[RecordAt(rec.core.id) := j] - {RecordTmpAt(rec.core.id)};
    assert t4.pending == Overwritten(fs, rec, j).pending;
    Leads4(fs, ops);
  }

  lemma SaveLeads(fs: Fs, rec: Record, j: Ino)
    requires j !in fs.files
    ensures Leads(fs, SaveCalls(rec, j), SyncNames(Overwritten(fs, rec, j), Items))
  {
    hide Possible, After, Overwritten, SyncNames;
    OverwriteLeads(fs, rec, j);
    var t := Overwritten(fs, rec, j);
    LeadsOne(t, SyncDir(Items));
    LeadsOn(fs, OverwriteCalls(rec, j), t, [SyncDir(Items)], SyncNames(t, Items));
  }

  function Published(fs: Fs, tmp: Loc, target: Loc, bytes: Bytes, i: Ino): (after: Fs) {
    fs.(view := fs.view[target := i] - {tmp},
        pending := fs.pending + {Update(tmp, Some(i)), Update(target, Some(i)), Update(tmp, None)},
        files := fs.files[i := File(Raw(bytes), true)])
  }

  lemma PublishLeads(fs: Fs, tmp: Loc, target: Loc, bytes: Bytes, i: Ino)
    requires i !in fs.files && tmp != target
    ensures Leads(fs, PublishCalls(tmp, target, bytes, i), Published(fs, tmp, target, bytes, i))
  {
    hide Possible, After;
    var ops := PublishCalls(tmp, target, bytes, i);
    var t3 := Do(Do(Do(fs, ops[0]), ops[1]), ops[2]);
    assert [] + bytes == bytes;
    assert t3.files == fs.files[i := File(Raw(bytes), true)] && t3.view == fs.view[tmp := i];
    var t4 := Do(t3, ops[3]);
    assert t4.view == fs.view[target := i] - {tmp};
    assert t4.pending == Published(fs, tmp, target, bytes, i).pending;
    Leads4(fs, ops);
  }

  // ---- From a filesystem whose names are all on disk to another.

  function Still(names: map<Loc, Ino>, files: map<Ino, File>): (fs: Fs) {
    Fs(names, names, {}, files)
  }

  lemma SyncStill(fs: Fs, d: Dir)
    requires forall l: Loc :: l.dir != d ==> Get(fs.disk, l) == Get(fs.view, l)
    requires forall u :: u in fs.pending ==> u.loc.dir == d
    ensures SyncNames(fs, d) == Still(fs.view, fs.files)
  {
    var r := SyncNames(fs, d);
    forall l: Loc
      ensures Get(r.disk, l) == Get(fs.view, l)
    {
      assert l.dir != d ==> Get(fs.disk, l) == Get(fs.view, l);
    }
    SameMap(r.disk, fs.view);
  }

  lemma SaveStill(names: map<Loc, Ino>, files: map<Ino, File>, rec: Record, j: Ino)
    requires j !in files && RecordTmpAt(rec.core.id) !in names
    ensures Leads(Still(names, files), SaveCalls(rec, j), Still(names[RecordAt(rec.core.id) := j], files[j := File(Json(rec), true)]))
  {
    hide Leads, SaveCalls, SyncNames;
    var t := Overwritten(Still(names, files), rec, j);
    SaveLeads(Still(names, files), rec, j);
    assert t.view == names[RecordAt(rec.core.id) := j];
    SyncStill(t, Items);
  }

  lemma CopyThenSave(names: map<Loc, Ino>, files: map<Ino, File>, rec: Record, bytes: Bytes, k: Ino, p: Ino)
    requires |rec.core.key| == KEY_LEN && k !in files && p !in files && k != p && RecordTmpAt(rec.core.id) !in names
    ensures Leads(Still(names, files), CopyCalls(rec.core.id, rec.core.key, bytes, k) + SaveCalls(rec, p),
                  Still(names[DataTmpAt(rec.core.id) := k][RecordAt(rec.core.id) := p],
                        files[k := File(Raw(Encoded(rec.core.key, bytes)), true)][p := File(Json(rec), true)]))
  {
    hide Leads, SaveCalls, CopyCalls, SyncNames, Encoded;
    var id := rec.core.id;
    var c := Copied(Still(names, files), id, rec.core.key, bytes, k);
    CopyLeads(Still(names, files), id, rec.core.key, bytes, k);
    SaveLeads(c, rec, p);
    var t := Overwritten(c, rec, p);
    assert t.view == names[DataTmpAt(id) := k][RecordAt(id) := p];
    SyncStill(t, Items);
    LeadsOn(Still(names, files), CopyCalls(id, rec.core.key, bytes, k), c, SaveCalls(rec, p), SyncNames(t, Items));
  }

  lemma CommitStill(names: map<Loc, Ino>, files: map<Ino, File>, id: Id)
    requires DataTmpAt(id) in names
    ensures Leads(Still(names, files), CommitCalls(id), Still(names[DataAt(id) := names[DataTmpAt(id)]] - {DataTmpAt(id)}, files))
  {
    hide Possible, After, SyncNames;
    var t := Do(Still(names, files), CommitCalls(id)[0]);
    assert t.view == names[DataAt(id) := names[DataTmpAt(id)]] - {DataTmpAt(id)};
    SyncStill(t, Items);
    Leads2(Still(names, files), CommitCalls(id));
  }

  lemma RemoveStill(names: map<Loc, Ino>, files: map<Ino, File>, l: Loc)
    requires l in names
    ensures Leads(Still(names, files), RemoveCalls(l), Still(names - {l}, files))
  {
    hide Possible, After, SyncNames;
    var t := Do(Still(names, files), RemoveCalls(l)[0]);
    SyncStill(t, l.dir);
    Leads2(Still(names, files), RemoveCalls(l));
  }

  /** Steps 2 to 5 leave the copy and its pending record on disk. */
  lemma StoreStill(names: map<Loc, Ino>, files: map<Ino, File>, rec: Record, bytes: Bytes, k: Ino, p: Ino)
    requires |rec.core.key| == KEY_LEN && k !in files && p !in files && k != p
    requires RecordTmpAt(rec.core.id) !in names && DataTmpAt(rec.core.id) !in names
    ensures Leads(Still(names, files), TakeCalls(rec, bytes, k, p),
                  Still(names[DataAt(rec.core.id) := k][RecordAt(rec.core.id) := p],
                        files[k := File(Raw(Encoded(rec.core.key, bytes)), true)][p := File(Json(rec), true)]))
  {
    hide Leads, SaveCalls, CopyCalls, Encoded, CommitCalls;
    var id := rec.core.id;
    var names1 := names[DataTmpAt(id) := k][RecordAt(id) := p];
    var files1 := files[k := File(Raw(Encoded(rec.core.key, bytes)), true)][p := File(Json(rec), true)];
    CopyThenSave(names, files, rec, bytes, k, p);
    CommitStill(names1, files1, id);
    assert names1[DataAt(id) := k] - {DataTmpAt(id)} == names[DataAt(id) := k][RecordAt(id) := p];
    LeadsOn(Still(names, files), CopyCalls(id, rec.core.key, bytes, k) + SaveCalls(rec, p), Still(names1, files1), CommitCalls(id),
            Still(names[DataAt(id) := k][RecordAt(id) := p], files1));
  }

  /** And step 6 takes the original away. */
  lemma TakeStill(names: map<Loc, Ino>, files: map<Ino, File>, rec: Record, bytes: Bytes, k: Ino, p: Ino)
    requires |rec.core.key| == KEY_LEN && k !in files && p !in files && k != p
    requires RecordTmpAt(rec.core.id) !in names && DataTmpAt(rec.core.id) !in names
    requires InFolder(rec.core.origin) && rec.core.origin in names
    ensures Leads(Still(names, files), TakeCalls(rec, bytes, k, p) + RemoveCalls(rec.core.origin),
                  Still((names - {rec.core.origin})[DataAt(rec.core.id) := k][RecordAt(rec.core.id) := p],
                        files[k := File(Raw(Encoded(rec.core.key, bytes)), true)][p := File(Json(rec), true)]))
  {
    hide Leads, TakeCalls, Encoded, RemoveCalls;
    var id, l := rec.core.id, rec.core.origin;
    var names1 := names[DataAt(id) := k][RecordAt(id) := p];
    var files1 := files[k := File(Raw(Encoded(rec.core.key, bytes)), true)][p := File(Json(rec), true)];
    StoreStill(names, files, rec, bytes, k, p);
    RemoveStill(names1, files1, l);
    assert names1 - {l} == (names - {l})[DataAt(id) := k][RecordAt(id) := p];
    LeadsOn(Still(names, files), TakeCalls(rec, bytes, k, p), Still(names1, files1), RemoveCalls(l), Still(names1 - {l}, files1));
  }

  /** A whole quarantine. */
  function QuarantineCalls(rec: Record, bytes: Bytes, k: Ino, p: Ino, q: Ino): (ops: seq<Op>)
    requires |rec.core.key| == KEY_LEN
  {
    TakeCalls(rec, bytes, k, p) + RemoveCalls(rec.core.origin) + SaveCalls(rec.(state := Quarantined), q)
  }

  lemma QuarantineStill(names: map<Loc, Ino>, files: map<Ino, File>, rec: Record, bytes: Bytes, k: Ino, p: Ino, q: Ino)
    requires |rec.core.key| == KEY_LEN && k !in files && p !in files && q !in files && k != p && k != q && p != q
    requires RecordTmpAt(rec.core.id) !in names && DataTmpAt(rec.core.id) !in names
    requires InFolder(rec.core.origin) && rec.core.origin in names
    ensures Leads(Still(names, files), QuarantineCalls(rec, bytes, k, p, q),
                  Still((names - {rec.core.origin})[DataAt(rec.core.id) := k][RecordAt(rec.core.id) := q],
                        files[k := File(Raw(Encoded(rec.core.key, bytes)), true)][p := File(Json(rec), true)]
                          [q := File(Json(rec.(state := Quarantined)), true)]))
  {
    hide Leads, TakeCalls, Encoded, RemoveCalls, SaveCalls;
    var id, l := rec.core.id, rec.core.origin;
    var names1 := (names - {l})[DataAt(id) := k][RecordAt(id) := p];
    var files1 := files[k := File(Raw(Encoded(rec.core.key, bytes)), true)][p := File(Json(rec), true)];
    TakeStill(names, files, rec, bytes, k, p);
    SaveStill(names1, files1, rec.(state := Quarantined), q);
    assert names1[RecordAt(id) := q] == (names - {l})[DataAt(id) := k][RecordAt(id) := q];
    LeadsOn(Still(names, files), TakeCalls(rec, bytes, k, p) + RemoveCalls(l), Still(names1, files1),
            SaveCalls(rec.(state := Quarantined), q),
            Still(names1[RecordAt(id) := q], files1[q := File(Json(rec.(state := Quarantined)), true)]));
  }
}
