/** A filesystem as a crash sees it: what running programs observe, what is
    certainly on disk, and directory updates that have not been fsynced. */
module FileSystem {
  import opened Wrappers

  type Bytes = seq<bv8>
  type Digest = seq<bv8>
  type Id = string
  /** A file, for good: two files are never one, whatever numbers they get. */
  type Ino = nat

  datatype Dir = Items | Folder(path: string)

  /** The names the store uses (in `items/`, and the temporary of a restore),
      and every other name. */
  datatype Name =
    | RecordOf(id: Id)
    | RecordTmp(id: Id)
    | DataOf(id: Id)
    | DataTmp(id: Id)
    | RestoreTmp(id: Id)
    | Plain(text: string)

  datatype Loc = At(dir: Dir, name: Name)

  /** Lifecycle of an item. */
  datatype ItemState = Pending | Quarantined | Restored | Deleted | RolledBack | Failed

  /** The part of a record that never changes: where the file was, which file
      it was, and how its copy is encoded. */
  datatype Core = Core(id: Id, origin: Loc, ino: Ino, size: nat, sha256: Digest, key: Bytes)

  datatype Record = Record(core: Core, state: ItemState, restoredTo: Option<Loc>)

  /** A record file holds the JSON of one record; decoding gives it back. */
  datatype Content = Raw(bytes: Bytes) | Json(rec: Record)

  datatype File = File(content: Content, synced: bool)

  /** Name `loc` was made to refer to `to`, or to nothing. */
  datatype Update = Update(loc: Loc, to: Option<Ino>)

  datatype Event = Event(action: string, item: Option<Id>, ok: bool)

  datatype Fs = Fs(
    view: map<Loc, Ino>,
    disk: map<Loc, Ino>,
    pending: set<Update>,
    files: map<Ino, File>)

  function Get<K, V>(m: map<K, V>, k: K): (v: Option<V>) {
    if k in m then Some(m[k]) else None
  }

  predicate InFolder(l: Loc) {
    l.dir.Folder? && l.name.Plain?
  }

  function RecordAt(id: Id): Loc { At(Items, RecordOf(id)) }
  function RecordTmpAt(id: Id): Loc { At(Items, RecordTmp(id)) }
  function DataAt(id: Id): Loc { At(Items, DataOf(id)) }
  function DataTmpAt(id: Id): Loc { At(Items, DataTmp(id)) }

  /** What name `l` may refer to if the machine loses power now: what is on
      disk, or any update not yet fsynced. */
  predicate MayHold(fs: Fs, l: Loc, v: Option<Ino>) {
    v == Get(fs.disk, l) || Update(l, v) in fs.pending
  }

  /** `l` refers to `i` now and after any crash. */
  ghost predicate Stable(fs: Fs, l: Loc, i: Ino) {
    forall v :: MayHold(fs, l, v) ==> v == Some(i)
  }

  /** `l` refers to nothing, now and after any crash. */
  ghost predicate Absent(fs: Fs, l: Loc) {
    forall v :: MayHold(fs, l, v) ==> v == None
  }

  ghost predicate WellFormed(fs: Fs) {
    && (forall l :: MayHold(fs, l, Get(fs.view, l)))
    && (forall l, i :: MayHold(fs, l, Some(i)) ==> i in fs.files)
  }

  /** `i` is a file of the store's own: no name of a user may refer to it. */
  ghost predicate Ours(fs: Fs, i: Ino) {
    forall l :: InFolder(l) ==> !MayHold(fs, l, Some(i))
  }

  /** No file gets the device and inode number another one had. */
  ghost predicate NeverReused(number: Ino -> nat) {
    forall i, j :: number(i) == number(j) ==> i == j
  }

  // ---- What the system calls do.

  function LinkName(fs: Fs, l: Loc, i: Ino): (r: Fs) {
    fs.(view := fs.view[l := i], pending := fs.pending + {Update(l, Some(i))})
  }

  function UnlinkName(fs: Fs, l: Loc): (r: Fs) {
    fs.(view := fs.view - {l}, pending := fs.pending + {Update(l, None)})
  }

  function RenameName(fs: Fs, from: Loc, to: Loc): (r: Fs)
    requires from in fs.view
  {
    UnlinkName(LinkName(fs, to, fs.view[from]), from)
  }

  /** fsync of a directory: its names on disk become the names in view. */
  function SyncNames(fs: Fs, d: Dir): (r: Fs) {
    fs.(disk := map l | l in fs.view.Keys + fs.disk.Keys && l in (if l.dir == d then fs.view else fs.disk) ::
          if l.dir == d then fs.view[l] else fs.disk[l],
        pending := set u | u in fs.pending && u.loc.dir != d)
  }

  function WriteFile(fs: Fs, i: Ino, c: Content): (r: Fs) {
    fs.(files := fs.files[i := File(c, false)])
  }

  function SyncContent(fs: Fs, i: Ino): (r: Fs)
    requires i in fs.files
  {
    fs.(files := fs.files[i := fs.files[i].(synced := true)])
  }

  /** A system call that changes names or contents. */
  datatype Op =
    | MakeFile(l: Loc, i: Ino)
    | AppendTo(i: Ino, more: Bytes)
    | PutRecord(i: Ino, rec: Record)
    | SyncFile(i: Ino)
    | SyncDir(d: Dir)
    | Rename(from: Loc, to: Loc)
    | HardLink(l: Loc, i: Ino)
    | Unlink(l: Loc)

  predicate CanDo(fs: Fs, op: Op) {
    match op
    case MakeFile(_, i) => i !in fs.files
    case AppendTo(i, _) => i in fs.files && !fs.files[i].synced && fs.files[i].content.Raw?
    case PutRecord(i, _) => i in fs.files && !fs.files[i].synced
    case SyncFile(i) => i in fs.files
    case SyncDir(_) => true
    case Rename(from, _) => from in fs.view
    case HardLink(l, i) => l !in fs.view && i in fs.files
    case Unlink(l) => l in fs.view
  }

  /** What the call does when it succeeds. */
  function Do(fs: Fs, op: Op): (after: Fs)
    requires CanDo(fs, op)
  {
    match op
    case MakeFile(l, i) => LinkName(WriteFile(fs, i, Raw([])), l, i)
    case AppendTo(i, more) => WriteFile(fs, i, Raw(fs.files[i].content.bytes + more))
    case PutRecord(i, rec) => WriteFile(fs, i, Json(rec))
    case SyncFile(i) => SyncContent(fs, i)
    case SyncDir(d) => SyncNames(fs, d)
    case Rename(from, to) => RenameName(fs, from, to)
    case HardLink(l, i) => LinkName(fs, l, i)
    case Unlink(l) => UnlinkName(fs, l)
  }

  /** What a power loss leaves: each name keeps what is on disk or any update
      that was not fsynced, independently of every other name, and a file that
      was not fsynced holds anything; one that bytes were written to still holds
      bytes. */
  ghost predicate PowerLoss(fs: Fs, after: Fs) {
    && after.view == after.disk
    && after.pending == {}
    && (forall l :: MayHold(fs, l, Get(after.disk, l)))
    && after.files.Keys == fs.files.Keys
    && (forall i :: i in fs.files && fs.files[i].synced ==> after.files[i] == fs.files[i])
    && (forall i :: i in fs.files && fs.files[i].content.Raw? ==> after.files[i].content.Raw?)
  }

  /** What becomes of a file that was not fsynced. */
  function Garbled(f: File, garbage: File): (after: File) {
    if f.content.Raw? && !garbage.content.Raw? then File(Raw([]), garbage.synced) else garbage
  }

  /** One such outcome: `keep` says which pending update each name keeps, if
      any, and `garbage` what the files that were not fsynced hold. */
  function Lose(fs: Fs, keep: Loc -> Option<Update>, garbage: Ino -> File): (after: Fs) {
    var names := fs.disk.Keys + set u | u in fs.pending :: u.loc;
    var disk := map l | l in names && Kept(fs, l, keep).Some? :: Kept(fs, l, keep).value;
    fs.(view := disk, disk := disk, pending := {},
        files := map i | i in fs.files :: if fs.files[i].synced then fs.files[i] else Garbled(fs.files[i], garbage(i)))
  }

  function Kept(fs: Fs, l: Loc, keep: Loc -> Option<Update>): (i: Option<Ino>) {
    if keep(l).Some? && keep(l).value in fs.pending && keep(l).value.loc == l then keep(l).value.to else Get(fs.disk, l)
  }

  lemma LoseIsPowerLoss(fs: Fs, keep: Loc -> Option<Update>, garbage: Ino -> File)
    ensures PowerLoss(fs, Lose(fs, keep, garbage))
  {
    var after := Lose(fs, keep, garbage);
    forall l
      ensures MayHold(fs, l, Get(after.disk, l))
    {
      assert Get(after.disk, l) == Kept(fs, l, keep) by {
        if Kept(fs, l, keep).Some? && l !in fs.disk {
          assert keep(l).value in fs.pending;
        }
      }
    }
  }

  /** Every outcome of a power loss is one of these. */
  lemma PowerLossIsLose(fs: Fs, after: Fs)
    requires PowerLoss(fs, after)
    ensures exists keep, garbage :: after == Lose(fs, keep, garbage)
  {
    var keep: Loc -> Option<Update> := l => Some(Update(l, Get(after.disk, l)));
    var garbage: Ino -> File := i => if i in after.files then after.files[i] else File(Raw([]), false);
    var lost := Lose(fs, keep, garbage);
    forall l
      ensures Get(lost.disk, l) == Get(after.disk, l)
    {
      assert MayHold(fs, l, Get(after.disk, l));
      assert Kept(fs, l, keep) == Get(after.disk, l);
    }
    assert lost.disk == after.disk by {
      SameMap(lost.disk, after.disk);
    }
    assert lost.files == after.files;
  }

  lemma SameMap(a: map<Loc, Ino>, b: map<Loc, Ino>)
    requires forall l :: Get(a, l) == Get(b, l)
    ensures a == b
  {
    forall l
      ensures l in a <==> l in b
      ensures l in a ==> a[l] == b[l]
    {
      assert Get(a, l) == Get(b, l);
    }
  }

  /** The process dies, or the machine does. */
  ghost predicate Crash(fs: Fs, after: Fs) {
    after == fs || PowerLoss(fs, after)
  }

  // ---- Facts about the calls.

  lemma SyncNamesHolds(fs: Fs, d: Dir)
    requires WellFormed(fs)
    ensures WellFormed(SyncNames(fs, d))
    ensures forall l, v :: MayHold(SyncNames(fs, d), l, v) ==> MayHold(fs, l, v)
    ensures forall l: Loc :: l.dir == d && l in fs.view ==> Stable(SyncNames(fs, d), l, fs.view[l])
    ensures forall l: Loc, v :: l.dir == d && MayHold(SyncNames(fs, d), l, v) ==> v == Get(fs.view, l)
  {
    var r := SyncNames(fs, d);
    forall l, v | MayHold(r, l, v)
      ensures MayHold(fs, l, v)
      ensures l.dir == d ==> v == Get(fs.view, l)
    {
      assert MayHold(fs, l, Get(fs.view, l));
      if Update(l, v) !in r.pending {
        assert v == Get(r.disk, l);
      }
    }
    forall l
      ensures MayHold(r, l, Get(r.view, l))
    {
      if l.dir == d {
        assert Get(r.disk, l) == Get(fs.view, l);
      } else {
        assert MayHold(fs, l, Get(fs.view, l));
        assert Get(r.disk, l) == Get(fs.disk, l);
      }
    }
  }

  lemma PowerLossHolds(fs: Fs, after: Fs)
    requires WellFormed(fs) && PowerLoss(fs, after)
    ensures WellFormed(after)
    ensures forall l, v :: MayHold(after, l, v) ==> MayHold(fs, l, v) && v == Get(after.view, l)
    ensures forall l :: l in after.view ==> Stable(after, l, after.view[l])
  {
    forall l, v | MayHold(after, l, v)
      ensures MayHold(fs, l, v) && v == Get(after.view, l)
    {
      assert MayHold(fs, l, Get(after.disk, l));
    }
  }
}
