/** The system calls a quarantine store makes. Every call may succeed, fail, or
    be the point where the process dies; the store's state after a call that
    did not succeed is its state before it. */
module StoreCalls {
  import opened Wrappers
  import opened FileSystem
  import opened Journal
  import opened JournalSteps

  datatype Call = Done | Fault | Crashed

  /** The lifecycle every record follows. */
  predicate Lifecycle(from: Option<ItemState>, to: ItemState) {
    match from
    case None => to == Pending
    case Some(Pending) => to == Quarantined || to == RolledBack || to == ItemState.Failed
    case Some(Quarantined) => to == Restored || to == Deleted
    case Some(_) => false
  }

  function StateSeen(fs: Fs, id: Id): (s: Option<ItemState>) {
    if RecordSeen(fs, id).Some? then Some(RecordSeen(fs, id).value.state) else None
  }

  /** Outside `except`, names are as they were and no crash can change more of
      them, and what users' names refer to has its bytes; files that had reached
      the disk are as they were. */
  ghost predicate Undisturbed(before: Fs, after: Fs, except: set<Loc>) {
    && (forall l :: l !in except ==> Get(after.view, l) == Get(before.view, l))
    && (forall l, v :: l !in except && MayHold(after, l, v) ==> MayHold(before, l, v))
    && before.files.Keys <= after.files.Keys
    && (forall i :: i in before.files && before.files[i].synced ==> after.files[i] == before.files[i])
    && (forall l :: InFolder(l) && l !in except && l in before.view && before.view[l] in before.files ==>
          before.view[l] in after.files && after.files[before.view[l]].content == before.files[before.view[l]].content)
  }

  /** Files that had reached the disk are as they were. */
  ghost predicate FilesKept(before: Fs, after: Fs) {
    forall i :: i in before.files && before.files[i].synced ==> i in after.files && after.files[i] == before.files[i]
  }

  lemma UndisturbedThen(a: Fs, b: Fs, c: Fs, s: set<Loc>, t: set<Loc>, u: set<Loc>)
    requires Undisturbed(a, b, s) && Undisturbed(b, c, t) && s <= u && t <= u
    ensures Undisturbed(a, c, u)
  {
    forall l | InFolder(l) && l !in u && l in a.view && a.view[l] in a.files
      ensures a.view[l] in c.files && c.files[a.view[l]].content == a.files[a.view[l]].content
    {
      assert Get(b.view, l) == Get(a.view, l);
    }
  }

  lemma WriteUndisturbed(fs: Fs, i: Ino, c: Content)
    requires WellFormed(fs) && i in fs.files && !fs.files[i].synced && Ours(fs, i)
    ensures Undisturbed(fs, WriteFile(fs, i, c), {}) && Ours(WriteFile(fs, i, c), i)
  {
    var after := WriteFile(fs, i, c);
    assert forall l, v :: MayHold(after, l, v) == MayHold(fs, l, v);
    forall l | InFolder(l) && l in fs.view
      ensures fs.view[l] != i
    {
      assert MayHold(fs, l, Get(fs.view, l));
    }
  }

  /** A file made after `before` under another name is the store's own. */
  lemma NewIsOurs(before: Fs, after: Fs, except: set<Loc>, i: Ino)
    requires WellFormed(before) && Undisturbed(before, after, except) && i !in before.files
    requires forall l :: l in except ==> !InFolder(l)
    ensures Ours(after, i)
  {
    forall l | InFolder(l)
      ensures !MayHold(after, l, Some(i))
    {
      assert MayHold(after, l, Some(i)) ==> MayHold(before, l, Some(i));
    }
  }

  /** What is read of an item's record or copy, and of a file's bytes, stays
      the same while their names are left alone. */
  lemma UndisturbedSeen(a: Fs, b: Fs, g: Ledger, sha: Bytes -> Digest, except: set<Loc>, id: Id)
    requires Sound(a, g, sha) && Undisturbed(a, b, except)
    ensures RecordAt(id) !in except ==> RecordSeen(b, id) == RecordSeen(a, id)
    ensures DataAt(id) !in except ==> forall key :: CopySeen(b, id, key) == CopySeen(a, id, key)
  {
    assert MayHold(a, RecordAt(id), Get(a.view, RecordAt(id)));
    assert MayHold(a, DataAt(id), Get(a.view, DataAt(id)));
    if RecordAt(id) !in except {
      assert Get(b.view, RecordAt(id)) == Get(a.view, RecordAt(id));
      if RecordAt(id) in a.view {
        assert IsRecord(a, g, id, a.view[RecordAt(id)]);
      }
    }
    if DataAt(id) !in except {
      assert Get(b.view, DataAt(id)) == Get(a.view, DataAt(id));
      if DataAt(id) in a.view {
        assert IsCopy(a, g, id, a.view[DataAt(id)]);
      }
    }
  }

  lemma UndisturbedSelf(fs: Fs, s: set<Loc>)
    ensures Undisturbed(fs, fs, s)
  {
  }

  lemma LinkUndisturbed(fs: Fs, l: Loc, i: Ino)
    ensures Undisturbed(fs, LinkName(fs, l, i), {l})
    ensures i !in fs.files ==> Undisturbed(fs, LinkName(WriteFile(fs, i, Raw([])), l, i), {l})
  {
  }

  lemma UnlinkUndisturbed(fs: Fs, l: Loc)
    ensures Undisturbed(fs, UnlinkName(fs, l), {l})
  {
  }

  lemma RenameUndisturbed(fs: Fs, from: Loc, to: Loc)
    requires from in fs.view
    ensures Undisturbed(fs, RenameName(fs, from, to), {from, to})
  {
  }

  lemma SyncNamesUndisturbed(fs: Fs, d: Dir)
    requires WellFormed(fs)
    ensures Undisturbed(fs, SyncNames(fs, d), {})
    ensures forall l: Loc, v :: l.dir == d && MayHold(SyncNames(fs, d), l, v) ==> v == Get(fs.view, l)
  {
    SyncNamesHolds(fs, d);
  }

  lemma SoundIsWellFormed(fs: Fs, g: Ledger, sha: Bytes -> Digest)
    requires Sound(fs, g, sha)
    ensures WellFormed(fs) && Narrows(fs, fs)
  {
  }

  /** One, if so. */
  function Once(b: bool): (n: nat) {
    if b then 1 else 0
  }

  /** A change of item `id`'s record, and whether there was an excuse for giving
      the item up: a call had failed since the store was opened, or an operation
      had been begun while what it relied on was not certain on disk. */
  datatype Move = Move(id: Id, from: Option<ItemState>, to: ItemState, excused: bool)

  class Disk {
    var fs: Fs
    /** The audit log. */
    var log: seq<Event>
    const sha: Bytes -> Digest
    /** The device and inode number of each file. */
    const number: Ino -> nat
    /** What has happened, for the proofs. */
    ghost var g: Ledger
    /** An operation was begun while a name or a record it relies on was not
        certain on disk, and the store has not been settled since. */
    ghost var hazard: bool
    /** How many calls have failed, and how many had when the store was opened. */
    ghost var faults: nat
    ghost var atOpen: nat
    /** Every change of a record's state. */
    ghost var moves: seq<Move>

    constructor (fs: Fs, sha: Bytes -> Digest, number: Ino -> nat, ghost g: Ledger)
      requires Sound(fs, g, sha) && Calm(fs, g) && NeverReused(number)
      ensures Valid() && this.fs == fs && this.g == g && this.sha == sha && this.number == number
      ensures !hazard && moves == [] && log == [] && faults == 0
    {
      this.fs := fs;
      log := [];
      this.sha := sha;
      this.number := number;
      this.g := g;
      hazard := false;
      faults, atOpen := 0, 0;
      moves := [];
    }

    ghost predicate Valid()
      reads this
    {
      && Sound(fs, g, sha)
      && (hazard || Calm(fs, g))
      && NeverReused(number)
      && atOpen <= faults
      && (forall m :: m in moves ==> Lifecycle(m.from, m.to) && (m.to == ItemState.Failed ==> m.excused))
    }

    // ---- Calls that cannot endanger anything.

    method Create(l: Loc) returns (r: Call, i: Ino)
      requires Valid() && !Matters(l)
      modifies `fs, `faults
      ensures Valid()
      ensures r.Done? ==> CanDo(old(fs), MakeFile(l, i)) && fs == Do(old(fs), MakeFile(l, i))
      ensures !r.Done? ==> fs == old(fs)
      ensures faults == old(faults) + Once(r.Fault?)
      ensures Narrows(old(fs), fs) && Undisturbed(old(fs), fs, {l})
      ensures r.Done? && !InFolder(l) ==> Ours(fs, i)
    {
      hide Sound, Calm, Settled;
      SoundIsWellFormed(fs, g, sha);
      i := 0;
      if * {
        faults := faults + 1;
        return Fault, i;
      } else if * {
        return Crashed, i;
      }
      i := FreshFile();
      CreateTemporary(fs, g, sha, l, i);
      LinkUndisturbed(fs, l, i);
      if !InFolder(l) {
        NewIsOurs(fs, LinkName(WriteFile(fs, i, Raw([])), l, i), {l}, i);
      }
      fs := LinkName(WriteFile(fs, i, Raw([])), l, i);
      r := Done;
    }

    method FreshFile() returns (i: Ino)
      ensures i !in fs.files
    {
      i := 0;
      var left := fs.files.Keys;
      while i in fs.files
        invariant forall j :: j in fs.files && j !in left ==> j < i
        invariant left <= fs.files.Keys
        invariant forall j :: j in left ==> j >= i
        decreases left
      {
        left := left - {i};
        i := i + 1;
      }
    }

    method Append(i: Ino, more: Bytes) returns (r: Call)
      requires Valid() && i in fs.files && !fs.files[i].synced && fs.files[i].content.Raw? && Ours(fs, i)
      modifies `fs, `faults
      ensures Valid() && Ours(fs, i)
      ensures fs == if r.Done? then Do(old(fs), AppendTo(i, more)) else old(fs)
      ensures faults == old(faults) + Once(r.Fault?)
      ensures Narrows(old(fs), fs) && Undisturbed(old(fs), fs, {})
    {
      hide Sound, Calm, Settled;
      SoundIsWellFormed(fs, g, sha);
      if * {
        faults := faults + 1;
        return Fault;
      } else if * {
        return Crashed;
      }
      var c := Raw(fs.files[i].content.bytes + more);
      WriteUnsynced(fs, g, sha, i, c);
      WriteUndisturbed(fs, i, c);
      fs := WriteFile(fs, i, c);
      r := Done;
    }

    method WriteRecord(i: Ino, rec: Record) returns (r: Call)
      requires Valid() && i in fs.files && !fs.files[i].synced && Ours(fs, i)
      modifies `fs, `faults
      ensures Valid()
      ensures fs == if r.Done? then Do(old(fs), PutRecord(i, rec)) else old(fs)
      ensures faults == old(faults) + Once(r.Fault?)
      ensures Narrows(old(fs), fs) && Undisturbed(old(fs), fs, {})
    {
      hide Sound, Calm, Settled;
      SoundIsWellFormed(fs, g, sha);
      if * {
        faults := faults + 1;
        return Fault;
      } else if * {
        return Crashed;
      }
      WriteUnsynced(fs, g, sha, i, Json(rec));
      WriteUndisturbed(fs, i, Json(rec));
      fs := WriteFile(fs, i, Json(rec));
      r := Done;
    }

    method Sync(i: Ino) returns (r: Call)
      requires Valid() && i in fs.files
      modifies `fs, `faults
      ensures Valid()
      ensures fs == if r.Done? then Do(old(fs), SyncFile(i)) else old(fs)
      ensures faults == old(faults) + Once(r.Fault?)
      ensures Narrows(old(fs), fs) && Undisturbed(old(fs), fs, {})
    {
      hide Sound, Calm, Settled;
      SoundIsWellFormed(fs, g, sha);
      if * {
        faults := faults + 1;
        return Fault;
      } else if * {
        return Crashed;
      }
      SyncContents(fs, g, sha, i);
      fs := SyncContent(fs, i);
      r := Done;
    }

    method SyncDir(d: Dir) returns (r: Call)
      requires Valid()
      modifies `fs, `faults
      ensures Valid()
      ensures fs == if r.Done? then Do(old(fs), FileSystem.SyncDir(d)) else old(fs)
      ensures faults == old(faults) + Once(r.Fault?)
      ensures Narrows(old(fs), fs) && Undisturbed(old(fs), fs, {})
      ensures r.Done? ==> forall l: Loc, v :: l.dir == d && MayHold(fs, l, v) ==> v == Get(fs.view, l)
    {
      hide Sound, Calm, Settled;
      SoundIsWellFormed(fs, g, sha);
      if * {
        faults := faults + 1;
        return Fault;
      } else if * {
        return Crashed;
      }
      SyncDirectory(fs, g, sha, d);
      SyncNamesUndisturbed(fs, d);
      fs := SyncNames(fs, d);
      r := Done;
    }

    /** Unlinking a temporary; a missing one is no failure of the disk. */
    method UnlinkTmp(l: Loc) returns (r: Call)
      requires Valid() && !Matters(l)
      modifies `fs, `faults
      ensures Valid()
      ensures fs == if r.Done? && l in old(fs.view) then Do(old(fs), Unlink(l)) else old(fs)
      ensures faults == old(faults) + Once(r.Fault?)
      ensures Narrows(old(fs), fs) && Undisturbed(old(fs), fs, {l})
    {
      hide Sound, Calm, Settled;
      SoundIsWellFormed(fs, g, sha);
      if * {
        faults := faults + 1;
        return Fault;
      } else if * {
        return Crashed;
      }
      if l in fs.view {
        RemoveTemporary(fs, g, sha, l);
        UnlinkUndisturbed(fs, l);
        fs := UnlinkName(fs, l);
      }
      r := Done;
    }

    /** Appending a line to the audit log, atomically. */
    method AppendEvent(e: Event) returns (r: Call)
      requires Valid()
      modifies `log, `faults
      ensures Valid()
      ensures log == if r.Done? then old(log) + [e] else old(log)
      ensures faults == old(faults) + Once(r.Fault?)
    {
      hide Sound, Calm;
      if * {
        faults := faults + 1;
        return Fault;
      } else if * {
        return Crashed;
      }
      log := log + [e];
      r := Done;
    }

    /** One read of file `i` from `pos`: any number of bytes, none only at the
        end of the file. */
    method Read(i: Ino, pos: nat, buf: array<bv8>) returns (r: Call, n: nat)
      requires Valid() && i in fs.files && fs.files[i].content.Raw? && pos <= |fs.files[i].content.bytes| && buf.Length > 0
      modifies `faults, buf
      ensures Valid()
      ensures n <= buf.Length
      ensures r.Done? ==> pos + n <= |fs.files[i].content.bytes| && buf[..n] == fs.files[i].content.bytes[pos..pos + n]
      ensures r.Done? && n == 0 ==> pos == |fs.files[i].content.bytes|
      ensures faults == old(faults) + Once(r.Fault?)
    {
      hide Sound, Calm;
      n := 0;
      if * {
        faults := faults + 1;
        return Fault, n;
      } else if * {
        return Crashed, n;
      }
      var bytes := fs.files[i].content.bytes;
      var most := if |bytes| - pos < buf.Length then |bytes| - pos else buf.Length;
      n :| 0 <= n <= most && (n == 0 ==> most == 0);
      for k := 0 to n
        invariant faults == old(faults)
        invariant forall j :: 0 <= j < k ==> buf[j] == bytes[pos + j]
      {
        buf[k] := bytes[pos + k];
      }
      assert buf[..n] == bytes[pos..pos + n];
      r := Done;
    }

    // ---- Calls whose place in the sequence matters.

    /** The rename that ends `write_atomic` on a record. */
    method RenameRecord(id: Id) returns (r: Call)
      requires Valid() && RecordTmpAt(id) in fs.view && IsRecord(fs, g, id, fs.view[RecordTmpAt(id)])
      requires Lifecycle(StateSeen(fs, id), fs.files[fs.view[RecordTmpAt(id)]].content.rec.state)
      requires fs.files[fs.view[RecordTmpAt(id)]].content.rec.state == Pending ==>
                 Absent(fs, DataAt(id)) && (hazard || Decidable(fs, g, id))
      requires fs.files[fs.view[RecordTmpAt(id)]].content.rec.state == ItemState.Failed ==> hazard || faults > atOpen
      modifies `fs, `faults, `moves
      ensures Valid()
      ensures fs == if r.Done? then Do(old(fs), Rename(RecordTmpAt(id), RecordAt(id))) else old(fs)
      ensures faults == old(faults) + Once(r.Fault?)
      ensures Undisturbed(old(fs), fs, {RecordTmpAt(id), RecordAt(id)})
      ensures moves == if r.Done?
                       then old(moves) + [Move(id, StateSeen(old(fs), id), old(fs.files[fs.view[RecordTmpAt(id)]].content.rec.state),
                                               hazard || faults > atOpen)]
                       else old(moves)
    {
      hide Sound, Calm, Undisturbed;
      UndisturbedSelf(fs, {RecordTmpAt(id), RecordAt(id)});
      if * {
        faults := faults + 1;
        return Fault;
      } else if * {
        return Crashed;
      }
      assert MayHold(fs, DataAt(id), Get(fs.disk, DataAt(id)));
      CommitRecord(fs, g, sha, id);
      if !hazard {
        CommitRecordKeepsCalm(fs, g, sha, id);
      }
      moves := moves + [Move(id, StateSeen(fs, id), fs.files[fs.view[RecordTmpAt(id)]].content.rec.state, hazard || faults > atOpen)];
      RenameUndisturbed(fs, RecordTmpAt(id), RecordAt(id));
      fs := RenameName(fs, RecordTmpAt(id), RecordAt(id));
      r := Done;
    }

    /** The rename that commits a copy. */
    method RenameCopy(id: Id) returns (r: Call)
      requires Valid() && DataTmpAt(id) in fs.view && Absent(fs, DataAt(id))
      requires IsCopy(fs, g, id, fs.view[DataTmpAt(id)])
      modifies `fs, `faults
      ensures Valid()
      ensures fs == if r.Done? then Do(old(fs), Rename(DataTmpAt(id), DataAt(id))) else old(fs)
      ensures faults == old(faults) + Once(r.Fault?)
      ensures Undisturbed(old(fs), fs, {DataTmpAt(id), DataAt(id)})
    {
      hide Sound, Calm, Settled;
      SoundIsWellFormed(fs, g, sha);
      if * {
        faults := faults + 1;
        return Fault;
      } else if * {
        return Crashed;
      }
      assert MayHold(fs, DataAt(id), Get(fs.disk, DataAt(id)));
      CommitCopy(fs, g, sha, id);
      RenameUndisturbed(fs, DataTmpAt(id), DataAt(id));
      fs := RenameName(fs, DataTmpAt(id), DataAt(id));
      r := Done;
    }

    /** Unlinking the file that item `id` is a copy of. */
    method UnlinkOriginal(id: Id, l: Loc) returns (r: Call)
      requires Valid() && id in g.cores && g.cores[id].origin == l
      requires id in g.source && DataCopy(fs, g, g.source[id], id)
      requires Get(fs.view, l) == Some(g.cores[id].ino)
      requires hazard || NoRival(fs, g, id)
      modifies `fs, `faults
      ensures Valid()
      ensures fs == if r.Done? then Do(old(fs), Unlink(l)) else old(fs)
      ensures faults == old(faults) + Once(r.Fault?)
      ensures Undisturbed(old(fs), fs, {l})
    {
      hide Sound, Calm, Settled;
      SoundIsWellFormed(fs, g, sha);
      if * {
        faults := faults + 1;
        return Fault;
      } else if * {
        return Crashed;
      }
      RemoveOriginal(fs, g, sha, id);
      if !hazard {
        RemoveOriginalKeepsCalm(fs, g, sha, id);
      }
      UnlinkUndisturbed(fs, l);
      fs := UnlinkName(fs, l);
      r := Done;
    }

    /** Unlinking a stored copy; a missing one is no failure of the disk. */
    method UnlinkCopy(id: Id) returns (r: Call)
      requires Valid() && id in g.cores && id in g.source
      requires AtRisk(fs, g, id) || g.source[id] !in g.owed || exists l :: FolderCopy(fs, g, g.source[id], l)
      requires hazard || (MayBePending(fs, id) ==> Get(fs.view, g.cores[id].origin) == Some(g.cores[id].ino))
      modifies `fs, `faults
      ensures Valid()
      ensures fs == if r.Done? && DataAt(id) in old(fs.view) then Do(old(fs), Unlink(DataAt(id))) else old(fs)
      ensures faults == old(faults) + Once(r.Fault?)
      ensures Undisturbed(old(fs), fs, {DataAt(id)})
    {
      hide Sound, Calm, Settled;
      SoundIsWellFormed(fs, g, sha);
      if * {
        faults := faults + 1;
        return Fault;
      } else if * {
        return Crashed;
      }
      hide AtRisk, FolderCopy;
      if DataAt(id) in fs.view {
        RemoveCopy(fs, g, sha, id);
        if !hazard {
          RemoveCopyKeepsCalm(fs, g, sha, id);
        }
        UnlinkUndisturbed(fs, DataAt(id));
        fs := UnlinkName(fs, DataAt(id));
      }
      r := Done;
    }

    // ---- Giving a file back.

    /** `renameat2(RENAME_NOREPLACE)` of a restored file onto its name. */
    method RenameTarget(tmp: Loc, target: Loc) returns (r: Call)
      requires Valid() && tmp in fs.view && tmp.name.RestoreTmp? && InFolder(target) && target !in fs.view
      requires fs.view[tmp] in g.lineage && forall id :: id in g.cores ==> g.cores[id].ino != fs.view[tmp]
      modifies `fs, `faults
      ensures Valid()
      ensures fs == if r.Done? then Do(old(fs), Rename(tmp, target)) else old(fs)
      ensures faults == old(faults) + Once(r.Fault?)
      ensures Undisturbed(old(fs), fs, {tmp, target})
    {
      hide Sound, Calm, Settled;
      if * {
        faults := faults + 1;
        return Fault;
      } else if * {
        return Crashed;
      }
      PutTarget(fs, g, sha, tmp, target);
      ghost var linked := LinkName(fs, target, fs.view[tmp]);
      RemoveTemporary(linked, g, sha, tmp);
      SoundFile(fs, g, sha, fs.view[tmp]);
      if !hazard {
        PutTargetKeepsCalm(fs, g, sha, fs.view[tmp], target);
      }
      RenameUndisturbed(fs, tmp, target);
      fs := RenameName(fs, tmp, target);
      r := Done;
    }

    /** `linkat`, for filesystems without that rename. */
    method LinkTarget(tmp: Loc, target: Loc) returns (r: Call)
      requires Valid() && tmp in fs.view && tmp.name.RestoreTmp? && InFolder(target) && target !in fs.view
      requires fs.view[tmp] in g.lineage && forall id :: id in g.cores ==> g.cores[id].ino != fs.view[tmp]
      modifies `fs, `faults
      ensures Valid()
      ensures fs == if r.Done? then Do(old(fs), HardLink(target, old(fs.view[tmp]))) else old(fs)
      ensures faults == old(faults) + Once(r.Fault?)
      ensures Undisturbed(old(fs), fs, {target})
    {
      hide Sound, Calm, Settled;
      if * {
        faults := faults + 1;
        return Fault;
      } else if * {
        return Crashed;
      }
      PutTarget(fs, g, sha, tmp, target);
      SoundFile(fs, g, sha, fs.view[tmp]);
      if !hazard {
        PutTargetKeepsCalm(fs, g, sha, fs.view[tmp], target);
      }
      LinkUndisturbed(fs, target, fs.view[tmp]);
      fs := LinkName(fs, target, fs.view[tmp]);
      r := Done;
    }

    // ---- Reading.

    method Stat(l: Loc) returns (r: Call, i: Option<Ino>)
      requires Valid()
      modifies `faults
      ensures Valid()
      ensures r.Done? ==> i == Get(fs.view, l)
      ensures faults == old(faults) + Once(r.Fault?)
    {
      i := None;
      if * {
        faults := faults + 1;
        return Fault, i;
      } else if * {
        return Crashed, i;
      }
      i := Get(fs.view, l);
      r := Done;
    }

    /** The machine loses power. */
    method LosePower(keep: Loc -> Option<Update>, garbage: Ino -> File)
      requires Valid()
      modifies `fs
      ensures Valid() && fs == Lose(old(fs), keep, garbage) && PowerLoss(old(fs), fs)
    {
      hide Sound, Calm, Settled;
      LoseIsPowerLoss(fs, keep, garbage);
      CrashKeepsSound(fs, Lose(fs, keep, garbage), g, sha);
      fs := Lose(fs, keep, garbage);
    }

    // ---- What the ledger learns.

    ghost method Register(c: Core, bytes: Bytes)
      requires Valid() && c.id !in g.cores
      requires |c.key| == Cipher.KEY_LEN && InFolder(c.origin) && c.ino in fs.files && CopiedFrom(g, c.ino, bytes)
      requires c.sha256 == sha(bytes)
      modifies `g
      ensures Valid() && g == WithItem(old(g), c, bytes) && Extends(old(g), g) && ItemBytes(g, c.id) == bytes
    {
      hide Sound, Calm, WithItem, Extends;
      RegisterItem(fs, g, sha, c, bytes);
      g := WithItem(g, c, bytes);
    }

    ghost method Join(i: Ino, id: Id)
      requires Valid() && id in g.cores && id in g.source && i !in g.lineage
      requires forall k :: k in g.cores ==> g.cores[k].ino != i
      requires i in fs.files && fs.files[i] == File(Raw(ItemBytes(g, id)), true)
      modifies `g
      ensures Valid() && g == old(g).(lineage := old(g).lineage[i := old(g).source[id]])
    {
      hide Sound, Calm;
      JoinLineage(fs, g, sha, i, id);
      g := g.(lineage := g.lineage[i := g.source[id]]);
    }

    /** From here on no crash and no recovery takes this item's bytes away. */
    ghost method Promise(id: Id)
      requires Valid() && id in g.source && DataCopy(fs, g, g.source[id], id) && !AtRisk(fs, g, id)
      modifies `g
      ensures Valid() && g == old(g).(owed := old(g).owed + {old(g).source[id]})
    {
      hide Sound, Calm;
      PromiseItem(fs, g, sha, id, g.source[id]);
      g := g.(owed := g.owed + {g.source[id]});
    }

    ghost method GiveUp(o: Original)
      requires Valid()
      modifies `g
      ensures Valid() && g == old(g).(owed := old(g).owed - {o})
    {
      hide Sound, Calm;
      BeginDelete(fs, g, sha, o);
      g := g.(owed := g.owed - {o});
    }

    /** From here on, until the store is settled, nothing is claimed about what
        recovery answers. */
    ghost method Suspect(bad: bool)
      requires Valid()
      modifies `hazard
      ensures Valid() && hazard == (old(hazard) || bad)
    {
      hazard := hazard || bad;
    }

    /** The store is opened. */
    ghost method Open()
      requires Valid()
      modifies `atOpen
      ensures Valid() && atOpen == faults
    {
      atOpen := faults;
    }

    /** With no item that could be found pending, all is certain again. */
    ghost method Settle()
      requires Valid()
      modifies `hazard
      ensures Valid() && hazard == (old(hazard) && !Settled(fs))
    {
      if Settled(fs) {
        SettledIsCalm(fs, g);
        hazard := false;
      }
    }
  }
}
