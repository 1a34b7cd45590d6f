/** Each system call of the journal, and the condition under which it keeps
    the invariant. The conditions are what fixes the order of the calls. */
module JournalSteps {
  import opened Wrappers
  import opened FileSystem
  import opened Journal

  // ---- Calls that only narrow what a crash can leave.

  /** A new, empty file under a temporary name. */
  lemma CreateTemporary(fs: Fs, g: Ledger, sha: Bytes -> Digest, l: Loc, i: Ino)
    requires Sound(fs, g, sha) && !Matters(l) && i !in fs.files
    ensures var after := LinkName(WriteFile(fs, i, Raw([])), l, i);
            Narrows(fs, after) && Sound(after, g, sha)
    ensures var after := LinkName(WriteFile(fs, i, Raw([])), l, i);
            (Calm(fs, g) ==> Calm(after, g)) && (Settled(fs) ==> Settled(after))
  {
    var after := LinkName(WriteFile(fs, i, Raw([])), l, i);
    forall k
      ensures MayHold(after, k, Get(after.view, k))
    {
      assert MayHold(fs, k, Get(fs.view, k));
    }
    assert forall k, j :: MayHold(after, k, Some(j)) ==> MayHold(fs, k, Some(j)) || j == i;
    NarrowsKeepsSound(fs, after, g, sha);
  }

  lemma RemoveTemporary(fs: Fs, g: Ledger, sha: Bytes -> Digest, l: Loc)
    requires Sound(fs, g, sha) && !Matters(l)
    ensures Narrows(fs, UnlinkName(fs, l)) && Sound(UnlinkName(fs, l), g, sha)
    ensures Calm(fs, g) ==> Calm(UnlinkName(fs, l), g)
    ensures Settled(fs) ==> Settled(UnlinkName(fs, l))
  {
    var after := UnlinkName(fs, l);
    forall k
      ensures MayHold(after, k, Get(after.view, k))
    {
      assert MayHold(fs, k, Get(fs.view, k));
    }
    assert forall k, j :: MayHold(after, k, Some(j)) ==> MayHold(fs, k, Some(j));
    NarrowsKeepsSound(fs, after, g, sha);
  }

  lemma SameNamesHold(fs: Fs, after: Fs)
    requires WellFormed(fs)
    requires after.view == fs.view && after.disk == fs.disk && after.pending == fs.pending
    requires fs.files.Keys <= after.files.Keys
    ensures WellFormed(after)
    ensures forall l, v :: MayHold(after, l, v) == MayHold(fs, l, v)
  {
    assert forall l, v :: MayHold(after, l, v) == MayHold(fs, l, v);
  }

  lemma WriteUnsynced(fs: Fs, g: Ledger, sha: Bytes -> Digest, i: Ino, c: Content)
    requires Sound(fs, g, sha) && i in fs.files && !fs.files[i].synced && Ours(fs, i)
    ensures Narrows(fs, WriteFile(fs, i, c)) && Sound(WriteFile(fs, i, c), g, sha)
    ensures Calm(fs, g) ==> Calm(WriteFile(fs, i, c), g)
    ensures Settled(fs) ==> Settled(WriteFile(fs, i, c))
  {
    SameNamesHold(fs, WriteFile(fs, i, c));
    NarrowsKeepsSound(fs, WriteFile(fs, i, c), g, sha);
  }

  lemma SyncContents(fs: Fs, g: Ledger, sha: Bytes -> Digest, i: Ino)
    requires Sound(fs, g, sha) && i in fs.files
    ensures Narrows(fs, SyncContent(fs, i)) && Sound(SyncContent(fs, i), g, sha)
    ensures Calm(fs, g) ==> Calm(SyncContent(fs, i), g)
    ensures Settled(fs) ==> Settled(SyncContent(fs, i))
  {
    SameNamesHold(fs, SyncContent(fs, i));
    NarrowsKeepsSound(fs, SyncContent(fs, i), g, sha);
  }

  lemma SyncDirectory(fs: Fs, g: Ledger, sha: Bytes -> Digest, d: Dir)
    requires Sound(fs, g, sha)
    ensures Narrows(fs, SyncNames(fs, d)) && Sound(SyncNames(fs, d), g, sha)
    ensures Calm(fs, g) ==> Calm(SyncNames(fs, d), g)
    ensures Settled(fs) ==> Settled(SyncNames(fs, d))
  {
    SyncNamesHolds(fs, d);
    NarrowsKeepsSound(fs, SyncNames(fs, d), g, sha);
  }

  // ---- Calls that change what the journal says.

  lemma RenameHolds(fs: Fs, from: Loc, to: Loc)
    requires WellFormed(fs) && from in fs.view && from != to
    ensures var after := RenameName(fs, from, to);
            && WellFormed(after)
            && (forall l, v :: MayHold(after, l, v) <==>
                  MayHold(fs, l, v) || (l == to && v == Some(fs.view[from])) || (l == from && v == None))
            && (forall l :: Get(after.view, l) == if l == to then Some(fs.view[from]) else if l == from then None else Get(fs.view, l))
  {
    var after := RenameName(fs, from, to);
    assert forall l, v :: MayHold(after, l, v) <==>
        MayHold(fs, l, v) || (l == to && v == Some(fs.view[from])) || (l == from && v == None);
    assert MayHold(fs, from, Get(fs.view, from));
    forall l
      ensures MayHold(after, l, Get(after.view, l))
    {
      assert MayHold(fs, l, Get(fs.view, l));
    }
  }

  /** `after` differs from `fs` in the names that matter at `at` only. */
  ghost predicate OnlyAt(fs: Fs, after: Fs, at: Loc) {
    && WellFormed(after)
    && after.files == fs.files
    && (forall l, v :: Matters(l) && l != at ==> MayHold(after, l, v) == MayHold(fs, l, v))
    && (forall l :: InFolder(l) && l != at ==> Get(after.view, l) == Get(fs.view, l))
  }

  /** A file that may appear under a name must be what that name promises. */
  ghost predicate Fits(fs: Fs, g: Ledger, l: Loc, j: Ino) {
    && (InFolder(l) ==> j in fs.files && fs.files[j].content.Raw?)
    && (l.dir.Items? && l.name.RecordOf? ==> IsRecord(fs, g, l.name.id, j))
    && (l.dir.Items? && l.name.DataOf? ==> IsCopy(fs, g, l.name.id, j))
  }

  lemma OnlyAtKeepsItems(fs: Fs, after: Fs, g: Ledger, sha: Bytes -> Digest, at: Loc)
    requires Sound(fs, g, sha) && OnlyAt(fs, after, at)
    requires forall j :: MayHold(after, at, Some(j)) ==> Fits(fs, g, at, j)
    ensures LineageOk(after, g) && FoldersOk(after) && CoresOk(after, g, sha) && ItemsOk(after, g)
  {
    forall k, j | MayHold(after, DataAt(k), Some(j))
      ensures IsCopy(after, g, k, j)
    {
      if DataAt(k) == at {
        assert Fits(fs, g, at, j);
      }
      assert IsCopy(fs, g, k, j);
    }
    forall k, j | MayHold(after, RecordAt(k), Some(j))
      ensures IsRecord(after, g, k, j)
    {
      if RecordAt(k) == at {
        assert Fits(fs, g, at, j);
      }
      assert IsRecord(fs, g, k, j);
    }
    forall l, j | InFolder(l) && MayHold(after, l, Some(j))
      ensures j in fs.files && fs.files[j].content.Raw?
    {
      if l == at {
        assert Fits(fs, g, at, j);
      }
    }
  }

  /** The one way a change of one name can be unsound is by taking the last
      safe copy of a file. */
  lemma OnlyAtKeepsSound(fs: Fs, after: Fs, g: Ledger, sha: Bytes -> Digest, at: Loc)
    requires Sound(fs, g, sha) && OnlyAt(fs, after, at)
    requires forall j :: MayHold(after, at, Some(j)) ==> Fits(fs, g, at, j)
    requires forall o :: o in g.owed && FolderCopy(fs, g, o, at) ==> Safe(after, g, o)
    requires forall o, k :: o in g.owed && DataCopy(fs, g, o, k) && !AtRisk(fs, g, k) ==> Safe(after, g, o)
    ensures Sound(after, g, sha)
  {
    OnlyAtKeepsItems(fs, after, g, sha, at);
    forall o | o in g.owed
      ensures Safe(after, g, o)
    {
      if l :| FolderCopy(fs, g, o, l) {
        if l != at {
          assert MayHold(after, l, Get(after.disk, l));
          assert FolderCopy(after, g, o, l);
        }
      }
    }
  }

  /** A stored copy is as safe as before while its names are left alone. */
  lemma CopyKept(fs: Fs, after: Fs, g: Ledger, at: Loc, o: Original, k: Id)
    requires OnlyAt(fs, after, at) && DataCopy(fs, g, o, k) && at != DataAt(k)
    requires MayHold(after, RecordAt(k), None) ==> MayHold(fs, RecordAt(k), None)
    ensures DataCopy(after, g, o, k)
  {
    assert MayHold(after, DataAt(k), Get(after.disk, DataAt(k)));
  }

  lemma FitsAlready(fs: Fs, g: Ledger, sha: Bytes -> Digest, l: Loc)
    requires Sound(fs, g, sha)
    ensures forall j :: MayHold(fs, l, Some(j)) ==> Fits(fs, g, l, j)
  {
    forall j | MayHold(fs, l, Some(j))
      ensures Fits(fs, g, l, j)
    {
      if l.dir.Items? && l.name.RecordOf? {
        assert l == RecordAt(l.name.id);
      } else if l.dir.Items? && l.name.DataOf? {
        assert l == DataAt(l.name.id);
      }
    }
  }

  /** An item's copy comes to be at risk only by its record being written or
      its original being put back. */
  lemma NoNewRisk(fs: Fs, after: Fs, g: Ledger, sha: Bytes -> Digest, at: Loc, k: Id)
    requires Sound(fs, g, sha) && OnlyAt(fs, after, at) && AtRisk(after, g, k)
    requires MayBePending(after, k) ==> MayBePending(fs, k)
    requires forall i :: Get(after.view, at) == Some(i) && InFolder(at) ==> Get(fs.view, at) == Some(i) || i != g.cores[k].ino
    requires forall i :: MayHold(after, at, Some(i)) && InFolder(at) ==> MayHold(fs, at, Some(i)) || i != g.cores[k].ino
    ensures AtRisk(fs, g, k)
  {
  }

  /** The ledger may learn of originals, records and files. */
  ghost predicate Extends(g: Ledger, g': Ledger) {
    && (forall o :: o in g.plain ==> o in g'.plain && g'.plain[o] == g.plain[o])
    && (forall i :: i in g.lineage ==> i in g'.lineage && g'.lineage[i] == g.lineage[i])
    && (forall id :: id in g.cores ==> id in g'.cores && g'.cores[id] == g.cores[id])
    && (forall id :: id in g.source ==> id in g'.source && g'.source[id] == g.source[id])
  }

  /** A file's lineage is as it was, for the files of items. */
  ghost predicate SameLineages(g: Ledger, g': Ledger) {
    forall id :: id in g.cores && g.cores[id].ino in g'.lineage ==> g.cores[id].ino in g.lineage
  }

  lemma LedgerStep(fs: Fs, g: Ledger, g': Ledger, sha: Bytes -> Digest)
    requires Sound(fs, g, sha) && Extends(g, g') && SameLineages(g, g') && g'.owed <= g.owed
    requires LineageOk(fs, g') && CoresOk(fs, g', sha)
    ensures Sound(fs, g', sha)
    ensures Calm(fs, g) ==> Calm(fs, g')
  {
    forall id, j | MayHold(fs, RecordAt(id), Some(j))
      ensures IsRecord(fs, g', id, j)
    {
      assert IsRecord(fs, g, id, j);
    }
    forall id, j | MayHold(fs, DataAt(id), Some(j))
      ensures IsCopy(fs, g', id, j)
    {
      assert IsCopy(fs, g, id, j);
    }
    forall o, k | DataCopy(fs, g, o, k)
      ensures DataCopy(fs, g', o, k) && AtRisk(fs, g', k) == AtRisk(fs, g, k)
    {
    }
    forall o | o in g'.owed
      ensures Safe(fs, g', o)
    {
      if l :| FolderCopy(fs, g, o, l) {
        assert FolderCopy(fs, g', o, l);
      }
    }
    forall k | Decidable(fs, g, k)
      ensures Decidable(fs, g', k)
    {
    }
  }

  /** The original a new item of file `i` is a copy of. */
  function SourceOf(g: Ledger, i: Ino, id: Id): (o: Original) {
    if i in g.lineage then g.lineage[i] else Taken(id)
  }

  /** The ledger with a new item, a copy of `bytes`. */
  function WithItem(g: Ledger, c: Core, bytes: Bytes): (g': Ledger) {
    var o := SourceOf(g, c.ino, c.id);
    g.(plain := g.plain[o := bytes], cores := g.cores[c.id := c], source := g.source[c.id := o])
  }

  /** `bytes` may be the copy of file `i`: they are its bytes, if those are on
      disk. */
  predicate CopiedFrom(g: Ledger, i: Ino, bytes: Bytes) {
    i in g.lineage ==> Get(g.plain, g.lineage[i]) == Some(bytes)
  }

  /** A first record may be written for a file under a user's name. */
  lemma RegisterItem(fs: Fs, g: Ledger, sha: Bytes -> Digest, c: Core, bytes: Bytes)
    requires Sound(fs, g, sha) && c.id !in g.cores
    requires |c.key| == Cipher.KEY_LEN && InFolder(c.origin) && c.ino in fs.files && CopiedFrom(g, c.ino, bytes)
    requires c.sha256 == sha(bytes)
    ensures Sound(fs, WithItem(g, c, bytes), sha) && Extends(g, WithItem(g, c, bytes))
    ensures Calm(fs, g) ==> Calm(fs, WithItem(g, c, bytes))
    ensures ItemBytes(WithItem(g, c, bytes), c.id) == bytes
  {
    var g' := WithItem(g, c, bytes);
    WithItemExtends(fs, g, c, bytes);
    WithItemLineage(fs, g, c, bytes);
    WithItemCores(fs, g, sha, c, bytes);
    hide WithItem, Extends, LineageOk, CoresOk, Calm;
    LedgerStep(fs, g, g', sha);
  }

  lemma WithItemExtends(fs: Fs, g: Ledger, c: Core, bytes: Bytes)
    requires LineageOk(fs, g) && c.id !in g.cores && CopiedFrom(g, c.ino, bytes)
    ensures var g' := WithItem(g, c, bytes); Extends(g, g') && SameLineages(g, g') && g'.owed <= g.owed
    ensures ItemBytes(WithItem(g, c, bytes), c.id) == bytes
  {
  }

  lemma WithItemLineage(fs: Fs, g: Ledger, c: Core, bytes: Bytes)
    requires LineageOk(fs, g) && c.id !in g.cores && CopiedFrom(g, c.ino, bytes)
    ensures LineageOk(fs, WithItem(g, c, bytes))
  {
    hide BytesOf;
  }

  lemma WithItemCores(fs: Fs, g: Ledger, sha: Bytes -> Digest, c: Core, bytes: Bytes)
    requires CoresOk(fs, g, sha) && c.id !in g.cores && CopiedFrom(g, c.ino, bytes)
    requires Taken(c.id) in g.plain ==> c.id in g.cores
    requires |c.key| == Cipher.KEY_LEN && InFolder(c.origin) && c.ino in fs.files && c.sha256 == sha(bytes)
    ensures CoresOk(fs, WithItem(g, c, bytes), sha)
  {
    var g' := WithItem(g, c, bytes);
    forall id | id in g.cores
      ensures ItemBytes(g', id) == ItemBytes(g, id) && id in g'.source && g'.source[id] == g.source[id]
    {
    }
  }

  /** A copy that is there for good and that recovery will keep can be promised. */
  lemma PromiseItem(fs: Fs, g: Ledger, sha: Bytes -> Digest, id: Id, o: Original)
    requires Sound(fs, g, sha) && DataCopy(fs, g, o, id) && !AtRisk(fs, g, id)
    ensures Sound(fs, g.(owed := g.owed + {o}), sha)
    ensures Calm(fs, g) ==> Calm(fs, g.(owed := g.owed + {o}))
  {
    var g' := g.(owed := g.owed + {o});
    SameButOwed(fs, g, g', sha);
    forall p | p in g'.owed
      ensures Safe(fs, g', p)
    {
      if p == o {
        assert DataCopy(fs, g', o, id) && !AtRisk(fs, g', id);
      } else {
        SafeButOwed(fs, g, g', p);
      }
    }
  }

  lemma SameButOwed(fs: Fs, g: Ledger, g': Ledger, sha: Bytes -> Digest)
    requires Sound(fs, g, sha) && g' == g.(owed := g'.owed) && g'.owed <= g.plain.Keys
    ensures LineageOk(fs, g') && CoresOk(fs, g', sha) && ItemsOk(fs, g')
    ensures Calm(fs, g) ==> Calm(fs, g')
  {
    forall id, j | MayHold(fs, RecordAt(id), Some(j))
      ensures IsRecord(fs, g', id, j)
    {
      assert IsRecord(fs, g, id, j);
    }
    forall id, j | MayHold(fs, DataAt(id), Some(j))
      ensures IsCopy(fs, g', id, j)
    {
      assert IsCopy(fs, g, id, j);
    }
    forall k | Decidable(fs, g, k)
      ensures Decidable(fs, g', k)
    {
    }
  }

  lemma SafeButOwed(fs: Fs, g: Ledger, g': Ledger, o: Original)
    requires Safe(fs, g, o) && g' == g.(owed := g'.owed)
    ensures Safe(fs, g', o)
  {
    if l :| FolderCopy(fs, g, o, l) {
      assert FolderCopy(fs, g', o, l);
    } else {
      var id :| DataCopy(fs, g, o, id) && !AtRisk(fs, g, id);
      assert DataCopy(fs, g', o, id) && !AtRisk(fs, g', id);
    }
  }

  /** Renaming a synced record over `items/<id>.json`. A first, pending record
      may only be written before a copy is committed. */
  lemma CommitRecord(fs: Fs, g: Ledger, sha: Bytes -> Digest, id: Id)
    requires Sound(fs, g, sha) && RecordTmpAt(id) in fs.view
    requires IsRecord(fs, g, id, fs.view[RecordTmpAt(id)])
    requires fs.files[fs.view[RecordTmpAt(id)]].content.rec.state == Pending ==> DataAt(id) !in fs.disk
    ensures Sound(RenameName(fs, RecordTmpAt(id), RecordAt(id)), g, sha)
  {
    hide Sound;
    var after := RenameName(fs, RecordTmpAt(id), RecordAt(id));
    CommitRecordHolds(fs, g, sha, id);
    forall o, k | o in g.owed && DataCopy(fs, g, o, k) && !AtRisk(fs, g, k)
      ensures Safe(after, g, o)
    {
      CopyKept(fs, after, g, RecordAt(id), o, k);
      CommitRecordPending(fs, id, k);
      if AtRisk(after, g, k) {
        NoNewRisk(fs, after, g, sha, RecordAt(id), k);
      }
    }
    OnlyAtKeepsSound(fs, after, g, sha, RecordAt(id));
  }

  lemma CommitRecordHolds(fs: Fs, g: Ledger, sha: Bytes -> Digest, id: Id)
    requires Sound(fs, g, sha) && RecordTmpAt(id) in fs.view && IsRecord(fs, g, id, fs.view[RecordTmpAt(id)])
    ensures var after := RenameName(fs, RecordTmpAt(id), RecordAt(id));
            && OnlyAt(fs, after, RecordAt(id))
            && (forall j :: MayHold(after, RecordAt(id), Some(j)) ==> Fits(fs, g, RecordAt(id), j))
            && (forall k :: MayHold(after, RecordAt(k), None) ==> MayHold(fs, RecordAt(k), None))
  {
    hide Sound, IsRecord;
    SoundNames(fs, g, sha, RecordTmpAt(id));
    RenameHolds(fs, RecordTmpAt(id), RecordAt(id));
    FitsAlready(fs, g, sha, RecordAt(id));
  }

  lemma CommitRecordPending(fs: Fs, id: Id, k: Id)
    requires RecordTmpAt(id) in fs.view && fs.view[RecordTmpAt(id)] in fs.files
    requires fs.files[fs.view[RecordTmpAt(id)]].content.Json?
    ensures MayBePending(RenameName(fs, RecordTmpAt(id), RecordAt(id)), k)
       <==> MayBePending(fs, k) || (k == id && fs.files[fs.view[RecordTmpAt(id)]].content.rec.state == Pending)
  {
    var after := RenameName(fs, RecordTmpAt(id), RecordAt(id));
    if MayBePending(fs, k) {
      var j :| MayHold(fs, RecordAt(k), Some(j)) && j in fs.files && fs.files[j].content.Json?
               && fs.files[j].content.rec.state == Pending;
      assert MayHold(after, RecordAt(k), Some(j));
    }
    if MayBePending(after, k) {
      var j :| MayHold(after, RecordAt(k), Some(j)) && j in fs.files && fs.files[j].content.Json?
               && fs.files[j].content.rec.state == Pending;
      assert MayHold(fs, RecordAt(k), Some(j)) || (k == id && j == fs.view[RecordTmpAt(id)]);
    }
    assert MayHold(after, RecordAt(id), Some(fs.view[RecordTmpAt(id)]));
  }

  /** A record that says something else than pending disturbs no pending item;
      a first pending record is decidable while its original is there for good. */
  lemma CommitRecordKeepsCalm(fs: Fs, g: Ledger, sha: Bytes -> Digest, id: Id)
    requires Sound(fs, g, sha) && RecordTmpAt(id) in fs.view
    requires IsRecord(fs, g, id, fs.view[RecordTmpAt(id)])
    requires Calm(fs, g)
    requires fs.files[fs.view[RecordTmpAt(id)]].content.rec.state == Pending ==> Decidable(fs, g, id)
    ensures Calm(RenameName(fs, RecordTmpAt(id), RecordAt(id)), g)
  {
    var after := RenameName(fs, RecordTmpAt(id), RecordAt(id));
    RenameHolds(fs, RecordTmpAt(id), RecordAt(id));
    forall k | MayBePending(after, k)
      ensures Decidable(after, g, k)
    {
      CommitRecordPending(fs, id, k);
      assert Decidable(fs, g, k);
      var c := g.cores[k];
      if Get(fs.view, c.origin) == Some(c.ino) {
        assert forall v :: MayHold(after, c.origin, v) ==> MayHold(fs, c.origin, v);
      } else {
        assert Stable(after, DataAt(k), fs.disk[DataAt(k)]);
      }
    }
  }

  /** Renaming a synced, complete copy to `items/<id>.data`. */
  lemma CommitCopy(fs: Fs, g: Ledger, sha: Bytes -> Digest, id: Id)
    requires Sound(fs, g, sha) && DataTmpAt(id) in fs.view && DataAt(id) !in fs.disk
    requires IsCopy(fs, g, id, fs.view[DataTmpAt(id)])
    ensures Sound(RenameName(fs, DataTmpAt(id), DataAt(id)), g, sha)
    ensures Calm(fs, g) ==> Calm(RenameName(fs, DataTmpAt(id), DataAt(id)), g)
  {
    hide Sound;
    var after := RenameName(fs, DataTmpAt(id), DataAt(id));
    CommitCopyHolds(fs, g, sha, id);
    forall o, k | DataCopy(fs, g, o, k)
      ensures DataCopy(after, g, o, k)
    {
      CopyKept(fs, after, g, DataAt(id), o, k);
    }
    forall o, k | DataCopy(fs, g, o, k) && !AtRisk(fs, g, k)
      ensures Safe(after, g, o)
    {
      if AtRisk(after, g, k) {
        NoNewRisk(fs, after, g, sha, DataAt(id), k);
      }
    }
    OnlyAtKeepsSound(fs, after, g, sha, DataAt(id));
    CommitCopyKeepsCalm(fs, g, sha, id);
  }

  lemma CommitCopyHolds(fs: Fs, g: Ledger, sha: Bytes -> Digest, id: Id)
    requires Sound(fs, g, sha) && DataTmpAt(id) in fs.view && IsCopy(fs, g, id, fs.view[DataTmpAt(id)])
    ensures var after := RenameName(fs, DataTmpAt(id), DataAt(id));
            && OnlyAt(fs, after, DataAt(id))
            && (forall j :: MayHold(after, DataAt(id), Some(j)) ==> Fits(fs, g, DataAt(id), j))
            && (forall k :: MayBePending(after, k) ==> MayBePending(fs, k))
            && (forall k :: MayHold(after, RecordAt(k), None) ==> MayHold(fs, RecordAt(k), None))
  {
    hide Sound, IsCopy;
    SoundNames(fs, g, sha, DataTmpAt(id));
    RenameHolds(fs, DataTmpAt(id), DataAt(id));
    FitsAlready(fs, g, sha, DataAt(id));
  }

  lemma CommitCopyKeepsCalm(fs: Fs, g: Ledger, sha: Bytes -> Digest, id: Id)
    requires Sound(fs, g, sha) && DataTmpAt(id) in fs.view && DataAt(id) !in fs.disk
    requires IsCopy(fs, g, id, fs.view[DataTmpAt(id)])
    ensures Calm(fs, g) ==> Calm(RenameName(fs, DataTmpAt(id), DataAt(id)), g)
  {
    var after := RenameName(fs, DataTmpAt(id), DataAt(id));
    CommitCopyHolds(fs, g, sha, id);
    forall k | Decidable(fs, g, k)
      ensures Decidable(after, g, k)
    {
      var c := g.cores[k];
      if Get(fs.view, c.origin) == Some(c.ino) {
        assert forall v :: MayHold(after, c.origin, v) ==> MayHold(fs, c.origin, v);
      } else {
        CopyKept(fs, after, g, DataAt(id), g.source[k], k);
      }
    }
  }

  lemma UnlinkHolds(fs: Fs, l: Loc)
    requires WellFormed(fs)
    ensures var after := UnlinkName(fs, l);
            && WellFormed(after)
            && (forall k, v :: MayHold(after, k, v) <==> MayHold(fs, k, v) || (k == l && v == None))
            && (forall k :: Get(after.view, k) == if k == l then None else Get(fs.view, k))
  {
    var after := UnlinkName(fs, l);
    assert forall k, v :: MayHold(after, k, v) <==> MayHold(fs, k, v) || (k == l && v == None);
    forall k
      ensures MayHold(after, k, Get(after.view, k))
    {
      assert MayHold(fs, k, Get(fs.view, k));
    }
  }

  /** After `l` is unlinked, `o` is still safe without it. */
  ghost predicate Spare(fs: Fs, g: Ledger, l: Loc, o: Original) {
    || (exists k :: k != l && FolderCopy(fs, g, o, k))
    || (exists id :: DataCopy(fs, g, o, id) && (AtRisk(fs, g, id) ==> g.cores[id].origin == l && g.cores[id].ino in g.lineage))
  }

  /** A user's name may be unlinked exactly when every file it was the safe copy
      of has another. */
  lemma RemoveNameExactlyWhen(fs: Fs, g: Ledger, sha: Bytes -> Digest, l: Loc)
    requires Sound(fs, g, sha) && InFolder(l) && l in fs.view
    ensures Sound(UnlinkName(fs, l), g, sha) <==> forall o :: o in g.owed && FolderCopy(fs, g, o, l) ==> Spare(fs, g, l, o)
  {
    hide Sound;
    SoundNames(fs, g, sha, l);
    var after := UnlinkName(fs, l);
    UnlinkHolds(fs, l);
    assert OnlyAt(fs, after, l);
    if Sound(after, g, sha) {
      forall o | o in g.owed && FolderCopy(fs, g, o, l)
        ensures Spare(fs, g, l, o)
      {
        SoundSafe(after, g, sha, o);
        SafeWasSpare(fs, g, l, o);
      }
    }
    if forall o :: o in g.owed && FolderCopy(fs, g, o, l) ==> Spare(fs, g, l, o) {
      forall o | o in g.owed && FolderCopy(fs, g, o, l)
        ensures Safe(after, g, o)
      {
        SpareIsSafe(fs, g, l, o);
      }
      forall o, k | o in g.owed && DataCopy(fs, g, o, k) && !AtRisk(fs, g, k)
        ensures Safe(after, g, o)
      {
        assert Spare(fs, g, l, o);
        SpareIsSafe(fs, g, l, o);
      }
      FitsAlready(fs, g, sha, l);
      OnlyAtKeepsSound(fs, after, g, sha, l);
    }
  }

  lemma SoundNames(fs: Fs, g: Ledger, sha: Bytes -> Digest, l: Loc)
    requires Sound(fs, g, sha)
    ensures WellFormed(fs) && MayHold(fs, l, Get(fs.view, l))
  {
  }

  lemma SoundSafe(fs: Fs, g: Ledger, sha: Bytes -> Digest, o: Original)
    requires Sound(fs, g, sha) && o in g.owed
    ensures Safe(fs, g, o)
  {
  }

  lemma SafeWasSpare(fs: Fs, g: Ledger, l: Loc, o: Original)
    requires WellFormed(fs) && InFolder(l) && Safe(UnlinkName(fs, l), g, o)
    ensures Spare(fs, g, l, o)
  {
    var after := UnlinkName(fs, l);
    UnlinkHolds(fs, l);
    if k :| FolderCopy(after, g, o, k) {
      if k == l {
        assert MayHold(after, l, None);
      }
      assert forall v :: MayHold(fs, k, v) ==> MayHold(after, k, v);
      assert FolderCopy(fs, g, o, k);
    } else {
      var id :| DataCopy(after, g, o, id) && !AtRisk(after, g, id);
      assert forall v :: MayHold(after, DataAt(id), v) == MayHold(fs, DataAt(id), v);
      assert DataCopy(fs, g, o, id);
      if AtRisk(fs, g, id) {
        UnlinkPending(fs, l, id);
      }
    }
  }

  lemma UnlinkPending(fs: Fs, l: Loc, id: Id)
    requires InFolder(l) && WellFormed(fs)
    ensures MayBePending(UnlinkName(fs, l), id) <==> MayBePending(fs, id)
  {
    UnlinkHolds(fs, l);
    var after := UnlinkName(fs, l);
    assert forall j :: MayHold(after, RecordAt(id), Some(j)) == MayHold(fs, RecordAt(id), Some(j));
  }

  lemma SpareIsSafe(fs: Fs, g: Ledger, l: Loc, o: Original)
    requires WellFormed(fs) && InFolder(l) && Spare(fs, g, l, o)
    ensures Safe(UnlinkName(fs, l), g, o)
  {
    var after := UnlinkName(fs, l);
    UnlinkHolds(fs, l);
    assert OnlyAt(fs, after, l);
    if k :| k != l && FolderCopy(fs, g, o, k) {
      assert MayHold(after, k, Get(after.disk, k));
      assert FolderCopy(after, g, o, k);
    } else {
      var id :| DataCopy(fs, g, o, id) && (AtRisk(fs, g, id) ==> g.cores[id].origin == l && g.cores[id].ino in g.lineage);
      CopyKept(fs, after, g, l, o, id);
      UnlinkPending(fs, l, id);
      assert !AtRisk(after, g, id);
    }
  }

  /** The original may be unlinked once its copy is there for good. */
  lemma RemoveOriginal(fs: Fs, g: Ledger, sha: Bytes -> Digest, id: Id)
    requires Sound(fs, g, sha) && id in g.source && DataCopy(fs, g, g.source[id], id)
    requires Get(fs.view, g.cores[id].origin) == Some(g.cores[id].ino)
    ensures Sound(UnlinkName(fs, g.cores[id].origin), g, sha)
  {
    var l := g.cores[id].origin;
    forall o | o in g.owed && FolderCopy(fs, g, o, l)
      ensures Spare(fs, g, l, o)
    {
      assert MayHold(fs, l, Get(fs.view, l));
      assert DataCopy(fs, g, o, id);
    }
    RemoveNameExactlyWhen(fs, g, sha, l);
  }

  predicate SameFile(a: Core, b: Core) {
    a.origin == b.origin && a.ino == b.ino
  }

  /** No other item that may be found pending is of the same file and name. */
  ghost predicate NoRival(fs: Fs, g: Ledger, id: Id) {
    && id in g.cores
    && forall k :: MayBePending(fs, k) && k in g.cores && SameFile(g.cores[k], g.cores[id]) ==> k == id
  }

  lemma RemoveOriginalKeepsCalm(fs: Fs, g: Ledger, sha: Bytes -> Digest, id: Id)
    requires Sound(fs, g, sha) && Calm(fs, g) && NoRival(fs, g, id)
    requires id in g.source && DataCopy(fs, g, g.source[id], id)
    requires Get(fs.view, g.cores[id].origin) == Some(g.cores[id].ino)
    ensures Calm(UnlinkName(fs, g.cores[id].origin), g)
  {
    var l := g.cores[id].origin;
    var after := UnlinkName(fs, l);
    UnlinkHolds(fs, l);
    assert OnlyAt(fs, after, l);
    forall k | MayBePending(after, k)
      ensures Decidable(after, g, k)
    {
      UnlinkPending(fs, l, k);
      assert Decidable(fs, g, k);
      var c := g.cores[k];
      if c.origin != l && Get(fs.view, c.origin) == Some(c.ino) {
        assert forall v :: MayHold(after, c.origin, v) ==> MayHold(fs, c.origin, v);
      } else {
        CopyKept(fs, after, g, l, g.source[k], k);
      }
    }
  }

  /** A copy may be discarded when recovery would discard it anyway, when its
      file is back under a user's name for good, or once its delete began. */
  lemma RemoveCopy(fs: Fs, g: Ledger, sha: Bytes -> Digest, id: Id)
    requires Sound(fs, g, sha) && id in g.source
    requires AtRisk(fs, g, id) || g.source[id] !in g.owed || exists l :: FolderCopy(fs, g, g.source[id], l)
    ensures Sound(UnlinkName(fs, DataAt(id)), g, sha)
    ensures Settled(fs) ==> Settled(UnlinkName(fs, DataAt(id)))
  {
    hide Sound;
    var after := UnlinkName(fs, DataAt(id));
    RemoveCopyHolds(fs, g, sha, id);
    forall o, k | o in g.owed && DataCopy(fs, g, o, k) && !AtRisk(fs, g, k)
      ensures Safe(after, g, o)
    {
      if k == id {
        var l :| FolderCopy(fs, g, o, l);
        assert MayHold(after, l, Get(after.disk, l));
        assert FolderCopy(after, g, o, l);
      } else {
        CopyKept(fs, after, g, DataAt(id), o, k);
        if AtRisk(after, g, k) {
          NoNewRisk(fs, after, g, sha, DataAt(id), k);
        }
      }
    }
    OnlyAtKeepsSound(fs, after, g, sha, DataAt(id));
  }

  lemma RemoveCopyHolds(fs: Fs, g: Ledger, sha: Bytes -> Digest, id: Id)
    requires Sound(fs, g, sha)
    ensures var after := UnlinkName(fs, DataAt(id));
            && OnlyAt(fs, after, DataAt(id))
            && (forall j :: MayHold(after, DataAt(id), Some(j)) ==> Fits(fs, g, DataAt(id), j))
            && (forall k :: MayBePending(after, k) ==> MayBePending(fs, k))
            && (forall k :: MayHold(after, RecordAt(k), None) ==> MayHold(fs, RecordAt(k), None))
  {
    UnlinkHolds(fs, DataAt(id));
    FitsAlready(fs, g, sha, DataAt(id));
  }

  lemma RemoveCopyKeepsCalm(fs: Fs, g: Ledger, sha: Bytes -> Digest, id: Id)
    requires Sound(fs, g, sha) && id in g.cores && Calm(fs, g)
    requires MayBePending(fs, id) ==> Get(fs.view, g.cores[id].origin) == Some(g.cores[id].ino)
    ensures Calm(UnlinkName(fs, DataAt(id)), g)
  {
    var after := UnlinkName(fs, DataAt(id));
    UnlinkHolds(fs, DataAt(id));
    forall k | MayBePending(after, k)
      ensures Decidable(after, g, k)
    {
      assert MayBePending(fs, k);
      var c := g.cores[k];
      if Get(fs.view, c.origin) == Some(c.ino) {
        assert forall v :: MayHold(after, c.origin, v) ==> MayHold(fs, c.origin, v);
      } else {
        assert Stable(after, DataAt(k), fs.disk[DataAt(k)]);
      }
    }
  }

  /** A synced file with an item's bytes joins the lineage of its original. */
  lemma JoinLineage(fs: Fs, g: Ledger, sha: Bytes -> Digest, i: Ino, id: Id)
    requires Sound(fs, g, sha) && id in g.cores && id in g.source && i !in g.lineage
    requires forall k :: k in g.cores ==> g.cores[k].ino != i
    requires i in fs.files && fs.files[i] == File(Raw(ItemBytes(g, id)), true)
    ensures Sound(fs, g.(lineage := g.lineage[i := g.source[id]]), sha)
    ensures Calm(fs, g) ==> Calm(fs, g.(lineage := g.lineage[i := g.source[id]]))
  {
    LedgerStep(fs, g, g.(lineage := g.lineage[i := g.source[id]]), sha);
  }

  /** A file with a lineage may be put under a free name of a user. */
  lemma PutTarget(fs: Fs, g: Ledger, sha: Bytes -> Digest, tmp: Loc, target: Loc)
    requires Sound(fs, g, sha) && tmp in fs.view && tmp.name.RestoreTmp? && fs.view[tmp] in g.lineage
    requires InFolder(target) && target !in fs.view
    requires forall id :: id in g.cores ==> g.cores[id].ino != fs.view[tmp]
    ensures Sound(LinkName(fs, target, fs.view[tmp]), g, sha)
    ensures Settled(fs) ==> Settled(LinkName(fs, target, fs.view[tmp]))
  {
    hide Sound;
    var i := fs.view[tmp];
    var after := LinkName(fs, target, i);
    SoundNames(fs, g, sha, target);
    SoundFile(fs, g, sha, i);
    LinkHolds(fs, target, i);
    FitsAlready(fs, g, sha, target);
    assert forall k :: MayBePending(after, k) ==> MayBePending(fs, k);
    forall o, k | o in g.owed && DataCopy(fs, g, o, k) && !AtRisk(fs, g, k)
      ensures Safe(after, g, o)
    {
      CopyKept(fs, after, g, target, o, k);
      if AtRisk(after, g, k) {
        NoNewRisk(fs, after, g, sha, target, k);
      }
    }
    OnlyAtKeepsSound(fs, after, g, sha, target);
  }

  lemma SoundFile(fs: Fs, g: Ledger, sha: Bytes -> Digest, i: Ino)
    requires Sound(fs, g, sha) && i in g.lineage
    ensures i in fs.files && fs.files[i].content.Raw? && fs.files[i].synced
  {
  }

  lemma LinkHolds(fs: Fs, l: Loc, i: Ino)
    requires WellFormed(fs) && i in fs.files
    ensures var after := LinkName(fs, l, i);
            && WellFormed(after) && OnlyAt(fs, after, l)
            && (forall k, v :: MayHold(after, k, v) <==> MayHold(fs, k, v) || (k == l && v == Some(i)))
  {
    var after := LinkName(fs, l, i);
    assert forall k, v :: MayHold(after, k, v) <==> MayHold(fs, k, v) || (k == l && v == Some(i));
    forall k
      ensures MayHold(after, k, Get(after.view, k))
    {
      assert MayHold(fs, k, Get(fs.view, k));
    }
  }

  /** And that leaves every pending item decidable. */
  lemma PutTargetKeepsCalm(fs: Fs, g: Ledger, sha: Bytes -> Digest, i: Ino, target: Loc)
    requires Sound(fs, g, sha) && Calm(fs, g) && InFolder(target) && target !in fs.view
    requires i in fs.files && forall id :: id in g.cores ==> g.cores[id].ino != i
    ensures Calm(LinkName(fs, target, i), g)
  {
    hide Sound;
    var after := LinkName(fs, target, i);
    SoundNames(fs, g, sha, target);
    LinkHolds(fs, target, i);
    forall k | MayBePending(after, k)
      ensures Decidable(after, g, k)
    {
      var j :| MayHold(after, RecordAt(k), Some(j)) && j in after.files && after.files[j].content.Json?
               && after.files[j].content.rec.state == Pending;
      assert MayHold(fs, RecordAt(k), Some(j));
      assert MayBePending(fs, k) && Decidable(fs, g, k);
      var c := g.cores[k];
      if Get(fs.view, c.origin) == Some(c.ino) {
        assert forall v :: MayHold(after, c.origin, v) ==> MayHold(fs, c.origin, v);
      } else {
        assert Stable(after, DataAt(k), fs.disk[DataAt(k)]);
      }
    }
  }

  /** Beginning a delete gives up the promise for that file and no other. */
  lemma BeginDelete(fs: Fs, g: Ledger, sha: Bytes -> Digest, o: Original)
    requires Sound(fs, g, sha)
    ensures Sound(fs, g.(owed := g.owed - {o}), sha)
    ensures Calm(fs, g) ==> Calm(fs, g.(owed := g.owed - {o}))
  {
    LedgerStep(fs, g, g.(owed := g.owed - {o}), sha);
  }

  lemma SettledIsCalm(fs: Fs, g: Ledger)
    requires Settled(fs)
    ensures Calm(fs, g)
  {
  }

  lemma NarrowsTransitive(a: Fs, b: Fs, c: Fs)
    requires Narrows(a, b) && Narrows(b, c)
    ensures Narrows(a, c)
  {
  }

  lemma NarrowsAbsent(a: Fs, b: Fs, l: Loc)
    requires Narrows(a, b) && Matters(l) && Absent(a, l)
    ensures Absent(b, l)
  {
  }
}
