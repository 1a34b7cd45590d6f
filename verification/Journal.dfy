/** What the quarantine journal keeps true between any two system calls, and
    why that means no quarantined file is ever lost. */
module Journal {
  import opened Wrappers
  import opened FileSystem
  import opened Cipher

  /** What someone may want back: a file that was on disk, or the file that an
      item is a copy of, if that was not on disk when it was copied. */
  datatype Original = Durable(i: Ino) | Taken(id: Id)

  /** History a proof needs and the program does not store: the bytes of every
      original; for every file on disk that was ever under a user's name, the
      original it descends from (a restored file descends from the file that was
      quarantined); the originals that are promised; the fixed part of every
      record written; and the original each item is a copy of. */
  datatype Ledger = Ledger(
    plain: map<Original, Bytes>,
    lineage: map<Ino, Original>,
    owed: set<Original>,
    cores: map<Id, Core>,
    source: map<Id, Original>)

  /** The bytes of file `i`. */
  function BytesOf(fs: Fs, i: Ino): (b: Bytes) {
    if i in fs.files && fs.files[i].content.Raw? then fs.files[i].content.bytes else []
  }

  /** The bytes that item `id` is a copy of. */
  function ItemBytes(g: Ledger, id: Id): (b: Bytes) {
    if id in g.source && g.source[id] in g.plain then g.plain[g.source[id]] else []
  }

  /** What decoding the stored bytes with `key` gives, if the header is right. */
  function Decoded(key: Bytes, stored: Bytes): (plain: Option<Bytes>) {
    if |key| == KEY_LEN && |stored| >= |DATA_MAGIC| && stored[..|DATA_MAGIC|] == DATA_MAGIC
    then Some(Mask(key, 0, stored[|DATA_MAGIC|..]))
    else None
  }

  lemma DecodedUndoesEncoded(key: Bytes, plain: Bytes)
    requires |key| == KEY_LEN
    ensures Decoded(key, Encoded(key, plain)) == Some(plain)
  {
    var stored := Encoded(key, plain);
    assert stored[..|DATA_MAGIC|] == DATA_MAGIC;
    assert stored[|DATA_MAGIC|..] == Mask(key, 0, plain);
    MaskInvolution(key, 0, plain);
  }

  /** The record a reader of `items/<id>.json` gets. */
  function RecordSeen(fs: Fs, id: Id): (r: Option<Record>) {
    if RecordAt(id) in fs.view && fs.view[RecordAt(id)] in fs.files && fs.files[fs.view[RecordAt(id)]].content.Json?
    then Some(fs.files[fs.view[RecordAt(id)]].content.rec)
    else None
  }

  /** What decoding the file at `l` with `key` gives. */
  function PlainAt(fs: Fs, l: Loc, key: Bytes): (plain: Option<Bytes>) {
    if l in fs.view && fs.view[l] in fs.files && fs.files[fs.view[l]].content.Raw?
    then Decoded(key, fs.files[fs.view[l]].content.bytes)
    else None
  }

  /** What decoding `items/<id>.data` with the record's key gives. */
  function CopySeen(fs: Fs, id: Id, key: Bytes): (plain: Option<Bytes>) {
    PlainAt(fs, DataAt(id), key)
  }

  // ---- What the user is promised.

  /** The bytes of original `o` can be read: under a user's name (the original
      itself or a file restored from it), or by decoding a copy in the store. */
  ghost predicate Readable(fs: Fs, g: Ledger, o: Original, bytes: Bytes) {
    || (exists l :: InFolder(l) && l in fs.view && Get(g.lineage, fs.view[l]) == Some(o)
                    && fs.view[l] in fs.files && fs.files[fs.view[l]].content == Raw(bytes))
    || (exists id :: RecordSeen(fs, id).Some? && Get(g.source, id) == Some(o)
                     && CopySeen(fs, id, RecordSeen(fs, id).value.core.key) == Some(bytes))
  }

  /** No original that is promised is lost, crash or not. */
  ghost predicate NoLoss(fs: Fs, g: Ledger) {
    forall after, o :: Crash(fs, after) && o in g.owed ==> o in g.plain && Readable(after, g, o, g.plain[o])
  }

  // ---- The invariant.

  ghost predicate LineageOk(fs: Fs, g: Ledger) {
    && (forall i :: i in g.lineage ==>
          && i in fs.files && fs.files[i].synced && fs.files[i].content.Raw?
          && Get(g.plain, g.lineage[i]) == Some(BytesOf(fs, i)))
    && g.owed <= g.plain.Keys && g.source.Keys == g.cores.Keys
    && (forall id :: Taken(id) in g.plain ==> id in g.cores)
  }

  /** Whatever is under a user's name holds bytes, on disk or not. */
  ghost predicate FoldersOk(fs: Fs) {
    forall l, i :: InFolder(l) && MayHold(fs, l, Some(i)) ==> i in fs.files && fs.files[i].content.Raw?
  }

  /** An item is a copy of the original its file descends from, if that was on
      disk. */
  ghost predicate CoresOk(fs: Fs, g: Ledger, sha: Bytes -> Digest) {
    forall id :: id in g.cores ==>
      var c := g.cores[id];
      && c.id == id && |c.key| == KEY_LEN && InFolder(c.origin) && c.ino in fs.files
      && id in g.source && g.source[id] in g.plain && c.sha256 == sha(ItemBytes(g, id))
      && (c.ino in g.lineage ==> g.lineage[c.ino] == g.source[id])
  }

  ghost predicate IsRecord(fs: Fs, g: Ledger, id: Id, j: Ino) {
    && id in g.cores && j in fs.files && fs.files[j].synced
    && fs.files[j].content.Json? && fs.files[j].content.rec.core == g.cores[id]
  }

  ghost predicate IsCopy(fs: Fs, g: Ledger, id: Id, j: Ino) {
    && id in g.cores && j in fs.files && |g.cores[id].key| == KEY_LEN
    && fs.files[j] == File(Raw(Encoded(g.cores[id].key, ItemBytes(g, id))), true)
  }

  /** Whatever a crash leaves under a record's or a copy's name is a complete
      record of that item, or a complete copy of its file. */
  ghost predicate ItemsOk(fs: Fs, g: Ledger) {
    && (forall id, j :: MayHold(fs, RecordAt(id), Some(j)) ==> IsRecord(fs, g, id, j))
    && (forall id, j :: MayHold(fs, DataAt(id), Some(j)) ==> IsCopy(fs, g, id, j))
  }

  /** A user's name holds a descendant of `o` and no crash can change that. */
  ghost predicate FolderCopy(fs: Fs, g: Ledger, o: Original, l: Loc) {
    && InFolder(l) && l in fs.disk && Stable(fs, l, fs.disk[l])
    && Get(g.lineage, fs.disk[l]) == Some(o)
  }

  /** The store holds a copy of `o`, with its record, and no crash can change
      that. */
  ghost predicate DataCopy(fs: Fs, g: Ledger, o: Original, id: Id) {
    && id in g.cores && Get(g.source, id) == Some(o)
    && DataAt(id) in fs.disk && Stable(fs, DataAt(id), fs.disk[DataAt(id)])
    && !MayHold(fs, RecordAt(id), None)
  }

  ghost predicate MayBePending(fs: Fs, id: Id) {
    exists j :: MayHold(fs, RecordAt(id), Some(j)) && j in fs.files && fs.files[j].content.Json?
                && fs.files[j].content.rec.state == Pending
  }

  /** Item `id` may be found pending with its original still there, or there
      again with bytes that were never on disk: recovery would discard its copy. */
  ghost predicate AtRisk(fs: Fs, g: Ledger, id: Id) {
    && MayBePending(fs, id) && id in g.cores
    && (var c := g.cores[id];
        || Get(fs.view, c.origin) == Some(c.ino)
        || (c.ino !in g.lineage && MayHold(fs, c.origin, Some(c.ino))))
  }

  /** `o` has a copy that neither a crash nor recovery can take away. */
  ghost predicate Safe(fs: Fs, g: Ledger, o: Original) {
    || (exists l :: FolderCopy(fs, g, o, l))
    || (exists id :: DataCopy(fs, g, o, id) && !AtRisk(fs, g, id))
  }

  ghost predicate Sound(fs: Fs, g: Ledger, sha: Bytes -> Digest) {
    && WellFormed(fs)
    && LineageOk(fs, g)
    && FoldersOk(fs)
    && CoresOk(fs, g, sha)
    && ItemsOk(fs, g)
    && (forall o :: o in g.owed ==> Safe(fs, g, o))
  }

  /** Recovery can decide item `id`: its original is there for good, or it is
      gone and the copy is there for good. */
  ghost predicate Decidable(fs: Fs, g: Ledger, id: Id) {
    && id in g.cores
    && (var c := g.cores[id];
        if Get(fs.view, c.origin) == Some(c.ino)
        then Stable(fs, c.origin, c.ino)
        else id in g.source && DataCopy(fs, g, g.source[id], id))
  }

  /** Every item that may be found pending can be decided. */
  ghost predicate Calm(fs: Fs, g: Ledger) {
    forall id :: MayBePending(fs, id) ==> Decidable(fs, g, id)
  }

  /** No item can be found pending, whatever happens now. */
  ghost predicate Settled(fs: Fs) {
    forall id :: !MayBePending(fs, id)
  }

  // ---- The invariant is what the user is promised.

  lemma SafeIsReadable(fs: Fs, g: Ledger, sha: Bytes -> Digest, o: Original)
    requires Sound(fs, g, sha) && o in g.owed
    ensures o in g.plain && Readable(fs, g, o, g.plain[o])
  {
    if l :| FolderCopy(fs, g, o, l) {
      assert MayHold(fs, l, Get(fs.view, l));
      var i := fs.disk[l];
      assert MayHold(fs, l, Some(i));
      assert l in fs.view && fs.view[l] == i;
      assert fs.files[i].content == Raw(BytesOf(fs, i));
    } else {
      var id :| DataCopy(fs, g, o, id);
      assert MayHold(fs, DataAt(id), Get(fs.view, DataAt(id)));
      assert MayHold(fs, RecordAt(id), Get(fs.view, RecordAt(id)));
      var c := g.cores[id];
      assert IsCopy(fs, g, id, fs.view[DataAt(id)]);
      assert IsRecord(fs, g, id, fs.view[RecordAt(id)]);
      DecodedUndoesEncoded(c.key, ItemBytes(g, id));
      assert CopySeen(fs, id, RecordSeen(fs, id).value.core.key) == Some(g.plain[o]);
    }
  }

  // ---- Steps that keep the invariant.

  predicate Matters(l: Loc) {
    InFolder(l) || (l.dir.Items? && (l.name.RecordOf? || l.name.DataOf?))
  }

  /** `after` can hold nothing under a name that matters that `fs` could not,
      every file that had reached the disk is as it was, and what users' names
      refer to still holds bytes. */
  ghost predicate Narrows(fs: Fs, after: Fs) {
    && WellFormed(after)
    && (forall l, v :: Matters(l) && MayHold(after, l, v) ==> MayHold(fs, l, v))
    && (forall i :: i in fs.files && fs.files[i].synced ==> i in after.files && after.files[i] == fs.files[i])
    && (forall l, i :: InFolder(l) && MayHold(after, l, Some(i)) && i in fs.files && fs.files[i].content.Raw? ==>
          i in after.files && after.files[i].content.Raw?)
    && fs.files.Keys <= after.files.Keys
    && (forall l, i :: InFolder(l) && Get(after.view, l) == Some(i) && Get(fs.view, l) != Some(i) ==> Stable(after, l, i))
  }

  lemma NarrowsStable(fs: Fs, after: Fs, l: Loc)
    requires Matters(l) && l in fs.disk && Stable(fs, l, fs.disk[l]) && Narrows(fs, after)
    ensures l in after.disk && after.disk[l] == fs.disk[l] && Stable(after, l, after.disk[l])
  {
    assert MayHold(after, l, Get(after.disk, l));
    assert MayHold(fs, l, Get(after.disk, l));
  }

  lemma NarrowsSafe(fs: Fs, after: Fs, g: Ledger, sha: Bytes -> Digest, o: Original)
    requires Sound(fs, g, sha) && Narrows(fs, after) && Safe(fs, g, o)
    ensures Safe(after, g, o)
  {
    if l :| FolderCopy(fs, g, o, l) {
      NarrowsStable(fs, after, l);
      assert FolderCopy(after, g, o, l);
    } else {
      var id :| DataCopy(fs, g, o, id) && !AtRisk(fs, g, id);
      NarrowsStable(fs, after, DataAt(id));
      assert DataCopy(after, g, o, id);
      if AtRisk(after, g, id) {
        NarrowsRisk(fs, after, g, sha, id);
      }
    }
  }

  /** A copy comes to be at risk only by its original, which is on disk, being put
      back for good. */
  lemma NarrowsRisk(fs: Fs, after: Fs, g: Ledger, sha: Bytes -> Digest, id: Id)
    requires Sound(fs, g, sha) && Narrows(fs, after) && AtRisk(after, g, id) && !AtRisk(fs, g, id)
    ensures FolderCopy(after, g, g.source[id], g.cores[id].origin)
  {
    var c := g.cores[id];
    NarrowsPending(fs, after, g, sha, id);
    assert MayHold(after, c.origin, Get(after.view, c.origin));
    assert MayHold(after, c.origin, Get(after.disk, c.origin));
    assert Stable(after, c.origin, c.ino);
  }

  lemma NarrowsKeepsFiles(fs: Fs, after: Fs, g: Ledger, sha: Bytes -> Digest)
    requires Sound(fs, g, sha) && Narrows(fs, after)
    ensures LineageOk(after, g) && FoldersOk(after) && CoresOk(after, g, sha) && ItemsOk(after, g)
  {
    forall id, j | MayHold(after, RecordAt(id), Some(j))
      ensures IsRecord(after, g, id, j)
    {
      assert MayHold(fs, RecordAt(id), Some(j));
      assert IsRecord(fs, g, id, j);
    }
    forall id, j | MayHold(after, DataAt(id), Some(j))
      ensures IsCopy(after, g, id, j)
    {
      assert MayHold(fs, DataAt(id), Some(j));
      assert IsCopy(fs, g, id, j);
    }
  }

  lemma NarrowsPending(fs: Fs, after: Fs, g: Ledger, sha: Bytes -> Digest, id: Id)
    requires Sound(fs, g, sha) && Narrows(fs, after) && MayBePending(after, id)
    ensures MayBePending(fs, id) && id in g.cores
  {
    var j :| MayHold(after, RecordAt(id), Some(j)) && j in after.files && after.files[j].content.Json?
             && after.files[j].content.rec.state == Pending;
    assert MayHold(fs, RecordAt(id), Some(j));
    assert IsRecord(fs, g, id, j);
  }

  /** Writing temporaries, fsyncing anything and losing power all keep the
      invariant: they only narrow what a crash can leave. */
  lemma NarrowsKeepsSound(fs: Fs, after: Fs, g: Ledger, sha: Bytes -> Digest)
    requires Sound(fs, g, sha) && Narrows(fs, after)
    ensures Sound(after, g, sha)
    ensures Calm(fs, g) ==> Calm(after, g)
    ensures Settled(fs) ==> Settled(after)
  {
    NarrowsKeepsFiles(fs, after, g, sha);
    forall o | o in g.owed
      ensures Safe(after, g, o)
    {
      NarrowsSafe(fs, after, g, sha, o);
    }
    forall id | MayBePending(after, id)
      ensures MayBePending(fs, id)
      ensures Decidable(fs, g, id) ==> Decidable(after, g, id)
    {
      NarrowsPending(fs, after, g, sha, id);
      if Decidable(fs, g, id) {
        NarrowsDecidable(fs, after, g, sha, id);
      }
    }
  }

  lemma NarrowsDecidable(fs: Fs, after: Fs, g: Ledger, sha: Bytes -> Digest, id: Id)
    requires Sound(fs, g, sha) && Narrows(fs, after) && Decidable(fs, g, id)
    ensures Decidable(after, g, id)
  {
    var c := g.cores[id];
    assert MayHold(after, c.origin, Get(after.view, c.origin));
    if Get(after.view, c.origin) != Some(c.ino) {
      assert MayHold(fs, c.origin, Get(after.view, c.origin));
      NarrowsStable(fs, after, DataAt(id));
    }
  }

  /** The invariant survives the process dying and the machine losing power. */
  lemma CrashKeepsSound(fs: Fs, after: Fs, g: Ledger, sha: Bytes -> Digest)
    requires Sound(fs, g, sha) && Crash(fs, after)
    ensures Sound(after, g, sha)
    ensures Calm(fs, g) ==> Calm(after, g)
    ensures Settled(fs) ==> Settled(after)
  {
    if after != fs {
      PowerLossHolds(fs, after);
      NarrowsKeepsSound(fs, after, g, sha);
    }
  }

  /** In a sound state no crash loses a file. */
  lemma SoundMeansNoLoss(fs: Fs, g: Ledger, sha: Bytes -> Digest)
    requires Sound(fs, g, sha)
    ensures NoLoss(fs, g)
  {
    forall after, o | Crash(fs, after) && o in g.owed
      ensures o in g.plain && Readable(after, g, o, g.plain[o])
    {
      CrashKeepsSound(fs, after, g, sha);
      SafeIsReadable(after, g, sha, o);
    }
  }
}
