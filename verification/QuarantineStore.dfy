/** The quarantine store: every method as the sequence of calls it makes. */
module QuarantineStore {
  import opened Wrappers
  import opened FileSystem
  import opened Cipher
  import opened Journal
  import opened JournalSteps
  import opened StoreCalls
  import opened StoreFacts

  class Store {
    const disk: Disk

    constructor (disk: Disk)
      ensures this.disk == disk
    {
      this.disk := disk;
    }

    method AppendSince(i: Ino, more: Bytes, ghost before: Fs, ghost except: set<Loc>) returns (c: Call)
      requires disk.Valid() && i in disk.fs.files && !disk.fs.files[i].synced && disk.fs.files[i].content.Raw? && Ours(disk.fs, i)
      requires Undisturbed(before, disk.fs, except) && Narrows(before, disk.fs)
      modifies disk`fs, disk`faults
      ensures disk.Valid() && Ours(disk.fs, i)
      ensures Undisturbed(before, disk.fs, except) && Narrows(before, disk.fs)
      ensures disk.fs == if c.Done? then WriteFile(old(disk.fs), i, Raw(old(disk.fs.files[i].content.bytes) + more)) else old(disk.fs)
      ensures disk.faults == old(disk.faults) + Once(c.Fault?)
    {
      hide Sound, Calm, Settled, Undisturbed, Narrows, MayBePending;
      ghost var prior := disk.fs;
      c := disk.Append(i, more);
      UndisturbedThen(before, prior, disk.fs, except, {}, except);
      NarrowsTransitive(before, prior, disk.fs);
    }

    method ReadMasked(i: Ino, pos: nat, buf: array<bv8>, key: Bytes, offset: nat) returns (c: Call, n: nat)
      requires disk.Valid() && |key| == KEY_LEN && buf.Length > 0
      requires i in disk.fs.files && disk.fs.files[i].content.Raw? && pos <= |disk.fs.files[i].content.bytes|
      modifies disk`faults, buf
      ensures disk.Valid()
      ensures n <= buf.Length
      ensures c.Done? ==> pos + n <= |disk.fs.files[i].content.bytes|
                          && buf[..n] == Mask(key, offset, disk.fs.files[i].content.bytes[pos..pos + n])
      ensures c.Done? && n == 0 ==> pos == |disk.fs.files[i].content.bytes|
      ensures disk.faults == old(disk.faults) + Once(c.Fault?)
    {
      hide Sound, Calm, Settled, MayBePending;
      c, n := disk.Read(i, pos, buf);
      if c.Done? {
        XorInPlace(buf, n, key, offset);
      }
    }

    /** Decodes the file at `l` in reads of any size, hashing it and, if asked,
        writing it to file `out`. */
    method DecodeFile(l: Loc, key: Bytes, out: Option<Ino>) returns (r: Result<(Digest, nat), Error>)
      requires disk.Valid() && |key| == KEY_LEN
      requires out.Some? ==> out.value in disk.fs.files && disk.fs.files[out.value] == File(Raw([]), false)
      requires out.Some? ==> Get(disk.fs.view, l) != Some(out.value) && Ours(disk.fs, out.value)
      modifies disk`fs, disk`faults
      ensures disk.Valid()
      ensures Undisturbed(old(disk.fs), disk.fs, {}) && Narrows(old(disk.fs), disk.fs)
      ensures disk.faults == old(disk.faults) + Once(r == Err(Io))
      ensures r.Ok? ==> PlainAt(old(disk.fs), l, key).Some?
                        && r.value == (disk.sha(PlainAt(old(disk.fs), l, key).value), |PlainAt(old(disk.fs), l, key).value|)
      ensures r == Err(Io) || Answered(r, if l !in old(disk.fs.view) then Some(Missing)
                                          else if PlainAt(old(disk.fs), l, key).None? then Some(Corrupt) else None)
      ensures out.None? ==> disk.fs == old(disk.fs)
      ensures out.Some? ==> out.value in disk.fs.files && !disk.fs.files[out.value].synced
                            && disk.fs == old(disk.fs).(files := old(disk.fs.files)[out.value := disk.fs.files[out.value]])
      ensures out.Some? && r.Ok? ==> disk.fs.files[out.value] == File(Raw(PlainAt(old(disk.fs), l, key).value), false)
    {
      hide Sound, Calm, Settled, Undisturbed, Narrows, MayBePending;
      ghost var before := disk.fs;
      SoundIsWellFormed(disk.fs, disk.g, disk.sha);
      UndisturbedSelf(before, {});
      var c, found := disk.Stat(l);
      if !c.Done? {
        return Err(ErrorOf(c));
      }
      if found == None {
        return Err(Missing);
      }
      var i := found.value;
      ViewIsFile(disk.fs, l);
      var f := disk.fs.files[i];
      if !f.content.Raw? || |f.content.bytes| < |DATA_MAGIC| || f.content.bytes[..|DATA_MAGIC|] != DATA_MAGIC {
        return Err(Corrupt);
      }
      var plain;
      c, plain := DecodeLoop(i, key, out);
      if !c.Done? {
        return Err(ErrorOf(c));
      }
      r := Ok((disk.sha(plain), |plain|));
    }

    /** Reads the rest of file `i`, in reads of any size, as `plain`. */
    method DecodeLoop(i: Ino, key: Bytes, out: Option<Ino>) returns (c: Call, plain: Bytes)
      requires disk.Valid() && |key| == KEY_LEN
      requires i in disk.fs.files && disk.fs.files[i].content.Raw? && |disk.fs.files[i].content.bytes| >= |DATA_MAGIC|
      requires out.Some? ==> out.value in disk.fs.files && disk.fs.files[out.value] == File(Raw([]), false)
      requires out.Some? ==> out.value != i && Ours(disk.fs, out.value)
      modifies disk`fs, disk`faults
      ensures disk.Valid()
      ensures Undisturbed(old(disk.fs), disk.fs, {}) && Narrows(old(disk.fs), disk.fs)
      ensures disk.faults == old(disk.faults) + Once(c.Fault?)
      ensures c.Done? ==> plain == Mask(key, 0, old(disk.fs.files[i].content.bytes)[|DATA_MAGIC|..])
      ensures out.None? ==> disk.fs == old(disk.fs)
      ensures out.Some? ==> out.value in disk.fs.files && !disk.fs.files[out.value].synced
                            && disk.fs == old(disk.fs).(files := old(disk.fs.files)[out.value := disk.fs.files[out.value]])
      ensures out.Some? && c.Done? ==> disk.fs.files[out.value] == File(Raw(plain), false)
    {
      hide Sound, Calm, Settled, Undisturbed, Narrows, MayBePending, Mask;
      ghost var before := disk.fs;
      SoundIsWellFormed(disk.fs, disk.g, disk.sha);
      UndisturbedSelf(before, {});
      var f := disk.fs.files[i];
      ghost var stored := f.content.bytes[|DATA_MAGIC|..];
      var buf := new bv8[CHUNK];
      var total: nat := 0;
      plain := [];
      MaskNothing(key, stored);
      var eof := false;
      while !eof
        modifies disk`fs, disk`faults, buf
        invariant disk.Valid() && disk.faults == old(disk.faults)
        invariant Undisturbed(before, disk.fs, {}) && Narrows(before, disk.fs)
        invariant total <= |stored| && plain == Mask(key, 0, stored[..total])
        invariant out.None? ==> disk.fs == before
        invariant out.Some? ==> out.value in disk.fs.files && disk.fs.files[out.value] == File(Raw(plain), false) && Ours(disk.fs, out.value)
                                && disk.fs == before.(files := before.files[out.value := disk.fs.files[out.value]])
        invariant i in disk.fs.files && disk.fs.files[i] == f
        invariant eof ==> total == |stored|
        decreases !eof, |stored| - total
      {
        var n;
        c, n := ReadMasked(i, |DATA_MAGIC| + total, buf, key, total);
        if !c.Done? {
          return;
        }
        if n == 0 {
          eof := true;
        } else {
          MaskSoFar(key, stored, f.content.bytes, total, n);
          if out.Some? {
            c := AppendSince(out.value, buf[..n], before, {});
            if !c.Done? {
              return;
            }
          }
          total := total + n;
          plain := plain + buf[..n];
        }
      }
      assert stored[..total] == stored;
      c := Done;
    }

    /** Copies file `src` to the item's temporary, encoded, fsyncs it, and
        reads it back. */
    method WriteEncoded(src: Ino, id: Id, key: Bytes, max: nat) returns (r: Result<(Digest, nat), Error>)
      requires disk.Valid() && |key| == KEY_LEN
      requires src in disk.fs.files && disk.fs.files[src].content.Raw?
      modifies disk`fs, disk`faults
      ensures disk.Valid()
      ensures Undisturbed(old(disk.fs), disk.fs, {DataTmpAt(id)}) && Narrows(old(disk.fs), disk.fs)
      ensures disk.faults == old(disk.faults) + Once(r == Err(Io))
      ensures r == Err(Io) || Answered(r, if DataTmpAt(id) in old(disk.fs.view) then Some(AlreadyThere)
                                          else if |BytesOf(old(disk.fs), src)| > max then Some(TooLarge) else None)
      ensures r.Ok? ==>
        var bytes := BytesOf(old(disk.fs), src);
        && r.value == (disk.sha(bytes), |bytes|) && |bytes| <= max
        && DataTmpAt(id) in disk.fs.view && disk.fs.view[DataTmpAt(id)] in disk.fs.files
        && disk.fs.files[disk.fs.view[DataTmpAt(id)]] == File(Raw(Encoded(key, bytes)), true)
    {
      hide Sound, Calm, Settled, Undisturbed, Narrows, MayBePending;
      var l := DataTmpAt(id);
      ghost var before := disk.fs;
      SoundIsWellFormed(disk.fs, disk.g, disk.sha);
      UndisturbedSelf(before, {l});
      if l in disk.fs.view {
        return Err(AlreadyThere);
      }
      ghost var bytes := BytesOf(disk.fs, src);
      var i, total, digest;
      r, i, digest, total := WriteMasked(src, l, key, max);
      if r.Err? {
        return;
      }
      ghost var written := disk.fs;
      var c := disk.Sync(i);
      UndisturbedThen(before, written, disk.fs, {l}, {}, {l});
      NarrowsTransitive(before, written, disk.fs);
      if !c.Done? {
        return Err(ErrorOf(c));
      }
      ViewReads(disk.fs, l, key, bytes);
      var back := DecodeFile(l, key, None);
      r := if back.Err? then back else if back.value != (digest, total) then Err(Corrupt) else Ok((digest, total));
    }

    /** A new file with the header of a stored copy. */
    method BeginCopy(l: Loc) returns (c: Call, i: Ino)
      requires disk.Valid() && !Matters(l)
      modifies disk`fs, disk`faults
      ensures disk.Valid()
      ensures Undisturbed(old(disk.fs), disk.fs, {l}) && Narrows(old(disk.fs), disk.fs)
      ensures disk.faults == old(disk.faults) + Once(c.Fault?)
      ensures c.Done? ==>
        && i !in old(disk.fs.files) && Get(disk.fs.view, l) == Some(i) && i in disk.fs.files
        && disk.fs.files == old(disk.fs.files)[i := File(Raw([] + DATA_MAGIC), false)] && Ours(disk.fs, i)
    {
      hide Sound, Calm, Settled, Undisturbed, Narrows, MayBePending;
      ghost var before := disk.fs;
      c, i := disk.Create(l);
      if !c.Done? {
        return;
      }
      ghost var created := disk.fs;
      c := disk.Append(i, DATA_MAGIC);
      UndisturbedThen(before, created, disk.fs, {l}, {}, {l});
      NarrowsTransitive(before, created, disk.fs);
    }

    /** One read of the original, for the hash as it is, and masked in place. */
    method ReadToCopy(i: Ino, pos: nat, buf: array<bv8>, key: Bytes) returns (c: Call, n: nat, piece: Bytes)
      requires disk.Valid() && |key| == KEY_LEN && buf.Length > 0
      requires i in disk.fs.files && disk.fs.files[i].content.Raw? && pos <= |disk.fs.files[i].content.bytes|
      modifies disk`faults, buf
      ensures disk.Valid()
      ensures n <= buf.Length
      ensures c.Done? ==> pos + n <= |disk.fs.files[i].content.bytes| && piece == disk.fs.files[i].content.bytes[pos..pos + n]
                          && buf[..n] == Mask(key, pos, piece)
      ensures c.Done? && n == 0 ==> pos == |disk.fs.files[i].content.bytes|
      ensures disk.faults == old(disk.faults) + Once(c.Fault?)
    {
      hide Sound, Calm, Settled, MayBePending;
      piece := [];
      c, n := disk.Read(i, pos, buf);
      if c.Done? {
        piece := buf[..n];
        XorInPlace(buf, n, key, pos);
      }
    }

    /** The copying loop. */
    method WriteMasked(src: Ino, l: Loc, key: Bytes, max: nat)
      returns (r: Result<(Digest, nat), Error>, i: Ino, digest: Digest, total: nat)
      requires disk.Valid() && |key| == KEY_LEN && !Matters(l)
      requires src in disk.fs.files && disk.fs.files[src].content.Raw?
      modifies disk`fs, disk`faults
      ensures disk.Valid()
      ensures Undisturbed(old(disk.fs), disk.fs, {l}) && Narrows(old(disk.fs), disk.fs)
      ensures disk.faults == old(disk.faults) + Once(r == Err(Io))
      ensures r == Err(Io) || Answered(r, if |BytesOf(old(disk.fs), src)| > max then Some(TooLarge) else None)
      ensures r.Ok? ==>
        var bytes := BytesOf(old(disk.fs), src);
        && digest == disk.sha(bytes) && total == |bytes| && |bytes| <= max
        && Get(disk.fs.view, l) == Some(i) && i in disk.fs.files
        && disk.fs.files[i] == File(Raw(Encoded(key, bytes)), false)
    {
      hide Sound, Calm, Settled, Undisturbed, Narrows, MayBePending, Encoded, Mask;
      ghost var before := disk.fs;
      UndisturbedSelf(before, {l});
      ghost var bytes := BytesOf(disk.fs, src);
      digest, total := [], 0;
      var c;
      c, i := BeginCopy(l);
      if !c.Done? {
        return Err(ErrorOf(c)), i, digest, total;
      }
      EncodedNothing(key, bytes);
      var buf := new bv8[CHUNK];
      var hashed := [];
      var eof := false;
      while !eof
        modifies disk`fs, disk`faults, buf
        invariant disk.Valid() && disk.faults == old(disk.faults)
        invariant Undisturbed(before, disk.fs, {l}) && Narrows(before, disk.fs)
        invariant total <= |bytes| && total <= max && hashed == bytes[..total]
        invariant Get(disk.fs.view, l) == Some(i) && i in disk.fs.files && Ours(disk.fs, i)
        invariant disk.fs.files[i] == File(Raw(Encoded(key, bytes[..total])), false)
        invariant src != i && src in disk.fs.files && disk.fs.files[src] == before.files[src]
        invariant eof ==> total == |bytes|
        decreases !eof, |bytes| - total
      {
        var n, piece;
        c, n, piece := ReadToCopy(src, total, buf, key);
        if !c.Done? {
          return Err(ErrorOf(c)), i, digest, total;
        }
        if n == 0 {
          eof := true;
        } else {
          if total + n > max {
            return Err(TooLarge), i, digest, total;
          }
          hashed := hashed + piece;
          EncodedSoFar(key, bytes, total, n);
          c := AppendSince(i, buf[..n], before, {l});
          if !c.Done? {
            return Err(ErrorOf(c)), i, digest, total;
          }
          total := total + n;
        }
      }
      assert bytes[..total] == bytes;
      digest := disk.sha(hashed);
      r := Ok((digest, total));
    }

    /** Writes and fsyncs the temporary that will replace a record. */
    method WriteTemporary(rec: Record) returns (r: Result<(), Error>, i: Ino)
      requires disk.Valid() && rec.core.id in disk.g.cores && disk.g.cores[rec.core.id] == rec.core
      modifies disk`fs, disk`faults
      ensures disk.Valid()
      ensures Undisturbed(old(disk.fs), disk.fs, {RecordTmpAt(rec.core.id)})
      ensures Narrows(old(disk.fs), disk.fs)
      ensures disk.faults == old(disk.faults) + Once(r == Err(Io))
      ensures r.Ok? || r == Err(Io) || r == Err(Crash)
      ensures r.Ok? ==> Get(disk.fs.view, RecordTmpAt(rec.core.id)) == Some(i)
      ensures r.Ok? ==> i in disk.fs.files && disk.fs.files[i] == File(Json(rec), true)
    {
      hide Sound, Calm, Settled, Undisturbed, Narrows;
      var l := RecordTmpAt(rec.core.id);
      ghost var before := disk.fs;
      var c;
      c, i := disk.Create(l);
      UndisturbedSelf(before, {l});
      if !c.Done? {
        return Err(ErrorOf(c)), i;
      }
      ghost var f1 := disk.fs;
      c := disk.WriteRecord(i, rec);
      UndisturbedThen(before, f1, disk.fs, {l}, {}, {l});
      NarrowsTransitive(before, f1, disk.fs);
      if !c.Done? {
        return Err(ErrorOf(c)), i;
      }
      ghost var f2 := disk.fs;
      c := disk.Sync(i);
      UndisturbedThen(before, f2, disk.fs, {l}, {}, {l});
      NarrowsTransitive(before, f2, disk.fs);
      if !c.Done? {
        return Err(ErrorOf(c)), i;
      }
      r := Ok(());
    }

    /** Atomically replaces `items/<id>.json`. */
    method Save(rec: Record) returns (r: Result<(), Error>)
      requires disk.Valid() && rec.core.id in disk.g.cores && disk.g.cores[rec.core.id] == rec.core
      requires Lifecycle(StateSeen(disk.fs, rec.core.id), rec.state)
      requires rec.state == Pending ==>
                 Absent(disk.fs, DataAt(rec.core.id)) && (disk.hazard || Decidable(disk.fs, disk.g, rec.core.id))
      requires rec.state == ItemState.Failed ==> disk.hazard || disk.faults > disk.atOpen
      modifies disk`fs, disk`faults, disk`moves
      ensures disk.Valid()
      ensures Undisturbed(old(disk.fs), disk.fs, {RecordTmpAt(rec.core.id), RecordAt(rec.core.id)})
      ensures disk.faults == old(disk.faults) + Once(r == Err(Io))
      ensures r.Ok? || r == Err(Io) || r == Err(Crash)
      ensures r.Ok? ==> RecordSeen(disk.fs, rec.core.id) == Some(rec)
      ensures r.Ok? ==> forall l: Loc, v :: l.dir == Items && MayHold(disk.fs, l, v) ==> v == Get(disk.fs.view, l)
      ensures r.Ok? ==> RecordAt(rec.core.id) in disk.fs.view && RecordTmpAt(rec.core.id) !in disk.fs.view
    {
      hide Sound, Calm, Settled, Undisturbed, Narrows, Decidable, SyncNames;
      var id := rec.core.id;
      ghost var before := disk.fs;
      UndisturbedSelf(disk.fs, {RecordTmpAt(id), RecordAt(id)});
      var i;
      r, i := WriteTemporary(rec);
      assert Undisturbed(before, disk.fs, {RecordTmpAt(id)});
      UndisturbedThen(before, before, disk.fs, {}, {RecordTmpAt(id)}, {RecordTmpAt(id), RecordAt(id)}) by {
        UndisturbedSelf(before, {});
      }
      if r.Err? {
        return;
      }
      ghost var ready := disk.fs;
      UndisturbedSeen(before, ready, disk.g, disk.sha, {RecordTmpAt(id)}, id);
      if rec.state == Pending {
        NarrowsAbsent(before, ready, DataAt(id));
        if !disk.hazard {
          NarrowsDecidable(before, ready, disk.g, disk.sha, id);
        }
      }
      var c := disk.RenameRecord(id);
      UndisturbedThen(before, ready, disk.fs, {RecordTmpAt(id), RecordAt(id)}, {RecordTmpAt(id), RecordAt(id)}, {RecordTmpAt(id), RecordAt(id)});
      if !c.Done? {
        return Err(ErrorOf(c));
      }
      ghost var renamed := disk.fs;
      c := disk.SyncDir(Items);
      UndisturbedThen(before, renamed, disk.fs, {RecordTmpAt(id), RecordAt(id)}, {}, {RecordTmpAt(id), RecordAt(id)});
      if !c.Done? {
        return Err(ErrorOf(c));
      }
      SyncNamesView(renamed, Items);
      r := Ok(());
    }

    // ---- Quarantine.

    /** Steps 2 and 3: copy, verify, compare. A failed copy is cleaned up. */
    method CopyOriginal(src: Ino, req: Request, id: Id, key: Bytes) returns (r: Result<(Digest, nat), Error>)
      requires disk.Valid() && |key| == KEY_LEN
      requires src in disk.fs.files && disk.fs.files[src].content.Raw?
      modifies disk`fs, disk`faults
      ensures disk.Valid()
      ensures Undisturbed(old(disk.fs), disk.fs, {DataTmpAt(id)}) && Narrows(old(disk.fs), disk.fs)
      ensures old(disk.faults) <= disk.faults
      ensures r == Err(Io) ==> disk.faults > old(disk.faults)
      ensures r.Ok? ==>
        var bytes := BytesOf(old(disk.fs), src);
        && r.value == (disk.sha(bytes), |bytes|) && |bytes| <= req.maxSize
        && (req.expected.Some? ==> req.expected.value == disk.sha(bytes))
        && DataTmpAt(id) in disk.fs.view && disk.fs.view[DataTmpAt(id)] in disk.fs.files
        && disk.fs.files[disk.fs.view[DataTmpAt(id)]] == File(Raw(Encoded(key, bytes)), true)
      ensures disk.faults == old(disk.faults) ==> Answered(r, CopyRefusal(old(disk.fs), disk.sha, src, req, id))
      ensures r.Err? && r.error != Crash && disk.faults == old(disk.faults) ==> DataTmpAt(id) !in disk.fs.view
    {
      hide Sound, Calm, Settled, Undisturbed, Narrows, MayBePending;
      ghost var before := disk.fs;
      r := WriteEncoded(src, id, key, req.maxSize);
      if r.Ok? && (req.expected.None? || req.expected.value == r.value.0) {
        return;
      }
      if r.Ok? {
        r := Err(FileChanged);
      }
      if r.error == Crash {
        return;
      }
      ghost var copied := disk.fs;
      var c := disk.UnlinkTmp(DataTmpAt(id));
      UndisturbedThen(before, copied, disk.fs, {DataTmpAt(id)}, {DataTmpAt(id)}, {DataTmpAt(id)});
      NarrowsTransitive(before, copied, disk.fs);
      if c.Crashed? {
        r := Err(Crash);
      }
    }

    /** Undoes a quarantine whose original is still in place. */
    method RollBack(rec: Record) returns (r: Result<(), Error>)
      requires disk.Valid() && disk.g.cores.Keys >= {rec.core.id} && disk.g.cores[rec.core.id] == rec.core
      requires RecordSeen(disk.fs, rec.core.id) == Some(rec) && rec.state == Pending
      requires Get(disk.fs.view, rec.core.origin) == Some(rec.core.ino)
      modifies disk`fs, disk`faults, disk`moves
      ensures disk.Valid()
      ensures Undisturbed(old(disk.fs), disk.fs, NamesOf(rec.core.id))
      ensures old(disk.faults) <= disk.faults
      ensures r.Ok? || r == Err(Io) || r == Err(Crash)
      ensures r == Err(Io) ==> disk.faults > old(disk.faults)
      ensures r.Ok? ==> RecordSeen(disk.fs, rec.core.id) == Some(rec.(state := RolledBack))
      ensures r.Ok? ==> forall l: Loc, v :: l.dir == Items && MayHold(disk.fs, l, v) ==> v == Get(disk.fs.view, l)
      ensures r.Ok? ==> RecordTmpAt(rec.core.id) !in disk.fs.view
    {
      hide Sound, Calm, Undisturbed, Narrows;
      var id := rec.core.id;
      ghost var before := disk.fs;
      UndisturbedSelf(before, NamesOf(id));
      SeenIsKnown(disk.fs, disk.g, disk.sha, rec);
      var c := disk.UnlinkCopy(id);
      UndisturbedThen(before, before, disk.fs, NamesOf(id), {DataAt(id)}, NamesOf(id));
      if c.Crashed? {
        return Err(Crash);
      }
      ghost var removed := disk.fs;
      UndisturbedSeen(before, removed, disk.g, disk.sha, {DataAt(id)}, id);
      c := disk.SyncDir(Items);
      UndisturbedThen(before, removed, disk.fs, NamesOf(id), {}, NamesOf(id));
      if c.Crashed? {
        return Err(Crash);
      }
      ghost var synced := disk.fs;
      UndisturbedSeen(removed, synced, disk.g, disk.sha, {}, id);
      r := Save(rec.(state := RolledBack));
      UndisturbedThen(before, synced, disk.fs, NamesOf(id), {RecordTmpAt(id), RecordAt(id)}, NamesOf(id));
    }

    /** Step 5: the copy takes its final name, for good. */
    method CommitTheCopy(id: Id) returns (r: Result<(), Error>)
      requires disk.Valid() && id in disk.g.cores && id in disk.g.source
      requires DataTmpAt(id) in disk.fs.view && Absent(disk.fs, DataAt(id))
      requires IsCopy(disk.fs, disk.g, id, disk.fs.view[DataTmpAt(id)])
      requires RecordAt(id) in disk.fs.view
      modifies disk`fs, disk`faults
      ensures disk.Valid()
      ensures Undisturbed(old(disk.fs), disk.fs, {DataTmpAt(id), DataAt(id)})
      ensures disk.faults == old(disk.faults) + Once(r == Err(Io))
      ensures r.Ok? || r == Err(Io) || r == Err(Crash)
      ensures r.Ok? ==> DataCopy(disk.fs, disk.g, disk.g.source[id], id)
      ensures r.Ok? ==> DataTmpAt(id) !in disk.fs.view
      ensures r.Ok? ==> Get(disk.fs.view, DataAt(id)) == Some(old(disk.fs.view[DataTmpAt(id)]))
    {
      hide Sound, Calm, Undisturbed, Narrows, SyncNames;
      ghost var before := disk.fs;
      var c := disk.RenameCopy(id);
      if !c.Done? {
        return Err(ErrorOf(c));
      }
      ghost var renamed := disk.fs;
      c := disk.SyncDir(Items);
      UndisturbedThen(before, renamed, disk.fs, {DataTmpAt(id), DataAt(id)}, {}, {DataTmpAt(id), DataAt(id)});
      if !c.Done? {
        return Err(ErrorOf(c));
      }
      SyncNamesView(renamed, Items);
      SettledNames(disk.fs, DataAt(id));
      r := Ok(());
    }

    /** Whether `found` is the file the record was made of: the store knows a file
        by its device and inode number. */
    function SameNumber(found: Option<Ino>, i: Ino): (same: bool)
      reads disk
    {
      found.Some? && disk.number(found.value) == disk.number(i)
    }

    /** Step 6: the original goes, if its name still refers to it. */
    method RemoveTheOriginal(rec: Record) returns (r: Result<(), Error>)
      requires disk.Valid() && rec.core.id in disk.g.cores && disk.g.cores[rec.core.id] == rec.core
      requires rec.core.id in disk.g.source && DataCopy(disk.fs, disk.g, disk.g.source[rec.core.id], rec.core.id)
      requires RecordSeen(disk.fs, rec.core.id) == Some(rec) && rec.state == Pending
      requires Get(disk.fs.view, rec.core.origin) == Some(rec.core.ino) && InFolder(rec.core.origin)
      requires disk.hazard || NoRival(disk.fs, disk.g, rec.core.id)
      modifies disk`fs, disk`faults, disk`moves, disk`g
      ensures disk.Valid()
      ensures disk.g == old(disk.g).(owed := disk.g.owed) && Promises(old(disk.g.owed), disk.g.owed, disk.g.source[rec.core.id], r.Ok?)
      ensures KeptOrGone(old(disk.fs), disk.fs, rec.core.origin)
      ensures old(disk.faults) <= disk.faults
      ensures r.Err? ==> r.error == Crash || disk.faults > old(disk.faults)
      ensures Undisturbed(old(disk.fs), disk.fs, NamesOf(rec.core.id) + {rec.core.origin})
      ensures r.Ok? ==> Undisturbed(old(disk.fs), disk.fs, {rec.core.origin}) && rec.core.origin !in disk.fs.view
    {
      hide Sound, Calm, Undisturbed, Narrows, SyncNames, MayBePending, DataCopy, NoRival, KeptOrGone, AtRisk, RecordSeen;
      var id := rec.core.id;
      ghost var before := disk.fs;
      ghost var names := NamesOf(id) + {rec.core.origin};
      UndisturbedSelf(before, names);
      GoneIsKept(before, before, rec.core.origin);
      SoundIsWellFormed(before, disk.g, disk.sha);
      var c, now := disk.Stat(rec.core.origin);
      if c.Crashed? {
        return Err(Crash);
      }
      if !c.Done? || !SameNumber(now, rec.core.ino) {
        r := RollBack(rec);
        UndisturbedWithin(before, disk.fs, NamesOf(id), names);
        UndisturbedKept(before, disk.fs, NamesOf(id), rec.core.origin);
        return if r.Ok? then Err(Replaced) else r;
      }
      c := disk.UnlinkOriginal(id, rec.core.origin);
      UndisturbedWithin(before, disk.fs, {rec.core.origin}, names);
      if c.Crashed? {
        return Err(Crash);
      }
      if c.Fault? {
        r := RollBack(rec);
        UndisturbedThen(before, before, disk.fs, names, NamesOf(id), names);
        UndisturbedKept(before, disk.fs, NamesOf(id), rec.core.origin);
        return if r.Ok? then Err(Io) else r;
      }
      ghost var removed := disk.fs;
      GoneIsKept(before, removed, rec.core.origin);
      c := disk.SyncDir(rec.core.origin.dir);
      UndisturbedThen(before, removed, disk.fs, names, {}, names);
      if !c.Done? {
        return Err(ErrorOf(c));
      }
      UndisturbedThen(before, removed, disk.fs, {rec.core.origin}, {}, {rec.core.origin});
      SyncNamesView(removed, rec.core.origin.dir);
      GoneIsKept(before, disk.fs, rec.core.origin);
      SoundIsWellFormed(disk.fs, disk.g, disk.sha);
      UndisturbedCopy(before, disk.fs, disk.g, {rec.core.origin}, id);
      GoneIsNotAtRisk(disk.fs, disk.g, id);
      disk.Promise(id);
      r := Ok(());
    }

    /** Step 4: the pending record. */
    method JournalPending(rec: Record, ghost bytes: Bytes) returns (r: Result<(), Error>)
      requires disk.Valid() && rec.state == Pending && rec.core.id !in disk.g.cores
      requires |rec.core.key| == KEY_LEN && InFolder(rec.core.origin) && rec.core.ino in disk.fs.files
      requires CopiedFrom(disk.g, rec.core.ino, bytes) && rec.core.sha256 == disk.sha(bytes)
      requires Get(disk.fs.view, rec.core.origin) == Some(rec.core.ino)
      requires disk.hazard || (Stable(disk.fs, rec.core.origin, rec.core.ino) && Unclaimed(disk.fs, rec.core.origin, rec.core.ino))
      modifies disk`fs, disk`faults, disk`moves, disk`g
      ensures disk.Valid()
      ensures disk.g == WithItem(old(disk.g), rec.core, bytes) && Extends(old(disk.g), disk.g) && ItemBytes(disk.g, rec.core.id) == bytes
      ensures disk.faults == old(disk.faults) + Once(r == Err(Io))
      ensures r.Ok? || r == Err(Io) || r == Err(Crash)
      ensures Undisturbed(old(disk.fs), disk.fs, {RecordTmpAt(rec.core.id), RecordAt(rec.core.id)})
      ensures r.Ok? ==> RecordSeen(disk.fs, rec.core.id) == Some(rec)
      ensures r.Ok? ==> RecordTmpAt(rec.core.id) !in disk.fs.view && RecordAt(rec.core.id) in disk.fs.view
      ensures r.Ok? ==> disk.hazard || NoRival(disk.fs, disk.g, rec.core.id)
      ensures r.Ok? ==> Absent(disk.fs, DataAt(rec.core.id))
    {
      hide Sound, Calm, Undisturbed, Narrows, SyncNames, MayBePending, Encoded, DataCopy, Decoded, Unclaimed, NoRival, Extends, ItemBytes;
      var id := rec.core.id;
      ghost var before, known := disk.fs, disk.g;
      UnusedIsAbsent(disk.fs, disk.g, disk.sha, id);
      disk.Register(rec.core, bytes);
      if !disk.hazard {
        StableIsDecidable(disk.fs, disk.g, id);
      }
      r := Save(rec);
      UndisturbedAbsent(before, disk.fs, {RecordTmpAt(id), RecordAt(id)}, DataAt(id));
      if r.Ok? && !disk.hazard {
        ItemsSynced(disk.fs);
        UnclaimedNoRival(before, disk.fs, known, disk.g, disk.sha, {RecordTmpAt(id), RecordAt(id)}, id);
      }
    }

    /** Steps 4 and 5: the pending record, then the copy. */
    method JournalAndCommit(rec: Record, ghost bytes: Bytes) returns (r: Result<(), Error>)
      requires disk.Valid() && rec.state == Pending && rec.core.id !in disk.g.cores
      requires |rec.core.key| == KEY_LEN && InFolder(rec.core.origin) && rec.core.ino in disk.fs.files
      requires CopiedFrom(disk.g, rec.core.ino, bytes) && rec.core.sha256 == disk.sha(bytes)
      requires Get(disk.fs.view, rec.core.origin) == Some(rec.core.ino)
      requires disk.hazard || (Stable(disk.fs, rec.core.origin, rec.core.ino) && Unclaimed(disk.fs, rec.core.origin, rec.core.ino))
      requires DataTmpAt(rec.core.id) in disk.fs.view && disk.fs.view[DataTmpAt(rec.core.id)] in disk.fs.files
      requires disk.fs.files[disk.fs.view[DataTmpAt(rec.core.id)]]
            == File(Raw(Encoded(rec.core.key, bytes)), true)
      modifies disk`fs, disk`faults, disk`moves, disk`g
      ensures disk.Valid()
      ensures disk.g == WithItem(old(disk.g), rec.core, bytes) && Extends(old(disk.g), disk.g) && ItemBytes(disk.g, rec.core.id) == bytes
      ensures disk.faults == old(disk.faults) + Once(r == Err(Io))
      ensures r.Ok? || r == Err(Io) || r == Err(Crash)
      ensures Undisturbed(old(disk.fs), disk.fs, NamesOf(rec.core.id))
      ensures r.Ok? ==> RecordSeen(disk.fs, rec.core.id) == Some(rec)
      ensures r.Ok? ==> CopySeen(disk.fs, rec.core.id, rec.core.key) == Some(bytes)
      ensures r.Ok? ==> DataCopy(disk.fs, disk.g, disk.g.source[rec.core.id], rec.core.id)
      ensures r.Ok? ==> DataTmpAt(rec.core.id) !in disk.fs.view && RecordTmpAt(rec.core.id) !in disk.fs.view
      ensures r.Ok? ==> disk.hazard || NoRival(disk.fs, disk.g, rec.core.id)
    {
      hide Sound, Calm, Undisturbed, Narrows, SyncNames, MayBePending, Encoded, DataCopy, Decoded, Unclaimed, NoRival, Stable, Extends, ItemBytes;
      var id := rec.core.id;
      ghost var before := disk.fs;
      r := JournalPending(rec, bytes);
      UndisturbedWithin(before, disk.fs, {RecordTmpAt(id), RecordAt(id)}, NamesOf(id));
      if r.Err? {
        return;
      }
      ghost var saved := disk.fs;
      UndisturbedFile(before, saved, {RecordTmpAt(id), RecordAt(id)}, DataTmpAt(id));
      r := CommitTheCopy(id);
      UndisturbedThen(before, saved, disk.fs, NamesOf(id), {DataTmpAt(id), DataAt(id)}, NamesOf(id));
      if r.Err? {
        return;
      }
      UndisturbedSeen(saved, disk.fs, disk.g, disk.sha, {DataTmpAt(id), DataAt(id)}, id);
      UndisturbedName(saved, disk.fs, {DataTmpAt(id), DataAt(id)}, RecordTmpAt(id));
      if !disk.hazard {
        NoRivalStays(saved, disk.fs, disk.g, disk.sha, {DataTmpAt(id), DataAt(id)}, id);
      }
      CommittedSeen(disk.fs, disk.g, disk.sha, id);
    }

    /** Steps 6 and 7. */
    method RemoveAndFinalise(rec: Record) returns (r: Result<(), Error>)
      requires disk.Valid() && rec.core.id in disk.g.cores && disk.g.cores[rec.core.id] == rec.core
      requires rec.core.id in disk.g.source && DataCopy(disk.fs, disk.g, disk.g.source[rec.core.id], rec.core.id)
      requires RecordSeen(disk.fs, rec.core.id) == Some(rec) && rec.state == Pending
      requires Get(disk.fs.view, rec.core.origin) == Some(rec.core.ino) && InFolder(rec.core.origin)
      requires disk.hazard || NoRival(disk.fs, disk.g, rec.core.id)
      modifies disk`fs, disk`faults, disk`moves, disk`g
      ensures disk.Valid()
      ensures disk.g == old(disk.g).(owed := disk.g.owed) && Promises(old(disk.g.owed), disk.g.owed, disk.g.source[rec.core.id], r.Ok?)
      ensures KeptOrGone(old(disk.fs), disk.fs, rec.core.origin)
      ensures old(disk.faults) <= disk.faults
      ensures r.Err? ==> r.error == Crash || disk.faults > old(disk.faults)
      ensures Undisturbed(old(disk.fs), disk.fs, NamesOf(rec.core.id) + {rec.core.origin})
      ensures r.Ok? ==> Undisturbed(old(disk.fs), disk.fs, {rec.core.origin, RecordAt(rec.core.id), RecordTmpAt(rec.core.id)})
      ensures r.Ok? ==> rec.core.origin !in disk.fs.view && RecordTmpAt(rec.core.id) !in disk.fs.view
      ensures r.Ok? ==> RecordSeen(disk.fs, rec.core.id) == Some(rec.(state := Quarantined))
      ensures r.Ok? ==> RecordsSynced(disk.fs)
    {
      hide Sound, Calm, Undisturbed, Narrows, SyncNames, MayBePending, DataCopy, NoRival, RecordsSynced, KeptOrGone, RecordSeen;
      var id := rec.core.id;
      ghost var before, known := disk.fs, disk.g;
      ghost var names := NamesOf(id) + {rec.core.origin};
      r := RemoveTheOriginal(rec);
      if r.Err? {
        return;
      }
      ghost var removed := disk.fs;
      UndisturbedSeen(before, removed, known, disk.sha, {rec.core.origin}, id);
      r := Save(rec.(state := Quarantined));
      UndisturbedThen(before, removed, disk.fs, names, {RecordTmpAt(id), RecordAt(id)}, names);
      UndisturbedName(removed, disk.fs, {RecordTmpAt(id), RecordAt(id)}, rec.core.origin);
      GoneIsKept(before, disk.fs, rec.core.origin);
      if r.Err? {
        return;
      }
      UndisturbedThen(before, removed, disk.fs, {rec.core.origin}, {RecordTmpAt(id), RecordAt(id)},
        {rec.core.origin, RecordAt(id), RecordTmpAt(id)});
      ItemsSynced(disk.fs);
    }

    /** Step 1: the checks on the file and its name. */
    method Inspect(req: Request) returns (r: Result<Ino, Error>)
      requires disk.Valid()
      modifies disk`hazard, disk`faults
      ensures disk.Valid()
      ensures disk.hazard ==> old(disk.hazard) || Doubtful(disk.fs, req.loc)
      ensures old(disk.hazard) ==> disk.hazard
      ensures disk.faults == old(disk.faults) + Once(r == Err(Io))
      ensures r == Err(Io) || Answered(r, InspectRefusal(disk.fs, req))
      ensures r.Ok? ==>
        && req.allowed && InFolder(req.loc) && Get(disk.fs.view, req.loc) == Some(r.value)
        && r.value in disk.fs.files && disk.fs.files[r.value].content.Raw?
        && CopiedFrom(disk.g, r.value, BytesOf(disk.fs, r.value))
        && (disk.hazard || (Stable(disk.fs, req.loc, r.value) && Unclaimed(disk.fs, req.loc, r.value)))
        && |BytesOf(disk.fs, r.value)| <= req.maxSize
    {
      hide Sound, Calm, Stable, MayBePending, Unclaimed;
      if !req.allowed {
        return Err(Protected);
      }
      if !InFolder(req.loc) {
        return Err(InsideStore);
      }
      var c, found := disk.Stat(req.loc);
      if !c.Done? {
        return Err(ErrorOf(c));
      }
      if found == None {
        return Err(Missing);
      }
      var src := found.value;
      FolderFile(disk.fs, disk.g, disk.sha, req.loc);
      disk.Suspect(Doubtful(disk.fs, req.loc));
      if |disk.fs.files[src].content.bytes| > req.maxSize {
        return Err(TooLarge);
      }
      if exists l | l in disk.fs.view :: l != req.loc && disk.fs.view[l] == src {
        return Err(HardLinked);
      }
      r := Ok(src);
    }

    /** Steps 4 to 7. */
    method StoreCopy(rec: Record, ghost bytes: Bytes) returns (r: Result<(), Error>)
      requires disk.Valid() && rec.state == Pending && rec.core.id !in disk.g.cores
      requires |rec.core.key| == KEY_LEN && InFolder(rec.core.origin) && rec.core.ino in disk.fs.files
      requires CopiedFrom(disk.g, rec.core.ino, bytes) && rec.core.sha256 == disk.sha(bytes)
      requires Get(disk.fs.view, rec.core.origin) == Some(rec.core.ino)
      requires disk.hazard || (Stable(disk.fs, rec.core.origin, rec.core.ino) && Unclaimed(disk.fs, rec.core.origin, rec.core.ino))
      requires DataTmpAt(rec.core.id) in disk.fs.view && disk.fs.view[DataTmpAt(rec.core.id)] in disk.fs.files
      requires disk.fs.files[disk.fs.view[DataTmpAt(rec.core.id)]]
            == File(Raw(Encoded(rec.core.key, bytes)), true)
      modifies disk`fs, disk`faults, disk`moves, disk`g
      ensures disk.Valid()
      ensures disk.g == WithItem(old(disk.g), rec.core, bytes).(owed := disk.g.owed)
              && Promises(old(disk.g.owed), disk.g.owed, SourceOf(old(disk.g), rec.core.ino, rec.core.id), r.Ok?)
      ensures Extends(old(disk.g), disk.g) && ItemBytes(disk.g, rec.core.id) == bytes
      ensures KeptOrGone(old(disk.fs), disk.fs, rec.core.origin)
      ensures old(disk.faults) <= disk.faults
      ensures r.Err? ==> r.error == Crash || disk.faults > old(disk.faults)
      ensures Undisturbed(old(disk.fs), disk.fs, NamesOf(rec.core.id) + {rec.core.origin})
      ensures r.Ok? ==> RecordSeen(disk.fs, rec.core.id) == Some(rec.(state := Quarantined))
      ensures r.Ok? ==> CopySeen(disk.fs, rec.core.id, rec.core.key) == Some(bytes)
      ensures r.Ok? ==> rec.core.origin !in disk.fs.view && DataTmpAt(rec.core.id) !in disk.fs.view
                        && RecordTmpAt(rec.core.id) !in disk.fs.view
      ensures r.Ok? ==> RecordsSynced(disk.fs)
    {
      hide Sound, Calm, Undisturbed, Narrows, SyncNames, MayBePending, DataCopy, Encoded, Decoded, Stable, CopySeen, RecordSeen;
      hide Unclaimed, NoRival, RecordsSynced, Extends, ItemBytes, WithItem;
      var id, l := rec.core.id, rec.core.origin;
      ghost var ready, known := disk.fs, disk.g;
      ghost var names := NamesOf(id) + {l};
      WithItemIs(known, rec.core, bytes);
      SoundIsWellFormed(ready, disk.g, disk.sha);
      r := JournalAndCommit(rec, bytes);
      UndisturbedWithin(ready, disk.fs, NamesOf(id), names);
      UndisturbedKept(ready, disk.fs, NamesOf(id), l);
      if r.Err? {
        return;
      }
      ghost var committed, mid := disk.fs, disk.g;
      UndisturbedName(ready, committed, NamesOf(id), l);
      r := RemoveAndFinalise(rec);
      UndisturbedThen(ready, committed, disk.fs, names, names, names);
      ExtendsOwed(known, mid, disk.g.owed);
      ItemBytesSame(mid, disk.g, id);
      KeptOrGoneThen(ready, committed, disk.fs, l);
      if r.Err? {
        return;
      }
      UndisturbedSeen(committed, disk.fs, mid, disk.sha, {l, RecordAt(id), RecordTmpAt(id)}, id);
      UndisturbedName(committed, disk.fs, {l, RecordAt(id), RecordTmpAt(id)}, DataTmpAt(id));
    }

    /** The rest: steps 2 to 7. */
    method TakeFile(src: Ino, req: Request, id: Id, key: Bytes) returns (r: Result<Record, Error>)
      requires disk.Valid() && id !in disk.g.cores && |key| == KEY_LEN
      requires InFolder(req.loc) && Get(disk.fs.view, req.loc) == Some(src)
      requires src in disk.fs.files && disk.fs.files[src].content.Raw? && CopiedFrom(disk.g, src, BytesOf(disk.fs, src))
      requires disk.hazard || (Stable(disk.fs, req.loc, src) && Unclaimed(disk.fs, req.loc, src))
      modifies disk`fs, disk`faults, disk`moves, disk`g
      ensures disk.Valid()
      ensures old(disk.faults) <= disk.faults && (r == Err(Io) ==> disk.faults > old(disk.faults))
      ensures disk.g.lineage == old(disk.g.lineage) && Extends(old(disk.g), disk.g)
      ensures old(disk.g.owed) <= disk.g.owed
      ensures r.Ok? ==> PromisedFrom(old(disk.fs), req.loc, disk.g, id)
      ensures InFolder(req.loc) ==> KeptOrGone(old(disk.fs), disk.fs, req.loc)
      ensures disk.g.cores.Keys <= old(disk.g.cores.Keys) + {id}
      ensures disk.faults == old(disk.faults) ==> Answered(r, CopyRefusal(old(disk.fs), disk.sha, src, req, id))
      ensures Undisturbed(old(disk.fs), disk.fs, NamesOf(id) + {req.loc})
      ensures r.Ok? ==> QuarantineDone(old(disk.fs), disk.fs, disk.sha, req, id, key, r.value)
      ensures r.Ok? ==> RecordsSynced(disk.fs)
      ensures r.Err? && r.error != Crash && disk.faults == old(disk.faults) ==>
                forall l :: l != DataTmpAt(id) ==> Get(disk.fs.view, l) == Get(old(disk.fs.view), l)
    {
      hide Sound, Calm, Undisturbed, Narrows, SyncNames, MayBePending, DataCopy, Encoded, Decoded, Extends, Stable, CopySeen, RecordSeen;
      hide Unclaimed, NoRival, RecordsSynced, KeptOrGone, PromisedFrom, ItemBytes, QuarantineDone, CopyRefusal, WithItem;
      ghost var before := disk.fs;
      ghost var names := NamesOf(id) + {req.loc};
      UndisturbedSelf(before, names);
      ExtendsSelf(disk.g);
      ghost var bytes := BytesOf(disk.fs, src);
      SoundIsWellFormed(before, disk.g, disk.sha);
      var copied := CopyOriginal(src, req, id, key);
      UndisturbedWithin(before, disk.fs, {DataTmpAt(id)}, names);
      UndisturbedKept(before, disk.fs, {DataTmpAt(id)}, req.loc);
      if copied.Err? {
        UndisturbedNames(before, disk.fs, {DataTmpAt(id)});
        return Err(copied.error);
      }
      var core := Core(id, req.loc, src, copied.value.1, copied.value.0, key);
      var rec := Record(core, Pending, None);
      ghost var ready, known := disk.fs, disk.g;
      WithItemIs(known, core, bytes);
      UndisturbedName(before, ready, {DataTmpAt(id)}, req.loc);
      UndisturbedKeys(before, ready, {DataTmpAt(id)}, src);
      NarrowsStableName(before, ready, req.loc, src);
      if !disk.hazard {
        UnclaimedStays(before, ready, disk.g, disk.sha, {DataTmpAt(id)}, req.loc, src);
      }
      var done := StoreCopy(rec, bytes);
      KeptOrGoneThen(before, ready, disk.fs, req.loc);
      UndisturbedThen(before, ready, disk.fs, names, names, names);
      if done.Ok? {
        PromisedFromIs(before, req.loc, disk.g, id);
        QuarantineDoneIs(before, disk.fs, disk.sha, req, id, key, rec.(state := Quarantined), bytes);
      }
      r := if done.Ok? then Ok(rec.(state := Quarantined)) else Err(done.error);
    }

    method QuarantineInner(req: Request, id: Id, key: Bytes) returns (r: Result<Record, Error>)
      requires disk.Valid() && id !in disk.g.cores && |key| == KEY_LEN
      modifies disk`fs, disk`hazard, disk`faults, disk`moves, disk`g
      ensures disk.Valid()
      ensures old(disk.hazard) ==> disk.hazard
      ensures disk.hazard ==> old(disk.hazard) || Doubtful(old(disk.fs), req.loc)
      ensures old(disk.faults) <= disk.faults && (r == Err(Io) ==> disk.faults > old(disk.faults))
      ensures disk.g.lineage == old(disk.g.lineage) && Extends(old(disk.g), disk.g)
      ensures old(disk.g.owed) <= disk.g.owed
      ensures r.Ok? ==> PromisedFrom(old(disk.fs), req.loc, disk.g, id)
      ensures InFolder(req.loc) ==> KeptOrGone(old(disk.fs), disk.fs, req.loc)
      ensures disk.g.cores.Keys <= old(disk.g.cores.Keys) + {id}
      ensures disk.faults == old(disk.faults) ==> Answered(r, QuarantineRefusal(old(disk.fs), disk.sha, req, id))
      ensures Undisturbed(old(disk.fs), disk.fs, NamesOf(id) + if InFolder(req.loc) then {req.loc} else {})
      ensures r.Ok? ==> QuarantineDone(old(disk.fs), disk.fs, disk.sha, req, id, key, r.value)
      ensures r.Ok? && NonePending(old(disk.fs)) ==> Settled(disk.fs)
      ensures r.Err? && r.error != Crash && disk.faults == old(disk.faults) ==>
                forall l :: l != DataTmpAt(id) ==> Get(disk.fs.view, l) == Get(old(disk.fs.view), l)
    {
      hide Sound, Calm, Settled, Undisturbed, Extends, Stable, CopySeen, RecordSeen;
      hide Unclaimed, RecordsSynced, NonePending, InspectRefusal, Doubtful, PromisedFrom, KeptOrGone, CopiedFrom;
      ghost var before, known := disk.fs, disk.g;
      ghost var names := NamesOf(id) + if InFolder(req.loc) then {req.loc} else {};
      UndisturbedSelf(before, names);
      ExtendsSelf(disk.g);
      InspectThenCopy(before, disk.sha, req, id);
      GoneIsKept(before, before, req.loc);
      var inspected := Inspect(req);
      if inspected.Err? {
        return Err(inspected.error);
      }
      r := TakeFile(inspected.value, req, id, key);
      if r.Ok? {
        QuarantinedSettles(before, disk.fs, known, disk.sha, names, id);
      }
    }

    // ---- Restore and delete.

    /** Loads one record. */
    method GetRecord(id: Id) returns (r: Result<Record, Error>)
      requires disk.Valid()
      modifies disk`faults
      ensures disk.Valid()
      ensures disk.faults == old(disk.faults) + Once(r == Err(Io))
      ensures r.Ok? ==> RecordSeen(disk.fs, id) == Some(r.value) && r.value.core.id == id
      ensures r.Err? ==> r.error in {Crash, Io, UnknownItem, Corrupt}
      ensures r == Err(UnknownItem) || r == Err(Corrupt) ==> RecordSeen(disk.fs, id) == None || RecordSeen(disk.fs, id).value.core.id != id
      ensures r == Err(Io) || Answered(r, if RecordSeen(disk.fs, id).None? then Some(UnknownItem) else None)
    {
      hide Sound, Calm;
      SoundIsWellFormed(disk.fs, disk.g, disk.sha);
      NameHasRecord(disk.fs, disk.g, disk.sha, id);
      var c, found := disk.Stat(RecordAt(id));
      if !c.Done? {
        return Err(ErrorOf(c));
      }
      if found == None {
        return Err(UnknownItem);
      }
      ViewIsFile(disk.fs, RecordAt(id));
      var f := disk.fs.files[found.value];
      r := if !f.content.Json? || f.content.rec.core.id != id then Err(Corrupt) else Ok(f.content.rec);
    }

    /** Decodes the copy of `rec` into a fresh temporary and verifies it. */
    method DecodeToTemporary(rec: Record, tmp: Loc) returns (r: Result<Ino, Error>)
      requires disk.Valid() && RecordSeen(disk.fs, rec.core.id) == Some(rec) && rec.core.id in disk.g.cores
      requires rec.core == disk.g.cores[rec.core.id] && |rec.core.key| == KEY_LEN
      requires rec.core.sha256 == disk.sha(ItemBytes(disk.g, rec.core.id))
      requires tmp.name.RestoreTmp? && tmp !in disk.fs.view
      modifies disk`fs, disk`faults
      ensures disk.Valid()
      ensures old(disk.faults) <= disk.faults && (r == Err(Io) ==> disk.faults > old(disk.faults))
      ensures Undisturbed(old(disk.fs), disk.fs, {tmp})
      ensures disk.faults == old(disk.faults) ==> Answered(r, if DataAt(rec.core.id) !in old(disk.fs.view) then Some(Missing) else None)
      ensures r != Err(AlreadyThere)
      ensures r.Ok? ==> && Get(disk.fs.view, tmp) == Some(r.value) && r.value !in old(disk.fs.files) && r.value in disk.fs.files
                        && disk.fs.files[r.value] == File(Raw(ItemBytes(disk.g, rec.core.id)), false)
                        && CopySeen(old(disk.fs), rec.core.id, rec.core.key) == Some(ItemBytes(disk.g, rec.core.id))
    {
      hide Sound, Calm, Undisturbed, Narrows, MayBePending, Encoded, Decoded, PlainAt, IsRecord, IsCopy;
      var id := rec.core.id;
      ghost var before := disk.fs;
      UndisturbedSelf(before, {tmp});
      SoundIsWellFormed(before, disk.g, disk.sha);
      var c, out := disk.Create(tmp);
      if !c.Done? {
        return Err(ErrorOf(c));
      }
      ghost var created := disk.fs;
      ViewUnchanged(before, created, out, tmp, DataAt(id));
      PlainIsFile(created, disk.g, disk.sha, id);
      UndisturbedSeen(before, created, disk.g, disk.sha, {tmp}, id);
      var decoded := DecodeFile(DataAt(id), rec.core.key, Some(out));
      UndisturbedThen(before, created, disk.fs, {tmp}, {}, {tmp});
      if decoded.Err? || decoded.value.0 != rec.core.sha256 {
        r := GiveUpRestore(before, tmp, if decoded.Err? then decoded.error else Corrupt);
        return;
      }
      r := Ok(out);
    }

    /** Decodes the copy of `rec` into a fresh temporary, verifies it, and
        makes it durable. */
    method DecodeForRestore(rec: Record, tmp: Loc) returns (r: Result<Ino, Error>)
      requires disk.Valid() && RecordSeen(disk.fs, rec.core.id) == Some(rec)
      requires tmp.name.RestoreTmp?
      modifies disk`fs, disk`faults, disk`g
      ensures disk.Valid()
      ensures old(disk.faults) <= disk.faults && (r == Err(Io) ==> disk.faults > old(disk.faults))
      ensures disk.g.cores == old(disk.g.cores) && disk.g.owed == old(disk.g.owed)
      ensures Undisturbed(old(disk.fs), disk.fs, FreeOf(old(disk.fs), {tmp}))
      ensures r.Err? ==> disk.g == old(disk.g)
      ensures r == Err(AlreadyThere) <==> tmp in old(disk.fs.view)
      ensures tmp in old(disk.fs.view) ==> disk.fs == old(disk.fs)
      ensures disk.faults == old(disk.faults) && tmp !in old(disk.fs.view) ==>
                Answered(r, if DataAt(rec.core.id) !in old(disk.fs.view) then Some(Missing) else None)
      ensures r.Ok? ==>
        && Get(disk.fs.view, tmp) == Some(r.value) && r.value !in old(disk.fs.files)
        && rec.core.id in old(disk.g.source)
        && disk.g == old(disk.g).(lineage := old(disk.g).lineage[r.value := old(disk.g).source[rec.core.id]])
        && r.value in disk.fs.files && disk.fs.files[r.value] == File(Raw(ItemBytes(old(disk.g), rec.core.id)), true)
        && CopySeen(old(disk.fs), rec.core.id, rec.core.key) == Some(ItemBytes(old(disk.g), rec.core.id))
    {
      hide Sound, Calm, Undisturbed, Narrows, MayBePending;
      ghost var before := disk.fs;
      UndisturbedSelf(before, FreeOf(before, {tmp}));
      RecordIsKnown(before, disk.g, disk.sha, rec);
      SeenIsKnown(before, disk.g, disk.sha, rec);
      if tmp in disk.fs.view {
        return Err(AlreadyThere);
      }
      FreeIs(before, tmp);
      r := DecodeToTemporary(rec, tmp);
      if r.Err? {
        return;
      }
      ghost var written := disk.fs;
      var out := r.value;
      var c := disk.Sync(out);
      UndisturbedThen(before, written, disk.fs, {tmp}, {}, {tmp});
      if !c.Done? {
        r := GiveUpRestore(before, tmp, ErrorOf(c));
        return;
      }
      LineageIsOld(before, disk.g, disk.sha, out);
      disk.Join(out, rec.core.id);
    }

    method GiveUpRestore(ghost before: Fs, tmp: Loc, e: Error) returns (r: Result<Ino, Error>)
      requires disk.Valid() && tmp.name.RestoreTmp? && Undisturbed(before, disk.fs, {tmp})
      modifies disk`fs, disk`faults
      ensures disk.Valid() && Undisturbed(before, disk.fs, {tmp})
      ensures old(disk.faults) <= disk.faults
      ensures r == Err(e) || r == Err(Crash)
    {
      hide Sound, Calm, Undisturbed, Narrows, MayBePending;
      if e == Crash {
        return Err(Crash);
      }
      ghost var prior := disk.fs;
      var c := disk.UnlinkTmp(tmp);
      UndisturbedThen(before, prior, disk.fs, {tmp}, {tmp}, {tmp});
      r := Err(if c.Crashed? then Crash else e);
    }

    /** Gives the restored file its name, which must be free: an atomic rename,
        or a link where the filesystem has no such rename. */
    method Publish(tmp: Loc, target: Loc, i: Ino) returns (r: Result<(), Error>)
      requires disk.Valid() && tmp.name.RestoreTmp? && InFolder(target) && Get(disk.fs.view, tmp) == Some(i)
      requires i in disk.g.lineage && forall id :: id in disk.g.cores ==> disk.g.cores[id].ino != i
      modifies disk`fs, disk`faults
      ensures disk.Valid()
      ensures Undisturbed(old(disk.fs), disk.fs, {tmp} + FreeOf(old(disk.fs), {target}))
      ensures old(disk.faults) <= disk.faults && (r == Err(Io) ==> disk.faults > old(disk.faults))
      ensures r.Ok? ==> target !in old(disk.fs.view) && Get(disk.fs.view, target) == Some(i)
      ensures r == Err(Io) || Answered(r, if target in old(disk.fs.view) then Some(TargetExists) else None)
    {
      hide Sound, Calm, Undisturbed, Narrows, MayBePending;
      ghost var before := disk.fs;
      ghost var names := {tmp} + FreeOf(before, {target});
      UndisturbedSelf(before, names);
      var c;
      if target in disk.fs.view {
        c := disk.UnlinkTmp(tmp);
        UndisturbedThen(before, before, disk.fs, names, {tmp}, names);
        return Err(if c.Crashed? then Crash else TargetExists);
      }
      FreeIs(before, target);
      var supported: bool := *;
      if supported {
        c := disk.RenameTarget(tmp, target);
      } else {
        c := disk.LinkTarget(tmp, target);
        UndisturbedWithin(before, disk.fs, {target}, {tmp, target});
      }
      if c.Crashed? {
        return Err(Crash);
      }
      ghost var named := disk.fs;
      if supported && c.Done? {
        return Ok(());
      }
      var cleaned := disk.UnlinkTmp(tmp);
      UndisturbedThen(before, named, disk.fs, {tmp, target}, {tmp}, {tmp, target});
      if cleaned.Crashed? {
        return Err(Crash);
      }
      if c.Fault? {
        return Err(Io);
      }
      UndisturbedName(named, disk.fs, {tmp}, target);
      r := Ok(());
    }

    /** The restored file's name is made durable, and only then is the copy
        removed and the record closed. */
    method CloseRestore(rec: Record, target: Loc, i: Ino) returns (r: Result<(), Error>)
      requires disk.Valid() && RecordSeen(disk.fs, rec.core.id) == Some(rec) && rec.state == Quarantined
      requires rec.core.id in disk.g.cores && rec.core == disk.g.cores[rec.core.id]
      requires rec.core.id in disk.g.source && Get(disk.g.lineage, i) == Some(disk.g.source[rec.core.id])
      requires InFolder(target) && Get(disk.fs.view, target) == Some(i)
      requires disk.hazard || !MayBePending(disk.fs, rec.core.id)
      modifies disk`fs, disk`faults, disk`moves
      ensures disk.Valid()
      ensures Undisturbed(old(disk.fs), disk.fs, NamesOf(rec.core.id))
      ensures old(disk.faults) <= disk.faults
      ensures r.Err? ==> r.error == Crash || (r.error == Io && disk.faults > old(disk.faults))
      ensures r.Ok? ==> DataAt(rec.core.id) !in disk.fs.view
                        && RecordSeen(disk.fs, rec.core.id) == Some(rec.(state := Restored, restoredTo := Some(target)))
      ensures r.Ok? ==> RecordsSynced(disk.fs)
    {
      hide Sound, Calm, Undisturbed, Narrows, MayBePending, SyncNames, AtRisk, RecordsSynced;
      var id := rec.core.id;
      ghost var before := disk.fs;
      UndisturbedSelf(before, NamesOf(id));
      var c := disk.SyncDir(target.dir);
      UndisturbedWithin(before, disk.fs, {}, NamesOf(id));
      if !c.Done? {
        return Err(ErrorOf(c));
      }
      SyncNamesView(before, target.dir);
      SyncedIsFolderCopy(disk.fs, disk.g, target);
      ghost var synced := disk.fs;
      UndisturbedSeen(before, synced, disk.g, disk.sha, {}, id);
      NotPendingStays(before, synced, disk.g, disk.sha, {}, id);
      c := disk.UnlinkCopy(id);
      UndisturbedThen(before, synced, disk.fs, NamesOf(id), {DataAt(id)}, NamesOf(id));
      if !c.Done? {
        return Err(ErrorOf(c));
      }
      ghost var removed := disk.fs;
      UndisturbedSeen(synced, removed, disk.g, disk.sha, {DataAt(id)}, id);
      r := Save(rec.(state := Restored, restoredTo := Some(target)));
      UndisturbedThen(before, removed, disk.fs, NamesOf(id), {RecordTmpAt(id), RecordAt(id)}, NamesOf(id));
      if r.Err? {
        return;
      }
      UndisturbedName(removed, disk.fs, {RecordTmpAt(id), RecordAt(id)}, DataAt(id));
      ItemsSynced(disk.fs);
    }

    /** The verified file takes its name, and the item is closed. */
    method FinishRestore(rec: Record, tmp: Loc, target: Loc, i: Ino) returns (r: Result<(), Error>)
      requires disk.Valid() && RecordSeen(disk.fs, rec.core.id) == Some(rec) && rec.state == Quarantined
      requires rec.core.id in disk.g.cores && rec.core == disk.g.cores[rec.core.id]
      requires rec.core.id in disk.g.source && Get(disk.g.lineage, i) == Some(disk.g.source[rec.core.id])
      requires tmp.name.RestoreTmp? && InFolder(target) && Get(disk.fs.view, tmp) == Some(i)
      requires forall id :: id in disk.g.cores ==> disk.g.cores[id].ino != i
      requires i in disk.fs.files && disk.fs.files[i].synced
      requires disk.hazard || !MayBePending(disk.fs, rec.core.id)
      modifies disk`fs, disk`faults, disk`moves
      ensures disk.Valid()
      ensures old(disk.faults) <= disk.faults && (r == Err(Io) ==> disk.faults > old(disk.faults))
      ensures Undisturbed(old(disk.fs), disk.fs, NamesOf(rec.core.id) + {tmp} + FreeOf(old(disk.fs), {target}))
      ensures disk.faults == old(disk.faults) ==> Answered(r, if target in old(disk.fs.view) then Some(TargetExists) else None)
      ensures r.Ok? ==> DataAt(rec.core.id) !in disk.fs.view && target !in old(disk.fs.view)
                        && RecordSeen(disk.fs, rec.core.id) == Some(rec.(state := Restored, restoredTo := Some(target)))
                        && Get(disk.fs.view, target) == Some(i) && BytesOf(disk.fs, i) == BytesOf(old(disk.fs), i)
      ensures r.Ok? ==> RecordsSynced(disk.fs)
      ensures r.Err? && r.error != Crash && disk.faults == old(disk.faults) ==> RecordSeen(disk.fs, rec.core.id) == Some(rec)
    {
      hide Sound, Calm, Undisturbed, Narrows, MayBePending, Encoded, Decoded, PlainAt, CopySeen, RecordsSynced;
      var id := rec.core.id;
      ghost var ready := disk.fs;
      ghost var free := {tmp} + FreeOf(ready, {target});
      ghost var names := NamesOf(id) + {tmp} + FreeOf(ready, {target});
      r := Publish(tmp, target, i);
      UndisturbedWithin(ready, disk.fs, free, names);
      UndisturbedSeen(ready, disk.fs, disk.g, disk.sha, free, id);
      NotPendingStays(ready, disk.fs, disk.g, disk.sha, free, id);
      if r.Err? {
        return;
      }
      ghost var named := disk.fs;
      SavedFile(ready, named, disk.g, disk.sha, free, i);
      r := CloseRestore(rec, target, i);
      UndisturbedThen(ready, named, disk.fs, names, NamesOf(id), names);
      UndisturbedName(named, disk.fs, NamesOf(id), target);
      SavedFile(named, disk.fs, disk.g, disk.sha, NamesOf(id), i);
    }

    /** Gives back an item whose record allows it. */
    method GiveBack(rec: Record, dest: Option<string>) returns (r: Result<Loc, Error>)
      requires disk.Valid() && RecordSeen(disk.fs, rec.core.id) == Some(rec) && rec.state == Quarantined
      requires disk.hazard || !MayBePending(disk.fs, rec.core.id)
      modifies disk`fs, disk`faults, disk`moves, disk`g
      ensures disk.Valid()
      ensures old(disk.faults) <= disk.faults && (r == Err(Io) ==> disk.faults > old(disk.faults))
      ensures disk.g.cores == old(disk.g.cores) && disk.g.owed == old(disk.g.owed) && Extends(old(disk.g), disk.g)
      ensures Undisturbed(old(disk.fs), disk.fs, RestoreNames(old(disk.fs), rec.core.id, dest))
      ensures disk.faults == old(disk.faults) ==>
                Answered(r, DecodeRefusal(old(disk.fs), rec, RestoreTmpOf(rec, dest), TargetOf(rec, dest)))
      ensures RestoreTmpOf(rec, dest) in old(disk.fs.view) ==> disk.fs == old(disk.fs) && r == Err(AlreadyThere)
      ensures r.Ok? ==> RestoreDone(old(disk.fs), disk.fs, rec.core.id, dest, r.value) && RecordsSynced(disk.fs)
      ensures r.Err? && r.error != Crash && disk.faults == old(disk.faults) ==> RecordSeen(disk.fs, rec.core.id) == Some(rec)
    {
      hide Sound, Calm, Undisturbed, Narrows, MayBePending, Extends, Stable, CopySeen, NamesOf, FreeOf, RecordsSynced, RecordSeen;
      var id := rec.core.id;
      ghost var before, known := disk.fs, disk.g;
      ghost var names := RestoreNames(before, id, dest);
      UndisturbedSelf(before, names);
      ExtendsSelf(disk.g);
      RecordIsKnown(before, disk.g, disk.sha, rec);
      SeenIsKnown(before, disk.g, disk.sha, rec);
      var target, tmp := TargetOf(rec, dest), RestoreTmpOf(rec, dest);
      RestoreNamesAre(before, id, dest, rec);
      ghost var free := FreeOf(before, {tmp});
      var decoded := DecodeForRestore(rec, tmp);
      UndisturbedWithin(before, disk.fs, free, names);
      UndisturbedSeen(before, disk.fs, known, disk.sha, free, id);
      NotPendingStays(before, disk.fs, known, disk.sha, free, id);
      UndisturbedName(before, disk.fs, free, target);
      if decoded.Err? {
        return Err(decoded.error);
      }
      ghost var ready := disk.fs;
      LineageIsOld(before, known, disk.sha, decoded.value);
      ExtendsByFile(known, decoded.value, known.source[rec.core.id]);
      var finished := FinishRestore(rec, tmp, target, decoded.value);
      FreeSame(before, ready, target);
      UndisturbedThen(before, ready, disk.fs, names, NamesOf(id) + {tmp} + FreeOf(ready, {target}), names);
      r := if finished.Ok? then Ok(target) else Err(finished.error);
    }

    /** Restores an item to its own directory, or to `dest`; `safe` is whether
        that directory may be written to. */
    method RestoreInner(id: Id, dest: Option<string>, safe: bool) returns (r: Result<Loc, Error>)
      requires disk.Valid()
      modifies disk`fs, disk`hazard, disk`faults, disk`moves, disk`g
      ensures disk.Valid()
      ensures old(disk.hazard) ==> disk.hazard
      ensures disk.hazard ==> old(disk.hazard) || MayBePending(old(disk.fs), id)
      ensures old(disk.faults) <= disk.faults && (r == Err(Io) ==> disk.faults > old(disk.faults))
      ensures disk.g.cores == old(disk.g.cores) && disk.g.owed == old(disk.g.owed) && Extends(old(disk.g), disk.g)
      ensures Undisturbed(old(disk.fs), disk.fs, RestoreNames(old(disk.fs), id, dest))
      ensures disk.faults == old(disk.faults) ==> Answered(r, RestoreRefusal(old(disk.fs), id, dest, safe))
      ensures RestoreRefusal(old(disk.fs), id, dest, safe) == Some(AlreadyThere) ==> disk.fs == old(disk.fs)
      ensures RecordSeen(old(disk.fs), id).Some? && RecordSeen(old(disk.fs), id).value.state == Quarantined && safe
              && disk.faults == old(disk.faults) && r != Err(Crash) ==>
                (r == Err(AlreadyThere) <==> RestoreTmpOf(RecordSeen(old(disk.fs), id).value, dest) in old(disk.fs.view))
      ensures r.Ok? ==> RestoreDone(old(disk.fs), disk.fs, id, dest, r.value)
      ensures r.Ok? && NonePending(old(disk.fs)) ==> Settled(disk.fs)
      ensures r.Err? && r.error != Crash && disk.faults == old(disk.faults) ==> RecordSeen(disk.fs, id) == RecordSeen(old(disk.fs), id)
    {
      hide Sound, Calm, Settled, Undisturbed, MayBePending, Extends, NamesOf, FreeOf, RecordsSynced, NonePending, DecodeRefusal;
      ghost var before, known := disk.fs, disk.g;
      ghost var names := RestoreNames(before, id, dest);
      UndisturbedSelf(before, names);
      ExtendsSelf(disk.g);
      DecodeRefusals(before);
      var got := GetRecord(id);
      if got.Err? {
        return Err(got.error);
      }
      var rec := got.value;
      if rec.state != Quarantined {
        return Err(InvalidState);
      }
      disk.Suspect(MayBePending(disk.fs, id));
      if !safe {
        return Err(UnsafeTarget);
      }
      RecordIsKnown(before, disk.g, disk.sha, rec);
      SeenIsKnown(before, disk.g, disk.sha, rec);
      r := GiveBack(rec, dest);
      if r.Ok? {
        RestoredSettles(before, disk.fs, known, disk.sha, names, id);
      }
    }

    /** Permanently deletes an item's content; the record is kept. */
    method DeleteInner(id: Id) returns (r: Result<(), Error>)
      requires disk.Valid()
      modifies disk`fs, disk`hazard, disk`faults, disk`moves, disk`g
      ensures disk.Valid()
      ensures old(disk.hazard) ==> disk.hazard
      ensures disk.hazard ==> old(disk.hazard) || MayBePending(old(disk.fs), id)
      ensures old(disk.faults) <= disk.faults && (r == Err(Io) ==> disk.faults > old(disk.faults))
      ensures disk.g == old(disk.g).(owed := disk.g.owed) && disk.g.owed <= old(disk.g.owed)
      ensures forall o :: o in old(disk.g.owed) && o !in disk.g.owed ==>
                StateSeen(old(disk.fs), id) == Some(Quarantined)
                && id in old(disk.g.cores) && Get(old(disk.g.source), id) == Some(o)
      ensures Undisturbed(old(disk.fs), disk.fs, NamesOf(id))
      ensures disk.faults == old(disk.faults) ==> Answered(r, DeleteRefusal(old(disk.fs), id))
      ensures r.Ok? ==> DataAt(id) !in disk.fs.view && RecordSeen(old(disk.fs), id).Some?
                        && RecordSeen(disk.fs, id) == Some(RecordSeen(old(disk.fs), id).value.(state := Deleted))
      ensures r.Ok? && NonePending(old(disk.fs)) ==> Settled(disk.fs)
    {
      hide Sound, Calm, Settled, Undisturbed, Narrows, MayBePending, SyncNames, NonePending, RecordsSynced;
      ghost var before, known := disk.fs, disk.g;
      UndisturbedSelf(before, NamesOf(id));
      var got := GetRecord(id);
      if got.Err? {
        return Err(got.error);
      }
      var rec := got.value;
      if rec.state != Quarantined {
        return Err(InvalidState);
      }
      RecordIsKnown(before, disk.g, disk.sha, rec);
      SeenIsKnown(before, disk.g, disk.sha, rec);
      disk.Suspect(MayBePending(disk.fs, id));
      disk.GiveUp(disk.g.source[id]);
      r := RemoveForGood(rec);
      if r.Ok? {
        ClosedSettles(before, disk.fs, known, disk.sha, id);
      }
    }

    /** The copy goes for good, and only then does the record say so. */
    method RemoveForGood(rec: Record) returns (r: Result<(), Error>)
      requires disk.Valid() && RecordSeen(disk.fs, rec.core.id) == Some(rec) && rec.state == Quarantined
      requires rec.core.id in disk.g.cores && rec.core == disk.g.cores[rec.core.id]
      requires rec.core.id in disk.g.source && disk.g.source[rec.core.id] !in disk.g.owed
      requires disk.hazard || !MayBePending(disk.fs, rec.core.id)
      modifies disk`fs, disk`faults, disk`moves
      ensures disk.Valid()
      ensures disk.faults == old(disk.faults) + Once(r == Err(Io))
      ensures r.Ok? || r == Err(Io) || r == Err(Crash)
      ensures Undisturbed(old(disk.fs), disk.fs, NamesOf(rec.core.id))
      ensures r.Ok? ==> DataAt(rec.core.id) !in disk.fs.view && RecordsSynced(disk.fs)
      ensures r.Ok? ==> RecordSeen(disk.fs, rec.core.id) == Some(rec.(state := Deleted))
    {
      hide Sound, Calm, Undisturbed, Narrows, MayBePending, SyncNames, RecordsSynced;
      var id := rec.core.id;
      ghost var before := disk.fs;
      UndisturbedSelf(before, NamesOf(id));
      var c := disk.UnlinkCopy(id);
      UndisturbedWithin(before, disk.fs, {DataAt(id)}, NamesOf(id));
      if !c.Done? {
        return Err(ErrorOf(c));
      }
      ghost var removed := disk.fs;
      c := disk.SyncDir(Items);
      UndisturbedThen(before, removed, disk.fs, NamesOf(id), {}, NamesOf(id));
      if !c.Done? {
        return Err(ErrorOf(c));
      }
      ghost var synced := disk.fs;
      SyncNamesView(removed, Items);
      UndisturbedSeen(before, removed, disk.g, disk.sha, {DataAt(id)}, id);
      UndisturbedSeen(removed, synced, disk.g, disk.sha, {}, id);
      r := Save(rec.(state := Deleted));
      UndisturbedThen(before, synced, disk.fs, NamesOf(id), {RecordTmpAt(id), RecordAt(id)}, NamesOf(id));
      if r.Err? {
        return;
      }
      UndisturbedName(synced, disk.fs, {RecordTmpAt(id), RecordAt(id)}, DataAt(id));
      ItemsSynced(disk.fs);
    }

    // ---- Recovery.

    /** Removes an item's copy and its temporary, as far as that works. */
    method DiscardCopy(id: Id) returns (dead: bool)
      requires disk.Valid() && id in disk.g.cores && id in disk.g.source
      requires MayBePending(disk.fs, id) && Get(disk.fs.view, disk.g.cores[id].origin) == Some(disk.g.cores[id].ino)
      modifies disk`fs, disk`faults
      ensures disk.Valid()
      ensures Undisturbed(old(disk.fs), disk.fs, {DataAt(id), DataTmpAt(id)})
      ensures old(disk.faults) <= disk.faults
    {
      hide Sound, Calm, Undisturbed, Narrows, MayBePending, SyncNames;
      ghost var before := disk.fs;
      ghost var names := {DataAt(id), DataTmpAt(id)};
      var c := disk.UnlinkCopy(id);
      UndisturbedWithin(before, disk.fs, {DataAt(id)}, names);
      if c.Crashed? {
        return true;
      }
      ghost var f1 := disk.fs;
      c := disk.UnlinkTmp(DataTmpAt(id));
      UndisturbedThen(before, f1, disk.fs, names, {DataTmpAt(id)}, names);
      if c.Crashed? {
        return true;
      }
      ghost var f2 := disk.fs;
      c := disk.SyncDir(Items);
      UndisturbedThen(before, f2, disk.fs, names, {}, names);
      dead := c.Crashed?;
    }

    /** Whether the copy decodes to the recorded hash. */
    method VerifyCopy(rec: Record) returns (r: Result<bool, Error>)
      requires disk.Valid() && |rec.core.key| == KEY_LEN
      modifies disk`fs, disk`faults
      ensures disk.Valid() && disk.fs == old(disk.fs)
      ensures old(disk.faults) <= disk.faults
      ensures r.Err? ==> r.error == Crash
      ensures r == Ok(true) ==> CopySeen(disk.fs, rec.core.id, rec.core.key).Some?
                                && disk.sha(CopySeen(disk.fs, rec.core.id, rec.core.key).value) == rec.core.sha256
      ensures r == Ok(false) && disk.faults == old(disk.faults) ==>
                CopySeen(disk.fs, rec.core.id, rec.core.key).None?
                || disk.sha(CopySeen(disk.fs, rec.core.id, rec.core.key).value) != rec.core.sha256
    {
      hide Sound, Calm, Undisturbed, Narrows, Decoded;
      var decoded := DecodeFile(DataAt(rec.core.id), rec.core.key, None);
      if decoded == Err(Crash) {
        return Err(Crash);
      }
      r := Ok(decoded.Ok? && decoded.value.0 == rec.core.sha256);
    }

    /** Decides an item found pending. */
    method ResolvePending(rec: Record) returns (r: Result<ItemState, Error>)
      requires disk.Valid() && RecordSeen(disk.fs, rec.core.id) == Some(rec) && rec.state == Pending
      modifies disk`fs, disk`faults
      ensures disk.Valid()
      ensures Undisturbed(old(disk.fs), disk.fs, {DataAt(rec.core.id), DataTmpAt(rec.core.id)})
      ensures old(disk.faults) <= disk.faults
      ensures r.Err? ==> r.error == Crash
      ensures r.Ok? && disk.faults == old(disk.faults) ==> r.value == Decision(old(disk.fs), disk.sha, rec)
      ensures r.Ok? ==> r.value in {RolledBack, Quarantined, ItemState.Failed}
      ensures r == Ok(RolledBack) ==> Get(disk.fs.view, rec.core.origin) == Some(rec.core.ino)
      ensures r == Ok(Quarantined) ==> CopySeen(disk.fs, rec.core.id, rec.core.key) == Some(ItemBytes(disk.g, rec.core.id))
      ensures r == Ok(Quarantined) ==> DataAt(rec.core.id) in disk.fs.view
      ensures r == Ok(ItemState.Failed) ==> disk.hazard || disk.faults > old(disk.faults)
    {
      hide Sound, Calm, Undisturbed, Narrows, MayBePending, Encoded, Decoded, PlainAt, SyncNames, DataCopy;
      var id := rec.core.id;
      ghost var before := disk.fs;
      ghost var names := {DataAt(id), DataTmpAt(id)};
      UndisturbedSelf(before, names);
      RecordIsKnown(before, disk.g, disk.sha, rec);
      SeenIsKnown(before, disk.g, disk.sha, rec);
      PlainIsFile(before, disk.g, disk.sha, id);
      if !disk.hazard {
        CalmDecides(before, disk.g, disk.sha, rec);
      }
      var c, now := disk.Stat(rec.core.origin);
      if c.Crashed? {
        return Err(Crash);
      }
      if c.Done? && SameNumber(now, rec.core.ino) {
        var dead := DiscardCopy(id);
        if dead {
          return Err(Crash);
        }
        UndisturbedName(before, disk.fs, names, rec.core.origin);
        return Ok(RolledBack);
      }
      var verified := VerifyCopy(rec);
      if verified.Err? {
        return Err(Crash);
      }
      if !verified.value {
        return Ok(ItemState.Failed);
      }
      c := disk.UnlinkTmp(DataTmpAt(id));
      UndisturbedWithin(before, disk.fs, {DataTmpAt(id)}, names);
      if c.Crashed? {
        return Err(Crash);
      }
      UndisturbedSeen(before, disk.fs, disk.g, disk.sha, {DataTmpAt(id)}, id);
      r := Ok(Quarantined);
    }

    /** Every record found pending, each once. */
    method ListPending() returns (r: Result<seq<Record>, Error>)
      requires disk.Valid()
      modifies disk`faults
      ensures disk.Valid()
      ensures disk.faults == old(disk.faults) + Once(r == Err(Io))
      ensures r.Err? ==> r.error == Crash || r.error == Io
      ensures r.Ok? ==> Lists(disk.fs, r.value)
      ensures r.Ok? ==> forall id :: StateSeen(disk.fs, id) == Some(Pending) ==> exists k :: 0 <= k < |r.value| && r.value[k].core.id == id
    {
      hide Sound, Calm;
      var found := [];
      var todo := set l | l in disk.fs.view.Keys && l.dir == Items && l.name.RecordOf?;
      while todo != {}
        modifies disk`faults
        invariant disk.Valid() && disk.faults == old(disk.faults)
        invariant Lists(disk.fs, found)
        invariant forall l :: l in todo ==> l.dir == Items && l.name.RecordOf? && l in disk.fs.view
        invariant forall k :: 0 <= k < |found| ==> RecordAt(found[k].core.id) !in todo
        invariant forall id :: StateSeen(disk.fs, id) == Some(Pending) ==>
                    RecordAt(id) in todo || exists k :: 0 <= k < |found| && found[k].core.id == id
        decreases todo
      {
        var l :| l in todo;
        todo := todo - {l};
        NameHasRecord(disk.fs, disk.g, disk.sha, l.name.id);
        var got := GetRecord(l.name.id);
        if got.Err? {
          return Err(got.error);
        }
        if got.value.state == Pending {
          ghost var prior := found;
          found := found + [got.value];
          forall id | StateSeen(disk.fs, id) == Some(Pending)
            ensures RecordAt(id) in todo || exists k :: 0 <= k < |found| && found[k].core.id == id
          {
            if RecordAt(id) == l {
              assert found[|found| - 1].core.id == id;
            } else if k :| 0 <= k < |prior| && prior[k].core.id == id {
              assert found[k] == prior[k];
            }
          }
        }
      }
      r := Ok(found);
    }

    /** Resolves one pending item, saves the answer and logs it. */
    method RecoverOne(rec: Record) returns (r: Result<ItemState, Error>)
      requires disk.Valid() && RecordSeen(disk.fs, rec.core.id) == Some(rec) && rec.state == Pending
      modifies disk`fs, disk`log, disk`faults, disk`moves, disk`g
      ensures disk.Valid()
      ensures OnlyPromises(old(disk.g), disk.g) && (r == Ok(Quarantined) ==> Promised(disk.g, rec.core.id))
      ensures Undisturbed(old(disk.fs), disk.fs, NamesOf(rec.core.id))
      ensures old(disk.faults) <= disk.faults
      ensures disk.log == if r.Ok? then old(disk.log) + [RecoverEvent(rec.core.id, r.value)] else old(disk.log)
      ensures r.Err? ==> r.error == Crash || disk.faults > old(disk.faults)
      ensures r.Ok? && disk.faults == old(disk.faults) ==> r.value == Decision(old(disk.fs), disk.sha, rec)
      ensures r.Ok? ==> r.value in {RolledBack, Quarantined, ItemState.Failed}
      ensures r == Ok(ItemState.Failed) ==> disk.hazard || disk.faults > old(disk.faults)
      ensures r.Ok? ==> RecordSeen(disk.fs, rec.core.id) == Some(rec.(state := r.value))
      ensures r.Ok? ==> RecordsSynced(disk.fs) && RecordTmpAt(rec.core.id) !in disk.fs.view
    {
      hide Sound, Calm, Undisturbed, Narrows, MayBePending, SyncNames, CopySeen, Decision, DataCopy, AtRisk, RecordsSynced, ItemBytes;
      var id := rec.core.id;
      ghost var before := disk.fs;
      RecordIsKnown(before, disk.g, disk.sha, rec);
      SeenIsKnown(before, disk.g, disk.sha, rec);
      r := ResolvePending(rec);
      UndisturbedWithin(before, disk.fs, {DataAt(id), DataTmpAt(id)}, NamesOf(id));
      if r.Err? {
        return;
      }
      ghost var resolved := disk.fs;
      UndisturbedSeen(before, resolved, disk.g, disk.sha, {DataAt(id), DataTmpAt(id)}, id);
      var saved := Save(rec.(state := r.value));
      UndisturbedThen(before, resolved, disk.fs, NamesOf(id), {RecordTmpAt(id), RecordAt(id)}, NamesOf(id));
      if saved.Err? {
        return Err(saved.error);
      }
      ItemsSynced(disk.fs);
      if r.value == Quarantined {
        UndisturbedName(resolved, disk.fs, {RecordTmpAt(id), RecordAt(id)}, DataAt(id));
        QuarantinedIsKept(disk.fs, disk.g, disk.sha, id);
        disk.Promise(id);
      }
      var c := disk.AppendEvent(RecoverEvent(id, r.value));
      if !c.Done? {
        return Err(ErrorOf(c));
      }
    }

    /** Temporaries no record needs; what cannot be removed is left. */
    method SweepStrays() returns (r: Result<(), Error>)
      requires disk.Valid()
      modifies disk`fs, disk`faults
      ensures disk.Valid()
      ensures old(disk.faults) <= disk.faults
      ensures r.Ok? || r == Err(Crash)
      ensures Undisturbed(old(disk.fs), disk.fs, set l | l in old(disk.fs.view) && Temporary(l))
      ensures (forall l :: l in old(disk.fs.view) ==> !Stray(old(disk.fs), l)) && disk.faults == old(disk.faults) ==> disk.fs == old(disk.fs)
      ensures r.Ok? && disk.faults == old(disk.faults) ==> forall l :: l in disk.fs.view ==> !Stray(disk.fs, l)
    {
      hide Sound, Calm, Undisturbed, Narrows, MayBePending, RecordSeen;
      ghost var before, faults := disk.fs, disk.faults;
      ghost var temps := set l | l in before.view && Temporary(l);
      UndisturbedSelf(before, temps);
      var todo := set l | l in disk.fs.view.Keys && Temporary(l);
      while todo != {}
        modifies disk`fs, disk`faults
        invariant disk.Valid() && faults <= disk.faults
        invariant todo <= temps
        invariant Undisturbed(before, disk.fs, temps)
        invariant forall id :: RecordSeen(disk.fs, id) == RecordSeen(before, id)
        invariant forall l :: l in disk.fs.view ==> l in before.view
        invariant (forall l :: l in before.view ==> !Stray(before, l)) && disk.faults == faults ==> disk.fs == before
        invariant disk.faults == faults ==> forall l :: l in disk.fs.view && Stray(before, l) ==> l in todo
        decreases todo
      {
        var l :| l in todo;
        todo := todo - {l};
        ghost var prior := disk.fs;
        var swept := SweepOne(l);
        UndisturbedThen(before, prior, disk.fs, temps, {l}, temps);
        if swept.Err? {
          return Err(Crash);
        }
      }
      r := Ok(());
    }

    /** Removes one temporary if no record needs it. */
    method SweepOne(l: Loc) returns (r: Result<(), Error>)
      requires disk.Valid() && Temporary(l)
      modifies disk`fs, disk`faults
      ensures disk.Valid() && old(disk.faults) <= disk.faults
      ensures r.Ok? || r == Err(Crash)
      ensures Undisturbed(old(disk.fs), disk.fs, {l})
      ensures forall id :: RecordSeen(disk.fs, id) == RecordSeen(old(disk.fs), id)
      ensures forall k :: k in disk.fs.view ==> k in old(disk.fs.view)
      ensures !Stray(old(disk.fs), l) && disk.faults == old(disk.faults) ==> disk.fs == old(disk.fs)
      ensures r.Ok? && disk.faults == old(disk.faults) && Stray(old(disk.fs), l) ==> l !in disk.fs.view
    {
      hide Sound, Calm, Undisturbed, Narrows, MayBePending, RecordSeen;
      ghost var before := disk.fs;
      UndisturbedSelf(before, {l});
      var stray := l.name.RecordTmp?;
      if l.name.DataTmp? {
        var got := GetRecord(l.name.id);
        if got == Err(Crash) {
          return Err(Crash);
        }
        stray := got.Err?;
      }
      if stray {
        var c := disk.UnlinkTmp(l);
        forall id
          ensures RecordSeen(disk.fs, id) == RecordSeen(before, id)
        {
          UndisturbedSeen(before, disk.fs, disk.g, disk.sha, {l}, id);
        }
        if c.Crashed? {
          return Err(Crash);
        }
      }
      r := Ok(());
    }

    /** Resolves every item in `pending`, in turn. */
    method ResolveAll(pending: seq<Record>) returns (r: Result<(), Error>, recovered: seq<(Id, ItemState)>)
      requires disk.Valid() && Lists(disk.fs, pending)
      modifies disk`fs, disk`log, disk`faults, disk`moves, disk`g
      ensures disk.Valid() && OnlyPromises(old(disk.g), disk.g)
      ensures r.Ok? ==> KeptPromised(disk.g, recovered)
      ensures old(disk.faults) <= disk.faults
      ensures r.Err? ==> r.error == Crash || disk.faults > old(disk.faults)
      ensures disk.log == old(disk.log) + RecoverEvents(recovered)
      ensures Undisturbed(old(disk.fs), disk.fs, set k, l | 0 <= k < |pending| && l in NamesOf(pending[k].core.id) :: l)
      ensures pending == [] ==> disk.fs == old(disk.fs) && disk.moves == old(disk.moves) && r.Ok?
      ensures r.Ok? ==> |recovered| == |pending|
      ensures r.Ok? ==> forall k :: 0 <= k < |pending| ==>
                && recovered[k].0 == pending[k].core.id
                && recovered[k].1 in {RolledBack, Quarantined, ItemState.Failed}
                && (recovered[k].1 == ItemState.Failed ==> disk.hazard || disk.faults > old(disk.faults))
                && RecordSeen(disk.fs, pending[k].core.id) == Some(pending[k].(state := recovered[k].1))
                && RecordTmpAt(pending[k].core.id) !in disk.fs.view
      ensures r.Ok? && disk.faults == old(disk.faults) ==> forall k :: 0 <= k < |pending| ==>
                recovered[k].1 == Decision(old(disk.fs), disk.sha, pending[k])
      ensures r.Ok? && pending != [] ==> RecordsSynced(disk.fs)
    {
      hide Sound, Calm, Undisturbed, Narrows, MayBePending, RecordSeen, Decision, NamesOf, RecoverEvent, RecoverEvents, RecordsSynced;
      recovered := [];
      NoEvents();
      ghost var before, faults, log, known := disk.fs, disk.faults, disk.log, disk.g;
      ghost var names := set k, l | 0 <= k < |pending| && l in NamesOf(pending[k].core.id) :: l;
      UndisturbedSelf(before, names);
      for n := 0 to |pending|
        modifies disk`fs, disk`log, disk`faults, disk`moves, disk`g
        invariant disk.Valid() && faults <= disk.faults
        invariant OnlyPromises(known, disk.g) && KeptPromised(disk.g, recovered)
        invariant disk.log == log + RecoverEvents(recovered)
        invariant n == 0 ==> disk.fs == before && disk.moves == old(disk.moves)
        invariant Undisturbed(before, disk.fs, names)
        invariant |recovered| == n
        invariant forall k :: n <= k < |pending| ==>
                    RecordSeen(disk.fs, pending[k].core.id) == Some(pending[k])
                    && Decision(disk.fs, disk.sha, pending[k]) == Decision(before, disk.sha, pending[k])
        invariant forall k :: 0 <= k < n ==>
                    && recovered[k].0 == pending[k].core.id
                    && recovered[k].1 in {RolledBack, Quarantined, ItemState.Failed}
                    && (recovered[k].1 == ItemState.Failed ==> disk.hazard || disk.faults > faults)
                    && RecordSeen(disk.fs, pending[k].core.id) == Some(pending[k].(state := recovered[k].1))
                    && RecordTmpAt(pending[k].core.id) !in disk.fs.view
        invariant disk.faults == faults ==> forall k :: 0 <= k < n ==> recovered[k].1 == Decision(before, disk.sha, pending[k])
        invariant n > 0 ==> RecordsSynced(disk.fs)
      {
        ghost var prior, priorG := disk.fs, disk.g;
        var id := pending[n].core.id;
        var one := RecoverOne(pending[n]);
        UndisturbedThen(before, prior, disk.fs, names, NamesOf(id), names);
        if one.Err? {
          return Err(one.error), recovered;
        }
        forall k | 0 <= k < |pending| && k != n
          ensures RecordSeen(disk.fs, pending[k].core.id) == RecordSeen(prior, pending[k].core.id)
          ensures RecordTmpAt(pending[k].core.id) in disk.fs.view ==> RecordTmpAt(pending[k].core.id) in prior.view
          ensures k > n ==> Decision(disk.fs, disk.sha, pending[k]) == Decision(prior, disk.sha, pending[k])
        {
          OtherItem(prior, disk.fs, priorG, disk.sha, id, pending[k]);
        }
        OneMoreEvent(log, recovered, id, one.value);
        OneMoreKept(priorG, disk.g, recovered, id, one.value);
        recovered := recovered + [(id, one.value)];
      }
      r := Ok(());
    }

    /** Resolves every item found pending. */
    method ResolveFound() returns (r: Result<(), Error>, recovered: seq<(Id, ItemState)>)
      requires disk.Valid()
      modifies disk`fs, disk`log, disk`faults, disk`moves, disk`g
      ensures disk.Valid() && OnlyPromises(old(disk.g), disk.g)
      ensures r.Ok? ==> KeptPromised(disk.g, recovered)
      ensures old(disk.faults) <= disk.faults
      ensures r.Err? ==> r.error == Crash || disk.faults > old(disk.faults)
      ensures disk.log == old(disk.log) + RecoverEvents(recovered)
      ensures StoreOnly(old(disk.fs), disk.fs)
      ensures r.Ok? ==> AllResolved(old(disk.fs), disk.fs, disk.sha, disk.faults == old(disk.faults),
                                    disk.hazard || disk.faults > old(disk.faults))
      ensures r.Ok? && NonePending(old(disk.fs)) ==>
                disk.fs == old(disk.fs) && disk.moves == old(disk.moves) && recovered == []
      ensures r.Ok? && (old(disk.fs.pending) == {} || !NonePending(old(disk.fs))) ==> RecordsSynced(disk.fs)
    {
      hide Sound, Calm, Undisturbed, Narrows, MayBePending, Decision, RecordSeen, RecoverEvents, StoreOnly, RecordsSynced, AllResolved, NamesOf;
      ghost var before, faults, known := disk.fs, disk.faults, disk.g;
      recovered := [];
      NoEvents();
      UndisturbedSelf(before, {});
      StoreOnlyFrom(before, before, {});
      var listed := ListPending();
      if listed.Err? {
        return Err(listed.error), recovered;
      }
      var pending := listed.value;
      ghost var names := set k, l | 0 <= k < |pending| && l in NamesOf(pending[k].core.id) :: l;
      r, recovered := ResolveAll(pending);
      NamesInItems(pending, names);
      StoreOnlyFrom(before, disk.fs, names);
      if r.Err? {
        return;
      }
      ResolvedEach(before, disk.fs, known, disk.sha, pending, recovered, names, disk.faults == faults, disk.hazard || disk.faults > faults);
      if pending == [] {
        if before.pending == {} {
          NothingPendingSynced(before, known, disk.sha);
        }
      } else {
        assert StateSeen(before, pending[0].core.id) == Some(Pending);
      }
    }

    /** Replays interrupted operations. */
    method Recover() returns (r: Result<(), Error>, recovered: seq<(Id, ItemState)>)
      requires disk.Valid()
      modifies disk
      ensures disk.Valid() && OnlyPromises(old(disk.g), disk.g)
      ensures r.Ok? ==> KeptPromised(disk.g, recovered)
      ensures old(disk.faults) <= disk.faults
      ensures r.Err? ==> r.error == Crash || disk.faults > old(disk.faults)
      ensures disk.hazard ==> old(disk.hazard)
      ensures r.Ok? && Settled(disk.fs) ==> !disk.hazard
      ensures disk.log == old(disk.log) + RecoverEvents(recovered)
      ensures StoreOnly(old(disk.fs), disk.fs)
      ensures r.Ok? ==> NonePending(disk.fs)
      ensures r.Ok? ==> AllResolved(old(disk.fs), disk.fs, disk.sha, disk.faults == old(disk.faults),
                                    old(disk.hazard) || disk.faults > old(disk.faults))
      ensures r.Ok? && disk.faults == old(disk.faults) ==> NothingToDo(disk.fs)
      ensures r.Ok? && disk.faults == old(disk.faults) && NothingToDo(old(disk.fs)) ==>
                disk.fs == old(disk.fs) && disk.moves == old(disk.moves) && recovered == [] && disk.log == old(disk.log)
      ensures r.Ok? && (old(disk.fs.pending) == {} || !NonePending(old(disk.fs))) ==> Settled(disk.fs)
    {
      hide Sound, Calm, Undisturbed, Narrows, MayBePending, Decision, RecordSeen, RecordsSynced, RecoverEvents, Settled, StoreOnly, AllResolved, NonePending;
      ghost var before, faults, hazard := disk.fs, disk.faults, disk.hazard;
      disk.Open();
      NoEvents();
      r, recovered := ResolveFound();
      if r.Err? {
        return;
      }
      ghost var resolved, clean := disk.fs, disk.faults == faults;
      ghost var temps := set l | l in resolved.view && Temporary(l);
      r := SweepStrays();
      StoreOnlyFrom(resolved, disk.fs, temps);
      StoreOnlyThen(before, resolved, disk.fs);
      ResolvedThenSwept(before, resolved, disk.fs, disk.g, disk.sha, temps, clean, disk.hazard || !clean,
                        disk.faults == faults, hazard || disk.faults > faults);
      if r.Ok? && (before.pending == {} || !NonePending(before)) {
        SyncedRecordsStay(resolved, disk.fs, disk.g, disk.sha, temps);
        SyncedIsSettled(disk.fs);
      }
      if r.Ok? {
        disk.Settle();
      }
    }

    // ---- The public methods: each logs what came of it.

    method Audit(e: Event) returns (r: Result<(), Error>)
      requires disk.Valid()
      modifies disk`log, disk`faults
      ensures disk.Valid()
      ensures disk.faults == old(disk.faults) + Once(r == Err(Io))
      ensures r.Ok? || r == Err(Io) || r == Err(Crash)
      ensures disk.log == if r.Ok? then old(disk.log) + [e] else old(disk.log)
    {
      var c := disk.AppendEvent(e);
      r := if c.Done? then Ok(()) else Err(ErrorOf(c));
    }

    method Quarantine(req: Request, id: Id, key: Bytes) returns (r: Result<Record, Error>)
      requires disk.Valid() && id !in disk.g.cores && |key| == KEY_LEN
      modifies disk`fs, disk`log, disk`hazard, disk`faults, disk`moves, disk`g
      ensures disk.Valid()
      ensures old(disk.hazard) ==> disk.hazard
      ensures disk.hazard ==> old(disk.hazard) || Doubtful(old(disk.fs), req.loc)
      ensures old(disk.faults) <= disk.faults && (r == Err(Io) ==> disk.faults > old(disk.faults))
      ensures disk.g.lineage == old(disk.g.lineage) && Extends(old(disk.g), disk.g)
      ensures old(disk.g.owed) <= disk.g.owed
      ensures r.Ok? ==> PromisedFrom(old(disk.fs), req.loc, disk.g, id)
      ensures InFolder(req.loc) ==> KeptOrGone(old(disk.fs), disk.fs, req.loc)
      ensures disk.g.cores.Keys <= old(disk.g.cores.Keys) + {id}
      ensures disk.faults == old(disk.faults) ==> Answered(r, QuarantineRefusal(old(disk.fs), disk.sha, req, id))
      ensures Undisturbed(old(disk.fs), disk.fs, NamesOf(id) + if InFolder(req.loc) then {req.loc} else {})
      ensures r.Ok? ==> QuarantineDone(old(disk.fs), disk.fs, disk.sha, req, id, key, r.value)
      ensures r.Ok? ==> disk.log == old(disk.log) + [Event("quarantine", Some(id), true)]
      ensures r.Err? && r.error != Crash && r.error != Io ==> disk.log == old(disk.log) + [Event("quarantine", None, false)]
      ensures disk.log == old(disk.log) || exists e :: disk.log == old(disk.log) + [e]
      ensures r.Ok? && NonePending(old(disk.fs)) ==> Settled(disk.fs)
      ensures r.Err? && r.error != Crash && disk.faults == old(disk.faults) ==>
                forall l :: l != DataTmpAt(id) ==> Get(disk.fs.view, l) == Get(old(disk.fs.view), l)
    {
      hide Sound, Calm, Settled, Undisturbed, CopySeen, RecordSeen, QuarantineDone, QuarantineRefusal, Doubtful, NonePending, Extends, PromisedFrom, KeptOrGone;
      r := QuarantineInner(req, id, key);
      if r.Ok? {
        var logged := Audit(Event("quarantine", Some(id), true));
        if logged.Ok? {
          return;
        }
        r := Err(logged.error);
      }
      if r.error != Crash {
        var logged := Audit(Event("quarantine", None, false));
        if logged.Err? {
          r := Err(logged.error);
        }
      }
    }

    method Restore(id: Id, dest: Option<string>, safe: bool) returns (r: Result<Loc, Error>)
      requires disk.Valid()
      modifies disk`fs, disk`log, disk`hazard, disk`faults, disk`moves, disk`g
      ensures disk.Valid()
      ensures old(disk.hazard) ==> disk.hazard
      ensures disk.hazard ==> old(disk.hazard) || MayBePending(old(disk.fs), id)
      ensures old(disk.faults) <= disk.faults && (r == Err(Io) ==> disk.faults > old(disk.faults))
      ensures disk.g.cores == old(disk.g.cores) && disk.g.owed == old(disk.g.owed) && Extends(old(disk.g), disk.g)
      ensures Undisturbed(old(disk.fs), disk.fs, RestoreNames(old(disk.fs), id, dest))
      ensures forall l :: InFolder(l) && l in old(disk.fs.view) ==> Get(disk.fs.view, l) == Get(old(disk.fs.view), l)
      ensures disk.faults == old(disk.faults) ==> Answered(r, RestoreRefusal(old(disk.fs), id, dest, safe))
      ensures RestoreRefusal(old(disk.fs), id, dest, safe) == Some(AlreadyThere) ==> disk.fs == old(disk.fs)
      ensures RecordSeen(old(disk.fs), id).Some? && RecordSeen(old(disk.fs), id).value.state == Quarantined && safe
              && disk.faults == old(disk.faults) && r != Err(Crash) ==>
                (r == Err(AlreadyThere) <==> RestoreTmpOf(RecordSeen(old(disk.fs), id).value, dest) in old(disk.fs.view))
      ensures r.Ok? ==> RestoreDone(old(disk.fs), disk.fs, id, dest, r.value)
      ensures r.Err? ==> r.error == Crash || r.error == Io || disk.log == old(disk.log) + [Event("restore", Some(id), false)]
      ensures r.Ok? ==> disk.log == old(disk.log) + [Event("restore", Some(id), true)]
      ensures disk.log == old(disk.log) || exists e :: disk.log == old(disk.log) + [e]
      ensures r.Ok? && NonePending(old(disk.fs)) ==> Settled(disk.fs)
    {
      hide Sound, Calm, Settled, Undisturbed, NonePending, RestoreDone, RestoreRefusal, Extends, MayBePending, RecordSeen;
      ghost var before := disk.fs;
      r := RestoreInner(id, dest, safe);
      RestoreSparesNames(before, disk.fs, id, dest);
      if r.Ok? || r.error != Crash {
        var logged := Audit(Event("restore", Some(id), r.Ok?));
        if logged.Err? {
          r := Err(logged.error);
        }
      }
    }

    method Delete(id: Id) returns (r: Result<(), Error>)
      requires disk.Valid()
      modifies disk`fs, disk`log, disk`hazard, disk`faults, disk`moves, disk`g
      ensures disk.Valid()
      ensures old(disk.hazard) ==> disk.hazard
      ensures disk.hazard ==> old(disk.hazard) || MayBePending(old(disk.fs), id)
      ensures old(disk.faults) <= disk.faults && (r == Err(Io) ==> disk.faults > old(disk.faults))
      ensures disk.g == old(disk.g).(owed := disk.g.owed) && disk.g.owed <= old(disk.g.owed)
      ensures forall o :: o in old(disk.g.owed) && o !in disk.g.owed ==>
                StateSeen(old(disk.fs), id) == Some(Quarantined)
                && id in old(disk.g.cores) && Get(old(disk.g.source), id) == Some(o)
      ensures Undisturbed(old(disk.fs), disk.fs, NamesOf(id))
      ensures disk.faults == old(disk.faults) ==> Answered(r, DeleteRefusal(old(disk.fs), id))
      ensures r.Ok? ==> DataAt(id) !in disk.fs.view && StateSeen(disk.fs, id) == Some(Deleted)
      ensures r.Err? ==> r.error == Crash || r.error == Io || disk.log == old(disk.log) + [Event("delete", Some(id), false)]
      ensures r.Ok? ==> disk.log == old(disk.log) + [Event("delete", Some(id), true)]
      ensures disk.log == old(disk.log) || exists e :: disk.log == old(disk.log) + [e]
      ensures r.Ok? && NonePending(old(disk.fs)) ==> Settled(disk.fs)
    {
      hide Sound, Calm, Settled, Undisturbed, NonePending, MayBePending;
      r := DeleteInner(id);
      if r.Ok? || r.error != Crash {
        var logged := Audit(Event("delete", Some(id), r.Ok?));
        if logged.Err? {
          r := Err(logged.error);
        }
      }
    }
  }
}
