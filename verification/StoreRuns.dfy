/** Whole lives of a quarantine store: what holds over any sequence of opens,
    operations, crashes and power losses, and exactly when a promise fails. */
module StoreRuns {
  import opened Wrappers
  import opened FileSystem
  import opened Cipher
  import opened Journal
  import opened JournalSteps
  import opened StoreCalls
  import opened StoreFacts
  import opened QuarantineStore

  datatype Command =
    | Open
    | DoQuarantine(req: Request, id: Id, key: Bytes)
    | DoRestore(id: Id, dest: Option<string>, safe: bool)
    | DoDelete(id: Id)
    | PowerCut(keep: Loc -> Option<Update>, garbage: Ino -> File)

  /** Item IDs and keys are random: no ID is drawn twice. */
  ghost predicate FreshIds(g: Ledger, commands: seq<Command>) {
    && (forall k :: 0 <= k < |commands| && commands[k].DoQuarantine? ==>
          commands[k].id !in g.cores && |commands[k].key| == KEY_LEN)
    && (forall j, k :: 0 <= j < k < |commands| && commands[j].DoQuarantine? && commands[k].DoQuarantine? ==>
          commands[j].id != commands[k].id)
  }

  /** Temporaries of restores that are there for good stay. */
  ghost predicate LeftoversStay(before: Fs, after: Fs) {
    forall l: Loc, i :: l.dir.Folder? && l.name.RestoreTmp? && Stable(before, l, i) ==> Stable(after, l, i)
  }

  /** Any sequence of opens, operations and power cuts. Any of them may be cut
      short by the process dying between two calls, and any call may fail; the
      run may stop anywhere. No file that is promised is ever lost, its bytes
      included: those are the files promised at the start and the files of the
      items in `taken`, which a quarantine or a recovery answered to be
      quarantined, whether they were on disk or not. Every record only moves
      along its lifecycle; an item is given up only after a call failed since the
      last open, or an operation was begun on what was not certain on disk and
      the store was not settled since. All this if no file gets a number another
      one had. */
  method Lifetime(disk: Disk, commands: seq<Command>) returns (taken: set<Id>)
    requires disk.Valid() && FreshIds(disk.g, commands)
    requires NeverReused(disk.number)
    modifies disk
    ensures disk.Valid()
    ensures NoLoss(disk.fs, disk.g)
    ensures Extends(old(disk.g), disk.g) && FilesKept(old(disk.fs), disk.fs)
    ensures forall o :: o in old(disk.g.owed) ==> o in disk.g.owed || Given(disk.g, commands, o)
    ensures forall id :: id in taken ==> id in disk.g.source && (Promised(disk.g, id) || Given(disk.g, commands, disk.g.source[id]))
    ensures forall m :: m in disk.moves ==> Lifecycle(m.from, m.to) && (m.to == ItemState.Failed ==> m.excused)
    ensures LeftoversStay(old(disk.fs), disk.fs)
  {
    hide Sound, Calm, Settled, AllResolved, QuarantineDone, RestoreDone, NothingToDo, Undisturbed, Lifecycle, Lose, PowerLoss, Extends;
    hide FilesKept, LeftoversStay, StoreOnly, MayBePending, RestoreRefusal, QuarantineRefusal, NonePending, RecoverEvents, Doubtful, RecordSeen;
    hide KeptPromised, PromisedFrom, KeptOrGone, Given;
    var store := new Store(disk);
    var open := false;
    taken := {};
    ghost var start, first, wanted := disk.fs, disk.g, disk.g.owed;
    LivesOn(start, disk.g, disk.sha);
    ExtendsSelf(first);
    for n := 0 to |commands|
      modifies disk
      invariant disk.Valid() && disk.g.owed <= wanted && first.owed <= wanted
      invariant FilesKept(start, disk.fs) && LeftoversStay(start, disk.fs) && Extends(first, disk.g)
      invariant disk.g.cores.Keys <= first.cores.Keys + set k | 0 <= k < n && commands[k].DoQuarantine? :: commands[k].id
      invariant forall o :: o in wanted ==> o in disk.g.owed || Given(disk.g, commands[..n], o)
      invariant forall id :: id in taken ==> id in disk.g.source && disk.g.source[id] in wanted
    {
      ghost var before, prior := disk.g, disk.fs;
      LivesOn(prior, disk.g, disk.sha);
      var now := {};
      match commands[n] {
      case Open =>
        var r, recovered := store.Recover();
        open := r.Ok?;
        now := if r.Ok? then KeptBy(recovered) else {};
        OpenLives(prior, disk.fs);
        OnlyPromisesExtends(before, disk.g);
        if r.Ok? {
          KeptByPromised(disk.g, recovered);
        }
      case DoQuarantine(req, id, key) =>
        if open {
          var r := store.Quarantine(req, id, key);
          open := r != Err(Crash);
          now := if r.Ok? then {id} else {};
          QuarantineLives(prior, disk.fs, req, id);
          if r.Ok? {
            PromisedFromHolds(prior, req.loc, disk.g, id);
          }
        }
      case DoRestore(id, dest, safe) =>
        if open {
          var r := store.Restore(id, dest, safe);
          open := r != Err(Crash);
          RestoreLives(prior, disk.fs, before, disk.sha, id, dest);
        }
      case DoDelete(id) =>
        if open {
          var r := store.Delete(id);
          open := r != Err(Crash);
          DeleteLives(prior, disk.fs, id);
          ExtendsSelf(before);
          ExtendsOwed(before, before, disk.g.owed);
        }
      case PowerCut(keep, garbage) =>
        disk.LosePower(keep, garbage);
        open := false;
        PowerLossLives(prior, disk.fs);
      }
      LivesThen(start, prior, disk.fs);
      GivenStill(before, disk.g, commands, n, wanted);
      ExtendsThen(first, before, disk.g, taken);
      wanted := wanted + disk.g.owed;
      taken := taken + now;
    }
    assert commands[..|commands|] == commands;
    SoundMeansNoLoss(disk.fs, disk.g, disk.sha);
  }

  /** The items recovery answered to be quarantined. */
  function KeptBy(recovered: seq<(Id, ItemState)>): (ids: set<Id>) {
    set k | 0 <= k < |recovered| && recovered[k].1 == Quarantined :: recovered[k].0
  }

  lemma KeptByPromised(g: Ledger, recovered: seq<(Id, ItemState)>)
    requires KeptPromised(g, recovered)
    ensures forall id :: id in KeptBy(recovered) ==> Promised(g, id)
  {
  }

  lemma PromisedFromHolds(before: Fs, l: Loc, g: Ledger, id: Id)
    requires PromisedFrom(before, l, g, id)
    ensures Promised(g, id)
  {
  }

  lemma OnlyPromisesExtends(g: Ledger, g': Ledger)
    requires OnlyPromises(g, g')
    ensures Extends(g, g')
  {
  }

  lemma ExtendsThen(a: Ledger, b: Ledger, c: Ledger, ids: set<Id>)
    requires Extends(a, b) && Extends(b, c)
    requires forall id :: id in ids ==> id in b.source
    ensures Extends(a, c)
    ensures forall id :: id in ids ==> id in c.source && c.source[id] == b.source[id]
  {
  }

  // ---- What each command leaves alone.

  lemma LivesOn(fs: Fs, g: Ledger, sha: Bytes -> Digest)
    requires Sound(fs, g, sha)
    ensures FilesKept(fs, fs) && LeftoversStay(fs, fs) && WellFormed(fs)
  {
  }

  lemma LivesThen(a: Fs, b: Fs, c: Fs)
    requires FilesKept(a, b) && FilesKept(b, c) && LeftoversStay(a, b) && LeftoversStay(b, c)
    ensures FilesKept(a, c) && LeftoversStay(a, c)
  {
  }

  lemma OpenLives(before: Fs, after: Fs)
    requires StoreOnly(before, after)
    ensures FilesKept(before, after) && LeftoversStay(before, after)
  {
  }

  lemma QuarantineLives(before: Fs, after: Fs, req: Request, id: Id)
    requires Undisturbed(before, after, NamesOf(id) + if InFolder(req.loc) then {req.loc} else {})
    ensures FilesKept(before, after) && LeftoversStay(before, after)
  {
  }

  lemma RestoreLives(before: Fs, after: Fs, g: Ledger, sha: Bytes -> Digest, id: Id, dest: Option<string>)
    requires Sound(before, g, sha) && Undisturbed(before, after, RestoreNames(before, id, dest))
    ensures FilesKept(before, after) && LeftoversStay(before, after)
  {
    forall l: Loc, i | l.dir.Folder? && l.name.RestoreTmp? && Stable(before, l, i)
      ensures Stable(after, l, i)
    {
      assert MayHold(before, l, Get(before.view, l));
      assert l !in RestoreNames(before, id, dest);
    }
  }

  lemma DeleteLives(before: Fs, after: Fs, id: Id)
    requires Undisturbed(before, after, NamesOf(id))
    ensures FilesKept(before, after) && LeftoversStay(before, after)
  {
  }

  lemma PowerLossLives(before: Fs, after: Fs)
    requires WellFormed(before) && PowerLoss(before, after)
    ensures FilesKept(before, after) && LeftoversStay(before, after)
  {
    PowerLossHolds(before, after);
  }

  /** One of `commands` deletes an item of original `o`. */
  ghost predicate Given(g: Ledger, commands: seq<Command>, o: Original) {
    exists k :: 0 <= k < |commands| && commands[k].DoDelete? && Get(g.source, commands[k].id) == Some(o)
  }

  lemma GivenStill(before: Ledger, after: Ledger, commands: seq<Command>, n: nat, wanted: set<Original>)
    requires n < |commands| && Extends(before, after)
    requires forall o :: o in wanted ==> o in before.owed || Given(before, commands[..n], o)
    requires forall o :: o in before.owed && o !in after.owed ==>
               commands[n].DoDelete? && Get(after.source, commands[n].id) == Some(o)
    ensures forall o :: o in wanted ==> o in after.owed || Given(after, commands[..n + 1], o)
  {
    forall o | o in wanted && o !in after.owed
      ensures Given(after, commands[..n + 1], o)
    {
      if o in before.owed {
        assert commands[..n + 1][n] == commands[n];
      } else {
        var k :| 0 <= k < |commands[..n]| && commands[..n][k].DoDelete? && Get(before.source, commands[..n][k].id) == Some(o);
        assert commands[..n + 1][k] == commands[..n][k];
      }
    }
  }

  // ---- Where a run may begin.

  /** The ledger of an empty store: every file on disk is an original, and those
      whose name is on disk too are promised. */
  ghost function FreshLedger(fs: Fs): (g: Ledger) {
    Ledger(map i | i in SyncedFiles(fs) :: Durable(i) := BytesOf(fs, i),
           map i | i in SyncedFiles(fs) :: Durable(i),
           set i | i in SyncedFiles(fs) && (exists l :: Stable(fs, l, i)) :: Durable(i),
           map[], map[])
  }

  function SyncedFiles(fs: Fs): (synced: set<Ino>) {
    set i | i in fs.files && fs.files[i].synced
  }

  /** An empty store beside any files of a user, on disk or not. */
  lemma FreshStoreIsSound(fs: Fs, sha: Bytes -> Digest)
    requires WellFormed(fs)
    requires forall l, i :: MayHold(fs, l, Some(i)) ==> InFolder(l)
    requires forall i :: i in fs.files ==> fs.files[i].content.Raw?
    ensures Sound(fs, FreshLedger(fs), sha) && Settled(fs) && Calm(fs, FreshLedger(fs))
    ensures forall l, i :: Stable(fs, l, i) && i in fs.files && fs.files[i].synced ==>
              Durable(i) in FreshLedger(fs).owed && Get(FreshLedger(fs).plain, Durable(i)) == Some(BytesOf(fs, i))
  {
    var g := FreshLedger(fs);
    assert LineageOk(fs, g);
    forall o | o in g.owed
      ensures Safe(fs, g, o)
    {
      var i :| i in SyncedFiles(fs) && (exists l :: Stable(fs, l, i)) && o == Durable(i);
      var l :| Stable(fs, l, i);
      assert MayHold(fs, l, Get(fs.disk, l));
      assert FolderCopy(fs, g, o, l);
    }
    forall id, j
      ensures !MayHold(fs, RecordAt(id), Some(j)) && !MayHold(fs, DataAt(id), Some(j))
    {
      assert !InFolder(RecordAt(id)) && !InFolder(DataAt(id));
    }
  }

  // ---- When recovery has nothing to decide by.

  /** A power loss now can leave item `id` pending with neither its original
      nor its copy to be found. */
  ghost predicate CanBeGivenUp(fs: Fs, sha: Bytes -> Digest, id: Id) {
    exists after :: PowerLoss(fs, after) && StateSeen(after, id) == Some(Pending)
                    && Decision(after, sha, RecordSeen(after, id).value) == ItemState.Failed
  }

  /** `fs` after a power loss in which the names in `chosen` keep what it says,
      every other keeps what is on disk, and files not on disk hold `garbage`. */
  function LosingTo(fs: Fs, chosen: map<Loc, Option<Ino>>, garbage: Bytes): (after: Fs) {
    var keep: Loc -> Option<Update> := l => if l in chosen then Some(Update(l, chosen[l])) else None;
    Lose(fs, keep, i => File(Raw(garbage), true))
  }

  lemma LosingToHolds(fs: Fs, chosen: map<Loc, Option<Ino>>, garbage: Bytes)
    requires forall l :: l in chosen ==> MayHold(fs, l, chosen[l])
    ensures forall i :: i in fs.files && !fs.files[i].synced ==>
              i in LosingTo(fs, chosen, garbage).files && LosingTo(fs, chosen, garbage).files[i].content == Raw(garbage)
    ensures PowerLoss(fs, LosingTo(fs, chosen, garbage))
    ensures forall l :: l in chosen ==> Get(LosingTo(fs, chosen, garbage).view, l) == chosen[l]
    ensures forall i :: i in fs.files && fs.files[i].synced ==>
              i in LosingTo(fs, chosen, garbage).files && LosingTo(fs, chosen, garbage).files[i] == fs.files[i]
  {
    var keep: Loc -> Option<Update> := l => if l in chosen then Some(Update(l, chosen[l])) else None;
    LoseIsPowerLoss(fs, keep, i => File(Raw(garbage), true));
    forall l | l in chosen
      ensures Get(LosingTo(fs, chosen, garbage).view, l) == chosen[l]
    {
      assert Kept(fs, l, keep) == chosen[l];
      if chosen[l].Some? && l !in fs.disk {
        assert Update(l, chosen[l]) in fs.pending;
      }
    }
  }

  /** That happens exactly when the name of the original may come to refer to
      something else while the name of the copy may come to refer to nothing. */
  lemma GivenUpExactlyWhen(fs: Fs, g: Ledger, sha: Bytes -> Digest, id: Id)
    requires Sound(fs, g, sha) && MayBePending(fs, id)
    ensures id in g.cores
    ensures CanBeGivenUp(fs, sha, id)
       <==> !Stable(fs, g.cores[id].origin, g.cores[id].ino) && MayHold(fs, DataAt(id), None)
  {
    hide Decision, PowerLoss, Stable;
    var j :| MayHold(fs, RecordAt(id), Some(j)) && j in fs.files && fs.files[j].content.Json?
             && fs.files[j].content.rec.state == Pending;
    assert IsRecord(fs, g, id, j);
    var c := g.cores[id];
    if after :| PowerLoss(fs, after) && StateSeen(after, id) == Some(Pending)
                && Decision(after, sha, RecordSeen(after, id).value) == ItemState.Failed {
      GivenUpMeans(fs, after, g, sha, id);
    }
    if !Stable(fs, c.origin, c.ino) && MayHold(fs, DataAt(id), None) {
      GivenUpAfter(fs, g, sha, id, j);
    }
  }

  lemma GivenUpMeans(fs: Fs, after: Fs, g: Ledger, sha: Bytes -> Digest, id: Id)
    requires Sound(fs, g, sha) && PowerLoss(fs, after) && StateSeen(after, id) == Some(Pending)
    requires Decision(after, sha, RecordSeen(after, id).value) == ItemState.Failed
    ensures id in g.cores
    ensures !Stable(fs, g.cores[id].origin, g.cores[id].ino) && MayHold(fs, DataAt(id), None)
  {
    hide Sound;
    CrashKeepsSound(fs, after, g, sha);
    PowerLossHolds(fs, after) by {
      SoundIsWellFormed(fs, g, sha);
    }
    var rec := RecordSeen(after, id).value;
    SeenAt(after, g, sha, id);
    var c := g.cores[id];
    assert MayHold(after, c.origin, Get(after.view, c.origin));
    assert MayHold(after, DataAt(id), Get(after.view, DataAt(id)));
    if DataAt(id) in after.view {
      CommittedSeen(after, g, sha, id);
      SeenIsKnown(after, g, sha, rec);
    }
  }

  lemma SeenAt(fs: Fs, g: Ledger, sha: Bytes -> Digest, id: Id)
    requires Sound(fs, g, sha) && RecordSeen(fs, id).Some?
    ensures id in g.cores && RecordSeen(fs, id).value.core == g.cores[id] && g.cores[id].id == id
  {
    assert MayHold(fs, RecordAt(id), Get(fs.view, RecordAt(id)));
    assert IsRecord(fs, g, id, fs.view[RecordAt(id)]);
  }

  lemma GivenUpAfter(fs: Fs, g: Ledger, sha: Bytes -> Digest, id: Id, j: Ino)
    requires Sound(fs, g, sha) && id in g.cores && IsRecord(fs, g, id, j)
    requires MayHold(fs, RecordAt(id), Some(j)) && fs.files[j].content.rec.state == Pending
    requires !Stable(fs, g.cores[id].origin, g.cores[id].ino) && MayHold(fs, DataAt(id), None)
    ensures CanBeGivenUp(fs, sha, id)
  {
    hide PowerLoss, Lose;
    var c := g.cores[id];
    var v :| MayHold(fs, c.origin, v) && v != Some(c.ino);
    assert InFolder(c.origin) && c.id == id;
    var chosen := map[RecordAt(id) := Some(j), c.origin := v, DataAt(id) := None];
    var after := LosingTo(fs, chosen, []);
    LosingToHolds(fs, chosen, []);
    assert Get(after.view, RecordAt(id)) == chosen[RecordAt(id)];
    assert Get(after.view, c.origin) == chosen[c.origin];
    assert Get(after.view, DataAt(id)) == chosen[DataAt(id)];
    assert RecordSeen(after, id) == Some(fs.files[j].content.rec);
  }

  // ---- Originals that are not on disk.

  /** A power loss now can leave item `id` pending with a good copy and with its
      file under its name but other bytes in it: recovery then discards the copy. */
  ghost predicate CanBeDiscarded(fs: Fs, g: Ledger, sha: Bytes -> Digest, id: Id) {
    exists after :: PowerLoss(fs, after) && Discards(after, g, sha, id)
  }

  ghost predicate Discards(fs: Fs, g: Ledger, sha: Bytes -> Digest, id: Id) {
    && StateSeen(fs, id) == Some(Pending)
    && (var rec := RecordSeen(fs, id).value;
        && CopySeen(fs, id, rec.core.key) == Some(ItemBytes(g, id))
        && Decision(fs, sha, rec) == RolledBack
        && BytesOf(fs, rec.core.ino) != ItemBytes(g, id))
  }

  ghost predicate MayHaveCopy(fs: Fs, id: Id) {
    exists k :: MayHold(fs, DataAt(id), Some(k))
  }

  /** The bytes of the item's file are on disk. */
  ghost predicate BytesOnDisk(fs: Fs, g: Ledger, id: Id) {
    id in g.cores && g.cores[id].ino in fs.files && fs.files[g.cores[id].ino].synced && BytesOf(fs, g.cores[id].ino) == ItemBytes(g, id)
  }

  /** That happens exactly when the item may be found pending, its copy in place
      and its file under its name, and the bytes of the file are not on disk. */
  lemma DiscardedExactlyWhen(fs: Fs, g: Ledger, sha: Bytes -> Digest, id: Id)
    requires Sound(fs, g, sha) && id in g.cores
    ensures CanBeDiscarded(fs, g, sha, id)
       <==> MayBePending(fs, id) && MayHaveCopy(fs, id) && MayHold(fs, g.cores[id].origin, Some(g.cores[id].ino))
            && !BytesOnDisk(fs, g, id)
  {
    hide Discards, PowerLoss, BytesOnDisk;
    if after :| PowerLoss(fs, after) && Discards(after, g, sha, id) {
      DiscardedMeans(fs, after, g, sha, id);
    }
    if MayBePending(fs, id) && MayHaveCopy(fs, id) && MayHold(fs, g.cores[id].origin, Some(g.cores[id].ino))
       && !BytesOnDisk(fs, g, id) {
      var j :| MayHold(fs, RecordAt(id), Some(j)) && j in fs.files && fs.files[j].content.Json?
               && fs.files[j].content.rec.state == Pending;
      var k :| MayHold(fs, DataAt(id), Some(k));
      assert IsRecord(fs, g, id, j) && IsCopy(fs, g, id, k);
      DiscardedAfter(fs, g, sha, id, j, k);
    }
  }

  lemma DiscardedMeans(fs: Fs, after: Fs, g: Ledger, sha: Bytes -> Digest, id: Id)
    requires Sound(fs, g, sha) && id in g.cores && PowerLoss(fs, after) && Discards(after, g, sha, id)
    ensures MayBePending(fs, id) && MayHaveCopy(fs, id) && MayHold(fs, g.cores[id].origin, Some(g.cores[id].ino))
    ensures !BytesOnDisk(fs, g, id)
  {
    hide Sound;
    CrashKeepsSound(fs, after, g, sha);
    SoundIsWellFormed(fs, g, sha);
    PowerLossHolds(fs, after);
    SeenAt(after, g, sha, id);
    var c := g.cores[id];
    assert MayHold(after, c.origin, Get(after.view, c.origin));
    assert MayHold(after, DataAt(id), Get(after.view, DataAt(id)));
    PendingBefore(fs, after, g, sha, id);
  }

  lemma PendingBefore(fs: Fs, after: Fs, g: Ledger, sha: Bytes -> Digest, id: Id)
    requires Sound(fs, g, sha) && PowerLoss(fs, after) && StateSeen(after, id) == Some(Pending)
    ensures MayBePending(fs, id)
  {
    var j := after.view[RecordAt(id)];
    PowerLossHolds(fs, after);
    assert MayHold(after, RecordAt(id), Some(j));
    assert IsRecord(fs, g, id, j);
  }

  lemma DiscardedAfter(fs: Fs, g: Ledger, sha: Bytes -> Digest, id: Id, j: Ino, k: Ino)
    requires id in g.cores && g.cores[id].id == id && InFolder(g.cores[id].origin) && g.cores[id].ino in fs.files
    requires IsRecord(fs, g, id, j) && MayHold(fs, RecordAt(id), Some(j)) && fs.files[j].content.rec.state == Pending
    requires IsCopy(fs, g, id, k) && MayHold(fs, DataAt(id), Some(k))
    requires MayHold(fs, g.cores[id].origin, Some(g.cores[id].ino)) && !BytesOnDisk(fs, g, id)
    ensures CanBeDiscarded(fs, g, sha, id)
  {
    hide PowerLoss, Lose, Encoded, Decoded;
    var c := g.cores[id];
    var garbage := if ItemBytes(g, id) == [] then [0] else [];
    var chosen := map[RecordAt(id) := Some(j), c.origin := Some(c.ino), DataAt(id) := Some(k)];
    var after := LosingTo(fs, chosen, garbage);
    LosingToHolds(fs, chosen, garbage);
    assert Get(after.view, RecordAt(id)) == chosen[RecordAt(id)];
    assert Get(after.view, c.origin) == chosen[c.origin];
    assert Get(after.view, DataAt(id)) == chosen[DataAt(id)];
    assert RecordSeen(after, id) == Some(fs.files[j].content.rec);
    DecodedUndoesEncoded(c.key, ItemBytes(g, id));
    assert Discards(after, g, sha, id);
  }

  /** So a file that was on disk is never lost in this way, and no file is once
      its copy cannot be at risk. */
  lemma DiscardedIsAtRisk(fs: Fs, g: Ledger, sha: Bytes -> Digest, id: Id)
    requires Sound(fs, g, sha) && id in g.cores && CanBeDiscarded(fs, g, sha, id)
    ensures g.cores[id].ino !in g.lineage && AtRisk(fs, g, id)
  {
    DiscardedExactlyWhen(fs, g, sha, id);
  }

  // ---- Numbers used again.

  /** What recovery answers, knowing files by their numbers. */
  function DecisionByNumber(fs: Fs, sha: Bytes -> Digest, number: Ino -> nat, rec: Record): (d: ItemState) {
    if rec.core.origin in fs.view && number(fs.view[rec.core.origin]) == number(rec.core.ino) then RolledBack
    else if CopySeen(fs, rec.core.id, rec.core.key).Some?
            && sha(CopySeen(fs, rec.core.id, rec.core.key).value) == rec.core.sha256 then Quarantined
    else ItemState.Failed
  }

  /** It is the right answer exactly when no other file with the original's number
      is under the original's name. */
  lemma ByNumberRight(fs: Fs, sha: Bytes -> Digest, number: Ino -> nat, rec: Record)
    ensures DecisionByNumber(fs, sha, number, rec) == Decision(fs, sha, rec)
       <==> (rec.core.origin in fs.view && number(fs.view[rec.core.origin]) == number(rec.core.ino)
             ==> fs.view[rec.core.origin] == rec.core.ino)
  {
  }

  /** So it is the right answer for every record and every filesystem exactly when
      no number is used again. */
  lemma ByNumberExactlyWhen(sha: Bytes -> Digest, number: Ino -> nat)
    ensures (forall fs, rec :: DecisionByNumber(fs, sha, number, rec) == Decision(fs, sha, rec)) <==> NeverReused(number)
  {
    if NeverReused(number) {
      forall fs, rec
        ensures DecisionByNumber(fs, sha, number, rec) == Decision(fs, sha, rec)
      {
        ByNumberRight(fs, sha, number, rec);
      }
    } else {
      var i, j :| number(i) == number(j) && i != j;
      var l := At(Folder("home"), Plain("a"));
      var fs := Fs(map[l := j], map[l := j], {}, map[j := File(Raw([]), true)]);
      var rec := Record(Core("a", l, i, 1, sha([]), []), Pending, None);
      ByNumberRight(fs, sha, number, rec);
      assert DecisionByNumber(fs, sha, number, rec) != Decision(fs, sha, rec);
    }
  }

  // ---- Opening again.

  /** After an open in which no call failed, opening once more changes no record,
      no file and no line of the log, and resolves nothing. */
  method OpenTwice(store: Store) returns (r: Result<(), Error>, recovered: seq<(Id, ItemState)>, ghost between: Fs)
    requires store.disk.Valid()
    modifies store.disk
    ensures store.disk.Valid()
    ensures r.Ok? && store.disk.faults == old(store.disk.faults) ==>
              AllResolved(old(store.disk.fs), between, store.disk.sha, true, old(store.disk.hazard))
    ensures r.Ok? && store.disk.faults == old(store.disk.faults) ==>
              store.disk.fs == between && recovered == [] && NothingToDo(store.disk.fs)
  {
    hide Sound, Calm, Settled, AllResolved, NothingToDo, StoreOnly, RecoverEvents, NonePending;
    r, recovered := store.Recover();
    between := store.disk.fs;
    if r.Ok? {
      r, recovered := store.Recover();
    }
  }

  // ---- A restore that dies.

  /** A restore that dies after making its temporary is refused from then on. */
  lemma DyingRestoreBlocks(fs: Fs, g: Ledger, sha: Bytes -> Digest, id: Id, dest: Option<string>, i: Ino)
    requires Sound(fs, g, sha) && RestoreRefusal(fs, id, dest, true) == None && i !in fs.files
    ensures var tmp := RestoreTmpOf(RecordSeen(fs, id).value, dest);
            var after := LinkName(WriteFile(fs, i, Raw([])), tmp, i);
            && Sound(after, g, sha) && RestoreRefusal(after, id, dest, true) == Some(AlreadyThere)
            && (tmp.dir.Folder? ==> Stable(SyncNames(after, tmp.dir), tmp, i))
  {
    var rec := RecordSeen(fs, id).value;
    var tmp := RestoreTmpOf(rec, dest);
    var after := LinkName(WriteFile(fs, i, Raw([])), tmp, i);
    CreateTemporary(fs, g, sha, tmp, i);
    LinkUndisturbed(fs, tmp, i);
    UndisturbedSeen(fs, after, g, sha, {tmp}, id);
    SoundIsWellFormed(after, g, sha);
    SyncNamesHolds(after, tmp.dir);
  }

  /** However often the store is opened again. */
  method RestoreStillRefused(store: Store, opens: nat, id: Id, dest: Option<string>) returns (r: Result<Loc, Error>)
    requires store.disk.Valid() && RestoreRefusal(store.disk.fs, id, dest, true) == Some(AlreadyThere)
    requires RestoreTmpOf(RecordSeen(store.disk.fs, id).value, dest).dir.Folder?
    modifies store.disk
    ensures store.disk.Valid() && r.Err?
    ensures r == Err(AlreadyThere) || r == Err(Crash) || store.disk.faults > old(store.disk.faults)
    ensures RestoreTmpOf(RecordSeen(old(store.disk.fs), id).value, dest) in store.disk.fs.view
  {
    hide Sound, Calm, Settled, StoreOnly, Undisturbed, NonePending, RecoverEvents, NothingToDo, AllResolved, Extends, MayBePending;
    ghost var start := store.disk.fs;
    ghost var tmp := RestoreTmpOf(RecordSeen(start, id).value, dest);
    StoreOnlySelf(start);
    for n := 0 to opens
      invariant store.disk.Valid() && store.disk.faults >= old(store.disk.faults)
      invariant StoreOnly(start, store.disk.fs) && RecordSeen(store.disk.fs, id) == RecordSeen(start, id)
    {
      ghost var prior := store.disk.fs;
      var o, _ := store.Recover();
      StoreOnlyThen(start, prior, store.disk.fs);
      if o.Err? {
        StoreOnlyName(start, store.disk.fs, tmp);
        return Err(o.error);
      }
      ResolvedRecord(prior, store.disk.fs, store.disk.sha, id);
    }
    StoreOnlyName(start, store.disk.fs, tmp);
    r := store.Restore(id, dest, true);
  }

  lemma StoreOnlySelf(fs: Fs)
    ensures StoreOnly(fs, fs)
  {
  }

  lemma StoreOnlyName(a: Fs, b: Fs, l: Loc)
    requires StoreOnly(a, b) && l.dir.Folder?
    ensures l in a.view ==> l in b.view
  {
    assert Get(b.view, l) == Get(a.view, l);
  }

  lemma ResolvedRecord(before: Fs, after: Fs, sha: Bytes -> Digest, id: Id)
    requires StateSeen(before, id) == Some(Quarantined)
    requires exists clean, blame :: AllResolved(before, after, sha, clean, blame)
    ensures RecordSeen(after, id) == RecordSeen(before, id)
  {
    var clean, blame :| AllResolved(before, after, sha, clean, blame);
    assert ResolvedFrom(before, after, sha, id, clean, blame);
  }

  // ---- There and back.

  /** Quarantining a file and restoring it gives the same bytes under the same
      name; and if nothing forbids the quarantine and the restore's temporary has
      its name free, then it does succeed unless a call fails or the process dies. */
  method QuarantineThenRestore(store: Store, req: Request, id: Id, key: Bytes)
    returns (r: Result<Loc, Error>)
    requires store.disk.Valid() && id !in store.disk.g.cores && |key| == KEY_LEN
    modifies store.disk
    ensures store.disk.Valid()
    ensures r.Ok? ==>
      && r.value == req.loc && req.loc in old(store.disk.fs.view) && req.loc in store.disk.fs.view
      && BytesOf(store.disk.fs, store.disk.fs.view[req.loc]) == BytesOf(old(store.disk.fs), old(store.disk.fs.view[req.loc]))
    ensures QuarantineRefusal(old(store.disk.fs), store.disk.sha, req, id) == None
            && At(req.loc.dir, RestoreTmp(id)) !in old(store.disk.fs.view) ==>
              r.Ok? || r == Err(Crash) || store.disk.faults > old(store.disk.faults)
  {
    hide Sound, Calm, Settled, Undisturbed, CopySeen, QuarantineRefusal, NonePending, Extends, MayBePending, Doubtful;
    ghost var before := store.disk.fs;
    var quarantined := store.Quarantine(req, id, key);
    if quarantined.Err? {
      return Err(quarantined.error);
    }
    ghost var mid := store.disk.fs;
    RefusesOutside(before, store.disk.sha, req, id);
    QuarantinedBytes(before, mid, store.disk.g, store.disk.sha, req, id, key, quarantined.value);
    r := store.Restore(id, None, true);
  }

  lemma RefusesOutside(fs: Fs, sha: Bytes -> Digest, req: Request, id: Id)
    ensures QuarantineRefusal(fs, sha, req, id) == None ==> InFolder(req.loc)
  {
  }

  lemma QuarantinedBytes(before: Fs, mid: Fs, g: Ledger, sha: Bytes -> Digest, req: Request, id: Id, key: Bytes, rec: Record)
    requires Sound(mid, g, sha) && QuarantineDone(before, mid, sha, req, id, key, rec)
    requires Undisturbed(before, mid, NamesOf(id) + if InFolder(req.loc) then {req.loc} else {})
    ensures InFolder(req.loc) && At(req.loc.dir, RestoreTmp(id)) !in before.view ==> RestoreRefusal(mid, id, None, true) == None
  {
    SeenAt(mid, g, sha, id);
    assert DataAt(id) in mid.view;
    CommittedSeen(mid, g, sha, id);
    if InFolder(req.loc) {
      assert Get(mid.view, At(req.loc.dir, RestoreTmp(id))) == Get(before.view, At(req.loc.dir, RestoreTmp(id)));
    }
  }
}
