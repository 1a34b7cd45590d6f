/** Concrete runs of the store: what a restore that dies leaves behind, how an item
    comes to be given up although no call failed, and how the copy of a file that
    was never on disk comes to be discarded. */
module StoreWitness {
  import opened Wrappers
  import opened FileSystem
  import opened Cipher
  import opened Journal
  import opened JournalSteps
  import opened StoreCalls
  import opened StoreFacts
  import opened StoreRuns
  import opened CallRuns

  // ---- The states of the runs.

  function Name(): Loc { At(Folder("home"), Plain("f")) }
  function Tmp(): Loc { At(Folder("home"), RestoreTmp("a")) }
  function Key(): (key: Bytes)
    ensures |key| == KEY_LEN
  {
    seq(KEY_LEN, _ => 0)
  }

  function Rec(sha: Bytes -> Digest, id: Id, i: Ino, state: ItemState): Record {
    Record(Core(id, Name(), i, 1, sha([1]), Key()), state, None)
  }

  function Copy(): File { File(Raw(Encoded(Key(), [1])), true) }

  /** A file under a user's name, on disk or not, and an empty store. */
  function Begun(synced: bool): (fs: Fs) {
    Still(map[Name() := 1], map[1 := File(Raw([1]), synced)])
  }

  /** Its copy and the pending record are on disk. */
  function CommittedA(sha: Bytes -> Digest, synced: bool): (fs: Fs) {
    Still(map[Name() := 1, DataAt("a") := 2, RecordAt("a") := 3],
          map[1 := File(Raw([1]), synced), 2 := Copy(), 3 := File(Json(Rec(sha, "a", 1, Pending)), true)])
  }

  /** The file is quarantined. */
  function QuarantinedA(sha: Bytes -> Digest): (fs: Fs) {
    Still(map[DataAt("a") := 2, RecordAt("a") := 4],
          map[1 := File(Raw([1]), true), 2 := Copy(), 3 := File(Json(Rec(sha, "a", 1, Pending)), true),
              4 := File(Json(Rec(sha, "a", 1, Quarantined)), true)])
  }

  /** It is under its name again, which is not on disk. */
  function RestoredA(sha: Bytes -> Digest): (fs: Fs) {
    Published(QuarantinedA(sha), Tmp(), Name(), [1], 5)
  }

  // ---- From one to the next.

  function FirstCalls(sha: Bytes -> Digest): (ops: seq<Op>) {
    QuarantineCalls(Rec(sha, "a", 1, Pending), [1], 2, 3, 4)
  }

  lemma FirstLeads(sha: Bytes -> Digest)
    ensures Leads(Begun(true), FirstCalls(sha), QuarantinedA(sha))
  {
    hide Leads, Encoded, QuarantineCalls;
    var rec := Rec(sha, "a", 1, Pending);
    QuarantineStill(map[Name() := 1], map[1 := File(Raw([1]), true)], rec, [1], 2, 3, 4);
    assert (map[Name() := 1] - {Name()})[DataAt("a") := 2][RecordAt("a") := 4] == QuarantinedA(sha).view;
  }

  /** A second quarantine, up to its pending record. */
  function SecondCalls(sha: Bytes -> Digest): (ops: seq<Op>) {
    CopyCalls("b", Key(), [1], 6) + SaveCalls(Rec(sha, "b", 5, Pending), 7)
  }

  function JournalledB(sha: Bytes -> Digest): (fs: Fs) {
    SyncNames(Overwritten(Copied(RestoredA(sha), "b", Key(), [1], 6), Rec(sha, "b", 5, Pending), 7), Items)
  }

  lemma SecondLeads(sha: Bytes -> Digest)
    ensures Leads(RestoredA(sha), SecondCalls(sha), JournalledB(sha))
  {
    hide Leads, CopyCalls, SaveCalls, Encoded, SyncNames;
    var t := Copied(RestoredA(sha), "b", Key(), [1], 6);
    CopyLeads(RestoredA(sha), "b", Key(), [1], 6);
    SaveLeads(t, Rec(sha, "b", 5, Pending), 7);
    LeadsOn(RestoredA(sha), CopyCalls("b", Key(), [1], 6), t, SaveCalls(Rec(sha, "b", 5, Pending), 7), JournalledB(sha));
  }

  // ---- What the runs show.

  /** A store may begin in the first state, whether the file is on disk or not. */
  lemma BegunIsFresh(sha: Bytes -> Digest, synced: bool)
    ensures Sound(Begun(synced), FreshLedger(Begun(synced)), sha)
    ensures Settled(Begun(synced)) && Calm(Begun(synced), FreshLedger(Begun(synced)))
    ensures synced ==> Durable(1) in FreshLedger(Begun(synced)).owed
  {
    var fs := Begun(synced);
    assert Stable(fs, Name(), 1);
    FreshStoreIsSound(fs, sha);
  }

  /** An item is given up in a run in which no call fails. A file is quarantined
      and restored, but the restore dies between its rename and the fsync of the
      directory. The store is opened, and there is nothing to recover. The
      restored file is quarantined, and when its pending record is on disk the
      power goes. */
  lemma GivenUpIsReachable(sha: Bytes -> Digest)
    ensures Possible(Begun(true), FirstCalls(sha) + PublishCalls(Tmp(), Name(), [1], 5))
    ensures var died := After(Begun(true), FirstCalls(sha) + PublishCalls(Tmp(), Name(), [1], 5));
            && NothingToDo(died)
            && Possible(died, SecondCalls(sha)) && CanBeGivenUp(After(died, SecondCalls(sha)), sha, "b")
  {
    assert 5 !in QuarantinedA(sha).files;
    hide FirstCalls, SecondCalls, PublishCalls, Begun, QuarantinedA, JournalledB, NothingToDo, CanBeGivenUp, Published;
    FirstLeads(sha);
    PublishLeads(QuarantinedA(sha), Tmp(), Name(), [1], 5);
    LeadsOn(Begun(true), FirstCalls(sha), QuarantinedA(sha), PublishCalls(Tmp(), Name(), [1], 5), RestoredA(sha));
    SecondLeads(sha);
    RestoredNothingToDo(sha);
    JournalledBGivenUp(sha);
  }

  lemma JournalledBGivenUp(sha: Bytes -> Digest)
    ensures CanBeGivenUp(JournalledB(sha), sha, "b")
  {
    hide CanBeGivenUp, Encoded;
    assert Get(JournalledB(sha).disk, RecordAt("b")) == Some(7);
    NothingChosen(JournalledB(sha), sha, Rec(sha, "b", 5, Pending), 7);
  }

  lemma RestoredNothingToDo(sha: Bytes -> Digest)
    ensures NothingToDo(RestoredA(sha))
  {
    hide Encoded;
    assert RestoredA(sha).view == map[DataAt("a") := 2, RecordAt("a") := 4, Name() := 5];
    assert forall id :: RecordSeen(RestoredA(sha), id).Some? ==> id == "a";
  }

  lemma NothingChosen(fs: Fs, sha: Bytes -> Digest, rec: Record, j: Ino)
    requires Get(fs.disk, RecordAt(rec.core.id)) == Some(j) && j in fs.files && fs.files[j] == File(Json(rec), true)
    requires InFolder(rec.core.origin) && rec.core.origin !in fs.disk && DataAt(rec.core.id) !in fs.disk
    requires rec.state == Pending
    ensures CanBeGivenUp(fs, sha, rec.core.id)
  {
    hide PowerLoss, Lose;
    var id := rec.core.id;
    var chosen := map[RecordAt(id) := Some(j), rec.core.origin := None, DataAt(id) := None];
    var after := LosingTo(fs, chosen, []);
    LosingToHolds(fs, chosen, []);
    assert Get(after.view, RecordAt(id)) == chosen[RecordAt(id)];
    assert Get(after.view, rec.core.origin) == chosen[rec.core.origin];
    assert Get(after.view, DataAt(id)) == chosen[DataAt(id)];
    assert RecordSeen(after, id) == Some(rec);
  }

  // ---- A file that was never on disk.

  function CommitCallsA(sha: Bytes -> Digest): (ops: seq<Op>) {
    TakeCalls(Rec(sha, "a", 1, Pending), [1], 2, 3)
  }

  lemma CommittedLeads(sha: Bytes -> Digest, synced: bool)
    ensures Leads(Begun(synced), CommitCallsA(sha), CommittedA(sha, synced))
  {
    hide Leads, Encoded, TakeCalls;
    StoreStill(map[Name() := 1], map[1 := File(Raw([1]), synced)], Rec(sha, "a", 1, Pending), [1], 2, 3);
    assert map[Name() := 1][DataAt("a") := 2][RecordAt("a") := 3] == CommittedA(sha, synced).view;
  }

  /** What the fresh store knows, and the item. */
  function CommittedLedger(sha: Bytes -> Digest, synced: bool): (g: Ledger) {
    WithItem(BegunLedger(synced), Rec(sha, "a", 1, Pending).core, [1])
  }

  function BegunLedger(synced: bool): (g: Ledger) {
    if synced then Ledger(map[Durable(1) := [1]], map[1 := Durable(1)], {Durable(1)}, map[], map[])
    else Ledger(map[], map[], {}, map[], map[])
  }

  lemma BegunLedgerIsFresh(synced: bool)
    ensures FreshLedger(Begun(synced)) == BegunLedger(synced)
  {
    var fs := Begun(synced);
    assert SyncedFiles(fs) == if synced then {1} else {};
    assert Stable(fs, Name(), 1);
    assert FreshLedger(fs).plain == BegunLedger(synced).plain;
    assert FreshLedger(fs).lineage == BegunLedger(synced).lineage;
    assert FreshLedger(fs).owed == BegunLedger(synced).owed;
  }

  /** A file is quarantined whose bytes were not on disk. Its copy and the pending
      record are, and no call has failed, when the power goes; and recovery discards
      the copy of a file whose name holds other bytes. Had the file been on disk, it
      would not. */
  lemma UnsyncedIsDiscarded(sha: Bytes -> Digest, synced: bool)
    ensures Possible(Begun(synced), CommitCallsA(sha))
    ensures CommittedLedger(sha, synced) == WithItem(FreshLedger(Begun(synced)), Rec(sha, "a", 1, Pending).core, [1])
    ensures CanBeDiscarded(After(Begun(synced), CommitCallsA(sha)), CommittedLedger(sha, synced), sha, "a") <==> !synced
  {
    hide CommitCallsA, Begun, Encoded, CanBeDiscarded;
    CommittedLeads(sha, synced);
    BegunLedgerIsFresh(synced);
    var fs, g := CommittedA(sha, synced), CommittedLedger(sha, synced);
    if synced {
      CommittedKept(sha);
    } else {
      assert IsRecord(fs, g, "a", 3) && IsCopy(fs, g, "a", 2);
      DiscardedAfter(fs, g, sha, "a", 3, 2);
    }
  }

  lemma CommittedKept(sha: Bytes -> Digest)
    ensures !CanBeDiscarded(CommittedA(sha, true), CommittedLedger(sha, true), sha, "a")
  {
    hide Encoded, CopySeen;
    var fs, g := CommittedA(sha, true), CommittedLedger(sha, true);
    assert fs.files[1].synced && BytesOf(fs, 1) == [1];
    forall after | PowerLoss(fs, after)
      ensures !Discards(after, g, sha, "a")
    {
      assert MayHold(fs, RecordAt("a"), Get(after.disk, RecordAt("a")));
      assert BytesOf(after, 1) == BytesOf(fs, 1);
    }
  }

  // ---- A restore that dies.

  function QuarantinedLedger(sha: Bytes -> Digest): Ledger {
    CommittedLedger(sha, true)
  }

  lemma QuarantinedHolds(sha: Bytes -> Digest)
    ensures var fs := QuarantinedA(sha);
            && NonePending(fs)
            && (forall l, v :: MayHold(fs, l, v) <==> v == if l == DataAt("a") then Some(2) else if l == RecordAt("a") then Some(4) else None)
    ensures RestoreRefusal(QuarantinedA(sha), "a", None, true) == None
    ensures RestoreTmpOf(RecordSeen(QuarantinedA(sha), "a").value, None) == Tmp()
  {
    hide Encoded;
    var fs := QuarantinedA(sha);
    assert forall id :: RecordSeen(fs, id).Some? ==> id == "a";
  }

  lemma QuarantinedIsSound(sha: Bytes -> Digest)
    ensures Sound(QuarantinedA(sha), QuarantinedLedger(sha), sha)
  {
    hide Encoded, NonePending, RestoreRefusal, MayHold;
    var fs, g := QuarantinedA(sha), QuarantinedLedger(sha);
    QuarantinedHolds(sha);
    assert DataCopy(fs, g, Durable(1), "a") && !AtRisk(fs, g, "a");
    assert IsRecord(fs, g, "a", 4) && IsCopy(fs, g, "a", 2);
  }

  /** After the quarantine of the first run, a restore that dies right after making
      its temporary makes every later one of that item to that place refused. */
  lemma DyingRestoreHappens(sha: Bytes -> Digest)
    ensures Possible(Begun(true), FirstCalls(sha)) && RestoreRefusal(After(Begun(true), FirstCalls(sha)), "a", None, true) == None
    ensures var fs := After(Begun(true), FirstCalls(sha));
            CanDo(fs, MakeFile(Tmp(), 5)) && RestoreRefusal(Do(fs, MakeFile(Tmp(), 5)), "a", None, true) == Some(AlreadyThere)
  {
    hide FirstCalls, Begun, Sound, Encoded, RestoreRefusal;
    FirstLeads(sha);
    QuarantinedHolds(sha);
    QuarantinedIsSound(sha);
    DyingRestoreBlocks(QuarantinedA(sha), QuarantinedLedger(sha), sha, "a", None, 5);
  }
}
