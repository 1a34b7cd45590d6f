/** What comes of a device and inode number being used again: the store's own answer
    can discard the last copy of a file, in a run in which no call fails. */
module StoreReuse {
  import opened Wrappers
  import opened FileSystem
  import opened Cipher
  import opened Journal
  import opened JournalSteps
  import opened StoreCalls
  import opened StoreFacts
  import opened StoreRuns
  import opened CallRuns

  /** A file whose record is read as pending again after a power loss, while a
      restored file that got its number is under its name. */
  ghost predicate Mistaken(fs: Fs, g: Ledger, sha: Bytes -> Digest, number: Ino -> nat, rec: Record) {
    && Sound(fs, g, sha) && Calm(fs, g) && fs.pending == {}
    && rec.core.id in g.cores && RecordSeen(fs, rec.core.id) == Some(rec) && rec.state == Pending
    && Promised(g, rec.core.id)
    && Decision(fs, sha, rec) == Quarantined && DecisionByNumber(fs, sha, number, rec) == RolledBack
    && !Readable(UnlinkName(fs, DataAt(rec.core.id)), g, g.source[rec.core.id], ItemBytes(g, rec.core.id))
  }

  /** Whenever two files have one number there is a state that the store keeps to
      otherwise, in which its own answer discards the last copy of a file. */
  lemma ReuseLosesAFile(sha: Bytes -> Digest, number: Ino -> nat)
    ensures (exists fs, g, rec :: Mistaken(fs, g, sha, number, rec)) <==> !NeverReused(number)
  {
    hide Sound, Calm, Readable, CopySeen;
    if NeverReused(number) {
      forall fs, g, rec
        ensures !Mistaken(fs, g, sha, number, rec)
      {
        ByNumberRight(fs, sha, number, rec);
      }
    } else {
      var i, j :| number(i) == number(j) && i != j;
      ReusedIsMistaken(sha, number, i, j);
    }
  }

  // ---- The states of the run.

  function OldName(): Loc { At(Folder("home"), Plain("a")) }
  function OtherName(): Loc { At(Folder("attic"), Plain("a")) }
  function ReusedKey(): (key: Bytes)
    ensures |key| == KEY_LEN
  {
    seq(KEY_LEN, _ => 0)
  }

  function RecA(sha: Bytes -> Digest, i: Ino, state: ItemState): Record {
    Record(Core("a", OldName(), i, 1, sha([1]), ReusedKey()), state, None)
  }

  function RecB(sha: Bytes -> Digest, k: Ino, state: ItemState): Record {
    Record(Core("b", OtherName(), k, 1, sha([2]), ReusedKey()), state, None)
  }

  function CopyOf(bytes: Bytes): File { File(Raw(Encoded(ReusedKey(), bytes)), true) }

  /** Two files of a user and an empty store. */
  function Two(i: Ino, k: Ino): (fs: Fs) {
    Still(map[OldName() := i, OtherName() := k], map[i := File(Raw([1]), true), k := File(Raw([2]), true)])
  }

  /** One is quarantined. */
  function OneTaken(sha: Bytes -> Digest, i: Ino, k: Ino): (fs: Fs) {
    Still(map[OldName() := i, DataAt("b") := k + 1, RecordAt("b") := k + 3],
          map[i := File(Raw([1]), true), k := File(Raw([2]), true),
              k + 1 := CopyOf([2]), k + 2 := File(Json(RecB(sha, k, Pending)), true), k + 3 := File(Json(RecB(sha, k, Quarantined)), true)])
  }

  /** And the other, but for its final record. */
  function BothTaken(sha: Bytes -> Digest, i: Ino, k: Ino): (fs: Fs) {
    Still(map[DataAt("b") := k + 1, RecordAt("b") := k + 3, DataAt("a") := k + 4, RecordAt("a") := k + 5],
          OneTaken(sha, i, k).files[k + 4 := CopyOf([1])][k + 5 := File(Json(RecA(sha, i, Pending)), true)])
  }

  /** That has its name, which is not on disk; the process has died. */
  function Died(sha: Bytes -> Digest, i: Ino, k: Ino): (fs: Fs) {
    Overwritten(BothTaken(sha, i, k), RecA(sha, i, Quarantined), k + 6)
  }

  /** The first is restored to where the other was, as file `j`. */
  function Named(sha: Bytes -> Digest, i: Ino, j: Ino, k: Ino): (fs: Fs) {
    SyncNames(Published(Died(sha, i, k), At(Folder("home"), RestoreTmp("b")), OldName(), [2], j), Folder("home"))
  }

  /** And the power is lost. */
  function ReusedFs(sha: Bytes -> Digest, i: Ino, j: Ino): Fs {
    var k := i + j + 1;
    Still(BothTaken(sha, i, k).view[OldName() := j],
          BothTaken(sha, i, k).files[k + 6 := File(Json(RecA(sha, i, Quarantined)), true)][j := File(Raw([2]), true)])
  }

  function ReusedLedger(sha: Bytes -> Digest, i: Ino, j: Ino): Ledger {
    var k := i + j + 1;
    Ledger(map[Durable(i) := [1], Durable(k) := [2]],
           map[i := Durable(i), j := Durable(k), k := Durable(k)],
           {Durable(i), Durable(k)},
           map["a" := RecA(sha, i, Pending).core, "b" := RecB(sha, k, Pending).core],
           map["a" := Durable(i), "b" := Durable(k)])
  }

  // ---- The run.

  function TakeBothCalls(sha: Bytes -> Digest, i: Ino, k: Ino): (ops: seq<Op>) {
    QuarantineCalls(RecB(sha, k, Pending), [2], k + 1, k + 2, k + 3)
    + (TakeCalls(RecA(sha, i, Pending), [1], k + 4, k + 5) + RemoveCalls(OldName()))
    + OverwriteCalls(RecA(sha, i, Quarantined), k + 6)
  }

  function GiveBackCalls(j: Ino): (ops: seq<Op>) {
    PublishCalls(At(Folder("home"), RestoreTmp("b")), OldName(), [2], j) + [SyncDir(Folder("home"))]
  }

  lemma OneTakenLeads(sha: Bytes -> Digest, i: Ino, k: Ino)
    requires i < k
    ensures Leads(Two(i, k), QuarantineCalls(RecB(sha, k, Pending), [2], k + 1, k + 2, k + 3), OneTaken(sha, i, k))
  {
    hide Leads, QuarantineCalls, Encoded;
    var names := Two(i, k).view;
    QuarantineStill(names, Two(i, k).files, RecB(sha, k, Pending), [2], k + 1, k + 2, k + 3);
    assert (names - {OtherName()})[DataAt("b") := k + 1][RecordAt("b") := k + 3] == OneTaken(sha, i, k).view;
  }

  lemma BothTakenLeads(sha: Bytes -> Digest, i: Ino, k: Ino)
    requires i < k
    ensures Leads(OneTaken(sha, i, k), TakeCalls(RecA(sha, i, Pending), [1], k + 4, k + 5) + RemoveCalls(OldName()), BothTaken(sha, i, k))
  {
    hide Leads, TakeCalls, RemoveCalls, Encoded;
    var names := OneTaken(sha, i, k).view;
    TakeStill(names, OneTaken(sha, i, k).files, RecA(sha, i, Pending), [1], k + 4, k + 5);
    assert (names - {OldName()})[DataAt("a") := k + 4][RecordAt("a") := k + 5] == BothTaken(sha, i, k).view;
  }

  lemma DiedLeads(sha: Bytes -> Digest, i: Ino, k: Ino)
    requires i < k
    ensures Leads(Two(i, k), TakeBothCalls(sha, i, k), Died(sha, i, k))
  {
    hide Leads, TakeCalls, QuarantineCalls, RemoveCalls, OverwriteCalls, Overwritten, OneTaken;
    OneTakenLeads(sha, i, k);
    BothTakenLeads(sha, i, k);
    FilesBelow(sha, i, k);
    OverwriteLeads(BothTaken(sha, i, k), RecA(sha, i, Quarantined), k + 6);
    var first := QuarantineCalls(RecB(sha, k, Pending), [2], k + 1, k + 2, k + 3);
    var second := TakeCalls(RecA(sha, i, Pending), [1], k + 4, k + 5) + RemoveCalls(OldName());
    LeadsOn(Two(i, k), first, OneTaken(sha, i, k), second, BothTaken(sha, i, k));
    LeadsOn(Two(i, k), first + second, BothTaken(sha, i, k), OverwriteCalls(RecA(sha, i, Quarantined), k + 6), Died(sha, i, k));
  }

  lemma FilesBelow(sha: Bytes -> Digest, i: Ino, k: Ino)
    requires i < k
    ensures BothTaken(sha, i, k).files.Keys == {i, k, k + 1, k + 2, k + 3, k + 4, k + 5}
  {
    hide Encoded;
  }

  lemma NamedLeads(sha: Bytes -> Digest, i: Ino, j: Ino, k: Ino)
    requires i < k && j < k && i != j
    ensures Leads(Died(sha, i, k), GiveBackCalls(j), Named(sha, i, j, k))
  {
    hide Leads, BothTaken, SyncNames;
    FilesBelow(sha, i, k);
    var tmp := At(Folder("home"), RestoreTmp("b"));
    PublishLeads(Died(sha, i, k), tmp, OldName(), [2], j);
    var t := Published(Died(sha, i, k), tmp, OldName(), [2], j);
    LeadsOne(t, SyncDir(Folder("home")));
    LeadsOn(Died(sha, i, k), PublishCalls(tmp, OldName(), [2], j), t, [SyncDir(Folder("home"))], Named(sha, i, j, k));
  }

  /** Two files are quarantined; the process dies when the final record of one has
      its name but the directory was not fsynced. On the next open there is nothing
      to recover. The other is restored to where the first was, as a new file, and
      that name is fsynced. Then the power goes, and the state is the one above, so
      that if the new file got the number of the first, recovery discards the only
      copy of the first. No call has failed. */
  lemma ReuseIsReachable(sha: Bytes -> Digest, i: Ino, j: Ino)
    requires i != j
    ensures var k := i + j + 1;
            && Leads(Two(i, k), TakeBothCalls(sha, i, k), Died(sha, i, k)) && NothingToDo(Died(sha, i, k))
            && i !in Died(sha, i, k).view.Values && j !in Died(sha, i, k).files
            && Leads(Died(sha, i, k), GiveBackCalls(j), Named(sha, i, j, k))
            && PowerLoss(Named(sha, i, j, k), ReusedFs(sha, i, j))
    ensures forall number: Ino -> nat :: number(i) == number(j) ==>
              Mistaken(ReusedFs(sha, i, j), ReusedLedger(sha, i, j), sha, number, RecA(sha, i, Pending))
  {
    hide Leads, NothingToDo, PowerLoss, Died, Named, Mistaken, BothTaken;
    var k := i + j + 1;
    DiedLeads(sha, i, k);
    DiedSettled(sha, i, k);
    FilesBelow(sha, i, k);
    DiedFiles(sha, i, k);
    NamedLeads(sha, i, j, k);
    NamedLoses(sha, i, j);
    forall number: Ino -> nat | number(i) == number(j)
      ensures Mistaken(ReusedFs(sha, i, j), ReusedLedger(sha, i, j), sha, number, RecA(sha, i, Pending))
    {
      ReusedIsMistaken(sha, number, i, j);
    }
  }

  lemma DiedIs(sha: Bytes -> Digest, i: Ino, k: Ino)
    requires i < k
    ensures var fs := Died(sha, i, k);
            && fs.view == map[DataAt("b") := k + 1, RecordAt("b") := k + 3, DataAt("a") := k + 4, RecordAt("a") := k + 6]
            && k + 3 in fs.files && fs.files[k + 3] == File(Json(RecB(sha, k, Quarantined)), true)
            && k + 6 in fs.files && fs.files[k + 6] == File(Json(RecA(sha, i, Quarantined)), true)
  {
    hide CopyOf, ReusedKey;
  }

  lemma DiedFiles(sha: Bytes -> Digest, i: Ino, k: Ino)
    ensures Died(sha, i, k).files.Keys == BothTaken(sha, i, k).files.Keys + {k + 6}
  {
    hide BothTaken;
  }

  lemma DiedSettled(sha: Bytes -> Digest, i: Ino, k: Ino)
    requires i < k
    ensures NothingToDo(Died(sha, i, k)) && i !in Died(sha, i, k).view.Values
  {
    var fs := Died(sha, i, k);
    DiedIs(sha, i, k);
    hide Died, ReusedKey;
    assert forall id :: RecordAt(id) in fs.view ==> id == "a" || id == "b";
  }

  lemma NamedLoses(sha: Bytes -> Digest, i: Ino, j: Ino)
    requires i != j
    ensures PowerLoss(Named(sha, i, j, i + j + 1), ReusedFs(sha, i, j))
  {
    hide Encoded, RecA, RecB, CopyOf;
    var k := i + j + 1;
    var fs, after := Named(sha, i, j, k), ReusedFs(sha, i, j);
    assert fs.files == after.files;
    forall l
      ensures MayHold(fs, l, Get(after.disk, l))
    {
      assert Get(after.disk, l) == Get(fs.disk, l);
    }
  }

  // ---- What recovery finds.

  lemma ReusedNames(sha: Bytes -> Digest, i: Ino, j: Ino)
    ensures var k := i + j + 1;
            forall l, v :: MayHold(ReusedFs(sha, i, j), l, v) <==>
              v == if l == OldName() then Some(j) else if l == RecordAt("a") then Some(k + 5) else if l == DataAt("a") then Some(k + 4)
                   else if l == RecordAt("b") then Some(k + 3) else if l == DataAt("b") then Some(k + 1) else None
  {
    hide Encoded;
  }

  lemma ReusedFiles(sha: Bytes -> Digest, i: Ino, j: Ino)
    requires i != j
    ensures var files, k := ReusedFs(sha, i, j).files, i + j + 1;
            && files.Keys == {i, j, k, k + 1, k + 2, k + 3, k + 4, k + 5, k + 6}
            && files[i] == File(Raw([1]), true) && files[j] == files[k] == File(Raw([2]), true)
            && files[k + 1] == CopyOf([2]) && files[k + 3] == File(Json(RecB(sha, k, Quarantined)), true)
            && files[k + 4] == CopyOf([1]) && files[k + 5] == File(Json(RecA(sha, i, Pending)), true)
  {
    hide Encoded;
  }

  lemma ReusedLedgerIs(sha: Bytes -> Digest, i: Ino, j: Ino)
    requires i != j
    ensures var g, k := ReusedLedger(sha, i, j), i + j + 1;
            && g.lineage.Keys == {i, j, k} && g.lineage[i] == Durable(i) && g.lineage[j] == g.lineage[k] == Durable(k)
            && g.plain.Keys == {Durable(i), Durable(k)} && g.plain[Durable(i)] == [1] && g.plain[Durable(k)] == [2]
            && g.owed == g.plain.Keys && g.source.Keys == g.cores.Keys == {"a", "b"}
            && g.source["a"] == Durable(i) && g.source["b"] == Durable(k)
            && g.cores["a"] == RecA(sha, i, Pending).core && g.cores["b"] == RecB(sha, k, Pending).core
  {
    hide RecA, RecB;
  }

  lemma ReusedLineageOk(sha: Bytes -> Digest, i: Ino, j: Ino)
    requires i != j
    ensures LineageOk(ReusedFs(sha, i, j), ReusedLedger(sha, i, j))
  {
    ReusedFiles(sha, i, j);
    ReusedLedgerIs(sha, i, j);
    hide ReusedFs, ReusedLedger, CopyOf, RecA, RecB;
  }

  lemma ReusedFilesOk(sha: Bytes -> Digest, i: Ino, j: Ino)
    requires i != j
    ensures WellFormed(ReusedFs(sha, i, j)) && FoldersOk(ReusedFs(sha, i, j))
  {
    ReusedFiles(sha, i, j);
    ReusedNames(sha, i, j);
    assert ReusedFs(sha, i, j).view == ReusedFs(sha, i, j).disk;
    hide ReusedFs, CopyOf, RecA, RecB;
    forall l
      ensures MayHold(ReusedFs(sha, i, j), l, Get(ReusedFs(sha, i, j).view, l))
    {
    }
    hide MayHold;
  }

  lemma ReusedCoresOk(sha: Bytes -> Digest, i: Ino, j: Ino)
    requires i != j
    ensures CoresOk(ReusedFs(sha, i, j), ReusedLedger(sha, i, j), sha)
  {
    ReusedFiles(sha, i, j);
    ReusedLedgerIs(sha, i, j);
    hide ReusedFs, ReusedLedger, CopyOf;
  }

  lemma ReusedItems(sha: Bytes -> Digest, i: Ino, j: Ino)
    requires i != j
    ensures var fs, g, k := ReusedFs(sha, i, j), ReusedLedger(sha, i, j), i + j + 1;
            && IsRecord(fs, g, "a", k + 5) && IsCopy(fs, g, "a", k + 4)
            && IsRecord(fs, g, "b", k + 3) && IsCopy(fs, g, "b", k + 1)
  {
    ReusedFiles(sha, i, j);
    ReusedLedgerIs(sha, i, j);
    hide ReusedFs, ReusedLedger, Encoded;
  }

  lemma ReusedItemsOk(sha: Bytes -> Digest, i: Ino, j: Ino)
    requires i != j
    ensures ItemsOk(ReusedFs(sha, i, j), ReusedLedger(sha, i, j))
  {
    ReusedItems(sha, i, j);
    ReusedNames(sha, i, j);
    hide ReusedFs, ReusedLedger, MayHold, IsRecord, IsCopy;
  }

  lemma ReusedDisk(sha: Bytes -> Digest, i: Ino, j: Ino)
    ensures var fs, k := ReusedFs(sha, i, j), i + j + 1;
            && fs.view == fs.disk && fs.pending == {}
            && fs.view == map[DataAt("b") := k + 1, RecordAt("b") := k + 3, DataAt("a") := k + 4, RecordAt("a") := k + 5, OldName() := j]
  {
    hide Encoded;
  }

  lemma ReusedCopies(sha: Bytes -> Digest, i: Ino, j: Ino)
    requires i != j
    ensures var fs, g, k := ReusedFs(sha, i, j), ReusedLedger(sha, i, j), i + j + 1;
            && FolderCopy(fs, g, Durable(k), OldName())
            && DataCopy(fs, g, Durable(i), "a") && !AtRisk(fs, g, "a")
            && (forall id :: MayBePending(fs, id) ==> id == "a")
  {
    var fs, g := ReusedFs(sha, i, j), ReusedLedger(sha, i, j);
    ReusedNames(sha, i, j);
    ReusedDisk(sha, i, j);
    ReusedFiles(sha, i, j);
    ReusedLedgerIs(sha, i, j);
    hide ReusedFs, ReusedLedger, MayHold, CopyOf;
  }

  lemma ReusedIsSound(sha: Bytes -> Digest, i: Ino, j: Ino)
    requires i != j
    ensures Sound(ReusedFs(sha, i, j), ReusedLedger(sha, i, j), sha)
    ensures Calm(ReusedFs(sha, i, j), ReusedLedger(sha, i, j))
  {
    var fs, g, k := ReusedFs(sha, i, j), ReusedLedger(sha, i, j), i + j + 1;
    ReusedFilesOk(sha, i, j);
    ReusedLineageOk(sha, i, j);
    ReusedCoresOk(sha, i, j);
    ReusedItemsOk(sha, i, j);
    ReusedCopies(sha, i, j);
    ReusedDisk(sha, i, j);
    ReusedLedgerIs(sha, i, j);
    hide WellFormed, LineageOk, FoldersOk, CoresOk, ItemsOk, DataCopy, FolderCopy, AtRisk, MayBePending, ReusedFs, ReusedLedger, RecB;
    assert Safe(fs, g, Durable(i)) && Safe(fs, g, Durable(k));
    assert Decidable(fs, g, "a");
  }

  lemma ReusedUnlinked(sha: Bytes -> Digest, i: Ino, j: Ino)
    ensures var after, k := UnlinkName(ReusedFs(sha, i, j), DataAt("a")), i + j + 1;
            && after.view == map[DataAt("b") := k + 1, RecordAt("b") := k + 3, RecordAt("a") := k + 5, OldName() := j]
            && after.files == ReusedFs(sha, i, j).files
  {
    ReusedDisk(sha, i, j);
    hide ReusedFs;
  }

  lemma ReusedIsLost(sha: Bytes -> Digest, i: Ino, j: Ino)
    requires i != j
    ensures !Readable(UnlinkName(ReusedFs(sha, i, j), DataAt("a")), ReusedLedger(sha, i, j), Durable(i), [1])
  {
    var after := UnlinkName(ReusedFs(sha, i, j), DataAt("a"));
    ReusedFiles(sha, i, j);
    ReusedUnlinked(sha, i, j);
    ReusedLedgerIs(sha, i, j);
    hide ReusedFs, ReusedLedger, UnlinkName, CopyOf, RecA, RecB, Decoded, RecordSeen, SourceOf;
    assert forall l :: l in after.view && InFolder(l) ==> l == OldName();
    forall id | Get(ReusedLedger(sha, i, j).source, id) == Some(Durable(i))
      ensures forall key :: CopySeen(after, id, key) == None
    {
      assert id == "a" && DataAt(id) !in after.view;
    }
  }

  lemma ReusedSeen(sha: Bytes -> Digest, i: Ino, j: Ino)
    requires i != j
    ensures RecordSeen(ReusedFs(sha, i, j), "a") == Some(RecA(sha, i, Pending))
    ensures CopySeen(ReusedFs(sha, i, j), "a", ReusedKey()) == Some([1])
    ensures Get(ReusedFs(sha, i, j).view, OldName()) == Some(j)
  {
    ReusedFiles(sha, i, j);
    ReusedDisk(sha, i, j);
    hide ReusedFs, RecA, RecB, Encoded, Decoded, ReusedKey;
    DecodedUndoesEncoded(ReusedKey(), [1]);
  }

  lemma ReusedIsMistaken(sha: Bytes -> Digest, number: Ino -> nat, i: Ino, j: Ino)
    requires i != j && number(i) == number(j)
    ensures Mistaken(ReusedFs(sha, i, j), ReusedLedger(sha, i, j), sha, number, RecA(sha, i, Pending))
  {
    ReusedIsSound(sha, i, j);
    ReusedIsLost(sha, i, j);
    ReusedSeen(sha, i, j);
    ReusedDisk(sha, i, j);
    ReusedLedgerIs(sha, i, j);
    hide Sound, Calm, Readable, ReusedFs, ReusedLedger, ReusedKey, CopySeen, RecordSeen, RecB;
  }
}
