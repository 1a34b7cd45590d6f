# Verification of Abyssal Warden's protocols

A Dafny model of the six parts of Abyssal Warden in which state must survive
crashes, interleavings or an adversary's input, with proofs of what those parts
promise. `dafny verify dfyconfig.toml` checks everything.

1. **The quarantine journal** (`FileSystem`, `Cipher`, `Journal`, `JournalSteps`,
   `StoreCalls`, `StoreFacts`, `QuarantineStore`, `StoreRuns`, `CallRuns`,
   `StoreWitness`, `StoreReuse`).
   A filesystem is what programs see, what is certainly on disk, and updates of
   names that were not fsynced. At a power loss each name independently keeps
   what is on disk or any update not yet fsynced, and a file that was not fsynced
   holds anything; this allows more than a real filesystem does. Every system
   call may succeed, fail, or be where the process dies, and the invariant is
   proved after each, so a crash between any two calls, recovery's own included,
   is covered. Every store method is the sequence of calls the source makes, with
   its loops over short reads; each says exactly when it refuses and with what.
2. **The scan coordinator** (`ScanProtocol`, `ScanAccounting`, `ScanThreads`,
   `ScanTheorems`, `ScanLosses`, `ScanProgress`, `ScanFairness`, `ScanWitness`,
   `Aggregation`).
   Walker, workers and coordinator take one atomic step at a time in any order;
   the watchdog's verdict on a worker and its flagging of it are two steps, as
   are a queue operation and the counter that follows it. Runs are finite for
   safety and infinite for termination.
3. **The archive expander** (`ArchiveRuns`, `ArchiveTheorems`,
   `ArchiveExpander`). What an expansion should report and cost is a function of
   the archive; the class with its budget, flag and chain is proved to follow it,
   or a beginning of it when stopped.
4. **Content trust** (`Trust`, `KeySet`, `Bundle`, `ContentState`, `Sessions`,
   `KeyTexts`, `InstallNames`, `Installation`, `InstallWitness`, `InstallPower`). Keys and
   keyrings, down to the text of a key, signature thresholds, bundle loading, the
   rollback state with its file, sequences of load and update sessions over it,
   and the directory in which bundles are installed by swaps that may die at any
   call, or lose power.
5. **The audit chain and its anchors** (`AuditChain`, `AuditLog`, `Anchors`,
   `AnchorText`). Byte-level logs, with JSON and SHA-256 left open and no
   assumption that the hash is injective; appends that fail part of the way.
6. **The job manager** (`Jobs`). Each critical section is a method; a run is any
   interleaving of them, over any number of restarts of the service and power
   losses.

`Wrappers` and `Collections` hold what several of them use.

These promises of the source and its documentation turn out to hold only under a
condition, which is proved with them:

- Recovery can be left with nothing to decide by although no call ever failed.
  A restore that dies between its rename and the fsync of the directory leaves a
  name that a power loss can take away; if the restored file is quarantined again
  first, both the name and the copy can be gone while the pending record stays.
  `StoreWitness.GivenUpIsReachable` is that run, call by call from a fresh store,
  `StoreRuns.GivenUpExactlyWhen` the exact condition, and `StoreRuns.Lifetime`
  shows that it needs a call that failed since the last open or an operation
  begun on names or records not yet certain on disk. The file's bytes as promised
  are never lost: the copy of the first quarantine is still there, since the
  restore had not finished.
- "No data loss on crash" (`docs/security/quarantine.md:152`) holds of files whose
  bytes are on disk. A file written a moment before is copied but not fsynced
  itself; if the power goes when its copy and the pending record are on disk and its
  unlink is not, its name may hold other bytes afterwards, and recovery takes it for
  the original and discards the copy. `StoreRuns.DiscardedExactlyWhen`
  is the exact condition and `StoreWitness.UnsyncedIsDiscarded` the run.
  `StoreRuns.Lifetime` covers such files too: they are promised from the fsync
  after the unlink on, so by the time a quarantine reports success, and files on
  disk all along.
- Recovery recognises the original by its device and inode number. Its answer is
  right exactly when no other file with that number is under the name
  (`StoreRuns.ByNumberRight`), so always right exactly when no number is used
  again (`StoreRuns.ByNumberExactlyWhen`). Where one is, there is a state within
  the invariant in which it discards the last copy of a file
  (`StoreReuse.ReuseLosesAFile`), and a run from a fresh store in which no call fails
  reaches it (`StoreReuse.ReuseIsReachable`). That no number is used again,
  `FileSystem.NeverReused`, is therefore a hypothesis of `StoreRuns.Lifetime` and
  part of what makes a `StoreCalls.Disk` valid.
- A restore that dies leaves its temporary beside the target. The same restore is
  then refused exactly while that file is there
  (`QuarantineStore.Store.RestoreInner`); recovery looks at the store's own
  directory only, so no number of opens changes that
  (`StoreRuns.DyingRestoreBlocks`, `StoreRuns.RestoreStillRefused`, with a concrete
  run in `StoreWitness.DyingRestoreHappens`).
- A scan that ends with status Completed can have missed a file without saying
  which (`ScanWitness.CompletedMayMiss`). The accounting holds for complete
  reports, and for completed ones that abandoned no worker; others missed at most
  one entry for each abandoned worker and those left in the channel
  (`ScanLosses.CompletedMissesFew`).
- A keyring can give a known key more than it had. An entry's key text is decoded
  twice, and a text with a space before it is a known key to the second reading
  and none to the first, so that the entry's roles replace the key's
  (`KeySet.PaddedTextWidens`). Keys are narrowed, and the order of keyrings does
  not matter, exactly under the conditions of `Trust.NarrowsExactlyWhen`,
  `KeySet.KeyringsNarrowExactlyWhen` and `Trust.OrderExactlyWhen`.
- A keyring is not refused as a whole: what precedes its first bad part stays in
  force, and an entry whose key does not have the ID it gives leaves that key
  trusted for content without limit (`KeySet.TrustedKeys.AddKeyring`).
- An interrupted swap is recovered if recovery can list and rename, no removal
  fails, and no two bundle names in the directory clash (`Installation.Updates`).
  If one name is another with a dash and more, the other's recovery takes its
  copies: for any two names that clash there is a run that loses an installed
  bundle although every call works, by an update that succeeds
  (`InstallWitness.ClashLoses`,
  `InstallNames.SparesExactlyWhen`). If the rename that puts a copy back fails, the
  only copy is removed (`InstallNames.RecoveredExactlyWhen`,
  `InstallWitness.CopyDeleted`). With copies left over from failed removals it
  depends on random names which one comes back
  (`InstallWitness.ComesBackExactlyWhen`, `InstallWitness.OldReturns`).
- An update that reports an error leaves the old bundle in place exactly unless
  the save after the swap failed, in which case the new one is
  (`InstallWitness.FailureInstalls`), or both the second rename and its undoing
  did, in which case nothing is (`Installation.Installer.Update`).
- The directory bundles are installed in is never fsynced. A power loss from the
  first rename of a swap on, and still after the update has reported success, may
  leave neither the old release nor the new one; an fsync would prevent it
  (`InstallPower.SwapSurvivesExactlyWhen`). In the model a power loss treats the two
  names of a rename apart.
- An append to the audit log that fails can make the store refuse to open: the log
  opens again exactly while no append wrote only part of its line, or a line that
  is too long, or anything after one that failed having written all of its line
  (`AuditLog.AppendThenOpen`).
- The writer of the audit log does not check the line length a reader accepts: a
  log verifies exactly when no line is over the limit (`AuditChain.WrittenVerifies`),
  and there are actions whose line is (`AuditChain.WrittenMayNotVerify`).
- The count of unanchored entries falls short by the entries that have both a
  matching and a conflicting anchor, and wraps exactly when the entries matched
  and those conflicting number more than the entries (`Anchors.ShortByTheDouble`,
  `Anchors.ConservesExactlyWhen`, `Anchors.BothWrap`). The count of other chains'
  anchors does depend on repetition.
- While the power is not lost, a finished job keeps its state over restarts exactly if its last save succeeded
  or it had failed anyway (`Jobs.Interleave`). A cancelled job whose record could
  not be written is reported as cancelled and comes back as failed
  (`Jobs.CancelIsForgotten`). The directory of the records is not fsynced either:
  a power loss may take back saves that reported success, and bring pruned jobs
  back, exactly as `Jobs.LossKeepsExactlyWhen` and `Jobs.ReturnsExactlyWhen` say
  (`Jobs.SavedIsForgotten`).

## Model

| member | source | states |
|---|---|---|
| FileSystem.LoseIsPowerLoss | crates/remediation/src/linux.rs:13-21 | every computed outcome of a power loss (each name keeps what is on disk or one update not yet fsynced, files not fsynced hold anything) is one the definition allows |
| FileSystem.PowerLossIsLose | crates/remediation/src/linux.rs:13-21 | and every outcome the definition allows is computed by some choice, so runs that quantify over choices quantify over all power losses |
| FileSystem.SyncNamesHolds | crates/remediation/src/linux.rs:311 | after an fsync of a directory its names survive any crash as they are; no other name gains a possible value |
| Cipher.MaskInvolution | crates/remediation/src/common.rs:31-37 | the XOR stream undoes itself at every offset |
| Cipher.MaskPieces | crates/remediation/src/common.rs:31-37 | the stream depends on the absolute offset only: masking the pieces of any cut equals masking the whole |
| Cipher.XorInPlace | crates/remediation/src/common.rs:31-37 | the in-place loop masks exactly the first `n` bytes of the buffer and touches no other |
| Journal.DecodedUndoesEncoded | crates/remediation/src/linux.rs:852-904 | decoding a stored copy with its key gives the bytes that were encoded |
| Journal.SafeIsReadable | crates/remediation/src/linux.rs:13-21 | what the invariant calls safe can be read now, with the bytes that were promised: under a user's name, or by decoding a copy with the key in its record |
| Journal.CrashKeepsSound | crates/remediation/src/linux.rs:740-792 | the journal's invariant survives the process dying and the machine losing power at any point |
| Journal.SoundMeansNoLoss | crates/remediation/src/linux.rs:253-352 | in every state of the invariant, and after any crash from it, the bytes of every promised file are readable: from the original, a restored file, or a decodable copy |
| Journal.NarrowsKeepsSound | crates/remediation/src/linux.rs:852-904 | writing temporaries, fsyncing and losing power keep the invariant because they only narrow what a crash can leave |
| JournalSteps.CommitRecord | crates/remediation/src/linux.rs:1060-1076 | renaming a synced record into place keeps the invariant, provided a pending record is written before its copy is committed |
| JournalSteps.CommitRecordKeepsCalm | crates/remediation/src/linux.rs:274-300 | and keeps every pending item decidable if a new pending item's original is there for good |
| JournalSteps.CommitCopy | crates/remediation/src/linux.rs:303-311 | renaming a synced, complete copy to its final name keeps the invariant |
| JournalSteps.RemoveNameExactlyWhen | crates/remediation/src/linux.rs:314-326 | unlinking a user's name keeps the invariant exactly when every wanted file it was the safe copy of has another safe copy without it |
| JournalSteps.RemoveOriginal | crates/remediation/src/linux.rs:314-326 | and the journal's order meets that condition: the original may be unlinked once a copy and its record are on disk for good |
| JournalSteps.PromiseItem | crates/remediation/src/linux.rs:314-352 | an item's bytes can be promised, the file on disk or not, once its copy and record are there for good and no crash can bring its name back while the record may say pending |
| JournalSteps.RemoveCopy | crates/remediation/src/linux.rs:511-514 | a copy may be removed only if recovery would discard it, its file is back under a name that no crash can take, or its delete began |
| JournalSteps.PutTarget | crates/remediation/src/linux.rs:476-509 | a restored file may be put under a free name of a user |
| JournalSteps.JoinLineage | crates/remediation/src/linux.rs:433-465 | a synced file with the bytes of an item counts as that item's original from then on |
| StoreCalls.Disk.Create | crates/remediation/src/linux.rs:852-904 | creating a temporary: a new file under that name and nothing else; a failed or fatal call changes nothing |
| StoreCalls.Disk.Read | crates/remediation/src/linux.rs:870-903 | one read returns any number of bytes of the file at that position, none only at its end |
| StoreCalls.Disk.SyncDir | crates/remediation/src/linux.rs:311 | fsync of a directory makes exactly its names durable |
| StoreCalls.Disk.RenameRecord | crates/remediation/src/linux.rs:1060-1076 | the rename that changes a record: its caller must be moving along the lifecycle, and the invariant holds whether the call succeeds, fails, or is where the process dies |
| StoreCalls.Disk.RenameCopy | crates/remediation/src/linux.rs:303-310 | the rename that commits a copy, under the condition that makes it safe |
| StoreCalls.Disk.UnlinkOriginal | crates/remediation/src/linux.rs:322-325 | the unlink of an original: its caller must have a durable copy and record |
| StoreCalls.Disk.UnlinkCopy | crates/remediation/src/linux.rs:511-514 | the unlink of a copy: its caller must show that no one needs it |
| StoreCalls.Disk.RenameTarget | crates/remediation/src/linux.rs:476-483 | the no-replace rename of a restore, whose target must be free |
| StoreCalls.Disk.LosePower | crates/remediation/src/linux.rs:13-21 | power can go at any time and the invariant still holds |
| QuarantineStore.Store.WriteMasked | crates/remediation/src/linux.rs:869-891 | the copying loop writes the encoding of the whole source, fsynced or not, and its hash and length for any pattern of short reads, and stops above the size limit |
| QuarantineStore.Store.WriteEncoded | crates/remediation/src/linux.rs:852-904 | the copy of any file, fsynced or not, is written under a fresh temporary, fsynced, read back and compared before it counts |
| QuarantineStore.Store.DecodeLoop | crates/remediation/src/linux.rs:937-957 | the decoding loop gives the plain bytes for any pattern of short reads |
| QuarantineStore.Store.DecodeFile | crates/remediation/src/linux.rs:915-957 | decoding succeeds only with the header in place and returns the hash and length of what was encoded; a missing or foreign file is reported as such |
| QuarantineStore.Store.WriteTemporary | crates/remediation/src/linux.rs:1060-1070 | the new record is complete and fsynced under its temporary name before it is renamed |
| QuarantineStore.Store.Save | crates/remediation/src/linux.rs:959-966 | a record is replaced atomically and durably; on success no crash can bring the old one back; the change follows the lifecycle |
| QuarantineStore.Store.CopyOriginal | crates/remediation/src/linux.rs:253-272 | steps 2 and 3 for any file, fsynced or not: copy, verify, compare with the expected hash; a failed copy is cleaned up and nothing else is touched |
| QuarantineStore.Store.JournalPending | crates/remediation/src/linux.rs:274-300 | step 4: the pending record is durable before the copy takes its name |
| QuarantineStore.Store.JournalAndCommit | crates/remediation/src/linux.rs:274-311 | steps 4 and 5: afterwards the copy decodes to the bytes that were copied and neither it nor its record can be lost |
| QuarantineStore.Store.RollBack | crates/remediation/src/linux.rs:840-850 | undoing a quarantine discards only the copy, only while the original is in place, and records it |
| QuarantineStore.Store.RemoveTheOriginal | crates/remediation/src/linux.rs:314-326 | step 6: the original goes only if its name still refers to the copied file, and once the directory is fsynced its bytes are promised for good; otherwise the quarantine is rolled back, the file with its bytes |
| QuarantineStore.Store.RemoveAndFinalise | crates/remediation/src/linux.rs:314-352 | steps 6 and 7 leave the name free and the record quarantined |
| QuarantineStore.Store.Inspect | crates/remediation/src/linux.rs:192-232 | step 1: the first that applies of not allowed, inside the store, missing, too large, hard-linked is the error, unless a call fails, and with none of them the file is accepted |
| QuarantineStore.Store.QuarantineInner | crates/remediation/src/linux.rs:192-361 | for any file, on disk or not: unless a call fails or the process dies it succeeds exactly when there is no reason to refuse, and else gives that reason; success: the name is free, the copy decodes to its bytes, which are promised from then on, and the record says so; only the item's names and the original's can change on any outcome, a file still at its name has its bytes, and a refusal leaves every name as it was |
| QuarantineStore.Store.GetRecord | crates/remediation/src/linux.rs:652-680 | a record is returned only if it is that item's |
| QuarantineStore.Store.DecodeForRestore | crates/remediation/src/linux.rs:420-472 | a restore decodes into a fresh temporary and fsyncs it before anything is renamed; it is refused for a temporary already there exactly when there is one, and then nothing changes |
| QuarantineStore.Store.Publish | crates/remediation/src/linux.rs:476-509 | a name that already existed is never changed; with or without the no-replace rename, success means the name was free and now holds the restored file |
| QuarantineStore.Store.CloseRestore | crates/remediation/src/linux.rs:510-520 | the directory is fsynced before the copy is removed, and only then is the record closed |
| QuarantineStore.Store.RestoreInner | crates/remediation/src/linux.rs:373-520 | unless a call fails or the process dies it succeeds exactly when there is no reason to refuse, and else gives that reason; for a quarantined item and a safe target, a leftover temporary is that reason if and only if it is there; success: a free name holds the quarantined bytes and the record says where |
| QuarantineStore.Store.DeleteInner | crates/remediation/src/linux.rs:532-556 | a delete gives up the promise for that file only and only if the item is quarantined, removes its copy and keeps the record, and refuses exactly unknown and closed items |
| QuarantineStore.Store.ResolvePending | crates/remediation/src/linux.rs:794-838 | recovery answers rolled back iff the same file is still at the name, else quarantined iff the copy decodes to the recorded hash, else failed, which needs an earlier fault |
| QuarantineStore.Store.ListPending | crates/remediation/src/linux.rs:740-752 | every pending item is found, each once |
| QuarantineStore.Store.RecoverOne | crates/remediation/src/linux.rs:753-772 | the answer is saved durably and adds exactly one log line that says it, no other item is touched, and what is answered to be quarantined is promised from then on; on an error there is no line |
| QuarantineStore.Store.ResolveAll | crates/remediation/src/linux.rs:753-772 | every pending item is resolved by the state it was found in, whatever was done for the others |
| QuarantineStore.Store.SweepStrays | crates/remediation/src/linux.rs:773-792 | temporaries that belong to no record go; what a record needs stays |
| QuarantineStore.Store.Recover | crates/remediation/src/linux.rs:740-792 | after a successful open nothing is pending, each item was decided as it must be, and those found to be quarantined are promised; the log grows by one line per resolved item; other items, all users' names and the bytes under them are unchanged; with nothing to do it changes nothing, not even the log |
| QuarantineStore.Store.Quarantine | crates/remediation/src/linux.rs:174-190 | exactly one log line says what came of it, on success and on every refusal; none or one if a call failed or the process died; outcome, refusal and promise as for the inner method, for any file, on disk or not |
| QuarantineStore.Store.Restore | crates/remediation/src/linux.rs:363-371 | exactly one log line says what came of it, on success and on every refusal; no name a user has changes on any outcome; refused for a leftover temporary if and only if there is one |
| QuarantineStore.Store.Delete | crates/remediation/src/linux.rs:525-530 | exactly one log line says what came of it, on success and on every refusal; only the item's own names change |
| StoreFacts.CalmDecides | crates/remediation/src/linux.rs:794-838 | while nothing was begun on what was not certain on disk, an item found pending is never given up |
| StoreRuns.Lifetime | crates/remediation/src/linux.rs:13-21 | any sequence of opens, quarantines, restores, deletes and power losses, each call able to fail or be where the process dies, beside files that are on disk or not: no promised file is lost unless a delete of it was asked for, with the bytes it had; promised are the files that were at the start and every item that a quarantine or a recovery answered to be quarantined; every record moves along its lifecycle only; an item is given up only if a call failed since the last open or an operation was begun on names or records not certain on disk and the store not settled since |
| StoreRuns.DiscardedExactlyWhen | crates/remediation/src/linux.rs:811-818 | a power loss can leave a pending item whose good copy recovery discards although the bytes of its file are gone exactly when item, copy and the file's name may be found so and the bytes of the file are not on disk |
| StoreRuns.DiscardedIsAtRisk | crates/remediation/src/linux.rs:299-322 | so that happens only to a file that was not on disk when it was copied, and only while its name may still come back |
| StoreWitness.UnsyncedIsDiscarded | crates/remediation/src/linux.rs:206-311 | and it does happen with no failing call, call by call from a fresh store, to a file that was not on disk, right before its unlink; to the same file on disk it does not |
| StoreRuns.FreshStoreIsSound | crates/remediation/src/linux.rs:96-160 | an empty store beside any files of a user, fsynced or not, under names that are on disk or not, is a state runs may start from; promised are the files that are on disk under a name that is |
| StoreRuns.GivenUpExactlyWhen | crates/remediation/src/linux.rs:794-838 | a power loss can leave a pending item with neither original nor copy exactly when the original's name is not yet certain on disk and the copy's name may be lost |
| StoreWitness.GivenUpIsReachable | crates/remediation/src/linux.rs:476-511 | and that happens with no failing call, call by call from a fresh store: quarantine, a restore that dies before its directory fsync, an open that finds nothing to do, a second quarantine up to its pending record |
| StoreWitness.BegunIsFresh | crates/remediation/src/linux.rs:96-160 | the states these runs begin in are ones a store may begin in |
| StoreRuns.ByNumberExactlyWhen | crates/remediation/src/linux.rs:794-807 | recovery, which knows files by device and inode number, answers as it should for every record and filesystem exactly when no number is used again |
| StoreReuse.ReuseLosesAFile | crates/remediation/src/linux.rs:794-807 | there is a state within the invariant in which recovery's own answer discards the last copy of a promised file exactly if two files have one number |
| StoreReuse.ReuseIsReachable | crates/remediation/src/linux.rs:253-352 | and it is reached, call by call from a fresh store and with no failing call: two quarantines, a death before the last fsync, an open that finds nothing to do, a restore under the other's name, a power loss |
| StoreRuns.DyingRestoreBlocks | crates/remediation/src/linux.rs:420-440 | wherever a restore would not be refused, dying right after making its temporary leaves a sound state in which the same restore is refused, and an fsync makes the temporary permanent |
| StoreRuns.RestoreStillRefused | crates/remediation/src/linux.rs:740-792 | any number of opens leaves that temporary, and the restore still is refused unless a call fails or the process dies |
| StoreWitness.DyingRestoreHappens | crates/remediation/src/linux.rs:420-472 | that state is reached, call by call, from a fresh store |
| StoreRuns.QuarantineThenRestore | crates/remediation/src/linux.rs:174-371 | quarantine then restore gives the same bytes under the same name, for any reads; and it does succeed if nothing forbids the quarantine, the restore's temporary has its name free, no call fails and the process lives |
| StoreRuns.OpenTwice | crates/remediation/src/linux.rs:740-792 | a second open changes no record, no file and no log line |
| ScanAccounting.WalkerAccounted | crates/engine/src/scanner.rs:569-641 | every step of the walker keeps each walked entry's result in exactly one place |
| ScanAccounting.WorkerAccounted | crates/engine/src/scanner.rs:657-701 | every step of a worker does |
| ScanAccounting.MainAccounted | crates/engine/src/scanner.rs:210-286 | every step of the coordinator does |
| ScanThreads.WorkerKeepsSelf | crates/engine/src/scanner.rs:657-701 | a worker that leaves for no fault leaves the queue empty and closed; its last message is on its way until the coordinator has it |
| ScanThreads.WorkerLoses | crates/engine/src/scanner.rs:674-701 | a result is lost only when the scan stops, a thread died or a worker was abandoned |
| ScanThreads.AbandonKeeps | crates/engine/src/scanner.rs:244-279 | abandoning a worker is counted and reported, and a replacement is spawned within the limit |
| ScanThreads.HeardKeeps | crates/engine/src/scanner.rs:215-228 | a thread is taken for finished only when its last message was handled, and a panic is remembered |
| ScanThreads.CountsKept | crates/engine/src/scanner.rs:549-556 | what is on the work queue has been counted in and not counted out, in every interleaving of queue and counters |
| ScanThreads.MainKeepsOrder | crates/engine/src/scanner.rs:215-228 | what a thread sent is heard before its end is, unless a worker was abandoned |
| ScanTheorems.StepKeeps | crates/engine/src/scanner.rs:128-339 | every step of every thread keeps the whole invariant |
| ScanTheorems.FullAccounting | crates/engine/src/scanner.rs:128-339 | in every interleaving, if the report is complete then every entry of the walk has exactly one Scanned or Skipped message handled, and entered folders none |
| ScanTheorems.CompletedAccounting | crates/engine/src/scanner.rs:289-339 | in every run from the start: a scan reported completed left nothing on the work queue, and if it abandoned nobody it heard the result of every entry exactly once |
| ScanLosses.CompletedMissesFew | crates/engine/src/scanner.rs:215-312 | in every run a scan reported completed missed at most as many entries as it abandoned workers, and those whose results were left in the channel |
| ScanTheorems.SpawnBound | crates/engine/src/scanner.rs:266-278 | at most twice the configured number of workers is ever spawned |
| ScanWitness.CompletedMayMiss | crates/engine/src/scanner.rs:244-251 | a completed scan may still have missed a file: the watchdog's read and write of a worker can be separated by that worker taking another file |
| ScanProgress.RankFalls | crates/engine/src/scanner.rs:215-286 | every step but a tick without message and a retry on the full queue uses up a bounded measure of the work left |
| ScanProgress.WorkRunsOut | crates/engine/src/scanner.rs:215-286 | the working steps of any run are bounded by the work at its start and its number of ticks |
| ScanProgress.WaitingIsNotStuck | crates/engine/src/scanner.rs:210-214 | whenever the coordinator waits on an empty channel some other thread can step, hung workers it gave up on not counted |
| ScanProgress.NeverStuck | crates/engine/src/scanner.rs:210-325 | before its end no reachable state is stuck: some step that uses up work is possible, a worker the watchdog gave up on not counted |
| ScanFairness.ChangesRunOut | crates/engine/src/scanner.rs:215-286 | whatever the ticks, at most as many steps change more than the coordinator's place in its loop as there is work at the start |
| ScanFairness.StallWorks | crates/engine/src/scanner.rs:244-279 | a worker that stays in one file is declared stalled and abandoned, unless other work is done first |
| ScanFairness.FairRunsExist | crates/engine/src/scanner.rs:210-325 | there are such runs, one that abandons a worker among them |
| ScanFairness.FairRunEnds | crates/engine/src/scanner.rs:210-325 | every fair run ends: if threads take the steps they can take, the coordinator goes on and the watchdog's clock does, the scan finishes, though workers may panic or never finish with a file |
| Aggregation.Aggregator.Skip | crates/engine/src/scanner.rs:1061-1083 | a skip is counted, in total and by reason; the list holds the first of them and the rest are counted as omitted |
| Aggregation.Aggregator.AddFinding | crates/engine/src/scanner.rs:1084-1096 | a finding is counted; the list holds the first of them and the rest are counted as omitted |
| Aggregation.Aggregator.AddIssue | crates/engine/src/scanner.rs:1097-1109 | an issue is counted; the list holds the first of them and the rest are counted as omitted |
| Aggregation.Aggregator.Handle | crates/engine/src/scanner.rs:1023-1060 | a message adds all that it reports, in order, to the totals and lists: list length plus omitted equals the statistic, what is in a list stays there, and a full list takes no more |
| ArchiveTheorems.ReadOnBound | crates/engine/src/archive.rs:246-291 | reading a member stops within one read of the budget |
| ArchiveTheorems.WholeExactlyWhen | crates/engine/src/archive.rs:246-299 | however it is cut into reads, a member is delivered whole, with exactly its bytes, iff it is intact and within both limits |
| ArchiveTheorems.MemberPays | crates/engine/src/archive.rs:211-313 | a member is charged what was read, delivered ones in full; no subtraction underflows |
| ArchiveTheorems.ExpandPays | crates/engine/src/archive.rs:127-209 | the whole recursion keeps to one budget, and running out is reported once |
| ArchiveTheorems.BombBudget | crates/engine/src/archive.rs:106-313 | members delivered from a file sum to at most the limit, all bytes decompressed to at most one read more, and the exhausted budget is reported exactly once |
| ArchiveTheorems.NestingLimit | crates/engine/src/archive.rs:301-312 | no chain is longer than the depth limit; a delivered member's chain is as long as it is deep |
| ArchiveTheorems.ExpandCovers | crates/engine/src/archive.rs:148-209 | every entry within the limit of every archive expanded has exactly one result, folders none, or the budget ran out and it has none |
| ArchiveTheorems.FullCoverage | crates/engine/src/archive.rs:106-209 | so for a file: unless the exhausted budget was reported, nothing within the limits is left out at any depth |
| ArchiveExpander.Expander.ReadMember | crates/engine/src/archive.rs:246-291 | the reading loop computes the member's bytes, what to keep of them, and the report and charge if it is cut short |
| ArchiveExpander.Expander.Member | crates/engine/src/archive.rs:211-313 | one member, its charge, its event and its own archive; stopped at any point it has reported a beginning of that |
| ArchiveExpander.Expander.Entry | crates/engine/src/archive.rs:171-207 | one entry; the chain of names is restored however it ends |
| ArchiveExpander.Expander.Entries | crates/engine/src/archive.rs:148-209 | the loop over the entries does what expansion means, or a beginning of it if stopped by cancellation or deadline |
| ArchiveExpander.Expander.Expand | crates/engine/src/archive.rs:127-209 | one archive, readable or not, with its entry limit |
| ArchiveExpander.Expander.ExpandFile | crates/engine/src/archive.rs:106-114 | for any file and any stop: the budget holds, and if not stopped nothing is left out |
| KeyTexts.BareIsLine | crates/engine/src/trust.rs:253-266 | a text that is base64 as it stands is its own key line, so if the first reading of a key finds an ID it is the one of the second |
| KeyTexts.SpaceHidesId | crates/engine/src/trust.rs:344-354 | a space before the text hides the ID from the first reading and changes nothing in the second |
| Trust.MeetAllows | crates/engine/src/trust.rs:360-375 | a restricted key allows what both its old and its new rights allow, and nothing else |
| Trust.OrderExactlyWhen | crates/engine/src/trust.rs:327-379 | adding the same keyring entries in any order gives every key the same rights exactly when no two entries of one key disagree: two with padded key texts give the same roles, and none with a padded text gives a role that one with a bare text withholds |
| Trust.AgainChangesNothing | crates/engine/src/trust.rs:327-379 | adding the same keyrings again changes nothing, padded texts included |
| Trust.NarrowsExactlyWhen | crates/engine/src/trust.rs:281-284 | entries leave a known key no more than it had exactly when each of its entries has a bare text, or the last that has not, with those after it, leaves only roles the key had, or one of the windows of the key and its entries begins after another ends or one of them is revoked |
| Trust.OpenExactlyWhen | crates/engine/src/trust.rs:366-375 | after entries there is a time at which a key may be used exactly if none of what it had and what they give is revoked and none begins after another has ended |
| Trust.FloorsAreHighest | crates/engine/src/trust.rs:312-326 | each bundle's floor is the highest any keyring gave it and never falls |
| KeySet.TrustedKeys.Revoke | crates/engine/src/trust.rs:237-248 | exactly the key with that ID is revoked, and whether there is one is returned |
| KeySet.TrustedKeys.AddKeyText | crates/engine/src/trust.rs:250-279 | a new key may sign content without limit; a known one is left as it is |
| KeySet.TrustedKeys.AddEntry | crates/engine/src/trust.rs:327-378 | an entry gives a new key its rights and meets them with those of a known one, whose roles it replaces if its text is not bare; known keys are left no more than they had exactly under the condition of NarrowsExactlyWhen; a bad entry is refused, and leaves its key behind exactly if nothing but its ID is wrong |
| KeySet.TrustedKeys.AddKeyring | crates/engine/src/trust.rs:281-380 | accepted exactly when well formed; then rights, threshold and floors are those of all entries in turn, and no known key has more exactly when each is narrowed; when refused, exactly what precedes the first bad part holds, and an entry refused only for its ID leaves its key with the rights of one given directly |
| KeySet.TrustedKeys.VerifyRole | crates/engine/src/trust.rs:413-447 | accepts exactly when a key holding the role made the signature, is not revoked and is inside its window; names the other cases |
| KeySet.KeyringsNarrowExactlyWhen | crates/engine/src/trust.rs:281-284 | after keyrings every signature by a key known before that is accepted, of anything and at any time, was accepted before, exactly under that condition |
| KeySet.PaddedTextWidens | crates/engine/src/trust.rs:344-366 | adding a keyring, which is accepted, with one entry that gives a key's text with a space before it lets that key sign content whenever it may be used at all, whatever its roles were |
| Bundle.Validate | crates/engine/src/bundle.rs:114-164 | accepts exactly the manifests that meet every structural rule, no path twice |
| Bundle.VerifySignatures | crates/engine/src/bundle.rs:294-347 | the signers are exactly the keys with a good signature, each once; success iff no signature file is broken and there are enough, with the errors for unsigned, unreadable and too few |
| Bundle.LoadBundle | crates/engine/src/bundle.rs:229-280 | a bundle loads exactly if its manifest is small enough, signed by enough keys, parsed from the exact bytes signed, well formed, not expired unless that is allowed, and every file is there with the listed size and hash; invalid, expired and bad file are reported exactly when all before them holds and they do not, the bad file being the first |
| Bundle.ThresholdIsReal | crates/engine/src/bundle.rs:298-347 | an accepted bundle has at least the threshold of different keys, each allowed to sign content then, none revoked |
| ContentState.ContentState.Check | crates/engine/src/content_state.rs:209-238 | a bundle passes exactly if it is not below the floor, not older than recorded, and not another manifest for the recorded release |
| ContentState.ContentState.CheckTimestamp | crates/engine/src/content_state.rs:244-266 | a timestamp passes exactly if it is no older than one seen and names no older bundle than accepted |
| ContentState.ContentState.Record | crates/engine/src/content_state.rs:288-318 | recording only ever adds: sequences never fall, revocations stay as first recorded, and a checked bundle is remembered |
| ContentState.ContentState.RecordTimestamp | crates/engine/src/content_state.rs:268-286 | recorded timestamp versions never fall |
| ContentState.StateStore.Replace | crates/engine/src/content_state.rs:320-344 | saving is an atomic replacement that can fail or die before or after the rename; reported success is durable |
| ContentState.ContentState.Save | crates/engine/src/content_state.rs:320-344 | after a save that succeeds every power loss leaves that state; after one that fails the file holds the old or the new |
| Sessions.LoadNext | crates/cli/src/content.rs:207-231 | each bundle is loaded with the keys left after all revocations so far, checked against the state, and given once |
| Sessions.LoadBundles | crates/cli/src/content.rs:182-252 | nothing accepted goes back on what was recorded; nothing is recorded unless every bundle loads; revocations bind later bundles of the same session |
| Sessions.RecordAll | crates/cli/src/content.rs:244-250 | all accepted bundles are remembered together with one save |
| Sessions.Update | crates/update/src/lib.rs:295-420 | an update is accepted only under a fresh timestamp by an unrevoked timestamp key that does not go back, and accepts exactly the manifest of the size and hash it names |
| Sessions.RememberedHolds | crates/engine/src/content_state.rs:209-238 | what a saved state remembers binds whatever the next session accepts |
| Sessions.RunSessions | crates/cli/src/content.rs:182-252 | over any sequence of sessions, failures and power losses: after a session that saved, no older release, no other manifest for the same one, no signer it revoked, no older timestamp is accepted |
| InstallNames.RecoveredExactlyWhen | crates/update/src/lib.rs:269-292 | after a recovery that can list and remove, a bundle that was kept is kept exactly if it was in place, its copy could be renamed back, or there was none; if the copy could not be renamed back it is removed |
| InstallNames.SparesExactlyWhen | crates/update/src/lib.rs:269-292 | the recoveries of two bundles keep each other's releases, in every directory, exactly when neither name is the other with a dash and more or reads as one of the other's copies or downloads |
| Installation.Installer.Recover | crates/update/src/lib.rs:269-292 | before an update: the copy of an interrupted one is put back and every other removed, as far as calls work; only entries with this bundle's name or prefixes change; kept bundles stay kept exactly as said |
| Installation.Installer.Swap | crates/update/src/lib.rs:397-411 | the two renames: the new bundle is in place exactly if both worked; else everything is as it was, or the old bundle is aside under its suffix |
| Installation.Installer.Update | crates/update/src/lib.rs:295-420 | if recovery can list and rename and no removal fails: the last installed release is in place or its only copy is aside; on success the new one is in place; on an error the old one is, exactly unless the save failed, or the second rename and its undoing both did; beyond what recovery does, only the names it makes change |
| Installation.Updates | crates/update/src/lib.rs:295-420 | over any number of updates of bundles in one directory, each failing or dying at any call while the machine runs on: if no two names clash, recovery can list and rename and no removal fails, every bundle stays kept |
| InstallPower.VanishesExactlyWhen | crates/update/src/lib.rs:397-411 | a power loss can leave a bundle neither in place nor set aside exactly when each of its names may come to refer to nothing |
| InstallPower.SwapSurvivesExactlyWhen | crates/update/src/lib.rs:397-418 | that is so from the first rename of a swap on, and still when the update has reported success, since the directory is never fsynced; before it, and with an fsync at any point, every power loss leaves the old release or the new one to be found |
| InstallWitness.ClashLoses | crates/update/src/lib.rs:277-291 | for any two names that clash there is a run in which every call works but for one process that dies, and at the end of which an update of the other bundle succeeds and the installed one is neither in place nor set aside |
| InstallWitness.ComesBackExactlyWhen | crates/update/src/lib.rs:283-286 | with copies left over, an update that dies between its renames is undone exactly when its own copy sorts after all of them |
| InstallWitness.CopyDeleted | crates/update/src/lib.rs:283-291 | a run in which the copy cannot be renamed back and the only copy of the installed bundle is removed |
| InstallWitness.OldReturns | crates/update/src/lib.rs:283-291 | a run in which a copy that could not be removed comes back instead of the last release, which is removed |
| InstallWitness.FailureInstalls | crates/update/src/lib.rs:412-420 | an update that reports failure may have installed its release |
| AuditChain.CutOnce | crates/remediation/src/audit.rs:136-157 | a log can be read as lines in one way only |
| AuditChain.WrittenLines | crates/remediation/src/audit.rs:103-118 | each written line holds its entry, numbered and chained to the line before, and the writer's head is the log's |
| AuditChain.WrittenVerifies | crates/remediation/src/audit.rs:103-118 | a log built by repeated encoding from genesis verifies, to the writer's own head, exactly when no line is longer than a reader accepts |
| AuditChain.LongLineExists | crates/remediation/src/audit.rs:103-118 | however entries are written, some action makes a line longer than any given limit |
| AuditChain.WrittenMayNotVerify | crates/remediation/src/audit.rs:103-157 | so there is a log the writer writes and no reader accepts |
| AuditLog.Log.Append | crates/remediation/src/linux.rs:993-1013 | an append puts the bytes that were written after those in the file, advances the head exactly if all were written and synced, and moves the log's state as stated |
| AuditLog.Log.Open | crates/remediation/src/linux.rs:137-142 | a log opens exactly if its file ends at the head the store held or one entry after it; the bytes are untouched |
| AuditLog.VerifiesExactlyWhen | crates/remediation/src/audit.rs:136-182 | in each of the four states a log can be in, whether its file is a chain |
| AuditLog.OpensExactlyWhen | crates/remediation/src/linux.rs:993-1013 | after any attempts, seen as how much each wrote, whether it succeeded and whether its line was too long, the log ends at the head the store holds or one entry after it exactly while each of them did no harm |
| AuditLog.AppendThenOpen | crates/remediation/src/linux.rs:993-1013 | any appends to a log just opened, each writing any part of its line, and then an open: it succeeds exactly if no append wrote only part of its line, or a line too long, or anything after one that failed having written all of its line |
| AuditLog.CodecExists | crates/remediation/src/audit.rs:103-118 | there are encodings of entries with the laws assumed of JSON |
| AuditChain.LineEnd | crates/remediation/src/audit.rs:144-157 | one bounded read of a line: up to its newline, the limit or the end |
| AuditChain.WalkChain | crates/remediation/src/audit.rs:136-182 | a log is accepted exactly if it is a chain numbered 1 to n with each prev the hash of the line before; the entries and head are those of that chain, an error names the first bad line |
| AuditChain.OneHashPinsHistory | crates/remediation/src/audit.rs:165-181 | two verified chains with one hash at a position are the same up to it, or two different lines with one hash are exhibited |
| Anchors.CompareAnchors | crates/remediation/src/anchors.rs:77-110 | the counts and lists are exactly the matching, conflicting, missing and foreign anchors, each sequence once, with the subtraction as 64-bit arithmetic does it |
| Anchors.OrderAndRepeatsDoNotMatter | crates/remediation/src/anchors.rs:77-110 | the outcome depends only on which anchors there are, up to list order |
| Anchors.ForeignAnyOrder | crates/remediation/src/anchors.rs:88-91 | the count of other chains' anchors depends on repetition but not on order |
| Anchors.ShortByTheDouble | crates/remediation/src/anchors.rs:108 | the unanchored count is the number of entries no anchor is about, less the entries with both a matching and a conflicting anchor, and 2^64 more exactly when those matched and those conflicting number more than the entries |
| Anchors.ConservesExactlyWhen | crates/remediation/src/anchors.rs:108 | matched, mismatched and unanchored add up to the entries, the last being the entries no anchor is about, exactly when no entry has both a matching and a conflicting anchor |
| Anchors.BothWrap | crates/remediation/src/anchors.rs:108 | with both, one entry is reported as 2^64-1 unanchored ones |
| Anchors.HonestNeverAlarms | crates/remediation/src/anchors.rs:69-75 | anchors of entries that are still there raise no alarm, whatever other chains' anchors are among them |
| Anchors.AnchorsPinHistory | crates/remediation/src/anchors.rs:77-110 | equal chain identifiers, every entry anchored and a consistent comparison mean the anchored chain is a prefix, or two different lines with one hash are exhibited |
| AnchorText.ParseAnchor | crates/remediation/src/anchors.rs:23-46 | the anchor is what the fields after the first tag say, and nothing if one has no value |
| AnchorText.LineFields | crates/remediation/src/common.rs:55-75 | whatever the action and outcome, a line's fields are its sequence, hash and chain |
| AnchorText.AnchorTextRoundTrip | crates/remediation/src/common.rs:55-75 | a message whose first tag begins an anchor line reads back as that line's sequence, hash and chain, for every action and outcome |
| Jobs.SubmitKeeps | crates/service/src/jobs.rs:127-170 | submitting keeps queue, specs, cancel flags, table and start order in agreement |
| Jobs.WithdrawKeeps | crates/service/src/jobs.rs:199-210 | cancelling a queued job does |
| Jobs.BeginKeeps | crates/service/src/jobs.rs:232-247 | starting one does |
| Jobs.EndKeeps | crates/service/src/jobs.rs:256-266 | finishing one does |
| Jobs.Manager.constructor | crates/service/src/jobs.rs:86-107 | a restart keeps every finished job as its record says and fails every other as interrupted; whether those records could be written is remembered |
| Jobs.Manager.Submit | crates/service/src/jobs.rs:127-170 | refused while stopping, when the queue is full or the record cannot be written, changing nothing; otherwise queued last |
| Jobs.Manager.Cancel | crates/service/src/jobs.rs:193-215 | a running job is flagged, a queued one leaves the queue for good whether or not its record could be written, any other is refused |
| Jobs.Manager.Shutdown | crates/service/src/jobs.rs:217-226 | nothing is accepted or started any more and every running job is flagged |
| Jobs.Manager.Take | crates/service/src/jobs.rs:228-254 | the oldest queued job starts, with its spec, unless the service is stopping |
| Jobs.Manager.Finish | crates/service/src/jobs.rs:255-273 | the job gets its final state, its flag goes, and old jobs are pruned in the same critical section |
| Jobs.Manager.Prune | crates/service/src/store.rs:161-173 | only finished jobs are removed, none while there are no more than the limit, and at least the limit stay |
| Jobs.RunningBound | crates/service/src/jobs.rs:114-117 | cancel flags are those of the running jobs, never more than there are workers |
| Jobs.StartedInOrder | crates/service/src/jobs.rs:232-247 | jobs start in submission order, each at most once, none after it was cancelled in the queue |
| Jobs.RestartKept | crates/service/src/jobs.rs:86-107 | over a restart a finished job whose last save succeeded is unchanged, one whose last save failed comes back failed and interrupted, none comes back that was removed, and the order of submission and starts stands |
| Jobs.Interleave | crates/service/src/jobs.rs:86-274 | under any interleaving of clients, workers, shutdown, pruning, restarts and power losses the tables agree and no job starts twice, out of order or after it was cancelled in the queue; while the power is not lost, a finished job still listed is in the same state unless there was a restart, its last save had failed and it had not failed anyway |
| Jobs.LossKeepsExactlyWhen | crates/service/src/store.rs:77-91 | a finished job is in the same state after a power loss and a restart, whatever the loss leaves, exactly if since the last one its record was on disk throughout and never an unfinished one, or the job had failed and its record was there throughout |
| Jobs.ReturnsExactlyWhen | crates/service/src/store.rs:161-173 | a pruned job comes back after a power loss exactly if a record of it was written or on disk since the last one |
| Jobs.SavedIsForgotten | crates/service/src/store.rs:77-91 | a job whose cancel was saved and reported with success comes back as failed after a power loss, or not at all |
| Jobs.CancelIsForgotten | crates/service/src/jobs.rs:199-210 | a job cancelled with success reported comes back as failed after a restart if its record could not be written |

## Left out

- SHA-256, minisign signatures, JSON, ZIP directories and decompression: functions left open, with the laws used stated where they are used (a written JSON line reads back and holds no newline; a member is a finite list of reads that may end in an error; a key verifies only signatures that name its ID).
- The audit log inside the journal: appending a line is atomic there; the chain is modelled at byte level in `AuditChain`, and appends that write part of a line, with the open that then refuses, in `AuditLog`.
- StoreRuns.Lifetime: assumes that no device and inode number is used again, because without that it is false (`StoreReuse.ReuseLosesAFile`); truncating a stale record temporary is modelled as a new file.
- Path resolution, symbolic links, ownership and permission checks of the store: parameters of a request (`allowed`, `safe`); modes, owners, times, the actor and notes of a record are not modelled.
- Other programs that change a name or a file while the store works on it.
- Processes that run the file: listing, pausing and killing them has no effect on names or files.
- Interrupted system calls that are retried are part of one read or write; a call that fails has done nothing (what a failing write leaves behind stays in a temporary that is never used).
- Fault handling in `linux.rs` for tests, the allow-list, listing, and sending anchors to the system log.
- `crates/remediation/src/windows.rs`: the same journal with other primitives.
- ScanProtocol: the loops of the three kinds of threads are steps of one machine and not methods, because the claims are about their interleaving; the scan of one file is one step with any outcome the source allows.
- Messages, texts and sorting of the final report; they change no count.
- Aggregation.Aggregator.Handle: does not model the progress callback, because it only observes.
- ArchiveTheorems.FullCoverage: says nothing about the inside of nested archives above the content limit, because the expander delivers those without content and does not look into them.
- ArchiveExpander.Expander.ReadMember: does not model the retry of an interrupted read, because it only repeats the check for cancellation and deadline.
- KeySet.TrustedKeys.AddKeyText: how the signature library reads the key in a line is left open; the line itself and its base64 are modelled in `KeyTexts`, white space outside ASCII is not.
- Bundle.LoadBundle: reading files below the bundle's directory is a lookup by path, and a signature file above its size limit is one that cannot be read.
- Sessions.Update: downloading into a staging directory is one step with any content; the directory and the swap that follows are in `Installation`, where a download takes two calls.
- Installation.Updates: the process may die at any call, but the machine does not lose power, because the claim is false then from the first rename on (`InstallPower.SwapSurvivesExactlyWhen`); bundles named `.` or `..`, which are no entries of the directory, are not modelled.
- InstallPower.SwapSurvivesExactlyWhen: speaks of one swap that works and not of any sequence of updates, because one is enough to lose the bundle.
- AuditLog.Log.Append: assumes of JSON that a text which begins as a line does and goes on to end with a whole line is not read.
- ScanFairness.FairRunEnds: time is not modelled; that a file's time limit passes is the hypothesis that the watchdog finds a worker stalled that stays in one file.
- Sessions.LoadBundles: building detectors is a step that may refuse a bundle.
- AuditChain.Encode: sequence numbers do not wrap at 64 bits, because a log that long cannot be written.
- Jobs.Manager.Prune: does not say which finished jobs go first, because the source passes them in the order of their random IDs and not of their age.
- Jobs.Manager.Take: waiting on the condition variable is not modelled; a worker that finds nothing to do takes nothing.
- Jobs.Interleave: says nothing of a job's state over a power loss, because any may be lost then; `Jobs.LossKeepsExactlyWhen` says which. Records that cannot be read are not modelled.
- Jobs.Manager.constructor: times of creation, start and finish are not modelled.
- Running a job's child process, its report and its remediation: any final state and details.
- `crates/service/src/schedule.rs`, the service endpoint and framing, configuration, detectors, heuristics, file-format parsing, system checks, command-line rendering and the graphical interface.
- Hex codecs, text escaping and the authorisation table: true but easy.
