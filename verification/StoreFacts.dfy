/** What the methods of the quarantine store promise, and the facts they use. */
module StoreFacts {
  import opened Wrappers
  import opened FileSystem
  import opened Cipher
  import opened Journal
  import opened JournalSteps
  import opened StoreCalls

  /** `Crash` is the process dying inside the method. */
  datatype Error =
    | Crash | Io | Missing | AlreadyThere | TooLarge | HardLinked | FileChanged | Replaced
    | Corrupt | InvalidState | UnknownItem | Protected | InsideStore | UnsafeTarget | TargetExists

  function ErrorOf(c: Call): (e: Error)
    requires !c.Done?
  {
    if c.Crashed? then Crash else Io
  }

  /** Unless the process died or a call failed, a method does what it is for
      exactly when there is no reason to refuse, and else says which. */
  predicate Answered<T>(r: Result<T, Error>, refusal: Option<Error>) {
    match r
    case Ok(_) => refusal == None
    case Err(e) => e == Crash || refusal == Some(e)
  }

  /** `allowed` is whether the path policy lets this file be quarantined. */
  datatype Request = Request(loc: Loc, expected: Option<Digest>, maxSize: nat, allowed: bool)

  function NamesOf(id: Id): (s: set<Loc>) {
    {RecordAt(id), RecordTmpAt(id), DataAt(id), DataTmpAt(id)}
  }

  /** Those of `s` that nothing is under. */
  function FreeOf(fs: Fs, s: set<Loc>): (free: set<Loc>) {
    set l | l in s && l !in fs.view
  }

  // ---- Refusals.

  /** Why a file may not be quarantined, before anything is done. */
  ghost function InspectRefusal(fs: Fs, req: Request): (e: Option<Error>) {
    if !req.allowed then Some(Protected)
    else if !InFolder(req.loc) then Some(InsideStore)
    else if req.loc !in fs.view then Some(Missing)
    else if |BytesOf(fs, fs.view[req.loc])| > req.maxSize then Some(TooLarge)
    else if exists l :: l in fs.view && l != req.loc && fs.view[l] == fs.view[req.loc] then Some(HardLinked)
    else None
  }

  ghost function QuarantineRefusal(fs: Fs, sha: Bytes -> Digest, req: Request, id: Id): (e: Option<Error>) {
    if InspectRefusal(fs, req).Some? then InspectRefusal(fs, req)
    else CopyRefusal(fs, sha, Get(fs.view, req.loc).value, req, id)
  }

  function CopyRefusal(fs: Fs, sha: Bytes -> Digest, src: Ino, req: Request, id: Id): (e: Option<Error>) {
    if DataTmpAt(id) in fs.view then Some(AlreadyThere)
    else if |BytesOf(fs, src)| > req.maxSize then Some(TooLarge)
    else if req.expected.Some? && req.expected.value != sha(BytesOf(fs, src)) then Some(FileChanged)
    else None
  }

  function RestoreDir(rec: Record, dest: Option<string>): (d: Dir) {
    if dest.Some? then Folder(dest.value) else rec.core.origin.dir
  }

  function TargetOf(rec: Record, dest: Option<string>): (l: Loc) {
    At(RestoreDir(rec, dest), rec.core.origin.name)
  }

  function RestoreTmpOf(rec: Record, dest: Option<string>): (l: Loc) {
    At(RestoreDir(rec, dest), RestoreTmp(rec.core.id))
  }

  /** Why an item may not be given back. */
  function RestoreRefusal(fs: Fs, id: Id, dest: Option<string>, safe: bool): (e: Option<Error>) {
    if RecordSeen(fs, id).None? then Some(UnknownItem)
    else
      var rec := RecordSeen(fs, id).value;
      if rec.state != Quarantined then Some(InvalidState)
      else if !safe then Some(UnsafeTarget)
      else DecodeRefusal(fs, rec, RestoreTmpOf(rec, dest), TargetOf(rec, dest))
  }

  function DecodeRefusal(fs: Fs, rec: Record, tmp: Loc, target: Loc): (e: Option<Error>) {
    if tmp in fs.view then Some(AlreadyThere)
    else if DataAt(rec.core.id) !in fs.view then Some(Missing)
    else if target in fs.view then Some(TargetExists)
    else None
  }

  function DeleteRefusal(fs: Fs, id: Id): (e: Option<Error>) {
    if RecordSeen(fs, id).None? then Some(UnknownItem)
    else if RecordSeen(fs, id).value.state != Quarantined then Some(InvalidState)
    else None
  }

  // ---- Outcomes.

  /** The file that was at the requested name is now readable only by decoding
      the item's copy, and nothing else has changed. */
  ghost predicate QuarantineDone(before: Fs, after: Fs, sha: Bytes -> Digest, req: Request, id: Id, key: Bytes, rec: Record) {
    && req.loc in before.view
    && (var bytes := BytesOf(before, before.view[req.loc]);
        && |bytes| <= req.maxSize
        && (req.expected.Some? ==> req.expected.value == sha(bytes))
        && rec == Record(Core(id, req.loc, before.view[req.loc], |bytes|, sha(bytes), key), Quarantined, None)
        && RecordSeen(after, id) == Some(rec)
        && CopySeen(after, id, key) == Some(bytes))
    && req.loc !in after.view && DataTmpAt(id) !in after.view && RecordTmpAt(id) !in after.view
  }

  /** The bytes of the quarantined file are under a name that was free, and the
      record is closed. */
  ghost predicate RestoreDone(before: Fs, after: Fs, id: Id, dest: Option<string>, target: Loc) {
    && RecordSeen(before, id).Some?
    && (var rec := RecordSeen(before, id).value;
        && rec.state == Quarantined && target == TargetOf(rec, dest)
        && target !in before.view && target in after.view
        && CopySeen(before, id, rec.core.key) == Some(BytesOf(after, after.view[target]))
        && RecordSeen(after, id) == Some(rec.(state := Restored, restoredTo := Some(target))))
    && DataAt(id) !in after.view
  }

  /** The names a restore may touch: the item's own and, where they are free, the
      temporary and the target. */
  function RestoreNames(fs: Fs, id: Id, dest: Option<string>): (names: set<Loc>) {
    NamesOf(id) + if RecordSeen(fs, id).None? then {}
                  else FreeOf(fs, {RestoreTmpOf(RecordSeen(fs, id).value, dest), TargetOf(RecordSeen(fs, id).value, dest)})
  }

  /** Outside the store's own directory, names are as they were and no crash can
      change more of them, and what users' names refer to has its bytes; files that
      had reached the disk are as they were. */
  ghost predicate StoreOnly(before: Fs, after: Fs) {
    && (forall l: Loc :: l.dir != Items ==> Get(after.view, l) == Get(before.view, l))
    && (forall l: Loc, v :: l.dir != Items && MayHold(after, l, v) ==> MayHold(before, l, v))
    && FilesKept(before, after)
    && (forall l :: InFolder(l) && l in before.view && before.view[l] in before.files ==>
          before.view[l] in after.files && after.files[before.view[l]].content == before.files[before.view[l]].content)
  }

  /** What recovery must answer for an item found pending. */
  function Decision(fs: Fs, sha: Bytes -> Digest, rec: Record): (d: ItemState) {
    if Get(fs.view, rec.core.origin) == Some(rec.core.ino) then RolledBack
    else if CopySeen(fs, rec.core.id, rec.core.key).Some?
            && sha(CopySeen(fs, rec.core.id, rec.core.key).value) == rec.core.sha256 then Quarantined
    else ItemState.Failed
  }

  /** `found` are records seen pending, no two of one item. */
  ghost predicate Lists(fs: Fs, found: seq<Record>) {
    && (forall k :: 0 <= k < |found| ==> RecordSeen(fs, found[k].core.id) == Some(found[k]) && found[k].state == Pending)
    && (forall j, k :: 0 <= j < k < |found| ==> found[j].core.id != found[k].core.id)
  }

  predicate Temporary(l: Loc) {
    l.dir == Items && (l.name.RecordTmp? || l.name.DataTmp?)
  }

  /** A temporary of `items/` that belongs to no record. */
  predicate Stray(fs: Fs, l: Loc) {
    && l.dir == Items
    && (l.name.RecordTmp?
        || (l.name.DataTmp?
            && (RecordSeen(fs, l.name.id) == None || RecordSeen(fs, l.name.id).value.core.id != l.name.id)))
  }

  /** No crash can change what record is read. */
  ghost predicate RecordsSynced(fs: Fs) {
    forall id, v :: MayHold(fs, RecordAt(id), v) ==> v == Get(fs.view, RecordAt(id))
  }

  /** No item is seen pending. */
  ghost predicate NonePending(fs: Fs) {
    forall id :: StateSeen(fs, id) != Some(Pending)
  }

  /** No item seen pending is of this file under this name. */
  ghost predicate Unclaimed(fs: Fs, l: Loc, i: Ino) {
    forall id :: StateSeen(fs, id) == Some(Pending) ==>
      RecordSeen(fs, id).value.core.origin != l || RecordSeen(fs, id).value.core.ino != i
  }

  /** A quarantine of `l` relies on a name that a power loss can still take away,
      or on a file that another item already claims. */
  ghost predicate Doubtful(fs: Fs, l: Loc) {
    l in fs.view && (!Stable(fs, l, fs.view[l]) || !Unclaimed(fs, l, fs.view[l]))
  }

  function RecoverEvent(id: Id, outcome: ItemState): (e: Event) {
    Event("recover", Some(id), outcome != ItemState.Failed)
  }

  function RecoverEvents(recovered: seq<(Id, ItemState)>): (es: seq<Event>) {
    seq(|recovered|, i requires 0 <= i < |recovered| => RecoverEvent(recovered[i].0, recovered[i].1))
  }

  /** Recovery leaves no item pending and the rest alone; if no call failed it
      decides as it must those found pending; it gives one up only if there is
      something to `blame`. */
  ghost predicate ResolvedFrom(before: Fs, after: Fs, sha: Bytes -> Digest, id: Id, clean: bool, blame: bool) {
    && StateSeen(after, id) != Some(Pending)
    && (StateSeen(before, id) != Some(Pending) ==> RecordSeen(after, id) == RecordSeen(before, id))
    && (clean && StateSeen(before, id) == Some(Pending) ==>
          StateSeen(after, id) == Some(Decision(before, sha, RecordSeen(before, id).value)))
    && (StateSeen(before, id) == Some(Pending) && StateSeen(after, id) == Some(ItemState.Failed) ==> blame)
  }

  ghost predicate AllResolved(before: Fs, after: Fs, sha: Bytes -> Digest, clean: bool, blame: bool) {
    forall id :: ResolvedFrom(before, after, sha, id, clean, blame)
  }

  /** Nothing an open would change. */
  ghost predicate NothingToDo(fs: Fs) {
    NonePending(fs) && forall l :: l in fs.view ==> !Stray(fs, l)
  }

  // ---- Facts the methods use.

  /** Once records are on disk as read, an item may be found pending only if it
      is seen so. */
  lemma OnlySeenPending(fs: Fs, g: Ledger, sha: Bytes -> Digest, id: Id)
    requires Sound(fs, g, sha) && RecordsSynced(fs) && MayBePending(fs, id)
    ensures StateSeen(fs, id) == Some(Pending) && id in g.cores && RecordSeen(fs, id).value.core == g.cores[id]
  {
    var j :| MayHold(fs, RecordAt(id), Some(j)) && j in fs.files && fs.files[j].content.Json?
             && fs.files[j].content.rec.state == Pending;
    assert IsRecord(fs, g, id, j);
  }

  /** A new item of a file that none claims has no rival. */
  lemma UnclaimedNoRival(before: Fs, after: Fs, g: Ledger, g': Ledger, sha: Bytes -> Digest, except: set<Loc>, id: Id)
    requires Sound(before, g, sha) && Sound(after, g', sha) && RecordsSynced(after) && id in g'.cores
    requires Unclaimed(before, g'.cores[id].origin, g'.cores[id].ino) && Undisturbed(before, after, except)
    requires forall k :: k != id ==> RecordAt(k) !in except
    ensures NoRival(after, g', id)
  {
    forall k | MayBePending(after, k) && k in g'.cores && SameFile(g'.cores[k], g'.cores[id])
      ensures k == id
    {
      OnlySeenPending(after, g', sha, k);
      if k != id {
        UndisturbedSeen(before, after, g, sha, except, k);
      }
    }
  }

  lemma NoRivalStays(before: Fs, after: Fs, g: Ledger, sha: Bytes -> Digest, except: set<Loc>, id: Id)
    requires Sound(before, g, sha) && NoRival(before, g, id) && Undisturbed(before, after, except)
    requires forall k :: k != id ==> RecordAt(k) !in except
    ensures NoRival(after, g, id)
  {
    forall k | k != id
      ensures MayBePending(after, k) ==> MayBePending(before, k)
    {
      NotPendingStays(before, after, g, sha, except, k);
    }
  }

  lemma NotPendingStays(a: Fs, b: Fs, g: Ledger, sha: Bytes -> Digest, except: set<Loc>, id: Id)
    requires Sound(a, g, sha) && Undisturbed(a, b, except) && RecordAt(id) !in except
    ensures MayBePending(b, id) ==> MayBePending(a, id)
  {
    if MayBePending(b, id) {
      var j :| MayHold(b, RecordAt(id), Some(j)) && j in b.files && b.files[j].content.Json?
               && b.files[j].content.rec.state == Pending;
      assert MayHold(a, RecordAt(id), Some(j));
      assert IsRecord(a, g, id, j);
    }
  }

  lemma UnclaimedStays(a: Fs, b: Fs, g: Ledger, sha: Bytes -> Digest, except: set<Loc>, l: Loc, i: Ino)
    requires Sound(a, g, sha) && Undisturbed(a, b, except) && forall id :: RecordAt(id) !in except
    requires Unclaimed(a, l, i)
    ensures Unclaimed(b, l, i)
  {
    forall id
      ensures RecordSeen(b, id) == RecordSeen(a, id)
    {
      UndisturbedSeen(a, b, g, sha, except, id);
    }
  }

  /** Once its record says something else for good, no item is pending if none
      else was. */
  lemma DecidedIsSettled(before: Fs, after: Fs, g: Ledger, sha: Bytes -> Digest, except: set<Loc>, id: Id)
    requires Sound(before, g, sha) && NonePending(before) && Undisturbed(before, after, except)
    requires forall k :: k != id ==> RecordAt(k) !in except
    requires RecordsSynced(after) && StateSeen(after, id) != Some(Pending)
    ensures Settled(after)
  {
    hide Sound, Undisturbed, MayBePending, RecordsSynced, RecordSeen;
    forall k
      ensures StateSeen(after, k) != Some(Pending)
    {
      if k != id {
        UndisturbedSeen(before, after, g, sha, except, k);
        assert StateSeen(before, k) != Some(Pending);
      }
    }
    SyncedIsSettled(after);
  }

  /** The directory's names are on disk as read. */
  lemma ItemsSynced(fs: Fs)
    requires forall l: Loc, v :: l.dir == Items && MayHold(fs, l, v) ==> v == Get(fs.view, l)
    ensures RecordsSynced(fs)
  {
  }

  lemma StoreOnlyFrom(a: Fs, b: Fs, except: set<Loc>)
    requires Undisturbed(a, b, except) && forall l :: l in except ==> l.dir == Items
    ensures StoreOnly(a, b)
  {
  }

  lemma StoreOnlyThen(a: Fs, b: Fs, c: Fs)
    requires StoreOnly(a, b) && StoreOnly(b, c)
    ensures StoreOnly(a, c)
  {
    forall l | InFolder(l) && l in a.view && a.view[l] in a.files
      ensures a.view[l] in c.files && c.files[a.view[l]].content == a.files[a.view[l]].content
    {
      assert Get(b.view, l) == Get(a.view, l);
    }
  }

  lemma ExtendsSelf(g: Ledger)
    ensures Extends(g, g)
  {
  }

  /** What was under `l` has its bytes, if it is still there. */
  ghost predicate KeptOrGone(before: Fs, after: Fs, l: Loc) {
    l in before.view && Get(after.view, l) == Get(before.view, l) ==>
      BytesOf(after, before.view[l]) == BytesOf(before, before.view[l])
  }

  lemma UndisturbedKept(a: Fs, b: Fs, except: set<Loc>, l: Loc)
    requires WellFormed(a) && Undisturbed(a, b, except) && InFolder(l) && l !in except
    ensures KeptOrGone(a, b, l)
  {
    assert MayHold(a, l, Get(a.view, l));
  }

  lemma GoneIsKept(a: Fs, b: Fs, l: Loc)
    ensures KeptOrGone(a, a, l)
    ensures l !in b.view ==> KeptOrGone(a, b, l)
  {
  }

  lemma KeptOrGoneThen(a: Fs, b: Fs, c: Fs, l: Loc)
    requires KeptOrGone(a, b, l) && KeptOrGone(b, c, l) && Get(b.view, l) == Get(a.view, l)
    ensures KeptOrGone(a, c, l)
  {
  }

  /** At most `o` is promised anew, and it is if `done`. */
  ghost predicate Promises(before: set<Original>, after: set<Original>, o: Original, done: bool) {
    (after == before || after == before + {o}) && (done ==> o in after)
  }

  /** The ledger has changed by promises alone. */
  ghost predicate OnlyPromises(g: Ledger, g': Ledger) {
    g' == g.(owed := g'.owed) && g.owed <= g'.owed
  }

  /** What recovery answered `quarantined` for is promised. */
  ghost predicate KeptPromised(g: Ledger, recovered: seq<(Id, ItemState)>) {
    forall k :: 0 <= k < |recovered| && recovered[k].1 == Quarantined ==> Promised(g, recovered[k].0)
  }

  lemma OneMoreKept(g: Ledger, g': Ledger, recovered: seq<(Id, ItemState)>, id: Id, outcome: ItemState)
    requires KeptPromised(g, recovered) && OnlyPromises(g, g')
    requires outcome == Quarantined ==> Promised(g', id)
    ensures KeptPromised(g', recovered + [(id, outcome)])
  {
  }

  /** Once an item's record says quarantined for good, its copy is there for
      good and recovery keeps it. */
  lemma QuarantinedIsKept(fs: Fs, g: Ledger, sha: Bytes -> Digest, id: Id)
    requires Sound(fs, g, sha) && id in g.source && id in g.cores
    requires forall l: Loc, v :: l.dir == Items && MayHold(fs, l, v) ==> v == Get(fs.view, l)
    requires DataAt(id) in fs.view && StateSeen(fs, id) == Some(Quarantined)
    ensures DataCopy(fs, g, g.source[id], id) && !AtRisk(fs, g, id)
  {
    SettledNames(fs, DataAt(id));
    assert RecordAt(id) in fs.view && RecordAt(id).dir == Items;
  }

  /** The bytes of item `id` are promised. */
  ghost predicate Promised(g: Ledger, id: Id) {
    id in g.source && g.source[id] in g.owed
  }

  lemma ExtendsOwed(g: Ledger, g': Ledger, owed: set<Original>)
    requires Extends(g, g')
    ensures Extends(g, g'.(owed := owed))
  {
  }

  /** The bytes that were under `l` are promised as those of item `id`. */
  ghost predicate PromisedFrom(before: Fs, l: Loc, g: Ledger, id: Id) {
    l in before.view && Promised(g, id) && ItemBytes(g, id) == BytesOf(before, before.view[l])
  }

  lemma QuarantineDoneIs(before: Fs, after: Fs, sha: Bytes -> Digest, req: Request, id: Id, key: Bytes, rec: Record, bytes: Bytes)
    requires req.loc in before.view && bytes == BytesOf(before, before.view[req.loc]) && |bytes| <= req.maxSize
    requires req.expected.Some? ==> req.expected.value == sha(bytes)
    requires rec == Record(Core(id, req.loc, before.view[req.loc], |bytes|, sha(bytes), key), Quarantined, None)
    requires RecordSeen(after, id) == Some(rec) && CopySeen(after, id, key) == Some(bytes)
    requires req.loc !in after.view && DataTmpAt(id) !in after.view && RecordTmpAt(id) !in after.view
    ensures QuarantineDone(before, after, sha, req, id, key, rec)
  {
  }

  lemma PromisedFromIs(before: Fs, l: Loc, g: Ledger, id: Id)
    requires l in before.view && id in g.source && g.source[id] in g.owed
    requires ItemBytes(g, id) == BytesOf(before, before.view[l])
    ensures PromisedFrom(before, l, g, id)
  {
  }

  lemma ItemBytesSame(g: Ledger, g': Ledger, id: Id)
    requires g' == g.(owed := g'.owed)
    ensures ItemBytes(g', id) == ItemBytes(g, id)
  {
  }

  lemma WithItemIs(g: Ledger, c: Core, bytes: Bytes)
    ensures var g' := WithItem(g, c, bytes);
            && g'.lineage == g.lineage && g'.owed == g.owed && c.id in g'.source
            && g'.source[c.id] == SourceOf(g, c.ino, c.id) && c.id in g'.cores && g'.cores[c.id] == c
            && g'.cores.Keys == g.cores.Keys + {c.id}
  {
  }

  lemma ExtendsByFile(g: Ledger, i: Ino, o: Original)
    requires i !in g.lineage
    ensures Extends(g, g.(lineage := g.lineage[i := o]))
  {
  }

  lemma MaskSoFar(key: Bytes, stored: Bytes, bytes: Bytes, total: nat, n: nat)
    requires |key| == KEY_LEN && |bytes| >= |DATA_MAGIC| && stored == bytes[|DATA_MAGIC|..] && total + n <= |stored|
    ensures Mask(key, 0, stored[..total + n])
         == Mask(key, 0, stored[..total]) + Mask(key, total, bytes[|DATA_MAGIC| + total..|DATA_MAGIC| + total + n])
  {
    assert stored[..total + n] == stored[..total] + stored[total..total + n];
    assert stored[total..total + n] == bytes[|DATA_MAGIC| + total..|DATA_MAGIC| + total + n];
    MaskPieces(key, 0, stored[..total], stored[total..total + n]);
  }

  lemma MaskNothing(key: Bytes, bytes: Bytes)
    requires |key| == KEY_LEN
    ensures Mask(key, 0, bytes[..0]) == []
  {
  }

  lemma EncodedNothing(key: Bytes, bytes: Bytes)
    requires |key| == KEY_LEN
    ensures Encoded(key, bytes[..0]) == [] + DATA_MAGIC
  {
  }

  lemma EncodedSoFar(key: Bytes, bytes: Bytes, total: nat, n: nat)
    requires |key| == KEY_LEN && total + n <= |bytes|
    ensures bytes[..total + n] == bytes[..total] + bytes[total..total + n]
    ensures Encoded(key, bytes[..total + n]) == Encoded(key, bytes[..total]) + Mask(key, total, bytes[total..total + n])
  {
    hide Mask;
    assert bytes[..total + n] == bytes[..total] + bytes[total..total + n];
    MaskPieces(key, 0, bytes[..total], bytes[total..total + n]);
    Associative(DATA_MAGIC, Mask(key, 0, bytes[..total]), Mask(key, total, bytes[total..total + n]));
  }

  lemma Associative(a: Bytes, b: Bytes, c: Bytes)
    ensures a + b + c == a + (b + c)
  {
  }

  lemma ViewIsFile(fs: Fs, l: Loc)
    requires WellFormed(fs) && l in fs.view
    ensures fs.view[l] in fs.files
  {
    assert MayHold(fs, l, Get(fs.view, l));
  }

  lemma SeenIsKnown(fs: Fs, g: Ledger, sha: Bytes -> Digest, rec: Record)
    requires Sound(fs, g, sha) && RecordSeen(fs, rec.core.id) == Some(rec) && rec.core.id in g.cores
    ensures rec.core == g.cores[rec.core.id] && rec.core.id in g.source && InFolder(rec.core.origin)
    ensures rec.state == Pending ==> MayBePending(fs, rec.core.id)
    ensures |rec.core.key| == KEY_LEN && rec.core.sha256 == sha(ItemBytes(g, rec.core.id))
  {
    var l := RecordAt(rec.core.id);
    assert MayHold(fs, l, Get(fs.view, l));
    assert IsRecord(fs, g, rec.core.id, fs.view[l]);
  }

  lemma SettledNames(fs: Fs, l: Loc)
    requires forall k: Loc, v :: k.dir == Items && MayHold(fs, k, v) ==> v == Get(fs.view, k)
    requires l.dir == Items && l in fs.view
    ensures l in fs.disk && Stable(fs, l, fs.disk[l]) && fs.disk[l] == fs.view[l]
    ensures forall k: Loc :: k.dir == Items && k in fs.view ==> !MayHold(fs, k, None)
  {
    assert MayHold(fs, l, Get(fs.disk, l));
  }

  lemma UnusedIsAbsent(fs: Fs, g: Ledger, sha: Bytes -> Digest, id: Id)
    requires Sound(fs, g, sha) && id !in g.cores
    ensures Absent(fs, DataAt(id)) && RecordSeen(fs, id) == None
  {
    assert forall j :: MayHold(fs, DataAt(id), Some(j)) ==> IsCopy(fs, g, id, j);
    assert forall j :: MayHold(fs, RecordAt(id), Some(j)) ==> IsRecord(fs, g, id, j);
    assert MayHold(fs, RecordAt(id), Get(fs.view, RecordAt(id)));
  }

  lemma UndisturbedName(a: Fs, b: Fs, except: set<Loc>, l: Loc)
    requires Undisturbed(a, b, except) && l !in except
    ensures Get(b.view, l) == Get(a.view, l)
  {
  }

  lemma UndisturbedNames(a: Fs, b: Fs, except: set<Loc>)
    requires Undisturbed(a, b, except)
    ensures forall l :: l !in except ==> Get(b.view, l) == Get(a.view, l)
  {
  }

  lemma UndisturbedKeys(a: Fs, b: Fs, except: set<Loc>, i: Ino)
    requires Undisturbed(a, b, except) && i in a.files
    ensures i in b.files
  {
  }

  lemma UndisturbedCopy(a: Fs, b: Fs, g: Ledger, except: set<Loc>, id: Id)
    requires Undisturbed(a, b, except) && DataAt(id) !in except && RecordAt(id) !in except
    requires id in g.source && DataCopy(a, g, g.source[id], id) && WellFormed(b)
    ensures DataCopy(b, g, g.source[id], id)
  {
    assert MayHold(b, DataAt(id), Get(b.disk, DataAt(id)));
    assert MayHold(a, DataAt(id), Get(b.disk, DataAt(id)));
  }

  /** Recovery keeps the copy of a file whose name is gone for good. */
  lemma GoneIsNotAtRisk(fs: Fs, g: Ledger, id: Id)
    requires id in g.cores && g.cores[id].origin !in fs.view
    requires forall v :: MayHold(fs, g.cores[id].origin, v) ==> v == Get(fs.view, g.cores[id].origin)
    ensures !AtRisk(fs, g, id)
  {
  }

  lemma UndisturbedFile(a: Fs, b: Fs, except: set<Loc>, l: Loc)
    requires Undisturbed(a, b, except) && l !in except && l in a.view
    requires a.view[l] in a.files && a.files[a.view[l]].synced
    ensures l in b.view && b.view[l] == a.view[l] && b.view[l] in b.files && b.files[b.view[l]] == a.files[b.view[l]]
  {
    assert Get(b.view, l) == Get(a.view, l);
  }

  lemma SavedFile(a: Fs, b: Fs, g: Ledger, sha: Bytes -> Digest, except: set<Loc>, i: Ino)
    requires Sound(b, g, sha) && Undisturbed(a, b, except) && i in g.lineage
    requires i in a.files && a.files[i].synced
    ensures i in b.files && b.files[i] == a.files[i] && BytesOf(b, i) == BytesOf(a, i)
    ensures b.files[i].content.Raw? && b.files[i].synced
  {
  }

  lemma StableIsDecidable(fs: Fs, g: Ledger, id: Id)
    requires id in g.cores && Stable(fs, g.cores[id].origin, g.cores[id].ino)
    requires Get(fs.view, g.cores[id].origin) == Some(g.cores[id].ino)
    ensures Decidable(fs, g, id)
  {
  }

  /** A committed copy decodes to the bytes it was made of. */
  lemma CommittedSeen(fs: Fs, g: Ledger, sha: Bytes -> Digest, id: Id)
    requires Sound(fs, g, sha) && id in g.cores && DataAt(id) in fs.view
    ensures CopySeen(fs, id, g.cores[id].key) == Some(ItemBytes(g, id))
  {
    assert MayHold(fs, DataAt(id), Get(fs.view, DataAt(id)));
    assert IsCopy(fs, g, id, fs.view[DataAt(id)]);
    DecodedUndoesEncoded(g.cores[id].key, ItemBytes(g, id));
  }

  lemma UndisturbedWithin(a: Fs, b: Fs, s: set<Loc>, t: set<Loc>)
    requires Undisturbed(a, b, s) && s <= t
    ensures Undisturbed(a, b, t)
  {
  }

  lemma UndisturbedAbsent(a: Fs, b: Fs, except: set<Loc>, l: Loc)
    requires Undisturbed(a, b, except) && l !in except && Absent(a, l)
    ensures Absent(b, l)
  {
  }

  lemma RecordIsKnown(fs: Fs, g: Ledger, sha: Bytes -> Digest, rec: Record)
    requires Sound(fs, g, sha) && RecordSeen(fs, rec.core.id) == Some(rec)
    ensures rec.core.id in g.cores
  {
    var l := RecordAt(rec.core.id);
    assert MayHold(fs, l, Get(fs.view, l));
    assert IsRecord(fs, g, rec.core.id, fs.view[l]);
  }

  /** Whatever decodes at an item's copy is the bytes it was made of. */
  lemma PlainIsFile(fs: Fs, g: Ledger, sha: Bytes -> Digest, id: Id)
    requires Sound(fs, g, sha) && id in g.cores
    ensures PlainAt(fs, DataAt(id), g.cores[id].key)
         == if DataAt(id) in fs.view then Some(ItemBytes(g, id)) else None
  {
    if DataAt(id) in fs.view {
      CommittedSeen(fs, g, sha, id);
    }
  }

  lemma LineageIsOld(fs: Fs, g: Ledger, sha: Bytes -> Digest, i: Ino)
    requires Sound(fs, g, sha) && i !in fs.files
    ensures i !in g.lineage
    ensures forall id :: id in g.cores ==> g.cores[id].ino != i
  {
  }

  lemma ViewUnchanged(before: Fs, after: Fs, i: Ino, tmp: Loc, l: Loc)
    requires WellFormed(before) && i !in before.files && tmp != l
    requires after == LinkName(WriteFile(before, i, Raw([])), tmp, i)
    ensures Get(after.view, l) == Get(before.view, l) && Get(after.view, l) != Some(i)
  {
    assert MayHold(before, l, Get(before.view, l));
  }

  lemma SyncedIsFolderCopy(fs: Fs, g: Ledger, l: Loc)
    requires forall k: Loc, v :: k.dir == l.dir && MayHold(fs, k, v) ==> v == Get(fs.view, k)
    requires InFolder(l) && l in fs.view && fs.view[l] in g.lineage
    ensures FolderCopy(fs, g, g.lineage[fs.view[l]], l)
  {
    assert MayHold(fs, l, Get(fs.disk, l));
  }

  /** While nothing has gone wrong, recovery never has to give an item up. */
  lemma CalmDecides(fs: Fs, g: Ledger, sha: Bytes -> Digest, rec: Record)
    requires Sound(fs, g, sha) && Calm(fs, g)
    requires RecordSeen(fs, rec.core.id) == Some(rec) && rec.state == Pending
    ensures Decision(fs, sha, rec) != ItemState.Failed
  {
    RecordIsKnown(fs, g, sha, rec);
    SeenIsKnown(fs, g, sha, rec);
    var id := rec.core.id;
    assert Decidable(fs, g, id);
    if Get(fs.view, rec.core.origin) != Some(rec.core.ino) {
      assert MayHold(fs, DataAt(id), Get(fs.view, DataAt(id)));
      CommittedSeen(fs, g, sha, id);
    }
  }

  /** Resolving one item changes nothing recovery looks at for another. */
  lemma OtherItem(a: Fs, b: Fs, g: Ledger, sha: Bytes -> Digest, id: Id, rec: Record)
    requires Sound(a, g, sha) && Undisturbed(a, b, NamesOf(id)) && rec.core.id != id
    ensures RecordSeen(b, rec.core.id) == RecordSeen(a, rec.core.id)
    ensures RecordTmpAt(rec.core.id) in b.view ==> RecordTmpAt(rec.core.id) in a.view
    ensures RecordSeen(a, rec.core.id) == Some(rec) ==> Decision(b, sha, rec) == Decision(a, sha, rec)
  {
    UndisturbedSeen(a, b, g, sha, NamesOf(id), rec.core.id);
    UndisturbedName(a, b, NamesOf(id), RecordTmpAt(rec.core.id));
    if RecordSeen(a, rec.core.id) == Some(rec) {
      RecordIsKnown(a, g, sha, rec);
      SeenIsKnown(a, g, sha, rec);
      UndisturbedName(a, b, NamesOf(id), rec.core.origin);
    }
  }

  lemma NothingPendingSynced(fs: Fs, g: Ledger, sha: Bytes -> Digest)
    requires Sound(fs, g, sha) && fs.pending == {}
    ensures RecordsSynced(fs)
  {
    forall id, v | MayHold(fs, RecordAt(id), v)
      ensures v == Get(fs.view, RecordAt(id))
    {
      assert MayHold(fs, RecordAt(id), Get(fs.view, RecordAt(id)));
    }
  }

  lemma SyncedRecordsStay(a: Fs, b: Fs, g: Ledger, sha: Bytes -> Digest, except: set<Loc>)
    requires RecordsSynced(a) && Undisturbed(a, b, except) && forall id :: RecordAt(id) !in except
    ensures RecordsSynced(b)
  {
    forall id, v | MayHold(b, RecordAt(id), v)
      ensures v == Get(b.view, RecordAt(id))
    {
      assert MayHold(a, RecordAt(id), v);
    }
  }

  lemma SyncedIsSettled(fs: Fs)
    requires RecordsSynced(fs) && NonePending(fs)
    ensures Settled(fs)
  {
    forall id
      ensures !MayBePending(fs, id)
    {
      if j :| MayHold(fs, RecordAt(id), Some(j)) && j in fs.files && fs.files[j].content.Json?
              && fs.files[j].content.rec.state == Pending {
        SyncedPending(fs, id, j);
      }
    }
  }

  lemma SyncedPending(fs: Fs, id: Id, j: Ino)
    requires RecordsSynced(fs) && MayHold(fs, RecordAt(id), Some(j)) && j in fs.files
    requires fs.files[j].content.Json? && fs.files[j].content.rec.state == Pending
    ensures StateSeen(fs, id) == Some(Pending)
  {
  }

  lemma FolderFile(fs: Fs, g: Ledger, sha: Bytes -> Digest, l: Loc)
    requires Sound(fs, g, sha) && InFolder(l) && l in fs.view
    ensures fs.view[l] in fs.files && fs.files[fs.view[l]].content.Raw?
    ensures CopiedFrom(g, fs.view[l], BytesOf(fs, fs.view[l]))
  {
    assert MayHold(fs, l, Get(fs.view, l));
  }

  lemma NarrowsStableName(a: Fs, b: Fs, l: Loc, i: Ino)
    requires Narrows(a, b) && Matters(l)
    ensures Stable(a, l, i) ==> Stable(b, l, i)
  {
  }

  lemma SyncNamesView(fs: Fs, d: Dir)
    ensures SyncNames(fs, d).view == fs.view && SyncNames(fs, d).files == fs.files
  {
  }

  // ---- Small facts about what a method may touch or refuse.

  lemma FreeIs(fs: Fs, l: Loc)
    requires l !in fs.view
    ensures FreeOf(fs, {l}) == {l} && {l} + FreeOf(fs, {l}) == {l}
    ensures forall k :: {k} + FreeOf(fs, {l}) == {k, l}
  {
  }

  lemma FreeSame(a: Fs, b: Fs, l: Loc)
    requires Get(a.view, l) == Get(b.view, l)
    ensures FreeOf(a, {l}) == FreeOf(b, {l})
  {
  }

  lemma InspectThenCopy(fs: Fs, sha: Bytes -> Digest, req: Request, id: Id)
    ensures InspectRefusal(fs, req) == None ==> req.loc in fs.view
    ensures InspectRefusal(fs, req).Some? ==> QuarantineRefusal(fs, sha, req, id) == InspectRefusal(fs, req)
    ensures InspectRefusal(fs, req) == None ==> QuarantineRefusal(fs, sha, req, id) == CopyRefusal(fs, sha, fs.view[req.loc], req, id)
  {
  }

  /** A name of a record has one. */
  lemma NameHasRecord(fs: Fs, g: Ledger, sha: Bytes -> Digest, id: Id)
    requires Sound(fs, g, sha)
    ensures RecordAt(id) in fs.view <==> RecordSeen(fs, id).Some?
    ensures RecordSeen(fs, id).Some? ==> RecordSeen(fs, id).value.core.id == id
  {
    assert MayHold(fs, RecordAt(id), Get(fs.view, RecordAt(id)));
    if RecordAt(id) in fs.view {
      assert IsRecord(fs, g, id, fs.view[RecordAt(id)]);
    }
  }

  /** What was written encoded reads back. */
  lemma ViewReads(fs: Fs, l: Loc, key: Bytes, bytes: Bytes)
    requires |key| == KEY_LEN && l in fs.view && fs.view[l] in fs.files
    requires fs.files[fs.view[l]].content == Raw(Encoded(key, bytes))
    ensures PlainAt(fs, l, key) == Some(bytes)
  {
    DecodedUndoesEncoded(key, bytes);
  }

  lemma DecodeRefusals(fs: Fs)
    ensures forall rec, tmp, target :: DecodeRefusal(fs, rec, tmp, target) == Some(AlreadyThere) <==> tmp in fs.view
  {
  }

  lemma RestoreNamesAre(fs: Fs, id: Id, dest: Option<string>, rec: Record)
    requires RecordSeen(fs, id) == Some(rec) && InFolder(rec.core.origin)
    ensures var tmp, target := RestoreTmpOf(rec, dest), TargetOf(rec, dest);
            && NamesOf(id) <= RestoreNames(fs, id, dest)
            && FreeOf(fs, {tmp}) <= RestoreNames(fs, id, dest) && FreeOf(fs, {target}) <= RestoreNames(fs, id, dest)
            && (tmp !in fs.view ==> tmp in RestoreNames(fs, id, dest)) && target !in FreeOf(fs, {tmp})
            && RecordAt(id) !in FreeOf(fs, {tmp})
  {
  }

  /** A restore takes no name that was in use. */
  lemma RestoreSparesNames(before: Fs, after: Fs, id: Id, dest: Option<string>)
    requires Undisturbed(before, after, RestoreNames(before, id, dest))
    ensures forall l :: InFolder(l) && l in before.view ==> Get(after.view, l) == Get(before.view, l)
  {
  }

  lemma QuarantinedSettles(before: Fs, after: Fs, g: Ledger, sha: Bytes -> Digest, names: set<Loc>, id: Id)
    requires Sound(before, g, sha) && Undisturbed(before, after, names) && RecordsSynced(after)
    requires forall k :: k != id ==> RecordAt(k) !in names
    requires StateSeen(after, id) == Some(Quarantined)
    ensures NonePending(before) ==> Settled(after)
  {
    if NonePending(before) {
      DecidedIsSettled(before, after, g, sha, names, id);
    }
  }

  lemma RestoredSettles(before: Fs, after: Fs, g: Ledger, sha: Bytes -> Digest, names: set<Loc>, id: Id)
    requires Sound(before, g, sha) && RecordsSynced(after) && StateSeen(after, id) == Some(Restored)
    requires RecordSeen(before, id).Some? && InFolder(RecordSeen(before, id).value.core.origin)
    requires Undisturbed(before, after, names) && exists dest :: names == RestoreNames(before, id, dest)
    ensures NonePending(before) ==> Settled(after)
  {
    if NonePending(before) {
      DecidedIsSettled(before, after, g, sha, names, id);
    }
  }

  lemma ClosedSettles(before: Fs, after: Fs, g: Ledger, sha: Bytes -> Digest, id: Id)
    requires Sound(before, g, sha) && RecordsSynced(after) && StateSeen(after, id) == Some(Deleted)
    requires Undisturbed(before, after, NamesOf(id))
    ensures NonePending(before) ==> Settled(after)
  {
    if NonePending(before) {
      DecidedIsSettled(before, after, g, sha, NamesOf(id), id);
    }
  }

  /** What resolving each item found pending comes to. */
  lemma ResolvedEach(before: Fs, after: Fs, g: Ledger, sha: Bytes -> Digest, pending: seq<Record>, recovered: seq<(Id, ItemState)>,
                     names: set<Loc>, clean: bool, blame: bool)
    requires Sound(before, g, sha) && Lists(before, pending) && |recovered| == |pending|
    requires names == set k, l | 0 <= k < |pending| && l in NamesOf(pending[k].core.id) :: l
    requires Undisturbed(before, after, names)
    requires forall id :: StateSeen(before, id) == Some(Pending) ==> exists k :: 0 <= k < |pending| && pending[k].core.id == id
    requires forall k :: 0 <= k < |pending| ==>
               && recovered[k].1 in {RolledBack, Quarantined, ItemState.Failed}
               && (recovered[k].1 == ItemState.Failed ==> blame)
               && (clean ==> recovered[k].1 == Decision(before, sha, pending[k]))
               && RecordSeen(after, pending[k].core.id) == Some(pending[k].(state := recovered[k].1))
    ensures AllResolved(before, after, sha, clean, blame)
  {
    hide Sound, Undisturbed, Decision, RecordSeen;
    forall id
      ensures ResolvedFrom(before, after, sha, id, clean, blame)
    {
      if StateSeen(before, id) == Some(Pending) {
        var k :| 0 <= k < |pending| && pending[k].core.id == id;
        assert RecordSeen(after, pending[k].core.id) == Some(pending[k].(state := recovered[k].1));
      } else {
        assert forall k :: 0 <= k < |pending| ==> StateSeen(before, pending[k].core.id) == Some(Pending);
        assert RecordAt(id) !in names;
        UndisturbedSeen(before, after, g, sha, names, id);
      }
    }
  }

  lemma NamesInItems(pending: seq<Record>, names: set<Loc>)
    requires names == set k, l | 0 <= k < |pending| && l in NamesOf(pending[k].core.id) :: l
    ensures forall l :: l in names ==> l.dir == Items
  {
    forall l | l in names
      ensures l.dir == Items
    {
      var k :| 0 <= k < |pending| && l in NamesOf(pending[k].core.id);
    }
  }

  /** Sweeping changes no record. */
  lemma ResolvedThenSwept(before: Fs, resolved: Fs, after: Fs, g: Ledger, sha: Bytes -> Digest, temps: set<Loc>,
                          clean: bool, blame: bool, clean': bool, blame': bool)
    requires Sound(resolved, g, sha) && AllResolved(before, resolved, sha, clean, blame)
    requires Undisturbed(resolved, after, temps) && forall id :: RecordAt(id) !in temps
    requires (clean' ==> clean) && (blame ==> blame')
    ensures AllResolved(before, after, sha, clean', blame') && NonePending(after)
  {
    hide Sound, Undisturbed, Decision, RecordSeen;
    forall id
      ensures ResolvedFrom(before, after, sha, id, clean', blame')
    {
      assert ResolvedFrom(before, resolved, sha, id, clean, blame);
      UndisturbedSeen(resolved, after, g, sha, temps, id);
    }
    assert forall id :: ResolvedFrom(before, after, sha, id, clean', blame') ==> StateSeen(after, id) != Some(Pending);
  }

  lemma NoEvents()
    ensures RecoverEvents([]) == []
    ensures forall log: seq<Event> :: log + RecoverEvents([]) == log
  {
  }

  lemma OneMoreEvent(log: seq<Event>, recovered: seq<(Id, ItemState)>, id: Id, outcome: ItemState)
    ensures log + RecoverEvents(recovered + [(id, outcome)]) == log + RecoverEvents(recovered) + [RecoverEvent(id, outcome)]
  {
    assert RecoverEvents(recovered + [(id, outcome)]) == RecoverEvents(recovered) + [RecoverEvent(id, outcome)];
  }
}
