/** Sessions that load bundles or update them, one after another, each with the
    state the last one left: what is never taken back. */
module Sessions {
  import opened Wrappers
  import opened Collections
  import opened Trust
  import opened KeySet
  import opened Bundle
  import opened ContentState

  datatype SessionError =
    | Refused(bundle: BundleError)
    | NotFollowing(state: StateError)
    | GivenTwice
    | BadStamp
    | Mismatch
    | NotUsable
    | NotSaved

  /** What a session accepted: bundles in order, the timestamp of the update
      channel with its signer, and whether the state that remembers them was
      reported saved. */
  datatype Past = Past(bundles: seq<VerifiedBundle>, stamp: Option<(Freshness, KeyId)>, kept: bool)

  /** `ids` are of no use any more. */
  ghost predicate AllRevoked(keys: seq<TrustedKey>, ids: set<KeyId>) {
    forall i :: 0 <= i < |keys| && keys[i].id in ids ==> keys[i].revoked
  }

  function RevokedBy(b: VerifiedBundle): (ids: set<KeyId>) {
    set k | k in b.manifest.revokeKeys && k.Some? :: k.value
  }

  /** `keys` are the trusted keys with `ids` revoked, under the same policy. */
  ghost predicate Retired(trust: TrustedKeys, keys: TrustedKeys, ids: set<KeyId>)
    reads trust, keys
  {
    && keys.Valid() && |keys.keys| == |trust.keys| && Narrowed(trust.keys, keys.keys)
    && keys.threshold == trust.threshold && keys.minSequences == trust.minSequences
    && AllRevoked(keys.keys, ids)
  }

  method RevokeAll(trust: TrustedKeys, keys: TrustedKeys, ghost already: set<KeyId>, ids: set<KeyId>)
    requires trust.Valid() && keys != trust && Retired(trust, keys, already)
    modifies keys
    ensures Retired(trust, keys, already + ids)
  {
    hide Narrowed;
    var todo := ids;
    while todo != {}
      invariant todo <= ids && Retired(trust, keys, already + (ids - todo))
      decreases todo
    {
      var id :| id in todo;
      ghost var prior := keys.keys;
      var _ := keys.Revoke(id);
      NarrowedThen(trust.keys, prior, keys.keys);
      todo := todo - {id};
    }
    assert ids - todo == ids;
  }

  /** What holds of each bundle a session accepts: enough keys that the user
      trusts, none of them revoked before, and no step back. */
  ghost predicate Accepted(trust: seq<TrustedKey>, threshold: nat, floors: map<string, nat>, start: StateFile, now: Time, b: VerifiedBundle) {
    && |SetOf(b.signers)| >= threshold
    && (forall id :: id in b.signers ==>
          id !in start.revoked && exists i :: 0 <= i < |trust| && trust[i].id == id && Allows(RightsOf(trust[i]), Content, now))
    && MayFollow(start, b, if b.manifest.name in floors then Some(floors[b.manifest.name]) else None)
  }

  lemma LoadedIsAccepted(w: World, dir: Directory, trust: seq<TrustedKey>, keys: seq<TrustedKey>, ids: set<KeyId>, threshold: nat, now: Time, b: VerifiedBundle)
    requires Sound(w, dir, keys, threshold, now, b) && Distinct(keys)
    requires |keys| == |trust| && Narrowed(trust, keys) && AllRevoked(keys, ids)
    ensures |SetOf(b.signers)| >= threshold
    ensures forall id :: id in b.signers ==>
              id !in ids && exists i :: 0 <= i < |trust| && trust[i].id == id && Allows(RightsOf(trust[i]), Content, now)
  {
    hide Sound;
    ThresholdIsReal(w, dir, keys, threshold, now, b);
    forall id | id in b.signers
      ensures id !in ids && exists i :: 0 <= i < |trust| && trust[i].id == id && Allows(RightsOf(trust[i]), Content, now)
    {
      var i :| 0 <= i < |keys| && keys[i].id == id && Allows(RightsOf(keys[i]), Content, now);
      assert trust[i].id == id;
    }
  }

  /** Bundles of one session: different names, none signed by a key that an
      earlier one revoked. */
  ghost predicate Ordered(bundles: seq<VerifiedBundle>) {
    && (forall j, k :: 0 <= j < k < |bundles| ==> bundles[j].manifest.name != bundles[k].manifest.name)
    && (forall j, k :: 0 <= j < k < |bundles| ==> RevokedBy(bundles[j]) !! SetOf(bundles[k].signers))
  }

  /** The state remembers what the session accepted. */
  ghost predicate RememberedIn(data: StateFile, p: Past) {
    && (forall b :: b in p.bundles ==> Remembers(data, b))
    && (p.stamp.Some? ==> p.stamp.value.0.bundle in data.timestamps
                          && p.stamp.value.0.version <= data.timestamps[p.stamp.value.0.bundle].version)
  }

  lemma RememberedStill(a: StateFile, b: StateFile, p: Past)
    requires RememberedIn(a, p) && AtLeast(a, b)
    ensures RememberedIn(b, p)
  {
    forall bundle | bundle in p.bundles
      ensures Remembers(b, bundle)
    {
      RemembersStill(a, b, bundle);
    }
  }

  /** What a session leaves: it accepted nothing that goes back on `start`, and
      what it saved it will remember. */
  ghost predicate SessionOk(trust: seq<TrustedKey>, threshold: nat, floors: map<string, nat>, start: StateFile, now: Time,
                            p: Past, saved: StateFile, savedBefore: StateFile) {
    && (forall b :: b in p.bundles ==> Accepted(trust, threshold, floors, start, now, b))
    && (p.stamp.Some? ==> MayFollowStamp(start, p.stamp.value.0) && p.stamp.value.1 !in start.revoked)
    && Ordered(p.bundles)
    && AtLeast(savedBefore, saved)
    && (p.kept ==> RememberedIn(saved, p))
    && (!p.kept ==> saved == savedBefore)
  }

  /** Verifies every bundle and checks that it follows what was accepted; only
      when all have passed, and if `record` is set, remembers them. */
  method LoadBundles(w: World, store: StateStore, trust: TrustedKeys, dirs: seq<Directory>, allowExpired: bool, now: Time, record: bool)
    returns (r: Result<seq<VerifiedBundle>, SessionError>, ghost p: Past)
    requires store.Valid() && trust.Valid()
    modifies store
    ensures store.Valid() && AtLeast(old(store.visible), store.visible)
    ensures SessionOk(trust.keys, trust.Threshold(), trust.minSequences, old(store.visible), now, p, store.saved, old(store.saved))
    ensures r.Ok? ==> r.value == p.bundles && |r.value| == |dirs| && (record && dirs != [] ==> p.kept)
    ensures p.kept ==> r.Ok? && record
  {
    hide Narrowed, MayFollow, AtLeast, Remembers, Accepted, Ordered, RememberedIn;
    p := Past([], None, false);
    ghost var start := store.visible;
    SessionBegins(start, store.saved);
    if dirs == [] {
      return Ok([]), p;
    }
    var state := new ContentState(store);
    var keys := trust.Clone();
    NarrowedSelf(trust.keys);
    RevokeAll(trust, keys, {}, state.data.revoked.Keys);
    var bundles: seq<VerifiedBundle> := [];
    ghost var retired := start.revoked.Keys;
    for i := 0 to |dirs|
      invariant fresh(keys) && fresh(state)
      invariant store.Valid() && store.visible == start && store.saved == old(store.saved)
      invariant state.data == start && state.store == store && |bundles| == i
      invariant Retired(trust, keys, retired)
      invariant start.revoked.Keys <= retired
      invariant forall b :: b in bundles ==> RevokedBy(b) <= retired
      invariant forall b :: b in bundles ==> Accepted(trust.keys, trust.Threshold(), trust.minSequences, start, now, b)
      invariant Ordered(bundles)
    {
      p := Past(bundles, None, false);
      var loaded := LoadNext(w, dirs[i], trust, keys, state, bundles, allowExpired, now, retired);
      if loaded.Err? {
        return Err(loaded.error), p;
      }
      var b := loaded.value;
      RevokeAll(trust, keys, retired, RevokedBy(b));
      retired := retired + RevokedBy(b);
      bundles := bundles + [b];
      p := Past(bundles, None, false);
      var usable: bool := *;
      if !usable {
        return Err(NotUsable), p;
      }
    }
    p := Past(bundles, None, false);
    if record {
      AcceptedFollow(trust.keys, trust.Threshold(), trust.minSequences, start, now, bundles);
      var saved := RecordAll(state, bundles, now, None);
      if saved.Err? {
        return Err(NotSaved), p;
      }
      p := Past(bundles, None, true);
    }
    r := Ok(bundles);
  }

  /** One bundle of a session. */
  method LoadNext(w: World, dir: Directory, trust: TrustedKeys, keys: TrustedKeys, state: ContentState, bundles: seq<VerifiedBundle>,
                  allowExpired: bool, now: Time, ghost retired: set<KeyId>)
    returns (r: Result<VerifiedBundle, SessionError>)
    requires trust.Valid() && Retired(trust, keys, retired) && state.data.revoked.Keys <= retired && Ordered(bundles)
    requires forall b :: b in bundles ==> RevokedBy(b) <= retired
    ensures r.Ok? ==> Accepted(trust.keys, trust.Threshold(), trust.minSequences, state.data, now, r.value)
                      && Ordered(bundles + [r.value])
  {
    hide Narrowed, MayFollow, Accepted, Ordered, RevokedBy, Sound, SetOf;
    var loaded := LoadBundle(w, dir, keys, allowExpired, now);
    if loaded.Err? {
      return Err(Refused(loaded.error));
    }
    var b := loaded.value;
    if exists k :: 0 <= k < |bundles| && bundles[k].manifest.name == b.manifest.name {
      return Err(GivenTwice);
    }
    var follows := state.Check(b, keys.MinSequence(b.manifest.name));
    if follows.Err? {
      return Err(NotFollowing(follows.error));
    }
    LoadedIsAccepted(w, dir, trust.keys, keys.keys, retired, keys.Threshold(), now, b);
    AcceptedBy(trust.keys, trust.Threshold(), trust.minSequences, state.data, now, b);
    OneMoreOrdered(bundles, b, retired);
    r := Ok(b);
  }

  lemma AcceptedFollow(trust: seq<TrustedKey>, threshold: nat, floors: map<string, nat>, start: StateFile, now: Time, bundles: seq<VerifiedBundle>)
    requires forall b :: b in bundles ==> Accepted(trust, threshold, floors, start, now, b)
    ensures forall b :: b in bundles ==> MayFollow(start, b, None)
  {
  }

  lemma SessionBegins(start: StateFile, saved: StateFile)
    ensures AtLeast(start, start) && AtLeast(saved, saved) && Ordered([])
  {
  }

  lemma AcceptedBy(trust: seq<TrustedKey>, threshold: nat, floors: map<string, nat>, start: StateFile, now: Time, b: VerifiedBundle)
    requires |SetOf(b.signers)| >= threshold
    requires forall id :: id in b.signers ==>
          id !in start.revoked && exists i :: 0 <= i < |trust| && trust[i].id == id && Allows(RightsOf(trust[i]), Content, now)
    requires MayFollow(start, b, if b.manifest.name in floors then Some(floors[b.manifest.name]) else None)
    ensures Accepted(trust, threshold, floors, start, now, b)
  {
  }

  lemma OneMoreOrdered(bundles: seq<VerifiedBundle>, b: VerifiedBundle, retired: set<KeyId>)
    requires Ordered(bundles)
    requires forall k :: 0 <= k < |bundles| ==> bundles[k].manifest.name != b.manifest.name
    requires forall o :: o in bundles ==> RevokedBy(o) <= retired
    requires forall id :: id in b.signers ==> id !in retired
    ensures Ordered(bundles + [b])
  {
    var more := bundles + [b];
    forall j, k | 0 <= j < k < |more|
      ensures more[j].manifest.name != more[k].manifest.name && RevokedBy(more[j]) !! SetOf(more[k].signers)
    {
      assert more[j] == bundles[j] && bundles[j] in bundles;
    }
  }

  /** Remembers the bundles, and the timestamp if there is one, and saves. */
  method RecordAll(state: ContentState, bundles: seq<VerifiedBundle>, now: Time, stamp: Option<(Freshness, KeyId)>)
    returns (r: Result<(), StateError>)
    requires state.store.Valid() && state.data == state.store.visible
    requires forall b :: b in bundles ==> MayFollow(state.data, b, None)
    requires Ordered(bundles)
    modifies state, state.store
    ensures state.store.Valid() && AtLeast(old(state.store.visible), state.store.visible)
    ensures AtLeast(old(state.store.saved), state.store.saved)
    ensures r.Ok? ==> RememberedIn(state.store.saved, Past(bundles, stamp, true))
    ensures r.Err? ==> state.store.saved == old(state.store.saved)
  {
    hide MayFollow, AtLeast, Remembers, RememberedIn;
    ghost var start := state.data;
    SessionBegins(start, state.store.saved);
    ghost var p := Past(bundles, stamp, true);
    ghost var saved := state.store.saved;
    for i := 0 to |bundles|
      invariant state.store.Valid() && state.store.visible == start && state.store.saved == saved
      invariant AtLeast(start, state.data)
      invariant forall k :: 0 <= k < i ==> Remembers(state.data, bundles[k])
      invariant forall k :: i <= k < |bundles| ==> MayFollow(state.data, bundles[k], None)
      modifies state
    {
      ghost var prior := state.data;
      assert bundles[i] in bundles;
      state.Record(bundles[i], now);
      AtLeastThen(start, prior, state.data);
      forall k | 0 <= k < i
        ensures Remembers(state.data, bundles[k])
      {
        RemembersStill(prior, state.data, bundles[k]);
      }
      OthersMayFollow(prior, state.data, bundles, i, now);
    }
    ghost var recorded := state.data;
    if stamp.Some? {
      state.RecordTimestamp(stamp.value.0, now);
      AtLeastThen(start, recorded, state.data);
    }
    forall b | b in bundles
      ensures Remembers(state.data, b)
    {
      SessionBegins(recorded, recorded);
      RemembersStill(recorded, state.data, b);
    }
    NowRemembered(state.data, p);
    SavedFollows(state.store.saved, state.store.possible, start, state.data);
    r := state.Save();
    SessionBegins(state.data, state.store.saved);
  }

  lemma NowRemembered(data: StateFile, p: Past)
    requires forall b :: b in p.bundles ==> Remembers(data, b)
    requires p.stamp.Some? ==> p.stamp.value.0.bundle in data.timestamps
                               && p.stamp.value.0.version <= data.timestamps[p.stamp.value.0.bundle].version
    ensures RememberedIn(data, p)
  {
  }

  lemma SavedFollows(saved: StateFile, possible: set<StateFile>, visible: StateFile, data: StateFile)
    requires visible in possible && forall p :: p in possible ==> AtLeast(saved, p)
    requires AtLeast(visible, data)
    ensures AtLeast(saved, data)
  {
    AtLeastThen(saved, visible, data);
  }

  lemma OthersMayFollow(before: StateFile, after: StateFile, bundles: seq<VerifiedBundle>, i: nat, now: Time)
    requires i < |bundles| && Ordered(bundles)
    requires forall k :: i <= k < |bundles| ==> MayFollow(before, bundles[k], None)
    requires after.bundles == before.bundles || after.bundles == before.bundles[bundles[i].manifest.name := RecordOf(bundles[i], now)]
    ensures forall k :: i + 1 <= k < |bundles| ==> MayFollow(after, bundles[k], None)
  {
    forall k | i + 1 <= k < |bundles|
      ensures MayFollow(after, bundles[k], None)
    {
      assert bundles[i].manifest.name != bundles[k].manifest.name;
      assert MayFollow(before, bundles[k], None);
    }
  }

  /** Takes an update: a fresh timestamp, and the bundle it names unless that is
      installed already. `readStamp` parses and validates a timestamp file. */
  method Update(w: World, store: StateStore, trust: TrustedKeys, stampData: Bytes, stampSig: Option<Signature>,
                readStamp: Bytes -> Option<Freshness>, installed: Option<Digest>, staged: Directory, allowExpired: bool, now: Time)
    returns (r: Result<bool, SessionError>, ghost p: Past)
    requires store.Valid() && trust.Valid()
    modifies store
    ensures store.Valid() && AtLeast(old(store.visible), store.visible)
    ensures SessionOk(trust.keys, trust.Threshold(), trust.minSequences, old(store.visible), now, p, store.saved, old(store.saved))
    ensures r.Ok? ==> p.kept && p.stamp.Some? && |p.bundles| == (if r.value then 1 else 0)
    ensures r == Ok(true) ==> var b, ts := p.bundles[0], p.stamp.value.0;
                              && b.manifestSha == ts.manifestSha && b.manifest.name == ts.bundle && b.manifest.sequence == ts.sequence
                              && staged.manifest.Some? && |staged.manifest.value| == ts.manifestSize
    ensures p.kept ==> r.Ok?
  {
    hide Narrowed, MayFollow, AtLeast, Remembers, Accepted, Ordered, RememberedIn, MayFollowStamp;
    p := Past([], None, false);
    ghost var start := store.visible;
    SessionBegins(start, store.saved);
    var state := new ContentState(store);
    var keys := trust.Clone();
    NarrowedSelf(trust.keys);
    RevokeAll(trust, keys, {}, state.data.revoked.Keys);
    var stamped := CheckStamp(w, keys, state, stampData, stampSig, readStamp, allowExpired, now, start.revoked.Keys);
    if stamped.Err? {
      return Err(stamped.error), p;
    }
    var ts := stamped.value.0;
    p := Past([], Some(stamped.value), false);
    if installed == Some(ts.manifestSha) {
      var saved := RecordAll(state, [], now, Some(stamped.value));
      if saved.Err? {
        return Err(NotSaved), p;
      }
      p := p.(kept := true);
      return Ok(false), p;
    }
    if staged.manifest == None || |staged.manifest.value| != ts.manifestSize || w.sha(staged.manifest.value) != ts.manifestSha {
      return Err(Mismatch), p;
    }
    var loaded := LoadNext(w, staged, trust, keys, state, [], allowExpired, now, start.revoked.Keys);
    if loaded.Err? {
      return Err(loaded.error), p;
    }
    var b := loaded.value;
    if b.manifest.name != ts.bundle || b.manifest.sequence != ts.sequence || b.manifestSha != ts.manifestSha {
      return Err(Mismatch), p;
    }
    var usable: bool := *;
    if !usable {
      return Err(NotUsable), p;
    }
    assert [] + [b] == [b];
    AcceptedFollow(trust.keys, trust.Threshold(), trust.minSequences, start, now, [b]);
    p := Past([b], Some(stamped.value), false);
    var saved := RecordAll(state, [b], now, Some(stamped.value));
    if saved.Err? {
      return Err(NotSaved), p;
    }
    p := p.(kept := true);
    r := Ok(true);
  }

  /** A timestamp signed by a key for timestamps that is not revoked, no older
      than one seen, naming no older bundle than accepted. */
  method CheckStamp(w: World, keys: TrustedKeys, state: ContentState, data: Bytes, sig: Option<Signature>,
                    readStamp: Bytes -> Option<Freshness>, allowExpired: bool, now: Time, ghost retired: set<KeyId>)
    returns (r: Result<(Freshness, KeyId), SessionError>)
    requires keys.Valid() && AllRevoked(keys.keys, retired)
    ensures r.Ok? ==> && readStamp(data) == Some(r.value.0) && MayFollowStamp(state.data, r.value.0) && r.value.1 !in retired
                      && (now > r.value.0.expires ==> allowExpired)
                      && sig.Some? && Accepts(keys.keys, w.good, data, sig.value, now, Timestamp)
  {
    var who := keys.VerifyRole(w.good, data, sig, now, Timestamp);
    if who.Err? {
      return Err(BadStamp);
    }
    var stamp := readStamp(data);
    if stamp == None || (now > stamp.value.expires && !allowExpired) {
      return Err(BadStamp);
    }
    var follows := state.CheckTimestamp(stamp.value);
    if follows.Err? {
      return Err(NotFollowing(follows.error));
    }
    r := Ok((stamp.value, who.value));
  }

  // ---- Many sessions.

  datatype Command =
    | Load(trust: TrustedKeys, dirs: seq<Directory>, allowExpired: bool, now: Time, record: bool)
    | TakeUpdate(trust: TrustedKeys, stampData: Bytes, stampSig: Option<Signature>, installed: Option<Digest>, staged: Directory,
                 allowExpired: bool, now: Time)
    | PowerCut(choose: set<StateFile> -> StateFile)

  /** What a later session accepts, given what an earlier one kept. */
  ghost predicate NeverBack(earlier: Past, later: Past) {
    && (forall b, c :: b in earlier.bundles && c in later.bundles && b.manifest.name == c.manifest.name ==>
          Supersedes(RecordOf(b, 0), RecordOf(c, 0)))
    && (forall b, c :: b in earlier.bundles && c in later.bundles ==> RevokedBy(b) !! SetOf(c.signers))
    && (forall b :: b in earlier.bundles && later.stamp.Some? ==>
          later.stamp.value.1 !in RevokedBy(b)
          && (later.stamp.value.0.bundle == b.manifest.name ==> b.manifest.sequence <= later.stamp.value.0.sequence))
    && (earlier.stamp.Some? && later.stamp.Some? && earlier.stamp.value.0.bundle == later.stamp.value.0.bundle ==>
          earlier.stamp.value.0.version <= later.stamp.value.0.version)
  }

  /** What a session was told to remember holds for whatever it accepts. */
  lemma RememberedHolds(trust: seq<TrustedKey>, threshold: nat, floors: map<string, nat>, start: StateFile, now: Time,
                        earlier: Past, later: Past, saved: StateFile, savedBefore: StateFile)
    requires RememberedIn(savedBefore, earlier) && AtLeast(savedBefore, start)
    requires SessionOk(trust, threshold, floors, start, now, later, saved, savedBefore)
    ensures NeverBack(earlier, later)
  {
    RememberedStill(savedBefore, start, earlier);
    forall b, c | b in earlier.bundles && c in later.bundles
      ensures b.manifest.name == c.manifest.name ==> Supersedes(RecordOf(b, 0), RecordOf(c, 0))
      ensures RevokedBy(b) !! SetOf(c.signers)
    {
      assert Remembers(start, b) && Accepted(trust, threshold, floors, start, now, c);
    }
    forall b | b in earlier.bundles
      ensures Remembers(start, b)
    {
    }
  }

  /** Any sequence of sessions and power losses, each session succeeding, failing
      or dying anywhere. Nothing that a session kept is ever gone back on: no
      older release, no other manifest for the same one, no signature by a key
      it revoked, no older timestamp. */
  method RunSessions(w: World, readStamp: Bytes -> Option<Freshness>, store: StateStore, commands: seq<Command>)
    returns (ghost history: seq<Past>)
    requires store.Valid()
    requires forall k :: 0 <= k < |commands| && !commands[k].PowerCut? ==> commands[k].trust.Valid()
    modifies store
    ensures store.Valid() && AtLeast(old(store.saved), store.saved)
    ensures |history| == |commands|
    ensures forall i, j :: 0 <= i < j < |history| && history[i].kept ==> NeverBack(history[i], history[j])
    ensures forall j :: 0 <= j < |history| ==> Ordered(history[j].bundles)
  {
    hide AtLeast, RememberedIn, NeverBack, Ordered, SessionOk;
    history := [];
    SessionBegins(store.saved, store.saved);
    for n := 0 to |commands|
      invariant store.Valid() && AtLeast(old(store.saved), store.saved) && |history| == n
      invariant forall i :: 0 <= i < n && history[i].kept ==> RememberedIn(store.saved, history[i])
      invariant forall i, j :: 0 <= i < j < n && history[i].kept ==> NeverBack(history[i], history[j])
      invariant forall j :: 0 <= j < n ==> Ordered(history[j].bundles)
    {
      ghost var p := Past([], None, false);
      ghost var before, start := store.saved, store.visible;
      ghost var trusted: seq<TrustedKey>, threshold: nat, floors: map<string, nat>, now: Time := [], 0, map[], 0;
      match commands[n] {
      case Load(trust, dirs, allowExpired, at, record) =>
        trusted, threshold, floors, now := trust.keys, trust.Threshold(), trust.minSequences, at;
        var loaded;
        loaded, p := LoadBundles(w, store, trust, dirs, allowExpired, at, record);
      case TakeUpdate(trust, data, sig, installed, staged, allowExpired, at) =>
        trusted, threshold, floors, now := trust.keys, trust.Threshold(), trust.minSequences, at;
        var updated;
        updated, p := Update(w, store, trust, data, sig, readStamp, installed, staged, allowExpired, at);
      case PowerCut(choose) =>
        CutOk(start, before);
        var left := if choose(store.possible) in store.possible then choose(store.possible) else store.visible;
        store.LosePower(left);
      }
      SessionGoesOn(trusted, threshold, floors, start, now, history, p, store.saved, before);
      AtLeastThen(old(store.saved), before, store.saved);
      history := history + [p];
    }
  }

  lemma CutOk(start: StateFile, saved: StateFile)
    ensures SessionOk([], 0, map[], start, 0, Past([], None, false), saved, saved)
  {
  }

  lemma SessionGoesOn(trust: seq<TrustedKey>, threshold: nat, floors: map<string, nat>, start: StateFile, now: Time,
                      history: seq<Past>, p: Past, saved: StateFile, savedBefore: StateFile)
    requires SessionOk(trust, threshold, floors, start, now, p, saved, savedBefore) && AtLeast(savedBefore, start)
    requires forall i :: 0 <= i < |history| && history[i].kept ==> RememberedIn(savedBefore, history[i])
    ensures forall i :: 0 <= i < |history| && history[i].kept ==> RememberedIn(saved, history[i]) && NeverBack(history[i], p)
    ensures p.kept ==> RememberedIn(saved, p)
    ensures Ordered(p.bundles) && AtLeast(savedBefore, saved)
  {
    forall i | 0 <= i < |history| && history[i].kept
      ensures RememberedIn(saved, history[i]) && NeverBack(history[i], p)
    {
      RememberedStill(savedBefore, saved, history[i]);
      RememberedHolds(trust, threshold, floors, start, now, history[i], p, saved, savedBefore);
    }
  }
}
