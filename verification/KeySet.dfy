/** The set of trusted keys as the program keeps it, updated in place. */
module KeySet {
  import opened Wrappers
  import opened KeyTexts
  import opened Trust

  /** The key that verifies `sig` over `data` for `role`, if any: the one it
      names, if it has the role and the signature is good. */
  predicate Verifies(k: TrustedKey, good: Scheme, data: Bytes, sig: Signature, role: Role) {
    role in k.roles && k.id == sig.keyId && good(k.key, data, sig.blob)
  }

  /** Some key accepts the signature at time `now`. */
  ghost predicate Accepts(keys: seq<TrustedKey>, good: Scheme, data: Bytes, sig: Signature, now: Time, role: Role) {
    exists i :: 0 <= i < |keys| && Verifies(keys[i], good, data, sig, role) && !keys[i].revoked && ValidAt(keys[i], now)
  }

  lemma AcceptsMeans(k: TrustedKey, good: Scheme, data: Bytes, sig: Signature, now: Time, role: Role)
    ensures Verifies(k, good, data, sig, role) && !k.revoked && ValidAt(k, now)
       <==> k.id == sig.keyId && good(k.key, data, sig.blob) && Allows(RightsOf(k), role, now)
  {
  }

  /** Each key known before is still there and the same key. */
  predicate Extended(before: seq<TrustedKey>, after: seq<TrustedKey>) {
    && |before| <= |after|
    && forall i :: 0 <= i < |before| ==> after[i].id == before[i].id && after[i].key == before[i].key
  }

  ghost predicate ViewNarrowed(before: View, after: View) {
    forall id :: id in before ==> id in after && NoMoreThan(after[id], before[id])
  }

  lemma NarrowedByView(before: seq<TrustedKey>, after: seq<TrustedKey>)
    requires Distinct(before) && Distinct(after) && Extended(before, after)
    ensures Narrowed(before, after) <==> ViewNarrowed(ViewOf(before), ViewOf(after))
  {
    ViewAt(before);
    ViewAt(after);
    if Narrowed(before, after) {
      forall id | id in ViewOf(before)
        ensures id in ViewOf(after) && NoMoreThan(ViewOf(after)[id], ViewOf(before)[id])
      {
        var i :| 0 <= i < |before| && before[i].id == id;
        assert after[i].id == id;
      }
    }
    if ViewNarrowed(ViewOf(before), ViewOf(after)) {
      forall i | 0 <= i < |before|
        ensures NoMoreThan(RightsOf(after[i]), RightsOf(before[i]))
      {
        assert before[i].id in ViewOf(before) && after[i].id == before[i].id;
      }
    }
  }

  /** Each entry of key `id` has a bare text, or the last that has not, with those
      after it, leaves only roles the key had, or what the key had and what its
      entries give have no time in common. */
  predicate Narrows(v: View, gs: seq<Grant>, id: KeyId) {
    id in v && (!Replaces(gs, id) || RolesLeft(gs, id) <= v[id].roles || Closed(GivenTo(v, gs, id)))
  }

  lemma AllNarrow(before: seq<TrustedKey>, after: seq<TrustedKey>, gs: seq<Grant>)
    requires Distinct(before) && Distinct(after) && Extended(before, after) && ViewOf(after) == AppliedAll(ViewOf(before), gs)
    ensures Narrowed(before, after) <==> forall id :: id in ViewOf(before) ==> Narrows(ViewOf(before), gs, id)
  {
    hide NoMoreThan, Closed, GivenTo, Replaces, RolesLeft, AppliedAll, ViewOf;
    NarrowedByView(before, after);
    forall id | id in ViewOf(before)
      ensures id in ViewOf(after) && (NoMoreThan(ViewOf(after)[id], ViewOf(before)[id]) <==> Narrows(ViewOf(before), gs, id))
    {
      NarrowsExactlyWhen(ViewOf(before), gs, id);
    }
  }

  /** Which signatures by key `id` are accepted, of anything, at any time. */
  ghost predicate AcceptsNoMore(before: seq<TrustedKey>, after: seq<TrustedKey>, id: KeyId) {
    forall good: Scheme, data: Bytes, sig: Signature, now: Time, role: Role :: sig.keyId == id && Accepts(after, good, data, sig, now, role) ==> Accepts(before, good, data, sig, now, role)
  }

  lemma AcceptsByRights(before: seq<TrustedKey>, after: seq<TrustedKey>, id: KeyId, i: nat)
    requires Distinct(before) && Distinct(after) && Extended(before, after) && i < |before| && before[i].id == id
    ensures AcceptsNoMore(before, after, id) <==> NoMoreThan(RightsOf(after[i]), RightsOf(before[i]))
  {
    if NoMoreThan(RightsOf(after[i]), RightsOf(before[i])) {
      forall good: Scheme, data: Bytes, sig: Signature, now: Time, role: Role | sig.keyId == id && Accepts(after, good, data, sig, now, role)
        ensures Accepts(before, good, data, sig, now, role)
      {
        var j :| 0 <= j < |after| && Verifies(after[j], good, data, sig, role) && !after[j].revoked && ValidAt(after[j], now);
        assert j == i;
        AcceptsMeans(after[i], good, data, sig, now, role);
        AcceptsMeans(before[i], good, data, sig, now, role);
      }
    } else {
      var role, now :| Allows(RightsOf(after[i]), role, now) && !Allows(RightsOf(before[i]), role, now);
      var good: Scheme := (_, _, _) => true;
      var sig := Signature(id, []);
      AcceptsMeans(after[i], good, [], sig, now, role);
      assert Verifies(after[i], good, [], sig, role);
      assert Accepts(after, good, [], sig, now, role);
      forall j | 0 <= j < |before| && Verifies(before[j], good, [], sig, role) && !before[j].revoked
        ensures !ValidAt(before[j], now)
      {
        assert j == i;
        AcceptsMeans(before[i], good, [], sig, now, role);
      }
      assert !Accepts(before, good, [], sig, now, role);
    }
  }

  /** After keyrings, every signature by a key known before that is accepted was
      accepted before, exactly when its entries narrow it. */
  lemma KeyringsNarrowExactlyWhen(before: seq<TrustedKey>, after: seq<TrustedKey>, gs: seq<Grant>, id: KeyId)
    requires Distinct(before) && Distinct(after) && Extended(before, after)
    requires ViewOf(after) == AppliedAll(ViewOf(before), gs) && Present(before, id)
    ensures AcceptsNoMore(before, after, id) <==> Narrows(ViewOf(before), gs, id)
  {
    hide AcceptsNoMore;
    ViewAt(before);
    ViewAt(after);
    var i :| 0 <= i < |before| && before[i].id == id;
    assert after[i].id == id;
    NarrowsExactlyWhen(ViewOf(before), gs, id);
    AcceptsByRights(before, after, id, i);
  }

  /** A keyring with one entry that is for content alone and gives `text` with a
      space before it. */
  function PaddedKeyring(key: string -> Option<Bytes>, text: string): (file: KeyringFile)
    requires ReadKeyText(key, text).decoded.Some?
  {
    var e := KeyringEntry(ReadKeyText(key, text).decoded.value.0, ReadKeyText(key, " " + text), true, None, None, false, [Content]);
    KeyringFile(true, [e], None, [])
  }

  /** It is accepted, and lets a key it names sign content whenever the key may be
      used at all, whatever its roles. */
  method PaddedTextWidens(trust: TrustedKeys, key: string -> Option<Bytes>, text: string, now: Time) returns (r: Result<seq<KeyId>, TrustError>)
    requires trust.Valid() && ReadKeyText(key, text).raw.Some? && ReadKeyText(key, text).decoded.Some?
    requires var id := ReadKeyText(key, text).decoded.value.0; id in ViewOf(trust.keys) && Open(ViewOf(trust.keys)[id], now)
    modifies trust
    ensures r == Ok([ReadKeyText(key, text).decoded.value.0]) && trust.Valid()
    ensures var id := ReadKeyText(key, text).decoded.value.0;
            id in ViewOf(trust.keys) && Allows(ViewOf(trust.keys)[id], Content, now)
  {
    hide *;
    var file := PaddedKeyring(key, text);
    PaddedWidens(ViewOf(trust.keys), key, text, now);
    r := trust.AddKeyring(file);
    assert r.Ok? && r.value == [file.keys[0].id];
  }

  lemma PaddedWidens(v: View, key: string -> Option<Bytes>, text: string, now: Time)
    requires ReadKeyText(key, text).raw.Some? && ReadKeyText(key, text).decoded.Some?
    requires var id := ReadKeyText(key, text).decoded.value.0; id in v && Open(v[id], now)
    ensures var file := PaddedKeyring(key, text);
            KeyringOk(file) && |file.keys| == 1 && file.keys[0].id == ReadKeyText(key, text).decoded.value.0
    ensures var id, after := ReadKeyText(key, text).decoded.value.0, AppliedAll(v, GrantsOf(PaddedKeyring(key, text).keys));
            id in after && Allows(after[id], Content, now)
  {
    SpaceHidesId(key, text);
    var gs := GrantsOf(PaddedKeyring(key, text).keys);
    assert gs == [gs[0]] && gs[..0] == [];
    assert AppliedAll(v, gs) == Applied(AppliedAll(v, []), gs[0]);
    assert Content in [Content];
  }

  /** A refused entry leaves its key behind, with the rights of a key that was
      given directly, if nothing is wrong with it but its ID. */
  function LeftBy(v: View, e: KeyringEntry): (after: View) {
    if e.describedWell && WindowOk(e) && e.roles != [] && e.text.decoded.Some? && e.text.decoded.value.0 != e.id && e.text.decoded.value.0 !in v
    then v[e.text.decoded.value.0 := Rights({Content}, None, None, false)]
    else v
  }

  predicate FailsAt(entries: seq<KeyringEntry>, n: nat) {
    n < |entries| && !EntryOk(entries[n]) && forall j :: 0 <= j < n ==> EntryOk(entries[j])
  }

  predicate FloorFailsAt(floors: seq<BundleFloor>, n: nat) {
    n < |floors| && !ValidName(floors[n].name) && forall j :: 0 <= j < n ==> ValidName(floors[j].name)
  }

  /** The entries before the first that is refused hold, and it left what it leaves. */
  ghost predicate StoppedInKeys(before: View, after: View, entries: seq<KeyringEntry>) {
    exists n: nat :: FailsAt(entries, n) && after == LeftBy(AppliedAll(before, GrantsOf(entries)[..n]), entries[n])
  }

  /** The floors before the first whose name is no name hold. */
  ghost predicate StoppedInFloors(before: map<string, nat>, after: map<string, nat>, floors: seq<BundleFloor>) {
    exists n: nat :: FloorFailsAt(floors, n) && after == WithFloors(before, floors[..n])
  }

  class TrustedKeys {
    var keys: seq<TrustedKey>
    var threshold: nat
    var minSequences: map<string, nat>

    constructor ()
      ensures Valid() && keys == [] && threshold == 0 && minSequences == map[]
    {
      keys, threshold, minSequences := [], 0, map[];
    }

    ghost predicate Valid()
      reads this
    {
      Distinct(keys) && threshold <= MAX_THRESHOLD
    }

    /** Distinct valid signatures a bundle needs. */
    function Threshold(): (n: nat)
      reads this
      ensures n >= 1
    {
      if threshold < 1 then 1 else threshold
    }

    function MinSequence(name: string): (s: Option<nat>)
      reads this
    {
      if name in minSequences then Some(minSequences[name]) else None
    }

    method Clone() returns (c: TrustedKeys)
      requires Valid()
      ensures fresh(c) && c.Valid() && c.keys == keys && c.threshold == threshold && c.minSequences == minSequences
    {
      c := new TrustedKeys();
      c.keys, c.threshold, c.minSequences := keys, threshold, minSequences;
    }

    /** Revokes the key with this ID. */
    method Revoke(id: KeyId) returns (found: bool)
      requires Valid()
      modifies `keys
      ensures Valid() && Narrowed(old(keys), keys) && |keys| == |old(keys)|
      ensures found == Present(old(keys), id)
      ensures forall i :: 0 <= i < |keys| ==>
                keys[i] == old(keys)[i].(revoked := old(keys)[i].revoked || old(keys)[i].id == id)
    {
      found := false;
      for i := 0 to |keys|
        invariant |keys| == |old(keys)|
        invariant forall j :: 0 <= j < i ==> keys[j] == old(keys)[j].(revoked := old(keys)[j].revoked || old(keys)[j].id == id)
        invariant forall j :: i <= j < |keys| ==> keys[j] == old(keys)[j]
        invariant found == exists j :: 0 <= j < i && old(keys)[j].id == id
      {
        if keys[i].id == id {
          keys := keys[i := keys[i].(revoked := true)];
          found := true;
        }
      }
    }

    /** The place of a key, or the number of keys. */
    method Find(id: KeyId) returns (at: nat)
      ensures at <= |keys| && (at < |keys| <==> Present(keys, id))
      ensures at < |keys| ==> keys[at].id == id
    {
      at := 0;
      while at < |keys| && keys[at].id != id
        invariant at <= |keys|
        invariant forall j :: 0 <= j < at ==> keys[j].id != id
      {
        at := at + 1;
      }
    }

    /** Adds a key that may sign content, always, unless it is there already. */
    method AddKeyText(decoded: Option<(KeyId, PublicKey)>) returns (r: Result<KeyId, TrustError>)
      requires Valid()
      modifies `keys
      ensures Valid()
      ensures r == if decoded == None then Err(InvalidKey) else Ok(decoded.value.0)
      ensures keys == if decoded == None || Present(old(keys), decoded.value.0) then old(keys)
                      else old(keys) + [TrustedKey(decoded.value.0, decoded.value.1, [Content], None, None, false)]
      ensures r.Ok? ==> Present(keys, r.value)
    {
      if decoded == None {
        return Err(InvalidKey);
      }
      var (id, key) := decoded.value;
      var at := Find(id);
      if at == |keys| {
        keys := keys + [TrustedKey(id, key, [Content], None, None, false)];
        assert keys[at].id == id;
      }
      r := Ok(id);
    }

    /** One entry of a keyring. A failing entry may leave its key behind, as if
        given directly. */
    method AddEntry(e: KeyringEntry) returns (ok: bool)
      requires Valid()
      modifies `keys
      ensures Valid() && Extended(old(keys), keys)
      ensures ok == EntryOk(e)
      ensures ViewOf(keys) == if ok then Applied(ViewOf(old(keys)), GrantOf(e)) else LeftBy(ViewOf(old(keys)), e)
      ensures Narrowed(old(keys), keys) <==> (ok && e.id in ViewOf(old(keys)) ==> Narrows(ViewOf(old(keys)), [GrantOf(e)], e.id))
    {
      hide Narrowed, ViewOf, Applied, Granted, Narrows, GrantOf, Restrict, EntryRights, LeftBy;
      NarrowedSelf(keys);
      LeavesNothing(ViewOf(keys), e);
      if !e.describedWell {
        return false;
      }
      if e.notBefore.Some? && e.notAfter.Some? && e.notBefore.value > e.notAfter.value {
        return false;
      }
      if e.roles == [] {
        return false;
      }
      var existed := false;
      if e.text.raw.Some? {
        var known := Find(e.text.raw.value);
        existed := known < |keys|;
      }
      var added := AddKeyText(e.text.decoded);
      NarrowedByMore(old(keys), keys);
      if added.Err? || added.value != e.id {
        LeftBehind(old(keys), keys, e);
        return false;
      }
      var at := Find(added.value);
      RestrictMeans(keys[at], e);
      RestrictIsKey(keys[at], e, existed);
      keys := keys[at := Restrict(keys[at], e, existed)];
      ok := true;
      EntryApplied(old(keys), keys, at, e);
      OneNarrows(old(keys), keys, e);
    }

    method AddKeyring(file: KeyringFile) returns (r: Result<seq<KeyId>, TrustError>)
      requires Valid()
      modifies this
      ensures Valid()
      ensures r.Ok? <==> KeyringOk(file)
      ensures r.Err? ==> r.error == InvalidKeyring
      ensures Extended(old(keys), keys) && old(threshold) <= threshold && Raised(old(minSequences), minSequences)
      ensures r.Ok? ==> (Narrowed(old(keys), keys) <==>
                         forall id :: id in ViewOf(old(keys)) ==> Narrows(ViewOf(old(keys)), GrantsOf(file.keys), id))
      ensures r.Ok? ==>
        && ViewOf(keys) == AppliedAll(ViewOf(old(keys)), GrantsOf(file.keys))
        && threshold == Higher(old(threshold), if file.policy.Some? then file.policy.value else 0)
        && minSequences == WithFloors(old(minSequences), file.bundles)
        && |r.value| == |file.keys| && forall i :: 0 <= i < |file.keys| ==> r.value[i] == file.keys[i].id
      ensures !file.formatOk || |file.keys| > MAX_KEYRING_KEYS || !PolicyOk(file) ==>
                keys == old(keys) && threshold == old(threshold) && minSequences == old(minSequences)
      ensures r.Err? && file.formatOk && |file.keys| <= MAX_KEYRING_KEYS && PolicyOk(file) ==>
        && threshold == Higher(old(threshold), if file.policy.Some? then file.policy.value else 0)
        && ((keys == old(keys) && StoppedInFloors(old(minSequences), minSequences, file.bundles))
            || (StoppedInKeys(ViewOf(old(keys)), ViewOf(keys), file.keys)
                && minSequences == WithFloors(old(minSequences), file.bundles)))
    {
      hide Narrowed, ViewOf, ValidName, AppliedAll, WithFloors, EntryOk, Narrows;
      if !file.formatOk || |file.keys| > MAX_KEYRING_KEYS {
        return Err(InvalidKeyring);
      }
      if file.policy.Some? {
        if !(1 <= file.policy.value <= MAX_THRESHOLD) {
          return Err(InvalidKeyring);
        }
        threshold := Higher(threshold, file.policy.value);
      }
      var floored := AddFloors(file.bundles);
      if !floored {
        return Err(InvalidKeyring);
      }
      r := AddEntries(file.keys);
    }

    method AddFloors(floors: seq<BundleFloor>) returns (ok: bool)
      modifies `minSequences
      ensures ok == forall j :: 0 <= j < |floors| ==> ValidName(floors[j].name)
      ensures Raised(old(minSequences), minSequences)
      ensures ok ==> minSequences == WithFloors(old(minSequences), floors)
      ensures !ok ==> StoppedInFloors(old(minSequences), minSequences, floors)
    {
      hide ValidName, WithFloors, Raised, Higher;
      NoFloors(minSequences);
      assert floors[..0] == [];
      for i := 0 to |floors|
        modifies `minSequences
        invariant minSequences == WithFloors(old(minSequences), floors[..i])
        invariant forall j :: 0 <= j < i ==> ValidName(floors[j].name)
      {
        var floor := floors[i];
        FloorsAreHighest(old(minSequences), floors[..i]);
        if !ValidName(floor.name) {
          assert FloorFailsAt(floors, i);
          return false;
        }
        OneMoreFloor(old(minSequences), floors, i);
        minSequences := minSequences[floor.name :=
          Higher(if floor.name in minSequences then minSequences[floor.name] else 0, floor.minSequence)];
      }
      FloorsAreHighest(old(minSequences), floors[..|floors|]);
      assert floors[..|floors|] == floors;
      ok := true;
    }

    method AddEntries(entries: seq<KeyringEntry>) returns (r: Result<seq<KeyId>, TrustError>)
      requires Valid()
      modifies `keys
      ensures Valid()
      ensures r.Ok? <==> forall i :: 0 <= i < |entries| ==> EntryOk(entries[i])
      ensures r.Err? ==> r.error == InvalidKeyring
      ensures Extended(old(keys), keys)
      ensures r.Ok? ==> (Narrowed(old(keys), keys) <==>
                         forall id :: id in ViewOf(old(keys)) ==> Narrows(ViewOf(old(keys)), GrantsOf(entries), id))
      ensures r.Err? ==> StoppedInKeys(ViewOf(old(keys)), ViewOf(keys), entries)
      ensures r.Ok? ==>
        && ViewOf(keys) == AppliedAll(ViewOf(old(keys)), GrantsOf(entries))
        && |r.value| == |entries| && forall i :: 0 <= i < |entries| ==> r.value[i] == entries[i].id
    {
      hide Narrows, Narrowed, ViewOf, Applied, AppliedAll, LeftBy, EntryOk, EntryRights;
      NoGrants(ViewOf(keys));
      var ids := [];
      for i := 0 to |entries|
        modifies `keys
        invariant Valid() && Extended(old(keys), keys)
        invariant forall j :: 0 <= j < i ==> EntryOk(entries[j])
        invariant ViewOf(keys) == AppliedAll(ViewOf(old(keys)), GrantsOf(entries)[..i])
        invariant |ids| == i && forall j :: 0 <= j < i ==> ids[j] == entries[j].id
      {
        var ok := AddEntry(entries[i]);
        if !ok {
          assert FailsAt(entries, i);
          return Err(InvalidKeyring);
        }
        ids := ids + [entries[i].id];
        AppliedOneMore(ViewOf(old(keys)), GrantsOf(entries)[..i], GrantsOf(entries)[i]);
        assert GrantsOf(entries)[..i + 1] == GrantsOf(entries)[..i] + [GrantsOf(entries)[i]];
      }
      assert GrantsOf(entries)[..|entries|] == GrantsOf(entries);
      AllNarrow(old(keys), keys, GrantsOf(entries));
      r := Ok(ids);
    }

    /** The key that made `sig` over `data`, if it may sign as `role` now. */
    method VerifyRole(good: Scheme, data: Bytes, sig: Option<Signature>, now: Time, role: Role)
      returns (r: Result<KeyId, TrustError>)
      requires Valid()
      ensures r.Ok? <==> sig.Some? && Accepts(keys, good, data, sig.value, now, role)
      ensures r.Ok? ==> r.value == sig.value.keyId
      ensures r == Err(KeyRevoked) <==> sig.Some? && exists i :: 0 <= i < |keys| && Verifies(keys[i], good, data, sig.value, role) && keys[i].revoked
      ensures r == Err(Untrusted) <==> sig.Some? && forall i :: 0 <= i < |keys| ==> !Verifies(keys[i], good, data, sig.value, role)
      ensures r == Err(InvalidSignature) <==> sig.None?
      ensures r.Err? ==> r.error in {InvalidSignature, KeyRevoked, KeyOutsideValidity, Untrusted}
    {
      if sig == None {
        return Err(InvalidSignature);
      }
      for i := 0 to |keys|
        invariant forall j :: 0 <= j < i ==> !Verifies(keys[j], good, data, sig.value, role)
      {
        var k := keys[i];
        if role in k.roles && k.id == sig.value.keyId && good(k.key, data, sig.value.blob) {
          assert Verifies(keys[i], good, data, sig.value, role);
          if k.revoked {
            return Err(KeyRevoked);
          }
          if !ValidAt(k, now) {
            return Err(KeyOutsideValidity);
          }
          return Ok(k.id);
        }
      }
      r := Err(Untrusted);
    }
  }

  lemma NoFloors(m: map<string, nat>)
    ensures WithFloors(m, []) == m
  {
  }

  lemma OneMoreFloor(m: map<string, nat>, floors: seq<BundleFloor>, i: nat)
    requires i < |floors|
    ensures WithFloors(m, floors[..i + 1]) == WithFloor(WithFloors(m, floors[..i]), floors[i])
  {
    assert floors[..i + 1][..i] == floors[..i];
  }

  /** A keyring sets the roles of keys it introduces, and can only narrow those
      of keys given before it. */
  function Restrict(k: TrustedKey, e: KeyringEntry, existed: bool): (r: TrustedKey) {
    k.(roles := if existed then Filtered(k.roles, e.roles) else e.roles,
       revoked := k.revoked || e.revoked,
       notBefore := Later(k.notBefore, e.notBefore),
       notAfter := Sooner(k.notAfter, e.notAfter))
  }

  lemma RestrictMeans(k: TrustedKey, e: KeyringEntry)
    ensures RightsOf(Restrict(k, e, e.text.raw.Some?)) == Granted(RightsOf(k), GrantOf(e))
    ensures k.notBefore == None && k.notAfter == None && !k.revoked ==> RightsOf(Restrict(k, e, false)) == EntryRights(e)
  {
    FilteredSet(k.roles, e.roles);
  }

  lemma RestrictIsKey(k: TrustedKey, e: KeyringEntry, existed: bool)
    ensures Restrict(k, e, existed).id == k.id && Restrict(k, e, existed).key == k.key
  {
  }

  lemma OneNarrows(before: seq<TrustedKey>, after: seq<TrustedKey>, e: KeyringEntry)
    requires Distinct(before) && Distinct(after) && Extended(before, after)
    requires ViewOf(after) == Applied(ViewOf(before), GrantOf(e))
    ensures Narrowed(before, after) <==> (e.id in ViewOf(before) ==> Narrows(ViewOf(before), [GrantOf(e)], e.id))
  {
    hide ViewOf;
    var v, gs := ViewOf(before), [GrantOf(e)];
    assert gs[..|gs| - 1] == [];
    assert AppliedAll(v, gs) == Applied(AppliedAll(v, []), GrantOf(e));
    AllNarrow(before, after, gs);
    forall id | id in v && id != e.id
      ensures Narrows(v, gs, id)
    {
    }
  }

  lemma LeavesNothing(v: View, e: KeyringEntry)
    ensures !e.describedWell || !WindowOk(e) || e.roles == [] ==> LeftBy(v, e) == v
  {
  }

  lemma NoGrants(v: View)
    ensures AppliedAll(v, []) == v
  {
  }

  lemma NarrowedSelf(keys: seq<TrustedKey>)
    ensures Narrowed(keys, keys)
  {
  }

  lemma NarrowedByMore(before: seq<TrustedKey>, after: seq<TrustedKey>)
    requires before <= after
    ensures Narrowed(before, after)
  {
  }

  lemma LeftBehind(before: seq<TrustedKey>, after: seq<TrustedKey>, e: KeyringEntry)
    requires Distinct(before) && Distinct(after) && e.describedWell && WindowOk(e) && e.roles != []
    requires e.text.decoded.Some? ==> e.text.decoded.value.0 != e.id
    requires after == if e.text.decoded == None || Present(before, e.text.decoded.value.0) then before
                      else before + [TrustedKey(e.text.decoded.value.0, e.text.decoded.value.1, [Content], None, None, false)]
    ensures ViewOf(after) == LeftBy(ViewOf(before), e)
  {
    ViewAt(before);
    if after != before {
      var v, last := LeftBy(ViewOf(before), e), after[|before|];
      assert RoleSet(last.roles) == {Content};
      forall id
        ensures id in v <==> Present(after, id)
      {
        if Present(before, id) {
          var i :| 0 <= i < |before| && before[i].id == id;
          assert after[i].id == id;
        }
      }
      assert forall i :: 0 <= i < |before| ==> after[i] == before[i];
      ViewsEqual(after, v);
    }
  }

  lemma EntryApplied(before: seq<TrustedKey>, after: seq<TrustedKey>, at: nat, e: KeyringEntry)
    requires Distinct(before) && Distinct(after) && at <= |before| && at < |after| && after[at].id == e.id
    requires at == |before| ==> !Present(before, e.id) && |after| == |before| + 1 && RightsOf(after[at]) == EntryRights(e)
    requires at < |before| ==> |after| == |before| && before[at].id == e.id
                               && RightsOf(after[at]) == Granted(RightsOf(before[at]), GrantOf(e))
    requires forall i :: 0 <= i < |before| && i != at ==> after[i] == before[i]
    ensures ViewOf(after) == Applied(ViewOf(before), GrantOf(e))
  {
    ViewAt(before);
    var v := Applied(ViewOf(before), GrantOf(e));
    forall id
      ensures id in v <==> Present(after, id)
    {
      if Present(before, id) {
        var i :| 0 <= i < |before| && before[i].id == id;
        assert after[i].id == id;
      }
      if Present(after, id) {
        var i :| 0 <= i < |after| && after[i].id == id;
        assert i < |before| && i != at ==> before[i].id == id;
      }
      assert after[at].id == e.id;
    }
    forall i | 0 <= i < |after| && after[i].id in v
      ensures v[after[i].id] == RightsOf(after[i])
    {
      if i != at {
        assert after[i].id != after[at].id;
        assert after[i] == before[i];
      }
    }
    ViewsEqual(after, v);
  }
}
