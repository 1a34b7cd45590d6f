/** What was accepted before: the rollback state, and the file that keeps it. */
module ContentState {
  import opened Wrappers
  import opened Trust
  import opened Bundle

  datatype BundleRecord = BundleRecord(sequence: nat, manifestSha: Digest, signers: seq<KeyId>, acceptedAt: Time)

  datatype TimestampRecord = TimestampRecord(version: nat, expires: Time, checkedAt: Time)

  datatype RevocationRecord = RevocationRecord(byBundle: string, sequence: nat, recordedAt: Time)

  datatype StateFile = StateFile(
    bundles: map<string, BundleRecord>,
    revoked: map<KeyId, RevocationRecord>,
    timestamps: map<string, TimestampRecord>)

  /** The short-lived file of the update channel that names the current release. */
  datatype Freshness = Freshness(version: nat, bundle: string, sequence: nat, manifestSha: Digest, manifestSize: nat, expires: Time)

  datatype StateError = Rollback | Equivocation | TimestampRollback | StaleTimestamp | Io

  // ---- No older than.

  /** A later release, or the same. */
  predicate Supersedes(a: BundleRecord, b: BundleRecord) {
    a.sequence < b.sequence || (a.sequence == b.sequence && a.manifestSha == b.manifestSha)
  }

  /** `b` remembers all that `a` does. */
  ghost predicate AtLeast(a: StateFile, b: StateFile) {
    && (forall name :: name in a.bundles ==> name in b.bundles && Supersedes(a.bundles[name], b.bundles[name]))
    && a.revoked.Keys <= b.revoked.Keys
    && (forall name :: name in a.timestamps ==> name in b.timestamps && a.timestamps[name].version <= b.timestamps[name].version)
  }

  lemma AtLeastThen(a: StateFile, b: StateFile, c: StateFile)
    requires AtLeast(a, b) && AtLeast(b, c)
    ensures AtLeast(a, c)
  {
  }

  function RecordOf(b: VerifiedBundle, now: Time): (r: BundleRecord) {
    BundleRecord(b.manifest.sequence, b.manifestSha, b.signers, now)
  }

  /** What may be accepted for a bundle: nothing below the floor, nothing older
      than what was accepted, and of the same release only the same manifest. */
  predicate MayFollow(data: StateFile, b: VerifiedBundle, floor: Option<nat>) {
    && (floor.Some? ==> floor.value <= b.manifest.sequence)
    && (b.manifest.name in data.bundles ==> Supersedes(data.bundles[b.manifest.name], RecordOf(b, 0)))
  }

  predicate MayFollowStamp(data: StateFile, ts: Freshness) {
    && (ts.bundle in data.timestamps ==> data.timestamps[ts.bundle].version <= ts.version)
    && (ts.bundle in data.bundles ==> data.bundles[ts.bundle].sequence <= ts.sequence)
  }

  /** Bundle `b`, its revocations included, is remembered. */
  ghost predicate Remembers(data: StateFile, b: VerifiedBundle) {
    && b.manifest.name in data.bundles
    && Supersedes(RecordOf(b, 0), data.bundles[b.manifest.name])
    && forall k :: k in b.manifest.revokeKeys && k.Some? ==> k.value in data.revoked
  }

  lemma RemembersStill(a: StateFile, b: StateFile, bundle: VerifiedBundle)
    requires Remembers(a, bundle) && AtLeast(a, b)
    ensures Remembers(b, bundle)
  {
  }

  /** The file `content-state.json`. A replacement that was not seen through to
      the end may be undone by a power loss. */
  class StateStore {
    var visible: StateFile
    /** What a power loss may leave. */
    var possible: set<StateFile>
    /** The last state reported saved. */
    ghost var saved: StateFile

    constructor ()
      ensures Valid() && saved == visible == StateFile(map[], map[], map[])
    {
      visible := StateFile(map[], map[], map[]);
      possible := {StateFile(map[], map[], map[])};
      saved := StateFile(map[], map[], map[]);
    }

    ghost predicate Valid()
      reads this
    {
      && visible in possible
      && forall p :: p in possible ==> AtLeast(saved, p) && AtLeast(p, visible)
    }

    /** Write a temporary, fsync it, rename it over the file, fsync the
        directory. Any step may fail, or be where the process dies. */
    method Replace(data: StateFile) returns (ok: bool)
      requires Valid() && AtLeast(visible, data)
      modifies this
      ensures Valid()
      ensures ok ==> visible == data && possible == {data} && saved == data
      ensures !ok ==> saved == old(saved) && (visible == old(visible) || visible == data)
    {
      forall p | p in possible
        ensures AtLeast(p, data)
      {
        AtLeastThen(p, visible, data);
      }
      AtLeastThen(saved, visible, data);
      if * {
        return false;
      }
      visible := data;
      possible := possible + {data};
      if * {
        return false;
      }
      possible := {data};
      saved := data;
      ok := true;
    }

    method LosePower(left: StateFile)
      requires Valid() && left in possible
      modifies this
      ensures Valid() && visible == left && possible == {left} && saved == old(saved)
    {
      visible := left;
      possible := {left};
    }
  }

  /** The state, loaded and locked. */
  class ContentState {
    const store: StateStore
    var data: StateFile

    constructor (store: StateStore)
      requires store.Valid()
      ensures this.store == store && data == store.visible
    {
      this.store := store;
      data := store.visible;
    }

    method Check(b: VerifiedBundle, floor: Option<nat>) returns (r: Result<(), StateError>)
      ensures r.Ok? <==> MayFollow(data, b, floor)
      ensures r == Err(Equivocation) <==>
                && (floor.Some? ==> floor.value <= b.manifest.sequence)
                && b.manifest.name in data.bundles && data.bundles[b.manifest.name].sequence == b.manifest.sequence
                && data.bundles[b.manifest.name].manifestSha != b.manifestSha
      ensures r.Err? ==> r.error == Rollback || r.error == Equivocation
    {
      var m := b.manifest;
      if floor.Some? && m.sequence < floor.value {
        return Err(Rollback);
      }
      if m.name !in data.bundles {
        return Ok(());
      }
      var known := data.bundles[m.name];
      if m.sequence < known.sequence {
        return Err(Rollback);
      }
      if m.sequence == known.sequence && b.manifestSha != known.manifestSha {
        return Err(Equivocation);
      }
      r := Ok(());
    }

    method CheckTimestamp(ts: Freshness) returns (r: Result<(), StateError>)
      ensures r.Ok? <==> MayFollowStamp(data, ts)
      ensures r == Err(TimestampRollback) <==> ts.bundle in data.timestamps && ts.version < data.timestamps[ts.bundle].version
      ensures r.Err? ==> r.error == TimestampRollback || r.error == StaleTimestamp
    {
      if ts.bundle in data.timestamps && ts.version < data.timestamps[ts.bundle].version {
        return Err(TimestampRollback);
      }
      if ts.bundle in data.bundles && ts.sequence < data.bundles[ts.bundle].sequence {
        return Err(StaleTimestamp);
      }
      r := Ok(());
    }

    method RecordTimestamp(ts: Freshness, now: Time)
      modifies `data
      ensures AtLeast(old(data), data) && data.bundles == old(data).bundles && data.revoked == old(data).revoked
      ensures data.timestamps == old(data).timestamps
              || data.timestamps == old(data).timestamps[ts.bundle := TimestampRecord(ts.version, ts.expires, now)]
      ensures ts.bundle in data.timestamps && ts.version <= data.timestamps[ts.bundle].version
      ensures MayFollowStamp(old(data), ts) ==> data.timestamps[ts.bundle] == TimestampRecord(ts.version, ts.expires, now)
    {
      if ts.bundle !in data.timestamps || ts.version >= data.timestamps[ts.bundle].version {
        data := data.(timestamps := data.timestamps[ts.bundle := TimestampRecord(ts.version, ts.expires, now)]);
      }
    }

    /** Records an accepted bundle and what it revokes. */
    method Record(b: VerifiedBundle, now: Time)
      modifies `data
      ensures AtLeast(old(data), data) && data.timestamps == old(data).timestamps
      ensures MayFollow(old(data), b, None) ==> Remembers(data, b)
      ensures data.bundles == old(data).bundles || data.bundles == old(data).bundles[b.manifest.name := RecordOf(b, now)]
      ensures forall id :: id in data.revoked <==> id in old(data).revoked || Some(id) in b.manifest.revokeKeys
      ensures forall id :: id in old(data).revoked ==> data.revoked[id] == old(data).revoked[id]
    {
      var m := b.manifest;
      for i := 0 to |m.revokeKeys|
        modifies `data
        invariant data.bundles == old(data).bundles && data.timestamps == old(data).timestamps
        invariant forall id :: id in data.revoked <==> id in old(data).revoked || Some(id) in m.revokeKeys[..i]
        invariant forall id :: id in old(data).revoked ==> data.revoked[id] == old(data).revoked[id]
      {
        var k := m.revokeKeys[i];
        if k.Some? && k.value !in data.revoked {
          data := data.(revoked := data.revoked[k.value := RevocationRecord(m.name, m.sequence, now)]);
        }
      }
      assert m.revokeKeys[..|m.revokeKeys|] == m.revokeKeys;
      if m.name !in data.bundles || m.sequence > data.bundles[m.name].sequence {
        data := data.(bundles := data.bundles[m.name := RecordOf(b, now)]);
      }
    }

    method Save() returns (r: Result<(), StateError>)
      requires store.Valid() && AtLeast(store.visible, data)
      modifies store
      ensures store.Valid()
      ensures r.Ok? ==> store.visible == data && store.saved == data && store.possible == {data}
      ensures r.Err? ==> r.error == Io && store.saved == old(store.saved)
                         && (store.visible == old(store.visible) || store.visible == data)
    {
      var ok := store.Replace(data);
      r := if ok then Ok(()) else Err(Io);
    }
  }
}
