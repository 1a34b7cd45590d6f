/** Signed content bundles: the order of checks before content is used. */
module Bundle {
  import opened Wrappers
  import opened Collections
  import opened Trust
  import opened KeySet

  type Digest = Bytes

  const MAX_MANIFEST_BYTES: nat := 1048576
  const MAX_SIGNATURES: nat := 16
  const MAX_REVOCATIONS: nat := 64
  const MAX_FILES: nat := 10000
  const MAX_CONTENT_FILE_BYTES: nat := 268435456
  const MAX_PATH_LEN: nat := 512

  datatype ManifestFile = ManifestFile(path: string, size: nat, sha256: Digest)

  /** `revokeKeys` holds key IDs, whatever their spelling; `None` stands for a
      text that is no key ID. */
  datatype Manifest = Manifest(
    formatOk: bool,
    name: string,
    sequence: nat,
    issued: Time,
    expires: Time,
    files: seq<ManifestFile>,
    revokeKeys: seq<Option<KeyId>>)

  datatype BundleError =
    | NoTrustedKeys
    | Unreadable
    | TooLarge
    | Unsigned
    | InsufficientSignatures(valid: nat, required: nat, problems: nat)
    | InvalidManifest
    | Expired
    | BadFile(path: string)

  /** One of the sixteen signature files: absent, unreadable or above 4096 bytes,
      or its text (which may not be a signature). */
  datatype SignatureFile = Absent | Broken | Text(sig: Option<Signature>)

  /** The signature files looked for, in order. */
  type Slots = s: seq<SignatureFile> | |s| == MAX_SIGNATURES witness seq(MAX_SIGNATURES, _ => Absent)

  /** What a bundle's directory holds. */
  datatype Directory = Directory(manifest: Option<Bytes>, signatures: Slots, files: map<string, Bytes>)

  /** What the model leaves open: the signature scheme, the hash, the JSON
      parser, and which paths are portable. */
  datatype World = World(good: Scheme, sha: Bytes -> Digest, parse: Bytes -> Option<Manifest>, safePath: string -> bool)

  datatype VerifiedBundle = VerifiedBundle(
    manifest: Manifest,
    manifestSha: Digest,
    signers: seq<KeyId>,
    expired: bool,
    files: seq<(string, Bytes)>)

  // ---- The manifest.

  predicate FileOk(w: World, f: ManifestFile) {
    w.safePath(f.path) && |f.path| <= MAX_PATH_LEN && f.size <= MAX_CONTENT_FILE_BYTES
  }

  ghost predicate ManifestOk(w: World, m: Manifest) {
    && m.formatOk && ValidName(m.name) && m.sequence >= 1 && m.issued < m.expires
    && 0 < |m.files| <= MAX_FILES && |m.revokeKeys| <= MAX_REVOCATIONS
    && (forall i :: 0 <= i < |m.revokeKeys| ==> m.revokeKeys[i].Some?)
    && (forall i :: 0 <= i < |m.files| ==> FileOk(w, m.files[i]))
    && (forall i, j :: 0 <= i < j < |m.files| ==> m.files[i].path != m.files[j].path)
  }

  method Validate(w: World, m: Manifest) returns (ok: bool)
    ensures ok <==> ManifestOk(w, m)
  {
    if !m.formatOk || !ValidName(m.name) || m.sequence == 0 || m.expires <= m.issued {
      return false;
    }
    if m.files == [] || |m.files| > MAX_FILES || |m.revokeKeys| > MAX_REVOCATIONS {
      return false;
    }
    if exists i :: 0 <= i < |m.revokeKeys| && m.revokeKeys[i].None? {
      return false;
    }
    var seen := {};
    for i := 0 to |m.files|
      invariant forall path :: path in seen <==> exists j :: 0 <= j < i && m.files[j].path == path
      invariant forall j :: 0 <= j < i ==> FileOk(w, m.files[j])
      invariant forall j, k :: 0 <= j < k < i ==> m.files[j].path != m.files[k].path
    {
      var f := m.files[i];
      if !w.safePath(f.path) || |f.path| > MAX_PATH_LEN {
        return false;
      }
      if f.path in seen {
        var j :| 0 <= j < i && m.files[j].path == f.path;
        return false;
      }
      seen := seen + {f.path};
      if f.size > MAX_CONTENT_FILE_BYTES {
        return false;
      }
    }
    ok := true;
  }

  // ---- Signatures.

  /** Signature file `s` is a good signature over `data` by a key that may sign
      content now. */
  ghost predicate Counts(w: World, keys: seq<TrustedKey>, data: Bytes, now: Time, s: SignatureFile) {
    s.Text? && s.sig.Some? && Accepts(keys, w.good, data, s.sig.value, now, Content)
  }

  ghost predicate CountsFor(w: World, keys: seq<TrustedKey>, data: Bytes, now: Time, s: SignatureFile, id: KeyId) {
    Counts(w, keys, data, now, s) && s.sig.value.keyId == id
  }

  /** `signers` are the keys that signed, each once. */
  ghost predicate SignersOf(w: World, keys: seq<TrustedKey>, data: Bytes, now: Time, files: seq<SignatureFile>, signers: seq<KeyId>) {
    && AllDistinct(signers)
    && (forall id :: id in signers <==>
          exists i :: 0 <= i < |files| && CountsFor(w, keys, data, now, files[i], id))
  }

  /** No signature file is broken, and as many keys signed as there must. */
  ghost predicate SignedBy(w: World, keys: seq<TrustedKey>, threshold: nat, data: Bytes, now: Time, files: seq<SignatureFile>) {
    && (forall i :: 0 <= i < |files| ==> !files[i].Broken?)
    && exists signers :: SignersOf(w, keys, data, now, files, signers) && |signers| >= threshold
  }

  lemma SignersAsMany(w: World, keys: seq<TrustedKey>, data: Bytes, now: Time, files: seq<SignatureFile>, a: seq<KeyId>, b: seq<KeyId>)
    requires SignersOf(w, keys, data, now, files, a) && SignersOf(w, keys, data, now, files, b)
    ensures |a| == |b|
  {
    DistinctSize(a);
    DistinctSize(b);
    assert SetOf(a) == SetOf(b);
  }

  lemma TooFewSigned(w: World, keys: seq<TrustedKey>, threshold: nat, data: Bytes, now: Time, files: seq<SignatureFile>, signers: seq<KeyId>)
    requires SignersOf(w, keys, data, now, files, signers) && |signers| < threshold
    ensures !SignedBy(w, keys, threshold, data, now, files)
  {
    forall others | SignersOf(w, keys, data, now, files, others)
      ensures |others| < threshold
    {
      SignersAsMany(w, keys, data, now, files, signers, others);
    }
  }

  /** Every signature is checked; those that fail, and repeats, do not count. */
  method VerifySignatures(w: World, files: seq<SignatureFile>, data: Bytes, keys: TrustedKeys, now: Time)
    returns (r: Result<seq<KeyId>, BundleError>)
    requires keys.Valid()
    ensures r.Ok? <==> SignedBy(w, keys.keys, keys.Threshold(), data, now, files)
    ensures r.Ok? ==> SignersOf(w, keys.keys, data, now, files, r.value) && |r.value| >= keys.Threshold()
    ensures r.Ok? ==> forall i :: 0 <= i < |files| ==> !files[i].Broken?
    ensures r == Err(Unreadable) <==> exists i :: 0 <= i < |files| && files[i].Broken?
    ensures r == Err(Unsigned) <==> forall i :: 0 <= i < |files| ==> files[i].Absent?
    ensures r.Err? && r.error.InsufficientSignatures? ==>
              r.error.valid < r.error.required == keys.Threshold()
              && exists signers :: |signers| == r.error.valid && SignersOf(w, keys.keys, data, now, files, signers)
    ensures r.Err? ==> r.error.Unreadable? || r.error.Unsigned? || r.error.InsufficientSignatures?
  {
    hide Accepts;
    var signers: seq<KeyId> := [];
    var problems: nat := 0;
    var foundAny := false;
    for i := 0 to |files|
      invariant SignersOf(w, keys.keys, data, now, files[..i], signers)
      invariant foundAny <==> exists j :: 0 <= j < i && !files[j].Absent?
      invariant forall j :: 0 <= j < i ==> !files[j].Broken?
    {
      ghost var before := signers;
      var counted := None;
      match files[i] {
      case Absent =>
      case Broken =>
        return Err(Unreadable);
      case Text(sig) =>
        foundAny := true;
        var who := keys.VerifyRole(w.good, data, sig, now, Content);
        if who.Ok? {
          counted := Some(who.value);
        }
        if who.Ok? && who.value !in signers {
          signers := signers + [who.value];
        } else {
          problems := problems + 1;
        }
      }
      OneMoreSigner(w, keys.keys, data, now, files[..i], files[i], before, signers, counted);
      assert files[..i + 1] == files[..i] + [files[i]];
    }
    assert files[..|files|] == files;
    if |signers| < keys.Threshold() {
      TooFewSigned(w, keys.keys, keys.Threshold(), data, now, files, signers);
    }
    if !foundAny {
      NoneSigned(w, keys.keys, data, now, files, signers);
      return Err(Unsigned);
    }
    if |signers| < keys.Threshold() {
      return Err(InsufficientSignatures(|signers|, keys.Threshold(), problems));
    }
    r := Ok(signers);
  }

  lemma NoneSigned(w: World, keys: seq<TrustedKey>, data: Bytes, now: Time, files: seq<SignatureFile>, signers: seq<KeyId>)
    requires SignersOf(w, keys, data, now, files, signers) && forall i :: 0 <= i < |files| ==> files[i].Absent?
    ensures signers == []
  {
    DistinctSize(signers);
    assert SetOf(signers) == {};
  }

  lemma OneMoreSigner(w: World, keys: seq<TrustedKey>, data: Bytes, now: Time, files: seq<SignatureFile>, s: SignatureFile,
                      before: seq<KeyId>, after: seq<KeyId>, counted: Option<KeyId>)
    requires SignersOf(w, keys, data, now, files, before)
    requires counted.Some? <==> Counts(w, keys, data, now, s)
    requires counted.Some? ==> counted.value == s.sig.value.keyId
    requires after == if counted.Some? && counted.value !in before then before + [counted.value] else before
    ensures SignersOf(w, keys, data, now, files + [s], after)
  {
    hide Accepts;
    var more := files + [s];
    forall id
      ensures id in after <==> exists i :: 0 <= i < |more| && CountsFor(w, keys, data, now, more[i], id)
    {
      if id in before {
        var i :| 0 <= i < |files| && CountsFor(w, keys, data, now, files[i], id);
        assert more[i] == files[i];
      }
      assert more[|files|] == s;
      if i :| 0 <= i < |more| && CountsFor(w, keys, data, now, more[i], id) {
        assert i < |files| ==> more[i] == files[i];
      }
    }
  }

  // ---- Loading.

  /** A bundle that may be used: signed as it must be over the exact bytes that
      were parsed, well formed, and with exactly the files it lists. */
  ghost predicate Sound(w: World, dir: Directory, keys: seq<TrustedKey>, threshold: nat, now: Time, b: VerifiedBundle) {
    && dir.manifest.Some? && |dir.manifest.value| <= MAX_MANIFEST_BYTES
    && w.parse(dir.manifest.value) == Some(b.manifest) && ManifestOk(w, b.manifest)
    && b.manifestSha == w.sha(dir.manifest.value)
    && SignersOf(w, keys, dir.manifest.value, now, dir.signatures, b.signers) && |b.signers| >= threshold
    && b.expired == (now > b.manifest.expires)
    && |b.files| == |b.manifest.files|
    && (forall i :: 0 <= i < |b.files| ==>
          && b.files[i].0 == b.manifest.files[i].path && b.files[i].0 in dir.files && b.files[i].1 == dir.files[b.files[i].0]
          && |b.files[i].1| == b.manifest.files[i].size && w.sha(b.files[i].1) == b.manifest.files[i].sha256)
  }

  /** Its signatures are good, so it may be parsed. */
  ghost predicate Authentic(w: World, dir: Directory, keys: seq<TrustedKey>, threshold: nat, now: Time) {
    dir.manifest.Some? && |dir.manifest.value| <= MAX_MANIFEST_BYTES
    && SignedBy(w, keys, threshold, dir.manifest.value, now, dir.signatures)
  }

  /** And what it parses to is well formed and has not expired, or may have. */
  ghost predicate Acceptable(w: World, dir: Directory, keys: seq<TrustedKey>, threshold: nat, allowExpired: bool, now: Time) {
    && Authentic(w, dir, keys, threshold, now) && Parsed(w, dir).Some? && ManifestOk(w, Parsed(w, dir).value)
    && (allowExpired || now <= Parsed(w, dir).value.expires)
  }

  function Parsed(w: World, dir: Directory): (m: Option<Manifest>) {
    if dir.manifest.None? then None else w.parse(dir.manifest.value)
  }

  /** The listed file is there, as listed. */
  predicate FileMatches(w: World, dir: Directory, f: ManifestFile) {
    f.path in dir.files && |dir.files[f.path]| == f.size && w.sha(dir.files[f.path]) == f.sha256
  }

  predicate FirstBad(w: World, dir: Directory, m: Manifest, i: nat) {
    i < |m.files| && !FileMatches(w, dir, m.files[i]) && forall j :: 0 <= j < i ==> FileMatches(w, dir, m.files[j])
  }

  method LoadBundle(w: World, dir: Directory, keys: TrustedKeys, allowExpired: bool, now: Time)
    returns (r: Result<VerifiedBundle, BundleError>)
    requires keys.Valid()
    ensures r.Ok? ==> Sound(w, dir, keys.keys, keys.Threshold(), now, r.value) && (r.value.expired ==> allowExpired)
    ensures r.Ok? <==> && keys.keys != [] && Acceptable(w, dir, keys.keys, keys.Threshold(), allowExpired, now)
                       && forall i :: 0 <= i < |Parsed(w, dir).value.files| ==> FileMatches(w, dir, Parsed(w, dir).value.files[i])
    ensures r.Err? && r.error.BadFile? <==>
              && keys.keys != [] && Acceptable(w, dir, keys.keys, keys.Threshold(), allowExpired, now)
              && exists i: nat :: FirstBad(w, dir, Parsed(w, dir).value, i)
    ensures r.Err? && r.error.BadFile? ==>
              exists i: nat :: FirstBad(w, dir, Parsed(w, dir).value, i) && r.error.path == Parsed(w, dir).value.files[i].path
    ensures r == Err(InvalidManifest) <==>
              && keys.keys != [] && Authentic(w, dir, keys.keys, keys.Threshold(), now)
              && (Parsed(w, dir).None? || !ManifestOk(w, Parsed(w, dir).value))
    ensures r == Err(Expired) <==>
              && keys.keys != [] && Authentic(w, dir, keys.keys, keys.Threshold(), now)
              && Parsed(w, dir).Some? && ManifestOk(w, Parsed(w, dir).value)
              && !allowExpired && now > Parsed(w, dir).value.expires
    ensures keys.keys == [] <==> r == Err(NoTrustedKeys)
    ensures r == Err(TooLarge) <==> keys.keys != [] && dir.manifest.Some? && |dir.manifest.value| > MAX_MANIFEST_BYTES
  {
    hide SignersOf, ManifestOk, SignedBy;
    if keys.keys == [] {
      return Err(NoTrustedKeys);
    }
    if dir.manifest == None {
      return Err(Unreadable);
    }
    var data := dir.manifest.value;
    if |data| > MAX_MANIFEST_BYTES {
      return Err(TooLarge);
    }
    var signed := VerifySignatures(w, dir.signatures, data, keys, now);
    if signed.Err? {
      return Err(signed.error);
    }
    var parsed := w.parse(data);
    if parsed == None {
      return Err(InvalidManifest);
    }
    var m := parsed.value;
    var valid := Validate(w, m);
    if !valid {
      return Err(InvalidManifest);
    }
    if now > m.expires && !allowExpired {
      return Err(Expired);
    }
    var files: seq<(string, Bytes)> := [];
    for i := 0 to |m.files|
      invariant |files| == i
      invariant forall j :: 0 <= j < i ==>
        FileMatches(w, dir, m.files[j]) && files[j].0 == m.files[j].path && files[j].1 == dir.files[m.files[j].path]
    {
      var f := m.files[i];
      if f.path !in dir.files || |dir.files[f.path]| != f.size || w.sha(dir.files[f.path]) != f.sha256 {
        assert FirstBad(w, dir, m, i);
        return Err(BadFile(f.path));
      }
      files := files + [(f.path, dir.files[f.path])];
    }
    r := Ok(VerifiedBundle(m, w.sha(data), signed.value, now > m.expires, files));
  }

  // ---- What a threshold means.

  /** An accepted bundle has at least the threshold of different keys behind it,
      each of them allowed to sign content at that time. */
  lemma ThresholdIsReal(w: World, dir: Directory, keys: seq<TrustedKey>, threshold: nat, now: Time, b: VerifiedBundle)
    requires Sound(w, dir, keys, threshold, now, b) && Distinct(keys)
    ensures |SetOf(b.signers)| >= threshold
    ensures forall id :: id in b.signers ==>
              exists i :: 0 <= i < |keys| && keys[i].id == id && Allows(RightsOf(keys[i]), Content, now)
    ensures forall i :: 0 <= i < |keys| && keys[i].revoked ==> keys[i].id !in b.signers
  {
    DistinctSize(b.signers);
    forall id | id in b.signers
      ensures exists i :: 0 <= i < |keys| && keys[i].id == id && Allows(RightsOf(keys[i]), Content, now)
    {
      var j :| 0 <= j < |dir.signatures| && CountsFor(w, keys, dir.manifest.value, now, dir.signatures[j], id);
      var sig := dir.signatures[j].sig.value;
      var i :| 0 <= i < |keys| && Verifies(keys[i], w.good, dir.manifest.value, sig, Content)
               && !keys[i].revoked && ValidAt(keys[i], now);
      AcceptsMeans(keys[i], w.good, dir.manifest.value, sig, now, Content);
    }
  }
}
