/** The keys whose signatures are accepted, and how keyrings restrict them. */
module Trust {
  import opened Wrappers
  import opened Collections
  import opened KeyTexts

  type Bytes = seq<bv8>
  type KeyId = Bytes
  type PublicKey = Bytes
  type Time = int

  const MAX_THRESHOLD: nat := 16
  const MAX_KEYRING_KEYS: nat := 256
  const MAX_NAME_LEN: nat := 128

  datatype Role = Content | Timestamp

  datatype TrustedKey = TrustedKey(
    id: KeyId,
    key: PublicKey,
    roles: seq<Role>,
    notBefore: Option<Time>,
    notAfter: Option<Time>,
    revoked: bool)

  /** A signature names the key it was made with; a key verifies no other. */
  datatype Signature = Signature(keyId: KeyId, blob: Bytes)

  /** Whether the signature's bytes are good for this key and data. */
  type Scheme = (PublicKey, Bytes, Bytes) -> bool

  datatype TrustError = InvalidKey | InvalidKeyring | InvalidSignature | KeyRevoked | KeyOutsideValidity | Untrusted

  /** `text` is what the two readings of the entry's public key give. */
  datatype KeyringEntry = KeyringEntry(
    id: KeyId,
    text: KeyText,
    describedWell: bool,
    notBefore: Option<Time>,
    notAfter: Option<Time>,
    revoked: bool,
    roles: seq<Role>)

  datatype BundleFloor = BundleFloor(name: string, minSequence: nat)

  datatype KeyringFile = KeyringFile(
    formatOk: bool,
    keys: seq<KeyringEntry>,
    policy: Option<nat>,
    bundles: seq<BundleFloor>)

  predicate NameChar(c: char) {
    'a' <= c <= 'z' || 'A' <= c <= 'Z' || '0' <= c <= '9' || c == '.' || c == '_' || c == '-'
  }

  predicate ValidName(name: string) {
    0 < |name| <= MAX_NAME_LEN && forall i :: 0 <= i < |name| ==> NameChar(name[i])
  }

  predicate ValidAt(k: TrustedKey, now: Time) {
    && (k.notBefore.Some? ==> k.notBefore.value <= now)
    && (k.notAfter.Some? ==> now <= k.notAfter.value)
  }

  // ---- What a key may do.

  datatype Rights = Rights(roles: set<Role>, notBefore: Option<Time>, notAfter: Option<Time>, revoked: bool)

  function RoleSet(roles: seq<Role>): (s: set<Role>) {
    set x | x in roles
  }

  function RightsOf(k: TrustedKey): (r: Rights) {
    Rights(RoleSet(k.roles), k.notBefore, k.notAfter, k.revoked)
  }

  function EntryRights(e: KeyringEntry): (r: Rights) {
    Rights(RoleSet(e.roles), e.notBefore, e.notAfter, e.revoked)
  }

  predicate Allows(r: Rights, role: Role, now: Time) {
    role in r.roles && Open(r, now)
  }

  predicate Open(r: Rights, now: Time) {
    && !r.revoked
    && (r.notBefore.Some? ==> r.notBefore.value <= now)
    && (r.notAfter.Some? ==> now <= r.notAfter.value)
  }

  /** No bound is the lowest `notBefore`. */
  function Later(a: Option<Time>, b: Option<Time>): (t: Option<Time>) {
    if a.None? then b else if b.None? then a else if a.value < b.value then b else a
  }

  /** No bound is the highest `notAfter`. */
  function Sooner(a: Option<Time>, b: Option<Time>): (t: Option<Time>) {
    if a.None? then b else if b.None? then a else if b.value < a.value then b else a
  }

  function Meet(a: Rights, b: Rights): (r: Rights) {
    Rights(a.roles * b.roles, Later(a.notBefore, b.notBefore), Sooner(a.notAfter, b.notAfter), a.revoked || b.revoked)
  }

  /** What both allow, and nothing else. */
  lemma MeetAllows(a: Rights, b: Rights)
    ensures forall role, now :: Allows(Meet(a, b), role, now) <==> Allows(a, role, now) && Allows(b, role, now)
  {
  }

  lemma MeetLaws(a: Rights, b: Rights, c: Rights)
    ensures Meet(a, b) == Meet(b, a) && Meet(a, a) == a
    ensures Meet(Meet(a, b), c) == Meet(a, Meet(b, c))
  {
    assert a.roles * b.roles == b.roles * a.roles && a.roles * a.roles == a.roles;
    assert a.roles * b.roles * c.roles == a.roles * (b.roles * c.roles);
  }

  // ---- All keys at once.

  type View = map<KeyId, Rights>

  /** `bare` is whether the entry's key text has the ID as it stands. */
  datatype Grant = Grant(id: KeyId, rights: Rights, bare: bool)

  /** What an entry makes of a known key: unless its text is bare, the key does not
      count as known where roles are concerned. */
  function Granted(r: Rights, g: Grant): (after: Rights) {
    if g.bare then Meet(r, g.rights) else Meet(r, g.rights).(roles := g.rights.roles)
  }

  /** A keyring gives a new key its rights and takes rights from one known. */
  function Applied(v: View, g: Grant): (after: View) {
    v[g.id := if g.id in v then Granted(v[g.id], g) else g.rights]
  }

  function AppliedAll(v: View, gs: seq<Grant>): (after: View) {
    if gs == [] then v else Applied(AppliedAll(v, gs[..|gs| - 1]), gs[|gs| - 1])
  }

  lemma AppliedOneMore(v: View, gs: seq<Grant>, g: Grant)
    ensures AppliedAll(v, gs + [g]) == Applied(AppliedAll(v, gs), g)
  {
    assert (gs + [g])[..|gs|] == gs;
  }

  lemma {:induction false} AppliedThen(v: View, gs: seq<Grant>, hs: seq<Grant>)
    ensures AppliedAll(v, gs + hs) == AppliedAll(AppliedAll(v, gs), hs)
  {
    if hs == [] {
      assert gs + hs == gs;
    } else {
      AppliedThen(v, gs, hs[..|hs| - 1]);
      assert (gs + hs)[..|gs + hs| - 1] == gs + hs[..|hs| - 1];
    }
  }

  // ---- Order.

  /** Which of two entries comes first does not matter. */
  predicate Commute(g: Grant, h: Grant) {
    g.id == h.id ==>
      && (!g.bare && !h.bare ==> g.rights.roles == h.rights.roles)
      && (g.bare && !h.bare ==> h.rights.roles <= g.rights.roles)
      && (!g.bare && h.bare ==> g.rights.roles <= h.rights.roles)
  }

  lemma SwapExactlyWhen(v: View, g: Grant, h: Grant)
    ensures Applied(Applied(v, g), h) == Applied(Applied(v, h), g) <==> Commute(g, h)
  {
    var a, b := Applied(Applied(v, g), h), Applied(Applied(v, h), g);
    if g.id == h.id {
      MeetLaws(g.rights, h.rights, g.rights);
      if g.id in v {
        MeetLaws(v[g.id], g.rights, h.rights);
        MeetLaws(v[g.id], h.rights, g.rights);
      }
      SwapRoles(v, g, h);
      assert a.Keys == b.Keys;
      assert a[g.id] == b[g.id] <==> a == b;
    }
  }

  lemma SwapRoles(v: View, g: Grant, h: Grant)
    requires g.id == h.id
    ensures var a, b := Applied(Applied(v, g), h)[g.id], Applied(Applied(v, h), g)[g.id];
            && a.(roles := {}) == b.(roles := {})
            && (a.roles == b.roles <==> Commute(g, h))
  {
    MeetLaws(g.rights, h.rights, g.rights);
    if g.id in v {
      MeetLaws(v[g.id], g.rights, h.rights);
      MeetLaws(v[g.id], h.rights, g.rights);
    }
  }

  ghost predicate AllCommute(gs: seq<Grant>) {
    forall g, h :: g in gs && h in gs ==> Commute(g, h)
  }

  lemma {:induction false} AppliedFirstLast(v: View, g: Grant, gs: seq<Grant>)
    requires forall h :: h in gs ==> Commute(g, h)
    ensures AppliedAll(Applied(v, g), gs) == Applied(AppliedAll(v, gs), g)
  {
    if gs != [] {
      AppliedFirstLast(v, g, gs[..|gs| - 1]);
      SwapExactlyWhen(AppliedAll(v, gs[..|gs| - 1]), g, gs[|gs| - 1]);
    }
  }

  lemma AppliedLast(v: View, gs: seq<Grant>, k: nat)
    requires k < |gs| && AllCommute(gs)
    ensures AppliedAll(v, gs) == AppliedAll(v, gs[..k] + gs[k + 1..] + [gs[k]])
  {
    var front, back := gs[..k], gs[k + 1..];
    assert gs == (front + [gs[k]]) + back;
    AppliedThen(v, front + [gs[k]], back);
    AppliedOneMore(v, front, gs[k]);
    AppliedFirstLast(AppliedAll(v, front), gs[k], back);
    AppliedThen(v, front, back);
    AppliedOneMore(v, front + back, gs[k]);
  }

  lemma PartCommutes(gs: seq<Grant>, part: seq<Grant>)
    requires AllCommute(gs) && multiset(part) <= multiset(gs)
    ensures AllCommute(part)
  {
    forall g | g in part
      ensures g in gs
    {
      assert g in multiset(part);
      assert g in multiset(gs);
    }
  }

  lemma FindLast(gs: seq<Grant>, hs: seq<Grant>) returns (k: nat)
    requires gs != [] && multiset(gs) == multiset(hs)
    ensures k < |hs| && hs[k] == gs[|gs| - 1]
    ensures multiset(gs[..|gs| - 1]) == multiset(hs[..k] + hs[k + 1..]) && multiset(gs[..|gs| - 1]) <= multiset(gs)
  {
    var n := |gs| - 1;
    assert gs[n] in multiset(hs);
    k :| 0 <= k < |hs| && hs[k] == gs[n];
    MultisetWithout(hs, k);
    MultisetWithout(gs, n);
    assert gs[..n] + gs[n + 1..] == gs[..n];
    assert multiset(gs[..n]) == multiset(gs) - multiset{gs[n]};
  }

  lemma {:induction false} CommutingOrder(v: View, gs: seq<Grant>, hs: seq<Grant>)
    requires multiset(gs) == multiset(hs) && AllCommute(gs)
    ensures AppliedAll(v, gs) == AppliedAll(v, hs)
    decreases |gs|
  {
    hide AppliedAll, Applied, Commute, AllCommute;
    if gs == [] {
      assert |hs| == |multiset(hs)|;
    } else {
      var front, last := gs[..|gs| - 1], gs[|gs| - 1];
      var k := FindLast(gs, hs);
      PartCommutes(gs, hs);
      PartCommutes(gs, front);
      CommutingOrder(v, front, hs[..k] + hs[k + 1..]);
      AppliedLast(v, hs, k);
      AppliedOneMore(v, front, last);
      AppliedOneMore(v, hs[..k] + hs[k + 1..], last);
      assert gs == front + [last];
    }
  }

  /** All but the two. */
  lemma Rest(gs: seq<Grant>, g: Grant, h: Grant) returns (rest: seq<Grant>)
    requires g in gs && h in gs && !Commute(g, h)
    ensures multiset(rest + [g] + [h]) == multiset(gs) == multiset(rest + [h] + [g])
  {
    var i :| 0 <= i < |gs| && gs[i] == g;
    MultisetWithout(gs, i);
    var others := gs[..i] + gs[i + 1..];
    assert h in multiset(gs) && g != h;
    assert h in others by {
      assert h in multiset(others);
    }
    var j :| 0 <= j < |others| && others[j] == h;
    MultisetWithout(others, j);
    rest := others[..j] + others[j + 1..];
    assert multiset(gs) == multiset(rest) + multiset{g} + multiset{h};
  }

  lemma TwoOrders(v: View, gs: seq<Grant>) returns (ghs: seq<Grant>, hgs: seq<Grant>)
    requires !AllCommute(gs)
    ensures multiset(ghs) == multiset(gs) == multiset(hgs) && AppliedAll(v, ghs) != AppliedAll(v, hgs)
  {
    hide AppliedAll, Applied, Commute;
    var g, h :| g in gs && h in gs && !Commute(g, h);
    var rest := Rest(gs, g, h);
    AppliedOneMore(v, rest + [g], h);
    AppliedOneMore(v, rest, g);
    AppliedOneMore(v, rest + [h], g);
    AppliedOneMore(v, rest, h);
    SwapExactlyWhen(AppliedAll(v, rest), g, h);
    ghs, hgs := rest + [g] + [h], rest + [h] + [g];
  }

  /** The order in which keyrings, or their entries, are added does not matter
      exactly when no two entries of one key disagree: two whose texts are not
      bare give the same roles, and one whose text is not gives no role that a
      bare one withholds. */
  lemma OrderExactlyWhen(v: View, gs: seq<Grant>)
    ensures (forall hs :: multiset(gs) == multiset(hs) ==> AppliedAll(v, gs) == AppliedAll(v, hs)) <==> AllCommute(gs)
  {
    hide AppliedAll, Applied, AllCommute;
    if AllCommute(gs) {
      forall hs | multiset(gs) == multiset(hs)
        ensures AppliedAll(v, gs) == AppliedAll(v, hs)
      {
        CommutingOrder(v, gs, hs);
      }
    } else {
      var ghs, hgs := TwoOrders(v, gs);
    }
  }

  // ---- What entries make of a key.

  const ALL_ROLES: set<Role> := {Content, Timestamp}

  /** Some entry of `id` has a text that is not bare. */
  predicate Replaces(gs: seq<Grant>, id: KeyId) {
    exists g :: g in gs && g.id == id && !g.bare
  }

  /** The roles left by the last entry of `id` whose text is not bare, and those
      after it; or, without one, by all of them. */
  function RolesLeft(gs: seq<Grant>, id: KeyId): (roles: set<Role>) {
    if gs == [] then ALL_ROLES
    else
      var front, g := RolesLeft(gs[..|gs| - 1], id), gs[|gs| - 1];
      if g.id != id then front else if g.bare then front * g.rights.roles else g.rights.roles
  }

  function RolesIn(v: View, id: KeyId): (roles: set<Role>) {
    if id in v then v[id].roles else ALL_ROLES
  }

  lemma {:induction false} RolesAre(v: View, gs: seq<Grant>, id: KeyId)
    ensures id in AppliedAll(v, gs) <==> id in v || exists g :: g in gs && g.id == id
    ensures (forall g :: g in gs ==> g.id != id) ==> RolesLeft(gs, id) == ALL_ROLES
    ensures id in AppliedAll(v, gs) ==>
              AppliedAll(v, gs)[id].roles == if Replaces(gs, id) then RolesLeft(gs, id) else RolesIn(v, id) * RolesLeft(gs, id)
  {
    EveryRole();
    if gs != [] {
      var front, g := gs[..|gs| - 1], gs[|gs| - 1];
      RolesAre(v, front, id);
      assert gs == front + [g];
      assert Replaces(gs, id) <==> Replaces(front, id) || (g.id == id && !g.bare);
      assert ALL_ROLES * g.rights.roles == g.rights.roles;
      assert RolesIn(v, id) * (RolesLeft(front, id) * g.rights.roles) == RolesIn(v, id) * RolesLeft(front, id) * g.rights.roles;
    } else {
      assert RolesIn(v, id) * ALL_ROLES == RolesIn(v, id);
    }
  }

  lemma EveryRole()
    ensures forall role: Role :: role in ALL_ROLES
  {
    forall role: Role
      ensures role in ALL_ROLES
    {
      match role
      case Content =>
      case Timestamp =>
    }
  }

  /** What the key had, and what each of its entries gives. */
  function GivenTo(v: View, gs: seq<Grant>, id: KeyId): (rs: set<Rights>)
    requires id in v
  {
    {v[id]} + set g | g in gs && g.id == id :: g.rights
  }

  /** One of them is revoked, or one begins only after another has ended. */
  predicate Closed(rs: set<Rights>) {
    || (exists a :: a in rs && a.revoked)
    || (exists a, b :: a in rs && b in rs && a.notBefore.Some? && b.notAfter.Some? && a.notBefore.value > b.notAfter.value)
  }

  predicate Begins(r: Rights, rs: set<Rights>) {
    && (r.notBefore.Some? ==> exists a :: a in rs && a.notBefore == r.notBefore)
    && (forall a :: a in rs && a.notBefore.Some? ==> r.notBefore.Some? && a.notBefore.value <= r.notBefore.value)
  }

  predicate Ends(r: Rights, rs: set<Rights>) {
    && (r.notAfter.Some? ==> exists a :: a in rs && a.notAfter == r.notAfter)
    && (forall a :: a in rs && a.notAfter.Some? ==> r.notAfter.Some? && a.notAfter.value >= r.notAfter.value)
  }

  /** A key ends up with the latest beginning and the earliest end of all. */
  lemma {:induction false} WindowsAre(v: View, gs: seq<Grant>, id: KeyId)
    requires id in v
    ensures id in AppliedAll(v, gs)
    ensures var r, rs := AppliedAll(v, gs)[id], GivenTo(v, gs, id);
            Begins(r, rs) && Ends(r, rs) && (r.revoked <==> exists a :: a in rs && a.revoked)
  {
    if gs != [] {
      var front, g := gs[..|gs| - 1], gs[|gs| - 1];
      WindowsAre(v, front, id);
      assert gs == front + [g];
      assert GivenTo(v, gs, id) == GivenTo(v, front, id) + if g.id == id then {g.rights} else {};
      if g.id == id {
        MeetWindows(AppliedAll(v, front)[id], g.rights, GivenTo(v, front, id));
      }
    } else {
      assert v[id] in GivenTo(v, gs, id);
    }
  }

  lemma MeetWindows(r: Rights, s: Rights, rs: set<Rights>)
    requires Begins(r, rs) && Ends(r, rs) && (r.revoked <==> exists a :: a in rs && a.revoked)
    ensures Begins(Meet(r, s), rs + {s}) && Ends(Meet(r, s), rs + {s})
    ensures Meet(r, s).revoked <==> exists a :: a in rs + {s} && a.revoked
  {
    assert s in rs + {s} && forall a :: a in rs ==> a in rs + {s};
  }

  /** There is a time at which the key may be used exactly if they are not closed. */
  lemma OpenExactlyWhen(v: View, gs: seq<Grant>, id: KeyId)
    requires id in v
    ensures id in AppliedAll(v, gs)
    ensures (exists now :: Open(AppliedAll(v, gs)[id], now)) <==> !Closed(GivenTo(v, gs, id))
  {
    WindowsAre(v, gs, id);
    var r := AppliedAll(v, gs)[id];
    if !Closed(GivenTo(v, gs, id)) {
      var now := if r.notBefore.Some? then r.notBefore.value else if r.notAfter.Some? then r.notAfter.value else 0;
      assert Open(r, now);
    }
  }

  ghost predicate NoMoreThan(a: Rights, b: Rights) {
    forall role, now :: Allows(a, role, now) ==> Allows(b, role, now)
  }

  /** Entries never lift a revocation or widen a window. */
  lemma {:induction false} RestNarrows(v: View, gs: seq<Grant>, id: KeyId)
    requires id in v
    ensures id in AppliedAll(v, gs)
    ensures forall now :: Open(AppliedAll(v, gs)[id], now) ==> Open(v[id], now)
  {
    if gs != [] {
      RestNarrows(v, gs[..|gs| - 1], id);
    }
  }

  /** Keyrings allow a known key no more than before exactly when every entry of
      it has a bare text, or the last that has not, with those after it, leaves
      only roles that the key had, or what it had and what its entries give have no
      time in common. */
  lemma NarrowsExactlyWhen(v: View, gs: seq<Grant>, id: KeyId)
    requires id in v
    ensures id in AppliedAll(v, gs)
    ensures NoMoreThan(AppliedAll(v, gs)[id], v[id])
       <==> !Replaces(gs, id) || RolesLeft(gs, id) <= v[id].roles || Closed(GivenTo(v, gs, id))
  {
    hide Closed, GivenTo;
    RolesAre(v, gs, id);
    RestNarrows(v, gs, id);
    OpenExactlyWhen(v, gs, id);
    var after := AppliedAll(v, gs)[id];
    if Replaces(gs, id) && !(RolesLeft(gs, id) <= v[id].roles) && !Closed(GivenTo(v, gs, id)) {
      var role :| role in after.roles && role !in v[id].roles;
      var now :| Open(after, now);
      assert Allows(after, role, now) && !Allows(v[id], role, now);
    }
  }

  // ---- Adding again.

  /** `g` has nothing more to take, roles apart. */
  predicate Absorbed(v: View, g: Grant) {
    g.id in v && Meet(v[g.id], g.rights).(roles := {}) == v[g.id].(roles := {})
  }

  lemma AbsorbedStays(v: View, g: Grant, h: Grant)
    requires Absorbed(v, g)
    ensures Absorbed(Applied(v, h), g)
  {
    if g.id == h.id {
      MeetLaws(v[g.id], h.rights, g.rights);
      MeetLaws(h.rights, g.rights, g.rights);
      MeetLaws(v[g.id], g.rights, h.rights);
    }
  }

  lemma {:induction false} AllAbsorbed(v: View, gs: seq<Grant>)
    ensures forall g :: g in gs ==> Absorbed(AppliedAll(v, gs), g)
  {
    if gs != [] {
      var front, last := gs[..|gs| - 1], gs[|gs| - 1];
      AllAbsorbed(v, front);
      forall g | g in gs
        ensures Absorbed(AppliedAll(v, gs), g)
      {
        if g in front {
          AbsorbedStays(AppliedAll(v, front), g, last);
        } else {
          assert g == last;
          var before := AppliedAll(v, front);
          MeetLaws(last.rights, last.rights, last.rights);
          if last.id in before {
            MeetLaws(before[last.id], last.rights, last.rights);
          }
        }
      }
    }
  }

  lemma {:induction false} AbsorbedAll(v: View, gs: seq<Grant>)
    requires forall g :: g in gs ==> Absorbed(v, g)
    ensures AppliedAll(v, gs).Keys == v.Keys
    ensures forall id :: id in v ==> AppliedAll(v, gs)[id].(roles := {}) == v[id].(roles := {})
  {
    if gs != [] {
      AbsorbedAll(v, gs[..|gs| - 1]);
      assert gs[|gs| - 1] in gs;
    }
  }

  /** Adding a keyring again changes nothing. */
  lemma AgainChangesNothing(v: View, gs: seq<Grant>)
    ensures AppliedAll(AppliedAll(v, gs), gs) == AppliedAll(v, gs)
  {
    var w := AppliedAll(v, gs);
    AllAbsorbed(v, gs);
    AbsorbedAll(w, gs);
    forall id | id in w
      ensures AppliedAll(w, gs)[id] == w[id]
    {
      RolesAre(v, gs, id);
      RolesAre(w, gs, id);
    }
  }

  // ---- The key set.

  predicate Distinct(keys: seq<TrustedKey>) {
    forall i, j :: 0 <= i < j < |keys| ==> keys[i].id != keys[j].id
  }

  predicate Present(keys: seq<TrustedKey>, id: KeyId) {
    exists i :: 0 <= i < |keys| && keys[i].id == id
  }

  function ViewOf(keys: seq<TrustedKey>): (v: View) {
    if keys == [] then map[] else ViewOf(keys[..|keys| - 1])[keys[|keys| - 1].id := RightsOf(keys[|keys| - 1])]
  }

  lemma {:induction false} ViewAt(keys: seq<TrustedKey>)
    requires Distinct(keys)
    ensures forall id :: id in ViewOf(keys) <==> Present(keys, id)
    ensures forall i :: 0 <= i < |keys| ==> keys[i].id in ViewOf(keys) && ViewOf(keys)[keys[i].id] == RightsOf(keys[i])
  {
    if keys != [] {
      var front := keys[..|keys| - 1];
      ViewAt(front);
      forall id
        ensures id in ViewOf(keys) <==> Present(keys, id)
      {
        if Present(keys, id) {
          var i :| 0 <= i < |keys| && keys[i].id == id;
          assert i < |front| ==> front[i].id == id;
        }
        if Present(front, id) {
          var i :| 0 <= i < |front| && front[i].id == id;
          assert keys[i].id == id;
        }
        assert keys[|keys| - 1].id == id ==> Present(keys, id);
      }
      forall i | 0 <= i < |keys|
        ensures keys[i].id in ViewOf(keys) && ViewOf(keys)[keys[i].id] == RightsOf(keys[i])
      {
        if i < |front| {
          assert front[i] == keys[i];
        }
      }
    }
  }

  lemma ViewsEqual(keys: seq<TrustedKey>, v: View)
    requires Distinct(keys)
    requires forall id :: id in v <==> Present(keys, id)
    requires forall i :: 0 <= i < |keys| && keys[i].id in v ==> v[keys[i].id] == RightsOf(keys[i])
    ensures ViewOf(keys) == v
  {
    ViewAt(keys);
    forall id | id in v
      ensures id in ViewOf(keys) && ViewOf(keys)[id] == v[id]
    {
      var i :| 0 <= i < |keys| && keys[i].id == id;
    }
  }

  /** Each key known before is still there, the same key, allowing no more. */
  ghost predicate Narrowed(before: seq<TrustedKey>, after: seq<TrustedKey>) {
    && |before| <= |after|
    && forall i :: 0 <= i < |before| ==>
         && after[i].id == before[i].id && after[i].key == before[i].key
         && forall role, now :: Allows(RightsOf(after[i]), role, now) ==> Allows(RightsOf(before[i]), role, now)
  }

  lemma NarrowedThen(a: seq<TrustedKey>, b: seq<TrustedKey>, c: seq<TrustedKey>)
    requires Narrowed(a, b) && Narrowed(b, c)
    ensures Narrowed(a, c)
  {
  }

  /** Every floor of `before` still holds. */
  predicate Raised(before: map<string, nat>, after: map<string, nat>) {
    forall name :: name in before ==> name in after && before[name] <= after[name]
  }

  function Higher(a: nat, b: nat): (m: nat) {
    if a < b then b else a
  }

  function WithFloors(m: map<string, nat>, floors: seq<BundleFloor>): (after: map<string, nat>) {
    if floors == [] then m else WithFloor(WithFloors(m, floors[..|floors| - 1]), floors[|floors| - 1])
  }

  function WithFloor(m: map<string, nat>, f: BundleFloor): (after: map<string, nat>) {
    m[f.name := Higher(if f.name in m then m[f.name] else 0, f.minSequence)]
  }

  /** The floor of a bundle is the highest any keyring gave it. */
  lemma {:induction false} FloorsAreHighest(m: map<string, nat>, floors: seq<BundleFloor>)
    ensures Raised(m, WithFloors(m, floors))
    ensures forall f :: f in floors ==> f.name in WithFloors(m, floors) && f.minSequence <= WithFloors(m, floors)[f.name]
    ensures forall name :: name in WithFloors(m, floors) ==>
              (name in m && WithFloors(m, floors)[name] == m[name]) || BundleFloor(name, WithFloors(m, floors)[name]) in floors
  {
    if floors != [] {
      var front, last := floors[..|floors| - 1], floors[|floors| - 1];
      FloorsAreHighest(m, front);
      assert floors == front + [last];
      forall name | name in WithFloors(m, floors)
        ensures (name in m && WithFloors(m, floors)[name] == m[name]) || BundleFloor(name, WithFloors(m, floors)[name]) in floors
      {
        if name != last.name || WithFloors(m, floors)[name] != last.minSequence {
          assert name in WithFloors(m, front);
        } else {
          assert BundleFloor(name, last.minSequence) == last;
        }
      }
    }
  }

  predicate WindowOk(e: KeyringEntry) {
    e.notBefore.Some? && e.notAfter.Some? ==> e.notBefore.value <= e.notAfter.value
  }

  predicate PolicyOk(file: KeyringFile) {
    file.policy.Some? ==> 1 <= file.policy.value <= MAX_THRESHOLD
  }

  predicate EntryOk(e: KeyringEntry) {
    && e.describedWell
    && WindowOk(e)
    && e.roles != []
    && e.text.decoded.Some? && e.text.decoded.value.0 == e.id
  }

  predicate KeyringOk(file: KeyringFile) {
    && file.formatOk && |file.keys| <= MAX_KEYRING_KEYS
    && PolicyOk(file)
    && (forall i :: 0 <= i < |file.bundles| ==> ValidName(file.bundles[i].name))
    && (forall i :: 0 <= i < |file.keys| ==> EntryOk(file.keys[i]))
  }

  function GrantOf(e: KeyringEntry): (g: Grant) {
    Grant(e.id, EntryRights(e), e.text.raw.Some?)
  }

  function GrantsOf(entries: seq<KeyringEntry>): (gs: seq<Grant>) {
    seq(|entries|, i requires 0 <= i < |entries| => GrantOf(entries[i]))
  }

  /** The roles of `a` that `b` has, in `a`'s order. */
  function Filtered(a: seq<Role>, b: seq<Role>): (r: seq<Role>) {
    if a == [] then [] else Filtered(a[..|a| - 1], b) + (if a[|a| - 1] in b then [a[|a| - 1]] else [])
  }

  lemma {:induction false} FilteredSet(a: seq<Role>, b: seq<Role>)
    ensures RoleSet(Filtered(a, b)) == RoleSet(a) * RoleSet(b)
  {
    if a != [] {
      var front, last := a[..|a| - 1], a[|a| - 1];
      FilteredSet(front, b);
      assert RoleSet(a) == RoleSet(front) + {last};
      assert RoleSet(Filtered(a, b)) == RoleSet(Filtered(front, b)) + (if last in b then {last} else {});
    }
  }
}
