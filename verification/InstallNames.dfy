/** The directory that bundles are installed in, the names in it, and what recovery
    makes of it. */
module InstallNames {

  /** A release is known by its manifest's hash. */
  type Release = nat

  type Name = string

  /** Random hexadecimal text at the end of a directory's name. */
  type Suffix = s: string | |s| == 16 && forall c :: c in s ==> '0' <= c <= '9' || 'a' <= c <= 'f' witness seq(16, _ => '0')

  /** A bundle's directory: of which release, with all its files or not, and
      with its manifest or not. */
  datatype Tree = Tree(release: Release, intact: bool, listed: bool)

  /** The content directory: bundles under their names, copies set aside and
      downloads begun. */
  type Dir = map<Name, Tree>

  function Whole(r: Release): (t: Tree) {
    Tree(r, true, true)
  }

  /** What a removal that was not completed can leave: the manifest may be gone,
      or other files. */
  predicate Spoiled(before: Tree, after: Tree) {
    after.release == before.release && (after.intact ==> after == before) && (after.listed ==> before.listed)
  }

  // ---- Names.

  function OldPrefix(b: Name): (p: Name) { ".old-" + b + "-" }

  function StagingPrefix(b: Name): (p: Name) { ".staging-" + b + "-" }

  function OldName(b: Name, s: Suffix): (n: Name) { OldPrefix(b) + s }

  function StagingName(b: Name, s: Suffix): (n: Name) { StagingPrefix(b) + s }

  /** What recovery takes for copies of `b`, and for its downloads. */
  function Olds(dir: Dir, b: Name): (names: set<Name>) {
    set n | n in dir && OldPrefix(b) <= n
  }

  function Stagings(dir: Dir, b: Name): (names: set<Name>) {
    set n | n in dir && StagingPrefix(b) <= n
  }

  /** Recovery of bundle `a` takes an entry of bundle `c` for its own. */
  predicate Clashes(a: Name, c: Name) {
    a + "-" <= c || OldPrefix(a) <= c || StagingPrefix(a) <= c
  }

  predicate Apart(a: Name, c: Name) {
    !Clashes(a, c) && !Clashes(c, a)
  }

  ghost predicate AllApart(names: set<Name>) {
    forall a, c :: a in names && c in names ==> !Clashes(a, c)
  }

  /** The entries an update of `b` may change. */
  predicate Touches(b: Name, n: Name) {
    Of(b, n) || StagingPrefix(b) <= n
  }

  /** The entries that matter to bundle `b`. */
  predicate Of(b: Name, n: Name) {
    n == b || OldPrefix(b) <= n
  }

  predicate SameAt(before: Dir, after: Dir, n: Name) {
    (n in before <==> n in after) && (n in before ==> after[n] == before[n])
  }

  /** Only what an update of `b` may touch has changed. */
  ghost predicate OnlyOf(b: Name, before: Dir, after: Dir) {
    forall n :: !Touches(b, n) ==> SameAt(before, after, n)
  }

  lemma OldOrStaging(a: Name, c: Name, n: Name)
    requires OldPrefix(a) <= n
    ensures !(StagingPrefix(c) <= n)
  {
    assert OldPrefix(a)[1] == 'o' && StagingPrefix(c)[1] == 's';
  }

  lemma OldOfTwo(a: Name, c: Name, n: Name)
    requires OldPrefix(a) <= n && OldPrefix(c) <= n && |a| <= |c|
    ensures a == c || a + "-" <= c
  {
    assert OldPrefix(a) == ".old-" + (a + "-") && OldPrefix(c) == ".old-" + (c + "-");
    assert a + "-" == n[5..][..|a| + 1] && c + "-" == n[5..][..|c| + 1];
    assert a + "-" <= c + "-";
    if |a| == |c| {
      assert a == (a + "-")[..|a|] && c == (c + "-")[..|c|];
    } else {
      assert (c + "-")[..|a| + 1] == c[..|a| + 1];
    }
  }

  /** What belongs to another bundle is not touched if the names do not clash. */
  lemma ApartUntouched(a: Name, c: Name, n: Name)
    requires a != c && Apart(a, c) && Of(c, n)
    ensures !Touches(a, n)
  {
    if OldPrefix(c) <= n {
      OldOrStaging(c, a, n);
      if OldPrefix(a) <= n {
        if |a| <= |c| {
          OldOfTwo(a, c, n);
        } else {
          OldOfTwo(c, a, n);
        }
      }
    }
  }

  // ---- Order of names.

  predicate Below(a: Name, b: Name) {
    b != [] && (a == [] || a[0] < b[0] || (a[0] == b[0] && Below(a[1..], b[1..])))
  }

  lemma {:induction false} BelowTotal(a: Name, b: Name)
    ensures a == b || Below(a, b) || Below(b, a)
    ensures !(Below(a, b) && Below(b, a)) && !Below(a, a)
  {
    if a != [] && b != [] {
      BelowTotal(a[1..], b[1..]);
      BelowTotal(a[1..], a[1..]);
      assert a == [a[0]] + a[1..] && b == [b[0]] + b[1..];
    } else if a != [] {
      BelowTotal(a[1..], a[1..]);
    }
  }

  lemma {:induction false} BelowThen(a: Name, b: Name, c: Name)
    requires Below(a, b) && Below(b, c)
    ensures Below(a, c)
  {
    if a != [] && a[0] == b[0] && b[0] == c[0] {
      BelowThen(a[1..], b[1..], c[1..]);
    }
  }

  lemma {:induction false} BelowAfter(p: Name, a: Name, b: Name)
    ensures Below(p + a, p + b) <==> Below(a, b)
  {
    if p == [] {
      assert p + a == a && p + b == b;
    } else {
      assert (p + a)[1..] == p[1..] + a && (p + b)[1..] == p[1..] + b;
      BelowAfter(p[1..], a, b);
    }
  }

  predicate IsLast(names: set<Name>, x: Name) {
    x in names && forall y :: y in names ==> y == x || Below(y, x)
  }

  lemma {:induction false} HasLast(names: set<Name>)
    requires names != {}
    ensures exists x :: IsLast(names, x)
  {
    var x :| x in names;
    if names - {x} == {} {
      assert names == {x};
      assert IsLast(names, x);
    } else {
      HasLast(names - {x});
      var z :| IsLast(names - {x}, z);
      BelowTotal(x, z);
      var last := if Below(z, x) then x else z;
      forall y | y in names
        ensures y == last || Below(y, last)
      {
        if y != x && last == x && y != z {
          BelowThen(y, z, x);
        }
      }
      assert IsLast(names, last);
    }
  }

  lemma OneLast(names: set<Name>)
    ensures forall x, y :: IsLast(names, x) && IsLast(names, y) ==> x == y
  {
    forall x, y | IsLast(names, x) && IsLast(names, y)
      ensures x == y
    {
      BelowTotal(x, y);
    }
  }

  function Last(names: set<Name>): (last: Name)
    requires names != {}
    ensures IsLast(names, last)
  {
    HasLast(names);
    OneLast(names);
    assert forall x :: x in names && (forall y :: y in names ==> y == x || Below(y, x)) ==> IsLast(names, x);
    var x :| x in names && forall y :: y in names ==> y == x || Below(y, x);
    x
  }

  // ---- What is kept.

  /** The installed release of `b` is in place, or its only copy is the one that
      recovery would put back. */
  ghost predicate KeptOne(dir: Dir, installed: map<Name, Release>, b: Name) {
    if b !in installed then b !in dir && Olds(dir, b) == {}
    else (b in dir && dir[b] == Whole(installed[b])) || (b !in dir && exists n :: SetAside(dir, b, n, installed[b]))
  }

  ghost predicate SetAside(dir: Dir, b: Name, n: Name, r: Release) {
    Olds(dir, b) == {n} && n in dir && dir[n] == Whole(r)
  }

  predicate InPlace(dir: Dir, b: Name, r: Release) {
    b in dir && dir[b] == Whole(r)
  }

  lemma SameOlds(before: Dir, after: Dir, b: Name)
    requires forall n :: Of(b, n) ==> SameAt(before, after, n)
    ensures Olds(after, b) == Olds(before, b)
  {
    forall n
      ensures n in Olds(before, b) <==> n in Olds(after, b)
    {
      if OldPrefix(b) <= n {
        assert Of(b, n) && SameAt(before, after, n);
      }
    }
  }

  /** Entries that are neither the bundle's own nor its copies do not matter to it. */
  lemma KeptStays(before: Dir, after: Dir, installed: map<Name, Release>, b: Name)
    requires KeptOne(before, installed, b)
    requires forall n :: Of(b, n) ==> SameAt(before, after, n)
    ensures KeptOne(after, installed, b)
  {
    assert Of(b, b) && SameAt(before, after, b);
    SameOlds(before, after, b);
    if b in installed && b !in before {
      var n :| SetAside(before, b, n, installed[b]);
      assert n in Olds(before, b);
      assert Of(b, n) && SameAt(before, after, n);
      assert SetAside(after, b, n, installed[b]);
    }
  }

  // ---- Recovery.

  /** The newest copy by name takes the place of a missing bundle. */
  function PutBack(dir: Dir, b: Name): (after: Dir) {
    if b in dir || Olds(dir, b) == {} then dir
    else
      var last := Last(Olds(dir, b));
      (dir - {last})[b := dir[last]]
  }

  function WithoutOlds(dir: Dir, b: Name): (after: Dir) { dir - Olds(dir, b) }

  function WithoutStagings(dir: Dir, b: Name): (after: Dir) { dir - Stagings(dir, b) }

  /** What recovery comes to if it can list the directory and no removal fails. */
  function Recovered(dir: Dir, b: Name, putBack: bool): (after: Dir) {
    var d := WithoutStagings(dir, b);
    WithoutOlds(if putBack then PutBack(d, b) else d, b)
  }

  lemma WithoutStagingsSame(dir: Dir, b: Name)
    ensures Olds(WithoutStagings(dir, b), b) == Olds(dir, b)
    ensures forall n :: Of(b, n) ==> SameAt(dir, WithoutStagings(dir, b), n)
  {
    forall n | Of(b, n)
      ensures n !in Stagings(dir, b)
    {
      if n != b {
        OldOrStaging(b, b, n);
      }
    }
  }

  /** A bundle that is kept comes to be in place, unless its copy was the only
      one and could not be put back: that copy is then removed. */
  lemma RecoveredExactlyWhen(dir: Dir, installed: map<Name, Release>, b: Name, putBack: bool)
    requires KeptOne(dir, installed, b)
    ensures var after := Recovered(dir, b, putBack);
            && Olds(after, b) == {}
            && (KeptOne(after, installed, b) <==> b in dir || putBack || b !in installed)
            && (b in installed && (b in dir || putBack) ==> InPlace(after, b, installed[b]))
            && (b in installed && b !in dir && !putBack ==> b !in after)
  {
    WithoutStagingsSame(dir, b);
    var d := WithoutStagings(dir, b);
    KeptStays(dir, d, installed, b);
    if b in installed && b !in dir {
      var n :| SetAside(d, b, n, installed[b]);
      assert Last(Olds(d, b)) == n by {
        assert Last(Olds(d, b)) in Olds(d, b);
      }
    }
    var e := if putBack then PutBack(d, b) else d;
    assert b !in Olds(e, b);
    assert Olds(WithoutOlds(e, b), b) == {};
  }

  lemma StagingsGone(before: Dir, after: Dir, b: Name)
    requires forall x :: x !in Stagings(before, b) ==> SameAt(before, after, x)
    ensures OnlyOf(b, before, after) && Olds(after, b) == Olds(before, b) && SameAt(before, after, b)
    ensures forall n :: Of(b, n) ==> SameAt(before, after, n)
  {
    forall n | Of(b, n)
      ensures SameAt(before, after, n)
    {
      if n != b {
        OldOrStaging(b, b, n);
      }
      assert n !in Stagings(before, b);
    }
    assert Of(b, b);
    SameOlds(before, after, b);
  }

  lemma PutBackIs(dir: Dir, installed: map<Name, Release>, b: Name)
    requires b !in dir && Olds(dir, b) != {}
    ensures OnlyOf(b, dir, PutBack(dir, b)) && PutBack(dir, b).Keys <= dir.Keys + {b}
    ensures b in PutBack(dir, b) && |Olds(PutBack(dir, b), b)| < |Olds(dir, b)|
    ensures KeptOne(dir, installed, b) ==> b in installed && InPlace(PutBack(dir, b), b, installed[b])
  {
    var last := Last(Olds(dir, b));
    assert Olds(PutBack(dir, b), b) == Olds(dir, b) - {last};
    if KeptOne(dir, installed, b) {
      var n :| SetAside(dir, b, n, installed[b]);
    }
  }

  lemma OldsGone(before: Dir, after: Dir, installed: map<Name, Release>, b: Name)
    requires forall x :: x !in Olds(before, b) ==> SameAt(before, after, x)
    ensures OnlyOf(b, before, after)
    ensures KeptOne(before, installed, b) && (b in before || b !in installed) ==> KeptOne(after, installed, b)
  {
    assert b !in Olds(before, b) && SameAt(before, after, b);
    forall n | n !in Olds(before, b)
      ensures n !in Olds(after, b)
    {
      assert SameAt(before, after, n);
    }
  }

  lemma RecoveredTouches(dir: Dir, b: Name, putBack: bool)
    ensures OnlyOf(b, dir, Recovered(dir, b, putBack))
  {
  }

  lemma OthersKept(before: Dir, after: Dir, installed: map<Name, Release>, a: Name, c: Name)
    requires a != c && Apart(a, c) && OnlyOf(a, before, after) && KeptOne(before, installed, c)
    ensures KeptOne(after, installed, c)
  {
    forall n | Of(c, n)
      ensures SameAt(before, after, n)
    {
      ApartUntouched(a, c, n);
    }
    KeptStays(before, after, installed, c);
  }

  /** Recovery of `a` keeps every release of `c` that is kept. */
  ghost predicate Spares(a: Name, c: Name) {
    forall dir: Dir, r :: KeptOne(dir, map[c := r], c) ==> KeptOne(Recovered(dir, a, true), map[c := r], c)
  }

  const ZEROS: Suffix := "0000000000000000"

  /** An entry of `c` that recovery of `a` takes. */
  function Taken(a: Name, c: Name): (n: Name)
    requires Clashes(a, c)
  {
    if a + "-" <= c then OldName(c, ZEROS) else c
  }

  lemma RecoveredTakes(dir: Dir, a: Name, n: Name)
    requires n != a && (OldPrefix(a) <= n || StagingPrefix(a) <= n)
    ensures n !in Recovered(dir, a, true) && Recovered(dir, a, true).Keys <= dir.Keys + {a}
  {
  }

  lemma LostWith(dir: Dir, installed: map<Name, Release>, a: Name, c: Name, n: Name)
    requires Clashes(a, c) && c in installed && n != a && (OldPrefix(a) <= n || StagingPrefix(a) <= n)
    requires if n == c then Olds(dir, c) == {} else c !in dir && Olds(dir, c) == {n}
    ensures !KeptOne(Recovered(dir, a, true), installed, c)
  {
    RecoveredTakes(dir, a, n);
    assert Olds(Recovered(dir, a, true), c) <= Olds(dir, c) - {n};
  }

  lemma TakenIsLost(a: Name, c: Name, r: Release)
    requires Clashes(a, c)
    ensures var dir: Dir := map[Taken(a, c) := Whole(r)];
            KeptOne(dir, map[c := r], c) && !KeptOne(Recovered(dir, a, true), map[c := r], c)
  {
    var n := Taken(a, c);
    var dir: Dir := map[n := Whole(r)];
    if n != c {
      assert OldPrefix(a) == ".old-" + (a + "-") && n == ".old-" + c + "-" + ZEROS;
      assert Olds(dir, c) == {n};
      assert SetAside(dir, c, n, r);
    } else {
      assert Olds(dir, c) == {};
    }
    LostWith(dir, map[c := r], a, c, n);
  }

  /** Recoveries of two bundles keep each other's releases, in every directory,
      exactly when neither name is the other with a dash and more, or reads as one
      of the other's copies or downloads. */
  lemma SparesExactlyWhen(a: Name, c: Name)
    requires a != c
    ensures Spares(a, c) && Spares(c, a) <==> Apart(a, c)
  {
    hide KeptOne, Recovered;
    if Apart(a, c) {
      forall x, y | (x == a && y == c) || (x == c && y == a)
        ensures Spares(x, y)
      {
        forall dir: Dir, r | KeptOne(dir, map[y := r], y)
          ensures KeptOne(Recovered(dir, x, true), map[y := r], y)
        {
          RecoveredTouches(dir, x, true);
          OthersKept(dir, Recovered(dir, x, true), map[y := r], x, y);
        }
      }
    } else if Clashes(a, c) {
      TakenIsLost(a, c, 1);
    } else {
      TakenIsLost(c, a, 1);
    }
  }
}
