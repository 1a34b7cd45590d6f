/** Runs in which an installed bundle is lost, or replaced by an update that
    reported failure. */
module InstallWitness {
  import opened Wrappers
  import opened InstallNames
  import opened Installation

  const FINE: Fates := Fates(true, true, {}, true, true, true, true, true)

  method FirstInstall(b: Name, r: Release) returns (m: Installer)
    ensures fresh(m) && m.installed == map[b := r] && InPlace(m.dir, b, r) && Olds(m.dir, b) == {}
    ensures m.dir.Keys <= {b, OldName(b, ZEROS), StagingName(b, ZEROS)}
  {
    m := new Installer(20);
    assert Olds(m.dir, b) == {} && Stagings(m.dir, b) == {};
    var done := m.Update(b, r, ZEROS, ZEROS, FINE);
  }

  /** An update that dies between its two renames. */
  method DieInSwap(m: Installer, b: Name, ts: Release, s: Suffix)
    requires b in m.dir && OldName(b, s) !in m.dir
    modifies m
    ensures m.installed == old(m.installed) && b !in m.dir
    ensures m.dir.Keys <= old(m.dir).Keys + {OldName(b, s), StagingName(b, ZEROS)}
    ensures Olds(m.dir, b) == Olds(old(m.dir), b) + {OldName(b, s)}
    ensures forall n :: n in Olds(old(m.dir), b) ==> m.dir[n] == old(m.dir)[n]
    ensures m.dir[OldName(b, s)] == old(m.dir)[b]
  {
    var stg := StagingName(b, ZEROS);
    ghost var start := m.dir;
    m.life := 9;
    var alive, staged := m.Stage(stg, ts, FINE);
    StagingOnly(start, m.dir, m.installed, b, stg);
    ghost var filled := m.dir;
    m.life := 1;
    var swapped;
    alive, swapped := m.Swap(b, s, stg, FINE);
    assert Olds(m.dir, b) == Olds(filled, b) + {OldName(b, s)};
    forall n | n in Olds(start, b)
      ensures m.dir[n] == start[n]
    {
      OldOrStaging(b, b, n);
      assert SameAt(start, filled, n);
    }
  }

  /** For any two names that clash there is a run in which every call works but
      for one process that dies, and after which a bundle that was installed is
      neither in place nor set aside: the update of the other one, which then
      succeeds, has taken it away. */
  method ClashLoses(a: Name, c: Name) returns (m: Installer, r: Outcome)
    requires Clashes(a, c)
    ensures r.Done? && c in m.installed && m.installed[c] == 1 && !KeptOne(m.dir, m.installed, c)
  {
    hide KeptOne, Olds, Stagings, Recovered, Says, Made, Elsewhere, Of;
    var taken;
    m, taken := ClashBegins(a, c);
    ghost var dir := m.dir;
    var s, t := OtherThan(a, c);
    LostWith(dir, m.installed, a, c, taken);
    MadeElsewhere(a, c, s, t);
    MadeIsNew(a, c, s, t);
    m.life := |Stagings(m.dir, a)| + |Olds(m.dir, a)| + 9;
    r := m.Update(a, 2, s, t, FINE);
    StillLost(Recovered(dir, a, true), m.dir, m.installed, Made(a, s, t), c);
  }

  /** The bundle is installed, and if need be set aside by an update that dies; the
      other's recovery will take the entry `taken`. */
  method ClashBegins(a: Name, c: Name) returns (m: Installer, taken: Name)
    requires Clashes(a, c)
    ensures fresh(m) && m.installed == map[c := 1] && m.dir.Keys <= {c, OldName(c, ZEROS), StagingName(c, ZEROS)}
    ensures taken != a && (OldPrefix(a) <= taken || StagingPrefix(a) <= taken)
    ensures if taken == c then Olds(m.dir, c) == {} else c !in m.dir && Olds(m.dir, c) == {taken}
  {
    m := FirstInstall(c, 1);
    taken := c;
    assert OldName(c, ZEROS) !in Olds(m.dir, c);
    if a + "-" <= c {
      DieInSwap(m, c, 3, ZEROS);
      taken := OldName(c, ZEROS);
      assert OldPrefix(a) == ".old-" + (a + "-") && taken == ".old-" + c + "-" + ZEROS;
    }
  }

  lemma MadeIsNew(a: Name, c: Name, s: Suffix, t: Suffix)
    requires Clashes(a, c) && OldName(a, s) != c && StagingName(a, t) != c
    ensures OldName(a, s) !in {c, OldName(c, ZEROS), StagingName(c, ZEROS)}
    ensures StagingName(a, t) !in {c, OldName(c, ZEROS), StagingName(c, ZEROS)}
  {
    assert |c| > |a|;
    assert |OldName(a, s)| < |OldName(c, ZEROS)| && |StagingName(a, t)| < |StagingName(c, ZEROS)|;
    assert OldName(a, s)[1] == 'o' && StagingName(a, t)[1] == 's' && OldName(c, ZEROS)[1] == 'o' && StagingName(c, ZEROS)[1] == 's';
  }

  /** Suffixes with which an update of `a` makes nothing of the name `c`. */
  method OtherThan(a: Name, c: Name) returns (s: Suffix, t: Suffix)
    ensures OldName(a, s) != c && StagingName(a, t) != c
  {
    s := if OldName(a, ZEROS) == c then FIVES else ZEROS;
    t := if StagingName(a, ZEROS) == c then FIVES else ZEROS;
    assert OldName(a, ZEROS)[|OldPrefix(a)|] == '0' && OldName(a, FIVES)[|OldPrefix(a)|] == '5';
    assert StagingName(a, ZEROS)[|StagingPrefix(a)|] == '0' && StagingName(a, FIVES)[|StagingPrefix(a)|] == '5';
  }

  /** What an update of `a` makes is neither `c` nor one of its copies. */
  lemma MadeElsewhere(a: Name, c: Name, s: Suffix, t: Suffix)
    requires Clashes(a, c) && OldName(a, s) != c && StagingName(a, t) != c
    ensures forall n :: n in Made(a, s, t) ==> !Of(c, n)
  {
    assert |c| > |a|;
    var n := OldName(a, s);
    assert forall k :: |OldPrefix(a)| <= k < |n| ==> n[k] == s[k - |OldPrefix(a)|];
    assert OldPrefix(c)[|OldPrefix(c)| - 1] == '-';
    assert !(OldPrefix(c) <= n);
    assert OldPrefix(c)[1] == 'o' && StagingName(a, t)[1] == 's';
  }

  lemma StillLost(before: Dir, after: Dir, installed: map<Name, Release>, made: set<Name>, c: Name)
    requires c in installed && !KeptOne(before, map[c := 1], c) && installed[c] == 1
    requires Elsewhere(before, after, made) && forall n :: n in made ==> !Of(c, n)
    ensures !KeptOne(after, installed, c)
  {
    if KeptOne(after, installed, c) {
      KeptStays(after, before, installed, c);
    }
  }

  predicate InDirAs(dir: Dir, n: Name, t: Tree) {
    n in dir && dir[n] == t
  }

  /** With copies left over, an update that dies between its renames is undone
      exactly when its own copy sorts after all of them. */
  lemma ComesBackExactlyWhen(dir: Dir, b: Name, s: Suffix)
    requires b in dir && OldName(b, s) !in dir && forall n :: n in Olds(dir, b) ==> dir[n] != dir[b]
    ensures InDirAs(PutBack(Aside(dir, b, s), b), b, dir[b]) <==> forall n :: n in Olds(dir, b) ==> Below(n, OldName(b, s))
  {
    var after, copy := Aside(dir, b, s), OldName(b, s);
    assert Olds(after, b) == Olds(dir, b) + {copy};
    var last := Last(Olds(after, b));
    if last == copy {
      assert forall n :: n in Olds(dir, b) ==> n != copy;
    } else {
      assert Below(copy, last);
      BelowTotal(copy, last);
    }
  }

  /** If the rename that puts the copy back fails, the copy is removed with the
      others, and it was the only one. */
  method CopyDeleted(b: Name) returns (m: Installer)
    ensures m.installed == map[b := 1] && b !in m.dir && Olds(m.dir, b) == {}
  {
    m := FirstInstall(b, 1);
    assert OldName(b, ZEROS) !in Olds(m.dir, b);
    DieInSwap(m, b, 2, ZEROS);
    ghost var before := m.dir;
    assert SetAside(before, b, OldName(b, ZEROS), 1);
    m.life := |Stagings(m.dir, b)| + |Olds(m.dir, b)| + 1;
    RecoveredExactlyWhen(before, m.installed, b, false);
    var _ := m.Recover(b, FINE.(putBack := false));
  }

  const FIVES: Suffix := "5555555555555555"
  const NINES: Suffix := "9999999999999999"

  /** An old copy that was not removed. */
  method LeaveCopy(b: Name) returns (m: Installer)
    ensures fresh(m) && m.installed == map[b := 2] && m.dir == map[b := Whole(2), OldName(b, NINES) := Whole(1)]
  {
    hide Olds;
    m := new Installer(9);
    var stg := StagingName(b, ZEROS);
    NotItself(b, NINES, ZEROS);
    var alive, swapped := m.Stage(stg, 1, FINE);
    alive, swapped := m.Swap(b, ZEROS, stg, FINE);
    assert m.dir == map[b := Whole(1)] && m.installed == map[b := 1];
    m.life := 9;
    alive, swapped := m.Stage(stg, 2, FINE);
    assert m.dir == map[b := Whole(1), stg := Whole(2)];
    OldOrStaging(b, b, OldName(b, NINES));
    alive, swapped := m.Swap(b, NINES, stg, FINE);
    assert m.installed == map[b := 2];
  }

  lemma FirstComesBack(dir: Dir, b: Name)
    requires b !in dir && Olds(dir, b) == {OldName(b, NINES), OldName(b, FIVES)}
    ensures b in Recovered(dir, b, true) && Recovered(dir, b, true)[b] == dir[OldName(b, NINES)] && Olds(Recovered(dir, b, true), b) == {}
  {
    assert OldName(b, NINES) in Olds(dir, b);
    WithoutStagingsSame(dir, b);
    BelowAfter(OldPrefix(b), FIVES, NINES);
    BelowTotal(OldName(b, FIVES), OldName(b, NINES));
    var d := WithoutStagings(dir, b);
    assert Last(Olds(d, b)) == OldName(b, NINES);
    assert Of(b, OldName(b, NINES)) && SameAt(dir, d, OldName(b, NINES));
    assert b !in Olds(PutBack(d, b), b);
  }

  /** A copy that could not be removed comes back instead of the last release,
      which is removed. */
  method OldReturns(b: Name) returns (m: Installer)
    ensures m.installed == map[b := 2] && InPlace(m.dir, b, 1) && Olds(m.dir, b) == {}
  {
    m := LeaveCopy(b);
    OtherCopy(m.dir, b);
    DieInSwap(m, b, 3, FIVES);
    FirstComesBack(m.dir, b);
    m.life := |Stagings(m.dir, b)| + |Olds(m.dir, b)| + 1;
    var _ := m.Recover(b, FINE);
  }

  lemma OtherCopy(dir: Dir, b: Name)
    requires dir == map[b := Whole(2), OldName(b, NINES) := Whole(1)]
    ensures Olds(dir, b) == {OldName(b, NINES)} && OldName(b, FIVES) !in dir
  {
    BelowAfter(OldPrefix(b), FIVES, NINES);
    BelowTotal(OldName(b, FIVES), OldName(b, NINES));
  }

  /** An update that reports that it failed may have installed its release. */
  method FailureInstalls(b: Name) returns (m: Installer, r: Outcome)
    ensures r == Refused(NotSaved) && InPlace(m.dir, b, 1)
  {
    m := new Installer(20);
    assert Olds(m.dir, b) == {} && Stagings(m.dir, b) == {};
    r := m.Update(b, 1, ZEROS, ZEROS, FINE.(saves := false));
  }
}
