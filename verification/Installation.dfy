/** Putting a verified bundle in place of the installed one: two renames, with a
    copy set aside, and what the next update makes of an interrupted one. Several
    bundles share one directory. */
module Installation {
  import opened Wrappers
  import opened InstallNames

  datatype UpdateError = NotStaged | NotSwapped | NotSaved

  datatype Outcome = Done(changed: bool) | Refused(error: UpdateError) | Died

  /** Which calls work: listing the directory, putting a copy back, removing
      entries (all but `stuck`), completing and verifying the download, the
      renames of a swap, and saving the state. */
  datatype Fates = Fates(lists: bool, putBack: bool, stuck: set<Name>, stages: bool, aside: bool, inPlace: bool, undo: bool, saves: bool)

  // ---- An update.

  /** The installed bundle is renamed away. */
  function Aside(dir: Dir, b: Name, s: Suffix): (after: Dir) {
    if b in dir then (dir - {b})[OldName(b, s) := dir[b]] else dir
  }

  lemma AsideIs(dir: Dir, b: Name, s: Suffix)
    requires b in dir && Olds(dir, b) == {}
    ensures SetAside(Aside(dir, b, s), b, OldName(b, s), dir[b].release) <==> dir[b] == Whole(dir[b].release)
    ensures b !in Aside(dir, b, s)
  {
    assert Olds(Aside(dir, b, s), b) == {OldName(b, s)};
  }

  lemma AsideKept(dir: Dir, installed: map<Name, Release>, b: Name, s: Suffix)
    requires KeptOne(dir, installed, b) && Olds(dir, b) == {}
    ensures KeptOne(Aside(dir, b, s), installed, b)
  {
    if b in dir {
      AsideIs(dir, b, s);
    }
  }

  /** No removal fails, and recovery can list and rename. */
  predicate Smooth(f: Fates) {
    f.lists && f.putBack && f.stuck == {}
  }

  /** The bundle is as recovery leaves it. */
  predicate Clean(dir: Dir, installed: map<Name, Release>, b: Name) {
    && Olds(dir, b) == {}
    && if b in installed then InPlace(dir, b, installed[b]) else b !in dir
  }

  /** What the outcome of an update says of the bundle: on success the new release
      is in place; on an error the old one is, unless it was the save that failed,
      or both the second rename and its undoing. */
  ghost predicate Says(before: map<Name, Release>, dir: Dir, installed: map<Name, Release>, b: Name, ts: Release, f: Fates, r: Outcome) {
    match r
    case Died => false
    case Done(changed) =>
      && InPlace(dir, b, ts) && Olds(dir, b) == {} && installed == before[b := ts]
      && (!changed ==> b in before && before[b] == ts)
    case Refused(NotSaved) => InPlace(dir, b, ts) && installed == before[b := ts]
    case Refused(NotStaged) => installed == before && (b in before ==> InPlace(dir, b, before[b]))
    case Refused(NotSwapped) =>
      && installed == before
      && (b in before ==> (InPlace(dir, b, before[b]) <==> !(f.aside && !f.inPlace && !f.undo)))
  }

  predicate WhyRefused(dir: Dir, b: Name, s: Suffix, t: Suffix, f: Fates, r: Outcome) {
    match r
    case Died => true
    case Done(_) => f.saves
    case Refused(NotStaged) => !f.stages || StagingName(b, t) in dir
    case Refused(NotSwapped) => !f.aside || !f.inPlace || OldName(b, s) in dir
    case Refused(NotSaved) => !f.saves
  }

  lemma StagingOnly(before: Dir, after: Dir, installed: map<Name, Release>, b: Name, stg: Name)
    requires StagingPrefix(b) <= stg && forall n :: n != stg ==> SameAt(before, after, n)
    ensures OnlyOf(b, before, after) && SameAt(before, after, b)
    ensures KeptOne(before, installed, b) ==> KeptOne(after, installed, b)
    ensures Olds(after, b) == Olds(before, b) && (Clean(before, installed, b) <==> Clean(after, installed, b))
    ensures forall s: Suffix :: OldName(b, s) in after <==> OldName(b, s) in before
  {
    forall n | Of(b, n)
      ensures SameAt(before, after, n)
    {
      if OldPrefix(b) <= n {
        OldOrStaging(b, b, n);
      }
    }
    assert Of(b, b);
    assert forall s: Suffix :: Of(b, OldName(b, s));
    SameOlds(before, after, b);
    if KeptOne(before, installed, b) {
      KeptStays(before, after, installed, b);
    }
  }

  lemma CleanSays(dir: Dir, installed: map<Name, Release>, b: Name, ts: Release, f: Fates)
    requires Clean(dir, installed, b)
    ensures KeptOne(dir, installed, b) && Says(installed, dir, installed, b, ts, f, Refused(NotStaged))
  {
  }

  lemma NotSwappedSays(dir: Dir, moved: Dir, after: Dir, installed: map<Name, Release>, b: Name, s: Suffix, ts: Release, f: Fates)
    requires Clean(dir, installed, b) && SameAt(moved, after, b)
    requires moved == if b in dir && f.aside && !f.undo && !f.inPlace then Aside(dir, b, s) else dir
    ensures Says(installed, after, installed, b, ts, f, Refused(NotSwapped))
  {
    AsideClean(dir, installed, b, s);
  }

  lemma DoneSays(before: map<Name, Release>, dir: Dir, b: Name, ts: Release, f: Fates)
    requires InPlace(dir, b, ts)
    ensures Says(before, dir, before[b := ts], b, ts, f, Refused(NotSaved))
    ensures Olds(dir, b) == {} ==> Says(before, dir, before[b := ts], b, ts, f, Done(true))
  {
  }

  lemma AsideClean(dir: Dir, installed: map<Name, Release>, b: Name, s: Suffix)
    ensures OnlyOf(b, dir, Aside(dir, b, s)) && Elsewhere(dir, Aside(dir, b, s), {b, OldName(b, s)})
    ensures Clean(dir, installed, b) ==> KeptOne(dir, installed, b) && KeptOne(Aside(dir, b, s), installed, b)
    ensures Clean(dir, installed, b) ==> OldName(b, s) !in dir && b !in Aside(dir, b, s)
  {
    if Clean(dir, installed, b) {
      assert OldName(b, s) !in Olds(dir, b);
      AsideKept(dir, installed, b, s);
    }
  }

  lemma SwappedIs(dir: Dir, installed: map<Name, Release>, b: Name, s: Suffix, stg: Name)
    requires stg in dir && StagingPrefix(b) <= stg
    ensures var after := (Aside(dir, b, s) - {stg})[b := dir[stg]];
            && OnlyOf(b, dir, after) && stg in Aside(dir, b, s) && (b in dir ==> OldName(b, s) in after)
            && (Clean(dir, installed, b) && dir[stg] == Whole(dir[stg].release) ==>
                  KeptOne(after, installed[b := dir[stg].release], b) && InPlace(after, b, dir[stg].release)
                  && Olds(after, b) == if b in dir then {OldName(b, s)} else {})
  {
    var after := (Aside(dir, b, s) - {stg})[b := dir[stg]];
    OldOrStaging(b, b, OldName(b, s));
    if Clean(dir, installed, b) {
      forall n
        ensures n in Olds(after, b) <==> b in dir && n == OldName(b, s)
      {
        if OldPrefix(b) <= n {
          OldOrStaging(b, b, n);
          assert n !in Olds(dir, b);
        }
      }
    }
  }

  lemma OldGone(before: Dir, after: Dir, installed: map<Name, Release>, b: Name, s: Suffix)
    requires before.Keys - {OldName(b, s)} <= after.Keys <= before.Keys
    requires forall n :: n in after && n != OldName(b, s) ==> after[n] == before[n]
    ensures OnlyOf(b, before, after)
    ensures b in installed && InPlace(before, b, installed[b]) ==> InPlace(after, b, installed[b]) && KeptOne(after, installed, b)
    ensures OldName(b, s) !in after && Olds(before, b) <= {OldName(b, s)} ==> Olds(after, b) == {}
  {
    assert b != OldName(b, s);
    if OldName(b, s) !in after && Olds(before, b) <= {OldName(b, s)} {
      forall n
        ensures n !in Olds(after, b)
      {
        assert n in Olds(after, b) ==> n in Olds(before, b);
      }
    }
  }

  lemma RecoveredClean(dir: Dir, installed: map<Name, Release>, b: Name)
    requires KeptOne(dir, installed, b)
    ensures Clean(Recovered(dir, b, true), installed, b) && KeptOne(Recovered(dir, b, true), installed, b)
  {
    RecoveredExactlyWhen(dir, installed, b, true);
  }

  lemma CurrentSays(dir: Dir, installed: map<Name, Release>, b: Name, ts: Release, f: Fates)
    requires Clean(dir, installed, b) && b in dir && dir[b].release == ts
    ensures Says(installed, dir, installed, b, ts, f, Refused(NotSaved)) && Says(installed, dir, installed, b, ts, f, Done(false))
  {
    assert b in installed && installed[b] == ts;
    assert installed[b := ts] == installed;
  }

  /** The entries an update makes. */
  function Made(b: Name, s: Suffix, t: Suffix): (names: set<Name>) {
    {b, OldName(b, s), StagingName(b, t)}
  }

  /** Other entries are as they were. */
  ghost predicate Elsewhere(before: Dir, after: Dir, made: set<Name>) {
    forall n :: n !in made ==> SameAt(before, after, n)
  }

  lemma NotItself(b: Name, s: Suffix, t: Suffix)
    ensures OldName(b, s) != b && StagingName(b, t) != b
  {
  }

  class Installer {
    var dir: Dir
    /** How many more calls the process lives. */
    var life: nat
    /** The release of each bundle that was last put in place. */
    ghost var installed: map<Name, Release>

    constructor (life: nat)
      ensures dir == map[] && installed == map[] && this.life == life
    {
      dir := map[];
      installed := map[];
      this.life := life;
    }

    method Call() returns (alive: bool)
      modifies `life
      ensures alive == (old(life) > 0) && life == if alive then old(life) - 1 else 0
    {
      alive := life > 0;
      life := if life > 0 then life - 1 else 0;
    }

    /** Removes an entry; a failing removal, or death in it, can leave any part of
        it. */
    method Remove(n: Name, works: bool) returns (alive: bool)
      requires n in dir
      modifies `dir, `life
      ensures alive == (old(life) > 0) && life == if alive then old(life) - 1 else 0
      ensures alive && works ==> dir == old(dir) - {n}
      ensures old(dir).Keys - {n} <= dir.Keys <= old(dir).Keys
      ensures forall x :: x in dir ==> if x == n then Spoiled(old(dir)[n], dir[n]) else dir[x] == old(dir)[x]
    {
      alive := Call();
      if alive && works {
        dir := dir - {n};
      } else if * {
        assert Spoiled(dir[n], dir[n]);
        var part: Tree :| Spoiled(dir[n], part);
        dir := dir[n := part];
      } else if * {
        dir := dir - {n};
      }
    }

    /** Removes entries, as far as that works. */
    method RemoveAll(names: set<Name>, stuck: set<Name>) returns (alive: bool)
      requires names <= dir.Keys
      modifies `dir, `life
      ensures dir.Keys <= old(dir).Keys && forall x :: x !in names ==> SameAt(old(dir), dir, x)
      ensures alive && stuck == {} ==> dir == old(dir) - names
      ensures old(life) >= |names| ==> alive
      ensures old(life) <= life + |names|
    {
      var todo := names;
      alive := true;
      while todo != {}
        invariant todo <= names && todo <= dir.Keys <= old(dir).Keys
        invariant forall x :: x !in names ==> SameAt(old(dir), dir, x)
        invariant forall x :: x in names && x !in todo && x in dir ==> x in stuck
        invariant life + |names| >= old(life) + |todo|
        decreases todo
      {
        var n :| n in todo;
        alive := Remove(n, n !in stuck);
        todo := todo - {n};
        if !alive {
          return;
        }
      }
      if stuck == {} {
        assert forall x :: x in dir <==> x in old(dir) - names;
        assert forall x :: x in dir ==> SameAt(old(dir), dir, x);
      }
    }

    /** Before an update of `b`: puts back the copy of an interrupted one, and
        removes the other copies, or all of them if it could not. */
    method Recover(b: Name, f: Fates) returns (alive: bool)
      modifies `dir, `life
      ensures alive && f.lists && f.stuck == {} ==> dir == Recovered(old(dir), b, f.putBack)
      ensures OnlyOf(b, old(dir), dir) && dir.Keys <= old(dir).Keys + {b}
      ensures KeptOne(old(dir), installed, b) && (f.putBack || b in old(dir) || b !in installed) ==> KeptOne(dir, installed, b)
      ensures KeptOne(old(dir), installed, b) && alive && f.lists && f.stuck == {} ==>
                (KeptOne(dir, installed, b) <==> f.putBack || b in old(dir) || b !in installed)
      ensures old(life) > |Stagings(old(dir), b)| + |Olds(old(dir), b)| ==> alive
      ensures old(life) <= life + |Stagings(old(dir), b)| + |Olds(old(dir), b)| + 1
    {
      if !f.lists {
        return true;
      }
      ghost var start := dir;
      ghost var kept := KeptOne(dir, installed, b);
      alive := RemoveAll(Stagings(dir, b), f.stuck);
      StagingsGone(start, dir, b);
      if kept {
        KeptStays(start, dir, installed, b);
        RecoveredExactlyWhen(start, installed, b, f.putBack);
      }
      if !alive {
        return;
      }
      ghost var some := dir;
      if b !in dir && Olds(dir, b) != {} {
        alive := Call();
        if !alive {
          return;
        }
        if f.putBack {
          dir := PutBack(dir, b);
          PutBackIs(some, installed, b);
        }
      }
      ghost var next := dir;
      alive := RemoveAll(Olds(dir, b), f.stuck);
      OldsGone(next, dir, installed, b);
    }

    /** A new directory, filled and verified; on failure it is removed again. */
    method Stage(stg: Name, ts: Release, f: Fates) returns (alive: bool, staged: bool)
      modifies `dir, `life
      ensures forall n :: n != stg ==> SameAt(old(dir), dir, n)
      ensures staged ==> alive && dir == old(dir)[stg := Whole(ts)]
      ensures stg in old(dir) ==> dir == old(dir)
      ensures alive && !staged ==> !f.stages || stg in old(dir)
      ensures old(life) > 2 ==> alive
      ensures old(life) <= life + 3
    {
      staged := false;
      alive := Call();
      if !alive || stg in dir {
        return;
      }
      dir := dir[stg := Tree(ts, false, false)];
      alive := Call();
      if !alive {
        return;
      }
      if f.stages {
        dir := dir[stg := Whole(ts)];
        staged := true;
      } else {
        alive := Remove(stg, stg !in f.stuck);
      }
    }

    /** The two renames. If the second fails the first is undone, if that works. */
    method Swap(b: Name, s: Suffix, stg: Name, f: Fates) returns (alive: bool, swapped: bool)
      requires stg in dir && StagingPrefix(b) <= stg
      modifies `dir, `life, `installed
      ensures swapped <==> && (b in old(dir) ==> f.aside && OldName(b, s) !in old(dir)) && f.inPlace
                           && old(life) >= (if b in old(dir) then 2 else 1)
      ensures swapped ==> && alive && installed == old(installed)[b := old(dir)[stg].release]
                          && dir == (Aside(old(dir), b, s) - {stg})[b := old(dir)[stg]]
      ensures !swapped ==> installed == old(installed) && (dir == old(dir) || dir == Aside(old(dir), b, s))
      ensures alive && !swapped ==>
                if b in old(dir) && f.aside && OldName(b, s) !in old(dir) && !f.undo then dir == Aside(old(dir), b, s) else dir == old(dir)
      ensures alive && !swapped ==> !f.inPlace || (b in old(dir) && (!f.aside || OldName(b, s) in old(dir)))
      ensures old(life) > 2 ==> alive
      ensures old(life) <= life + 3
      ensures b in old(dir) && f.aside && OldName(b, s) !in old(dir) && old(life) == 1 ==> !alive && dir == Aside(old(dir), b, s)
    {
      var had := b in dir;
      swapped := false;
      if had {
        alive := Call();
        if !alive || !f.aside || OldName(b, s) in dir {
          return;
        }
        dir := Aside(dir, b, s);
      }
      alive := Call();
      if !alive {
        return;
      }
      if f.inPlace {
        installed := installed[b := dir[stg].release];
        dir := (dir - {stg})[b := dir[stg]];
        swapped := true;
      } else if had {
        alive := Call();
        if alive && f.undo {
          dir := (dir - {OldName(b, s)})[b := dir[OldName(b, s)]];
          assert dir == old(dir);
        }
      }
    }

    /** The swap of a verified download, and what follows it. */
    method Place(b: Name, ts: Release, s: Suffix, stg: Name, f: Fates) returns (r: Outcome)
      requires StagingPrefix(b) <= stg && stg in dir && dir[stg] == Whole(ts)
      modifies this
      ensures OnlyOf(b, old(dir), dir) && (installed == old(installed) || installed == old(installed)[b := ts])
      ensures f.stuck == {} && Clean(old(dir), old(installed), b) ==>
                KeptOne(dir, installed, b) && (r.Died? || Says(old(installed), dir, installed, b, ts, f, r))
      ensures !(r.Died? && old(life) > 4) && r != Done(false) && r != Refused(NotStaged)
      ensures Elsewhere(old(dir), dir, {b, OldName(b, s), stg})
      ensures match r case Done(_) => f.saves case Refused(NotSaved) => !f.saves case Died => true
                      case Refused(_) => !f.aside || !f.inPlace || OldName(b, s) in old(dir)
    {
      hide Clean, Says, KeptOne, Aside, Touches, Olds, InPlace;
      ghost var start, before := dir, installed;
      ghost var clean := f.stuck == {} && Clean(start, before, b);
      var had := b in dir;
      AsideClean(start, before, b, s);
      SwappedIs(start, before, b, s, stg);
      var alive, swapped := Swap(b, s, stg, f);
      if !alive {
        return Died;
      }
      ghost var moved := dir;
      if !swapped {
        alive := Remove(stg, stg !in f.stuck);
        StagingOnly(moved, dir, before, b, stg);
        if clean && alive {
          NotSwappedSays(start, moved, dir, before, b, s, ts, f);
        }
        r := if alive then Refused(NotSwapped) else Died;
        return;
      }
      r := SaveState(f, true);
      if r.Done? && had {
        alive := Remove(OldName(b, s), OldName(b, s) !in f.stuck);
        OldGone(moved, dir, installed, b, s);
        if !alive {
          return Died;
        }
      }
      if clean {
        DoneSays(before, dir, b, ts, f);
      }
    }

    /** What follows recovery if there is something to install. */
    method Install(b: Name, ts: Release, s: Suffix, t: Suffix, f: Fates) returns (r: Outcome)
      modifies this
      ensures OnlyOf(b, old(dir), dir) && (installed == old(installed) || installed == old(installed)[b := ts])
      ensures f.stuck == {} && Clean(old(dir), old(installed), b) ==>
                KeptOne(dir, installed, b) && (r.Died? || Says(old(installed), dir, installed, b, ts, f, r))
      ensures r != Done(false) && (old(life) > 7 ==> !r.Died?)
      ensures Elsewhere(old(dir), dir, Made(b, s, t))
      ensures WhyRefused(old(dir), b, s, t, f, r)
    {
      hide Clean, Says, KeptOne, Touches, Olds, InPlace;
      ghost var start := dir;
      var stg := StagingName(b, t);
      var alive, staged := Stage(stg, ts, f);
      StagingOnly(start, dir, installed, b, stg);
      if f.stuck == {} && Clean(start, installed, b) {
        CleanSays(dir, installed, b, ts, f);
      }
      if !alive {
        return Died;
      }
      if !staged {
        return Refused(NotStaged);
      }
      r := Place(b, ts, s, stg, f);
    }

    /** One update, of which the signed timestamp names release `ts` of bundle `b`. */
    method Update(b: Name, ts: Release, s: Suffix, t: Suffix, f: Fates) returns (r: Outcome)
      modifies this
      ensures OnlyOf(b, old(dir), dir) && (installed == old(installed) || installed == old(installed)[b := ts])
      ensures Smooth(f) && KeptOne(old(dir), old(installed), b) ==>
                KeptOne(dir, installed, b) && (r.Died? || Says(old(installed), dir, installed, b, ts, f, r))
      ensures old(life) > |Stagings(old(dir), b)| + |Olds(old(dir), b)| + 8 ==> !r.Died?
      ensures WhyRefused(old(dir), b, s, t, f, r)
      ensures f.lists && f.stuck == {} && !r.Died? ==> Elsewhere(Recovered(old(dir), b, f.putBack), dir, Made(b, s, t))
    {
      hide Says, KeptOne, Clean, Recovered, Olds, Stagings, Touches;
      ghost var start, before := dir, installed;
      var alive := Recover(b, f);
      if !alive {
        return Died;
      }
      ghost var recovered := dir;
      if Smooth(f) && KeptOne(start, before, b) {
        RecoveredClean(start, before, b);
      }
      if b in dir && dir[b].listed && dir[b].release == ts {
        r := SaveState(f, false);
        if Clean(dir, before, b) {
          CurrentSays(dir, before, b, ts, f);
        }
        return;
      }
      NotItself(b, s, t);
      r := Install(b, ts, s, t, f);
    }

    method SaveState(f: Fates, changed: bool) returns (r: Outcome)
      modifies `life
      ensures life == if old(life) > 0 then old(life) - 1 else 0
      ensures r == if old(life) == 0 then Died else if f.saves then Done(changed) else Refused(NotSaved)
    {
      var alive := Call();
      r := if !alive then Died else if f.saves then Done(changed) else Refused(NotSaved);
    }
  }

  // ---- Any number of updates.

  ghost predicate KeptAll(dir: Dir, installed: map<Name, Release>, names: set<Name>) {
    forall b :: b in names ==> KeptOne(dir, installed, b)
  }

  /** An update by a process that lives for `life` calls. */
  datatype Request = Request(bundle: Name, ts: Release, s: Suffix, t: Suffix, fates: Fates, life: nat)

  /** However updates of bundles in one directory fail or die, the release of each
      that was last put in place is still there, and its next update finds it, as
      long as recovery can list and rename, no removal fails, and no two names
      clash. */
  method Updates(m: Installer, requests: seq<Request>, ghost names: set<Name>)
    requires AllApart(names) && KeptAll(m.dir, m.installed, names)
    requires forall k :: 0 <= k < |requests| ==> requests[k].bundle in names && Smooth(requests[k].fates)
    modifies m
    ensures KeptAll(m.dir, m.installed, names)
    ensures forall b :: Get(m.installed, b) == Get(old(m.installed), b)
                        || exists k :: 0 <= k < |requests| && requests[k].bundle == b && Get(m.installed, b) == Some(requests[k].ts)
  {
    hide KeptOne, OnlyOf, Smooth, Clashes;
    for n := 0 to |requests|
      invariant KeptAll(m.dir, m.installed, names)
      invariant forall b :: Get(m.installed, b) == Get(old(m.installed), b)
                            || exists k :: 0 <= k < n && requests[k].bundle == b && Get(m.installed, b) == Some(requests[k].ts)
    {
      var q := requests[n];
      ghost var dir, installed := m.dir, m.installed;
      m.life := q.life;
      var _ := m.Update(q.bundle, q.ts, q.s, q.t, q.fates);
      forall b | b in names
        ensures KeptOne(m.dir, m.installed, b)
      {
        if b != q.bundle {
          OthersKept(dir, m.dir, installed, q.bundle, b);
          SameInstalled(m.dir, installed, m.installed, b);
        }
      }
    }
  }

  function Get(installed: map<Name, Release>, b: Name): (r: Option<Release>) {
    if b in installed then Some(installed[b]) else None
  }

  lemma SameInstalled(dir: Dir, before: map<Name, Release>, after: map<Name, Release>, b: Name)
    requires KeptOne(dir, before, b) && Get(before, b) == Get(after, b)
    ensures KeptOne(dir, after, b)
  {
  }
}
