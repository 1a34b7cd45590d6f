/** The content directory and power losses: an update renames bundles in it and
    never fsyncs it. */
module InstallPower {
  import opened Wrappers
  import opened FileSystem
  import opened CallRuns
  import opened InstallNames

  const CONTENT: FileSystem.Dir := FileSystem.Dir.Folder("content")

  function Entry(n: InstallNames.Name): (l: Loc) { At(CONTENT, Plain(n)) }

  predicate IsEntry(l: Loc) {
    l.dir == CONTENT && l.name.Plain?
  }

  /** What a listing of the directory shows; `trees` is what each subdirectory
      holds. */
  function DirOf(fs: Fs, trees: Ino -> Tree): (dir: InstallNames.Dir) {
    map l | l in fs.view && IsEntry(l) :: l.name.text := trees(fs.view[l])
  }

  lemma DirOfIs(fs: Fs, trees: Ino -> Tree, n: InstallNames.Name)
    ensures n in DirOf(fs, trees) <==> Entry(n) in fs.view
    ensures n in DirOf(fs, trees) ==> DirOf(fs, trees)[n] == trees(fs.view[Entry(n)])
  {
    if n in DirOf(fs, trees) {
      var l :| l in fs.view && IsEntry(l) && l.name.text == n;
      assert l == Entry(n);
    }
    if Entry(n) in fs.view {
      assert IsEntry(Entry(n)) && Entry(n).name.text == n;
    }
  }

  // ---- When nothing may be left.

  /** A power loss now can leave bundle `b` neither in place nor set aside. */
  ghost predicate CanVanish(fs: Fs, trees: Ino -> Tree, b: InstallNames.Name) {
    exists after :: PowerLoss(fs, after) && b !in DirOf(after, trees) && Olds(DirOf(after, trees), b) == {}
  }

  /** That happens exactly when each of its names may come to refer to nothing. */
  lemma VanishesExactlyWhen(fs: Fs, trees: Ino -> Tree, b: InstallNames.Name)
    ensures CanVanish(fs, trees, b) <==> forall n :: n == b || OldPrefix(b) <= n ==> MayHold(fs, Entry(n), None)
  {
    if after :| PowerLoss(fs, after) && b !in DirOf(after, trees) && Olds(DirOf(after, trees), b) == {} {
      forall n | n == b || OldPrefix(b) <= n
        ensures MayHold(fs, Entry(n), None)
      {
        assert n !in Olds(DirOf(after, trees), b);
        DirOfIs(after, trees, n);
        assert MayHold(fs, Entry(n), Get(after.disk, Entry(n)));
      }
    }
    if forall n :: n == b || OldPrefix(b) <= n ==> MayHold(fs, Entry(n), None) {
      var keep: Loc -> Option<Update> := l => Some(Update(l, None));
      var garbage: Ino -> File := _ => File(Raw([]), true);
      var after := Lose(fs, keep, garbage);
      LoseIsPowerLoss(fs, keep, garbage);
      forall n | n == b || OldPrefix(b) <= n
        ensures n !in DirOf(after, trees)
      {
        DirOfIs(after, trees, n);
        assert MayHold(fs, Entry(n), None);
        assert Kept(fs, Entry(n), keep) == None;
      }
    }
  }

  // ---- A swap.

  /** The calls of a swap that works: the installed bundle is set aside, the new one
      takes its name, and the old one is removed. */
  function SwapCalls(b: InstallNames.Name, s: Suffix, stg: InstallNames.Name): (ops: seq<Op>)
    ensures |ops| == 3
  {
    [Rename(Entry(b), Entry(OldName(b, s))), Rename(Entry(stg), Entry(b)), Unlink(Entry(OldName(b, s)))]
  }

  /** The names before it: the bundle is file `o`, what was downloaded file `n`. */
  ghost predicate Before(names: map<Loc, Ino>, b: InstallNames.Name, stg: InstallNames.Name, o: Ino, n: Ino) {
    && Get(names, Entry(b)) == Some(o) && Get(names, Entry(stg)) == Some(n) && StagingPrefix(b) <= stg
    && forall x :: OldPrefix(b) <= x ==> Entry(x) !in names
  }

  /** The state after `k` of the calls. */
  function Swapping(fs: Fs, b: InstallNames.Name, s: Suffix, stg: InstallNames.Name, k: nat): (after: Fs)
    requires k <= 3 && Possible(fs, SwapCalls(b, s, stg)[..k])
  {
    After(fs, SwapCalls(b, s, stg)[..k])
  }

  /** Whatever a power loss leaves, the next recovery finds the old release or the
      new one. */
  ghost predicate Survives(fs: Fs, trees: Ino -> Tree, b: InstallNames.Name, r: Release, q: Release) {
    forall after :: PowerLoss(fs, after) ==>
      KeptOne(DirOf(after, trees), map[b := r], b) || KeptOne(DirOf(after, trees), map[b := q], b)
  }

  /** The state after `k` calls. */
  function SwapState(fs: Fs, b: InstallNames.Name, s: Suffix, stg: InstallNames.Name, k: nat): (after: Fs)
    requires k <= 3 && Entry(b) in fs.view && Entry(stg) in fs.view && stg != b && stg != OldName(b, s) && OldName(b, s) != b
  {
    var t1 := RenameName(fs, Entry(b), Entry(OldName(b, s)));
    if k == 0 then fs else if k == 1 then t1
    else
      var t2 := RenameName(t1, Entry(stg), Entry(b));
      if k == 2 then t2 else UnlinkName(t2, Entry(OldName(b, s)))
  }

  lemma NamesDiffer(b: InstallNames.Name, s: Suffix, stg: InstallNames.Name)
    requires StagingPrefix(b) <= stg
    ensures stg != b && stg != OldName(b, s) && OldName(b, s) != b
  {
    OldOrStaging(b, b, OldName(b, s));
  }

  lemma SwapSteps(fs: Fs, b: InstallNames.Name, s: Suffix, stg: InstallNames.Name)
    requires Entry(b) in fs.view && Entry(stg) in fs.view && stg != b && stg != OldName(b, s) && OldName(b, s) != b
    ensures forall k :: 0 <= k < 3 ==>
              && CanDo(SwapState(fs, b, s, stg, k), SwapCalls(b, s, stg)[k])
              && Do(SwapState(fs, b, s, stg, k), SwapCalls(b, s, stg)[k]) == SwapState(fs, b, s, stg, k + 1)
  {
    hide OldName;
  }

  lemma {:induction false} SwapLeads(fs: Fs, b: InstallNames.Name, s: Suffix, stg: InstallNames.Name, k: nat)
    requires Entry(b) in fs.view && Entry(stg) in fs.view && stg != b && stg != OldName(b, s) && OldName(b, s) != b
    requires k <= 3
    ensures Leads(fs, SwapCalls(b, s, stg)[..k], SwapState(fs, b, s, stg, k))
  {
    var ops := SwapCalls(b, s, stg);
    assert Leads(fs, [], fs);
    hide SwapCalls, Leads, CanDo, Do;
    if k == 0 {
      assert ops[..0] == [];
    } else {
      hide SwapState;
      SwapLeads(fs, b, s, stg, k - 1);
      SwapSteps(fs, b, s, stg);
      LeadsOne(SwapState(fs, b, s, stg, k - 1), ops[k - 1]);
      LeadsOn(fs, ops[..k - 1], SwapState(fs, b, s, stg, k - 1), [ops[k - 1]], SwapState(fs, b, s, stg, k));
      assert ops[..k] == ops[..k - 1] + [ops[k - 1]];
    }
  }

  /** What may be under the bundle's names after `k` of the calls, and what is. */
  lemma SwapHolds(names: map<Loc, Ino>, files: map<Ino, File>, b: InstallNames.Name, s: Suffix, stg: InstallNames.Name, o: Ino, n: Ino, k: nat)
    requires Before(names, b, stg, o, n) && k <= 3
    ensures Possible(Still(names, files), SwapCalls(b, s, stg)[..k])
    ensures var fs := Swapping(Still(names, files), b, s, stg, k);
            && Get(fs.view, Entry(b)) == (if k == 0 then Some(o) else if k == 1 then None else Some(n))
            && (forall x :: OldPrefix(b) <= x ==>
                  Get(fs.view, Entry(x)) == if x == OldName(b, s) && (k == 1 || k == 2) then Some(o) else None)
            && (MayHold(fs, Entry(b), None) <==> k > 0)
            && (forall x :: OldPrefix(b) <= x ==> MayHold(fs, Entry(x), None))
            && (k == 0 ==> fs == Still(names, files))
  {
    NamesDiffer(b, s, stg);
    SwapLeads(Still(names, files), b, s, stg, k);
    hide Swapping, Possible;
    var fs := SwapState(Still(names, files), b, s, stg, k);
    assert fs.disk == names;
    if k > 0 {
      assert Update(Entry(b), None) in fs.pending;
    }
    forall x | OldPrefix(b) <= x
      ensures Get(fs.view, Entry(x)) == if x == OldName(b, s) && (k == 1 || k == 2) then Some(o) else None
      ensures MayHold(fs, Entry(x), None)
    {
      assert x != b && x != stg by {
        OldOrStaging(b, b, x);
      }
      assert Entry(x) !in names;
    }
  }

  /** From before a swap, a power loss may leave nothing of the bundle as soon as
      the first rename is done, and still after the last call, when the update has
      reported success; an fsync of the directory at that point would prevent it. */
  lemma SwapSurvivesExactlyWhen(names: map<Loc, Ino>, files: map<Ino, File>, trees: Ino -> Tree, b: InstallNames.Name, s: Suffix,
                                stg: InstallNames.Name, o: Ino, n: Ino, k: nat)
    requires Before(names, b, stg, o, n) && k <= 3 && trees(o) == Whole(trees(o).release) && trees(n) == Whole(trees(n).release)
    ensures Possible(Still(names, files), SwapCalls(b, s, stg)[..k])
    ensures var fs := Swapping(Still(names, files), b, s, stg, k);
            && (Survives(fs, trees, b, trees(o).release, trees(n).release) <==> k == 0)
            && (CanVanish(fs, trees, b) <==> k > 0)
            && Survives(SyncNames(fs, CONTENT), trees, b, trees(o).release, trees(n).release)
  {
    hide Survives, CanVanish, PowerLoss, Possible, After;
    SwapHolds(names, files, b, s, stg, o, n, k);
    var fs := Swapping(Still(names, files), b, s, stg, k);
    VanishesExactlyWhen(fs, trees, b);
    SyncedSurvives(fs, trees, b, s, o, n, k);
    if k == 0 {
      StillIsSynced(names, files);
      SyncedSurvives(fs, trees, b, s, o, n, k);
    } else {
      VanishedIsLost(fs, trees, b, trees(o).release, trees(n).release);
    }
  }

  lemma StillIsSynced(names: map<Loc, Ino>, files: map<Ino, File>)
    ensures SyncNames(Still(names, files), CONTENT) == Still(names, files)
  {
    SyncStill(Still(names, files), CONTENT);
  }

  lemma VanishedIsLost(fs: Fs, trees: Ino -> Tree, b: InstallNames.Name, r: Release, q: Release)
    requires CanVanish(fs, trees, b)
    ensures !Survives(fs, trees, b, r, q)
  {
    hide PowerLoss, DirOf, Olds;
    var after :| PowerLoss(fs, after) && b !in DirOf(after, trees) && Olds(DirOf(after, trees), b) == {};
    assert !KeptOne(DirOf(after, trees), map[b := r], b) && !KeptOne(DirOf(after, trees), map[b := q], b);
  }

  lemma SyncedSurvives(fs: Fs, trees: Ino -> Tree, b: InstallNames.Name, s: Suffix, o: Ino, n: Ino, k: nat)
    requires k <= 3 && trees(o) == Whole(trees(o).release) && trees(n) == Whole(trees(n).release)
    requires Get(fs.view, Entry(b)) == (if k == 0 then Some(o) else if k == 1 then None else Some(n))
    requires forall x :: OldPrefix(b) <= x ==>
               Get(fs.view, Entry(x)) == if x == OldName(b, s) && (k == 1 || k == 2) then Some(o) else None
    ensures Survives(SyncNames(fs, CONTENT), trees, b, trees(o).release, trees(n).release)
  {
    var synced := SyncNames(fs, CONTENT);
    forall after | PowerLoss(synced, after)
      ensures KeptOne(DirOf(after, trees), map[b := trees(o).release], b) || KeptOne(DirOf(after, trees), map[b := trees(n).release], b)
    {
      forall x
        ensures Get(after.view, Entry(x)) == Get(fs.view, Entry(x))
      {
        assert MayHold(synced, Entry(x), Get(after.disk, Entry(x)));
        assert Get(synced.disk, Entry(x)) == Get(fs.view, Entry(x));
        assert forall u :: u in synced.pending ==> u.loc != Entry(x);
      }
      ViewSurvives(fs, after, trees, b, s, o, n, k);
    }
  }

  lemma ViewSurvives(fs: Fs, after: Fs, trees: Ino -> Tree, b: InstallNames.Name, s: Suffix, o: Ino, n: Ino, k: nat)
    requires k <= 3 && trees(o) == Whole(trees(o).release) && trees(n) == Whole(trees(n).release)
    requires Get(fs.view, Entry(b)) == (if k == 0 then Some(o) else if k == 1 then None else Some(n))
    requires forall x :: OldPrefix(b) <= x ==>
               Get(fs.view, Entry(x)) == if x == OldName(b, s) && (k == 1 || k == 2) then Some(o) else None
    requires forall x :: Get(after.view, Entry(x)) == Get(fs.view, Entry(x))
    ensures KeptOne(DirOf(after, trees), map[b := trees(o).release], b) || KeptOne(DirOf(after, trees), map[b := trees(n).release], b)
  {
    var dir := DirOf(after, trees);
    DirOfIs(after, trees, b);
    assert Get(after.view, Entry(b)) == Get(fs.view, Entry(b));
    if k == 1 {
      forall x
        ensures x in Olds(dir, b) <==> x == OldName(b, s)
      {
        DirOfIs(after, trees, x);
        assert Get(after.view, Entry(x)) == Get(fs.view, Entry(x));
      }
      DirOfIs(after, trees, OldName(b, s));
      assert SetAside(dir, b, OldName(b, s), trees(o).release);
    }
  }
}
