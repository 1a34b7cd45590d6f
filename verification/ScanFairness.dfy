/** Every fair run of the scan ends, even if files are never finished with. */
module ScanFairness {
  import opened Wrappers
  import opened ScanProtocol
  import opened ScanAccounting
  import opened ScanThreads
  import opened ScanTheorems
  import opened ScanProgress
  import ScanWitness

  /** A run without end: step `i` is `run(i)`. */
  type Run = nat -> Step

  ghost function StateAt(s: State, run: Run, i: nat): (t: State) {
    if i == 0 then s
    else
      var t := StateAt(s, run, i - 1);
      if Enabled(t, run(i - 1)) then Apply(t, run(i - 1)) else t
  }

  ghost predicate Done(s: State, run: Run, i: nat) {
    StateAt(s, run, i).main.pc.Finished?
  }

  /** Until the scan is finished there is always a next step. */
  ghost predicate Runs(s: State, run: Run) {
    forall i: nat :: Done(s, run, i) || Enabled(StateAt(s, run, i), run(i))
  }

  /** What a walker or a worker can do it does in the end, but for panicking and
      for finishing with a file. */
  predicate MustHappen(step: Step) {
    match step
    case ByWalker(walk) => !walk.WalkerPanic? && !walk.Spin?
    case ByWorker(_, work) => !work.Panic? && !work.Finish?
    case ByMain(_) => false
  }

  /** From `i` on, `step` happens or cannot. */
  ghost predicate Happens(s: State, run: Run, step: Step, i: nat) {
    exists j: nat :: i <= j && (run(j) == step || !Enabled(StateAt(s, run, j), step))
  }

  ghost predicate ThreadsFair(s: State, run: Run) {
    forall i: nat, step :: MustHappen(step) ==> Happens(s, run, step, i)
  }

  predicate MainCanMove(s: State) {
    match s.main.pc
    case Joining => s.walker.pc.WalkerGone? && AllEnded(s.workers)
    case Finished => false
    case _ => true
  }

  ghost predicate MainTurn(s: State, run: Run, j: nat) {
    run(j).ByMain? || !MainCanMove(StateAt(s, run, j))
  }

  ghost predicate MainMoves(s: State, run: Run, i: nat) {
    exists j: nat :: i <= j && MainTurn(s, run, j)
  }

  /** The coordinator goes on with its loop. */
  ghost predicate MainFair(s: State, run: Run) {
    forall i: nat :: MainMoves(s, run, i)
  }

  predicate InFile(s: State, w: nat) {
    w < |s.workers| && s.workers[w].live && s.workers[w].slot.Some?
  }

  ghost predicate FoundStalled(s: State, run: Run, w: nat, j: nat) {
    || !InFile(StateAt(s, run, j), w)
    || (run(j) == ByMain(Watch(true)) && StateAt(s, run, j).main.pc.Watching? && StateAt(s, run, j).main.pc.id == w)
  }

  ghost predicate TimesOut(s: State, run: Run, w: nat, i: nat) {
    exists j: nat :: i <= j && FoundStalled(s, run, w, j)
  }

  /** The watchdog does not wait for a file for ever. */
  ghost predicate WatchdogFair(s: State, run: Run) {
    forall i: nat, w: nat :: TimesOut(s, run, w, i)
  }

  ghost predicate Fair(s: State, run: Run) {
    ThreadsFair(s, run) && MainFair(s, run) && WatchdogFair(s, run)
  }

  /** A state the scan can be in. */
  ghost predicate Reached(s: State) {
    0 < s.n && Inv(s) && Waits(s)
  }

  /** Work is done at `i`. */
  ghost predicate Works(s: State, run: Run, i: nat) {
    Work(StateAt(s, run, i + 1)) < Work(StateAt(s, run, i))
  }

  // ---- Steps that do no work.

  /** A step does work, or only moves the coordinator in its loop. */
  lemma StepWorks(s: State, step: Step)
    requires Inv(s) && Enabled(s, step)
    ensures Work(Apply(s, step)) <= Work(s)
    ensures Work(Apply(s, step)) < Work(s) || OnlyMoved(s, Apply(s, step))
    ensures MustHappen(step) ==> Work(Apply(s, step)) < Work(s)
    ensures !step.ByMain? && Work(Apply(s, step)) == Work(s) ==> Apply(s, step) == s
  {
    hide Inv, Work;
    WorkIsNat(s);
    match step
    case ByWalker(walk) =>
      if !walk.Spin? {
        WalkerWorks(s, walk);
      }
    case ByWorker(w, work) => WorkerWorks(s, w, work);
    case ByMain(move) => MainWorks(s, move);
  }

  /** How many steps change more than where the coordinator is in its loop. */
  function Changes(s: State, steps: seq<Step>): (k: nat)
    requires Possible(s, steps)
    decreases |steps|
  {
    if steps == [] then 0
    else (if OnlyMoved(s, Apply(s, steps[0])) then 0 else 1) + Changes(Apply(s, steps[0]), steps[1..])
  }

  /** No more than there is work at the start, however long the run. */
  lemma {:induction false} ChangesRunOut(s: State, steps: seq<Step>)
    requires Inv(s) && Possible(s, steps)
    ensures Changes(s, steps) <= Work(s)
    decreases |steps|
  {
    hide Inv, Work, Enabled, Apply, OnlyMoved;
    if steps == [] {
      WorkIsNat(s);
    } else {
      StepWorks(s, steps[0]);
      StepKeeps(s, steps[0]);
      ChangesRunOut(Apply(s, steps[0]), steps[1..]);
    }
  }

  // ---- Runs.

  lemma {:induction false} ReachedAt(s: State, run: Run, i: nat)
    requires Reached(s)
    ensures Reached(StateAt(s, run, i))
  {
    hide Inv, Waits, Enabled, Apply;
    if i > 0 {
      ReachedAt(s, run, i - 1);
      var t := StateAt(s, run, i - 1);
      if Enabled(t, run(i - 1)) {
        StepKeeps(t, run(i - 1));
        WaitsKept(t, run(i - 1));
        EntriesStay(t, run(i - 1));
      }
    }
  }

  /** The next step of an unfinished run. */
  lemma NextStep(s: State, run: Run, i: nat)
    requires Reached(s) && Runs(s, run) && !Done(s, run, i)
    ensures Reached(StateAt(s, run, i)) && Enabled(StateAt(s, run, i), run(i))
    ensures StateAt(s, run, i + 1) == Apply(StateAt(s, run, i), run(i))
    ensures Works(s, run, i) || OnlyMoved(StateAt(s, run, i), StateAt(s, run, i + 1))
    ensures !Works(s, run, i) ==> !MustHappen(run(i)) && (!run(i).ByMain? ==> StateAt(s, run, i + 1) == StateAt(s, run, i))
  {
    hide Inv, Waits, Work, Enabled, Apply, OnlyMoved;
    ReachedAt(s, run, i);
    StepWorks(StateAt(s, run, i), run(i));
  }

  lemma MovedThen(a: State, b: State, c: State)
    requires OnlyMoved(a, b) && OnlyMoved(b, c)
    ensures OnlyMoved(a, c)
  {
  }

  lemma MovedNot(a: State)
    ensures OnlyMoved(a, a)
  {
  }

  /** From `i` to `j` work is done, or the scan ends, or nothing changes but
      where the coordinator is. */
  lemma {:induction false} WorksOrMoved(s: State, run: Run, i: nat, j: nat) returns (k: nat)
    requires Reached(s) && Runs(s, run) && i <= j
    ensures i <= k <= j
    ensures Works(s, run, k) || Done(s, run, k) || (k == j && OnlyMoved(StateAt(s, run, i), StateAt(s, run, j)))
    decreases j - i
  {
    hide Reached, Runs, Works, OnlyMoved, Enabled, Apply, StateAt;
    MovedNot(StateAt(s, run, i));
    if i == j || Done(s, run, i) || Works(s, run, i) {
      return i;
    }
    NextStep(s, run, i);
    k := WorksOrMoved(s, run, i + 1, j);
    if k == j && OnlyMoved(StateAt(s, run, i + 1), StateAt(s, run, j)) {
      MovedThen(StateAt(s, run, i), StateAt(s, run, i + 1), StateAt(s, run, j));
    }
  }

  /** The same up to the coordinator's next step: nothing at all changes. */
  lemma {:induction false} WorksOrTurn(s: State, run: Run, i: nat, j: nat) returns (k: nat)
    requires Reached(s) && Runs(s, run) && i <= j && MainTurn(s, run, j)
    ensures i <= k <= j
    ensures Works(s, run, k) || Done(s, run, k) || (StateAt(s, run, k) == StateAt(s, run, i) && MainTurn(s, run, k))
    decreases j - i
  {
    hide Reached, Runs, Works, OnlyMoved, Enabled, Apply, StateAt, MainCanMove;
    if Done(s, run, i) || Works(s, run, i) || MainTurn(s, run, i) {
      return i;
    }
    NextStep(s, run, i);
    k := WorksOrTurn(s, run, i + 1, j);
  }

  /** The coordinator can do nothing but wait. */
  predicate OnlyWaits(s: State) {
    (s.main.pc.Receiving? && s.shared.chan == []) || !MainCanMove(s)
  }

  lemma TurnRounds(s: State, step: Step)
    requires Reached(s) && !OnlyWaits(s) && Enabled(s, step) && step.ByMain?
    ensures Work(Apply(s, step)) < Work(s) || Round(Apply(s, step)) < Round(s)
  {
    hide Inv, Work, Round, MainStep;
    WorkIsNat(s);
    MainWorks(s, step.move);
    MainRounds(s, step.move);
  }

  lemma RoundIsNat(s: State)
    requires Reached(s)
    ensures 0 <= Round(s) && 0 <= Work(s)
  {
    WorkIsNat(s);
  }

  /** The coordinator's loop comes to where it can only wait, unless work is
      done or the scan ends before. */
  lemma {:induction false} ComesToWait(s: State, run: Run, i: nat) returns (k: nat)
    requires Reached(s) && Runs(s, run) && MainFair(s, run)
    ensures i <= k
    ensures Works(s, run, k) || Done(s, run, k) || OnlyWaits(StateAt(s, run, k))
    decreases Round(StateAt(s, run, i))
  {
    hide Reached, Runs, Works, OnlyMoved, Enabled, Apply, StateAt, MainTurn, Round, OnlyWaits;
    assert MainMoves(s, run, i);
    var j: nat :| i <= j && MainTurn(s, run, j);
    k := WorksOrTurn(s, run, i, j);
    if Works(s, run, k) || Done(s, run, k) || OnlyWaits(StateAt(s, run, k)) {
      return;
    }
    NextStep(s, run, k);
    TurnIsMain(s, run, k);
    TurnRounds(StateAt(s, run, k), run(k));
    ReachedAt(s, run, k + 1);
    RoundIsNat(StateAt(s, run, k + 1));
    NotLessWork(s, run, k);
    k := ComesToWait(s, run, k + 1);
  }

  lemma TurnIsMain(s: State, run: Run, k: nat)
    requires MainTurn(s, run, k) && !OnlyWaits(StateAt(s, run, k))
    ensures run(k).ByMain?
  {
    hide StateAt;
  }

  lemma NotLessWork(s: State, run: Run, k: nat)
    requires !Works(s, run, k)
    ensures Work(StateAt(s, run, k + 1)) >= Work(StateAt(s, run, k))
  {
    hide Work, StateAt;
  }

  // ---- Someone does some work.

  ghost predicate SomeoneMust(s: State) {
    exists step :: MustHappen(step) && Enabled(s, step)
  }

  /** While the coordinator only waits, some thread must take a step, or is in
      a file. */
  lemma WhileWaiting(s: State)
    requires Reached(s) && OnlyWaits(s) && !s.main.pc.Finished?
    ensures SomeoneMust(s) || exists w: nat :: InFile(s, w)
  {
    hide Inv, AllDead, AllEnded;
    if s.main.pc.Receiving? {
      WaitingIsNotStuck(s);
    } else {
      JoiningCanStep(s);
    }
    var step :| CanStep(s, step);
    NotMain(s, step);
    if step.ByWorker? && step.work.Finish? {
      InItsFile(s, step.w);
    } else {
      assert MustHappen(step);
    }
  }

  lemma NotMain(s: State, step: Step)
    requires OnlyWaits(s) && Enabled(s, step) && !Idles(step)
    ensures !step.ByMain?
  {
  }

  lemma InItsFile(s: State, w: nat)
    requires Inv(s) && w < |s.workers| && s.workers[w].pc.Busy? && s.workers[w].live
    ensures InFile(s, w)
  {
    assert WorkerOk(s, w);
  }

  lemma StillEnabled(s: State, t: State, step: Step)
    requires OnlyMoved(s, t) && Enabled(s, step) && !step.ByMain?
    ensures Enabled(t, step)
  {
  }

  /** A step that must happen does, unless other work is done first. */
  lemma MustWorks(s: State, run: Run, i: nat, step: Step) returns (k: nat)
    requires Reached(s) && Runs(s, run) && ThreadsFair(s, run) && MustHappen(step) && Enabled(StateAt(s, run, i), step)
    ensures i <= k && (Works(s, run, k) || Done(s, run, k))
  {
    hide Reached, Runs, Works, OnlyMoved, Enabled, Apply, StateAt;
    assert Happens(s, run, step, i);
    var j: nat :| i <= j && (run(j) == step || !Enabled(StateAt(s, run, j), step));
    k := WorksOrMoved(s, run, i, j);
    if !Works(s, run, k) && !Done(s, run, k) {
      StillEnabled(StateAt(s, run, i), StateAt(s, run, j), step);
      NextStep(s, run, j);
    }
  }

  lemma StillInFile(s: State, t: State, w: nat)
    requires OnlyMoved(s, t) && InFile(s, w)
    ensures InFile(t, w)
  {
  }

  lemma DeclaredStalled(s: State)
    requires Enabled(s, ByMain(Watch(true)))
    ensures Apply(s, ByMain(Watch(true))).main.pc.Stalled?
  {
  }

  lemma GivenUp(s: State, step: Step)
    requires s.main.pc.Stalled? && Enabled(s, step) && step.ByMain?
    ensures !OnlyMoved(s, Apply(s, step))
  {
  }

  /** A worker that stays in a file is declared stalled and abandoned, unless
      other work is done first. */
  lemma StallWorks(s: State, run: Run, i: nat, w: nat) returns (k: nat)
    requires Reached(s) && Runs(s, run) && MainFair(s, run) && WatchdogFair(s, run) && InFile(StateAt(s, run, i), w)
    ensures i <= k && (Works(s, run, k) || Done(s, run, k))
  {
    hide Reached, Runs, Works, OnlyMoved, Enabled, Apply, StateAt, InFile;
    assert TimesOut(s, run, w, i);
    var j: nat :| i <= j && FoundStalled(s, run, w, j);
    k := WorksOrMoved(s, run, i, j);
    if Works(s, run, k) || Done(s, run, k) {
      return;
    }
    StillInFile(StateAt(s, run, i), StateAt(s, run, j), w);
    NextStep(s, run, j);
    DeclaredStalled(StateAt(s, run, j));
    assert MainMoves(s, run, j + 1);
    var l: nat :| j + 1 <= l && MainTurn(s, run, l);
    k := WorksOrTurn(s, run, j + 1, l);
    if !Works(s, run, k) && !Done(s, run, k) {
      NextStep(s, run, k);
      GivenUp(StateAt(s, run, k), run(k));
    }
  }

  lemma SomeWorks(s: State, run: Run, i: nat) returns (k: nat)
    requires Reached(s) && Runs(s, run) && Fair(s, run)
    ensures i <= k && (Works(s, run, k) || Done(s, run, k))
  {
    hide Reached, Runs, Works, Enabled, Apply, StateAt, InFile, OnlyWaits, ThreadsFair, MainFair, WatchdogFair;
    k := ComesToWait(s, run, i);
    if Works(s, run, k) || Done(s, run, k) {
      return;
    }
    ReachedAt(s, run, k);
    WhileWaiting(StateAt(s, run, k));
    if SomeoneMust(StateAt(s, run, k)) {
      var step :| MustHappen(step) && Enabled(StateAt(s, run, k), step);
      k := MustWorks(s, run, k, step);
    } else {
      var w: nat :| InFile(StateAt(s, run, k), w);
      k := StallWorks(s, run, k, w);
    }
  }

  lemma {:induction false} WorkNeverGrows(s: State, run: Run, i: nat, j: nat)
    requires Reached(s) && i <= j
    ensures Work(StateAt(s, run, j)) <= Work(StateAt(s, run, i))
    decreases j - i
  {
    hide Inv, Waits, Work, Enabled, Apply, OnlyMoved;
    if i < j {
      ReachedAt(s, run, i);
      var t := StateAt(s, run, i);
      if Enabled(t, run(i)) {
        StepWorks(t, run(i));
      }
      assert StateAt(s, run, i + 1) == if Enabled(t, run(i)) then Apply(t, run(i)) else t;
      WorkNeverGrows(s, run, i + 1, j);
    }
  }

  lemma {:induction false} EndsFrom(s: State, run: Run, i: nat) returns (k: nat)
    requires Reached(s) && Runs(s, run) && Fair(s, run)
    ensures i <= k && Done(s, run, k)
    decreases Work(StateAt(s, run, i))
  {
    hide Reached, Runs, Fair, Work, StateAt;
    k := SomeWorks(s, run, i);
    if !Done(s, run, k) {
      WorkNeverGrows(s, run, i, k);
      ReachedAt(s, run, k + 1);
      RoundIsNat(StateAt(s, run, k + 1));
      k := EndsFrom(s, run, k + 1);
    }
  }

  /** Every fair run of every scan ends, whatever the files, the interleaving,
      the panics, and the workers that never finish with a file. */
  lemma FairRunEnds(n: nat, entries: seq<Entry>, spawned: nat, walkerSpawned: bool, cancelled: bool, issues: nat, run: Run)
    requires 0 < n && spawned <= n
    requires var s := Initial(n, entries, spawned, walkerSpawned, cancelled, issues);
             Runs(s, run) && Fair(s, run)
    ensures exists k: nat :: Done(Initial(n, entries, spawned, walkerSpawned, cancelled, issues), run, k)
  {
    hide Inv, Runs, Fair, Done;
    var s := Initial(n, entries, spawned, walkerSpawned, cancelled, issues);
    InitialHolds(n, entries, spawned, walkerSpawned, cancelled, issues);
    var k := EndsFrom(s, run, 0);
  }

  // ---- There are such runs.

  /** These steps, and then the coordinator trying to go on for ever. */
  function RunOf(steps: seq<Step>): (run: Run) {
    (i: nat) => if i < |steps| then steps[i] else ByMain(Tick)
  }

  lemma {:induction false} PossibleUpTo(s: State, steps: seq<Step>, k: nat)
    requires Possible(s, steps) && k <= |steps|
    ensures Possible(s, steps[..k])
    ensures k < |steps| ==> Enabled(After(s, steps[..k]), steps[k]) && Possible(s, steps[..k + 1])
                            && After(s, steps[..k + 1]) == Apply(After(s, steps[..k]), steps[k])
    decreases |steps|
  {
    hide Enabled, Apply;
    if k == 0 {
      if steps != [] {
        assert steps[..1][1..] == [] && steps[..1][0] == steps[0];
        assert Possible(Apply(s, steps[0]), steps[..1][1..]);
      }
    } else {
      var rest := steps[1..];
      PossibleUpTo(Apply(s, steps[0]), rest, k - 1);
      assert steps[..k][0] == steps[0] && steps[..k][1..] == rest[..k - 1];
      if k < |steps| {
        assert steps[..k + 1][0] == steps[0] && steps[..k + 1][1..] == rest[..k];
      }
    }
  }

  lemma {:induction false} StateIs(s: State, steps: seq<Step>, i: nat)
    requires Possible(s, steps) && After(s, steps).main.pc.Finished?
    ensures i < |steps| ==> Enabled(StateAt(s, RunOf(steps), i), steps[i])
    ensures i <= |steps| ==> Possible(s, steps[..i]) && StateAt(s, RunOf(steps), i) == After(s, steps[..i])
    ensures i >= |steps| ==> StateAt(s, RunOf(steps), i) == After(s, steps)
  {
    hide Possible, After, Apply;
    if i == 0 {
      NoSteps(s);
    } else {
      StateIs(s, steps, i - 1);
      if i <= |steps| {
        PossibleUpTo(s, steps, i - 1);
      }
    }
    if i <= |steps| {
      PossibleUpTo(s, steps, i);
      assert steps[..|steps|] == steps;
    }
  }

  lemma NoSteps(s: State)
    ensures Possible(s, []) && After(s, []) == s
  {
  }

  /** Nobody can do anything any more. */
  predicate AtRest(s: State) {
    && s.main.pc.Finished? && s.walker.pc.WalkerGone?
    && forall w :: 0 <= w < |s.workers| ==> s.workers[w].pc.Gone? && !s.workers[w].live
  }

  lemma AtRestStops(s: State, step: Step)
    requires AtRest(s)
    ensures MustHappen(step) ==> !Enabled(s, step)
    ensures forall w: nat :: !InFile(s, w)
  {
  }

  lemma RestIsFair(s: State, steps: seq<Step>)
    requires Possible(s, steps) && AtRest(After(s, steps))
    ensures Runs(s, RunOf(steps)) && Fair(s, RunOf(steps))
  {
    hide Possible, After, Enabled, AtRest, StateAt, InFile;
    var run, n := RunOf(steps), |steps|;
    AtRestFinished(After(s, steps));
    forall i: nat
      ensures Done(s, run, i) || Enabled(StateAt(s, run, i), run(i))
      ensures i >= n ==> StateAt(s, run, i) == After(s, steps) && run(i).ByMain?
    {
      StateIs(s, steps, i);
    }
    forall i: nat, step | MustHappen(step)
      ensures Happens(s, run, step, i)
    {
      AtRestStops(After(s, steps), step);
      assert i <= i + n && !Enabled(StateAt(s, run, i + n), step);
    }
    forall i: nat
      ensures MainMoves(s, run, i)
    {
      assert i <= i + n && MainTurn(s, run, i + n);
    }
    forall i: nat, w: nat
      ensures TimesOut(s, run, w, i)
    {
      AtRestStops(After(s, steps), ByMain(Tick));
      assert i <= i + n && FoundStalled(s, run, w, i + n);
    }
  }

  lemma AtRestFinished(s: State)
    requires AtRest(s)
    ensures s.main.pc.Finished?
  {
  }

  /** There are fair runs, one in which a worker is abandoned among them. */
  lemma FairRunsExist()
    ensures exists run, k: nat :: Runs(ScanWitness.TwoFiles(), run) && Fair(ScanWitness.TwoFiles(), run)
                                  && StateAt(ScanWitness.TwoFiles(), run, k).main.abandoned > 0
  {
    hide Runs, Fair, Possible, After, StateAt;
    ScanWitness.EndIsReached();
    var steps :| Possible(ScanWitness.TwoFiles(), steps) && After(ScanWitness.TwoFiles(), steps) == ScanWitness.Ended();
    RestIsFair(ScanWitness.TwoFiles(), steps);
    StateIs(ScanWitness.TwoFiles(), steps, |steps|);
    assert StateAt(ScanWitness.TwoFiles(), RunOf(steps), |steps|).main.abandoned > 0;
  }
}
