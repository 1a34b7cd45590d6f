/** The scan ends: work only ever runs out, and before the end there is always
    some thread that can take a step of it. */
module ScanProgress {
  import opened Wrappers
  import opened ScanProtocol
  import opened ScanAccounting
  import opened ScanThreads
  import opened ScanTheorems

  /** Steps that change nothing: the coordinator's tick when no message came,
      and the walker finding the queue still full. */
  predicate Idles(step: Step) {
    step == ByMain(Tick) || step == ByWalker(Spin)
  }

  // ---- Work left.

  /** A worker the coordinator still waits for must be heard or given up. */
  function WorkerWork(x: Worker): (k: nat) {
    (if x.live then 1 else 0)
    + match x.pc
      case Gone => 0
      case Leaving => 2
      case Listening => 3
      case Idle => 4
      case Posting(_) => 6
      case Made(_) => 7
      case Busy(_) => 8
      case Counted(_) => 9
      case Took(_) => 10
  }

  function WorkersWork(workers: seq<Worker>): (k: nat) {
    if workers == [] then 0 else WorkerWork(workers[0]) + WorkersWork(workers[1..])
  }

  function WalkerWork(s: State): (k: int) {
    20 * (|s.entries| - s.walker.pos)
    + match s.walker.pc
      case WalkerGone => 0
      case WalkerNoticed => 1
      case WalkerLeaving => 3
      case Offering => 5
      case Walking => 6
      case Counting => 7
      case Telling(msgs) => 7 + 2 * |msgs|
  }

  /** The end of the scan, and the reason to stop it that may yet be found. */
  function MainWork(m: Main): (k: nat) {
    (if m.stopReason == None then 1 else 0)
    + match m.pc
      case Finished => 0
      case Joining => 1
      case Reckoning => 2
      case _ => 3
  }

  /** Messages and files waiting, what each thread has to do with the one it
      has, and the workers that may yet be spawned. */
  function Work(s: State): (k: int) {
    |s.shared.chan| + 8 * |s.shared.queue| + WalkerWork(s) + WorkersWork(s.workers) + 5 * (2 * s.n - |s.workers|) + MainWork(s.main)
  }

  /** How far the coordinator is from its next message. */
  function Round(s: State): (k: int) {
    match s.main.pc
    case Finished => 0
    case Joining => 1
    case Reckoning => 2
    case Closing => 3
    case Receiving => 4
    case Top => 5
    case Judging => 6
    case Watching(id, upTo) => 7 + 2 * (upTo - id)
    case Stalled(id, upTo) => 6 + 2 * (upTo - id)
    case Checking => 8 + 4 * s.n
  }

  function Rank(s: State): (k: int) {
    Work(s) * (4 * s.n + 9) + Round(s)
  }

  lemma {:induction false} WorkPut(workers: seq<Worker>, w: nat, x: Worker)
    requires w < |workers|
    ensures WorkersWork(workers[w := x]) == WorkersWork(workers) - WorkerWork(workers[w]) + WorkerWork(x)
  {
    if w == 0 {
      assert workers[w := x][1..] == workers[1..];
    } else {
      WorkPut(workers[1..], w - 1, x);
      assert workers[w := x][1..] == workers[1..][w - 1 := x];
    }
  }

  lemma {:induction false} WorkAppend(workers: seq<Worker>, x: Worker)
    ensures WorkersWork(workers + [x]) == WorkersWork(workers) + WorkerWork(x)
  {
    if workers != [] {
      WorkAppend(workers[1..], x);
      assert (workers + [x])[1..] == workers[1..] + [x];
    }
  }

  lemma WalkerWorks(s: State, walk: WalkerMove)
    requires s.walker.pos <= |s.entries| && OfferOk(s) && WalkerCan(s, walk) && !walk.Spin?
    ensures Work(WalkerStep(s, walk)) < Work(s)
  {
    hide WorkersWork;
  }

  lemma WorkerWorks(s: State, w: nat, work: WorkerMove)
    requires w < |s.workers| && WorkerCan(s, w, work)
    ensures Work(WorkerStep(s, w, work)) < Work(s)
  {
    hide WorkersWork, PlaceAfter;
    WorkPut(s.workers, w, WorkerAfter(s.shared, s.workers[w], work));
  }

  lemma HeardWorks(s: State)
    requires MainCan(s, Receive)
    ensures Work(MainStep(s, Receive)) < Work(s)
  {
    hide WorkersWork, Moved;
    var m := s.shared.chan[0];
    if m.Exited? && m.who.TheWorker? && m.who.id < |s.workers| {
      WorkPut(s.workers, m.who.id, s.workers[m.who.id].(live := false));
    }
  }

  /** Nothing changed but where the coordinator is in its loop. */
  predicate OnlyMoved(s: State, t: State) {
    t == s.(main := s.main.(pc := t.main.pc)) && MainWork(t.main) == MainWork(s.main)
  }

  lemma MainWorks(s: State, move: MainMove)
    requires MainOk(s) && MainCan(s, move)
    ensures Work(MainStep(s, move)) <= Work(s)
    ensures Work(MainStep(s, move)) < Work(s) || (!move.Receive? && OnlyMoved(s, MainStep(s, move)))
  {
    hide AllDead, AllEnded, SomeDied, WorkersWork, Heard;
    if move.Receive? {
      HeardWorks(s);
    } else if move.Abandon? {
      var x := s.workers[s.main.pc.id].(flagged := true, live := false);
      WorkPut(s.workers, s.main.pc.id, x);
      WorkAppend(s.workers[s.main.pc.id := x], Fresh());
      assert s.workers[s.main.pc.id := x] + [] == s.workers[s.main.pc.id := x];
    }
  }

  lemma MainRounds(s: State, move: MainMove)
    requires MainOk(s) && MainCan(s, move)
    ensures !move.Tick? && !move.Receive? ==> Round(MainStep(s, move)) < Round(s)
    ensures Round(MainStep(s, move)) <= Round(s) + 4 * s.n + 4
  {
    hide AllDead, AllEnded, SomeDied;
    match move
    case LoopTest =>
    case Receive =>
    case Tick =>
    case Check(r) =>
    case Watch(r) =>
    case Abandon(r) =>
    case Judge =>
    case Close =>
    case Reckon =>
    case Join =>
  }

  lemma WorkIsNat(s: State)
    requires Inv(s)
    ensures 0 <= Work(s) && 0 <= Round(s) && 0 <= Rank(s)
    ensures s.walker.pos <= |s.entries| && OfferOk(s) && MainOk(s)
  {
    hide Accounted, WorkersOk, ChanOk, LostOk, CountsOk, Orderly, MainOk, Work, Round;
    WalkerWithin(s);
    assert OfferOk(s);
    WorkLeft(s);
    RoundLeft(s);
    ProductIsNat(Work(s), 4 * s.n + 9);
  }

  lemma WorkLeft(s: State)
    requires s.walker.pos <= |s.entries| && MainOk(s)
    ensures 0 <= Work(s)
  {
    hide WorkersWork, AllDead, AllEnded;
  }

  lemma RoundLeft(s: State)
    requires MainOk(s)
    ensures 0 <= Round(s)
  {
    hide AllDead, AllEnded;
  }

  lemma ProductIsNat(a: nat, b: nat)
    ensures 0 <= a * b
  {
  }

  /** Every step but an idle one uses up rank, and a tick gives back at most
      one round of the coordinator's loop. */
  lemma RankFalls(s: State, step: Step)
    requires Inv(s) && Enabled(s, step)
    ensures 0 <= Rank(Apply(s, step))
    ensures !Idles(step) ==> Rank(Apply(s, step)) < Rank(s)
    ensures Rank(Apply(s, step)) <= Rank(s) + 4 * s.n + 4
  {
    hide Inv, Work, WorkerStep, WalkerStep, MainStep, WorkerCan, WalkerCan, MainCan;
    WorkIsNat(s);
    StepKeeps(s, step);
    WorkIsNat(Apply(s, step));
    EntriesStay(s, step);
    match step
    case ByWalker(walk) =>
      WalkerRank(s, walk);
    case ByWorker(w, work) =>
      WorkerRank(s, w, work);
    case ByMain(move) =>
      MainWorks(s, move);
      MainRounds(s, move);
      if move.Receive? {
        LessWork(Work(s), Work(Apply(s, step)), 4 * s.n + 9);
      } else {
        NoMoreWork(Work(s), Work(Apply(s, step)), 4 * s.n + 9);
      }
  }

  lemma WalkerRank(s: State, walk: WalkerMove)
    requires s.walker.pos <= |s.entries| && OfferOk(s) && WalkerCan(s, walk)
    ensures walk.Spin? ==> Rank(WalkerStep(s, walk)) == Rank(s)
    ensures !walk.Spin? ==> Rank(WalkerStep(s, walk)) < Rank(s)
  {
    hide Work;
    if !walk.Spin? {
      WalkerWorks(s, walk);
      LessWork(Work(s), Work(WalkerStep(s, walk)), 4 * s.n + 9);
    }
  }

  lemma WorkerRank(s: State, w: nat, work: WorkerMove)
    requires w < |s.workers| && WorkerCan(s, w, work)
    ensures Rank(WorkerStep(s, w, work)) < Rank(s)
  {
    hide Work;
    WorkerWorks(s, w, work);
    LessWork(Work(s), Work(WorkerStep(s, w, work)), 4 * s.n + 9);
  }

  lemma LessWork(a: int, b: int, c: nat)
    requires b < a
    ensures b * c + c <= a * c
  {
    var d: nat := a - b - 1;
    assert 0 <= d * c;
    assert a * c == b * c + c + d * c;
  }

  lemma NoMoreWork(a: int, b: int, c: nat)
    requires b <= a
    ensures b * c <= a * c
  {
  }

  function Ticks(steps: seq<Step>): (k: nat) {
    if steps == [] then 0 else (if steps[0] == ByMain(Tick) then 1 else 0) + Ticks(steps[1..])
  }

  function Working(steps: seq<Step>): (k: nat) {
    if steps == [] then 0 else (if Idles(steps[0]) then 0 else 1) + Working(steps[1..])
  }

  /** The scan ends: the steps of a run that are not idle are bounded by the
      work at its start and the number of ticks. */
  lemma {:induction false} WorkRunsOut(s: State, steps: seq<Step>)
    requires Inv(s) && Possible(s, steps)
    ensures Working(steps) <= Rank(s) + Ticks(steps) * (4 * s.n + 4)
    decreases |steps|
  {
    hide Inv, Rank, Enabled, Apply;
    if steps == [] {
      WorkIsNat(s);
    } else {
      OneStep(s, steps);
      var t := Apply(s, steps[0]);
      RankFalls(s, steps[0]);
      if steps[0] == ByWalker(Spin) {
        SpinRank(s);
      }
      StepKeeps(s, steps[0]);
      EntriesStay(s, steps[0]);
      WorkRunsOut(t, steps[1..]);
      var c := 4 * s.n + 4;
      assert Ticks(steps) * c == (if steps[0] == ByMain(Tick) then c else 0) + Ticks(steps[1..]) * c;
    }
  }

  lemma OneStep(s: State, steps: seq<Step>)
    requires Possible(s, steps) && steps != []
    ensures Enabled(s, steps[0]) && Possible(Apply(s, steps[0]), steps[1..])
  {
  }

  lemma SpinRank(s: State)
    requires Enabled(s, ByWalker(Spin))
    ensures Rank(Apply(s, ByWalker(Spin))) == Rank(s)
  {
  }

  // ---- Never stuck.

  /** A step the scan can count on: no panic, and no end to the processing of a
      file by a worker the watchdog has given up on. */
  predicate Dependable(s: State, step: Step) {
    match step
    case ByWalker(walk) => !walk.WalkerPanic?
    case ByWorker(w, work) => !work.Panic? && (work.Finish? ==> w < |s.workers| && s.workers[w].live)
    case ByMain(move) => true
  }

  ghost predicate CanStep(s: State, step: Step) {
    Enabled(s, step) && !Idles(step) && Dependable(s, step)
  }

  /** What worker `w`, if the coordinator still waits for it, can do by itself
      when the channel has room. */
  lemma WorkerCanStep(s: State, w: nat)
    requires Inv(s) && w < |s.workers| && s.workers[w].live && s.shared.chan == [] && s.shared.receiverOpen
    requires s.shared.queue != [] || !s.shared.senderOpen
    ensures exists step :: CanStep(s, step)
  {
    hide Accounted, LostOk, CountsOk, Orderly, MainOk, WalkerOk, AllDead, AllEnded, SomeDied, ChanOk;
    assert WorkerOk(s, w);
    var x := s.workers[w];
    match x.pc
    case Idle => LockCanStep(s, w);
    case Listening => ListenerCanStep(s, w);
    case Took(_) => assert CanStep(s, ByWorker(w, CountOut));
    case Counted(_) => assert CanStep(s, ByWorker(w, Begin));
    case Busy(_) => assert CanStep(s, ByWorker(w, Finish(Unread)));
    case Made(_) => assert CanStep(s, ByWorker(w, TestFlag));
    case Posting(_) => assert CanStep(s, ByWorker(w, Post));
    case Leaving => assert CanStep(s, ByWorker(w, Notice));
    case Gone =>
  }

  lemma ListenerCanStep(s: State, w: nat)
    requires w < |s.workers| && s.workers[w].pc.Listening?
    requires s.shared.queue != [] || !s.shared.senderOpen
    ensures exists step :: CanStep(s, step)
  {
    if s.shared.queue != [] {
      assert CanStep(s, ByWorker(w, Take));
    } else {
      assert CanStep(s, ByWorker(w, Disconnected));
    }
  }

  /** The lock of the queue is free, or its holder is listening on the queue. */
  lemma LockCanStep(s: State, w: nat)
    requires WorkersOk(s) && w < |s.workers| && s.workers[w].pc.Idle?
    requires s.shared.queue != [] || !s.shared.senderOpen
    ensures exists step :: CanStep(s, step)
  {
    if s.shared.lock == None {
      assert CanStep(s, ByWorker(w, Lock));
    } else {
      var v := s.shared.lock.value;
      assert WorkerOk(s, v);
      ListenerCanStep(s, v);
    }
  }

  /** While the coordinator waits for a message and there is none, some other
      thread can take a step. */
  lemma WaitingIsNotStuck(s: State)
    requires 0 < s.n && Inv(s) && s.main.pc.Receiving? && s.shared.chan == []
    requires !s.main.walkerDone || !AllDead(s.workers)
    ensures exists step :: CanStep(s, step)
  {
    hide Accounted, LostOk, CountsOk, Orderly, AllEnded, SomeDied;
    assert OfferOk(s);
    match s.walker.pc
    case Walking => assert CanStep(s, ByWalker(Walk));
    case Offering =>
      if |s.shared.queue| < PER_WORKER * s.n {
        assert CanStep(s, ByWalker(Offer));
      } else if s.shared.stop {
        assert CanStep(s, ByWalker(GiveUp));
      } else {
        var w :| 0 <= w < |s.workers| && s.workers[w].live;
        WorkerCanStep(s, w);
      }
    case Counting => assert CanStep(s, ByWalker(CountIn));
    case Telling(_) => assert CanStep(s, ByWalker(Tell));
    case WalkerLeaving => assert CanStep(s, ByWalker(WalkerNotice));
    case WalkerNoticed => assert CanStep(s, ByWalker(DropSender));
    case WalkerGone =>
      var w :| 0 <= w < |s.workers| && s.workers[w].live;
      WorkerCanStep(s, w);
  }

  /** The loop's test was false when the coordinator began to wait. */
  ghost predicate Waits(s: State) {
    s.main.pc.Receiving? ==> !s.main.walkerDone || !AllDead(s.workers)
  }

  /** Before the end of any run some thread can take a step of work, whatever
      an abandoned worker does. */
  lemma NeverStuck(n: nat, entries: seq<Entry>, spawned: nat, walkerSpawned: bool, cancelled: bool, issues: nat, steps: seq<Step>)
    requires 0 < n && spawned <= n && Possible(Initial(n, entries, spawned, walkerSpawned, cancelled, issues), steps)
    ensures var s := After(Initial(n, entries, spawned, walkerSpawned, cancelled, issues), steps);
            !s.main.pc.Finished? ==> exists step :: CanStep(s, step) && Rank(Apply(s, step)) < Rank(s)
  {
    hide Inv, Rank, Apply;
    var s0 := Initial(n, entries, spawned, walkerSpawned, cancelled, issues);
    InitialHolds(n, entries, spawned, walkerSpawned, cancelled, issues);
    RunKeeps(s0, steps);
    RunStays(s0, steps);
    WaitsAlong(s0, steps);
    var s := After(s0, steps);
    if !s.main.pc.Finished? {
      SomeoneCanStep(s);
      var step :| CanStep(s, step);
      RankFalls(s, step);
    }
  }

  lemma {:induction false} WaitsAlong(s: State, steps: seq<Step>)
    requires Waits(s) && Possible(s, steps)
    ensures Waits(After(s, steps))
    decreases |steps|
  {
    if steps != [] {
      WaitsKept(s, steps[0]);
      WaitsAlong(Apply(s, steps[0]), steps[1..]);
    }
  }

  lemma WaitsKept(s: State, step: Step)
    requires Waits(s) && Enabled(s, step)
    ensures Waits(Apply(s, step))
  {
    hide AllEnded, SomeDied, PlaceAfter, SharedAfter, Heard;
    match step
    case ByWalker(walk) => assert WalkerStep(s, walk).main == s.main && WalkerStep(s, walk).workers == s.workers;
    case ByWorker(w, work) => assert forall v :: 0 <= v < |s.workers| ==> WorkerStep(s, w, work).workers[v].live == s.workers[v].live;
    case ByMain(move) => MainWaits(s, move);
  }

  lemma MainWaits(s: State, move: MainMove)
    requires Waits(s) && MainCan(s, move)
    ensures Waits(MainStep(s, move))
  {
    hide AllEnded, SomeDied, AllDead, Moved;
  }

  lemma SomeoneCanStep(s: State)
    requires 0 < s.n && Inv(s) && Waits(s) && !s.main.pc.Finished?
    ensures exists step :: CanStep(s, step)
  {
    hide Inv;
    match s.main.pc
    case Top => assert CanStep(s, ByMain(LoopTest));
    case Receiving =>
      if s.shared.chan == [] {
        WaitingIsNotStuck(s);
      } else {
        assert CanStep(s, ByMain(Receive));
      }
    case Checking => assert CanStep(s, ByMain(Check(None)));
    case Watching(_, _) => assert CanStep(s, ByMain(Watch(false)));
    case Stalled(id, _) =>
      StalledExists(s);
      assert CanStep(s, ByMain(Abandon(false)));
    case Judging => assert CanStep(s, ByMain(Judge));
    case Closing => assert CanStep(s, ByMain(Close));
    case Reckoning => assert CanStep(s, ByMain(Reckon));
    case Joining => JoiningCanStep(s);
  }

  lemma StalledExists(s: State)
    requires Inv(s) && s.main.pc.Stalled?
    ensures s.main.pc.id < |s.workers|
  {
  }

  /** Everyone the coordinator joins has sent its last message. */
  lemma JoiningCanStep(s: State)
    requires Inv(s) && s.main.pc.Joining?
    ensures exists step :: CanStep(s, step)
  {
    if s.walker.pc.WalkerNoticed? {
      assert CanStep(s, ByWalker(DropSender));
    } else {
      forall w | 0 <= w < |s.workers|
        ensures s.workers[w].flagged || s.workers[w].pc.Gone?
      {
        assert WorkerOk(s, w);
      }
      assert CanStep(s, ByMain(Join));
    }
  }
}
