/** Why only a complete report, and not every completed scan, accounts for all
    files: a run in which the watchdog's two steps miss each other. */
module ScanWitness {
  import opened Wrappers
  import opened ScanProtocol

  ghost predicate Reaches(s: State, t: State) {
    exists steps :: Possible(s, steps) && After(s, steps) == t
  }

  lemma {:induction false} Extended(s: State, steps: seq<Step>, step: Step)
    requires Possible(s, steps) && Enabled(After(s, steps), step)
    ensures Possible(s, steps + [step]) && After(s, steps + [step]) == Apply(After(s, steps), step)
    decreases |steps|
  {
    var more := steps + [step];
    if steps == [] {
      assert more == [step] && more[1..] == [];
      assert Possible(Apply(s, step), more[1..]);
    } else {
      Extended(Apply(s, steps[0]), steps[1..], step);
      assert more[0] == steps[0] && more[1..] == steps[1..] + [step];
    }
  }

  lemma Then(s: State, t: State, step: Step) returns (u: State)
    requires Reaches(s, t) && Enabled(t, step)
    ensures u == Apply(t, step) && Reaches(s, u)
  {
    var steps :| Possible(s, steps) && After(s, steps) == t;
    Extended(s, steps, step);
    u := Apply(t, step);
  }

  function TwoFiles(): State { Initial(1, [RegularFile, RegularFile], 1, true, false, 0) }

  /** A worker that has not died; a flagged one is no longer live. */
  function Well(pc: WorkerPc, slot: Option<nat>, flagged: bool): Worker { Worker(pc, slot, flagged, !flagged, false) }

  /** Both files are queued and the walker is gone. */
  function Walked(): State {
    State(1, [RegularFile, RegularFile],
          Shared([0, 1], false, None, [Exited(TheWalker, false)], true, false, 2, 0),
          Walker(WalkerGone, false, 2),
          [Fresh()],
          Main(Top, false, false, 0, None, false, [], 0),
          map[0 := Queued, 1 := Queued])
  }

  /** The worker is on the first file. */
  function Started(): State {
    State(1, [RegularFile, RegularFile],
          Shared([1], false, None, [Exited(TheWalker, false)], true, false, 2, 1),
          Walker(WalkerGone, false, 2),
          [Well(Busy(0), Some(0), false)],
          Main(Top, false, false, 0, None, false, [], 0),
          map[0 := Held(0), 1 := Queued])
  }

  /** The watchdog has read that the worker is stalled. */
  function Verdict(): State {
    State(1, [RegularFile, RegularFile],
          Shared([1], false, None, [], true, false, 2, 1),
          Walker(WalkerGone, false, 2),
          [Well(Busy(0), Some(0), false)],
          Main(Stalled(0, 1), true, false, 0, None, false, [], 0),
          map[0 := Held(0), 1 := Queued])
  }

  /** Meanwhile the worker has finished and sent its result. */
  function Posted(): State {
    State(1, [RegularFile, RegularFile],
          Shared([1], false, None, [Scanned(0, 0)], true, false, 2, 1),
          Walker(WalkerGone, false, 2),
          [Well(Idle, None, false)],
          Main(Stalled(0, 1), true, false, 0, None, false, [], 0),
          map[0 := InChannel, 1 := Queued])
  }

  /** Before it is flagged the worker has sent its result and begun the next file. */
  function Raced(): State {
    State(1, [RegularFile, RegularFile],
          Shared([], false, None, [Scanned(0, 0)], true, false, 2, 2),
          Walker(WalkerGone, false, 2),
          [Well(Busy(1), Some(1), false)],
          Main(Stalled(0, 1), true, false, 0, None, false, [], 0),
          map[0 := InChannel, 1 := Held(0)])
  }

  /** Flagged, it drops the second result; its replacement has begun. */
  function Dropped(): State {
    State(1, [RegularFile, RegularFile],
          Shared([], false, None, [Scanned(0, 0)], true, false, 2, 2),
          Walker(WalkerGone, false, 2),
          [Well(Leaving, None, true), Fresh()],
          Main(Watching(1, 1), true, false, 1, None, false, [], 1),
          map[0 := InChannel, 1 := Lost])
  }

  /** Both have ended: the replacement found no work. */
  function Missed(): State {
    State(1, [RegularFile, RegularFile],
          Shared([], false, None, [Scanned(0, 0), Exited(TheWorker(0), false), Exited(TheWorker(1), false)], true, false, 2, 2),
          Walker(WalkerGone, false, 2),
          [Well(Gone, None, true), Well(Gone, None, false)],
          Main(Watching(1, 1), true, false, 1, None, false, [], 1),
          map[0 := InChannel, 1 := Lost])
  }

  function Heard1(): State {
    State(1, [RegularFile, RegularFile],
          Shared([], false, None, [Exited(TheWorker(0), false), Exited(TheWorker(1), false)], true, false, 2, 2),
          Walker(WalkerGone, false, 2),
          [Well(Gone, None, true), Well(Gone, None, false)],
          Main(Watching(2, 2), true, false, 1, None, false, [Scanned(0, 0)], 1),
          map[0 := Handled, 1 := Lost])
  }

  function Heard2(): State {
    State(1, [RegularFile, RegularFile],
          Shared([], false, None, [Exited(TheWorker(1), false)], true, false, 2, 2),
          Walker(WalkerGone, false, 2),
          [Well(Gone, None, true), Well(Gone, None, false)],
          Main(Watching(2, 2), true, false, 1, None, false, [Scanned(0, 0)], 1),
          map[0 := Handled, 1 := Lost])
  }

  function Heard3(): State {
    State(1, [RegularFile, RegularFile],
          Shared([], false, None, [], true, false, 2, 2),
          Walker(WalkerGone, false, 2),
          [Well(Gone, None, true), Worker(Gone, None, false, false, false)],
          Main(Watching(2, 2), true, false, 1, None, false, [Scanned(0, 0)], 1),
          map[0 := Handled, 1 := Lost])
  }

  /** The report: not stopped, one file scanned, the other not mentioned. */
  function Ended(): State {
    State(1, [RegularFile, RegularFile],
          Shared([], false, None, [], false, false, 2, 2),
          Walker(WalkerGone, false, 2),
          [Well(Gone, None, true), Worker(Gone, None, false, false, false)],
          Main(Finished, true, false, 1, None, false, [Scanned(0, 0)], 1),
          map[0 := Handled, 1 := Lost])
  }

  lemma ToWalked()
    ensures Reaches(TwoFiles(), Walked())
  {
    var t := TwoFiles();
    assert Possible(t, []) && After(t, []) == t;
    t := Then(TwoFiles(), t, ByWalker(Walk));
    t := Then(TwoFiles(), t, ByWalker(Offer));
    t := Then(TwoFiles(), t, ByWalker(CountIn));
    t := Then(TwoFiles(), t, ByWalker(Walk));
    t := Then(TwoFiles(), t, ByWalker(Offer));
    t := Then(TwoFiles(), t, ByWalker(CountIn));
    t := Then(TwoFiles(), t, ByWalker(Walk));
    t := Then(TwoFiles(), t, ByWalker(WalkerNotice));
    t := Then(TwoFiles(), t, ByWalker(DropSender));
    assert t.place == Walked().place;
    assert t == Walked();
  }

  lemma ToStarted()
    requires Reaches(TwoFiles(), Walked())
    ensures Reaches(TwoFiles(), Started())
  {
    var t := Walked();
    t := Then(TwoFiles(), t, ByWorker(0, Lock));
    t := Then(TwoFiles(), t, ByWorker(0, Take));
    t := Then(TwoFiles(), t, ByWorker(0, CountOut));
    t := Then(TwoFiles(), t, ByWorker(0, Begin));
    assert t.place == Started().place;
    assert t == Started();
  }

  lemma ToVerdict()
    requires Reaches(TwoFiles(), Started())
    ensures Reaches(TwoFiles(), Verdict())
  {
    var t := Started();
    t := Then(TwoFiles(), t, ByMain(LoopTest));
    t := Then(TwoFiles(), t, ByMain(Receive));
    t := Then(TwoFiles(), t, ByMain(Check(None)));
    t := Then(TwoFiles(), t, ByMain(Watch(true)));
    assert t.place == Verdict().place;
    assert t == Verdict();
  }

  lemma ToPosted()
    requires Reaches(TwoFiles(), Verdict())
    ensures Reaches(TwoFiles(), Posted())
  {
    var t := Verdict();
    t := Then(TwoFiles(), t, ByWorker(0, Finish(Evaluated(0))));
    t := Then(TwoFiles(), t, ByWorker(0, TestFlag));
    t := Then(TwoFiles(), t, ByWorker(0, Post));
    assert t.place == Posted().place;
    assert t == Posted();
  }

  lemma ToRaced()
    requires Reaches(TwoFiles(), Posted())
    ensures Reaches(TwoFiles(), Raced())
  {
    var t := Posted();
    t := Then(TwoFiles(), t, ByWorker(0, Lock));
    t := Then(TwoFiles(), t, ByWorker(0, Take));
    t := Then(TwoFiles(), t, ByWorker(0, CountOut));
    t := Then(TwoFiles(), t, ByWorker(0, Begin));
    assert t.place == Raced().place;
    assert t == Raced();
  }

  lemma ToLost()
    requires Reaches(TwoFiles(), Raced())
    ensures Reaches(TwoFiles(), Dropped())
  {
    var t := Raced();
    t := Then(TwoFiles(), t, ByMain(Abandon(true)));
    assert t.workers == [Well(Busy(1), Some(1), true), Fresh()];
    t := Then(TwoFiles(), t, ByWorker(0, Finish(Evaluated(0))));
    t := Then(TwoFiles(), t, ByWorker(0, TestFlag));
    assert t.place == Dropped().place;
    assert t == Dropped();
  }

  lemma ToMissed()
    requires Reaches(TwoFiles(), Dropped())
    ensures Reaches(TwoFiles(), Missed())
  {
    var t := Dropped();
    t := Then(TwoFiles(), t, ByWorker(0, Notice));
    t := Then(TwoFiles(), t, ByWorker(1, Lock));
    t := Then(TwoFiles(), t, ByWorker(1, Disconnected));
    t := Then(TwoFiles(), t, ByWorker(1, Notice));
    assert t == Missed();
  }

  /** The coordinator's way back to waiting, and on after a message. */
  lemma BackToWaiting(t: State)
    requires Reaches(TwoFiles(), t) && t.main.pc.Watching? && t.main.pc.id == t.main.pc.upTo && !AllDead(t.workers)
    ensures Reaches(TwoFiles(), t.(main := t.main.(pc := Receiving)))
  {
    var u := Then(TwoFiles(), t, ByMain(Watch(false)));
    u := Then(TwoFiles(), u, ByMain(Judge));
    u := Then(TwoFiles(), u, ByMain(LoopTest));
  }

  lemma PastTheChecks(t: State)
    requires Reaches(TwoFiles(), t) && t.main.pc.Checking? && |t.workers| == 2
    ensures Reaches(TwoFiles(), t.(main := t.main.(pc := Watching(2, 2))))
  {
    var u := Then(TwoFiles(), t, ByMain(Check(None)));
    u := Then(TwoFiles(), u, ByMain(Watch(false)));
    u := Then(TwoFiles(), u, ByMain(Watch(false)));
  }

  lemma ToHeard1()
    requires Reaches(TwoFiles(), Missed())
    ensures Reaches(TwoFiles(), Heard1())
  {
    assert Missed().workers[1].live;
    BackToWaiting(Missed());
    var t := Then(TwoFiles(), Missed().(main := Missed().main.(pc := Receiving)), ByMain(Receive));
    assert t.place == Heard1().place && t.workers == Heard1().workers;
    PastTheChecks(t);
    assert t.(main := t.main.(pc := Watching(2, 2))) == Heard1();
  }

  lemma ToHeard2()
    requires Reaches(TwoFiles(), Heard1())
    ensures Reaches(TwoFiles(), Heard2())
  {
    assert Heard1().workers[1].live;
    BackToWaiting(Heard1());
    var t := Then(TwoFiles(), Heard1().(main := Heard1().main.(pc := Receiving)), ByMain(Receive));
    assert t.place == Heard2().place && t.workers == Heard2().workers;
    PastTheChecks(t);
    assert t.(main := t.main.(pc := Watching(2, 2))) == Heard2();
  }

  lemma ToHeard3()
    requires Reaches(TwoFiles(), Heard2())
    ensures Reaches(TwoFiles(), Heard3())
  {
    assert Heard2().workers[1].live;
    BackToWaiting(Heard2());
    var t := Then(TwoFiles(), Heard2().(main := Heard2().main.(pc := Receiving)), ByMain(Receive));
    assert t.place == Heard3().place && t.workers == Heard3().workers;
    PastTheChecks(t);
    assert t.(main := t.main.(pc := Watching(2, 2))) == Heard3();
  }

  lemma ToEnded()
    requires Reaches(TwoFiles(), Heard3())
    ensures Reaches(TwoFiles(), Ended())
  {
    var t := Heard3();
    t := Then(TwoFiles(), t, ByMain(Watch(false)));
    t := Then(TwoFiles(), t, ByMain(Judge));
    t := Then(TwoFiles(), t, ByMain(LoopTest));
    t := Then(TwoFiles(), t, ByMain(Close));
    t := Then(TwoFiles(), t, ByMain(Reckon));
    t := Then(TwoFiles(), t, ByMain(Join));
    assert t.place == Ended().place;
    assert t == Ended();
  }

  lemma EndIsReached()
    ensures Reaches(TwoFiles(), Ended())
  {
    hide Reaches;
    ToWalked();
    ToStarted();
    ToVerdict();
    ToPosted();
    ToRaced();
    ToLost();
    ToMissed();
    ToHeard1();
    ToHeard2();
    ToHeard3();
    ToEnded();
  }

  /** A completed scan may miss a file altogether: between reading that a worker
      is stalled and flagging it, the worker may finish and take another file. */
  lemma CompletedMayMiss()
    ensures exists steps :: Possible(TwoFiles(), steps)
              && IsCompleted(After(TwoFiles(), steps)) && !IsComplete(After(TwoFiles(), steps))
              && forall m :: m in After(TwoFiles(), steps).main.handled ==> ResultOf(m) != Some(1)
  {
    hide Possible, After;
    EndIsReached();
    var steps :| Possible(TwoFiles(), steps) && After(TwoFiles(), steps) == Ended();
  }
}
