/** How much a scan that is reported completed can have missed. */
module ScanLosses {
  import opened Wrappers
  import opened Collections
  import opened ScanProtocol
  import opened ScanAccounting
  import opened ScanThreads
  import opened ScanTheorems

  function LostIn(place: map<nat, Place>): (es: set<nat>) {
    set e | e in place && place[e] == Lost
  }

  function Flagged(workers: seq<Worker>): (ws: set<nat>) {
    set w: nat | w < |workers| && workers[w].flagged
  }

  /** Workers that have left flagged or dead: each lost at most what it held then. */
  function Charged(workers: seq<Worker>): (ws: set<nat>) {
    set w: nat | w < |workers| && WorkerLeft(workers[w]) && (workers[w].flagged || workers[w].died)
  }

  ghost predicate LossesOk(s: State) {
    && (!s.shared.stop && !s.walker.died ==> |LostIn(s.place)| <= |Charged(s.workers)|)
    && |Flagged(s.workers)| <= s.main.abandoned
  }

  // ---- No step loses more than it should.

  lemma WalkerLosses(s: State, walk: WalkerMove)
    requires Inv(s) && LossesOk(s) && WalkerCan(s, walk)
    ensures LossesOk(WalkerStep(s, walk))
  {
    hide Accounted, CountsOk, Orderly, AllDead, AllEnded, SomeDied;
    var t := WalkerStep(s, walk);
    if !t.walker.died {
      assert walk.Tell? ==> s.shared.receiverOpen;
      assert LostIn(t.place) <= LostIn(s.place);
      SubsetSize(LostIn(t.place), LostIn(s.place));
    }
  }

  lemma WorkerLosses(s: State, w: nat, work: WorkerMove)
    requires Inv(s) && LossesOk(s) && w < |s.workers| && WorkerCan(s, w, work)
    ensures LossesOk(WorkerStep(s, w, work))
  {
    hide Inv, PlaceAfter;
    var t := WorkerStep(s, w, work);
    assert Flagged(t.workers) == Flagged(s.workers);
    var before, after := Charged(s.workers), Charged(t.workers);
    assert before <= after;
    SubsetSize(before, after);
    PlaceLosses(s, w, work);
    if !s.shared.stop && !s.walker.died && Goes(s.shared, s.workers[w], work) == Some(Lost) {
      LeavesCharged(s, w, work);
      assert w !in before && w in after;
      SubsetSize(before + {w}, after);
    }
  }

  /** Where something is lost, it is what the worker held. */
  lemma PlaceLosses(s: State, w: nat, work: WorkerMove)
    requires w < |s.workers| && WorkerCan(s, w, work)
    ensures |LostIn(PlaceAfter(s, w, work))| <= |LostIn(s.place)| + (if Goes(s.shared, s.workers[w], work) == Some(Lost) then 1 else 0)
  {
    var after := PlaceAfter(s, w, work);
    if Goes(s.shared, s.workers[w], work) == Some(Lost) && HeldBy(s.workers[w]).Some? {
      assert LostIn(after) == LostIn(s.place) + {HeldBy(s.workers[w]).value};
    } else {
      assert LostIn(after) <= LostIn(s.place);
      SubsetSize(LostIn(after), LostIn(s.place));
    }
  }

  lemma LeavesCharged(s: State, w: nat, work: WorkerMove)
    requires Inv(s) && w < |s.workers| && WorkerCan(s, w, work) && !s.shared.stop
    requires Goes(s.shared, s.workers[w], work) == Some(Lost)
    ensures !WorkerLeft(s.workers[w])
    ensures var x := WorkerAfter(s.shared, s.workers[w], work);
            WorkerLeft(x) && (x.flagged || x.died)
  {
    hide Accounted, CountsOk, Orderly, AllEnded, SomeDied, ChanOk, LostOk, WalkerOk;
    assert WorkerOk(s, w);
    if work.Post? {
      NoneLive(s, w);
    }
  }

  /** What a step of the coordinator does to the workers and the results. */
  lemma MainTouches(s: State, move: MainMove)
    requires MainCan(s, move)
    ensures var t := MainStep(s, move);
            && (forall e :: e in t.place && t.place[e] == Lost ==> e in s.place && s.place[e] == Lost)
            && (t.shared.stop || !s.shared.stop) && t.walker == s.walker
            && |s.workers| <= |t.workers|
            && (forall w :: 0 <= w < |t.workers| ==>
                  if w < |s.workers|
                  then t.workers[w].pc == s.workers[w].pc && t.workers[w].died == s.workers[w].died
                       && t.workers[w].flagged == (s.workers[w].flagged || (move.Abandon? && w == s.main.pc.id))
                  else !t.workers[w].flagged)
            && t.main.abandoned == s.main.abandoned + if move.Abandon? then 1 else 0
  {
    hide AllDead, AllEnded, SomeDied;
  }

  lemma MainLosses(s: State, move: MainMove)
    requires LossesOk(s) && MainCan(s, move)
    ensures LossesOk(MainStep(s, move))
  {
    hide MainStep, MainCan;
    MainTouches(s, move);
    var t := MainStep(s, move);
    assert LostIn(t.place) <= LostIn(s.place);
    SubsetSize(LostIn(t.place), LostIn(s.place));
    assert Charged(s.workers) <= Charged(t.workers);
    SubsetSize(Charged(s.workers), Charged(t.workers));
    MainFlags(s, move);
  }

  lemma MainFlags(s: State, move: MainMove)
    requires MainCan(s, move)
    ensures |Flagged(MainStep(s, move).workers)| <= |Flagged(s.workers)| + if move.Abandon? then 1 else 0
  {
    MainTouches(s, move);
    hide MainStep;
    var more: set<nat> := if move.Abandon? then {s.main.pc.id} else {};
    assert Flagged(MainStep(s, move).workers) <= Flagged(s.workers) + more;
    SubsetSize(Flagged(MainStep(s, move).workers), Flagged(s.workers) + more);
  }

  lemma {:induction false} RunLosses(s: State, steps: seq<Step>)
    requires Inv(s) && LossesOk(s) && Possible(s, steps)
    ensures LossesOk(After(s, steps))
    decreases |steps|
  {
    hide Inv, LossesOk, WalkerStep, WorkerStep, MainStep, WalkerCan, WorkerCan, MainCan;
    if steps != [] {
      StepKeeps(s, steps[0]);
      match steps[0] {
      case ByWalker(walk) => WalkerLosses(s, walk);
      case ByWorker(w, work) => WorkerLosses(s, w, work);
      case ByMain(move) => MainLosses(s, move);
      }
      RunLosses(Apply(s, steps[0]), steps[1..]);
    }
  }

  // ---- What is not heard is lost, held or on its way.

  function HeldByThese(workers: seq<Worker>, ws: set<nat>): (es: set<nat>) {
    set w | w in ws && w < |workers| && HeldBy(workers[w]).Some? :: HeldBy(workers[w]).value
  }

  lemma {:induction false} HeldSize(workers: seq<Worker>, ws: set<nat>)
    ensures |HeldByThese(workers, ws)| <= |ws|
  {
    if ws != {} {
      var w :| w in ws;
      var rest := ws - {w};
      HeldSize(workers, rest);
      var held := HeldByThese(workers, rest) + if w < |workers| && HeldBy(workers[w]).Some? then {HeldBy(workers[w]).value} else {};
      assert HeldByThese(workers, ws) <= held;
      SubsetSize(HeldByThese(workers, ws), held);
    }
  }

  function ResultsIn(msgs: seq<Msg>): (es: set<nat>) {
    set m | m in msgs && ResultOf(m).Some? :: ResultOf(m).value
  }

  lemma {:induction false} ResultsSize(msgs: seq<Msg>)
    ensures |ResultsIn(msgs)| <= |msgs|
  {
    if msgs != [] {
      var front, last := msgs[..|msgs| - 1], msgs[|msgs| - 1];
      ResultsSize(front);
      assert msgs == front + [last];
      var more := ResultsIn(front) + if ResultOf(last).Some? then {ResultOf(last).value} else {};
      assert ResultsIn(msgs) <= more;
      SubsetSize(ResultsIn(msgs), more);
    }
  }

  /** Entries of which no result was heard, or more than one. */
  ghost function Unheard(s: State): (es: set<nat>) {
    set e: nat | e < |s.entries| && Reports(s.entries[e]) && !HeardOnce(s.main.handled, e)
  }

  lemma UnheardIs(s: State)
    requires 0 < s.n && Inv(s) && IsCompleted(s) && s.shared.queue == []
    ensures Unheard(s) <= LostIn(s.place) + HeldByThese(s.workers, Flagged(s.workers) - Charged(s.workers)) + ResultsIn(s.shared.chan)
  {
    hide CountsOk, Orderly, ThreadsOk, HeardOnce;
    AllWell(s);
    forall e: nat | e in Unheard(s)
      ensures e in LostIn(s.place) + HeldByThese(s.workers, Flagged(s.workers) - Charged(s.workers)) + ResultsIn(s.shared.chan)
    {
      assert e in s.place && At(s.place, e, s.place[e]);
      match s.place[e]
      case WithWalker =>
      case Queued =>
      case Held(w) => assert HeldBy(s.workers[w]) == Some(e);
      case InChannel =>
        var k := FiledWhere(s.place, s.shared.chan, InChannel, e);
        assert s.shared.chan[k] in s.shared.chan;
      case Handled => FiledOnce(s.place, s.main.handled, Handled, e);
      case Lost =>
    }
  }

  lemma ChargedAreFlagged(s: State)
    requires Inv(s) && IsCompleted(s)
    ensures Charged(s.workers) <= Flagged(s.workers) && !s.shared.stop && !s.walker.died && |s.shared.chan| <= CHANNEL
  {
    AllWell(s);
  }

  /** In every run: a scan reported completed missed at most as many entries as it
      abandoned workers, and those whose results were still in the channel. */
  lemma CompletedMissesFew(n: nat, entries: seq<Entry>, spawned: nat, walkerSpawned: bool, cancelled: bool, issues: nat, steps: seq<Step>)
    requires 0 < n && spawned <= n
    requires var s := Initial(n, entries, spawned, walkerSpawned, cancelled, issues);
             Possible(s, steps) && IsCompleted(After(s, steps))
    ensures var t := After(Initial(n, entries, spawned, walkerSpawned, cancelled, issues), steps);
            |Unheard(t)| <= t.main.abandoned + |t.shared.chan| <= t.main.abandoned + CHANNEL
  {
    hide Inv, IsCompleted, Possible, After, Unheard, Flagged, Charged, LostIn, HeldByThese, ResultsIn;
    var s := Initial(n, entries, spawned, walkerSpawned, cancelled, issues);
    InitialHolds(n, entries, spawned, walkerSpawned, cancelled, issues);
    NoLosses(n, entries, spawned, walkerSpawned, cancelled, issues);
    RunKeeps(s, steps);
    RunStays(s, steps);
    RunLosses(s, steps);
    CompletedAccounting(n, entries, spawned, walkerSpawned, cancelled, issues, steps);
    Sizes(After(s, steps));
  }

  lemma NoLosses(n: nat, entries: seq<Entry>, spawned: nat, walkerSpawned: bool, cancelled: bool, issues: nat)
    requires spawned <= n
    ensures LossesOk(Initial(n, entries, spawned, walkerSpawned, cancelled, issues))
  {
    var s := Initial(n, entries, spawned, walkerSpawned, cancelled, issues);
    assert Flagged(s.workers) == {} && LostIn(s.place) == {};
  }

  lemma Sizes(t: State)
    requires 0 < t.n && Inv(t) && LossesOk(t) && IsCompleted(t) && t.shared.queue == []
    ensures |Unheard(t)| <= t.main.abandoned + |t.shared.chan| <= t.main.abandoned + CHANNEL
  {
    hide Inv, IsCompleted, Unheard, Flagged, Charged, LostIn, HeldByThese, ResultsIn;
    var flagged, charged := Flagged(t.workers), Charged(t.workers);
    ChargedAreFlagged(t);
    SubsetSize(charged, flagged);
    HeldSize(t.workers, flagged - charged);
    ResultsSize(t.shared.chan);
    UnheardIs(t);
    var all := LostIn(t.place) + HeldByThese(t.workers, flagged - charged) + ResultsIn(t.shared.chan);
    SubsetSize(Unheard(t), all);
  }
}
