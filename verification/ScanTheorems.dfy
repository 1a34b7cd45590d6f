/** What a scan promises over every run, whatever the interleaving. */
module ScanTheorems {
  import opened Wrappers
  import opened ScanProtocol
  import opened ScanAccounting
  import opened ScanThreads

  ghost predicate Inv(s: State) {
    Accounted(s) && ThreadsOk(s) && CountsOk(s) && Orderly(s)
  }

  lemma InitialHolds(n: nat, entries: seq<Entry>, spawned: nat, walkerSpawned: bool, cancelled: bool, issues: nat)
    requires 0 < n && spawned <= n
    ensures Inv(Initial(n, entries, spawned, walkerSpawned, cancelled, issues))
  {
    var s := Initial(n, entries, spawned, walkerSpawned, cancelled, issues);
    NobodyTakes(s.workers);
  }

  lemma {:induction false} NobodyTakes(workers: seq<Worker>)
    requires forall w :: 0 <= w < |workers| ==> workers[w] == Fresh()
    ensures TakingIn(workers) == 0
  {
    if workers != [] {
      NobodyTakes(workers[1..]);
    }
  }

  /** Every step of every thread keeps the invariant. */
  lemma StepKeeps(s: State, step: Step)
    requires Inv(s) && Enabled(s, step)
    ensures Inv(Apply(s, step))
  {
    hide WalkerStep, WorkerStep, MainStep, WalkerCan, WorkerCan, MainCan, Accounted, CountsOk, Orderly;
    CountsKept(s, step);
    match step
    case ByWalker(walk) =>
      WalkerAccounted(s, walk);
      WalkerWithin(s);
      WalkerKeepsWalker(s, walk);
      WalkerKeepsRest(s, walk);
      WalkerKeepsOrder(s, walk);
    case ByWorker(w, work) =>
      WorkerAccounted(s, w, work);
      WorkerKeepsChan(s, w, work);
      WorkerKeepsOthers(s, w, work);
      WorkerKeepsMain(s, w, work);
      WorkerKeepsOrder(s, w, work);
    case ByMain(move) =>
      MainAccounted(s, move);
      MainKeeps(s, move);
      MainKeepsOrder(s, move);
  }

  lemma WalkerWithin(s: State)
    requires Accounted(s)
    ensures s.walker.pos <= |s.entries|
  {
  }

  lemma {:induction false} RunKeeps(s: State, steps: seq<Step>)
    requires Inv(s) && Possible(s, steps)
    ensures Inv(After(s, steps))
    decreases |steps|
  {
    if steps != [] {
      StepKeeps(s, steps[0]);
      RunKeeps(Apply(s, steps[0]), steps[1..]);
    }
  }

  lemma EntriesStay(s: State, step: Step)
    requires Enabled(s, step)
    ensures Apply(s, step).entries == s.entries && Apply(s, step).n == s.n
  {
    hide SomeDied, AllDead, AllEnded;
  }

  lemma {:induction false} RunStays(s: State, steps: seq<Step>)
    requires Possible(s, steps)
    ensures After(s, steps).entries == s.entries && After(s, steps).n == s.n
    decreases |steps|
  {
    if steps != [] {
      EntriesStay(s, steps[0]);
      RunStays(Apply(s, steps[0]), steps[1..]);
    }
  }

  // ---- Full accounting.

  /** Exactly one handled message says that entry `e` was scanned or skipped. */
  ghost predicate DoneOnce(handled: seq<Msg>, e: nat) {
    exists k :: && 0 <= k < |handled| && ResultOf(handled[k]) == Some(e) && (handled[k].Scanned? || handled[k].Skipped?)
                && forall j :: 0 <= j < |handled| && ResultOf(handled[j]) == Some(e) ==> j == k
  }

  /** Threads that no one abandoned have ended, and none died. */
  lemma AllWell(s: State)
    requires Inv(s) && IsCompleted(s)
    ensures !s.shared.stop && !s.walker.died && s.walker.pos == |s.entries| && WalkerMsgs(s) == []
    ensures forall w :: 0 <= w < |s.workers| && !s.workers[w].flagged ==> s.workers[w].pc.Gone? && !s.workers[w].died
  {
    forall w | 0 <= w < |s.workers| && !s.workers[w].flagged
      ensures s.workers[w].pc.Gone? && !s.workers[w].died
    {
      assert WorkerOk(s, w);
    }
  }

  /** A complete report accounts for every entry of the walk: each has exactly
      one Scanned or Skipped message, except folders within the depth limit,
      which have none. */
  lemma FullAccounting(n: nat, entries: seq<Entry>, spawned: nat, walkerSpawned: bool, cancelled: bool, issues: nat, steps: seq<Step>)
    requires 0 < n && spawned <= n
    requires var s := Initial(n, entries, spawned, walkerSpawned, cancelled, issues);
             Possible(s, steps) && IsComplete(After(s, steps))
    ensures var handled := After(Initial(n, entries, spawned, walkerSpawned, cancelled, issues), steps).main.handled;
            forall e :: 0 <= e < |entries| ==> if Reports(entries[e]) then DoneOnce(handled, e)
                                               else forall k :: 0 <= k < |handled| ==> ResultOf(handled[k]) != Some(e)
  {
    var s0 := Initial(n, entries, spawned, walkerSpawned, cancelled, issues);
    InitialHolds(n, entries, spawned, walkerSpawned, cancelled, issues);
    RunKeeps(s0, steps);
    RunStays(s0, steps);
    CompleteAccounts(After(s0, steps));
  }

  /** Nothing sent is left unheard when nobody was abandoned. */
  lemma NothingUnheard(s: State)
    requires Inv(s) && Over(s.main.pc) && s.main.abandoned == 0
    ensures forall e: nat :: !At(s.place, e, InChannel)
  {
    forall k | 0 <= k < |s.shared.chan|
      ensures s.shared.chan[k].Exited?
    {
      if !s.shared.chan[k].Exited? {
        var who :| Awaited(s, who) && NoNotice(s.shared.chan, k, who);
        assert false;
      }
    }
  }

  /** Exactly one handled message is the result of entry `e`. */
  ghost predicate HeardOnce(handled: seq<Msg>, e: nat) {
    exists k :: && 0 <= k < |handled| && ResultOf(handled[k]) == Some(e)
                && forall j :: 0 <= j < |handled| && ResultOf(handled[j]) == Some(e) ==> j == k
  }

  /** A scan that was not stopped and abandoned nobody heard the result of
      every entry once, be it only an issue. */
  lemma CompletedHeard(s: State)
    requires 0 < s.n && Inv(s) && IsCompleted(s) && s.main.abandoned == 0
    ensures forall e :: 0 <= e < |s.entries| && Reports(s.entries[e]) ==> HeardOnce(s.main.handled, e)
  {
    hide ThreadsOk, CountsOk, Orderly, Filed, InLine, HeldOk, HeardOnce;
    AllHandled(s);
    forall e: nat | e < |s.entries| && Reports(s.entries[e])
      ensures HeardOnce(s.main.handled, e)
    {
      assert At(s.place, e, Handled);
      FiledOnce(s.place, s.main.handled, Handled, e);
    }
  }

  lemma FiledOnce(place: map<nat, Place>, msgs: seq<Msg>, p: Place, e: nat)
    requires Filed(place, msgs, p) && At(place, e, p)
    ensures HeardOnce(msgs, e)
  {
    hide Filed;
    var k := FiledWhere(place, msgs, p, e);
    forall j | 0 <= j < |msgs| && ResultOf(msgs[j]) == Some(e)
      ensures j == k
    {
      if j < k {
        FiledApart(place, msgs, p, j, k);
      } else if k < j {
        FiledApart(place, msgs, p, k, j);
      }
    }
  }

  lemma FiledWhere(place: map<nat, Place>, msgs: seq<Msg>, p: Place, e: nat) returns (k: nat)
    requires Filed(place, msgs, p) && At(place, e, p)
    ensures k < |msgs| && ResultOf(msgs[k]) == Some(e)
  {
    k :| 0 <= k < |msgs| && ResultOf(msgs[k]) == Some(e);
  }

  lemma FiledApart(place: map<nat, Place>, msgs: seq<Msg>, p: Place, j: nat, k: nat)
    requires Filed(place, msgs, p) && j < k < |msgs| && ResultOf(msgs[j]).Some?
    ensures ResultOf(msgs[j]) != ResultOf(msgs[k])
  {
  }

  lemma AllHandled(s: State)
    requires 0 < s.n && Inv(s) && IsCompleted(s) && s.main.abandoned == 0
    ensures s.walker.pos == |s.entries|
    ensures forall e: nat :: e in s.place ==> s.place[e] == Handled
  {
    hide CountsOk, Orderly, SomeDied, AllDead, AllEnded;
    AllWell(s);
    AllIdle(s);
    NothingUnheard(s);
    forall e: nat | e in s.place
      ensures s.place[e] == Handled
    {
      assert At(s.place, e, s.place[e]);
    }
  }

  lemma AllIdle(s: State)
    requires 0 < s.n && Inv(s) && IsCompleted(s) && s.main.abandoned == 0
    ensures s.shared.queue == []
    ensures forall w :: 0 <= w < |s.workers| ==> HeldBy(s.workers[w]) == None && !s.workers[w].died
  {
    hide Accounted, CountsOk, Orderly;
    AllWell(s);
    forall w | 0 <= w < |s.workers|
      ensures s.workers[w].pc.Gone? && !s.workers[w].died && s.shared.queue == []
    {
      assert WorkerOk(s, w);
    }
    assert s.workers[0].pc.Gone?;
  }

  lemma CompleteAccounts(s: State)
    requires 0 < s.n && Inv(s) && IsComplete(s)
    ensures forall e :: 0 <= e < |s.entries| ==> if Reports(s.entries[e]) then DoneOnce(s.main.handled, e)
                                                 else forall k :: 0 <= k < |s.main.handled| ==> ResultOf(s.main.handled[k]) != Some(e)
  {
    CompletedHeard(s);
    forall e | 0 <= e < |s.entries| && Reports(s.entries[e])
      ensures DoneOnce(s.main.handled, e)
    {
      var k :| 0 <= k < |s.main.handled| && ResultOf(s.main.handled[k]) == Some(e)
               && forall j :: 0 <= j < |s.main.handled| && ResultOf(s.main.handled[j]) == Some(e) ==> j == k;
      assert s.main.handled[k] in s.main.handled;
    }
    assert forall k :: 0 <= k < |s.main.handled| && ResultOf(s.main.handled[k]).Some? ==>
                         At(s.place, ResultOf(s.main.handled[k]).value, Handled);
  }

  /** A scan that ends with files still queued is never reported completed. */
  lemma CompletedQueue(s: State, steps: seq<Step>)
    requires Inv(s) && Reckoned(s) && Possible(s, steps) && IsCompleted(After(s, steps))
    ensures After(s, steps).shared.queue == []
  {
    RunKeeps(s, steps);
    var t := After(s, steps);
    assert t.shared.enqueued <= t.shared.dequeued by {
      ReckonedRight(s, steps);
    }
  }

  /** Nobody counts in or out between reckoning and the end but abandoned
      workers, which only count out. */
  ghost predicate Reckoned(s: State) {
    (s.main.pc.Joining? || s.main.pc.Finished?) && s.main.stopReason == None ==> s.shared.enqueued <= s.shared.dequeued
  }

  lemma {:induction false} ReckonedRight(s: State, steps: seq<Step>)
    requires Inv(s) && Reckoned(s) && Possible(s, steps)
    ensures Reckoned(After(s, steps))
    decreases |steps|
  {
    if steps != [] {
      StepKeeps(s, steps[0]);
      ReckonedKept(s, steps[0]);
      ReckonedRight(Apply(s, steps[0]), steps[1..]);
    }
  }

  lemma ReckonedKept(s: State, step: Step)
    requires Inv(s) && Reckoned(s) && Enabled(s, step)
    ensures Reckoned(Apply(s, step))
  {
    hide AllDead, AllEnded, SomeDied, Accounted, CountsOk, Orderly, WorkersOk, ChanOk, LostOk, PlaceAfter, WorkerAfter, Heard;
    match step
    case ByWalker(walk) => assert Reckoned(WalkerStep(s, walk));
    case ByWorker(w, work) => assert Reckoned(WorkerStep(s, w, work));
    case ByMain(move) => MainReckons(s, move);
  }

  lemma MainReckons(s: State, move: MainMove)
    requires Reckoned(s) && MainCan(s, move)
    ensures Reckoned(MainStep(s, move))
  {
    hide AllDead, AllEnded, SomeDied;
  }

  /** In every run, a scan reported completed has left nothing on the work queue;
      and if it abandoned no worker it heard the result of every entry of the
      walk exactly once, be it only an issue. */
  lemma CompletedAccounting(n: nat, entries: seq<Entry>, spawned: nat, walkerSpawned: bool, cancelled: bool, issues: nat, steps: seq<Step>)
    requires 0 < n && spawned <= n
    requires var s := Initial(n, entries, spawned, walkerSpawned, cancelled, issues);
             Possible(s, steps) && IsCompleted(After(s, steps))
    ensures var t := After(Initial(n, entries, spawned, walkerSpawned, cancelled, issues), steps);
            && t.shared.queue == []
            && (t.main.abandoned == 0 ==> forall e :: 0 <= e < |entries| && Reports(entries[e]) ==> HeardOnce(t.main.handled, e))
  {
    hide Inv, Reckoned;
    var s0 := Initial(n, entries, spawned, walkerSpawned, cancelled, issues);
    InitialHolds(n, entries, spawned, walkerSpawned, cancelled, issues);
    NotReckoned(s0);
    RunKeeps(s0, steps);
    RunStays(s0, steps);
    CompletedQueue(s0, steps);
    if After(s0, steps).main.abandoned == 0 {
      CompletedHeard(After(s0, steps));
    }
  }

  lemma NotReckoned(s: State)
    requires s.main.pc.Top?
    ensures Reckoned(s)
  {
  }

  /** At most twice the configured number of workers is ever spawned. */
  lemma SpawnBound(n: nat, entries: seq<Entry>, spawned: nat, walkerSpawned: bool, cancelled: bool, issues: nat, steps: seq<Step>)
    requires 0 < n && spawned <= n && Possible(Initial(n, entries, spawned, walkerSpawned, cancelled, issues), steps)
    ensures |After(Initial(n, entries, spawned, walkerSpawned, cancelled, issues), steps).workers| <= 2 * n
  {
    var s0 := Initial(n, entries, spawned, walkerSpawned, cancelled, issues);
    InitialHolds(n, entries, spawned, walkerSpawned, cancelled, issues);
    RunKeeps(s0, steps);
    RunStays(s0, steps);
  }
}
