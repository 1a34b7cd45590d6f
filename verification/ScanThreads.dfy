/** What every interleaving of the scan keeps about its threads. */
module ScanThreads {
  import opened Wrappers
  import opened ScanProtocol
  import opened ScanAccounting

  predicate WalkerLeft(k: Walker) {
    k.pc.WalkerNoticed? || k.pc.WalkerGone?
  }

  /** The walker's last message is on its way until the coordinator has it. */
  ghost predicate WalkerOk(s: State) {
    var k := s.walker;
    && OfferOk(s)
    && (k.pc.Telling? ==> k.pc.msgs != [] && forall m :: m in k.pc.msgs ==> !m.Exited?)
    && (s.shared.senderOpen <==> !k.pc.WalkerGone?)
    && (WalkerLeft(k) && !s.main.walkerDone ==> Exited(TheWalker, k.died) in s.shared.chan)
    && (s.main.walkerDone ==> WalkerLeft(k) && (k.died ==> s.main.panicked))
    && ((k.pc.WalkerLeaving? || WalkerLeft(k)) && !k.died ==> k.pos == |s.entries| || s.shared.stop)
  }

  predicate WorkerLeft(x: Worker) {
    x.pc.Leaving? || x.pc.Gone?
  }

  ghost predicate WorkerOk(s: State, w: nat)
    requires w < |s.workers|
  {
    var x := s.workers[w];
    && (x.flagged ==> !x.live && s.main.abandoned > 0)
    && (x.pc.Gone? && x.live ==> Exited(TheWorker(w), x.died) in s.shared.chan)
    && (!x.live && !x.flagged ==> x.pc.Gone? && (x.died ==> s.main.panicked))
    && (x.pc.Listening? <==> s.shared.lock == Some(w))
    && (WorkerLeft(x) && !x.died && !x.flagged ==> !s.shared.senderOpen && s.shared.queue == [])
    && (x.pc.Made? && x.pc.out.Some? ==> !x.pc.out.value.Exited?)
    && (x.pc.Posting? ==> !x.pc.msg.Exited?)
    && (x.pc.Busy? ==> x.slot.Some?)
  }

  ghost predicate WorkersOk(s: State) {
    && (forall w :: 0 <= w < |s.workers| ==> WorkerOk(s, w))
    && (s.shared.lock.Some? ==> s.shared.lock.value < |s.workers|)
  }

  /** A message that a thread has left is true. */
  ghost predicate NoticeOk(s: State, m: Msg) {
    match m
    case Exited(TheWalker, p) => WalkerLeft(s.walker) && p == s.walker.died
    case Exited(TheWorker(w), p) => w < |s.workers| && s.workers[w].pc.Gone? && p == s.workers[w].died
    case _ => true
  }

  ghost predicate ChanOk(s: State) {
    && |s.shared.chan| <= CHANNEL && |s.shared.queue| <= PER_WORKER * s.n
    && (forall m :: m in s.shared.chan ==> NoticeOk(s, m))
  }

  predicate Over(pc: Pc) {
    pc.Closing? || pc.Reckoning? || pc.Joining? || pc.Finished?
  }

  ghost predicate MainOk(s: State) {
    var m := s.main;
    && (m.stopReason.Some? && !m.pc.Joining? && !m.pc.Finished? ==> s.shared.stop)
    && (s.shared.stop ==> m.stopReason.Some? || m.spawnError)
    && (m.abandoned > 0 ==> m.issues > 0)
    && (forall r :: r in m.handled ==> !r.Exited? && (r.Issue? ==> m.issues > 0))
    && |s.workers| <= s.n + (if m.abandoned < s.n then m.abandoned else s.n)
    && (!m.spawnError ==> s.n <= |s.workers|)
    && (m.pc.Watching? ==> m.pc.id <= m.pc.upTo <= |s.workers|)
    && (m.pc.Stalled? ==> m.pc.id < m.pc.upTo <= |s.workers| && s.workers[m.pc.id].live)
    && ((m.pc.Top? || m.pc.Receiving?) && !m.walkerDone && AllDead(s.workers) ==> s.shared.stop)
    && (s.shared.receiverOpen <==> !m.pc.Reckoning? && !m.pc.Joining? && !m.pc.Finished?)
    && (Over(m.pc) ==> m.walkerDone && AllDead(s.workers))
    && (m.pc.Finished? ==> AllEnded(s.workers))
  }

  /** A result is lost only for a reason the report gives. */
  ghost predicate Excused(s: State) {
    s.shared.stop || s.walker.died || s.main.abandoned > 0 || exists w :: 0 <= w < |s.workers| && s.workers[w].died
  }

  ghost predicate LostOk(s: State) {
    forall e: nat :: At(s.place, e, Lost) ==> Excused(s)
  }

  ghost predicate ThreadsOk(s: State) {
    WalkerOk(s) && WorkersOk(s) && ChanOk(s) && MainOk(s) && LostOk(s)
  }

  // ---- The walker's steps.

  lemma WalkerKeepsWalker(s: State, walk: WalkerMove)
    requires ThreadsOk(s) && WalkerCan(s, walk) && s.walker.pos <= |s.entries|
    ensures WalkerOk(WalkerStep(s, walk)) && MainOk(WalkerStep(s, walk))
  {
    hide WorkersOk, LostOk, AllDead, AllEnded, SomeDied;
    var t := WalkerStep(s, walk);
    assert s.walker.pc.Telling? && |s.walker.pc.msgs| > 1 ==> forall m :: m in s.walker.pc.msgs[1..] ==> m in s.walker.pc.msgs;
    match walk
    case Walk => assert t.walker.pc.Telling? ==> t.walker.pc.msgs == Told(s.entries[s.walker.pos], s.walker.pos);
    case Tell =>
    case WalkerNotice =>
      if s.shared.receiverOpen {
        assert t.shared.chan[|s.shared.chan|] == Exited(TheWalker, s.walker.died);
      }
    case _ =>
  }

  lemma WalkerKeepsRest(s: State, walk: WalkerMove)
    requires ThreadsOk(s) && WalkerCan(s, walk) && s.walker.pos <= |s.entries|
    ensures WorkersOk(WalkerStep(s, walk)) && ChanOk(WalkerStep(s, walk)) && LostOk(WalkerStep(s, walk))
  {
    var t := WalkerStep(s, walk);
    assert t.workers == s.workers;
    forall w | 0 <= w < |t.workers|
      ensures WorkerOk(t, w)
    {
      assert WorkerOk(s, w);
      assert s.shared.chan <= t.shared.chan;
    }
    forall e: nat | At(t.place, e, Lost)
      ensures Excused(t)
    {
      assert At(s.place, e, Lost) ==> Excused(s);
    }
    if walk.Tell? {
      assert s.walker.pc.msgs[0] in s.walker.pc.msgs;
    }
  }

  // ---- A worker's steps.

  lemma WorkerKeepsChan(s: State, w: nat, work: WorkerMove)
    requires ThreadsOk(s) && w < |s.workers| && WorkerCan(s, w, work)
    ensures ChanOk(WorkerStep(s, w, work))
  {
    hide AllDead, AllEnded, SomeDied, MainOk, LostOk, PlaceAfter, WalkerOk;
    var t := WorkerStep(s, w, work);
    assert WorkerOk(s, w);
    forall m | m in t.shared.chan
      ensures NoticeOk(t, m)
    {
      if m in s.shared.chan {
        assert NoticeOk(s, m);
      }
    }
  }

  lemma WorkerKeepsSelf(s: State, w: nat, work: WorkerMove)
    requires ThreadsOk(s) && w < |s.workers| && WorkerCan(s, w, work)
    ensures WorkerOk(WorkerStep(s, w, work), w)
  {
    hide AllDead, AllEnded, SomeDied, LostOk, PlaceAfter, WalkerOk, ChanOk;
    var t := WorkerStep(s, w, work);
    assert WorkerOk(s, w);
    if work.Notice? && s.shared.receiverOpen {
      assert t.shared.chan[|s.shared.chan|] == Exited(TheWorker(w), s.workers[w].died);
    }
    if work.Post? && !s.shared.receiverOpen {
      NoneLive(s, w);
    }
    if work.Notice? && !s.shared.receiverOpen {
      NoneLive(s, w);
    }
  }

  lemma NoneLive(s: State, w: nat)
    requires MainOk(s) && !s.shared.receiverOpen && w < |s.workers|
    ensures !s.workers[w].live
  {
  }

  lemma WorkerKeepsOthers(s: State, w: nat, work: WorkerMove)
    requires ThreadsOk(s) && w < |s.workers| && WorkerCan(s, w, work)
    ensures WorkersOk(WorkerStep(s, w, work))
  {
    hide AllDead, AllEnded, SomeDied, LostOk, PlaceAfter, WalkerOk, ChanOk, MainOk;
    var t := WorkerStep(s, w, work);
    WorkerKeepsSelf(s, w, work);
    assert WorkerOk(s, w);
    forall v | 0 <= v < |t.workers| && v != w
      ensures WorkerOk(t, v)
    {
      assert t.workers[v] == s.workers[v];
      assert WorkerOk(s, v);
      assert s.shared.chan <= t.shared.chan;
    }
  }

  lemma WorkerKeepsMain(s: State, w: nat, work: WorkerMove)
    requires ThreadsOk(s) && w < |s.workers| && WorkerCan(s, w, work)
    ensures WalkerOk(WorkerStep(s, w, work)) && MainOk(WorkerStep(s, w, work)) && LostOk(WorkerStep(s, w, work))
  {
    hide PlaceAfter;
    var t := WorkerStep(s, w, work);
    assert WorkerOk(s, w);
    assert forall v :: 0 <= v < |s.workers| ==> t.workers[v].live == s.workers[v].live && t.workers[v].flagged == s.workers[v].flagged
                                                && (s.workers[v].died ==> t.workers[v].died);
    assert s.main.pc.Finished? ==> AllEnded(t.workers);
    assert s.shared.chan <= t.shared.chan;
    WorkerLoses(s, w, work);
  }

  lemma WorkerLoses(s: State, w: nat, work: WorkerMove)
    requires ThreadsOk(s) && w < |s.workers| && WorkerCan(s, w, work)
    ensures LostOk(WorkerStep(s, w, work))
  {
    hide AllDead, AllEnded, SomeDied, WalkerOk, ChanOk;
    var t := WorkerStep(s, w, work);
    assert WorkerOk(s, w);
    if work.Post? && !s.shared.receiverOpen {
      NoneLive(s, w);
    }
    forall e: nat | At(t.place, e, Lost)
      ensures Excused(t)
    {
      if At(s.place, e, Lost) {
        assert Excused(s);
        if v :| 0 <= v < |s.workers| && s.workers[v].died {
          assert t.workers[v].died;
        }
      } else {
        assert Goes(s.shared, s.workers[w], work) == Some(Lost);
        assert t.workers[w].died || s.shared.stop || s.main.abandoned > 0;
      }
    }
  }

  // ---- The coordinator's steps.

  lemma RestHas(chan: seq<Msg>, m: Msg)
    requires chan != [] && m in chan && m != chan[0]
    ensures m in chan[1..]
  {
  }

  lemma HeardKeeps(s: State)
    requires ThreadsOk(s) && MainCan(s, Receive)
    ensures ThreadsOk(MainStep(s, Receive))
  {
    HeardKeepsWorkers(s);
    HeardKeepsWalker(s);
    HeardKeepsMain(s);
    HeardLoses(s);
  }

  lemma HeardKeepsMain(s: State)
    requires ThreadsOk(s) && MainCan(s, Receive)
    ensures MainOk(MainStep(s, Receive))
  {
    hide WorkersOk, WalkerOk, LostOk, ChanOk, SomeDied, NoticeOk, Moved;
  }

  lemma HeardKeepsWalker(s: State)
    requires ThreadsOk(s) && MainCan(s, Receive)
    ensures WalkerOk(MainStep(s, Receive)) && ChanOk(MainStep(s, Receive))
  {
    hide AllEnded, SomeDied, AllDead, WorkersOk, LostOk, MainOk, Moved;
    var t := MainStep(s, Receive);
    var m := s.shared.chan[0];
    assert NoticeOk(s, m);
    var notice := Exited(TheWalker, s.walker.died);
    if notice in s.shared.chan && notice != m {
      RestHas(s.shared.chan, notice);
    }
    forall r | r in t.shared.chan
      ensures NoticeOk(t, r)
    {
      assert NoticeOk(s, r);
    }
  }

  lemma HeardKeepsWorkers(s: State)
    requires ThreadsOk(s) && MainCan(s, Receive)
    ensures WorkersOk(MainStep(s, Receive))
  {
    hide AllEnded, SomeDied, AllDead, WalkerOk, LostOk, MainOk, Moved;
    var t := MainStep(s, Receive);
    var m := s.shared.chan[0];
    assert NoticeOk(s, m);
    forall w | 0 <= w < |t.workers|
      ensures WorkerOk(t, w)
    {
      assert WorkerOk(s, w);
      var notice := Exited(TheWorker(w), s.workers[w].died);
      if notice in s.shared.chan && notice != m {
        RestHas(s.shared.chan, notice);
      }
    }
  }

  lemma HeardLoses(s: State)
    requires ThreadsOk(s) && MainCan(s, Receive)
    ensures LostOk(MainStep(s, Receive))
  {
    hide AllEnded, SomeDied, AllDead, WalkerOk, WorkersOk, ChanOk, MainOk;
    var t := MainStep(s, Receive);
    forall e: nat | At(t.place, e, Lost)
      ensures Excused(t)
    {
      assert At(s.place, e, Lost);
      if v :| 0 <= v < |s.workers| && s.workers[v].died {
        assert t.workers[v].died;
      }
    }
  }

  lemma AbandonKeeps(s: State, spawn: bool)
    requires ThreadsOk(s) && MainCan(s, Abandon(spawn))
    ensures ThreadsOk(MainStep(s, Abandon(spawn)))
  {
    hide AllEnded, SomeDied, AllDead;
    var t := MainStep(s, Abandon(spawn));
    forall w | 0 <= w < |t.workers|
      ensures WorkerOk(t, w)
    {
      if w < |s.workers| {
        assert WorkerOk(s, w);
      }
    }
    forall r | r in t.shared.chan
      ensures NoticeOk(t, r)
    {
      assert NoticeOk(s, r);
    }
  }

  lemma MainKeeps(s: State, move: MainMove)
    requires ThreadsOk(s) && MainCan(s, move)
    ensures ThreadsOk(MainStep(s, move))
  {
    hide Heard, SomeDied, AllDead, AllEnded;
    if move.Receive? {
      HeardKeeps(s);
    } else if move.Abandon? {
      AbandonKeeps(s, move.spawn);
    } else {
      MainKeepsMain(s, move);
      var t := MainStep(s, move);
      SameThreads(s, t);
    }
  }

  /** The coordinator's other moves touch no thread. */
  lemma SameThreads(s: State, t: State)
    requires ThreadsOk(s) && MainOk(t)
    requires t.workers == s.workers && t.walker == s.walker && t.place == s.place && t.entries == s.entries && t.n == s.n
    requires t.shared.chan == s.shared.chan && t.shared.queue == s.shared.queue && t.shared.lock == s.shared.lock
    requires t.shared.senderOpen == s.shared.senderOpen && (s.shared.stop ==> t.shared.stop)
    requires t.main.walkerDone == s.main.walkerDone && (s.main.panicked ==> t.main.panicked)
    requires t.main.abandoned == s.main.abandoned
    ensures ThreadsOk(t)
  {
    hide MainOk;
    forall w | 0 <= w < |t.workers|
      ensures WorkerOk(t, w)
    {
      assert WorkerOk(s, w);
    }
    forall r | r in t.shared.chan
      ensures NoticeOk(t, r)
    {
      assert NoticeOk(s, r);
    }
  }

  lemma MainKeepsMain(s: State, move: MainMove)
    requires MainOk(s) && MainCan(s, move) && !move.Receive? && !move.Abandon?
    ensures MainOk(MainStep(s, move))
  {
    match move
    case LoopTest =>
    case Tick =>
    case Check(r) =>
    case Watch(r) =>
    case Judge =>
    case Close =>
    case Reckon =>
    case Join =>
  }

  // ---- The counters.

  predicate Taking(x: Worker) {
    x.pc.Took?
  }

  function TakingIn(workers: seq<Worker>): (k: nat) {
    if workers == [] then 0 else (if Taking(workers[0]) then 1 else 0) + TakingIn(workers[1..])
  }

  lemma {:induction false} TakingPut(workers: seq<Worker>, w: nat, x: Worker)
    requires w < |workers|
    ensures TakingIn(workers[w := x]) + (if Taking(workers[w]) then 1 else 0) == TakingIn(workers) + (if Taking(x) then 1 else 0)
  {
    if w == 0 {
      assert workers[w := x][1..] == workers[1..];
    } else {
      TakingPut(workers[1..], w - 1, x);
      assert workers[w := x][1..] == workers[1..][w - 1 := x];
    }
  }

  lemma {:induction false} TakingAppend(workers: seq<Worker>, x: Worker)
    ensures TakingIn(workers + [x]) == TakingIn(workers) + (if Taking(x) then 1 else 0)
  {
    if workers != [] {
      TakingAppend(workers[1..], x);
      assert (workers + [x])[1..] == workers[1..] + [x];
    }
  }

  /** What is on the queue has been counted in and not yet counted out. */
  ghost predicate CountsOk(s: State) {
    s.walker.died
    || s.shared.dequeued + TakingIn(s.workers) + |s.shared.queue| <= s.shared.enqueued + (if s.walker.pc.Counting? then 1 else 0)
  }

  lemma CountsKept(s: State, step: Step)
    requires CountsOk(s) && Enabled(s, step)
    ensures CountsOk(Apply(s, step))
  {
    match step
    case ByWalker(walk) => assert CountsOk(WalkerStep(s, walk));
    case ByWorker(w, work) => WorkerCounts(s, w, work);
    case ByMain(move) => MainCounts(s, move);
  }

  lemma WorkerCounts(s: State, w: nat, work: WorkerMove)
    requires CountsOk(s) && w < |s.workers| && WorkerCan(s, w, work)
    ensures CountsOk(WorkerStep(s, w, work))
  {
    hide PlaceAfter, TakingIn;
    TakingPut(s.workers, w, WorkerAfter(s.shared, s.workers[w], work));
  }

  lemma MainCounts(s: State, move: MainMove)
    requires CountsOk(s) && MainCan(s, move)
    ensures CountsOk(MainStep(s, move))
  {
    hide AllEnded, SomeDied, AllDead, TakingIn, Moved;
    var t := MainStep(s, move);
    if move.Receive? {
      var m := s.shared.chan[0];
      if m.Exited? && m.who.TheWorker? && m.who.id < |s.workers| {
        TakingPut(s.workers, m.who.id, s.workers[m.who.id].(live := false));
      }
    } else if move.Abandon? {
      var x := s.workers[s.main.pc.id].(flagged := true, live := false);
      TakingPut(s.workers, s.main.pc.id, x);
      TakingAppend(s.workers[s.main.pc.id := x], Fresh());
      assert s.workers[s.main.pc.id := x] + [] == s.workers[s.main.pc.id := x];
    } else {
      assert t.workers == s.workers && t.walker == s.walker;
    }
  }

  // ---- The channel is in order.

  /** The coordinator still waits for `who`. */
  predicate Awaited(s: State, who: Who) {
    match who
    case TheWalker => !s.main.walkerDone
    case TheWorker(w) => w < |s.workers| && s.workers[w].live
  }

  ghost predicate NoNotice(chan: seq<Msg>, upTo: nat, who: Who) {
    forall j :: 0 <= j < upTo && j < |chan| && chan[j].Exited? ==> chan[j].who != who
  }

  /** Unless a worker was abandoned, whatever was sent comes before the last
      message of a thread the coordinator still waits for. */
  ghost predicate Orderly(s: State) {
    s.main.abandoned > 0
    || forall k :: 0 <= k < |s.shared.chan| && !s.shared.chan[k].Exited? ==>
         exists who :: Awaited(s, who) && NoNotice(s.shared.chan, k, who)
  }

  /** What a thread sends keeps the channel in order. */
  lemma SendKeepsOrder(s: State, t: State, m: Msg)
    requires Orderly(s) && t.shared.chan == s.shared.chan + [m] && t.main == s.main
    requires forall who :: Awaited(s, who) ==> Awaited(t, who)
    requires !m.Exited? && s.main.abandoned == 0 ==> exists who :: Awaited(s, who) && NoNotice(s.shared.chan, |s.shared.chan|, who)
    ensures Orderly(t)
  {
    if s.main.abandoned == 0 {
      forall k | 0 <= k < |t.shared.chan| && !t.shared.chan[k].Exited?
        ensures exists who :: Awaited(t, who) && NoNotice(t.shared.chan, k, who)
      {
        if k < |s.shared.chan| {
          assert s.shared.chan[k] == t.shared.chan[k];
        }
        var who :| Awaited(s, who) && NoNotice(s.shared.chan, k, who);
        assert NoNotice(t.shared.chan, k, who);
      }
    }
  }

  lemma NobodyNoticed(s: State, who: Who)
    requires ChanOk(s)
    requires match who case TheWalker => !WalkerLeft(s.walker) case TheWorker(w) => w < |s.workers| && !s.workers[w].pc.Gone?
    ensures NoNotice(s.shared.chan, |s.shared.chan|, who)
  {
    forall j | 0 <= j < |s.shared.chan| && s.shared.chan[j].Exited?
      ensures s.shared.chan[j].who != who
    {
      assert NoticeOk(s, s.shared.chan[j]);
    }
  }

  lemma SameOrder(s: State, t: State)
    requires Orderly(s) && t.shared.chan == s.shared.chan && t.main.abandoned == s.main.abandoned
    requires forall who :: Awaited(s, who) ==> Awaited(t, who)
    ensures Orderly(t)
  {
  }

  lemma WalkerKeepsOrder(s: State, walk: WalkerMove)
    requires ThreadsOk(s) && Orderly(s) && WalkerCan(s, walk)
    ensures Orderly(WalkerStep(s, walk))
  {
    hide Orderly, WorkersOk, MainOk, LostOk, ChanOk, NoNotice;
    var t := WalkerStep(s, walk);
    if t.shared.chan == s.shared.chan {
      SameOrder(s, t);
    } else {
      assert Awaited(s, TheWalker) || walk.WalkerNotice?;
      NobodyNoticed(s, TheWalker);
      SendKeepsOrder(s, t, if walk.Tell? then s.walker.pc.msgs[0] else Exited(TheWalker, s.walker.died));
    }
  }

  lemma WorkerKeepsOrder(s: State, w: nat, work: WorkerMove)
    requires ThreadsOk(s) && Orderly(s) && w < |s.workers| && WorkerCan(s, w, work)
    ensures Orderly(WorkerStep(s, w, work))
  {
    hide Orderly, WalkerOk, MainOk, LostOk, ChanOk, NoNotice, PlaceAfter;
    var t := WorkerStep(s, w, work);
    assert forall v :: 0 <= v < |t.workers| ==> t.workers[v].live == s.workers[v].live;
    if t.shared.chan == s.shared.chan {
      SameOrder(s, t);
    } else {
      assert WorkerOk(s, w);
      assert s.main.abandoned == 0 ==> Awaited(s, TheWorker(w));
      NobodyNoticed(s, TheWorker(w));
      SendKeepsOrder(s, t, if work.Post? then s.workers[w].pc.msg else Exited(TheWorker(w), s.workers[w].died));
    }
  }

  lemma MainKeepsOrder(s: State, move: MainMove)
    requires Orderly(s) && MainCan(s, move)
    ensures Orderly(MainStep(s, move))
  {
    hide AllEnded, SomeDied, AllDead, Orderly, Heard;
    var t := MainStep(s, move);
    if move.Receive? {
      HeardKeepsOrder(s);
    } else if move.Abandon? {
      assert t.main.abandoned > 0;
      AbandonedIsOrderly(t);
    } else {
      SameOrder(s, t);
    }
  }

  lemma AbandonedIsOrderly(s: State)
    requires s.main.abandoned > 0
    ensures Orderly(s)
  {
  }

  lemma HeardKeepsOrder(s: State)
    requires Orderly(s) && MainCan(s, Receive)
    ensures Orderly(MainStep(s, Receive))
  {
    hide Moved;
    var t := MainStep(s, Receive);
    var m := s.shared.chan[0];
    if s.main.abandoned == 0 {
      forall k | 0 <= k < |t.shared.chan| && !t.shared.chan[k].Exited?
        ensures exists who :: Awaited(t, who) && NoNotice(t.shared.chan, k, who)
      {
        assert t.shared.chan[k] == s.shared.chan[k + 1];
        var who :| Awaited(s, who) && NoNotice(s.shared.chan, k + 1, who);
        assert m.Exited? ==> m.who != who;
        assert NoNotice(t.shared.chan, k, who);
        assert Awaited(t, who);
      }
    }
  }
}
