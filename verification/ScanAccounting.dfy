/** What every interleaving of the scan keeps, and what a complete report means:
    each entry of the walk had its result handled exactly once. */
module ScanAccounting {
  import opened Wrappers
  import opened ScanProtocol

  // ---- Where results are.

  ghost predicate At(place: map<nat, Place>, e: nat, p: Place) {
    e in place && place[e] == p
  }

  /** The results in `msgs` are those of the entries at `p`, each once. */
  ghost predicate Filed(place: map<nat, Place>, msgs: seq<Msg>, p: Place) {
    && (forall k :: 0 <= k < |msgs| && ResultOf(msgs[k]).Some? ==> At(place, ResultOf(msgs[k]).value, p))
    && (forall j, k :: 0 <= j < k < |msgs| && ResultOf(msgs[j]).Some? ==> ResultOf(msgs[j]) != ResultOf(msgs[k]))
    && (forall e: nat :: At(place, e, p) ==> exists k :: 0 <= k < |msgs| && ResultOf(msgs[k]) == Some(e))
  }

  ghost predicate InLine(place: map<nat, Place>, queue: seq<nat>) {
    && (forall k :: 0 <= k < |queue| ==> At(place, queue[k], Queued))
    && (forall j, k :: 0 <= j < k < |queue| ==> queue[j] != queue[k])
    && (forall e: nat :: At(place, e, Queued) ==> e in queue)
  }

  ghost predicate HeldOk(place: map<nat, Place>, workers: seq<Worker>) {
    && (forall w :: 0 <= w < |workers| && HeldBy(workers[w]).Some? ==> At(place, HeldBy(workers[w]).value, Held(w)))
    && (forall e: nat :: e in place && place[e].Held? ==> place[e].w < |workers| && HeldBy(workers[place[e].w]) == Some(e))
  }

  function WalkerMsgs(s: State): (msgs: seq<Msg>) {
    if s.walker.pc.Telling? then s.walker.pc.msgs else []
  }

  /** Every entry walked so far has its result in exactly one place. */
  ghost predicate Accounted(s: State) {
    && s.walker.pos <= |s.entries|
    && (forall e: nat :: e in s.place <==> e < s.walker.pos && Reports(s.entries[e]))
    && Filed(s.place, WalkerMsgs(s), WithWalker)
    && InLine(s.place, s.shared.queue)
    && HeldOk(s.place, s.workers)
    && Filed(s.place, s.shared.chan, InChannel)
    && Filed(s.place, s.main.handled, Handled)
  }

  lemma FiledAppend(place: map<nat, Place>, after: map<nat, Place>, msgs: seq<Msg>, p: Place, m: Msg)
    requires Filed(place, msgs, p)
    requires forall e: nat :: At(after, e, p) <==> At(place, e, p) || ResultOf(m) == Some(e)
    requires ResultOf(m).Some? ==> exists q :: q != p && At(place, ResultOf(m).value, q)
    ensures Filed(after, msgs + [m], p)
  {
    var more := msgs + [m];
    forall e: nat | At(after, e, p)
      ensures exists k :: 0 <= k < |more| && ResultOf(more[k]) == Some(e)
    {
      if At(place, e, p) {
        var k :| 0 <= k < |msgs| && ResultOf(msgs[k]) == Some(e);
        assert more[k] == msgs[k];
      } else {
        assert more[|msgs|] == m;
      }
    }
  }

  lemma FiledRest(place: map<nat, Place>, after: map<nat, Place>, msgs: seq<Msg>, p: Place)
    requires Filed(place, msgs, p) && msgs != []
    requires forall e: nat :: At(after, e, p) <==> At(place, e, p) && ResultOf(msgs[0]) != Some(e)
    ensures Filed(after, msgs[1..], p)
  {
    var rest := msgs[1..];
    forall e: nat | At(after, e, p)
      ensures exists k :: 0 <= k < |rest| && ResultOf(rest[k]) == Some(e)
    {
      var k :| 0 <= k < |msgs| && ResultOf(msgs[k]) == Some(e);
      assert rest[k - 1] == msgs[k];
    }
    forall k | 0 <= k < |rest| && ResultOf(rest[k]).Some?
      ensures At(after, ResultOf(rest[k]).value, p)
    {
      assert rest[k] == msgs[k + 1];
    }
  }

  lemma FiledAlike(place: map<nat, Place>, after: map<nat, Place>, msgs: seq<Msg>, p: Place)
    requires Filed(place, msgs, p)
    requires forall e: nat :: At(after, e, p) <==> At(place, e, p)
    ensures Filed(after, msgs, p)
  {
  }

  lemma InLineAlike(place: map<nat, Place>, after: map<nat, Place>, queue: seq<nat>)
    requires InLine(place, queue)
    requires forall e: nat :: At(after, e, Queued) <==> At(place, e, Queued)
    ensures InLine(after, queue)
  {
  }

  lemma HeldAlike(place: map<nat, Place>, after: map<nat, Place>, workers: seq<Worker>, others: seq<Worker>)
    requires HeldOk(place, workers)
    requires |workers| <= |others| && forall w :: 0 <= w < |others| ==>
               HeldBy(others[w]) == if w < |workers| then HeldBy(workers[w]) else None
    requires forall e: nat, w: nat :: At(after, e, Held(w)) <==> At(place, e, Held(w))
    ensures HeldOk(after, others)
  {
    forall e: nat | e in after && after[e].Held?
      ensures after[e].w < |others| && HeldBy(others[after[e].w]) == Some(e)
    {
      assert At(after, e, Held(after[e].w));
      assert At(place, e, Held(after[e].w));
    }
    forall w | 0 <= w < |others| && HeldBy(others[w]).Some?
      ensures At(after, HeldBy(others[w]).value, Held(w))
    {
      assert At(place, HeldBy(others[w]).value, Held(w));
    }
  }

  /** One worker gives up what it held, or takes something. */
  lemma HeldMoved(place: map<nat, Place>, after: map<nat, Place>, workers: seq<Worker>, w: nat, x: Worker)
    requires HeldOk(place, workers) && w < |workers|
    requires forall e: nat, v: nat :: v != w ==> (At(after, e, Held(v)) <==> At(place, e, Held(v)))
    requires forall e: nat :: At(after, e, Held(w)) <==> HeldBy(x) == Some(e)
    ensures HeldOk(after, workers[w := x])
  {
    forall e: nat | e in after && after[e].Held?
      ensures after[e].w < |workers| && HeldBy(workers[w := x][after[e].w]) == Some(e)
    {
      assert At(after, e, Held(after[e].w));
      if after[e].w != w {
        assert At(place, e, Held(after[e].w));
      }
    }
  }

  /** Results of entry `e`, if any, went from `from` to `to`. */
  ghost predicate Went(place: map<nat, Place>, after: map<nat, Place>, e: Option<nat>, from: Place, to: Place) {
    && from != to
    && (e.Some? ==> At(place, e.value, from) && after == place[e.value := to])
    && (e.None? ==> after == place)
  }

  lemma WentAt(place: map<nat, Place>, after: map<nat, Place>, e: Option<nat>, from: Place, to: Place)
    requires Went(place, after, e, from, to)
    ensures after.Keys == place.Keys
    ensures forall d: nat, p :: p != from && p != to ==> (At(after, d, p) <==> At(place, d, p))
    ensures forall d: nat :: At(after, d, from) <==> At(place, d, from) && e != Some(d)
    ensures forall d: nat :: At(after, d, to) <==> At(place, d, to) || e == Some(d)
  {
  }

  // ---- The walker's steps.

  lemma WalkerAccounted(s: State, walk: WalkerMove)
    requires Accounted(s) && OfferOk(s) && WalkerCan(s, walk)
    ensures Accounted(WalkerStep(s, walk))
  {
    hide Filed, InLine, HeldOk;
    var t := WalkerStep(s, walk);
    match walk
    case Walk => WalkAccounted(s);
    case Offer => OfferAccounted(s);
    case Tell => if s.shared.receiverOpen { TellAccounted(s); } else { LoseAccounted(s, t); }
    case WalkerPanic => LoseAccounted(s, t);
    case WalkerNotice => FiledSame(s.place, s.shared.chan, t.shared.chan, InChannel);
    case _ =>
  }

  /** The walker offers the next entry, a file. */
  ghost predicate OfferOk(s: State) {
    s.walker.pc.Offering? ==> s.walker.pos < |s.entries| && s.entries[s.walker.pos].RegularFile?
  }

  /** Messages that are no results do not matter. */
  lemma FiledSame(place: map<nat, Place>, msgs: seq<Msg>, more: seq<Msg>, p: Place)
    requires Filed(place, msgs, p)
    requires more == msgs || exists m :: ResultOf(m) == None && more == msgs + [m]
    ensures Filed(place, more, p)
  {
    if more != msgs {
      var m :| ResultOf(m) == None && more == msgs + [m];
      FiledAppend(place, place, msgs, p, m);
    }
  }

  /** A new entry's result appears at `to`. */
  lemma NewAt(place: map<nat, Place>, e: nat, to: Place)
    requires e !in place
    ensures forall d: nat, p :: p != to ==> (At(place[e := to], d, p) <==> At(place, d, p))
    ensures forall d: nat :: At(place[e := to], d, to) <==> At(place, d, to) || e == d
  {
  }

  lemma WalkAccounted(s: State)
    requires Accounted(s) && WalkerCan(s, Walk)
    ensures Accounted(WalkerStep(s, Walk))
  {
    hide Filed, InLine, HeldOk, At;
    var t := WalkerStep(s, Walk);
    if t.walker.pc.Telling? {
      FiledTold(s.place, t.place, s.entries[s.walker.pos], s.walker.pos);
      if Reports(s.entries[s.walker.pos]) {
        NewAt(s.place, s.walker.pos, WithWalker);
        HeldAlike(s.place, t.place, s.workers, s.workers);
        InLineAlike(s.place, t.place, s.shared.queue);
        FiledAlike(s.place, t.place, s.main.handled, Handled);
        FiledAlike(s.place, t.place, s.shared.chan, InChannel);
      }
    }
  }

  lemma OfferAccounted(s: State)
    requires Accounted(s) && OfferOk(s) && WalkerCan(s, Offer)
    ensures Accounted(WalkerStep(s, Offer))
  {
    hide Filed, InLine, HeldOk, At;
    var t := WalkerStep(s, Offer);
    NewAt(s.place, s.walker.pos, Queued);
    HeldAlike(s.place, t.place, s.workers, s.workers);
    InLineAppend(s.place, t.place, s.shared.queue, s.walker.pos);
    FiledAlike(s.place, t.place, s.main.handled, Handled);
    FiledAlike(s.place, t.place, s.shared.chan, InChannel);
    FiledAlike(s.place, t.place, [], WithWalker);
  }

  lemma LoseAccounted(s: State, t: State)
    requires Accounted(s) && t.walker.pc == WalkerLeaving && t.walker.pos == s.walker.pos
    requires t == s.(walker := t.walker, place := WithoutWalker(s.place))
    ensures Accounted(t)
  {
    hide Filed, InLine, HeldOk;
    HeldAlike(s.place, t.place, s.workers, s.workers);
    InLineAlike(s.place, t.place, s.shared.queue);
    FiledAlike(s.place, t.place, s.main.handled, Handled);
    FiledAlike(s.place, t.place, s.shared.chan, InChannel);
    FiledNone(t.place, WithWalker);
  }

  lemma InLineAppend(place: map<nat, Place>, after: map<nat, Place>, queue: seq<nat>, e: nat)
    requires InLine(place, queue) && e !in place && after == place[e := Queued]
    ensures InLine(after, queue + [e])
  {
  }

  lemma FiledTold(place: map<nat, Place>, after: map<nat, Place>, entry: Entry, e: nat)
    requires Filed(place, [], WithWalker) && e !in place && !entry.RegularFile?
    requires after == if Reports(entry) then place[e := WithWalker] else place
    ensures Filed(after, Told(entry, e), WithWalker)
  {
    if Reports(entry) {
      assert ResultOf(Told(entry, e)[|Told(entry, e)| - 1]) == Some(e);
    }
  }

  lemma FiledNone(place: map<nat, Place>, p: Place)
    requires forall e: nat :: !At(place, e, p)
    ensures Filed(place, [], p)
  {
  }

  lemma HeadAt(place: map<nat, Place>, msgs: seq<Msg>, p: Place)
    requires Filed(place, msgs, p) && msgs != []
    ensures ResultOf(msgs[0]).Some? ==> At(place, ResultOf(msgs[0]).value, p)
  {
  }

  lemma TellAccounted(s: State)
    requires Accounted(s) && WalkerCan(s, Tell) && s.shared.receiverOpen
    ensures Accounted(WalkerStep(s, Tell))
  {
    hide Filed, InLine, HeldOk, At;
    var t := WalkerStep(s, Tell);
    var m := s.walker.pc.msgs[0];
    HeadAt(s.place, s.walker.pc.msgs, WithWalker);
    assert WalkerMsgs(t) == s.walker.pc.msgs[1..];
    WentAt(s.place, t.place, ResultOf(m), WithWalker, InChannel);
    FiledAppend(s.place, t.place, s.shared.chan, InChannel, m);
    FiledRest(s.place, t.place, s.walker.pc.msgs, WithWalker);
    HeldAlike(s.place, t.place, s.workers, s.workers);
    InLineAlike(s.place, t.place, s.shared.queue);
    FiledAlike(s.place, t.place, s.main.handled, Handled);
  }

  // ---- A worker's steps.

  lemma WorkerAccounted(s: State, w: nat, work: WorkerMove)
    requires Accounted(s) && w < |s.workers| && WorkerCan(s, w, work)
    ensures Accounted(WorkerStep(s, w, work))
  {
    hide Accounted;
    if work.Take? {
      TakeAccounted(s, w);
    } else {
      WorkerEffect(s, w, work);
      if Goes(s.shared, s.workers[w], work) == None {
        KeptAccounted(s, WorkerStep(s, w, work), w);
      } else {
        GoneAccounted(s, WorkerStep(s, w, work), w, HeldBy(s.workers[w]), Goes(s.shared, s.workers[w], work).value);
      }
    }
  }

  /** What a step of worker `w` leaves alone. */
  ghost predicate OnlyWorker(s: State, t: State, w: nat) {
    && w < |s.workers| == |t.workers| && t.workers == s.workers[w := t.workers[w]]
    && t.walker.pos == s.walker.pos && t.entries == s.entries && t.walker == s.walker && t.main.handled == s.main.handled
  }

  lemma WorkerEffect(s: State, w: nat, work: WorkerMove)
    requires w < |s.workers| && WorkerCan(s, w, work) && !work.Take?
    ensures var t := WorkerStep(s, w, work);
            var to := Goes(s.shared, s.workers[w], work);
            && OnlyWorker(s, t, w) && t.shared.queue == s.shared.queue
            && HeldBy(t.workers[w]) == (if to == None then HeldBy(s.workers[w]) else None)
            && t.place == (if to == None then s.place else Moved(s.place, HeldBy(s.workers[w]), to.value))
            && (t.shared.chan == s.shared.chan
                || exists m :: (t.shared.chan == s.shared.chan + [m]
                                && ResultOf(m) == if to == None then None else HeldBy(s.workers[w])))
            && (to == Some(InChannel) ==> t.shared.chan != s.shared.chan) && (to == Some(Lost) ==> t.shared.chan == s.shared.chan)
            && (to.Some? ==> to.value == Lost || to.value == InChannel)
  {
    var t := WorkerStep(s, w, work);
    if work.Notice? && s.shared.receiverOpen {
      assert t.shared.chan == s.shared.chan + [Exited(TheWorker(w), s.workers[w].died)];
    } else if work.Post? && s.shared.receiverOpen {
      assert t.shared.chan == s.shared.chan + [s.workers[w].pc.msg];
    }
  }

  lemma KeptAccounted(s: State, t: State, w: nat)
    requires Accounted(s) && OnlyWorker(s, t, w) && t.shared.queue == s.shared.queue
    requires t.place == s.place && HeldBy(t.workers[w]) == HeldBy(s.workers[w])
    requires t.shared.chan == s.shared.chan || exists m :: t.shared.chan == s.shared.chan + [m] && ResultOf(m) == None
    ensures Accounted(t)
  {
    hide Filed, InLine, HeldOk;
    HeldAlike(s.place, s.place, s.workers, t.workers);
    FiledSame(s.place, s.shared.chan, t.shared.chan, InChannel);
  }

  lemma GoneAccounted(s: State, t: State, w: nat, e: Option<nat>, to: Place)
    requires Accounted(s) && OnlyWorker(s, t, w) && t.shared.queue == s.shared.queue
    requires e == HeldBy(s.workers[w]) && t.place == Moved(s.place, e, to) && HeldBy(t.workers[w]) == None
    requires to == Lost || to == InChannel
    requires to == InChannel ==> exists m :: t.shared.chan == s.shared.chan + [m] && ResultOf(m) == e
    requires to == Lost ==> t.shared.chan == s.shared.chan
    ensures Accounted(t)
  {
    hide Filed, InLine, HeldOk, At;
    HeldIsIn(s, w);
    WentAt(s.place, t.place, e, Held(w), to);
    HeldMoved(s.place, t.place, s.workers, w, t.workers[w]);
    InLineAlike(s.place, t.place, s.shared.queue);
    FiledAlike(s.place, t.place, s.main.handled, Handled);
    FiledAlike(s.place, t.place, WalkerMsgs(s), WithWalker);
    if to == InChannel {
      var m :| t.shared.chan == s.shared.chan + [m] && ResultOf(m) == e;
      FiledAppend(s.place, t.place, s.shared.chan, InChannel, m);
    } else {
      FiledAlike(s.place, t.place, s.shared.chan, InChannel);
    }
  }

  lemma HeldIsIn(s: State, w: nat)
    requires Accounted(s) && w < |s.workers|
    ensures HeldBy(s.workers[w]).Some? ==> At(s.place, HeldBy(s.workers[w]).value, Held(w))
    ensures forall e: nat :: At(s.place, e, Held(w)) ==> HeldBy(s.workers[w]) == Some(e)
  {
  }

  lemma TakeAccounted(s: State, w: nat)
    requires Accounted(s) && w < |s.workers| && WorkerCan(s, w, Take)
    ensures Accounted(WorkerStep(s, w, Take))
  {
    hide Filed, InLine, HeldOk, At;
    var t := WorkerStep(s, w, Take);
    InLineRest(s.place, t.place, s.shared.queue, w);
    HeldIsIn(s, w);
    WentAt(s.place, t.place, Some(s.shared.queue[0]), Queued, Held(w));
    HeldMoved(s.place, t.place, s.workers, w, t.workers[w]);
    FiledAlike(s.place, t.place, s.main.handled, Handled);
    FiledAlike(s.place, t.place, WalkerMsgs(s), WithWalker);
    FiledAlike(s.place, t.place, s.shared.chan, InChannel);
  }

  lemma InLineRest(place: map<nat, Place>, after: map<nat, Place>, queue: seq<nat>, w: nat)
    requires InLine(place, queue) && queue != [] && after == place[queue[0] := Held(w)]
    ensures InLine(after, queue[1..]) && Went(place, after, Some(queue[0]), Queued, Held(w))
  {
    assert At(place, queue[0], Queued);
    forall d: nat | At(after, d, Queued)
      ensures d in queue[1..]
    {
      assert At(place, d, Queued);
    }
  }

  // ---- The coordinator's steps.

  lemma MainAccounted(s: State, move: MainMove)
    requires Accounted(s) && MainCan(s, move)
    ensures Accounted(MainStep(s, move))
  {
    hide Filed, InLine, HeldOk, AllDead, AllEnded, SomeDied, Heard;
    if move.Receive? {
      HeardAccounted(s);
    } else {
      var t := MainStep(s, move);
      MainWorkers(s, move);
      HeldAlike(s.place, s.place, s.workers, t.workers);
    }
  }

  lemma MainWorkers(s: State, move: MainMove)
    requires MainCan(s, move)
    ensures var others := MainStep(s, move).workers;
            |s.workers| <= |others| && forall w :: 0 <= w < |others| ==>
               HeldBy(others[w]) == if w < |s.workers| then HeldBy(s.workers[w]) else None
  {
    hide AllDead, AllEnded, SomeDied;
  }

  lemma HeardAccounted(s: State)
    requires Accounted(s) && MainCan(s, Receive)
    ensures Accounted(MainStep(s, Receive))
  {
    hide Filed, InLine, HeldOk, At;
    var t := MainStep(s, Receive);
    var m := s.shared.chan[0];
    HeadAt(s.place, s.shared.chan, InChannel);
    MainWorkers(s, Receive);
    WentAt(s.place, t.place, ResultOf(m), InChannel, Handled);
    HeldAlike(s.place, t.place, s.workers, t.workers);
    InLineAlike(s.place, t.place, s.shared.queue);
    FiledAlike(s.place, t.place, WalkerMsgs(s), WithWalker);
    FiledRest(s.place, t.place, s.shared.chan, InChannel);
    if !m.Exited? {
      FiledAppend(s.place, t.place, s.main.handled, Handled, m);
    }
  }
}
