/** The scan coordinator as a protocol: one walker, the workers, two bounded
    queues and a watchdog, one step at a time and in any order. */
module ScanProtocol {
  import opened Wrappers

  const CHANNEL: nat := 256
  const PER_WORKER: nat := 16

  /** What the directory walk yields. A folder at the depth limit is visited
      but not entered. */
  datatype Entry = RegularFile | Folder(atLimit: bool) | PassedOver | Unreadable

  datatype Who = TheWalker | TheWorker(id: nat)

  /** `entry` is the index of the walk's entry a message is about, `issues` the
      number of issues found inside a scanned file. */
  datatype Msg =
    | Directory
    | Scanned(entry: nat, issues: nat)
    | Skipped(entry: nat)
    | Issue(entry: nat)
    | Exited(who: Who, panicked: bool)

  datatype StopReason = Cancelled | ScanTimeLimit | TooManyStalls

  /** How processing one file ends. */
  datatype Outcome = SawStop | Evaluated(issues: nat) | PolicySkip | Unread

  datatype WalkerPc =
    | Walking
    | Offering
    | Counting
    | Telling(msgs: seq<Msg>)
    | WalkerLeaving
    | WalkerNoticed
    | WalkerGone

  datatype WorkerPc =
    | Idle
    | Listening
    | Took(entry: nat)
    | Counted(entry: nat)
    | Busy(entry: nat)
    | Made(out: Option<Msg>)
    | Posting(msg: Msg)
    | Leaving
    | Gone

  /** `slot` and `flagged` are shared with the watchdog; `live` is the
      coordinator's own. */
  datatype Worker = Worker(pc: WorkerPc, slot: Option<nat>, flagged: bool, live: bool, died: bool)

  datatype Pc =
    | Top
    | Receiving
    | Checking
    | Watching(id: nat, upTo: nat)
    | Stalled(id: nat, upTo: nat)
    | Judging
    | Closing
    | Reckoning
    | Joining
    | Finished

  /** Where the result of a walked entry is. */
  datatype Place = WithWalker | Queued | Held(w: nat) | InChannel | Handled | Lost

  /** What the threads share: the work queue, the lock on its receiving end,
      the message channel, the stop flag and the two counters. */
  datatype Shared = Shared(
    queue: seq<nat>,
    senderOpen: bool,
    lock: Option<nat>,
    chan: seq<Msg>,
    receiverOpen: bool,
    stop: bool,
    enqueued: nat,
    dequeued: nat)

  /** `pos` is the next entry of the walk. */
  datatype Walker = Walker(pc: WalkerPc, died: bool, pos: nat)

  datatype Main = Main(
    pc: Pc,
    walkerDone: bool,
    panicked: bool,
    abandoned: nat,
    stopReason: Option<StopReason>,
    spawnError: bool,
    handled: seq<Msg>,
    issues: nat)

  /** `place` is history: where the result of each walked entry is. */
  datatype State = State(
    n: nat,
    entries: seq<Entry>,
    shared: Shared,
    walker: Walker,
    workers: seq<Worker>,
    main: Main,
    place: map<nat, Place>)

  /** Before the loop. Spawning may fail at any worker, or at the walker. */
  function Initial(n: nat, entries: seq<Entry>, spawned: nat, walkerSpawned: bool, cancelled: bool, issues: nat): (s: State)
    requires spawned <= n
  {
    var ok := spawned == n && walkerSpawned;
    State(n, entries,
          Shared([], ok, None, [], true, cancelled || !ok, 0, 0),
          Walker(if ok then Walking else WalkerGone, false, 0),
          seq(spawned, _ => Fresh()),
          Main(Top, !ok, false, 0, if cancelled then Some(Cancelled) else None, !ok, [], issues),
          map[])
  }

  function Fresh(): Worker { Worker(Idle, None, false, true, false) }

  // ---- Steps.

  datatype WalkerMove = Walk | Offer | GiveUp | CountIn | Tell | WalkerPanic | WalkerNotice | DropSender | Spin

  datatype WorkerMove =
    | Lock | Take | Disconnected | CountOut | Begin | Finish(outcome: Outcome) | TestFlag | Post | Panic | Notice

  datatype MainMove =
    | LoopTest | Receive | Tick | Check(reason: Option<StopReason>) | Watch(stalled: bool) | Abandon(spawn: bool)
    | Judge | Close | Reckon | Join

  datatype Step = ByWalker(walk: WalkerMove) | ByWorker(w: nat, work: WorkerMove) | ByMain(move: MainMove)

  predicate Enabled(s: State, step: Step) {
    match step
    case ByWalker(walk) => WalkerCan(s, walk)
    case ByWorker(w, work) => w < |s.workers| && WorkerCan(s, w, work)
    case ByMain(move) => MainCan(s, move)
  }

  function Apply(s: State, step: Step): (after: State)
    requires Enabled(s, step)
  {
    match step
    case ByWalker(walk) => WalkerStep(s, walk)
    case ByWorker(w, work) => WorkerStep(s, w, work)
    case ByMain(move) => MainStep(s, move)
  }

  predicate HasRoom(q: Shared) {
    !q.receiverOpen || |q.chan| < CHANNEL
  }

  /** Sending on a channel whose receiver is gone sends nothing. */
  function Sent(q: Shared, m: Msg): (after: Shared) {
    q.(chan := if q.receiverOpen then q.chan + [m] else q.chan)
  }

  /** The entry a message is the result of. */
  function ResultOf(m: Msg): (e: Option<nat>) {
    match m
    case Scanned(e, _) => Some(e)
    case Skipped(e) => Some(e)
    case Issue(e) => Some(e)
    case _ => None
  }

  function Moved(place: map<nat, Place>, e: Option<nat>, to: Place): (after: map<nat, Place>) {
    if e.Some? then place[e.value := to] else place
  }

  // ---- The walker.

  predicate WalkerCan(s: State, walk: WalkerMove) {
    var pc := s.walker.pc;
    match walk
    case Walk => pc.Walking?
    case Offer => pc.Offering? && |s.shared.queue| < PER_WORKER * s.n
    case GiveUp => pc.Offering? && s.shared.stop
    case CountIn => pc.Counting?
    case Tell => pc.Telling? && pc.msgs != [] && HasRoom(s.shared)
    case WalkerPanic => !pc.WalkerLeaving? && !pc.WalkerNoticed? && !pc.WalkerGone?
    case WalkerNotice => pc.WalkerLeaving? && HasRoom(s.shared)
    case DropSender => pc.WalkerNoticed?
    case Spin => pc.Offering? && |s.shared.queue| >= PER_WORKER * s.n && !s.shared.stop
  }

  function WalkerStep(s: State, walk: WalkerMove): (after: State)
    requires WalkerCan(s, walk)
  {
    var q, k := s.shared, s.walker;
    match walk
    case Walk => Walked(s)
    case Offer =>
      s.(shared := q.(queue := q.queue + [k.pos]), walker := k.(pc := Counting, pos := k.pos + 1), place := s.place[k.pos := Queued])
    case GiveUp => s.(walker := k.(pc := WalkerLeaving))
    case CountIn => s.(shared := q.(enqueued := q.enqueued + 1), walker := k.(pc := Walking))
    case Tell =>
      s.(shared := Sent(q, k.pc.msgs[0]),
         walker := k.(pc := if !q.receiverOpen then WalkerLeaving else if |k.pc.msgs| == 1 then Walking else Telling(k.pc.msgs[1..])),
         place := if q.receiverOpen then Moved(s.place, ResultOf(k.pc.msgs[0]), InChannel) else WithoutWalker(s.place))
    case WalkerPanic => s.(walker := k.(pc := WalkerLeaving, died := true), place := WithoutWalker(s.place))
    case WalkerNotice => s.(shared := Sent(q, Exited(TheWalker, k.died)), walker := k.(pc := WalkerNoticed))
    case DropSender => s.(shared := q.(senderOpen := false), walker := k.(pc := WalkerGone))
    case Spin => s
  }

  /** The top of the walk's loop. */
  function Walked(s: State): (after: State) {
    var k := s.walker;
    if s.shared.stop || k.pos >= |s.entries| then s.(walker := k.(pc := WalkerLeaving))
    else if s.entries[k.pos].RegularFile? then s.(walker := k.(pc := Offering))
    else s.(walker := k.(pc := Telling(Told(s.entries[k.pos], k.pos)), pos := k.pos + 1),
            place := if Reports(s.entries[k.pos]) then s.place[k.pos := WithWalker] else s.place)
  }

  /** What the walker sends for an entry that is no regular file. */
  function Told(entry: Entry, e: nat): (msgs: seq<Msg>) {
    match entry
    case RegularFile => []
    case Folder(atLimit) => if atLimit then [Directory, Skipped(e)] else [Directory]
    case PassedOver => [Skipped(e)]
    case Unreadable => [Issue(e)]
  }

  predicate Reports(entry: Entry) {
    entry != Folder(false)
  }

  /** What the walker had still to say is lost. */
  function WithoutWalker(place: map<nat, Place>): (after: map<nat, Place>) {
    map e | e in place :: if place[e] == WithWalker then Lost else place[e]
  }

  // ---- Worker `w`.

  predicate WorkerCan(s: State, w: nat, work: WorkerMove)
    requires w < |s.workers|
  {
    var pc := s.workers[w].pc;
    match work
    case Lock => pc.Idle? && s.shared.lock == None
    case Take => pc.Listening? && s.shared.queue != []
    case Disconnected => pc.Listening? && s.shared.queue == [] && !s.shared.senderOpen
    case CountOut => pc.Took?
    case Begin => pc.Counted?
    case Finish(outcome) => pc.Busy? && (outcome.SawStop? ==> s.shared.stop)
    case TestFlag => pc.Made?
    case Post => pc.Posting? && HasRoom(s.shared)
    case Panic => !pc.Leaving? && !pc.Gone?
    case Notice => pc.Leaving? && HasRoom(s.shared)
  }

  function WorkerStep(s: State, w: nat, work: WorkerMove): (after: State)
    requires w < |s.workers| && WorkerCan(s, w, work)
  {
    s.(workers := s.workers[w := WorkerAfter(s.shared, s.workers[w], work)],
       shared := SharedAfter(s.shared, w, s.workers[w], work),
       place := PlaceAfter(s, w, work))
  }

  function WorkerAfter(q: Shared, x: Worker, work: WorkerMove): (after: Worker)
    requires work.Take? ==> q.queue != []
    requires work.CountOut? ==> x.pc.Took?
    requires work.Begin? ==> x.pc.Counted?
    requires work.Finish? ==> x.pc.Busy?
    requires work.TestFlag? ==> x.pc.Made?
  {
    match work
    case Lock => x.(pc := Listening)
    case Take => x.(pc := Took(q.queue[0]))
    case Disconnected => x.(pc := Leaving)
    case CountOut => x.(pc := Counted(x.pc.entry))
    // While the scan is stopping, files are only drained.
    case Begin => if q.stop then x.(pc := Idle) else x.(pc := Busy(x.pc.entry), slot := Some(x.pc.entry))
    case Finish(outcome) => x.(pc := Made(Produced(x.pc.entry, outcome)), slot := None)
    case TestFlag => x.(pc := if x.flagged then Leaving else if x.pc.out.Some? then Posting(x.pc.out.value) else Idle)
    case Post => x.(pc := if q.receiverOpen then Idle else Leaving)
    case Panic => x.(pc := Leaving, died := true)
    case Notice => x.(pc := Gone)
  }

  function SharedAfter(q: Shared, w: nat, x: Worker, work: WorkerMove): (after: Shared)
    requires work.Take? ==> q.queue != []
    requires work.Post? ==> x.pc.Posting?
  {
    match work
    case Lock => q.(lock := Some(w))
    case Take => q.(queue := q.queue[1..], lock := None)
    case Disconnected => q.(lock := None)
    case CountOut => q.(dequeued := q.dequeued + 1)
    case Post => Sent(q, x.pc.msg)
    case Panic => q.(lock := if q.lock == Some(w) then None else q.lock)
    case Notice => Sent(q, Exited(TheWorker(w), x.died))
    case _ => q
  }

  function PlaceAfter(s: State, w: nat, work: WorkerMove): (after: map<nat, Place>)
    requires w < |s.workers| && (work.Take? ==> s.shared.queue != [])
  {
    if work.Take? then s.place[s.shared.queue[0] := Held(w)]
    else if Goes(s.shared, s.workers[w], work).None? then s.place
    else Moved(s.place, HeldBy(s.workers[w]), Goes(s.shared, s.workers[w], work).value)
  }

  /** Where a worker's move takes the result the worker holds; nowhere if it
      stays with the worker. */
  function Goes(q: Shared, x: Worker, work: WorkerMove): (to: Option<Place>) {
    match work
    case Begin => if q.stop then Some(Lost) else None
    case Finish(outcome) => if outcome.SawStop? then Some(Lost) else None
    case TestFlag => if x.flagged then Some(Lost) else None
    case Post => Some(if q.receiverOpen then InChannel else Lost)
    case Panic => Some(Lost)
    case _ => None
  }

  function Produced(e: nat, outcome: Outcome): (out: Option<Msg>) {
    match outcome
    case SawStop => None
    case Evaluated(k) => Some(Scanned(e, k))
    case PolicySkip => Some(Skipped(e))
    case Unread => Some(Issue(e))
  }

  /** The entry whose result only worker `x` has. */
  function HeldBy(x: Worker): (e: Option<nat>) {
    match x.pc
    case Took(e) => Some(e)
    case Counted(e) => Some(e)
    case Busy(e) => Some(e)
    case Made(out) => if out.Some? then ResultOf(out.value) else None
    case Posting(m) => ResultOf(m)
    case _ => None
  }

  // ---- The coordinator.

  predicate AllDead(workers: seq<Worker>) {
    forall w :: 0 <= w < |workers| ==> !workers[w].live
  }

  /** Every thread the coordinator still waits for has ended. */
  predicate AllEnded(workers: seq<Worker>) {
    forall w :: 0 <= w < |workers| ==> workers[w].flagged || workers[w].pc.Gone?
  }

  predicate SomeDied(workers: seq<Worker>) {
    exists w :: 0 <= w < |workers| && !workers[w].flagged && workers[w].died
  }

  predicate MainCan(s: State, move: MainMove) {
    var m := s.main;
    match move
    case LoopTest => m.pc.Top?
    case Receive => m.pc.Receiving? && s.shared.chan != []
    case Tick => m.pc.Receiving? && s.shared.chan == []
    case Check(reason) => m.pc.Checking? && (reason.Some? ==> m.stopReason == None && !reason.value.TooManyStalls?)
    case Watch(stalled) =>
      && m.pc.Watching?
      && (stalled ==> m.pc.id < m.pc.upTo && m.pc.id < |s.workers| && s.workers[m.pc.id].live && s.workers[m.pc.id].slot.Some?)
    case Abandon(spawn) => m.pc.Stalled? && m.pc.id < |s.workers| && (spawn ==> m.abandoned < s.n && m.stopReason == None)
    case Judge => m.pc.Judging?
    case Close => m.pc.Closing?
    case Reckon => m.pc.Reckoning?
    case Join => m.pc.Joining? && s.walker.pc.WalkerGone? && AllEnded(s.workers)
  }

  function MainStep(s: State, move: MainMove): (after: State)
    requires MainCan(s, move)
  {
    var m := s.main;
    match move
    case LoopTest => s.(main := m.(pc := if m.walkerDone && AllDead(s.workers) then Closing else Receiving))
    case Receive => Heard(s.(shared := s.shared.(chan := s.shared.chan[1..])), s.shared.chan[0])
    case Tick => s.(main := m.(pc := Checking))
    case Check(reason) =>
      s.(main := m.(pc := Watching(0, |s.workers|), stopReason := if reason.Some? then reason else m.stopReason),
         shared := s.shared.(stop := s.shared.stop || reason.Some?))
    case Watch(stalled) =>
      s.(main := m.(pc := if m.pc.id >= m.pc.upTo then Judging
                          else if stalled then Stalled(m.pc.id, m.pc.upTo)
                          else Watching(m.pc.id + 1, m.pc.upTo)))
    case Abandon(spawn) =>
      s.(main := m.(pc := Watching(m.pc.id + 1, m.pc.upTo), abandoned := m.abandoned + 1, issues := m.issues + 1),
         workers := s.workers[m.pc.id := s.workers[m.pc.id].(flagged := true, live := false)] + if spawn then [Fresh()] else [])
    case Judge =>
      var hopeless := m.stopReason == None && AllDead(s.workers) && !m.walkerDone;
      s.(main := m.(pc := Top, stopReason := if hopeless then Some(TooManyStalls) else m.stopReason),
         shared := s.shared.(stop := s.shared.stop || hopeless))
    case Close => s.(main := m.(pc := Reckoning), shared := s.shared.(receiverOpen := false))
    case Reckon =>
      var short := s.shared.enqueued > s.shared.dequeued && m.stopReason == None;
      s.(main := m.(pc := Joining, stopReason := if short then Some(TooManyStalls) else m.stopReason,
                    issues := if short then m.issues + 1 else m.issues))
    case Join =>
      s.(main := m.(pc := Finished, panicked := m.panicked || s.walker.died || SomeDied(s.workers)))
  }

  function Heard(s: State, m: Msg): (after: State) {
    if m.Exited? then
      s.(main := s.main.(pc := Checking, panicked := s.main.panicked || m.panicked, walkerDone := s.main.walkerDone || m.who.TheWalker?),
         workers := if m.who.TheWorker? && m.who.id < |s.workers|
                    then s.workers[m.who.id := s.workers[m.who.id].(live := false)] else s.workers)
    else
      s.(main := s.main.(pc := Checking, handled := s.main.handled + [m], issues := s.main.issues + IssuesIn(m)),
         place := Moved(s.place, ResultOf(m), Handled))
  }

  function IssuesIn(m: Msg): (k: nat) {
    match m
    case Scanned(_, k) => k
    case Issue(_) => 1
    case _ => 0
  }

  // ---- Runs.

  predicate Possible(s: State, steps: seq<Step>)
    decreases |steps|
  {
    steps == [] || (Enabled(s, steps[0]) && Possible(Apply(s, steps[0]), steps[1..]))
  }

  function After(s: State, steps: seq<Step>): (after: State)
    requires Possible(s, steps)
    decreases |steps|
  {
    if steps == [] then s else After(Apply(s, steps[0]), steps[1..])
  }

  /** The report says the scan ran to completion and nothing failed. */
  predicate IsComplete(s: State) {
    s.main.pc.Finished? && !s.main.spawnError && !s.main.panicked && s.main.stopReason == None && s.main.issues == 0
  }

  /** The report says the scan was not stopped. */
  predicate IsCompleted(s: State) {
    s.main.pc.Finished? && !s.main.spawnError && !s.main.panicked && s.main.stopReason == None
  }
}
