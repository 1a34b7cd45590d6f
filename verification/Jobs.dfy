/** The job manager: a queue, a table, specs and cancel flags under one lock. Each
    method is one critical section; workers run them in any order. */
module Jobs {
  import opened Wrappers
  import opened Collections

  type Id = nat

  datatype JobState = Queued | Running | Completed | Failed | Cancelled | TimedOut

  predicate Finished(s: JobState) {
    !s.Queued? && !s.Running?
  }

  /** How running a job can end. */
  type Outcome = s: JobState | Finished(s) witness Completed

  /** What running a job found. */
  datatype Details = Details(findings: Option<nat>, quarantined: Option<nat>, error: Option<string>)

  const NO_DETAILS: Details := Details(None, None, None)

  const INTERRUPTED: string := "interrupted: the service stopped"

  datatype JobResult = JobResult(state: Outcome, details: Details)

  datatype Spec = Spec(paths: seq<string>, quarantine: bool)

  datatype Summary = Summary(state: JobState, owner: string, spec: Spec, details: Details)

  datatype Rejection = Busy | Internal | NotFound

  type Table = map<Id, Summary>

  function Interrupted(job: Summary): (failed: Summary) {
    job.(state := Failed, details := job.details.(error := Some(INTERRUPTED)))
  }

  /** Loading the history: what was not finished failed. */
  function Restarted(disk: Table): (jobs: Table) {
    map id | id in disk :: if Finished(disk[id].state) then disk[id] else Interrupted(disk[id])
  }

  /** The records of interrupted jobs that a restart fails to write. */
  function Unwritten(disk: Table, written: set<Id>): (ids: set<Id>) {
    set id | id in disk && !Finished(disk[id].state) && id !in written
  }

  /** The service after a restart. */
  function Anew(disk: Table): (st: State) {
    State(Restarted(disk), map[], [], map[], false)
  }

  function FinishedIn(jobs: Table): (ids: set<Id>) {
    set id | id in jobs && Finished(jobs[id].state)
  }

  /** Submission numbers rise along `ids`. */
  ghost predicate InOrder(ids: seq<Id>, order: map<Id, nat>) {
    && (forall i :: 0 <= i < |ids| ==> ids[i] in order)
    && (forall i, j :: 0 <= i < j < |ids| ==> order[ids[i]] < order[ids[j]])
  }

  /** What the lock protects. */
  datatype State = State(jobs: Table, specs: map<Id, Spec>, queue: seq<Id>, cancels: map<Id, bool>, stopping: bool)

  /** When each job was submitted; the jobs started, in order; the jobs cancelled
      while they were queued. */
  datatype History = History(order: map<Id, nat>, started: seq<Id>, withdrawn: set<Id>)

  // ---- The invariant.

  predicate IsIn(jobs: Table, id: Id, s: JobState) {
    id in jobs && jobs[id].state == s
  }

  /** The queue, the specs and the queued jobs are the same jobs. */
  ghost predicate QueueOk(st: State) {
    && AllDistinct(st.queue) && st.specs.Keys == SetOf(st.queue)
    && forall id :: id in st.specs <==> IsIn(st.jobs, id, Queued)
  }

  /** The cancel flags, the running jobs and what the workers hold are the same
      jobs, each held by one worker. */
  ghost predicate RunningOk(st: State, holding: seq<Option<Id>>) {
    && (forall id :: id in st.cancels <==> IsIn(st.jobs, id, Running))
    && (forall id :: id in st.cancels <==> Some(id) in holding)
    && (forall v, w :: 0 <= v < w < |holding| && holding[v].Some? ==> holding[v] != holding[w])
    && (st.stopping ==> forall id :: id in st.cancels ==> st.cancels[id])
  }

  ghost predicate HistoryOk(st: State, h: History) {
    && st.jobs.Keys <= h.order.Keys
    && InOrder(h.started + st.queue, h.order)
    && h.withdrawn !! SetOf(h.started) && h.withdrawn !! SetOf(st.queue) && h.withdrawn <= h.order.Keys
  }

  /** A record on disk is the job's if the last save of that job reported
      success; else it is one from before the job finished. */
  ghost predicate DiskOk(jobs: Table, disk: Table, unsaved: set<Id>) {
    && disk.Keys == jobs.Keys
    && forall id :: id in jobs ==> if id in unsaved then !Finished(disk[id].state) else disk[id] == jobs[id]
  }

  // ---- What a power loss can leave.

  /** What each record's name may refer to after a power loss: the directory is
      never fsynced, so anything since the last one. */
  type Past = map<Id, set<Option<Summary>>>

  function RecordOf(disk: Table, id: Id): (r: Option<Summary>) {
    if id in disk then Some(disk[id]) else None
  }

  function May(past: Past, id: Id): (rs: set<Option<Summary>>) {
    if id in past then past[id] else {None}
  }

  function Wrote(past: Past, id: Id, r: Option<Summary>): (after: Past) {
    past[id := May(past, id) + {r}]
  }

  /** Once a finished record is written, it is the last. */
  ghost predicate PastOk(disk: Table, past: Past, order: map<Id, nat>) {
    && (forall id :: RecordOf(disk, id) in May(past, id))
    && (forall id, s :: id in disk && Some(s) in May(past, id) && Finished(s.state) ==> s == disk[id])
    && past.Keys <= order.Keys
  }

  /** The records may be these after a power loss. */
  predicate IsImage(past: Past, after: Table) {
    forall id :: id in past.Keys + after.Keys ==> RecordOf(after, id) in May(past, id)
  }

  /** Nothing has been written since. */
  function Settled(disk: Table): (past: Past) {
    map id | id in disk :: {Some(disk[id])}
  }

  /** A restart writes the records of interrupted jobs, as far as it can. */
  function Rewritten(disk: Table, saved: set<Id>): (after: Table) {
    map id | id in disk :: if !Finished(disk[id].state) && id in saved then Restarted(disk)[id] else disk[id]
  }

  function PastRewritten(disk: Table, past: Past, saved: set<Id>): (after: Past) {
    map id | id in past :: past[id] + {RecordOf(Rewritten(disk, saved), id)}
  }

  lemma RestartPast(disk: Table, past: Past, order: map<Id, nat>, saved: set<Id>)
    requires PastOk(disk, past, order)
    ensures PastOk(Rewritten(disk, saved), PastRewritten(disk, past, saved), order)
  {
    var next, later := Rewritten(disk, saved), PastRewritten(disk, past, saved);
    forall id
      ensures RecordOf(next, id) in May(later, id)
    {
      assert RecordOf(disk, id) in May(past, id);
    }
    forall id, s | id in next && Some(s) in May(later, id) && Finished(s.state)
      ensures s == next[id]
    {
      assert RecordOf(disk, id) in May(past, id);
    }
  }

  lemma SettledPast(past: Past, order: map<Id, nat>, after: Table)
    requires IsImage(past, after) && past.Keys <= order.Keys
    ensures PastOk(after, Settled(after), order) && after.Keys <= order.Keys
  {
    forall id | id in after
      ensures id in past
    {
      assert RecordOf(after, id) in May(past, id);
    }
  }

  lemma SavePast(disk: Table, past: Past, order: map<Id, nat>, id: Id, job: Summary)
    requires PastOk(disk, past, order) && id in disk && !Finished(disk[id].state)
    ensures PastOk(disk[id := job], Wrote(past, id, Some(job)), order)
  {
    assert RecordOf(disk, id) in May(past, id);
    OtherRecords(disk, disk[id := job], past, id, Some(job));
  }

  lemma SubmitPast(disk: Table, past: Past, order: map<Id, nat>, id: Id, job: Summary, now: nat)
    requires PastOk(disk, past, order) && id !in order && !Finished(job.state)
    ensures PastOk(disk[id := job], Wrote(past, id, Some(job)), order[id := now])
  {
    assert RecordOf(disk, id) in May(past, id);
    OtherRecords(disk, disk[id := job], past, id, Some(job));
  }

  lemma DropPast(disk: Table, past: Past, order: map<Id, nat>, id: Id)
    requires PastOk(disk, past, order) && id in order
    ensures PastOk(disk - {id}, Wrote(past, id, None), order)
  {
    OtherRecords(disk, disk - {id}, past, id, None);
  }

  lemma OtherRecords(disk: Table, after: Table, past: Past, id: Id, r: Option<Summary>)
    requires (forall x :: RecordOf(disk, x) in May(past, x)) && RecordOf(after, id) == r
    requires forall x :: x != id ==> RecordOf(after, x) == RecordOf(disk, x)
    ensures forall x :: RecordOf(after, x) in May(Wrote(past, id, r), x)
  {
  }

  /** Every record that the job's name may refer to is there and finished; or, if
      the job failed, is there. */
  predicate SafeFromLoss(jobs: Table, past: Past, id: Id) {
    && id in jobs && None !in May(past, id)
    && (jobs[id].state == Failed || forall r :: r in May(past, id) && r.Some? ==> Finished(r.value.state))
  }

  /** A finished job is in the same state after a power loss and a restart,
      whatever the loss leaves, exactly if since the last one its record was on
      disk throughout and never an unfinished one, or it had failed. */
  lemma LossKeepsExactlyWhen(jobs: Table, disk: Table, unsaved: set<Id>, past: Past, order: map<Id, nat>, id: Id)
    requires DiskOk(jobs, disk, unsaved) && PastOk(disk, past, order) && id in jobs && Finished(jobs[id].state)
    ensures (forall after :: IsImage(past, after) ==> IsIn(Restarted(after), id, jobs[id].state)) <==> SafeFromLoss(jobs, past, id)
  {
    assert forall x :: RecordOf(disk, x) in May(past, x);
    if SafeFromLoss(jobs, past, id) {
      forall after | IsImage(past, after)
        ensures IsIn(Restarted(after), id, jobs[id].state)
      {
        assert RecordOf(after, id) in May(past, id);
      }
    } else if None in May(past, id) {
      var after := disk - {id};
      assert forall x :: x != id ==> RecordOf(after, x) == RecordOf(disk, x);
      assert IsImage(past, after);
    } else {
      var r :| r in May(past, id) && r.Some? && !Finished(r.value.state);
      var after := disk[id := r.value];
      assert forall x :: x != id ==> RecordOf(after, x) == RecordOf(disk, x);
      assert IsImage(past, after) && Restarted(after)[id].state == Failed;
    }
  }

  /** A job that was pruned comes back after a power loss exactly if any record of
      it was on disk since the last one. */
  lemma ReturnsExactlyWhen(disk: Table, past: Past, order: map<Id, nat>, id: Id)
    requires PastOk(disk, past, order) && id !in disk
    ensures (exists after :: IsImage(past, after) && id in Restarted(after)) <==> exists r :: r in May(past, id) && r.Some?
  {
    assert forall x :: RecordOf(disk, x) in May(past, x);
    if r :| r in May(past, id) && r.Some? {
      var after := disk[id := r.value];
      assert forall x :: x != id ==> RecordOf(after, x) == RecordOf(disk, x);
      assert IsImage(past, after) && id in Restarted(after);
    }
    if after :| IsImage(past, after) && id in Restarted(after) {
      assert RecordOf(after, id) in May(past, id);
    }
  }

  /** All there is to say of a manager: `unsaved` are the jobs whose last save
      reported failure. */
  datatype Snapshot = Snapshot(st: State, unsaved: set<Id>, h: History)

  /** What no critical section does: change a finished job, bring one back, drop
      one that is queued, start one again or after the service began to stop. */
  ghost predicate Kept(a: Snapshot, b: Snapshot) {
    && KeptLong(a, b, false)
    && (forall id :: IsIn(a.st.jobs, id, Queued) ==> id in b.st.jobs)
    && (a.st.stopping ==> b.st.stopping && b.h.started == a.h.started)
  }

  /** What holds over any number of steps, with or without restarts: a finished
      job stays as it is, unless its last save failed before a restart; none
      comes back; the past stays as it was. */
  ghost predicate KeptLong(a: Snapshot, b: Snapshot, restarted: bool) {
    && (forall id :: id in a.st.jobs && Finished(a.st.jobs[id].state) && id in b.st.jobs ==>
          if restarted && id in a.unsaved then b.st.jobs[id].state == Failed && b.st.jobs[id].details.error == Some(INTERRUPTED)
          else b.st.jobs[id] == a.st.jobs[id] && (id in b.unsaved <==> id in a.unsaved))
    && (forall id :: id in b.st.jobs && id in a.h.order ==> id in a.st.jobs)
    && SamePast(a.h, b.h)
  }

  /** The past stays as it was. */
  ghost predicate SamePast(a: History, b: History) {
    && a.started <= b.started && a.withdrawn <= b.withdrawn
    && (forall id :: id in a.order ==> id in b.order && b.order[id] == a.order[id])
  }

  lemma SamePastThen(a: History, b: History, c: History)
    requires SamePast(a, b) && SamePast(b, c)
    ensures SamePast(a, c)
  {
  }

  lemma KeptThen(a: Snapshot, b: Snapshot, c: Snapshot, before: bool, after: bool)
    requires KeptLong(a, b, before) && KeptLong(b, c, after) && a.st.jobs.Keys <= a.h.order.Keys
    ensures KeptLong(a, c, before || after)
  {
  }

  // ---- Steps.

  function Submitted(st: State, id: Id, owner: string, spec: Spec): (after: State) {
    st.(jobs := st.jobs[id := Summary(Queued, owner, spec, NO_DETAILS)], specs := st.specs[id := spec], queue := st.queue + [id])
  }

  function Withdrawn(st: State, at: nat): (after: State)
    requires at < |st.queue| && st.queue[at] in st.jobs
  {
    var id := st.queue[at];
    st.(jobs := st.jobs[id := st.jobs[id].(state := Cancelled)], specs := st.specs - {id}, queue := st.queue[..at] + st.queue[at + 1..])
  }

  function Begun(st: State): (after: State)
    requires st.queue != [] && st.queue[0] in st.jobs
  {
    var id := st.queue[0];
    st.(jobs := st.jobs[id := st.jobs[id].(state := Running)], specs := st.specs - {id}, queue := st.queue[1..],
        cancels := st.cancels[id := false])
  }

  function Ended(st: State, id: Id, result: JobResult): (after: State)
    requires id in st.jobs
  {
    st.(jobs := st.jobs[id := st.jobs[id].(state := result.state, details := result.details)], cancels := st.cancels - {id})
  }

  function Dropped(st: State, id: Id): (after: State) {
    st.(jobs := st.jobs - {id})
  }

  lemma SubmitKeeps(st: State, h: History, holding: seq<Option<Id>>, id: Id, owner: string, spec: Spec, now: nat)
    requires QueueOk(st) && RunningOk(st, holding) && HistoryOk(st, h)
    requires id !in h.order && forall other :: other in h.order ==> h.order[other] < now
    ensures var after, g := Submitted(st, id, owner, spec), h.(order := h.order[id := now]);
            QueueOk(after) && RunningOk(after, holding) && HistoryOk(after, g)
  {
    var after := Submitted(st, id, owner, spec);
    assert id !in st.jobs;
    assert SetOf(after.queue) == SetOf(st.queue) + {id};
    SubmitHistory(st, h, id, owner, spec, now);
  }

  lemma SubmitHistory(st: State, h: History, id: Id, owner: string, spec: Spec, now: nat)
    requires HistoryOk(st, h) && id !in h.order && forall other :: other in h.order ==> h.order[other] < now
    ensures HistoryOk(Submitted(st, id, owner, spec), h.(order := h.order[id := now]))
  {
    var all := h.started + st.queue;
    assert h.started + (st.queue + [id]) == all + [id];
    assert forall i :: 0 <= i < |all| ==> all[i] in h.order;
    assert SetOf(st.queue + [id]) == SetOf(st.queue) + {id};
  }

  lemma WithdrawKeeps(st: State, h: History, holding: seq<Option<Id>>, at: nat)
    requires QueueOk(st) && RunningOk(st, holding) && HistoryOk(st, h) && at < |st.queue| && st.queue[at] in st.jobs
    ensures var after, g := Withdrawn(st, at), h.(withdrawn := h.withdrawn + {st.queue[at]});
            QueueOk(after) && RunningOk(after, holding) && HistoryOk(after, g)
  {
    QueuedIs(st, holding, at);
    WithoutOne(st.queue, at);
    OrderWithout(h.started, st.queue, at, h.order);
  }

  lemma BeginKeeps(st: State, h: History, holding: seq<Option<Id>>, w: nat)
    requires QueueOk(st) && RunningOk(st, holding) && HistoryOk(st, h) && st.queue != [] && st.queue[0] in st.jobs && !st.stopping
    requires w < |holding| && holding[w] == None
    ensures var after, g := Begun(st), h.(started := h.started + [st.queue[0]]);
            QueueOk(after) && RunningOk(after, holding[w := Some(st.queue[0])]) && HistoryOk(after, g)
  {
    QueuedIs(st, holding, 0);
    BeginQueue(st);
    BeginHistory(st, h);
    HeldOnce(holding, w, st.queue[0]);
    assert Some(st.queue[0]) !in holding;
  }

  lemma BeginQueue(st: State)
    requires QueueOk(st) && st.queue != [] && IsIn(st.jobs, st.queue[0], Queued)
    ensures QueueOk(Begun(st))
  {
    WithoutOne(st.queue, 0);
  }

  lemma BeginHistory(st: State, h: History)
    requires QueueOk(st) && HistoryOk(st, h) && st.queue != [] && st.queue[0] in st.jobs
    ensures HistoryOk(Begun(st), h.(started := h.started + [st.queue[0]]))
  {
    WithoutOne(st.queue, 0);
    OrderMoves(h.started, st.queue, h.order);
    assert SetOf(h.started + [st.queue[0]]) == SetOf(h.started) + {st.queue[0]};
    assert st.queue[0] in SetOf(st.queue);
  }

  lemma EndKeeps(st: State, h: History, holding: seq<Option<Id>>, w: nat, result: JobResult)
    requires QueueOk(st) && RunningOk(st, holding) && HistoryOk(st, h)
    requires w < |holding| && holding[w].Some? && holding[w].value in st.jobs
    ensures var after := Ended(st, holding[w].value, result);
            QueueOk(after) && RunningOk(after, holding[w := None]) && HistoryOk(after, h)
  {
    Released(holding, w);
    assert IsIn(st.jobs, holding[w].value, Running);
  }

  lemma DropKeeps(st: State, h: History, holding: seq<Option<Id>>, id: Id)
    requires QueueOk(st) && RunningOk(st, holding) && HistoryOk(st, h) && id in st.jobs && Finished(st.jobs[id].state)
    ensures var after := Dropped(st, id);
            QueueOk(after) && RunningOk(after, holding) && HistoryOk(after, h)
  {
    assert !IsIn(st.jobs, id, Queued) && !IsIn(st.jobs, id, Running);
  }

  lemma StopKeeps(st: State, h: History, holding: seq<Option<Id>>, flags: map<Id, bool>, stopping: bool)
    requires QueueOk(st) && RunningOk(st, holding) && HistoryOk(st, h)
    requires flags.Keys == st.cancels.Keys && forall id :: id in flags ==> flags[id] || flags[id] == st.cancels[id]
    requires if st.stopping then stopping else stopping ==> forall id :: id in flags ==> flags[id]
    ensures var after := st.(cancels := flags, stopping := stopping);
            QueueOk(after) && RunningOk(after, holding) && HistoryOk(after, h)
  {
  }

  function SavedOr(unsaved: set<Id>, id: Id, saved: bool): (after: set<Id>) {
    if saved then unsaved - {id} else unsaved + {id}
  }

  class Manager {
    var state: State
    /** The job records on disk. */
    var disk: Table
    /** What was there since the last power loss. */
    var past: Past
    /** The job each worker thread is executing. */
    var holding: seq<Option<Id>>
    const maxQueued: nat
    const historyLimit: nat
    ghost var history: History
    /** The jobs whose last save failed. */
    ghost var unsaved: set<Id>

    /** The service starts with what is on disk; `saved` are the records it
        manages to write. `history` is what went before. */
    constructor (disk: Table, past: Past, workers: nat, maxQueued: nat, historyLimit: nat, saved: set<Id>, ghost history: History)
      requires HistoryOk(Anew(disk), history) && PastOk(disk, past, history.order)
      ensures Valid() && state == Anew(disk) && this.history == history
      ensures this.maxQueued == maxQueued && this.historyLimit == historyLimit && |holding| == workers
      ensures unsaved == Unwritten(disk, saved)
      ensures this.disk == Rewritten(disk, saved) && this.past == PastRewritten(disk, past, saved)
    {
      this.maxQueued, this.historyLimit := maxQueued, historyLimit;
      state := State(Restarted(disk), map[], [], map[], false);
      this.disk := Rewritten(disk, saved);
      this.past := PastRewritten(disk, past, saved);
      holding := seq(workers, _ => None);
      this.history := history;
      unsaved := Unwritten(disk, saved);
      RestartPast(disk, past, history.order, saved);
    }

    ghost predicate Valid()
      reads this
    {
      QueueOk(state) && RunningOk(state, holding) && HistoryOk(state, history) && DiskOk(state.jobs, disk, unsaved)
      && PastOk(disk, past, history.order)
    }

    ghost function Now(): (s: Snapshot)
      reads this
    {
      Snapshot(state, unsaved, history)
    }

    /** Writing a record can fail; the old one is then still there. */
    method SaveJob(id: Id, saved: bool)
      requires id in state.jobs && DiskOk(state.jobs, disk, unsaved + {id}) && PastOk(disk, past, history.order)
      modifies `disk, `past, `unsaved
      ensures DiskOk(state.jobs, disk, unsaved) && PastOk(disk, past, history.order)
      ensures unsaved == SavedOr(old(unsaved), id, saved)
      ensures saved ==> disk == old(disk)[id := state.jobs[id]] && past == Wrote(old(past), id, Some(state.jobs[id]))
      ensures !saved ==> disk == old(disk) && past == old(past)
    {
      if saved {
        SavePast(disk, past, history.order, id, state.jobs[id]);
        disk := disk[id := state.jobs[id]];
        past := Wrote(past, id, Some(state.jobs[id]));
      }
      unsaved := SavedOr(unsaved, id, saved);
    }

    /** `id` was never used before; `saved` is whether its record was written. */
    method Submit(id: Id, owner: string, spec: Spec, saved: bool, ghost now: nat) returns (r: Result<Id, Rejection>)
      requires Valid() && id !in history.order && forall other :: other in history.order ==> history.order[other] < now
      modifies `state, `disk, `past, `history, `unsaved
      ensures Valid() && Kept(old(Now()), Now())
      ensures r == if old(state).stopping || |old(state).queue| >= maxQueued then Err(Busy) else if saved then Ok(id) else Err(Internal)
      ensures r.Ok? ==> state == Submitted(old(state), id, owner, spec) && unsaved == old(unsaved) - {id}
                        && history == old(history).(order := old(history).order[id := now])
      ensures r.Err? ==> Now() == old(Now()) && disk == old(disk) && past == old(past)
      ensures r.Ok? ==> disk == old(disk)[id := state.jobs[id]] && past == Wrote(old(past), id, Some(state.jobs[id]))
    {
      hide QueueOk, RunningOk, HistoryOk, DiskOk, PastOk, Kept;
      KeptNothing(Now());
      if state.stopping {
        return Err(Busy);
      }
      if |state.queue| >= maxQueued {
        return Err(Busy);
      }
      if !saved {
        return Err(Internal);
      }
      SubmitKeeps(state, history, holding, id, owner, spec, now);
      InHistory(Now());
      SubmitKept(Now(), id, owner, spec, now);
      NewRecord(state.jobs, disk, unsaved, id, Summary(Queued, owner, spec, NO_DETAILS));
      SubmitPast(disk, past, history.order, id, Summary(Queued, owner, spec, NO_DETAILS), now);
      state := state.(jobs := state.jobs[id := Summary(Queued, owner, spec, NO_DETAILS)]);
      disk := disk[id := state.jobs[id]];
      past := Wrote(past, id, Some(state.jobs[id]));
      unsaved := unsaved - {id};
      state := state.(specs := state.specs[id := spec]);
      state := state.(queue := state.queue + [id]);
      history := history.(order := history.order[id := now]);
      r := Ok(id);
    }

    /** `saved` is whether the record of a job taken from the queue was written;
        the caller is not told. */
    method Cancel(id: Id, saved: bool) returns (r: Result<(), Rejection>)
      requires Valid()
      modifies `state, `disk, `past, `history, `unsaved
      ensures Valid() && Kept(old(Now()), Now())
      ensures r.Ok? <==> id in old(state).cancels || id in old(state).queue
      ensures id in old(state).cancels ==> state == old(state).(cancels := old(state).cancels[id := true])
      ensures id in old(state).queue ==>
                (IsIn(state.jobs, id, Cancelled) && id in history.withdrawn
                 && exists at :: 0 <= at < |old(state).queue| && old(state).queue[at] == id && id in old(state).jobs
                                 && state == Withdrawn(old(state), at))
      ensures unsaved == if id in old(state).queue then SavedOr(old(unsaved), id, saved) else old(unsaved)
      ensures past == if id in old(state).queue && saved && id in state.jobs then Wrote(old(past), id, Some(state.jobs[id])) else old(past)
      ensures r.Err? ==> r.error == NotFound && Now() == old(Now())
      ensures history.order == old(history).order
    {
      hide InOrder, AllDistinct, QueueOk, RunningOk, HistoryOk, DiskOk, PastOk, Kept;
      KeptNothing(Now());
      if id in state.cancels {
        StopKeeps(state, history, holding, state.cancels[id := true], state.stopping);
        NotBoth(state, holding, id);
        FlagsKept(Now(), state.cancels[id := true], state.stopping);
        state := state.(cancels := state.cancels[id := true]);
        return Ok(());
      }
      var at := 0;
      while at < |state.queue| && state.queue[at] != id
        invariant at <= |state.queue| && id !in state.queue[..at]
      {
        at := at + 1;
      }
      if at < |state.queue| {
        r := CancelQueued(id, at, saved);
        return;
      }
      assert state.queue[..at] == state.queue;
      r := Err(NotFound);
    }

    method CancelQueued(id: Id, at: nat, saved: bool) returns (r: Result<(), Rejection>)
      requires Valid() && at < |state.queue| && state.queue[at] == id
      modifies `state, `disk, `past, `history, `unsaved
      ensures Valid() && Kept(old(Now()), Now())
      ensures r.Ok? && id in old(state).jobs && id !in old(state).cancels
      ensures state == Withdrawn(old(state), at) && IsIn(state.jobs, id, Cancelled) && id in history.withdrawn
      ensures history.order == old(history).order && unsaved == SavedOr(old(unsaved), id, saved)
      ensures past == if saved then Wrote(old(past), id, Some(state.jobs[id])) else old(past)
    {
      hide InOrder, AllDistinct, RunningOk, PastOk;
      QueuedIs(state, holding, at);
      WithdrawKeeps(state, history, holding, at);
      OldRecord(state.jobs, disk, unsaved, id, state.jobs[id].(state := Cancelled));
      WithdrawnKept(Now(), at, saved);
      hide QueueOk, DiskOk, Kept;
      state := state.(queue := state.queue[..at] + state.queue[at + 1..]);
      state := state.(specs := state.specs - {id});
      state := state.(jobs := state.jobs[id := state.jobs[id].(state := Cancelled)]);
      history := history.(withdrawn := history.withdrawn + {id});
      SaveJob(id, saved);
      r := Ok(());
    }

    /** Stops accepting work and cancels what runs. */
    method Shutdown()
      requires Valid()
      modifies `state
      ensures Valid() && Kept(old(Now()), Now())
      ensures state == old(state).(stopping := true, cancels := map id | id in old(state).cancels :: true)
    {
      hide QueueOk, RunningOk, HistoryOk, DiskOk, PastOk, Kept;
      StopKeeps(state, history, holding, map id | id in state.cancels :: true, true);
      FlagsKept(Now(), map id | id in state.cancels :: true, true);
      state := state.(stopping := true);
      state := state.(cancels := map id | id in state.cancels :: true);
    }

    /** The first critical section of a worker's loop: the oldest queued job, if
        there is one and the service is not stopping. */
    method Take(w: nat, saved: bool) returns (taken: Option<(Id, Spec)>)
      requires Valid() && w < |holding| && holding[w] == None
      modifies `state, `disk, `past, `holding, `history, `unsaved
      ensures Valid() && Kept(old(Now()), Now())
      ensures taken.Some? <==> !old(state).stopping && old(state).queue != []
      ensures taken.Some? ==> var id := old(state).queue[0];
                              id in old(state).jobs && id in old(state).specs && taken.value == (id, old(state).specs[id])
                              && state == Begun(old(state)) && holding == old(holding)[w := Some(id)]
                              && history == old(history).(started := old(history).started + [id])
                              && unsaved == SavedOr(old(unsaved), id, saved)
      ensures taken.None? ==> Now() == old(Now()) && holding == old(holding)
    {
      hide InOrder, AllDistinct, RunningOk, PastOk;
      KeptNothing(Now());
      if state.stopping || state.queue == [] {
        return None;
      }
      var id := state.queue[0];
      QueuedIs(state, holding, 0);
      BeginKeeps(state, history, holding, w);
      OldRecord(state.jobs, disk, unsaved, id, state.jobs[id].(state := Running));
      BegunKept(Now(), saved);
      hide QueueOk, DiskOk, Kept;
      var spec := state.specs[id];
      state := state.(queue := state.queue[1..]);
      state := state.(specs := state.specs - {id});
      state := state.(cancels := state.cancels[id := false]);
      holding := holding[w := Some(id)];
      state := state.(jobs := state.jobs[id := state.jobs[id].(state := Running)]);
      history := history.(started := history.started + [id]);
      SaveJob(id, saved);
      taken := Some((id, spec));
    }

    /** The second critical section: the job's result, and pruning. */
    method Finish(w: nat, result: JobResult, saved: bool)
      requires Valid() && w < |holding| && holding[w].Some?
      modifies `state, `disk, `past, `holding, `unsaved
      ensures Valid() && Kept(old(Now()), Now())
      ensures holding == old(holding)[w := None] && unsaved == SavedOr(old(unsaved), old(holding)[w].value, saved)
      ensures var id := old(holding)[w].value;
              IsIn(old(state).jobs, id, Running) && Pruned(Ended(old(state), id, result), state, historyLimit)
    {
      hide QueueOk, HistoryOk, RunningOk, PastOk, Kept, Pruned;
      var id := holding[w].value;
      HeldIs(state, holding, w);
      EndKeeps(state, history, holding, w, result);
      OldRecord(state.jobs, disk, unsaved, id, state.jobs[id].(state := result.state, details := result.details));
      hide DiskOk;
      state := state.(cancels := state.cancels - {id});
      holding := holding[w := None];
      state := state.(jobs := state.jobs[id := state.jobs[id].(state := result.state, details := result.details)]);
      SaveJob(id, saved);
      ghost var ended := state;
      Prune();
      FinishKept(old(Now()), id, result, ended, saved, state, historyLimit);
    }

    /** Removes finished jobs beyond the limit, as far as their records can be
        removed. Which of them go first is not said. */
    method Prune()
      requires Valid()
      modifies `state, `disk, `past
      ensures Valid() && Pruned(old(state), state, historyLimit)
    {
      hide QueueOk, RunningOk, HistoryOk, DiskOk, PastOk, FinishedIn, Pruned;
      var finished := FinishedIn(state.jobs);
      var excess := if |finished| > historyLimit then |finished| - historyLimit else 0;
      var tried := {};
      while |tried| < excess
        invariant Valid() && tried <= finished && |tried| <= excess
        invariant state == old(state).(jobs := state.jobs)
        invariant state.jobs.Keys <= old(state).jobs.Keys && old(state).jobs.Keys - tried <= state.jobs.Keys
        invariant forall id :: id in state.jobs ==> state.jobs[id] == old(state).jobs[id]
        decreases excess - |tried|
      {
        var id := SomeLeft(finished, tried);
        tried := tried + {id};
        if * {
          FinishedMeans(old(state).jobs, id);
          if id in state.jobs {
            DropKeeps(state, history, holding, id);
          } else {
            DropNothing(state, id);
          }
          DropRecord(state.jobs, disk, unsaved, id);
          if id in disk {
            InTable(state, history, disk, unsaved, id);
            DropPast(disk, past, history.order, id);
            past := Wrote(past, id, None);
          } else {
            assert disk - {id} == disk;
          }
          disk := disk - {id};
          state := state.(jobs := state.jobs - {id});
        }
      }
      WhatIsLeft(old(state), state, tried, historyLimit);
    }
  }

  /** Only finished jobs go, at least as many as the limit stay, and none go while
      there are no more. */
  ghost predicate Pruned(a: State, b: State, limit: nat) {
    && b == a.(jobs := b.jobs)
    && b.jobs.Keys <= a.jobs.Keys && (forall id :: id in b.jobs ==> b.jobs[id] == a.jobs[id])
    && (forall id :: id in a.jobs && !Finished(a.jobs[id].state) ==> id in b.jobs)
    && |FinishedIn(b.jobs)| >= (if |FinishedIn(a.jobs)| < limit then |FinishedIn(a.jobs)| else limit)
    && (|FinishedIn(a.jobs)| <= limit ==> b.jobs == a.jobs)
  }

  lemma HeldIs(st: State, holding: seq<Option<Id>>, w: nat)
    requires RunningOk(st, holding) && w < |holding| && holding[w].Some?
    ensures IsIn(st.jobs, holding[w].value, Running)
  {
  }

  lemma FinishKept(a: Snapshot, id: Id, result: JobResult, ended: State, saved: bool, b: State, limit: nat)
    requires IsIn(a.st.jobs, id, Running) && ended == Ended(a.st, id, result) && Pruned(ended, b, limit)
    ensures Kept(a, Snapshot(b, SavedOr(a.unsaved, id, saved), a.h))
  {
  }

  lemma BegunKept(a: Snapshot, saved: bool)
    requires a.st.queue != [] && IsIn(a.st.jobs, a.st.queue[0], Queued) && !a.st.stopping
    ensures Kept(a, Snapshot(Begun(a.st), SavedOr(a.unsaved, a.st.queue[0], saved), a.h.(started := a.h.started + [a.st.queue[0]])))
  {
  }

  lemma WithdrawnKept(a: Snapshot, at: nat, saved: bool)
    requires at < |a.st.queue| && IsIn(a.st.jobs, a.st.queue[at], Queued)
    ensures Kept(a, Snapshot(Withdrawn(a.st, at), SavedOr(a.unsaved, a.st.queue[at], saved),
                             a.h.(withdrawn := a.h.withdrawn + {a.st.queue[at]})))
  {
  }

  lemma FlagsKept(a: Snapshot, flags: map<Id, bool>, stopping: bool)
    requires a.st.stopping ==> stopping
    ensures Kept(a, a.(st := a.st.(cancels := flags, stopping := stopping)))
  {
  }

  lemma SubmitKept(a: Snapshot, id: Id, owner: string, spec: Spec, now: nat)
    requires id !in a.h.order && a.st.jobs.Keys <= a.h.order.Keys
    ensures Kept(a, Snapshot(Submitted(a.st, id, owner, spec), a.unsaved - {id}, a.h.(order := a.h.order[id := now])))
  {
  }

  lemma NewRecord(jobs: Table, disk: Table, unsaved: set<Id>, id: Id, job: Summary)
    requires DiskOk(jobs, disk, unsaved)
    ensures DiskOk(jobs[id := job], disk[id := job], unsaved - {id})
  {
  }

  lemma FinishedMeans(jobs: Table, id: Id)
    requires id in FinishedIn(jobs)
    ensures id in jobs && Finished(jobs[id].state)
  {
  }

  lemma DropNothing(st: State, id: Id)
    requires id !in st.jobs
    ensures st.(jobs := st.jobs - {id}) == st
  {
    assert st.jobs - {id} == st.jobs;
  }

  lemma DropRecord(jobs: Table, disk: Table, unsaved: set<Id>, id: Id)
    requires DiskOk(jobs, disk, unsaved)
    ensures DiskOk(jobs - {id}, disk - {id}, unsaved)
  {
  }

  lemma InTable(st: State, h: History, disk: Table, unsaved: set<Id>, id: Id)
    requires DiskOk(st.jobs, disk, unsaved) && HistoryOk(st, h) && id in disk
    ensures id in h.order
  {
  }

  lemma WhatIsLeft(a: State, b: State, tried: set<Id>, limit: nat)
    requires tried <= FinishedIn(a.jobs) && |tried| == if |FinishedIn(a.jobs)| > limit then |FinishedIn(a.jobs)| - limit else 0
    requires b == a.(jobs := b.jobs)
    requires b.jobs.Keys <= a.jobs.Keys && a.jobs.Keys - tried <= b.jobs.Keys && forall id :: id in b.jobs ==> b.jobs[id] == a.jobs[id]
    ensures Pruned(a, b, limit)
  {
    assert FinishedIn(a.jobs) - tried <= FinishedIn(b.jobs);
    SubsetSize(FinishedIn(a.jobs) - tried, FinishedIn(b.jobs));
    SubsetSize(tried, FinishedIn(a.jobs));
  }

  /** The old record of a job that was not finished may stand. */
  lemma OldRecord(jobs: Table, disk: Table, unsaved: set<Id>, id: Id, job: Summary)
    requires DiskOk(jobs, disk, unsaved) && id in jobs && !Finished(jobs[id].state)
    ensures DiskOk(jobs[id := job], disk, unsaved + {id})
  {
  }

  lemma NotBoth(st: State, holding: seq<Option<Id>>, id: Id)
    requires QueueOk(st) && RunningOk(st, holding) && id in st.cancels
    ensures id !in st.queue
  {
    assert id in st.queue ==> id in SetOf(st.queue);
  }

  lemma QueuedIs(st: State, holding: seq<Option<Id>>, at: nat)
    requires QueueOk(st) && RunningOk(st, holding) && at < |st.queue|
    ensures IsIn(st.jobs, st.queue[at], Queued) && st.queue[at] in st.specs && st.queue[at] !in st.cancels
  {
    assert st.queue[at] in SetOf(st.queue);
  }

  // ---- What the invariant means.

  /** At most as many jobs run as there are workers. */
  lemma RunningBound(st: State, holding: seq<Option<Id>>)
    requires RunningOk(st, holding)
    ensures |st.cancels| <= |holding|
    ensures st.cancels.Keys == set id | id in st.jobs && st.jobs[id].state == Running
  {
    HeldSize(holding);
    assert st.cancels.Keys <= HeldIn(holding);
    SubsetSize(st.cancels.Keys, HeldIn(holding));
  }

  function HeldIn(holding: seq<Option<Id>>): (ids: set<Id>) {
    set x | x in holding && x.Some? :: x.value
  }

  lemma {:induction false} HeldSize(holding: seq<Option<Id>>)
    ensures |HeldIn(holding)| <= |holding|
  {
    if holding != [] {
      var front, last := holding[..|holding| - 1], holding[|holding| - 1];
      HeldSize(front);
      assert holding == front + [last];
      assert HeldIn(holding) == HeldIn(front) + (if last.Some? then {last.value} else {});
    }
  }

  /** Jobs start in the order they were submitted, each at most once, none that
      was cancelled while queued, and the queue holds later ones. */
  lemma StartedInOrder(st: State, h: History)
    requires HistoryOk(st, h)
    ensures AllDistinct(h.started) && h.withdrawn !! SetOf(h.started)
    ensures forall i, j :: 0 <= i < j < |h.started| ==> h.started[i] in h.order && h.started[j] in h.order && h.order[h.started[i]] < h.order[h.started[j]]
    ensures forall a, b :: a in h.started && b in st.queue ==> a in h.order && b in h.order && h.order[a] < h.order[b]
  {
    var all, n := h.started + st.queue, |h.started|;
    assert forall i :: 0 <= i < n ==> all[i] == h.started[i];
    forall a, b | a in h.started && b in st.queue
      ensures a in h.order && b in h.order && h.order[a] < h.order[b]
    {
      var i :| 0 <= i < n && h.started[i] == a;
      var j :| 0 <= j < |st.queue| && st.queue[j] == b;
      assert all[i] == a && all[n + j] == b;
    }
  }

  // ---- Any interleaving, over any number of lives of the service.

  datatype Action =
    | DoSubmit(id: Id, owner: string, spec: Spec, saved: bool)
    | DoCancel(id: Id, saved: bool)
    | DoTake(w: nat, saved: bool)
    | DoFinish(w: nat, result: JobResult, saved: bool)
    | DoShutdown
    | DoRestart(written: set<Id>)
    | DoPowerLoss(left: Table, written: set<Id>)

  /** Submissions use new IDs. */
  ghost predicate NewIds(h: History, actions: seq<Action>) {
    && (forall k :: 0 <= k < |actions| && actions[k].DoSubmit? ==> actions[k].id !in h.order)
    && (forall j, k :: 0 <= j < k < |actions| && actions[j].DoSubmit? && actions[k].DoSubmit? ==> actions[j].id != actions[k].id)
  }

  ghost predicate Restarts(actions: seq<Action>) {
    exists k :: 0 <= k < |actions| && (actions[k].DoRestart? || actions[k].DoPowerLoss?)
  }

  ghost predicate LosesPower(actions: seq<Action>) {
    exists k :: 0 <= k < |actions| && actions[k].DoPowerLoss?
  }

  /** What a restart takes from disk: a finished job as its last good save left
      it, and every other as interrupted. */
  lemma RestartKept(a: Snapshot, disk: Table, written: set<Id>)
    requires DiskOk(a.st.jobs, disk, a.unsaved) && HistoryOk(a.st, a.h)
    ensures HistoryOk(Anew(disk), a.h)
    ensures KeptLong(a, Snapshot(Anew(disk), Unwritten(disk, written), a.h), true)
  {
    var all := a.h.started + a.st.queue;
    assert forall i :: 0 <= i < |a.h.started| ==> all[i] == a.h.started[i];
    assert a.h.started + [] == a.h.started;
  }

  /** Finished jobs that are still listed are in the state they were in, unless
      there was a restart, their last save had failed, and they had not. */
  ghost predicate StatesSurvive(a: Snapshot, b: Snapshot, restarted: bool) {
    forall id :: id in a.st.jobs && Finished(a.st.jobs[id].state) && id in b.st.jobs ==>
      (b.st.jobs[id].state == a.st.jobs[id].state <==> !(restarted && id in a.unsaved && a.st.jobs[id].state != Failed))
  }

  lemma KeptSurvive(a: Snapshot, b: Snapshot, restarted: bool)
    requires KeptLong(a, b, restarted)
    ensures StatesSurvive(a, b, restarted)
  {
  }

  method Perform(m: Manager, action: Action, ghost clock: nat) returns (next: Manager)
    requires m.Valid() && (action.DoSubmit? ==> action.id !in m.history.order)
    requires forall id :: id in m.history.order ==> m.history.order[id] <= clock
    modifies m
    ensures next == m || fresh(next)
    ensures next.Valid() && |next.holding| == |old(m.holding)|
    ensures SamePast(old(m.history), next.history)
    ensures !action.DoPowerLoss? ==> KeptLong(old(m.Now()), next.Now(), action.DoRestart?)
    ensures old(m.state).stopping && !action.DoRestart? && !action.DoPowerLoss? ==>
              next.state.stopping && next.history.started == old(m.history).started
    ensures forall id :: id in next.history.order ==> next.history.order[id] <= clock + 1
    ensures next.history.order.Keys <= old(m.history).order.Keys + if action.DoSubmit? then {action.id} else {}
  {
    hide QueueOk, RunningOk, DiskOk, HistoryOk, PastOk, IsImage, Kept, KeptLong, SamePast, Anew;
    next := m;
    ghost var before := m.Now();
    KeptNothing(before);
    match action {
    case DoSubmit(id, owner, spec, saved) =>
      var _ := m.Submit(id, owner, spec, saved, clock + 1);
    case DoCancel(id, saved) =>
      var _ := m.Cancel(id, saved);
    case DoTake(w, saved) =>
      if w < |m.holding| && m.holding[w] == None {
        var _ := m.Take(w, saved);
      }
    case DoFinish(w, result, saved) =>
      if w < |m.holding| && m.holding[w].Some? {
        m.Finish(w, result, saved);
      }
    case DoShutdown =>
      m.Shutdown();
    case DoRestart(written) =>
      RestartKept(before, m.disk, written);
      next := new Manager(m.disk, m.past, |m.holding|, m.maxQueued, m.historyLimit, written, m.history);
      KeptIsSame(before, next.Now(), true);
      return;
    case DoPowerLoss(left, written) =>
      if IsImage(m.past, left) {
        LossHistory(m.state, m.history, m.disk, m.past, left);
        next := new Manager(left, Settled(left), |m.holding|, m.maxQueued, m.historyLimit, written, m.history);
        return;
      }
    }
    KeptIsLong(before, m.Now());
    KeptIsSame(before, m.Now(), false);
  }

  lemma KeptIsSame(a: Snapshot, b: Snapshot, restarted: bool)
    requires KeptLong(a, b, restarted)
    ensures SamePast(a.h, b.h)
  {
  }

  lemma LossHistory(st: State, h: History, disk: Table, past: Past, left: Table)
    requires HistoryOk(st, h) && PastOk(disk, past, h.order) && IsImage(past, left)
    ensures HistoryOk(Anew(left), h) && PastOk(left, Settled(left), h.order) && SamePast(h, h)
  {
    SettledPast(past, h.order, left);
    var all := h.started + st.queue;
    assert forall i :: 0 <= i < |h.started| ==> all[i] == h.started[i];
    assert h.started + [] == h.started;
  }

  /** Any interleaving of clients and workers, with the service dying and
      starting again at any point, and power losses. No more jobs run than there
      are workers; no job starts twice, out of order, or after it was cancelled in
      the queue. While the power is not lost, a finished job is the same for good if
      its last save succeeded, and else until the first restart, which makes it a
      failed one. */
  method Interleave(m: Manager, actions: seq<Action>) returns (last: Manager)
    requires m.Valid() && NewIds(m.history, actions)
    modifies m
    ensures last.Valid() && |last.state.cancels| <= |last.holding| == |old(m.holding)|
    ensures SamePast(old(m.history), last.history)
    ensures !LosesPower(actions) ==>
              KeptLong(old(m.Now()), last.Now(), Restarts(actions)) && StatesSurvive(old(m.Now()), last.Now(), Restarts(actions))
    ensures AllDistinct(last.history.started) && last.history.withdrawn !! SetOf(last.history.started)
    ensures old(m.state).stopping && !Restarts(actions) ==> last.history.started == old(m.history).started
  {
    hide QueueOk, RunningOk, DiskOk, HistoryOk, PastOk, KeptLong, SamePast, StatesSurvive;
    last := m;
    ghost var first := m.Now();
    ghost var clock := Latest(m.history.order);
    KeptNothing(first);
    KeptIsSame(first, first, false);
    InHistory(first);
    for n := 0 to |actions|
      modifies m, last
      invariant last == m || fresh(last)
      invariant last.Valid() && |last.holding| == |old(m.holding)|
      invariant SamePast(first.h, last.history)
      invariant !LosesPower(actions[..n]) ==> KeptLong(first, last.Now(), Restarts(actions[..n]))
      invariant first.st.stopping && !Restarts(actions[..n]) ==> last.state.stopping && last.history.started == first.h.started
      invariant forall id :: id in last.history.order ==> last.history.order[id] <= clock
      invariant last.history.order.Keys <= first.h.order.Keys + set k | 0 <= k < n && actions[k].DoSubmit? :: actions[k].id
    {
      ghost var before := last.Now();
      RestartsMore(actions, n);
      last := Perform(last, actions[n], clock);
      clock := clock + 1;
      SamePastThen(first.h, before.h, last.history);
      if !LosesPower(actions[..n + 1]) {
        KeptThen(first, before, last.Now(), Restarts(actions[..n]), actions[n].DoRestart?);
      }
    }
    assert actions[..|actions|] == actions;
    if !LosesPower(actions) {
      KeptSurvive(first, last.Now(), Restarts(actions));
    }
    RunningBound(last.state, last.holding);
    StartedInOrder(last.state, last.history);
  }

  lemma RestartsMore(actions: seq<Action>, n: nat)
    requires n < |actions|
    ensures Restarts(actions[..n + 1]) <==> Restarts(actions[..n]) || actions[n].DoRestart? || actions[n].DoPowerLoss?
    ensures LosesPower(actions[..n + 1]) <==> LosesPower(actions[..n]) || actions[n].DoPowerLoss?
  {
    var front, more := actions[..n], actions[..n + 1];
    assert more[n] == actions[n];
    assert forall k :: 0 <= k < n ==> front[k] == more[k];
  }

  lemma KeptNothing(a: Snapshot)
    ensures Kept(a, a) && KeptLong(a, a, false)
  {
  }

  lemma KeptIsLong(a: Snapshot, b: Snapshot)
    requires Kept(a, b)
    ensures KeptLong(a, b, false) && (a.st.stopping ==> b.st.stopping && b.h.started == a.h.started)
  {
  }

  lemma InHistory(a: Snapshot)
    requires HistoryOk(a.st, a.h)
    ensures a.st.jobs.Keys <= a.h.order.Keys
  {
  }

  /** A cancelled job whose record could not be written comes back as one that
      failed, although its owner was told that it was cancelled. */
  method CancelIsForgotten(spec: Spec) returns (told: Result<(), Rejection>, before: Summary, after: Summary)
    ensures told.Ok? && before.state == Cancelled
    ensures after.state == Failed && after.details.error == Some(INTERRUPTED)
  {
    hide QueueOk, RunningOk, HistoryOk, DiskOk, PastOk, Kept, KeptLong;
    NoHistory();
    var m := new Manager(map[], map[], 1, 1, 1, {}, History(map[], [], {}));
    var _ := m.Submit(0, "owner", spec, true, 0);
    assert m.state.queue == [0];
    told := m.Cancel(0, false);
    before := m.state.jobs[0];
    RestartKept(m.Now(), m.disk, {});
    var next := new Manager(m.disk, m.past, 1, 1, 1, {}, m.history);
    Forgotten(m.Now(), m.disk, next.Now(), 0);
    after := next.state.jobs[0];
  }

  /** A job whose cancel was saved, and reported good, can come back as failed after
      a power loss, or not at all. */
  method SavedIsForgotten(spec: Spec) returns (told: Result<(), Rejection>, before: Summary, after: Summary, gone: bool)
    ensures told.Ok? && before.state == Cancelled && after.state == Failed && gone
  {
    hide QueueOk, RunningOk, HistoryOk, DiskOk, PastOk, Kept, KeptLong, IsImage, Wrote, Settled;
    NoHistory();
    var m := new Manager(map[], map[], 1, 1, 1, {}, History(map[], [], {}));
    assert m.past == map[];
    var _ := m.Submit(0, "owner", spec, true, 0);
    assert m.state.queue == [0];
    var queued := m.state.jobs[0];
    told := m.Cancel(0, true);
    before := m.state.jobs[0];
    var left := map[0 := queued];
    BothImages(queued, before);
    LossHistory(m.state, m.history, m.disk, m.past, left);
    var next := new Manager(left, Settled(left), 1, 1, 1, {}, m.history);
    after := next.state.jobs[0];
    gone := IsImage(m.past, map[]);
  }

  lemma BothImages(queued: Summary, cancelled: Summary)
    ensures var past := Wrote(Wrote(map[], 0, Some(queued)), 0, Some(cancelled));
            IsImage(past, map[0 := queued]) && IsImage(past, map[])
  {
  }

  lemma NoHistory()
    ensures HistoryOk(Anew(map[]), History(map[], [], {})) && PastOk(map[], map[], map[])
  {
  }

  lemma Forgotten(a: Snapshot, disk: Table, b: Snapshot, id: Id)
    requires DiskOk(a.st.jobs, disk, a.unsaved) && b.st == Anew(disk) && KeptLong(a, b, true)
    requires id in a.st.jobs && Finished(a.st.jobs[id].state) && id in a.unsaved
    ensures id in b.st.jobs && b.st.jobs[id].state == Failed && b.st.jobs[id].details.error == Some(INTERRUPTED)
  {
  }

  ghost function Latest(order: map<Id, nat>): (n: nat)
    ensures forall id :: id in order ==> order[id] <= n
  {
    if order == map[] then 0
    else
      var id :| id in order;
      var rest := Latest(order - {id});
      assert forall x :: x in order && x != id ==> x in order - {id} && (order - {id})[x] == order[x];
      if rest < order[id] then order[id] else rest
  }

  lemma WithoutOne(ids: seq<Id>, at: nat)
    requires at < |ids| && AllDistinct(ids)
    ensures AllDistinct(ids[..at] + ids[at + 1..])
    ensures SetOf(ids[..at] + ids[at + 1..]) == SetOf(ids) - {ids[at]}
    ensures at == 0 ==> ids[..at] + ids[at + 1..] == ids[1..]
  {
    var rest := ids[..at] + ids[at + 1..];
    assert ids == ids[..at] + [ids[at]] + ids[at + 1..];
    forall x | x in SetOf(ids) - {ids[at]}
      ensures x in rest
    {
      var i :| 0 <= i < |ids| && ids[i] == x;
      assert x == if i < at then rest[i] else rest[i - 1];
    }
  }

  lemma OrderWithout(started: seq<Id>, queue: seq<Id>, at: nat, order: map<Id, nat>)
    requires at < |queue| && InOrder(started + queue, order)
    ensures InOrder(started + (queue[..at] + queue[at + 1..]), order)
    ensures queue[at] !in started
  {
    var all, n := started + queue, |started|;
    var rest := started + (queue[..at] + queue[at + 1..]);
    assert forall i :: 0 <= i < |rest| ==> rest[i] == all[if i < n + at then i else i + 1];
    assert all[n + at] == queue[at];
    forall i | 0 <= i < n
      ensures started[i] != queue[at]
    {
      assert all[i] == started[i];
    }
  }

  lemma OrderMoves(started: seq<Id>, queue: seq<Id>, order: map<Id, nat>)
    requires queue != [] && InOrder(started + queue, order)
    ensures InOrder(started + [queue[0]] + queue[1..], order)
  {
    assert started + [queue[0]] + queue[1..] == started + queue;
  }

  lemma HeldOnce(holding: seq<Option<Id>>, w: nat, id: Id)
    requires w < |holding| && holding[w] == None
    ensures forall x :: Some(x) in holding[w := Some(id)] <==> Some(x) in holding || x == id
  {
    var after := holding[w := Some(id)];
    forall x | Some(x) in holding
      ensures Some(x) in after
    {
      var v :| 0 <= v < |holding| && holding[v] == Some(x);
      assert after[v] == Some(x);
    }
    assert after[w] == Some(id);
  }

  lemma Released(holding: seq<Option<Id>>, w: nat)
    requires w < |holding| && holding[w].Some?
    requires forall u, v :: 0 <= u < v < |holding| && holding[u].Some? ==> holding[u] != holding[v]
    ensures forall x :: Some(x) in holding[w := None] <==> Some(x) in holding && Some(x) != holding[w]
  {
    var after := holding[w := None];
    forall x | Some(x) in holding && Some(x) != holding[w]
      ensures Some(x) in after
    {
      var v :| 0 <= v < |holding| && holding[v] == Some(x);
      assert after[v] == Some(x);
    }
  }

  method SomeLeft(a: set<Id>, b: set<Id>) returns (x: Id)
    requires b <= a && |b| < |a|
    ensures x in a && x !in b
  {
    SubsetSize(b, a);
    x :| x in a - b;
  }
}
