/** The expander: mutual recursion over one budget, one chain of names and one
    flag, all updated in place. */
module ArchiveExpander {
  import opened Wrappers
  import opened ArchiveRuns
  import opened ArchiveTheorems

  /** Why expansion stopped early. */
  datatype Stop = Cancelled | Deadline

  function EventsOf(log: seq<Reported>): (events: seq<Event>) {
    seq(|log|, i requires 0 <= i < |log| => log[i].event)
  }

  class Expander {
    const job: Job
    var budgetLeft: nat
    var budgetReported: bool
    /** The names leading to the archive or member being looked at. */
    var chain: seq<Name>
    /** What the visitor has been given. */
    var seen: seq<Event>
    ghost var log: seq<Reported>
    ghost var consumed: nat

    constructor (job: Job)
      ensures this.job == job && Valid() && chain == [] && seen == [] && log == [] && consumed == 0
      ensures Budgeted() == Budget(job.limits.maxTotal, false)
    {
      this.job := job;
      budgetLeft, budgetReported := job.limits.maxTotal, false;
      chain, seen, log, consumed := [], [], [], 0;
    }

    ghost predicate Valid()
      reads this
    {
      seen == EventsOf(log) && BudgetOk(Budgeted())
    }

    function Budgeted(): (b: Budget)
      reads this
    {
      Budget(budgetLeft, budgetReported)
    }

    /** What has been reported since `before` is the whole of `run`, or, if
        expansion was stopped, its beginning. */
    twostate predicate Follows(run: Run, new stop: Option<Stop>)
      reads this
    {
      && Valid() && chain == old(chain)
      && (stop == None ==> log == old(log) + run.events && Budgeted() == run.budget && consumed == old(consumed) + run.read)
      && (stop.Some? ==> old(log) <= log <= old(log) + run.events && consumed <= old(consumed) + run.read)
    }

    /** Cancellation and the deadline, whenever they come. */
    method Check() returns (stop: Option<Stop>)
    {
      if * {
        return Some(Cancelled);
      } else if * {
        return Some(Deadline);
      }
      stop := None;
    }

    method Visit(e: Event, ghost at: seq<nat>, ghost result: bool, ghost exhausted: bool)
      requires Valid()
      modifies `seen, `log
      ensures Valid() && log == old(log) + [Reported(e, at, result, exhausted)]
    {
      seen := seen + [e];
      log := log + [Reported(e, at, result, exhausted)];
    }

    /** An expander is made for one file. Whether or not it is stopped, it
        stays within the budget; if it is not, it leaves no entry out. */
    method ExpandFile(data: Bytes) returns (stop: Option<Stop>)
      requires Valid() && chain == [] && log == [] && consumed == 0 && Budgeted() == Budget(job.limits.maxTotal, false)
      modifies this
      ensures Follows(FileRun(job, data), stop)
      ensures Delivered(log) <= job.limits.maxTotal && consumed <= job.limits.maxTotal + CHUNK && Notices(log) <= 1
      ensures stop == None ==> Covered(job, log, Notices(log) == 1, data, [], 1)
    {
      stop := Expand(data, 1, LooksLikeZip(data), []);
      BombBudget(job, data);
      FullCoverage(job, data);
      ghost var run := FileRun(job, data);
      assert run.events == log + run.events[|log|..];
      DeliveredJoin(log, run.events[|log|..]);
      assert stop == None ==> log == run.events;
    }

    method Expand(data: Bytes, depth: nat, strict: bool, ghost at: seq<nat>) returns (stop: Option<Stop>)
      requires Valid()
      modifies this
      ensures Follows(ExpandRun(job, old(Budgeted()), data, old(chain), at, depth, strict), stop)
      decreases LevelsLeft(job, depth), 4
    {
      var zip := job.parse(data);
      if zip == None {
        if strict {
          Visit(Error(chain), at, false, false);
        }
        return None;
      }
      var entries := zip.value;
      if |entries| > job.limits.maxEntries {
        Visit(Skipped(chain, LimitReached), at, false, false);
      }
      stop := Entries(entries, depth, at);
    }

    /** The loop over an archive's entries. */
    method Entries(entries: seq<Entry>, depth: nat, ghost at: seq<nat>) returns (stop: Option<Stop>)
      requires Valid()
      modifies this
      ensures Follows(EntriesRun(job, old(Budgeted()), entries, 0, old(chain), at, depth), stop)
      decreases LevelsLeft(job, depth), 3
    {
      ghost var whole := EntriesRun(job, Budgeted(), entries, 0, chain, at, depth);
      ghost var rest := whole;
      for index := 0 to Within(job, entries)
        invariant Valid() && chain == old(chain)
        invariant rest == EntriesRun(job, Budgeted(), entries, index, chain, at, depth)
        invariant old(log) <= log && log + rest.events == old(log) + whole.events
        invariant rest.budget == whole.budget && consumed + rest.read == old(consumed) + whole.read
      {
        stop := Check();
        if stop.Some? {
          return;
        }
        if budgetLeft == 0 {
          if !budgetReported {
            budgetReported := true;
            Visit(Skipped(chain, LimitReached), at, false, true);
          }
          return None;
        }
        stop := Entry(entries[index], depth, at + [index]);
        if stop.Some? {
          return;
        }
        rest := EntriesRun(job, Budgeted(), entries, index + 1, chain, at, depth);
      }
      stop := None;
    }

    /** One entry. The chain is restored however it ends. */
    method Entry(entry: Entry, depth: nat, ghost at: seq<nat>) returns (stop: Option<Stop>)
      requires Valid() && budgetLeft > 0
      modifies this
      ensures Follows(EntryRun(job, old(Budgeted()), entry, old(chain), at, depth), stop)
      decreases LevelsLeft(job, depth), 2
    {
      if entry.meta == None {
        Visit(Error(chain), at, true, false);
        return None;
      }
      var meta := entry.meta.value;
      if meta.isDir {
        return None;
      }
      chain := chain + [meta.name];
      stop := None;
      if meta.encrypted {
        Visit(Skipped(chain, Encrypted), at, true, false);
      } else if meta.isSymlink {
        Visit(Skipped(chain, NotSupported), at, true, false);
      } else {
        stop := Member(entry.body, depth, at);
      }
      chain := chain[..|chain| - 1];
    }

    method Member(body: Body, depth: nat, ghost at: seq<nat>) returns (stop: Option<Stop>)
      requires Valid() && budgetLeft > 0
      modifies this
      ensures Follows(MemberRun(job, old(Budgeted()), body, old(chain), at, depth), stop)
      decreases LevelsLeft(job, depth), 1
    {
      if body.Unsupported? {
        Visit(Skipped(chain, NotSupported), at, true, false);
        return None;
      } else if body.Unopenable? {
        Visit(Error(chain), at, true, false);
        return None;
      }
      var done, content, keep, total, hashed;
      stop, done, total, keep, content, hashed := ReadMember(body, at);
      if stop.Some? || done {
        return;
      }
      budgetLeft := budgetLeft - total;
      var kept := if keep then Some(content) else None;
      Visit(ArchiveRuns.Member(chain, job.sha(hashed), total, kept), at, true, false);
      if kept.Some? && LooksLikeZip(kept.value) {
        if depth < job.limits.maxDepth {
          stop := Expand(kept.value, depth + 1, true, at);
        } else {
          Visit(Skipped(chain, LimitReached), at, false, false);
        }
      }
    }

    /** The reading loop. `done` is that the member's result was reported and
        paid for here. */
    method ReadMember(body: Body, ghost at: seq<nat>)
      returns (stop: Option<Stop>, done: bool, total: nat, keep: bool, content: Bytes, hashed: Bytes)
      requires Valid() && budgetLeft > 0 && body.Stream?
      modifies this
      ensures Valid() && chain == old(chain)
      ensures var r := ReadOn(body.pieces, body.corrupt, [], old(budgetLeft), job.limits.maxMember);
              && consumed <= old(consumed) + ReadTotal(r)
              && (stop.Some? ==> log == old(log))
              && (stop == None ==> consumed == old(consumed) + ReadTotal(r) && done == !r.Whole?)
              && (stop == None && !done ==>
                    (log == old(log) && Budgeted() == old(Budgeted())
                     && hashed == r.bytes && total == |r.bytes| <= budgetLeft
                     && (if keep then Some(content) else None) == Content(job, r.bytes)))
              && (stop == None && done ==>
                    (log == old(log) + CutShort(old(Budgeted()), r, chain, at).events
                     && Budgeted() == CutShort(old(Budgeted()), r, chain, at).budget))
    {
      ghost var before := Budgeted();
      content, keep, hashed := [], true, [];
      total, done := 0, false;
      var next := 0;
      while true
        invariant Valid() && chain == old(chain) && log == old(log) && Budgeted() == before
        invariant next <= |body.pieces| && total == |hashed| <= budgetLeft && total <= job.limits.maxMember
        invariant consumed == old(consumed) + total
        invariant keep == (total <= job.limits.maxContent) && (keep ==> content == hashed)
        invariant ReadOn(body.pieces[next..], body.corrupt, hashed, budgetLeft, job.limits.maxMember)
               == ReadOn(body.pieces, body.corrupt, [], before.left, job.limits.maxMember)
        invariant total <= ReadTotal(ReadOn(body.pieces, body.corrupt, [], before.left, job.limits.maxMember))
        decreases |body.pieces| - next
      {
        stop := Check();
        if stop.Some? {
          return;
        }
        if next == |body.pieces| {
          if body.corrupt {
            Visit(Error(chain), at, true, false);
            budgetLeft := LessAtMost(budgetLeft, total);
            done := true;
          }
          return;
        }
        var piece := body.pieces[next];
        ReadOnGrows(body.pieces[next..], body.corrupt, hashed, budgetLeft, job.limits.maxMember);
        next := next + 1;
        total := total + |piece|;
        consumed := consumed + |piece|;
        if total > budgetLeft {
          budgetLeft := 0;
          budgetReported := true;
          Visit(Skipped(chain, LimitReached), at, true, true);
          done := true;
          return;
        }
        if total > job.limits.maxMember {
          budgetLeft := budgetLeft - total;
          Visit(Skipped(chain, TooBig), at, true, false);
          done := true;
          return;
        }
        hashed := hashed + piece;
        if keep {
          if total > job.limits.maxContent {
            keep, content := false, [];
          } else {
            content := content + piece;
          }
        }
      }
    }
  }

  /** A member's reads add up to at least the next one. */
  lemma {:induction false} ReadOnGrows(pieces: seq<Piece>, corrupt: bool, sofar: Bytes, left: nat, max: nat)
    ensures |sofar| <= ReadTotal(ReadOn(pieces, corrupt, sofar, left, max))
    ensures pieces != [] ==> |sofar| + |pieces[0]| <= ReadTotal(ReadOn(pieces, corrupt, sofar, left, max))
    decreases |pieces|
  {
    if pieces != [] {
      ReadOnGrows(pieces[1..], corrupt, sofar + pieces[0], left, max);
    }
  }
}
