/** What every expansion keeps to: the budget, the nesting limit, and reporting
    each entry once. */
module ArchiveTheorems {
  import opened Wrappers
  import opened ArchiveRuns

  // ---- Measures of a run.

  /** Bytes of members delivered whole. */
  function Delivered(events: seq<Reported>): (n: nat) {
    if events == [] then 0
    else (if events[0].event.Member? then events[0].event.size else 0) + Delivered(events[1..])
  }

  function Notices(events: seq<Reported>): (n: nat) {
    if events == [] then 0 else (if events[0].exhausted then 1 else 0) + Notices(events[1..])
  }

  /** The results reported for the entry at `p`. */
  function ResultsAt(events: seq<Reported>, p: seq<nat>): (here: seq<Reported>) {
    if events == [] then []
    else HeadAt(events[0], p) + ResultsAt(events[1..], p)
  }

  lemma {:induction false} DeliveredJoin(a: seq<Reported>, b: seq<Reported>)
    ensures Delivered(a + b) == Delivered(a) + Delivered(b)
    ensures Notices(a + b) == Notices(a) + Notices(b)
  {
    if a == [] {
      assert a + b == b;
    } else {
      DeliveredJoin(a[1..], b);
      assert (a + b)[1..] == a[1..] + b;
    }
  }

  /** The result at the head of `events`, if it is for `p`. */
  function HeadAt(e: Reported, p: seq<nat>): (here: seq<Reported>) {
    if e.result && e.at == p then [e] else []
  }

  lemma {:induction false} ResultsJoin(a: seq<Reported>, b: seq<Reported>, p: seq<nat>)
    ensures ResultsAt(a + b, p) == ResultsAt(a, p) + ResultsAt(b, p)
  {
    hide HeadAt;
    if a == [] {
      assert a + b == b;
    } else {
      ResultsJoin(a[1..], b, p);
      assert (a + b)[1..] == a[1..] + b && (a + b)[0] == a[0];
      Associative(HeadAt(a[0], p), ResultsAt(a[1..], p), ResultsAt(b, p));
    }
  }

  lemma Associative(a: seq<Reported>, b: seq<Reported>, c: seq<Reported>)
    ensures a + (b + c) == a + b + c
  {
  }

  lemma {:induction false} ResultsElsewhere(events: seq<Reported>, p: seq<nat>)
    requires forall e :: e in events && e.result ==> e.at != p
    ensures ResultsAt(events, p) == []
  {
    if events != [] {
      ResultsElsewhere(events[1..], p);
    }
  }

  function ChainOf(e: Event): (chain: seq<Name>) {
    match e
    case Member(chain, _, _, _) => chain
    case Skipped(chain, _) => chain
    case Error(chain) => chain
  }

  // ---- The budget.

  ghost predicate BudgetOk(b: Budget) {
    b.reported ==> b.left == 0
  }

  /** Members delivered are paid for; at most one read goes past the budget, and
      none once it is used up; running out is reported once. */
  ghost predicate Paid(b: Budget, r: Run) {
    && BudgetOk(r.budget)
    && Delivered(r.events) + r.budget.left <= b.left
    && r.read + r.budget.left <= b.left + (if r.budget.left == 0 then CHUNK else 0)
    && (b.left == 0 ==> r.read == 0)
    && (b.reported ==> r.budget.reported)
    && Notices(r.events) == (if r.budget.reported && !b.reported then 1 else 0)
  }

  lemma PaidThen(b: Budget, first: Run, second: Run)
    requires BudgetOk(b) && Paid(b, first) && Paid(first.budget, second)
    ensures Paid(b, Then(first, second))
  {
    DeliveredJoin(first.events, second.events);
  }

  lemma PaidOne(b: Budget, e: Event, at: seq<nat>, result: bool)
    requires BudgetOk(b) && !e.Member?
    ensures Paid(b, One(e, at, result, b, 0)) && Paid(b, Nothing(b))
  {
  }

  /** Reading stops within one piece of the budget. */
  lemma {:induction false} ReadOnBound(pieces: seq<Piece>, corrupt: bool, sofar: Bytes, left: nat, max: nat)
    requires |sofar| <= left
    ensures var r := ReadOn(pieces, corrupt, sofar, left, max);
            && ReadTotal(r) <= left + (if r.OverBudget? then CHUNK else 0)
            && (r.OverBudget? ==> left < ReadTotal(r))
  {
    if pieces != [] && |sofar + pieces[0]| <= left {
      ReadOnBound(pieces[1..], corrupt, sofar + pieces[0], left, max);
    }
  }

  lemma {:induction false} ExpandPays(job: Job, b: Budget, data: Bytes, chain: seq<Name>, at: seq<nat>, depth: nat, strict: bool)
    requires BudgetOk(b)
    ensures Paid(b, ExpandRun(job, b, data, chain, at, depth, strict))
    decreases LevelsLeft(job, depth), 4, 0
  {
    hide Paid;
    PaidOne(b, Error(chain), at, false);
    PaidOne(b, Skipped(chain, LimitReached), at, false);
    match job.parse(data)
    case None =>
    case Some(entries) =>
      EntriesPay(job, b, entries, 0, chain, at, depth);
      PaidThen(b, if |entries| > job.limits.maxEntries then One(Skipped(chain, LimitReached), at, false, b, 0) else Nothing(b),
               EntriesRun(job, b, entries, 0, chain, at, depth));
  }

  lemma {:induction false} EntriesPay(job: Job, b: Budget, entries: seq<Entry>, i: nat, chain: seq<Name>, at: seq<nat>, depth: nat)
    requires BudgetOk(b)
    ensures Paid(b, EntriesRun(job, b, entries, i, chain, at, depth))
    decreases LevelsLeft(job, depth), 3, |entries| - i
  {
    if i < Within(job, entries) && b.left > 0 {
      EntryPays(job, b, entries[i], chain, at + [i], depth);
      var first := EntryRun(job, b, entries[i], chain, at + [i], depth);
      EntriesPay(job, first.budget, entries, i + 1, chain, at, depth);
      PaidThen(b, first, EntriesRun(job, first.budget, entries, i + 1, chain, at, depth));
    }
  }

  lemma {:induction false} EntryPays(job: Job, b: Budget, entry: Entry, chain: seq<Name>, at: seq<nat>, depth: nat)
    requires BudgetOk(b) && b.left > 0
    ensures Paid(b, EntryRun(job, b, entry, chain, at, depth))
    decreases LevelsLeft(job, depth), 2, 0
  {
    if entry.meta.Some? {
      MemberPays(job, b, entry.body, chain + [entry.meta.value.name], at, depth);
    }
  }

  lemma {:induction false} MemberPays(job: Job, b: Budget, body: Body, chain: seq<Name>, at: seq<nat>, depth: nat)
    requires BudgetOk(b) && b.left > 0
    ensures Paid(b, MemberRun(job, b, body, chain, at, depth))
    decreases LevelsLeft(job, depth), 1, 0
  {
    if body.Stream? {
      ReadOnBound(body.pieces, body.corrupt, [], b.left, job.limits.maxMember);
      var r := ReadOn(body.pieces, body.corrupt, [], b.left, job.limits.maxMember);
      if r.Whole? {
        var after := Charge(b, |r.bytes|);
        NestedPays(job, after, r.bytes, chain, at, depth);
        PaidThen(b, One(Member(chain, job.sha(r.bytes), |r.bytes|, Content(job, r.bytes)), at, true, after, |r.bytes|),
                 NestedRun(job, after, r.bytes, chain, at, depth));
      }
    }
  }

  lemma {:induction false} NestedPays(job: Job, b: Budget, bytes: Bytes, chain: seq<Name>, at: seq<nat>, depth: nat)
    requires BudgetOk(b)
    ensures Paid(b, NestedRun(job, b, bytes, chain, at, depth))
    decreases LevelsLeft(job, depth), 0, 0
  {
    if Nested(job, bytes) && depth < job.limits.maxDepth {
      ExpandPays(job, b, bytes, chain, at, depth + 1, true);
    }
  }

  /** The bomb budget: whatever the archive claims, the members delivered are at
      most `maxTotal` bytes, the decompressor is asked for at most one read
      more, and running out is reported exactly once. */
  lemma BombBudget(job: Job, data: Bytes)
    ensures var r := FileRun(job, data);
            && Delivered(r.events) <= job.limits.maxTotal
            && r.read <= job.limits.maxTotal + CHUNK
            && Notices(r.events) == (if r.budget.reported then 1 else 0)
  {
    ExpandPays(job, Budget(job.limits.maxTotal, false), data, [], [], 1, LooksLikeZip(data));
  }

  // ---- Nesting.

  function Deepest(job: Job, depth: nat): (d: nat) {
    if depth < job.limits.maxDepth then job.limits.maxDepth else depth
  }

  /** Everything a run reports is under `chain` and `at`; the chain of a member
      names one entry for each index of its position, as many as it is deep. */
  ghost predicate Under(job: Job, chain: seq<Name>, at: seq<nat>, depth: nat, events: seq<Reported>) {
    forall e :: e in events ==>
      && chain <= ChainOf(e.event) && at <= e.at
      && |ChainOf(e.event)| <= Deepest(job, depth)
      && (e.event.Member? ==> |e.event.chain| == |e.at|)
  }

  lemma {:induction false} ExpandNests(job: Job, b: Budget, data: Bytes, chain: seq<Name>, at: seq<nat>, depth: nat, strict: bool)
    requires depth > 0 && |chain| == |at| == depth - 1
    ensures Under(job, chain, at, depth, ExpandRun(job, b, data, chain, at, depth, strict).events)
    decreases LevelsLeft(job, depth), 4, 0
  {
    match job.parse(data)
    case None =>
    case Some(entries) => EntriesNest(job, b, entries, 0, chain, at, depth);
  }

  lemma {:induction false} EntriesNest(job: Job, b: Budget, entries: seq<Entry>, i: nat, chain: seq<Name>, at: seq<nat>, depth: nat)
    requires depth > 0 && |chain| == |at| == depth - 1
    ensures Under(job, chain, at, depth, EntriesRun(job, b, entries, i, chain, at, depth).events)
    decreases LevelsLeft(job, depth), 3, |entries| - i
  {
    if i < Within(job, entries) && b.left > 0 {
      EntryNests(job, b, entries[i], chain, at, i, depth);
      var first := EntryRun(job, b, entries[i], chain, at + [i], depth);
      EntriesNest(job, first.budget, entries, i + 1, chain, at, depth);
    }
  }

  lemma {:induction false} EntryNests(job: Job, b: Budget, entry: Entry, chain: seq<Name>, at: seq<nat>, i: nat, depth: nat)
    requires depth > 0 && |chain| == |at| == depth - 1
    ensures Under(job, chain, at + [i], depth, EntryRun(job, b, entry, chain, at + [i], depth).events)
    decreases LevelsLeft(job, depth), 2, 0
  {
    if entry.meta.Some? {
      var longer := chain + [entry.meta.value.name];
      MemberNests(job, b, entry.body, longer, at + [i], depth);
      assert chain <= longer;
    }
  }

  lemma {:induction false} MemberNests(job: Job, b: Budget, body: Body, chain: seq<Name>, at: seq<nat>, depth: nat)
    requires depth > 0 && |chain| == |at| == depth
    ensures Under(job, chain, at, depth, MemberRun(job, b, body, chain, at, depth).events)
    decreases LevelsLeft(job, depth), 1, 0
  {
    if body.Stream? {
      var r := ReadOn(body.pieces, body.corrupt, [], b.left, job.limits.maxMember);
      if r.Whole? && Nested(job, r.bytes) && depth < job.limits.maxDepth {
        ExpandNests(job, Charge(b, |r.bytes|), r.bytes, chain, at, depth + 1, true);
      }
    }
  }

  /** No member is reported deeper than the limit, nor under a name that is not
      the way to it. */
  lemma NestingLimit(job: Job, data: Bytes)
    ensures forall e :: e in FileRun(job, data).events ==>
              && |ChainOf(e.event)| <= Deepest(job, 1)
              && (e.event.Member? ==> |e.event.chain| == |e.at|)
  {
    ExpandNests(job, Budget(job.limits.maxTotal, false), data, [], [], 1, LooksLikeZip(data));
  }

  // ---- Coverage.

  predicate IsDir(entry: Entry) {
    entry.meta.Some? && entry.meta.value.isDir
  }

  /** The archive inside the one member reported here, if it is expanded. */
  function Inside(job: Job, here: seq<Reported>, depth: nat): (data: Option<Bytes>) {
    if |here| == 1 && here[0].event.Member? && here[0].event.content.Some?
       && LooksLikeZip(here[0].event.content.value) && depth < job.limits.maxDepth
    then here[0].event.content else None
  }

  /** Every entry of the archive within the limit has exactly one result, and
      folders none, unless the budget ran out and the entry has none; and so for
      every archive that is expanded inside it. */
  ghost predicate Covered(job: Job, events: seq<Reported>, exhausted: bool, data: Bytes, at: seq<nat>, depth: nat)
    decreases LevelsLeft(job, depth), 1
  {
    job.parse(data).Some? ==>
      forall k :: 0 <= k < Within(job, job.parse(data).value) ==>
        EntryCovered(job, events, exhausted, job.parse(data).value[k], at + [k], depth)
  }

  ghost predicate EntryCovered(job: Job, events: seq<Reported>, exhausted: bool, entry: Entry, p: seq<nat>, depth: nat)
    decreases LevelsLeft(job, depth), 0
  {
    var here := ResultsAt(events, p);
    && (if IsDir(entry) then here == [] else |here| == 1 || (here == [] && exhausted))
    && (Inside(job, here, depth).Some? ==> Covered(job, events, exhausted, Inside(job, here, depth).value, p, depth + 1))
  }

  /** What else is reported elsewhere does not matter. */
  ghost predicate SameUnder(small: seq<Reported>, large: seq<Reported>, p: seq<nat>) {
    forall q :: p <= q ==> ResultsAt(large, q) == ResultsAt(small, q)
  }

  lemma {:induction false} CoveredWiden(job: Job, small: seq<Reported>, large: seq<Reported>, x: bool, y: bool, data: Bytes, at: seq<nat>, depth: nat)
    requires Covered(job, small, x, data, at, depth) && (x ==> y) && SameUnder(small, large, at)
    ensures Covered(job, large, y, data, at, depth)
    decreases LevelsLeft(job, depth), 1
  {
    if job.parse(data).Some? {
      var entries := job.parse(data).value;
      forall k | 0 <= k < Within(job, entries)
        ensures EntryCovered(job, large, y, entries[k], at + [k], depth)
      {
        assert EntryCovered(job, small, x, entries[k], at + [k], depth);
        EntryWiden(job, small, large, x, y, entries[k], at + [k], depth);
      }
    }
  }

  lemma {:induction false} EntryWiden(job: Job, small: seq<Reported>, large: seq<Reported>, x: bool, y: bool, entry: Entry, p: seq<nat>, depth: nat)
    requires EntryCovered(job, small, x, entry, p, depth) && (x ==> y) && SameUnder(small, large, p)
    ensures EntryCovered(job, large, y, entry, p, depth)
    decreases LevelsLeft(job, depth), 0
  {
    assert ResultsAt(large, p) == ResultsAt(small, p);
    var inner := Inside(job, ResultsAt(small, p), depth);
    if inner.Some? {
      CoveredWiden(job, small, large, x, y, inner.value, p, depth + 1);
    }
  }

  /** The results of a run over an archive at `at` are of entries below it. */
  ghost predicate Below(at: seq<nat>, from: nat, events: seq<Reported>) {
    forall e :: e in events && e.result ==> at < e.at && e.at[|at|] >= from
  }

  lemma {:induction false} ExpandBelow(job: Job, b: Budget, data: Bytes, chain: seq<Name>, at: seq<nat>, depth: nat, strict: bool)
    ensures Below(at, 0, ExpandRun(job, b, data, chain, at, depth, strict).events)
    decreases LevelsLeft(job, depth), 4, 0
  {
    match job.parse(data)
    case None =>
    case Some(entries) => EntriesBelow(job, b, entries, 0, chain, at, depth);
  }

  lemma {:induction false} EntriesBelow(job: Job, b: Budget, entries: seq<Entry>, i: nat, chain: seq<Name>, at: seq<nat>, depth: nat)
    ensures Below(at, i, EntriesRun(job, b, entries, i, chain, at, depth).events)
    decreases LevelsLeft(job, depth), 3, |entries| - i
  {
    if i < Within(job, entries) && b.left > 0 {
      EntryBelow(job, b, entries[i], chain, at + [i], depth);
      var first := EntryRun(job, b, entries[i], chain, at + [i], depth);
      EntriesBelow(job, first.budget, entries, i + 1, chain, at, depth);
      forall e | e in first.events && e.result
        ensures at < e.at && e.at[|at|] == i
      {
        assert (at + [i])[|at|] == i && at + [i] <= e.at;
      }
    }
  }

  lemma {:induction false} EntryBelow(job: Job, b: Budget, entry: Entry, chain: seq<Name>, at: seq<nat>, depth: nat)
    ensures forall e :: e in EntryRun(job, b, entry, chain, at, depth).events && e.result ==> at <= e.at
    decreases LevelsLeft(job, depth), 2, 0
  {
    if entry.meta.Some? {
      MemberBelow(job, b, entry.body, chain + [entry.meta.value.name], at, depth);
    }
  }

  lemma {:induction false} MemberBelow(job: Job, b: Budget, body: Body, chain: seq<Name>, at: seq<nat>, depth: nat)
    ensures forall e :: e in MemberRun(job, b, body, chain, at, depth).events && e.result ==> at <= e.at
    decreases LevelsLeft(job, depth), 1, 0
  {
    if body.Stream? {
      var r := ReadOn(body.pieces, body.corrupt, [], b.left, job.limits.maxMember);
      if r.Whole? && Nested(job, r.bytes) && depth < job.limits.maxDepth {
        ExpandBelow(job, Charge(b, |r.bytes|), r.bytes, chain, at, depth + 1, true);
      }
    }
  }

  lemma {:induction false} ExpandCovers(job: Job, b: Budget, data: Bytes, chain: seq<Name>, at: seq<nat>, depth: nat, strict: bool)
    requires BudgetOk(b)
    ensures var r := ExpandRun(job, b, data, chain, at, depth, strict);
            Covered(job, r.events, r.budget.reported, data, at, depth)
    decreases LevelsLeft(job, depth), 4, 0
  {
    match job.parse(data)
    case None =>
    case Some(entries) =>
      var r := ExpandRun(job, b, data, chain, at, depth, strict);
      var inner := EntriesRun(job, b, entries, 0, chain, at, depth);
      EntriesCover(job, b, entries, 0, chain, at, depth);
      forall k | 0 <= k < Within(job, entries)
        ensures EntryCovered(job, r.events, r.budget.reported, entries[k], at + [k], depth)
      {
        forall q | at + [k] <= q
          ensures ResultsAt(r.events, q) == ResultsAt(inner.events, q)
        {
          var notice := if |entries| > job.limits.maxEntries then One(Skipped(chain, LimitReached), at, false, b, 0) else Nothing(b);
          ResultsJoin(notice.events, inner.events, q);
        }
        EntryWiden(job, inner.events, r.events, inner.budget.reported, r.budget.reported, entries[k], at + [k], depth);
      }
  }

  lemma {:induction false} EntriesCover(job: Job, b: Budget, entries: seq<Entry>, i: nat, chain: seq<Name>, at: seq<nat>, depth: nat)
    requires BudgetOk(b)
    ensures var r := EntriesRun(job, b, entries, i, chain, at, depth);
            forall k :: i <= k < Within(job, entries) ==> EntryCovered(job, r.events, r.budget.reported, entries[k], at + [k], depth)
    decreases LevelsLeft(job, depth), 3, |entries| - i
  {
    hide Below, EntryCovered, SameUnder;
    if i >= Within(job, entries) {
    } else if b.left == 0 {
      NoneLeft(job, b, entries, i, chain, at, depth);
    } else {
      EntryCovers(job, b, entries[i], chain, at + [i], depth);
      EntryPays(job, b, entries[i], chain, at + [i], depth);
      var first := EntryRun(job, b, entries[i], chain, at + [i], depth);
      var rest := EntriesRun(job, first.budget, entries, i + 1, chain, at, depth);
      EntriesCover(job, first.budget, entries, i + 1, chain, at, depth);
      EntriesPay(job, first.budget, entries, i + 1, chain, at, depth);
      EntryBelow(job, b, entries[i], chain, at + [i], depth);
      EntriesBelow(job, first.budget, entries, i + 1, chain, at, depth);
      Apart(first.events, rest.events, at, i);
      forall k | i <= k < Within(job, entries)
        ensures EntryCovered(job, Then(first, rest).events, rest.budget.reported, entries[k], at + [k], depth)
      {
        if k == i {
          EntryWiden(job, first.events, first.events + rest.events, first.budget.reported, rest.budget.reported, entries[k], at + [k], depth);
        } else {
          EntryWiden(job, rest.events, first.events + rest.events, rest.budget.reported, rest.budget.reported, entries[k], at + [k], depth);
        }
      }
    }
  }

  lemma NoneLeft(job: Job, b: Budget, entries: seq<Entry>, i: nat, chain: seq<Name>, at: seq<nat>, depth: nat)
    requires b.left == 0 && i < Within(job, entries)
    ensures var r := EntriesRun(job, b, entries, i, chain, at, depth);
            forall k :: i <= k < Within(job, entries) ==> EntryCovered(job, r.events, r.budget.reported, entries[k], at + [k], depth)
  {
    var r := EntriesRun(job, b, entries, i, chain, at, depth);
    forall k | i <= k < Within(job, entries)
      ensures EntryCovered(job, r.events, r.budget.reported, entries[k], at + [k], depth)
    {
      ResultsElsewhere(r.events, at + [k]);
    }
  }

  /** Results of one entry and of later ones are apart. */
  lemma Apart(first: seq<Reported>, rest: seq<Reported>, at: seq<nat>, i: nat)
    requires forall e :: e in first && e.result ==> at + [i] <= e.at
    requires Below(at, i + 1, rest)
    ensures SameUnder(first, first + rest, at + [i])
    ensures forall k :: k > i ==> SameUnder(rest, first + rest, at + [k])
  {
    forall q | at + [i] <= q
      ensures ResultsAt(first + rest, q) == ResultsAt(first, q)
    {
      assert q[|at|] == (at + [i])[|at|];
      ResultsElsewhere(rest, q);
      ResultsJoin(first, rest, q);
    }
    forall k: nat, q | k > i && at + [k] <= q
      ensures ResultsAt(first + rest, q) == ResultsAt(rest, q)
    {
      assert q[|at|] == (at + [k])[|at|];
      forall e | e in first && e.result
        ensures e.at != q
      {
        assert e.at[|at|] == (at + [i])[|at|];
      }
      ResultsElsewhere(first, q);
      ResultsJoin(first, rest, q);
    }
  }

  lemma {:induction false} EntryCovers(job: Job, b: Budget, entry: Entry, chain: seq<Name>, at: seq<nat>, depth: nat)
    requires BudgetOk(b) && b.left > 0
    ensures var r := EntryRun(job, b, entry, chain, at, depth);
            EntryCovered(job, r.events, r.budget.reported, entry, at, depth)
    decreases LevelsLeft(job, depth), 2, 0
  {
    if entry.meta.Some? && !entry.meta.value.isDir {
      MemberCovers(job, b, entry.body, chain + [entry.meta.value.name], at, depth, entry);
    }
  }

  lemma {:induction false} MemberCovers(job: Job, b: Budget, body: Body, chain: seq<Name>, at: seq<nat>, depth: nat, entry: Entry)
    requires BudgetOk(b) && b.left > 0 && !IsDir(entry)
    ensures var r := MemberRun(job, b, body, chain, at, depth);
            EntryCovered(job, r.events, r.budget.reported, entry, at, depth)
    decreases LevelsLeft(job, depth), 1, 0
  {
    if body.Stream? {
      var r := ReadOn(body.pieces, body.corrupt, [], b.left, job.limits.maxMember);
      ReadOnBound(body.pieces, body.corrupt, [], b.left, job.limits.maxMember);
      if r.Whole? {
        var after := Charge(b, |r.bytes|);
        var member := Reported(Member(chain, job.sha(r.bytes), |r.bytes|, Content(job, r.bytes)), at, true, false);
        var nested := NestedRun(job, after, r.bytes, chain, at, depth);
        WholeCovers(job, after, r.bytes, chain, at, depth, entry, member);
      }
    }
  }

  lemma {:induction false} WholeCovers(job: Job, after: Budget, bytes: Bytes, chain: seq<Name>, at: seq<nat>, depth: nat, entry: Entry, member: Reported)
    requires BudgetOk(after) && !IsDir(entry)
    requires member.result && member.at == at && member.event.Member? && member.event.content == Content(job, bytes)
    ensures var nested := NestedRun(job, after, bytes, chain, at, depth);
            EntryCovered(job, [member] + nested.events, nested.budget.reported, entry, at, depth)
    decreases LevelsLeft(job, depth), 0, 0
  {
    var nested := NestedRun(job, after, bytes, chain, at, depth);
    var all := [member] + nested.events;
    ResultsJoin([member], nested.events, at);
    if Nested(job, bytes) && depth < job.limits.maxDepth {
      ExpandCovers(job, after, bytes, chain, at, depth + 1, true);
      ExpandBelow(job, after, bytes, chain, at, depth + 1, true);
      ResultsElsewhere(nested.events, at);
      if job.parse(bytes).Some? {
        var entries := job.parse(bytes).value;
        forall k | 0 <= k < Within(job, entries)
          ensures EntryCovered(job, all, nested.budget.reported, entries[k], at + [k], depth + 1)
        {
          forall q | at + [k] <= q
            ensures ResultsAt(all, q) == ResultsAt(nested.events, q)
          {
            ResultsJoin([member], nested.events, q);
          }
          EntryWiden(job, nested.events, all, nested.budget.reported, nested.budget.reported, entries[k], at + [k], depth + 1);
        }
      }
    } else {
      ResultsElsewhere(nested.events, at);
    }
    assert ResultsAt([member], at) == [member];
  }

  /** An expansion that runs to its end leaves no entry out. */
  lemma FullCoverage(job: Job, data: Bytes)
    ensures var r := FileRun(job, data);
            Covered(job, r.events, Notices(r.events) == 1, data, [], 1)
  {
    BombBudget(job, data);
    ExpandCovers(job, Budget(job.limits.maxTotal, false), data, [], [], 1, LooksLikeZip(data));
  }

  // ---- What reading a member comes to.

  function Joined(pieces: seq<Piece>): (bytes: Bytes) {
    if pieces == [] then [] else pieces[0] + Joined(pieces[1..])
  }

  /** However it is cut into reads, a member is delivered whole exactly when it
      is intact and within both limits. */
  lemma {:induction false} WholeExactlyWhen(pieces: seq<Piece>, corrupt: bool, sofar: Bytes, left: nat, max: nat)
    requires |sofar| <= left && |sofar| <= max
    ensures var r := ReadOn(pieces, corrupt, sofar, left, max);
            var all := sofar + Joined(pieces);
            (r.Whole? <==> !corrupt && |all| <= left && |all| <= max) && (r.Whole? ==> r.bytes == all)
  {
    if pieces != [] {
      assert sofar + Joined(pieces) == (sofar + pieces[0]) + Joined(pieces[1..]);
      if |sofar + pieces[0]| <= left && |sofar + pieces[0]| <= max {
        WholeExactlyWhen(pieces[1..], corrupt, sofar + pieces[0], left, max);
      }
    }
  }
}
