/** The coordinator's running totals and the bounded lists of the report. */
module Aggregation {
  import opened Wrappers

  /** `Finding`, `Issue`, `Path` and `Reason` are whatever the engine reports. */
  datatype SkipEntry<Path, Reason> = SkipEntry(path: Path, reason: Reason, member: Option<seq<Path>>)

  datatype Msg<Finding, Issue, Path, Reason> =
    | Directory
    | Scanned(path: Path, bytes: nat, findings: seq<Finding>, issues: seq<Issue>,
              skips: seq<(Reason, Option<seq<Path>>)>, members: nat)
    | Skipped(path: Path, reason: Reason)
    | IssueFound(issue: Issue)
    | Exited

  /** Everything a message reports, in order. */
  function FindingsOf<F, I, P, R>(m: Msg<F, I, P, R>): (fs: seq<F>) {
    if m.Scanned? then m.findings else []
  }

  function IssuesOf<F, I, P, R>(m: Msg<F, I, P, R>): (issues: seq<I>) {
    match m
    case Scanned(_, _, _, issues, _, _) => issues
    case IssueFound(i) => [i]
    case _ => []
  }

  function SkipsOf<F, I, P, R>(m: Msg<F, I, P, R>): (skips: seq<SkipEntry<P, R>>) {
    match m
    case Scanned(path, _, _, _, skips, _) =>
      seq(|skips|, i requires 0 <= i < |skips| => SkipEntry(path, skips[i].0, skips[i].1))
    case Skipped(path, reason) => [SkipEntry(path, reason, None)]
    case _ => []
  }

  /** The first `max` of `all`. */
  function Kept<T>(all: seq<T>, max: nat): (kept: seq<T>) {
    if |all| <= max then all else all[..max]
  }

  function SkippedFor<P, R(==)>(all: seq<SkipEntry<P, R>>, reason: R): (n: nat) {
    if all == [] then 0
    else SkippedFor(all[..|all| - 1], reason) + (if all[|all| - 1].reason == reason then 1 else 0)
  }

  lemma SkippedForMore<P, R>(all: seq<SkipEntry<P, R>>, e: SkipEntry<P, R>)
    ensures forall r :: SkippedFor(all + [e], r) == SkippedFor(all, r) + (if e.reason == r then 1 else 0)
  {
    assert (all + [e])[..|all|] == all;
  }

  function Filed<R(==)>(counts: map<R, nat>, r: R): (n: nat) {
    if r in counts then counts[r] else 0
  }

  /** `after` begins with `before`, and is no longer once `max` was reached. */
  ghost predicate Grown<T>(before: seq<T>, after: seq<T>, max: nat) {
    before <= after && (|before| >= max ==> after == before)
  }

  lemma GrownNot<T>(list: seq<T>, max: nat)
    ensures Grown(list, list, max)
  {
  }

  class Aggregator<Finding, Issue, Path, Reason(==, !new)> {
    var directoriesVisited: nat
    var filesScanned: nat
    var bytesScanned: nat
    var membersScanned: nat
    var findingsSeen: nat
    var entriesSkipped: nat
    var skippedByReason: map<Reason, nat>
    var issuesSeen: nat
    var findings: seq<Finding>
    var skipped: seq<SkipEntry<Path, Reason>>
    var issues: seq<Issue>
    var findingsOmitted: nat
    var skippedOmitted: nat
    var issuesOmitted: nat
    const maxEntries: nat
    const maxFindings: nat
    /** Everything reported so far. */
    ghost var allFindings: seq<Finding>
    ghost var allSkipped: seq<SkipEntry<Path, Reason>>
    ghost var allIssues: seq<Issue>

    constructor (maxEntries: nat, maxFindings: nat)
      ensures Valid() && this.maxEntries == maxEntries && this.maxFindings == maxFindings
      ensures allFindings == [] && allSkipped == [] && allIssues == []
      ensures directoriesVisited == filesScanned == bytesScanned == membersScanned == 0
    {
      this.maxEntries, this.maxFindings := maxEntries, maxFindings;
      directoriesVisited, filesScanned, bytesScanned, membersScanned := 0, 0, 0, 0;
      findingsSeen, entriesSkipped, skippedByReason, issuesSeen := 0, 0, map[], 0;
      findings, skipped, issues := [], [], [];
      findingsOmitted, skippedOmitted, issuesOmitted := 0, 0, 0;
      allFindings, allSkipped, allIssues := [], [], [];
    }

    /** The statistics count everything; the lists hold the first of it; what
        they leave out is counted. */
    ghost predicate Valid()
      reads `findingsSeen, `findings, `findingsOmitted, `allFindings
      reads `entriesSkipped, `skippedByReason, `skipped, `skippedOmitted, `allSkipped
      reads `issuesSeen, `issues, `issuesOmitted, `allIssues
    {
      && findingsSeen == |allFindings| && findings == Kept(allFindings, maxFindings)
      && entriesSkipped == |allSkipped| && skipped == Kept(allSkipped, maxEntries)
      && issuesSeen == |allIssues| && issues == Kept(allIssues, maxEntries)
      && |findings| + findingsOmitted == findingsSeen
      && |skipped| + skippedOmitted == entriesSkipped
      && |issues| + issuesOmitted == issuesSeen
      && (forall r :: Filed(skippedByReason, r) == SkippedFor(allSkipped, r))
    }

    method Skip(path: Path, reason: Reason, member: Option<seq<Path>>)
      requires Valid()
      modifies `entriesSkipped, `skippedByReason, `skipped, `skippedOmitted, `allSkipped
      ensures Valid() && allSkipped == old(allSkipped) + [SkipEntry(path, reason, member)] && Grown(old(skipped), skipped, maxEntries)
    {
      SkippedForMore(allSkipped, SkipEntry(path, reason, member));
      entriesSkipped := entriesSkipped + 1;
      skippedByReason := skippedByReason[reason := Filed(skippedByReason, reason) + 1];
      if |skipped| < maxEntries {
        skipped := skipped + [SkipEntry(path, reason, member)];
      } else {
        skippedOmitted := skippedOmitted + 1;
      }
      allSkipped := allSkipped + [SkipEntry(path, reason, member)];
    }

    method AddFinding(f: Finding)
      requires Valid()
      modifies `findingsSeen, `findings, `findingsOmitted, `allFindings
      ensures Valid() && allFindings == old(allFindings) + [f] && Grown(old(findings), findings, maxFindings)
    {
      findingsSeen := findingsSeen + 1;
      if |findings| < maxFindings {
        findings := findings + [f];
      } else {
        findingsOmitted := findingsOmitted + 1;
      }
      allFindings := allFindings + [f];
    }

    method AddIssue(i: Issue)
      requires Valid()
      modifies `issuesSeen, `issues, `issuesOmitted, `allIssues
      ensures Valid() && allIssues == old(allIssues) + [i] && Grown(old(issues), issues, maxEntries)
    {
      issuesSeen := issuesSeen + 1;
      if |issues| < maxEntries {
        issues := issues + [i];
      } else {
        issuesOmitted := issuesOmitted + 1;
      }
      allIssues := allIssues + [i];
    }

    method AddFindings(found: seq<Finding>)
      requires Valid()
      modifies `findingsSeen, `findings, `findingsOmitted, `allFindings
      ensures Valid() && allFindings == old(allFindings) + found && Grown(old(findings), findings, maxFindings)
    {
      hide Valid;
      for k := 0 to |found|
        invariant Valid() && allFindings == old(allFindings) + found[..k] && Grown(old(findings), findings, maxFindings)
      {
        AddFinding(found[k]);
      }
    }

    method AddIssues(wrong: seq<Issue>)
      requires Valid()
      modifies `issuesSeen, `issues, `issuesOmitted, `allIssues
      ensures Valid() && allIssues == old(allIssues) + wrong && Grown(old(issues), issues, maxEntries)
    {
      hide Valid;
      for k := 0 to |wrong|
        invariant Valid() && allIssues == old(allIssues) + wrong[..k] && Grown(old(issues), issues, maxEntries)
      {
        AddIssue(wrong[k]);
      }
    }

    method AddSkips(m: Msg<Finding, Issue, Path, Reason>)
      requires Valid() && m.Scanned?
      modifies `entriesSkipped, `skippedByReason, `skipped, `skippedOmitted, `allSkipped
      ensures Valid() && allSkipped == old(allSkipped) + SkipsOf(m) && Grown(old(skipped), skipped, maxEntries)
    {
      hide Valid;
      for k := 0 to |m.skips|
        invariant Valid() && allSkipped == old(allSkipped) + SkipsOf(m)[..k] && Grown(old(skipped), skipped, maxEntries)
      {
        Skip(m.path, m.skips[k].0, m.skips[k].1);
      }
    }

    /** What scanning one file found. */
    method AddFile(m: Msg<Finding, Issue, Path, Reason>)
      requires Valid() && m.Scanned?
      modifies `findingsSeen, `findings, `findingsOmitted, `allFindings
      modifies `entriesSkipped, `skippedByReason, `skipped, `skippedOmitted, `allSkipped
      modifies `issuesSeen, `issues, `issuesOmitted, `allIssues
      ensures Valid() && allFindings == old(allFindings) + m.findings
      ensures allIssues == old(allIssues) + m.issues && allSkipped == old(allSkipped) + SkipsOf(m)
      ensures Grown(old(findings), findings, maxFindings)
      ensures Grown(old(issues), issues, maxEntries) && Grown(old(skipped), skipped, maxEntries)
    {
      hide Valid, SkipsOf, Grown;
      AddFindings(m.findings);
      AddIssues(m.issues);
      AddSkips(m);
    }

    method Handle(m: Msg<Finding, Issue, Path, Reason>)
      requires Valid()
      modifies this
      ensures Valid()
      ensures allFindings == old(allFindings) + FindingsOf(m)
      ensures allIssues == old(allIssues) + IssuesOf(m)
      ensures allSkipped == old(allSkipped) + SkipsOf(m)
      ensures Grown(old(findings), findings, maxFindings)
      ensures Grown(old(issues), issues, maxEntries) && Grown(old(skipped), skipped, maxEntries)
      ensures directoriesVisited == old(directoriesVisited) + (if m.Directory? then 1 else 0)
      ensures filesScanned == old(filesScanned) + (if m.Scanned? then 1 else 0)
      ensures bytesScanned == old(bytesScanned) + (if m.Scanned? then m.bytes else 0)
      ensures membersScanned == old(membersScanned) + (if m.Scanned? then m.members else 0)
    {
      GrownNot(findings, maxFindings);
      GrownNot(issues, maxEntries);
      GrownNot(skipped, maxEntries);
      hide Valid, FindingsOf, IssuesOf, SkipsOf, Grown;
      Reports(m);
      match m {
      case Directory =>
        directoriesVisited := directoriesVisited + 1;
      case Scanned(_, bytes, _, _, _, members) =>
        filesScanned := filesScanned + 1;
        bytesScanned := bytesScanned + bytes;
        membersScanned := membersScanned + members;
        AddFile(m);
      case Skipped(path, reason) =>
        Skip(path, reason, None);
      case IssueFound(issue) =>
        AddIssue(issue);
      case Exited =>
      }
    }
  }

  lemma Reports<F, I, P, R>(m: Msg<F, I, P, R>)
    ensures !m.Scanned? ==> FindingsOf(m) == []
    ensures !m.Scanned? && !m.IssueFound? ==> IssuesOf(m) == []
    ensures !m.Scanned? && !m.Skipped? ==> SkipsOf(m) == []
    ensures m.Scanned? ==> FindingsOf(m) == m.findings && IssuesOf(m) == m.issues
    ensures m.IssueFound? ==> IssuesOf(m) == [m.issue]
    ensures m.Skipped? ==> SkipsOf(m) == [SkipEntry(m.path, m.reason, None)]
  {
  }
}
