/** What expanding an archive should report and cost, as a function of its
    bytes: the meaning the expander's methods are held to. */
module ArchiveRuns {
  import opened Wrappers

  type Bytes = seq<bv8>
  type Digest = seq<bv8>
  type Name = string

  const CHUNK: nat := 65536

  /** What one read of a decompressor returns. */
  type Piece = p: Bytes | 0 < |p| <= CHUNK witness [0]

  datatype Limits = Limits(maxEntries: nat, maxTotal: nat, maxContent: nat, maxDepth: nat, maxMember: nat)

  datatype Meta = Meta(name: Name, encrypted: bool, isDir: bool, isSymlink: bool)

  /** A member opened for reading: the reads it will give, and whether they end
      in an error. Sizes the archive declares play no part. */
  datatype Body = Unsupported | Unopenable | Stream(pieces: seq<Piece>, corrupt: bool)

  datatype Entry = Entry(meta: Option<Meta>, body: Body)

  datatype Reason = LimitReached | Encrypted | NotSupported | TooBig

  datatype Event =
    | Member(chain: seq<Name>, sha: Digest, size: nat, content: Option<Bytes>)
    | Skipped(chain: seq<Name>, reason: Reason)
    | Error(chain: seq<Name>)

  /** An event, the position of the entry it is about (its index in each
      archive on the way), whether it is that entry's one result, and whether it
      says that the budget ran out. */
  datatype Reported = Reported(event: Event, at: seq<nat>, result: bool, exhausted: bool)

  datatype Budget = Budget(left: nat, reported: bool)

  /** `read` is the number of bytes decompressed. */
  datatype Run = Run(events: seq<Reported>, budget: Budget, read: nat)

  /** The limits, and the two things the model leaves open: the ZIP directory
      parser and the hash. */
  datatype Job = Job(limits: Limits, parse: Bytes -> Option<seq<Entry>>, sha: Bytes -> Digest)

  function LooksLikeZip(data: Bytes): (b: bool) {
    |data| >= 4 && data[..4] in {[0x50, 0x4B, 3, 4], [0x50, 0x4B, 5, 6], [0x50, 0x4B, 7, 8]}
  }

  // ---- Reading one member.

  datatype Read = Whole(bytes: Bytes) | Corrupt(total: nat) | OverBudget(total: nat) | OverSize(total: nat)

  /** Reading on after `sofar`. */
  function ReadOn(pieces: seq<Piece>, corrupt: bool, sofar: Bytes, left: nat, max: nat): (r: Read) {
    if pieces == [] then
      if corrupt then Corrupt(|sofar|) else Whole(sofar)
    else if |sofar + pieces[0]| > left then OverBudget(|sofar + pieces[0]|)
    else if |sofar + pieces[0]| > max then OverSize(|sofar + pieces[0]|)
    else ReadOn(pieces[1..], corrupt, sofar + pieces[0], left, max)
  }

  function ReadTotal(r: Read): (n: nat) {
    match r
    case Whole(bytes) => |bytes|
    case Corrupt(n) => n
    case OverBudget(n) => n
    case OverSize(n) => n
  }

  // ---- Expansion.

  function Within(job: Job, entries: seq<Entry>): (n: nat)
    ensures n <= |entries| && n <= job.limits.maxEntries
  {
    if |entries| < job.limits.maxEntries then |entries| else job.limits.maxEntries
  }

  function LevelsLeft(job: Job, depth: nat): (n: nat) {
    if depth < job.limits.maxDepth then job.limits.maxDepth - depth else 0
  }

  function Then(a: Run, b: Run): (r: Run) {
    Run(a.events + b.events, b.budget, a.read + b.read)
  }

  function Nothing(b: Budget): Run { Run([], b, 0) }

  function One(e: Event, at: seq<nat>, result: bool, b: Budget, read: nat): Run {
    Run([Reported(e, at, result, false)], b, read)
  }

  /** The archive `data`, reached through `chain` at position `at`; its members
      are at nesting `depth`. */
  function ExpandRun(job: Job, b: Budget, data: Bytes, chain: seq<Name>, at: seq<nat>, depth: nat, strict: bool): (r: Run)
    decreases LevelsLeft(job, depth), 4, 0
  {
    match job.parse(data)
    case None => if strict then One(Error(chain), at, false, b, 0) else Nothing(b)
    case Some(entries) =>
      Then(if |entries| > job.limits.maxEntries then One(Skipped(chain, LimitReached), at, false, b, 0) else Nothing(b),
           EntriesRun(job, b, entries, 0, chain, at, depth))
  }

  /** The entries from `i` on. */
  function EntriesRun(job: Job, b: Budget, entries: seq<Entry>, i: nat, chain: seq<Name>, at: seq<nat>, depth: nat): (r: Run)
    decreases LevelsLeft(job, depth), 3, |entries| - i
  {
    if i >= Within(job, entries) then Nothing(b)
    else if b.left == 0 then
      Run(if b.reported then [] else [Reported(Skipped(chain, LimitReached), at, false, true)], Budget(0, true), 0)
    else
      var first := EntryRun(job, b, entries[i], chain, at + [i], depth);
      Then(first, EntriesRun(job, first.budget, entries, i + 1, chain, at, depth))
  }

  function EntryRun(job: Job, b: Budget, entry: Entry, chain: seq<Name>, at: seq<nat>, depth: nat): (r: Run)
    decreases LevelsLeft(job, depth), 2, 0
  {
    match entry.meta
    case None => One(Error(chain), at, true, b, 0)
    case Some(meta) =>
      if meta.isDir then Nothing(b)
      else if meta.encrypted then One(Skipped(chain + [meta.name], Encrypted), at, true, b, 0)
      else if meta.isSymlink then One(Skipped(chain + [meta.name], NotSupported), at, true, b, 0)
      else MemberRun(job, b, entry.body, chain + [meta.name], at, depth)
  }

  function MemberRun(job: Job, b: Budget, body: Body, chain: seq<Name>, at: seq<nat>, depth: nat): (r: Run)
    decreases LevelsLeft(job, depth), 1, 0
  {
    match body
    case Unsupported => One(Skipped(chain, NotSupported), at, true, b, 0)
    case Unopenable => One(Error(chain), at, true, b, 0)
    case Stream(pieces, corrupt) =>
      match ReadOn(pieces, corrupt, [], b.left, job.limits.maxMember)
      case Whole(bytes) =>
        Then(One(Member(chain, job.sha(bytes), |bytes|, Content(job, bytes)), at, true, Charge(b, |bytes|), |bytes|),
             NestedRun(job, Charge(b, |bytes|), bytes, chain, at, depth))
      case other => CutShort(b, other, chain, at)
  }

  /** A member that could not be read whole. */
  function CutShort(b: Budget, r: Read, chain: seq<Name>, at: seq<nat>): (run: Run)
    requires !r.Whole?
  {
    match r
    case Corrupt(n) => One(Error(chain), at, true, Charge(b, n), n)
    case OverBudget(n) => Run([Reported(Skipped(chain, LimitReached), at, true, true)], Budget(0, true), n)
    case OverSize(n) => One(Skipped(chain, TooBig), at, true, Charge(b, n), n)
  }

  /** A member that is itself an archive. */
  function NestedRun(job: Job, b: Budget, bytes: Bytes, chain: seq<Name>, at: seq<nat>, depth: nat): (r: Run)
    decreases LevelsLeft(job, depth), 0, 0
  {
    if !Nested(job, bytes) then Nothing(b)
    else if depth < job.limits.maxDepth then ExpandRun(job, b, bytes, chain, at, depth + 1, true)
    else One(Skipped(chain, LimitReached), at, false, b, 0)
  }

  function Nested(job: Job, bytes: Bytes): (n: bool) {
    |bytes| <= job.limits.maxContent && LooksLikeZip(bytes)
  }

  function Content(job: Job, bytes: Bytes): (kept: Option<Bytes>) {
    if |bytes| <= job.limits.maxContent then Some(bytes) else None
  }

  function Charge(b: Budget, n: nat): (after: Budget) {
    b.(left := LessAtMost(b.left, n))
  }

  /** Saturating subtraction. */
  function LessAtMost(a: nat, b: nat): (d: nat) {
    if b <= a then a - b else 0
  }

  /** A file on disk: whatever it looks like, it is tried as an archive. */
  function FileRun(job: Job, data: Bytes): (r: Run) {
    ExpandRun(job, Budget(job.limits.maxTotal, false), data, [], [], 1, LooksLikeZip(data))
  }
}
