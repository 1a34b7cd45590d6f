/** The audit log as the store keeps it: appending to it, by calls that may fail
    part of the way, and opening it. */
module AuditLog {
  import opened Wrappers
  import opened AuditChain

  /** It begins as a line does. */
  ghost predicate Begins(c: Codec, x: Bytes) {
    x != [] && exists e :: c.write(e) != [] && c.write(e)[0] == x[0]
  }

  /** What begins as a line of JSON and ends with a whole one is not JSON, unless
      it is that line. */
  ghost predicate Unspliced(c: Codec) {
    forall x, e :: Begins(c, x) ==> c.read(x + c.write(e)) == None
  }

  /** `line` holds the entry after `lines`. */
  predicate Fits(c: Codec, lines: seq<Bytes>, line: Bytes) {
    && |line| <= MAX_LINE && c.read(line).Some?
    && c.read(line).value.seqNo == |lines| + 1 && c.read(line).value.prev == HeadOf(c, lines).hash
  }

  /** How the file stands to the head that the store holds: it ends there, it has
      one entry more, it ends in part of a line, or it has a line that is not the
      next entry. */
  datatype Mode = Whole | Ahead | Torn | Dead

  ghost predicate IsAhead(c: Codec, bytes: Bytes, head: Head, lines: seq<Bytes>) {
    Chained(c, lines) && bytes == Joined(lines) && |lines| == head.seqNo + 1
  }

  ghost predicate IsTorn(c: Codec, bytes: Bytes, lines: seq<Bytes>, x: Bytes) {
    Chained(c, lines) && NEWLINE !in x && Begins(c, x) && bytes == Joined(lines) + x
  }

  ghost predicate IsDead(c: Codec, bytes: Bytes, lines: seq<Bytes>, x: Bytes, y: Bytes) {
    Chained(c, lines) && NEWLINE !in x && !Fits(c, lines, x) && bytes == Joined(lines) + x + [NEWLINE] + y
  }

  ghost predicate Holds(c: Codec, bytes: Bytes, head: Head, mode: Mode) {
    match mode
    case Whole => exists lines :: Chained(c, lines) && bytes == Joined(lines) && head == HeadOf(c, lines)
    case Ahead => exists lines :: IsAhead(c, bytes, head, lines)
    case Torn => exists lines, x :: IsTorn(c, bytes, lines, x)
    case Dead => exists lines, x, y :: IsDead(c, bytes, lines, x, y)
  }

  /** A chain begins with the chain that its file begins with, and what follows
      that is the rest of it. */
  lemma GoesOn(c: Codec, lines: seq<Bytes>, ls: seq<Bytes>, tail: Bytes)
    requires Chained(c, lines) && Chained(c, ls) && Joined(ls) == Joined(lines) + tail
    ensures lines <= ls && tail == Joined(ls[|lines|..])
  {
    ChainedNoNewlines(c, lines);
    ChainedNoNewlines(c, ls);
    CutOnce(lines, ls, tail);
  }

  lemma TornNever(c: Codec, bytes: Bytes, lines: seq<Bytes>, x: Bytes, ls: seq<Bytes>)
    requires IsTorn(c, bytes, lines, x) && bytes == Joined(ls)
    ensures !Chained(c, ls)
  {
    if Chained(c, ls) {
      GoesOn(c, lines, ls, x);
    }
  }

  lemma DeadNever(c: Codec, bytes: Bytes, lines: seq<Bytes>, x: Bytes, y: Bytes, ls: seq<Bytes>)
    requires IsDead(c, bytes, lines, x, y) && bytes == Joined(ls)
    ensures !Chained(c, ls)
  {
    if Chained(c, ls) {
      ChainedNoNewlines(c, lines);
      ChainedNoNewlines(c, ls);
      JoinedOneMore(lines, x);
      CutOnce(lines + [x], ls, y);
      NextIsLine(c, ls, |lines|);
      NextIsEntry(c, ls, lines, x);
    }
  }

  lemma VerifiesExactlyWhen(c: Codec, bytes: Bytes, head: Head, mode: Mode)
    requires Holds(c, bytes, head, mode)
    ensures (exists ls :: bytes == Joined(ls) && Chained(c, ls)) <==> mode == Whole || mode == Ahead
  {
    hide Chained, Joined, Fits, Begins;
    match mode
    case Whole =>
    case Ahead =>
      var lines :| IsAhead(c, bytes, head, lines);
    case Torn =>
      var lines, x :| IsTorn(c, bytes, lines, x);
      forall ls | bytes == Joined(ls)
        ensures !Chained(c, ls)
      {
        TornNever(c, bytes, lines, x, ls);
      }
    case Dead =>
      var lines, x, y :| IsDead(c, bytes, lines, x, y);
      forall ls | bytes == Joined(ls)
        ensures !Chained(c, ls)
      {
        DeadNever(c, bytes, lines, x, y, ls);
      }
  }

  // ---- Appending.

  /** How much of a line a call wrote. */
  datatype Wrote = Nothing | Part | All

  function WroteOf(line: Bytes, n: nat): (w: Wrote) {
    if n == 0 then Nothing else if n < |line| then Part else All
  }

  function Taken(line: Bytes, n: nat): (part: Bytes) {
    if n < |line| then line[..n] else line
  }

  /** What an append does to the log: `long` is whether its line is longer than a
      reader accepts. */
  function After(mode: Mode, w: Wrote, ok: bool, long: bool): (after: Mode) {
    match w
    case Nothing => mode
    case Part => if mode == Dead then Dead else Torn
    case All => if mode == Whole && !long then (if ok then Whole else Ahead) else Dead
  }

  lemma AppendHolds(c: Codec, bytes: Bytes, head: Head, mode: Mode, action: Bytes, n: nat, ok: bool)
    requires Lawful(c) && Unspliced(c) && Holds(c, bytes, head, mode) && (ok ==> n > |Encoded(c, action, head).0|)
    ensures var (line, next) := Encoded(c, action, head);
            Holds(c, bytes + Taken(line + [NEWLINE], n), if ok then next else head, After(mode, WroteOf(line + [NEWLINE], n), ok, |line| > MAX_LINE))
  {
    hide Chained, Joined, Fits, Begins, Holds;
    var (line, next) := Encoded(c, action, head);
    match WroteOf(line + [NEWLINE], n)
    case Nothing => assert bytes + [] == bytes;
    case Part =>
      assert (line + [NEWLINE])[..n] == line[..n];
      PartHolds(c, bytes, head, mode, Entry(head.seqNo + 1, head.hash, action), line[..n]);
    case All => AllHolds(c, bytes, head, mode, action, ok);
  }

  lemma PartHolds(c: Codec, bytes: Bytes, head: Head, mode: Mode, e: Entry, p: Bytes)
    requires Lawful(c) && Holds(c, bytes, head, mode) && p != [] && p <= c.write(e)
    ensures Holds(c, bytes + p, head, if mode == Dead then Dead else Torn)
  {
    hide Chained, Joined, Fits;
    assert NEWLINE !in c.write(e) && forall k :: 0 <= k < |p| ==> p[k] in c.write(e);
    match mode
    case Whole =>
      var lines :| Chained(c, lines) && bytes == Joined(lines) && head == HeadOf(c, lines);
      assert IsTorn(c, bytes + p, lines, p);
    case Ahead =>
      var lines :| IsAhead(c, bytes, head, lines);
      assert IsTorn(c, bytes + p, lines, p);
    case Torn =>
      var lines, x :| IsTorn(c, bytes, lines, x);
      assert bytes + p == Joined(lines) + (x + p);
      assert IsTorn(c, bytes + p, lines, x + p);
    case Dead =>
      var lines, x, y :| IsDead(c, bytes, lines, x, y);
      assert bytes + p == Joined(lines) + x + [NEWLINE] + (y + p);
      assert IsDead(c, bytes + p, lines, x, y + p);
  }

  lemma AllHolds(c: Codec, bytes: Bytes, head: Head, mode: Mode, action: Bytes, ok: bool)
    requires Lawful(c) && Unspliced(c) && Holds(c, bytes, head, mode)
    ensures var (line, next) := Encoded(c, action, head);
            Holds(c, bytes + (line + [NEWLINE]), if ok then next else head, After(mode, All, ok, |line| > MAX_LINE))
  {
    hide Chained, Joined, LineOk;
    var (line, next) := Encoded(c, action, head);
    var e := Entry(head.seqNo + 1, head.hash, action);
    assert c.read(line) == Some(e) && NEWLINE !in line;
    match mode
    case Whole =>
      var lines :| Chained(c, lines) && bytes == Joined(lines) && head == HeadOf(c, lines);
      WholeGoesOn(c, lines, head, action);
      if |line| <= MAX_LINE {
        assert bytes + (line + [NEWLINE]) == Joined(lines + [line]);
        assert !ok ==> IsAhead(c, bytes + (line + [NEWLINE]), head, lines + [line]);
      } else {
        assert bytes + (line + [NEWLINE]) == Joined(lines) + line + [NEWLINE] + [];
        assert IsDead(c, bytes + (line + [NEWLINE]), lines, line, []);
      }
    case Ahead =>
      var lines :| IsAhead(c, bytes, head, lines);
      assert bytes + (line + [NEWLINE]) == Joined(lines) + line + [NEWLINE] + [];
      assert IsDead(c, bytes + (line + [NEWLINE]), lines, line, []);
    case Torn =>
      var lines, x :| IsTorn(c, bytes, lines, x);
      assert c.read(x + c.write(e)) == None;
      assert bytes + (line + [NEWLINE]) == Joined(lines) + (x + line) + [NEWLINE] + [];
      assert IsDead(c, bytes + (line + [NEWLINE]), lines, x + line, []);
    case Dead =>
      var lines, x, y :| IsDead(c, bytes, lines, x, y);
      assert bytes + (line + [NEWLINE]) == Joined(lines) + x + [NEWLINE] + (y + (line + [NEWLINE]));
      assert IsDead(c, bytes + (line + [NEWLINE]), lines, x, y + (line + [NEWLINE]));
  }

  lemma WholeGoesOn(c: Codec, lines: seq<Bytes>, head: Head, action: Bytes)
    requires Lawful(c) && Chained(c, lines) && head == HeadOf(c, lines)
    ensures var (line, next) := Encoded(c, action, head);
            && Joined(lines + [line]) == Joined(lines) + line + [NEWLINE] && next == HeadOf(c, lines + [line])
            && (|line| <= MAX_LINE ==> Chained(c, lines + [line]))
  {
    var (line, next) := Encoded(c, action, head);
    assert c.read(line) == Some(Entry(head.seqNo + 1, head.hash, action));
    JoinedOneMore(lines, line);
    if |line| <= MAX_LINE {
      NextLine(c, lines, line);
    }
    assert (lines + [line])[0] == if lines == [] then line else lines[0];
  }

  class Log {
    const c: Codec
    /** What the file holds. */
    var bytes: Bytes
    var head: Head
    ghost var mode: Mode

    constructor (c: Codec)
      requires Lawful(c) && Unspliced(c)
      ensures Valid() && bytes == [] && mode == Whole
    {
      this.c := c;
      bytes, head := [], NO_ENTRIES;
      mode := Whole;
      new;
      ChainedNothing(c);
      assert bytes == Joined([]) && head == HeadOf(c, []);
    }

    ghost predicate Valid()
      reads this
    {
      Lawful(c) && Unspliced(c) && Holds(c, bytes, head, mode)
    }

    /** Appends one entry: `n` bytes of its line reach the file, and `synced` is
        whether they are then on disk for good. The store goes on with the old
        head if that fails. */
    method Append(action: Bytes, n: nat, synced: bool) returns (ok: bool)
      requires Valid()
      modifies this
      ensures Valid()
      ensures var (line, next) := Encoded(c, action, old(head));
              && ok == (n > |line| && synced)
              && bytes == old(bytes) + Taken(line + [NEWLINE], n) && head == (if ok then next else old(head))
              && mode == After(old(mode), WroteOf(line + [NEWLINE], n), ok, |line| > MAX_LINE)
    {
      hide Holds, Encoded, After;
      var line, next := Encode(c, action, head);
      ok := n >= |line| && synced;
      AppendHolds(c, bytes, head, mode, action, n, ok);
      mode := After(mode, WroteOf(line, n), ok, |line| - 1 > MAX_LINE);
      bytes := bytes + Taken(line, n);
      if ok {
        head := next;
      }
    }

    /** Opens the log again: it is accepted exactly if it ends at the head the
        store held or one entry after it. */
    method Open() returns (r: Result<(), nat>)
      requires Valid()
      modifies this
      ensures Valid() && bytes == old(bytes)
      ensures r.Ok? <==> old(mode) == Whole || old(mode) == Ahead
      ensures mode == if r.Ok? then Whole else old(mode)
    {
      VerifiesExactlyWhen(c, bytes, head, mode);
      var walked, entries, lines := WalkChain(c, bytes);
      if walked.Err? {
        return Err(walked.error);
      }
      head := walked.value;
      mode := Whole;
      r := Ok(());
    }
  }

  // ---- Which failures break the log.

  datatype Attempt = Attempt(wrote: Wrote, ok: bool, long: bool)

  function ModeAfter(attempts: seq<Attempt>): (mode: Mode) {
    if attempts == [] then Whole
    else
      var a := attempts[|attempts| - 1];
      After(ModeAfter(attempts[..|attempts| - 1]), a.wrote, a.ok, a.long)
  }

  /** Attempt `k` does no harm: it wrote nothing; or all of a line that is not too
      long, and it succeeded or was the last that wrote anything. */
  predicate Harmless(attempts: seq<Attempt>, k: nat)
    requires k < |attempts|
  {
    var a := attempts[k];
    a.wrote == Nothing
    || (a.wrote == All && !a.long && (a.ok || forall j :: k < j < |attempts| ==> attempts[j].wrote == Nothing))
  }

  /** Since it was opened the log stays one that opens again exactly while no
      append wrote only part of its line, or a line too long, or anything after one
      that failed although it had written all. */
  lemma {:induction false} OpensExactlyWhen(attempts: seq<Attempt>)
    ensures ModeAfter(attempts) == Whole || ModeAfter(attempts) == Ahead
       <==> forall k :: 0 <= k < |attempts| ==> Harmless(attempts, k)
    ensures ModeAfter(attempts) == Whole ==> forall k :: 0 <= k < |attempts| ==> attempts[k].wrote == Nothing || attempts[k].ok
    ensures ModeAfter(attempts) == Ahead ==> exists k :: 0 <= k < |attempts| && attempts[k].wrote == All && !attempts[k].ok
  {
    if attempts != [] {
      var n := |attempts| - 1;
      var front, a := attempts[..n], attempts[n];
      OpensExactlyWhen(front);
      assert forall k :: 0 <= k < n ==> front[k] == attempts[k];
      forall k | 0 <= k < n
        ensures Harmless(attempts, k) <==> Harmless(front, k) && (a.wrote == Nothing || front[k].wrote == Nothing || front[k].ok)
      {
        assert attempts[n] == a;
      }
      if ModeAfter(front) == Ahead && a.wrote != Nothing {
        var k :| 0 <= k < n && front[k].wrote == All && !front[k].ok;
        assert !Harmless(attempts, k);
      }
      assert Harmless(attempts, n) <==> a.wrote == Nothing || (a.wrote == All && !a.long);
    }
  }

  // ---- A run of appends and an open.

  /** A call to append: how many bytes of the line reach the file, and whether they
      are then on disk for good. */
  datatype Try = Try(action: Bytes, n: nat, synced: bool)

  /** What each of `tries` comes to when the log stands at `head`. */
  function AttemptsOf(c: Codec, head: Head, tries: seq<Try>): (attempts: seq<Attempt>)
    ensures |attempts| == |tries|
    decreases |tries|
  {
    if tries == [] then []
    else
      var (a, next) := AttemptOf(c, head, tries[0]);
      [a] + AttemptsOf(c, next, tries[1..])
  }

  function AttemptOf(c: Codec, head: Head, t: Try): (r: (Attempt, Head)) {
    var (line, next) := Encoded(c, t.action, head);
    var ok := t.n > |line| && t.synced;
    (Attempt(WroteOf(line + [NEWLINE], t.n), ok, |line| > MAX_LINE), if ok then next else head)
  }

  lemma NoAttempts(c: Codec)
    ensures ModeAfter([]) == Whole && forall head :: AttemptsOf(c, head, []) == []
  {
  }

  lemma OneMoreTry(c: Codec, head: Head, tries: seq<Try>, n: nat)
    requires n < |tries|
    ensures AttemptsOf(c, head, tries[n..]) == [AttemptOf(c, head, tries[n]).0] + AttemptsOf(c, AttemptOf(c, head, tries[n]).1, tries[n + 1..])
  {
    assert tries[n..][0] == tries[n] && tries[n..][1..] == tries[n + 1..];
  }

  lemma OneMoreMode(done: seq<Attempt>, a: Attempt)
    ensures ModeAfter(done + [a]) == After(ModeAfter(done), a.wrote, a.ok, a.long)
  {
    assert (done + [a])[..|done|] == done;
  }

  method Attempted(log: Log, t: Try)
    requires log.Valid()
    modifies log
    ensures log.Valid() && old(log.bytes) <= log.bytes
    ensures var (a, next) := AttemptOf(log.c, old(log.head), t);
            log.head == next && log.mode == After(old(log.mode), a.wrote, a.ok, a.long)
  {
    hide Holds, Lawful, Unspliced, Encoded, After, WroteOf, Taken;
    var _ := log.Append(t.action, t.n, t.synced);
  }

  lemma Regrouped(done: seq<Attempt>, a: Attempt, rest: seq<Attempt>)
    ensures done + ([a] + rest) == (done + [a]) + rest
  {
  }

  /** Any appends to a log that has just been opened, and then opening it again:
      that works exactly if each of them did no harm. */
  method AppendThenOpen(log: Log, tries: seq<Try>) returns (r: Result<(), nat>)
    requires log.Valid() && log.mode == Whole
    modifies log
    ensures log.Valid() && old(log.bytes) <= log.bytes
    ensures r.Ok? <==> forall k :: 0 <= k < |tries| ==> Harmless(AttemptsOf(log.c, old(log.head), tries), k)
  {
    NoAttempts(log.c);
    hide Holds, Lawful, Unspliced, AttemptOf, AttemptsOf, ModeAfter, After, Harmless;
    ghost var attempts := AttemptsOf(log.c, log.head, tries);
    ghost var done := [];
    assert tries[0..] == tries;
    for n := 0 to |tries|
      modifies log
      invariant log.Valid() && old(log.bytes) <= log.bytes
      invariant |done| == n && done + AttemptsOf(log.c, log.head, tries[n..]) == attempts
      invariant log.mode == ModeAfter(done)
    {
      ghost var (a, next) := AttemptOf(log.c, log.head, tries[n]);
      OneMoreTry(log.c, log.head, tries, n);
      OneMoreMode(done, a);
      Regrouped(done, a, AttemptsOf(log.c, next, tries[n + 1..]));
      Attempted(log, tries[n]);
      done := done + [a];
    }
    assert tries[|tries|..] == [];
    assert done == attempts;
    OpensExactlyWhen(attempts);
    r := log.Open();
  }

  // ---- Codecs of this kind exist.

  function Repeated(n: nat): (x: Bytes) {
    seq(n, _ => 2)
  }

  /** Numbers, each as so many 2s and a 3. */
  function Unary(ns: seq<nat>): (x: Bytes) {
    if ns == [] then [] else Repeated(ns[0]) + [3] + Unary(ns[1..])
  }

  lemma {:induction false} UnarySymbols(ns: seq<nat>)
    ensures forall k :: 0 <= k < |Unary(ns)| ==> Unary(ns)[k] == 2 || Unary(ns)[k] == 3
  {
    if ns != [] {
      UnarySymbols(ns[1..]);
    }
  }

  lemma {:induction false} UnaryOnce(ns: seq<nat>, ms: seq<nat>)
    requires Unary(ns) == Unary(ms)
    ensures ns == ms
  {
    if ns != [] && ms != [] {
      var n, m := ns[0], ms[0];
      assert Unary(ns)[n] == 3 && Unary(ms)[m] == 3;
      assert forall k :: 0 <= k < n ==> Unary(ns)[k] == 2;
      assert forall k :: 0 <= k < m ==> Unary(ms)[k] == 2;
      assert n == m;
      assert Unary(ns)[n + 1..] == Unary(ns[1..]) && Unary(ms)[m + 1..] == Unary(ms[1..]);
      UnaryOnce(ns[1..], ms[1..]);
    }
  }

  function Numbers(e: Entry): (ns: seq<nat>) {
    [e.seqNo, |e.prev|] + seq(|e.prev|, i requires 0 <= i < |e.prev| => e.prev[i] as nat)
    + seq(|e.action|, i requires 0 <= i < |e.action| => e.action[i] as nat)
  }

  lemma NumbersOnce(d: Entry, e: Entry)
    requires Numbers(d) == Numbers(e)
    ensures d == e
  {
    assert Numbers(d)[0] == Numbers(e)[0] && Numbers(d)[1] == Numbers(e)[1];
    assert |Numbers(d)| == 2 + |d.prev| + |d.action| && |Numbers(e)| == 2 + |e.prev| + |e.action|;
    forall i | 0 <= i < |d.prev|
      ensures d.prev[i] == e.prev[i]
    {
      assert Numbers(d)[2 + i] == Numbers(e)[2 + i];
    }
    forall i | 0 <= i < |d.action|
      ensures d.action[i] == e.action[i]
    {
      assert Numbers(d)[2 + |d.prev| + i] == Numbers(e)[2 + |e.prev| + i];
    }
  }

  function LineFor(e: Entry): (x: Bytes) {
    [1] + Unary(Numbers(e))
  }

  ghost function EntryFor(x: Bytes): (e: Option<Entry>) {
    if exists e :: LineFor(e) == x then (var e :| LineFor(e) == x; Some(e)) else None
  }

  lemma LineForOnce(d: Entry, e: Entry)
    requires LineFor(d) == LineFor(e)
    ensures d == e
  {
    assert LineFor(d)[1..] == Unary(Numbers(d)) && LineFor(e)[1..] == Unary(Numbers(e));
    UnaryOnce(Numbers(d), Numbers(e));
    NumbersOnce(d, e);
  }

  /** There are codecs as the log needs them. */
  lemma CodecExists()
    ensures exists c :: Lawful(c) && Unspliced(c)
  {
    hide LineFor;
    var c := Codec(LineFor, EntryFor, (x: Bytes) => "");
    forall e
      ensures c.read(c.write(e)) == Some(e) && NEWLINE !in c.write(e)
    {
      LineForIs(e);
      var d :| LineFor(d) == LineFor(e) && EntryFor(LineFor(e)) == Some(d);
      LineForOnce(d, e);
    }
    forall x, e | Begins(c, x)
      ensures c.read(x + c.write(e)) == None
    {
      var b :| c.write(b) != [] && c.write(b)[0] == x[0];
      LineForIs(b);
      LineForIs(e);
      forall d
        ensures LineFor(d) != x + LineFor(e)
      {
        LineForIs(d);
        assert (x + LineFor(e))[|x|] == 1;
      }
    }
    assert Lawful(c) && Unspliced(c);
  }

  lemma LineForIs(e: Entry)
    ensures LineFor(e) != [] && LineFor(e)[0] == 1
    ensures forall k :: 0 < k < |LineFor(e)| ==> LineFor(e)[k] == 2 || LineFor(e)[k] == 3
    ensures NEWLINE !in LineFor(e)
  {
    UnarySymbols(Numbers(e));
  }
}
