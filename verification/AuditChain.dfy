/** The hash-chained audit log: writing it, walking it, and what a matching hash
    says about history. */
module AuditChain {
  import opened Wrappers
  import opened Collections

  type Bytes = seq<bv8>
  type Hash = string

  const MAX_LINE: nat := 262144
  const NEWLINE: bv8 := 10
  const GENESIS: Hash := "0000000000000000000000000000000000000000000000000000000000000000"

  /** An entry: its number, the hash of the line before, and the action it
      records. */
  datatype Entry = Entry(seqNo: nat, prev: Hash, action: Bytes)

  /** JSON and SHA-256, left open. */
  datatype Codec = Codec(write: Entry -> Bytes, read: Bytes -> Option<Entry>, hash: Bytes -> Hash)

  /** A line of JSON decodes to what it was made from and holds no newline. */
  ghost predicate Lawful(c: Codec) {
    forall e :: c.read(c.write(e)) == Some(e) && NEWLINE !in c.write(e)
  }

  /** Chain position after the last valid line; `first` is the hash of the first
      entry, which identifies the chain. */
  datatype Head = Head(seqNo: nat, hash: Hash, first: Option<Hash>)

  const NO_ENTRIES: Head := Head(0, GENESIS, None)

  function ChainId(firstHash: Hash): (id: string) {
    if |firstHash| <= 16 then firstHash else firstHash[..16]
  }

  // ---- What a log says.

  /** The bytes of a log of these lines. */
  function Joined(lines: seq<Bytes>): (log: Bytes) {
    if lines == [] then [] else lines[0] + [NEWLINE] + Joined(lines[1..])
  }

  function PrevHash(c: Codec, lines: seq<Bytes>, i: nat): (h: Hash)
    requires i <= |lines|
  {
    if i == 0 then GENESIS else c.hash(lines[i - 1])
  }

  /** Line `i` holds entry `i + 1`, chained to the line before it. */
  predicate LineOk(c: Codec, lines: seq<Bytes>, i: nat)
    requires i < |lines|
  {
    && |lines[i]| <= MAX_LINE && NEWLINE !in lines[i]
    && c.read(lines[i]).Some?
    && c.read(lines[i]).value.seqNo == i + 1 && c.read(lines[i]).value.prev == PrevHash(c, lines, i)
  }

  predicate Chained(c: Codec, lines: seq<Bytes>) {
    forall i :: 0 <= i < |lines| ==> LineOk(c, lines, i)
  }

  function HeadOf(c: Codec, lines: seq<Bytes>): (h: Head) {
    Head(|lines|, PrevHash(c, lines, |lines|), if lines == [] then None else Some(c.hash(lines[0])))
  }

  function EntryAt(c: Codec, lines: seq<Bytes>, i: nat): (e: (nat, Hash))
    requires i < |lines|
  {
    (i + 1, c.hash(lines[i]))
  }

  function EntriesOf(c: Codec, lines: seq<Bytes>): (es: seq<(nat, Hash)>) {
    seq(|lines|, (i: nat) requires i < |lines| => EntryAt(c, lines, i))
  }

  predicate NoNewlines(lines: seq<Bytes>) {
    forall i :: 0 <= i < |lines| ==> NEWLINE !in lines[i]
  }

  lemma {:induction false} JoinedMore(lines: seq<Bytes>, more: seq<Bytes>)
    ensures Joined(lines + more) == Joined(lines) + Joined(more)
  {
    if lines == [] {
      assert lines + more == more;
    } else {
      JoinedMore(lines[1..], more);
      assert (lines + more)[1..] == lines[1..] + more;
    }
  }

  lemma JoinedOneMore(lines: seq<Bytes>, line: Bytes)
    ensures Joined(lines + [line]) == Joined(lines) + line + [NEWLINE]
  {
    JoinedMore(lines, [line]);
    assert Joined([line]) == line + [NEWLINE];
  }

  lemma NotCutThere(a: Bytes, x: Bytes, b: Bytes, y: Bytes)
    requires |a| < |b| && NEWLINE !in b
    ensures a + [NEWLINE] + x != b + [NEWLINE] + y
  {
    assert (a + [NEWLINE] + x)[|a|] == NEWLINE;
    assert (b + [NEWLINE] + y)[|a|] == b[|a|];
  }

  lemma SameCut(a: Bytes, x: Bytes, b: Bytes, y: Bytes)
    requires NEWLINE !in a && NEWLINE !in b && a + [NEWLINE] + x == b + [NEWLINE] + y
    ensures a == b && x == y
  {
    if |a| < |b| {
      NotCutThere(a, x, b, y);
    } else if |b| < |a| {
      NotCutThere(b, y, a, x);
    }
    assert a == (a + [NEWLINE] + x)[..|a|] && b == (b + [NEWLINE] + y)[..|a|];
    assert x == (a + [NEWLINE] + x)[|a| + 1..] && y == (b + [NEWLINE] + y)[|a| + 1..];
  }

  /** A log can be cut into lines in one way only. */
  lemma {:induction false} CutOnce(lines: seq<Bytes>, others: seq<Bytes>, tail: Bytes)
    requires NoNewlines(lines) && NoNewlines(others)
    requires Joined(lines) + tail == Joined(others)
    ensures lines <= others && tail == Joined(others[|lines|..])
  {
    if lines != [] {
      assert Joined(lines) + tail == lines[0] + [NEWLINE] + (Joined(lines[1..]) + tail);
      SameCut(lines[0], Joined(lines[1..]) + tail, others[0], Joined(others[1..]));
      CutOnce(lines[1..], others[1..], tail);
      assert others[|lines|..] == others[1..][|lines[1..]|..];
    }
  }

  // ---- Writing.

  /** One more line, chained to `head`. */
  function Encoded(c: Codec, action: Bytes, head: Head): (r: (Bytes, Head)) {
    var line := c.write(Entry(head.seqNo + 1, head.hash, action));
    (line, Head(head.seqNo + 1, c.hash(line), if head.first.Some? then head.first else Some(c.hash(line))))
  }

  /** The lines of a log that records these actions, and where it ends. */
  function Written(c: Codec, actions: seq<Bytes>): (r: (seq<Bytes>, Head)) {
    if actions == [] then ([], NO_ENTRIES)
    else
      var (lines, head) := Written(c, actions[..|actions| - 1]);
      var (line, next) := Encoded(c, actions[|actions| - 1], head);
      (lines + [line], next)
  }

  /** Appends one entry, as the store does. */
  method Encode(c: Codec, action: Bytes, head: Head) returns (line: Bytes, next: Head)
    ensures line == Encoded(c, action, head).0 + [NEWLINE] && next == Encoded(c, action, head).1
  {
    var json := c.write(Entry(head.seqNo + 1, head.hash, action));
    var hash := c.hash(json);
    next := Head(head.seqNo + 1, hash, if head.first.Some? then head.first else Some(hash));
    line := json + [NEWLINE];
  }

  lemma ChainedMore(c: Codec, lines: seq<Bytes>, line: Bytes)
    requires Chained(c, lines)
    ensures Chained(c, lines + [line]) <==> LineOk(c, lines + [line], |lines|)
  {
    var more := lines + [line];
    forall i | 0 <= i < |lines|
      ensures LineOk(c, more, i)
    {
      assert LineOk(c, lines, i);
    }
  }

  /** Every line of a written log holds its entry. */
  lemma {:induction false} WrittenLines(c: Codec, actions: seq<Bytes>)
    requires Lawful(c)
    ensures var (lines, head) := Written(c, actions);
            && |lines| == |actions| && head == HeadOf(c, lines)
            && (forall i :: 0 <= i < |lines| ==>
                  NEWLINE !in lines[i] && c.read(lines[i]) == Some(Entry(i + 1, PrevHash(c, lines, i), actions[i])))
  {
    if actions != [] {
      var front := actions[..|actions| - 1];
      WrittenLines(c, front);
      var (lines, head) := Written(c, front);
      var (line, next) := Encoded(c, actions[|actions| - 1], head);
      assert c.read(line) == Some(Entry(head.seqNo + 1, head.hash, actions[|actions| - 1]));
      var more := lines + [line];
      forall i | 0 <= i < |more|
        ensures c.read(more[i]) == Some(Entry(i + 1, PrevHash(c, more, i), actions[i])) && NEWLINE !in more[i]
      {
        if i < |lines| {
          assert more[i] == lines[i] && front[i] == actions[i];
        }
      }
    }
  }

  /** A log verifies, and gives back the head its writer holds, exactly when no
      entry is longer than a reader accepts. The writer does not check that. */
  lemma WrittenVerifies(c: Codec, actions: seq<Bytes>)
    requires Lawful(c)
    ensures var (lines, head) := Written(c, actions);
            && head == HeadOf(c, lines)
            && (Chained(c, lines) <==> forall i :: 0 <= i < |lines| ==> |lines[i]| <= MAX_LINE)
            && ((exists ls :: Joined(lines) == Joined(ls) && Chained(c, ls)) <==> Chained(c, lines))
  {
    WrittenLines(c, actions);
    var (lines, head) := Written(c, actions);
    if Chained(c, lines) {
      forall i | 0 <= i < |lines|
        ensures |lines[i]| <= MAX_LINE
      {
        assert LineOk(c, lines, i);
      }
    }
    forall ls | Joined(lines) == Joined(ls) && Chained(c, ls)
      ensures ls == lines
    {
      ChainedNoNewlines(c, ls);
      assert Joined(lines) + [] == Joined(ls);
      CutOnce(lines, ls, []);
      assert ls[|lines|..] == [];
      assert ls == lines;
    }
  }

  ghost function Prefixed(k: int, s: Bytes): (longer: Bytes)
    requires 0 <= k < 256
  {
    [k as bv8] + s
  }

  /** All strings of at most `n` bytes. */
  ghost function StringsUpTo(n: nat): (all: set<Bytes>) {
    if n == 0 then {[]}
    else StringsUpTo(n - 1) + set k, s | 0 <= k < 256 && s in StringsUpTo(n - 1) :: Prefixed(k, s)
  }

  lemma {:induction false} ShortIsListed(s: Bytes, n: nat)
    requires |s| <= n
    ensures s in StringsUpTo(n)
  {
    if s != [] {
      ShortIsListed(s[1..], n - 1);
      assert s == Prefixed(s[0] as int, s[1..]);
    } else if n > 0 {
      ShortIsListed(s, n - 1);
    }
  }

  function Zeros(k: nat): (action: Bytes)
    ensures |action| == k
  {
    seq(k, _ => 0)
  }

  ghost function LineOfZeros(c: Codec, head: Head, j: nat): (line: Bytes) {
    Encoded(c, Zeros(j), head).0
  }

  ghost function LinesOfZeros(c: Codec, head: Head, k: nat): (lines: set<Bytes>) {
    set j: nat | j < k :: LineOfZeros(c, head, j)
  }

  lemma OtherLine(c: Codec, head: Head, i: nat, j: nat)
    requires Lawful(c) && i != j
    ensures LineOfZeros(c, head, i) != LineOfZeros(c, head, j)
  {
    assert c.read(LineOfZeros(c, head, i)) == Some(Entry(head.seqNo + 1, head.hash, Zeros(i)));
    assert c.read(LineOfZeros(c, head, j)) == Some(Entry(head.seqNo + 1, head.hash, Zeros(j)));
  }

  lemma OneMoreLine(c: Codec, head: Head, k: nat)
    ensures LinesOfZeros(c, head, k + 1) == LinesOfZeros(c, head, k) + {LineOfZeros(c, head, k)}
  {
    hide LineOfZeros;
  }

  lemma {:induction false} LinesAreMany(c: Codec, head: Head, k: nat)
    requires Lawful(c)
    ensures |LinesOfZeros(c, head, k)| == k
  {
    hide Lawful, LineOfZeros;
    if k > 0 {
      LinesAreMany(c, head, k - 1);
      var fewer, line := LinesOfZeros(c, head, k - 1), LineOfZeros(c, head, k - 1);
      assert line !in fewer by {
        forall j: nat | j < k - 1
          ensures LineOfZeros(c, head, j) != line
        {
          OtherLine(c, head, j, k - 1);
        }
      }
      assert LinesOfZeros(c, head, k) == fewer + {line} by {
        OneMoreLine(c, head, k - 1);
      }
    }
  }

  /** However entries are written, some entry is longer than any limit. */
  lemma LongLineExists(c: Codec, head: Head, n: nat)
    requires Lawful(c)
    ensures exists action :: |Encoded(c, action, head).0| > n
  {
    var all := StringsUpTo(n);
    var k := |all| + 1;
    LinesAreMany(c, head, k);
    if forall j: nat :: |LineOfZeros(c, head, j)| <= n {
      forall line | line in LinesOfZeros(c, head, k)
        ensures line in all
      {
        ShortIsListed(line, n);
      }
      SubsetSize(LinesOfZeros(c, head, k), all);
    }
  }

  /** So every writer can write a log that no reader accepts. */
  lemma WrittenMayNotVerify(c: Codec)
    requires Lawful(c)
    ensures exists actions :: !(exists ls :: Joined(Written(c, actions).0) == Joined(ls) && Chained(c, ls))
  {
    LongLineExists(c, NO_ENTRIES, MAX_LINE);
    var action :| |Encoded(c, action, NO_ENTRIES).0| > MAX_LINE;
    var actions := [action];
    assert actions[..|actions| - 1] == [];
    var lines := Written(c, actions).0;
    assert Written(c, []) == ([], NO_ENTRIES);
    assert lines == [] + [Encoded(c, action, NO_ENTRIES).0];
    assert |lines[0]| > MAX_LINE;
    WrittenVerifies(c, actions);
  }

  // ---- Walking.

  /** The end of the line that begins at `pos`: one past its newline, or where
      reading stops without one. */
  method LineEnd(log: Bytes, pos: nat) returns (end: nat)
    requires pos < |log|
    ensures pos < end <= |log| && end - pos <= MAX_LINE + 1
    ensures NEWLINE !in log[pos..end - 1]
    ensures log[end - 1] == NEWLINE || end == |log| || end - pos == MAX_LINE + 1
  {
    end := pos;
    while end < |log| && end - pos < MAX_LINE + 1 && (end == pos || log[end - 1] != NEWLINE)
      invariant pos <= end <= |log| && end - pos <= MAX_LINE + 1
      invariant end > pos ==> NEWLINE !in log[pos..end - 1]
    {
      end := end + 1;
    }
  }

  /** Accepts exactly the chained logs, and reports the entries and the head of
      the one way to read it. */
  method WalkChain(c: Codec, log: Bytes) returns (r: Result<Head, nat>, entries: seq<(nat, Hash)>, ghost lines: seq<Bytes>)
    ensures r.Ok? <==> exists ls :: log == Joined(ls) && Chained(c, ls)
    ensures r.Ok? ==> log == Joined(lines) && Chained(c, lines)
                      && r.value == HeadOf(c, lines) && entries == EntriesOf(c, lines)
    ensures r.Err? ==> r.error == |lines| + 1 && Joined(lines) <= log && Chained(c, lines) && entries == EntriesOf(c, lines)
  {
    hide Chained, LineOk;
    lines := [];
    entries := [];
    ChainedNothing(c);
    var head := NO_ENTRIES;
    var pos := 0;
    while pos < |log|
      invariant pos <= |log| && log[..pos] == Joined(lines)
      invariant Chained(c, lines) && head == HeadOf(c, lines) && entries == EntriesOf(c, lines)
      decreases |log| - pos
    {
      var end := LineEnd(log, pos);
      var line := log[pos..end - 1];
      if log[end - 1] != NEWLINE {
        assert forall k :: pos <= k < end - 1 ==> log[k] == log[pos..end - 1][k - pos];
        NotALine(c, log, lines, pos, end);
        return Err(head.seqNo + 1), entries, lines;
      }
      var entry := c.read(line);
      JoinedOneMore(lines, line);
      assert log[..end] == log[..pos] + line + [NEWLINE];
      if entry == None || entry.value.seqNo != head.seqNo + 1 || entry.value.prev != head.hash {
        NotTheLine(c, log, lines, line, end);
        return Err(head.seqNo + 1), entries, lines;
      }
      NextLine(c, lines, line);
      var hash := c.hash(line);
      entries := entries + [(head.seqNo + 1, hash)];
      head := Head(head.seqNo + 1, hash, if head.first.Some? then head.first else Some(hash));
      lines := lines + [line];
      pos := end;
    }
    assert log[..pos] == log;
    r := Ok(head);
  }

  lemma ChainedNothing(c: Codec)
    ensures Chained(c, [])
  {
  }

  lemma NextLine(c: Codec, lines: seq<Bytes>, line: Bytes)
    requires Chained(c, lines) && |line| <= MAX_LINE && NEWLINE !in line
    requires c.read(line).Some? && c.read(line).value.seqNo == |lines| + 1 && c.read(line).value.prev == HeadOf(c, lines).hash
    ensures Chained(c, lines + [line])
  {
    ChainedMore(c, lines, line);
    assert PrevHash(c, lines + [line], |lines|) == PrevHash(c, lines, |lines|);
  }

  lemma ChainedNoNewlines(c: Codec, lines: seq<Bytes>)
    requires Chained(c, lines)
    ensures NoNewlines(lines)
  {
    forall i | 0 <= i < |lines|
      ensures NEWLINE !in lines[i]
    {
      assert LineOk(c, lines, i);
    }
  }

  lemma NextIsLine(c: Codec, ls: seq<Bytes>, k: nat)
    requires Chained(c, ls) && k < |ls|
    ensures |ls[k]| <= MAX_LINE && |ls[k]| < |Joined(ls[k..])| && Joined(ls[k..])[|ls[k]|] == NEWLINE
  {
    assert LineOk(c, ls, k);
    assert Joined(ls[k..]) == ls[k] + [NEWLINE] + Joined(ls[k..][1..]);
  }

  /** What follows the good lines has no newline where one must be. */
  lemma NotALine(c: Codec, log: Bytes, lines: seq<Bytes>, pos: nat, end: nat)
    requires Chained(c, lines) && pos < end <= |log| && log[..pos] == Joined(lines)
    requires forall k :: pos <= k < end ==> log[k] != NEWLINE
    requires end == |log| || end - pos == MAX_LINE + 1
    ensures forall ls :: log == Joined(ls) ==> !Chained(c, ls)
  {
    var tail := log[pos..];
    assert forall k :: 0 <= k < end - pos ==> tail[k] != NEWLINE;
    forall ls | log == Joined(ls)
      ensures !Chained(c, ls)
    {
      if Chained(c, ls) {
        ChainedNoNewlines(c, lines);
        ChainedNoNewlines(c, ls);
        assert log == Joined(lines) + tail;
        CutOnce(lines, ls, tail);
        NextIsLine(c, ls, |lines|);
      }
    }
  }

  lemma NextIsEntry(c: Codec, ls: seq<Bytes>, lines: seq<Bytes>, line: Bytes)
    requires Chained(c, ls) && lines + [line] <= ls
    ensures c.read(line).Some? && c.read(line).value.seqNo == |lines| + 1 && c.read(line).value.prev == HeadOf(c, lines).hash
  {
    assert LineOk(c, ls, |lines|);
    assert ls[..|lines|] == lines && ls[|lines|] == line;
    assert |lines| > 0 ==> ls[|lines| - 1] == lines[|lines| - 1];
  }

  /** The next line is there but is not the next entry. */
  lemma NotTheLine(c: Codec, log: Bytes, lines: seq<Bytes>, line: Bytes, end: nat)
    requires Chained(c, lines) && end <= |log| && log[..end] == Joined(lines + [line]) && NEWLINE !in line
    requires c.read(line) == None || c.read(line).value.seqNo != |lines| + 1 || c.read(line).value.prev != HeadOf(c, lines).hash
    ensures forall ls :: log == Joined(ls) ==> !Chained(c, ls)
  {
    hide Chained, LineOk, Joined, PrevHash;
    forall ls | log == Joined(ls)
      ensures !Chained(c, ls)
    {
      if Chained(c, ls) {
        ChainedNoNewlines(c, lines);
        ChainedNoNewlines(c, ls);
        assert log == Joined(lines + [line]) + log[end..];
        CutOnce(lines + [line], ls, log[end..]);
        NextIsEntry(c, ls, lines, line);
      }
    }
  }

  // ---- Tamper evidence.

  /** Two different lines with one hash. */
  ghost predicate Collision(c: Codec, lines: seq<Bytes>, others: seq<Bytes>) {
    exists i :: 0 <= i < |lines| && i < |others| && lines[i] != others[i] && c.hash(lines[i]) == c.hash(others[i])
  }

  /** If two chains have one hash at position `n`, they are the same up to it,
      or here are two different lines with one hash. */
  lemma {:induction false} OneHashPinsHistory(c: Codec, lines: seq<Bytes>, others: seq<Bytes>, n: nat)
    requires Chained(c, lines) && Chained(c, others) && 0 < n <= |lines| && n <= |others|
    requires c.hash(lines[n - 1]) == c.hash(others[n - 1])
    ensures lines[..n] == others[..n] || Collision(c, lines, others)
  {
    if lines[n - 1] == others[n - 1] {
      assert LineOk(c, lines, n - 1) && LineOk(c, others, n - 1);
      if n > 1 {
        OneHashPinsHistory(c, lines, others, n - 1);
      }
      assert lines[..n] == lines[..n - 1] + [lines[n - 1]];
      assert others[..n] == others[..n - 1] + [others[n - 1]];
    }
  }
}
