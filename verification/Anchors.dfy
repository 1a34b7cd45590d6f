/** Comparing the local chain with the anchors the system log received. */
module Anchors {
  import opened Wrappers
  import opened Collections
  import opened AuditChain

  const U64: nat := 0x1_0000_0000_0000_0000

  datatype Anchor = Anchor(seqNo: nat, hash: Hash, chain: Option<string>)

  datatype Comparison = Comparison(
    entries: nat,
    matched: nat,
    mismatched: seq<nat>,
    missingLocally: seq<nat>,
    unanchored: nat,
    otherChains: nat)

  type Chain = seq<(nat, Hash)>

  predicate Consistent(c: Comparison) {
    c.mismatched == [] && c.missingLocally == []
  }

  /** The hash of each entry by its number; of two with one number, the last. */
  function Local(chain: Chain): (m: map<nat, Hash>) {
    if chain == [] then map[] else Local(chain[..|chain| - 1])[chain[|chain| - 1].0 := chain[|chain| - 1].1]
  }

  function LastSeq(chain: Chain): (n: nat) {
    if chain == [] then 0 else chain[|chain| - 1].0
  }

  function IdOf(chain: Chain): (id: Option<string>) {
    if chain == [] then None else Some(ChainId(chain[0].1))
  }

  // ---- What the anchors of this chain say.

  predicate Ours(chain: Chain, a: Anchor) {
    a.chain.Some? && a.chain == IdOf(chain)
  }

  predicate Matches(chain: Chain, a: Anchor) {
    Ours(chain, a) && a.seqNo in Local(chain) && Local(chain)[a.seqNo] == a.hash
  }

  predicate Conflicts(chain: Chain, a: Anchor) {
    Ours(chain, a) && a.seqNo in Local(chain) && Local(chain)[a.seqNo] != a.hash
  }

  predicate Beyond(chain: Chain, a: Anchor) {
    Ours(chain, a) && a.seqNo !in Local(chain) && a.seqNo > LastSeq(chain)
  }

  function MatchedSeqs(chain: Chain, anchors: seq<Anchor>): (s: set<nat>) {
    set a | a in anchors && Matches(chain, a) :: a.seqNo
  }

  function ConflictingSeqs(chain: Chain, anchors: seq<Anchor>): (s: set<nat>) {
    set a | a in anchors && Conflicts(chain, a) :: a.seqNo
  }

  function BeyondSeqs(chain: Chain, anchors: seq<Anchor>): (s: set<nat>) {
    set a | a in anchors && Beyond(chain, a) :: a.seqNo
  }

  function Foreign(chain: Chain, anchors: seq<Anchor>): (n: nat)
    ensures n <= |anchors|
  {
    if anchors == [] then 0
    else Foreign(chain, anchors[..|anchors| - 1]) + (if Ours(chain, anchors[|anchors| - 1]) then 0 else 1)
  }

  /** Subtraction of 64-bit unsigned integers, as it wraps. */
  function SubU64(a: int, b: int): (d: nat) {
    (a - b) % U64
  }

  /** The whole outcome, but for the order of the two lists. */
  predicate Compared(chain: Chain, anchors: seq<Anchor>, c: Comparison) {
    && c.entries == |chain|
    && c.matched == |MatchedSeqs(chain, anchors)|
    && AllDistinct(c.mismatched) && SetOf(c.mismatched) == ConflictingSeqs(chain, anchors)
    && AllDistinct(c.missingLocally) && SetOf(c.missingLocally) == BeyondSeqs(chain, anchors)
    && c.otherChains == Foreign(chain, anchors)
    && c.unanchored == SubU64(SubU64(c.entries, c.matched), |c.mismatched|)
  }

  method CompareAnchors(chain: Chain, anchors: seq<Anchor>) returns (out: Comparison)
    ensures Compared(chain, anchors, out)
  {
    hide Local, Foreign, MatchedSeqs, ConflictingSeqs, BeyondSeqs, SetOf, AllDistinct;
    var id := IdOf(chain);
    var local := Local(chain);
    var head := LastSeq(chain);
    var matched: nat, mismatched: seq<nat>, missing: seq<nat>, other: nat := 0, [], [], 0;
    var anchored: set<nat> := {};
    NoAnchors(chain);
    for i := 0 to |anchors|
      invariant anchored == MatchedSeqs(chain, anchors[..i]) && matched == |anchored|
      invariant AllDistinct(mismatched) && SetOf(mismatched) == ConflictingSeqs(chain, anchors[..i])
      invariant AllDistinct(missing) && SetOf(missing) == BeyondSeqs(chain, anchors[..i])
      invariant other == Foreign(chain, anchors[..i])
    {
      var a := anchors[i];
      OneMoreAnchor(chain, anchors[..i], a);
      assert anchors[..i + 1] == anchors[..i] + [a];
      if a.chain.None? || a.chain != id {
        other := other + 1;
        continue;
      }
      if a.seqNo in local && local[a.seqNo] == a.hash {
        if a.seqNo !in anchored {
          anchored := anchored + {a.seqNo};
          matched := matched + 1;
        }
      } else if a.seqNo in local {
        mismatched := PushNew(mismatched, a.seqNo);
      } else if a.seqNo > head {
        missing := PushNew(missing, a.seqNo);
      }
    }
    assert anchors[..|anchors|] == anchors;
    out := Comparison(|chain|, matched, mismatched, missing, SubU64(SubU64(|chain|, matched), |mismatched|), other);
  }

  /** Pushes what is not there yet. */
  function PushNew(s: seq<nat>, x: nat): (r: seq<nat>)
    requires AllDistinct(s)
    ensures AllDistinct(r) && SetOf(r) == SetOf(s) + {x}
  {
    if x in s then s else s + [x]
  }

  lemma NoAnchors(chain: Chain)
    ensures Foreign(chain, []) == 0 && MatchedSeqs(chain, []) == {}
    ensures SetOf<nat>([]) == ConflictingSeqs(chain, []) == BeyondSeqs(chain, []) == {} && AllDistinct<nat>([])
  {
  }

  lemma OneMoreAnchor(chain: Chain, anchors: seq<Anchor>, a: Anchor)
    ensures MatchedSeqs(chain, anchors + [a]) == MatchedSeqs(chain, anchors) + (if Matches(chain, a) then {a.seqNo} else {})
    ensures ConflictingSeqs(chain, anchors + [a]) == ConflictingSeqs(chain, anchors) + (if Conflicts(chain, a) then {a.seqNo} else {})
    ensures BeyondSeqs(chain, anchors + [a]) == BeyondSeqs(chain, anchors) + (if Beyond(chain, a) then {a.seqNo} else {})
    ensures Foreign(chain, anchors + [a]) == Foreign(chain, anchors) + (if Ours(chain, a) then 0 else 1)
  {
    assert (anchors + [a])[..|anchors|] == anchors;
  }

  // ---- Order and repetition.

  /** The outcome depends only on which anchors there are. */
  lemma OrderAndRepeatsDoNotMatter(chain: Chain, anchors: seq<Anchor>, others: seq<Anchor>, c: Comparison, d: Comparison)
    requires Compared(chain, anchors, c) && Compared(chain, others, d)
    requires forall a :: a in anchors <==> a in others
    ensures c.entries == d.entries && c.matched == d.matched && c.unanchored == d.unanchored
    ensures SetOf(c.mismatched) == SetOf(d.mismatched) && |c.mismatched| == |d.mismatched|
    ensures SetOf(c.missingLocally) == SetOf(d.missingLocally)
    ensures Consistent(c) <==> Consistent(d)
  {
    hide Matches, Conflicts, Beyond, Foreign;
    assert MatchedSeqs(chain, anchors) == MatchedSeqs(chain, others);
    assert ConflictingSeqs(chain, anchors) == ConflictingSeqs(chain, others);
    assert BeyondSeqs(chain, anchors) == BeyondSeqs(chain, others);
    DistinctSize(c.mismatched);
    DistinctSize(d.mismatched);
    DistinctSize(c.missingLocally);
    DistinctSize(d.missingLocally);
  }

  /** Only the count of other chains' anchors depends on repetition, and not on
      order. */
  lemma {:induction false} ForeignAnyOrder(chain: Chain, anchors: seq<Anchor>, others: seq<Anchor>)
    requires multiset(anchors) == multiset(others)
    ensures Foreign(chain, anchors) == Foreign(chain, others)
    decreases |anchors|
  {
    hide Foreign, Ours;
    if anchors == [] {
      assert |others| == |multiset(others)|;
    } else {
      var n := |anchors| - 1;
      assert anchors[n] in multiset(others);
      var k :| 0 <= k < |others| && others[k] == anchors[n];
      MultisetWithout(others, k);
      MultisetWithout(anchors, n);
      assert anchors[..n] + anchors[n + 1..] == anchors[..n];
      assert multiset(anchors[..n]) == multiset(anchors) - multiset{anchors[n]};
      assert multiset(others[..k] + others[k + 1..]) == multiset(others) - multiset{anchors[n]};
      ForeignAnyOrder(chain, anchors[..n], others[..k] + others[k + 1..]);
      ForeignWithout(chain, others, k);
      ForeignWithout(chain, anchors, n);
    }
  }

  lemma ForeignWithout(chain: Chain, anchors: seq<Anchor>, k: nat)
    requires k < |anchors|
    ensures Foreign(chain, anchors) == Foreign(chain, anchors[..k] + anchors[k + 1..]) + (if Ours(chain, anchors[k]) then 0 else 1)
  {
    assert anchors == anchors[..k] + ([anchors[k]] + anchors[k + 1..]);
    ForeignJoin(chain, anchors[..k], [anchors[k]] + anchors[k + 1..]);
    ForeignJoin(chain, [anchors[k]], anchors[k + 1..]);
    ForeignJoin(chain, anchors[..k], anchors[k + 1..]);
    assert Foreign(chain, [anchors[k]]) == (if Ours(chain, anchors[k]) then 0 else 1) by {
      assert [anchors[k]][..0] == [];
    }
  }

  lemma {:induction false} ForeignJoin(chain: Chain, a: seq<Anchor>, b: seq<Anchor>)
    ensures Foreign(chain, a + b) == Foreign(chain, a) + Foreign(chain, b)
  {
    if b == [] {
      assert a + b == a;
    } else {
      ForeignJoin(chain, a, b[..|b| - 1]);
      assert (a + b)[..|a + b| - 1] == a + b[..|b| - 1];
    }
  }

  // ---- Conservation.

  /** Entry numbers, each once, as a verified log gives them. */
  predicate Numbered(chain: Chain) {
    forall i :: 0 <= i < |chain| ==> chain[i].0 == i + 1
  }

  lemma {:induction false} LocalNumbered(chain: Chain)
    requires Numbered(chain)
    ensures forall n: nat :: n in Local(chain) <==> 1 <= n <= |chain|
    ensures |Local(chain).Keys| == |chain| && LastSeq(chain) == |chain|
    ensures forall i :: 0 <= i < |chain| ==> Local(chain)[i + 1] == chain[i].1
  {
    if chain != [] {
      var front := chain[..|chain| - 1];
      LocalNumbered(front);
      assert chain[|chain| - 1].0 == |chain|;
      assert Local(chain).Keys == Local(front).Keys + {|chain|};
      forall i | 0 <= i < |chain|
        ensures Local(chain)[i + 1] == chain[i].1
      {
        assert i < |front| ==> front[i] == chain[i];
      }
    }
  }

  /** Entries no anchor is about. */
  function Unanchored(chain: Chain, anchors: seq<Anchor>): (s: set<nat>) {
    Local(chain).Keys - MatchedSeqs(chain, anchors) - ConflictingSeqs(chain, anchors)
  }

  /** What the subtractions come to: each entry with both a matching and a
      conflicting anchor is taken off twice, and the number wraps exactly when
      more are taken off than there are entries. */
  lemma ShortByTheDouble(chain: Chain, anchors: seq<Anchor>, c: Comparison)
    requires Numbered(chain) && |chain| < U64 && Compared(chain, anchors, c)
    ensures var m, x := MatchedSeqs(chain, anchors), ConflictingSeqs(chain, anchors);
            && |m * x| <= |m| <= |chain| && |c.mismatched| == |x|
            && c.unanchored == |Unanchored(chain, anchors)| - |m * x| + (if |m| + |x| > |chain| then U64 else 0)
  {
    hide Matches, Conflicts, Beyond, Foreign, Local;
    var m, x := MatchedSeqs(chain, anchors), ConflictingSeqs(chain, anchors);
    LocalNumbered(chain);
    DistinctSize(c.mismatched);
    WithinLocal(chain, anchors);
    LeftSize(Local(chain).Keys, m, x);
    SubTwice(|chain|, |m|, |x|);
  }

  lemma WithinLocal(chain: Chain, anchors: seq<Anchor>)
    ensures MatchedSeqs(chain, anchors) <= Local(chain).Keys && ConflictingSeqs(chain, anchors) <= Local(chain).Keys
  {
  }

  lemma LeftSize(all: set<nat>, m: set<nat>, x: set<nat>)
    requires m <= all && x <= all
    ensures |all - m - x| == |all| - |m| - |x| + |m * x| && |m * x| <= |m| <= |all| && |x| <= |all|
  {
    SubsetSize(m, all);
    SubsetSize(x, all);
    SubsetSize(m * x, m);
    SubsetSize(m + x, all);
    assert all - m - x == all - (m + x);
  }

  lemma SubTwice(all: nat, m: nat, x: nat)
    requires m <= all < U64 && x <= all
    ensures SubU64(SubU64(all, m), x) == all - m - x + (if m + x > all then U64 else 0)
  {
    assert SubU64(all, m) == all - m;
    if x > all - m {
      WrapsOnce(all - m - x);
    }
  }

  /** The entries are those matched, those mismatched and those unanchored, each
      counted once, exactly when no entry has both a matching and a conflicting
      anchor. */
  lemma ConservesExactlyWhen(chain: Chain, anchors: seq<Anchor>, c: Comparison)
    requires Numbered(chain) && |chain| < U64 && Compared(chain, anchors, c)
    ensures c.unanchored == |Unanchored(chain, anchors)|
       <==> MatchedSeqs(chain, anchors) !! ConflictingSeqs(chain, anchors)
    ensures MatchedSeqs(chain, anchors) !! ConflictingSeqs(chain, anchors) ==>
              c.matched + |c.mismatched| + c.unanchored == c.entries
  {
    hide Matches, Conflicts, Beyond, Foreign, Local;
    var m, x := MatchedSeqs(chain, anchors), ConflictingSeqs(chain, anchors);
    ShortByTheDouble(chain, anchors, c);
    LocalNumbered(chain);
    WithinLocal(chain, anchors);
    LeftSize(Local(chain).Keys, m, x);
    assert m !! x <==> |m * x| == 0 by {
      assert m !! x <==> m * x == {};
    }
  }

  lemma WrapsOnce(d: int)
    requires 0 - U64 as int <= d < 0
    ensures d % U64 == d + U64
  {
    assert (d + U64) % U64 == d + U64;
  }

  /** One entry with one good and one bad anchor is reported as unanchored
      entries without number. */
  lemma BothWrap()
    ensures var h, id := GENESIS, ChainId(GENESIS);
            var chain: Chain := [(1, h)];
            var anchors := [Anchor(1, h, Some(id)), Anchor(1, "bad", Some(id))];
            forall c :: Compared(chain, anchors, c) ==> c.unanchored == U64 - 1
  {
    var h, id := GENESIS, ChainId(GENESIS);
    var chain: Chain := [(1, h)];
    var good, bad := Anchor(1, h, Some(id)), Anchor(1, "bad", Some(id));
    assert chain[..|chain| - 1] == [];
    assert Local(chain) == map[1 := h];
    assert |h| == 64 && |"bad"| == 3;
    assert Matches(chain, good) && Conflicts(chain, bad);
    assert good in [good, bad] && bad in [good, bad];
    assert MatchedSeqs(chain, [good, bad]) == {1} && ConflictingSeqs(chain, [good, bad]) == {1};
    forall c | Compared(chain, [good, bad], c)
      ensures c.unanchored == U64 - 1
    {
      DistinctSize(c.mismatched);
      assert SubU64(1, 1) == 0 && SubU64(0, 1) == U64 - 1 by {
        WrapsOnce(-1);
      }
    }
  }

  // ---- What a comparison proves.

  /** Anchors made from a chain that is still there raise no alarm, whatever
      other chains' anchors are among them. */
  lemma HonestNeverAlarms(chain: Chain, anchors: seq<Anchor>, c: Comparison)
    requires Numbered(chain) && Compared(chain, anchors, c)
    requires forall a :: a in anchors && Ours(chain, a) ==> 1 <= a.seqNo <= |chain| && a.hash == chain[a.seqNo - 1].1
    ensures Consistent(c)
  {
    LocalNumbered(chain);
    assert ConflictingSeqs(chain, anchors) == {};
    assert BeyondSeqs(chain, anchors) == {};
    DistinctSize(c.mismatched);
    DistinctSize(c.missingLocally);
  }

  /** What the store sends to the system log for these lines. */
  function AnchorsOf(c: Codec, lines: seq<Bytes>): (anchors: seq<Anchor>) {
    seq(|lines|, (i: nat) requires i < |lines| => Anchor(i + 1, c.hash(lines[i]), Some(ChainId(c.hash(lines[0])))))
  }

  lemma EntriesNumbered(c: Codec, lines: seq<Bytes>)
    ensures Numbered(EntriesOf(c, lines))
    ensures lines != [] ==> IdOf(EntriesOf(c, lines)) == Some(ChainId(c.hash(lines[0])))
  {
    if lines != [] {
      assert EntriesOf(c, lines)[0] == EntryAt(c, lines, 0);
    }
  }

  /** If a chain has the identifier of another, all of whose entries were
      anchored, and agrees with the anchors, it begins with that other chain,
      or here are two different lines with one hash. */
  lemma AnchorsPinHistory(codec: Codec, lines: seq<Bytes>, others: seq<Bytes>, anchors: seq<Anchor>, c: Comparison)
    requires Chained(codec, lines) && Chained(codec, others) && lines != []
    requires IdOf(EntriesOf(codec, others)) == IdOf(EntriesOf(codec, lines))
    requires forall a :: a in AnchorsOf(codec, lines) ==> a in anchors
    requires Compared(EntriesOf(codec, others), anchors, c) && Consistent(c)
    ensures lines <= others || Collision(codec, lines, others)
  {
    hide Chained, LineOk;
    var n := |lines|;
    var chain := EntriesOf(codec, others);
    EntriesNumbered(codec, lines);
    EntriesNumbered(codec, others);
    LocalNumbered(chain);
    var last := AnchorsOf(codec, lines)[n - 1];
    assert last in AnchorsOf(codec, lines);
    assert Ours(chain, last);
    NoAlarm(chain, anchors, c, last);
    assert n <= |others| && codec.hash(others[n - 1]) == codec.hash(lines[n - 1]) by {
      assert chain[n - 1] == EntryAt(codec, others, n - 1);
    }
    OneHashPinsHistory(codec, lines, others, n);
    assert lines[..n] == lines;
  }

  /** A consistent comparison has every anchor of the chain match. */
  lemma NoAlarm(chain: Chain, anchors: seq<Anchor>, c: Comparison, a: Anchor)
    requires Numbered(chain) && Compared(chain, anchors, c) && Consistent(c) && a in anchors && Ours(chain, a) && a.seqNo >= 1
    ensures a.seqNo <= |chain| && chain[a.seqNo - 1].1 == a.hash
  {
    LocalNumbered(chain);
    assert Conflicts(chain, a) ==> a.seqNo in ConflictingSeqs(chain, anchors);
    assert Beyond(chain, a) ==> a.seqNo in BeyondSeqs(chain, anchors);
    assert ConflictingSeqs(chain, anchors) == {} && BeyondSeqs(chain, anchors) == {};
    assert a.seqNo in Local(chain);
    assert Local(chain)[a.seqNo] == chain[a.seqNo - 1].1;
  }
}
