/** The text of an anchor in the system log, and reading it back. */
module AnchorText {
  import opened Wrappers
  import opened Anchors

  const TAG: string := "audit seq="

  // ---- Writing.

  predicate IsAlnum(c: char) {
    'a' <= c <= 'z' || 'A' <= c <= 'Z' || '0' <= c <= '9'
  }

  /** What cannot start a new field or line, and no more than `max` of it. */
  function Clean(s: string, max: nat): (r: string)
    ensures |r| <= max && forall i :: 0 <= i < |r| ==> IsAlnum(r[i]) || r[i] == '_'
  {
    if s == "" || max == 0 then ""
    else if IsAlnum(s[0]) || s[0] == '_' then [s[0]] + Clean(s[1..], max - 1)
    else Clean(s[1..], max)
  }

  function Digit(d: nat): (c: char)
    requires d < 10
    ensures '0' <= c <= '9' && c as int - '0' as int == d
  {
    (('0' as int) + d) as char
  }

  function Decimal(n: nat): (s: string)
    ensures |s| > 0 && forall i :: 0 <= i < |s| ==> '0' <= s[i] <= '9'
  {
    if n < 10 then [Digit(n)] else Decimal(n / 10) + [Digit(n % 10)]
  }

  /** One line: "audit seq=... hash=... chain=... action=... outcome=...". */
  function AnchorLine(seqNo: nat, hash: string, chain: string, action: string, outcome: string): (text: string) {
    "audit " + ("seq" + "=" + Decimal(seqNo)
    + (" " + ("hash" + "=" + Clean(hash, 64)
    + (" " + ("chain" + "=" + Clean(chain, 16)
    + (" " + ("action" + "=" + Clean(action, 32)
    + (" " + ("outcome" + "=" + Clean(outcome, 32))))))))))
  }

  // ---- Reading.

  predicate IsSpace(c: char) {
    || ('\t' <= c <= '\r') || c == ' ' || c == '\U{85}' || c == '\U{A0}' || c == '\U{1680}'
    || ('\U{2000}' <= c <= '\U{200A}') || c == '\U{2028}' || c == '\U{2029}' || c == '\U{202F}' || c == '\U{205F}' || c == '\U{3000}'
  }

  /** How many characters come before the first space. */
  function WordLength(s: string): (n: nat)
    ensures n <= |s| && (forall i :: 0 <= i < n ==> !IsSpace(s[i])) && (n < |s| ==> IsSpace(s[n]))
  {
    if s == "" || IsSpace(s[0]) then 0 else 1 + WordLength(s[1..])
  }

  /** The words of `s`. */
  function Words(s: string): (words: seq<string>)
    decreases |s|
  {
    if s == "" then []
    else if IsSpace(s[0]) then Words(s[1..])
    else [s[..WordLength(s)]] + Words(s[WordLength(s)..])
  }

  /** What is before and after the first '='. */
  function SplitField(word: string): (kv: Option<(string, string)>) {
    if word == "" then None
    else if word[0] == '=' then Some(("", word[1..]))
    else match SplitField(word[1..])
         case None => None
         case Some((k, v)) => Some(([word[0]] + k, v))
  }

  function DigitsValue(s: string): (n: Option<nat>)
  {
    if s == "" then Some(0)
    else if !('0' <= s[|s| - 1] <= '9') then None
    else match DigitsValue(s[..|s| - 1])
         case None => None
         case Some(n) => Some(10 * n + (s[|s| - 1] as int - '0' as int))
  }

  /** A decimal 64-bit number, with or without a plus sign. */
  function ParseU64(s: string): (n: Option<nat>) {
    var digits := if s != "" && s[0] == '+' then s[1..] else s;
    if digits == "" || DigitsValue(digits).None? || DigitsValue(digits).value >= U64 then None
    else DigitsValue(digits)
  }

  predicate IsHexDigit(c: char) {
    '0' <= c <= '9' || 'a' <= c <= 'f' || 'A' <= c <= 'F'
  }

  predicate IsHex(s: string, length: nat) {
    |s| == length && forall i :: 0 <= i < |s| ==> IsHexDigit(s[i])
  }

  function LowerChar(c: char): (l: char) {
    if 'A' <= c <= 'Z' then ((c as int) + 32) as char else c
  }

  function Lower(s: string): (l: string) {
    seq(|s|, i requires 0 <= i < |s| => LowerChar(s[i]))
  }

  datatype Fields = Fields(seqNo: Option<nat>, hash: Option<string>, chain: Option<string>)

  /** What one field adds to those read so far. */
  function WithField(f: Fields, key: string, value: string): (after: Fields) {
    if key == "seq" then f.(seqNo := ParseU64(value))
    else if key == "hash" && IsHex(value, 64) then f.(hash := Some(Lower(value)))
    else if key == "chain" && IsHex(value, 16) then f.(chain := Some(Lower(value)))
    else f
  }

  /** All fields, unless one has no '='. */
  function ReadFields(words: seq<string>): (f: Option<Fields>) {
    if words == [] then Some(Fields(None, None, None))
    else match ReadFields(words[..|words| - 1])
         case None => None
         case Some(f) =>
           match SplitField(words[|words| - 1])
           case None => None
           case Some((k, v)) => Some(WithField(f, k, v))
  }

  function AnchorOf(f: Fields): (a: Option<Anchor>) {
    if f.seqNo.Some? && f.hash.Some? then Some(Anchor(f.seqNo.value, f.hash.value, f.chain)) else None
  }

  predicate TagAt(message: string, i: nat) {
    i <= |message| && TAG <= message[i..]
  }

  /** What an anchor message says: the fields that follow its first tag. */
  ghost predicate Says(message: string, a: Option<Anchor>) {
    || (a == None && forall i :: 0 <= i <= |message| ==> !TagAt(message, i))
    || exists i :: FirstTag(message, i) && a == FieldsFrom(message[i + 6..])
  }

  ghost predicate FirstTag(message: string, i: nat) {
    i + 10 <= |message| && TagAt(message, i) && forall j :: 0 <= j < i ==> !TagAt(message, j)
  }

  function FieldsFrom(text: string): (a: Option<Anchor>) {
    match ReadFields(Words(text))
    case None => None
    case Some(f) => AnchorOf(f)
  }

  method ParseAnchor(message: string) returns (a: Option<Anchor>)
    ensures Says(message, a)
  {
    var at := 0;
    while at <= |message| && !TagAt(message, at)
      invariant at <= |message| + 1
      invariant forall j :: 0 <= j < at && j <= |message| ==> !TagAt(message, j)
    {
      at := at + 1;
    }
    if at > |message| {
      return None;
    }
    assert |TAG| == 10 && |message[at..]| >= 10;
    assert FirstTag(message, at);
    var words := Words(message[at + 6..]);
    var fields := Fields(None, None, None);
    for i := 0 to |words|
      invariant ReadFields(words[..i]) == Some(fields)
    {
      var kv := SplitField(words[i]);
      assert words[..i + 1][..i] == words[..i];
      if kv == None {
        Unreadable(words, i + 1);
        return None;
      }
      fields := WithField(fields, kv.value.0, kv.value.1);
    }
    assert words[..|words|] == words;
    a := AnchorOf(fields);
  }

  /** A field that cannot be read spoils the whole. */
  lemma {:induction false} Unreadable(words: seq<string>, n: nat)
    requires n <= |words| && ReadFields(words[..n]) == None
    ensures ReadFields(words) == None
    decreases |words| - n
  {
    if n == |words| {
      assert words[..n] == words;
    } else {
      assert words[..n + 1][..n] == words[..n];
      Unreadable(words, n + 1);
    }
  }

  // ---- There and back.

  lemma {:induction false} DecimalValue(n: nat)
    ensures DigitsValue(Decimal(n)) == Some(n)
  {
    if n >= 10 {
      DecimalValue(n / 10);
      var s := Decimal(n);
      assert s[..|s| - 1] == Decimal(n / 10);
    } else {
      assert Decimal(n)[..0] == "";
      assert DigitsValue("") == Some(0);
    }
  }

  predicate NoSpaces(s: string) {
    forall i :: 0 <= i < |s| ==> !IsSpace(s[i])
  }

  lemma {:induction false} WordEnds(word: string, rest: string)
    requires NoSpaces(word) && (rest == "" || IsSpace(rest[0]))
    ensures WordLength(word + rest) == |word|
  {
    if word != "" {
      assert (word + rest)[1..] == word[1..] + rest;
      WordEnds(word[1..], rest);
    } else {
      assert word + rest == rest;
    }
  }

  lemma FirstWord(word: string, rest: string)
    requires NoSpaces(word) && word != "" && (rest == "" || IsSpace(rest[0]))
    ensures Words(word + rest) == [word] + Words(rest)
  {
    WordEnds(word, rest);
    assert (word + rest)[..|word|] == word && (word + rest)[|word|..] == rest;
    assert !IsSpace((word + rest)[0]);
  }

  lemma NextWord(rest: string)
    ensures Words(" " + rest) == Words(rest)
  {
    assert (" " + rest)[1..] == rest;
  }

  lemma {:induction false} SplitAt(key: string, value: string)
    requires '=' !in key
    ensures SplitField(key + "=" + value) == Some((key, value))
  {
    if key != "" {
      SplitAt(key[1..], value);
      assert (key + "=" + value)[1..] == key[1..] + "=" + value;
      assert [key[0]] + key[1..] == key;
    } else {
      assert (key + "=" + value)[1..] == value;
    }
  }

  lemma {:induction false} CleanKeeps(s: string)
    requires forall i :: 0 <= i < |s| ==> IsHexDigit(s[i])
    ensures forall max :: max >= |s| ==> Clean(s, max) == s
  {
    if s != "" {
      CleanKeeps(s[1..]);
      assert [s[0]] + s[1..] == s;
    }
  }

  /** A field with its key is a word, and the next one follows it. */
  lemma OneField(key: string, value: string, rest: string)
    requires NoSpaces(key) && NoSpaces(value)
    ensures Words(key + "=" + value + (" " + rest)) == [key + "=" + value] + Words(rest)
    ensures Words(key + "=" + value) == [key + "=" + value]
  {
    var word := key + "=" + value;
    assert NoSpaces(word);
    FirstWord(word, " " + rest);
    NextWord(rest);
    FirstWord(word, "");
    assert word + "" == word;
  }

  lemma ReadOneMore(words: seq<string>, key: string, value: string)
    requires '=' !in key && ReadFields(words).Some?
    ensures ReadFields(words + [key + "=" + value]) == Some(WithField(ReadFields(words).value, key, value))
  {
    SplitAt(key, value);
    assert (words + [key + "=" + value])[..|words|] == words;
  }

  /** The words of an anchor line. */
  function LineWords(seqNo: nat, hash: string, chain: string, action: string, outcome: string): (words: seq<string>) {
    ["seq" + "=" + Decimal(seqNo)] + ["hash" + "=" + Clean(hash, 64)] + ["chain" + "=" + Clean(chain, 16)]
    + ["action" + "=" + Clean(action, 32)] + ["outcome" + "=" + Clean(outcome, 32)]
  }

  lemma LineIsWords(seqNo: nat, hash: string, chain: string, action: string, outcome: string)
    ensures Words(AnchorLine(seqNo, hash, chain, action, outcome)[6..]) == LineWords(seqNo, hash, chain, action, outcome)
  {
    hide Words, Clean, Decimal;
    var d, h, c, a, o := Decimal(seqNo), Clean(hash, 64), Clean(chain, 16), Clean(action, 32), Clean(outcome, 32);
    var r4 := "outcome" + "=" + o;
    var r3 := "action" + "=" + a + (" " + r4);
    var r2 := "chain" + "=" + c + (" " + r3);
    var r1 := "hash" + "=" + h + (" " + r2);
    OneField("seq", d, r1);
    OneField("hash", h, r2);
    OneField("chain", c, r3);
    OneField("action", a, r4);
    OneField("outcome", o, "");
    AfterTag("seq" + "=" + d + (" " + r1));
  }

  lemma AfterTag(rest: string)
    ensures ("audit " + rest)[6..] == rest
  {
  }

  /** The line begins with the tag. */
  lemma LineHasTag(seqNo: nat, hash: string, chain: string, action: string, outcome: string)
    ensures TAG <= AnchorLine(seqNo, hash, chain, action, outcome)
  {
    hide Clean, Decimal;
    var line := AnchorLine(seqNo, hash, chain, action, outcome);
    assert line[..6] == "audit " && line[6..9] == "seq" && line[9..10] == "=";
    assert line[..10] == line[..6] + line[6..9] + line[9..10];
  }

  lemma LineFields(seqNo: nat, hash: string, chain: string, action: string, outcome: string)
    requires seqNo < U64 && IsHex(hash, 64) && IsHex(chain, 16)
    ensures ReadFields(LineWords(seqNo, hash, chain, action, outcome)) == Some(Fields(Some(seqNo), Some(Lower(hash)), Some(Lower(chain))))
  {
    hide ReadFields, Clean, Decimal;
    CleanKeeps(hash);
    CleanKeeps(chain);
    DecimalValue(seqNo);
    assert ParseU64(Decimal(seqNo)) == Some(seqNo);
    ReadNothing();
    var w0: seq<string> := [];
    var w1 := w0 + ["seq" + "=" + Decimal(seqNo)];
    var w2 := w1 + ["hash" + "=" + Clean(hash, 64)];
    var w3 := w2 + ["chain" + "=" + Clean(chain, 16)];
    var w4 := w3 + ["action" + "=" + Clean(action, 32)];
    ReadOneMore(w0, "seq", Decimal(seqNo));
    ReadOneMore(w1, "hash", Clean(hash, 64));
    ReadOneMore(w2, "chain", Clean(chain, 16));
    ReadOneMore(w3, "action", Clean(action, 32));
    ReadOneMore(w4, "outcome", Clean(outcome, 32));
    assert w1 == ["seq" + "=" + Decimal(seqNo)];
  }

  lemma ReadNothing()
    ensures ReadFields([]) == Some(Fields(None, None, None))
  {
  }

  /** Whatever the action and outcome say, and whatever the system log puts
      before it, an anchor line reads back as the entry it is about. */
  lemma AnchorTextRoundTrip(header: string, seqNo: nat, hash: string, chain: string, action: string, outcome: string, a: Option<Anchor>)
    requires seqNo < U64 && IsHex(hash, 64) && IsHex(chain, 16)
    requires forall j :: 0 <= j < |header| ==> !TagAt(header + AnchorLine(seqNo, hash, chain, action, outcome), j)
    requires Says(header + AnchorLine(seqNo, hash, chain, action, outcome), a)
    ensures a == Some(Anchor(seqNo, Lower(hash), Some(Lower(chain))))
  {
    hide ReadFields, Words, AnchorLine, LineWords, Lower, IsHex, FieldsFrom;
    var line := AnchorLine(seqNo, hash, chain, action, outcome);
    LineHasTag(seqNo, hash, chain, action, outcome);
    TagAfter(header, line);
    var i :| FirstTag(header + line, i) && a == FieldsFrom((header + line)[i + 6..]);
    OneFirstTag(header + line, i, |header|);
    LineSays(seqNo, hash, chain, action, outcome);
  }

  lemma TagAfter(header: string, line: string)
    requires TAG <= line
    ensures TagAt(header + line, |header|) && |line| >= 10 && (header + line)[|header| + 6..] == line[6..]
  {
    assert (header + line)[|header|..] == line;
  }

  lemma OneFirstTag(message: string, i: nat, k: nat)
    requires FirstTag(message, i) && k <= |message| && TagAt(message, k) && forall j :: 0 <= j < k ==> !TagAt(message, j)
    ensures i == k
  {
  }

  lemma LineSays(seqNo: nat, hash: string, chain: string, action: string, outcome: string)
    requires seqNo < U64 && IsHex(hash, 64) && IsHex(chain, 16) && |AnchorLine(seqNo, hash, chain, action, outcome)| >= 6
    ensures FieldsFrom(AnchorLine(seqNo, hash, chain, action, outcome)[6..]) == Some(Anchor(seqNo, Lower(hash), Some(Lower(chain))))
  {
    hide ReadFields, Words, AnchorLine, LineWords, Lower, IsHex;
    LineIsWords(seqNo, hash, chain, action, outcome);
    LineFields(seqNo, hash, chain, action, outcome);
  }

}
