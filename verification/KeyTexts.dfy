/** How the text of a public key is read, twice: as it stands, and line by line. */
module KeyTexts {
  import opened Wrappers

  type Bytes = seq<bv8>

  const COMMENT: string := "untrusted comment:"

  /** What the two readings of a text give: the ID in the text as it stands, and
      the ID and key in its first line that is neither empty nor a comment. */
  datatype Readings = Readings(raw: Option<Bytes>, decoded: Option<(Bytes, Bytes)>)

  /** If the text as it stands has an ID, it is that of its key. */
  type KeyText = t: Readings | t.raw.Some? && t.decoded.Some? ==> t.raw.value == t.decoded.value.0 witness Readings(None, None)

  // ---- Base64.

  function Value(c: char): (v: Option<nat>)
    ensures v.Some? ==> v.value < 64
  {
    if 'A' <= c <= 'Z' then Some(c as nat - 'A' as nat)
    else if 'a' <= c <= 'z' then Some(c as nat - 'a' as nat + 26)
    else if '0' <= c <= '9' then Some(c as nat - '0' as nat + 52)
    else if c == '+' then Some(62)
    else if c == '/' then Some(63)
    else None
  }

  /** How many characters at the end are padding. */
  function Padding(s: string): (k: nat)
    ensures k <= |s| && forall i :: |s| - k <= i < |s| ==> s[i] == '='
  {
    if s == [] || s[|s| - 1] != '=' then 0 else 1 + Padding(s[..|s| - 1])
  }

  function Number(s: string): (n: Option<nat>)
    ensures n.Some? ==> forall c :: c in s ==> Value(c).Some?
  {
    if s == [] then Some(0)
    else if Number(s[..|s| - 1]).None? || Value(s[|s| - 1]).None? then None
    else Some(Number(s[..|s| - 1]).value * 64 + Value(s[|s| - 1]).value)
  }

  function Chunk(s: string): (b: Option<Bytes>)
    requires |s| == 4
    ensures b.Some? ==> forall c :: c in s ==> Value(c).Some? || c == '='
  {
    var pad := Padding(s);
    if pad > 2 || Number(s[..4 - pad]).None? then None
    else
      var n := Number(s[..4 - pad]).value * (if pad == 0 then 1 else if pad == 1 then 64 else 4096);
      assert forall c :: c in s ==> c in s[..4 - pad] || c in s[4 - pad..];
      Some([(n / 65536 % 256) as bv8, (n / 256 % 256) as bv8, (n % 256) as bv8][..3 - pad])
  }

  function Base64(s: string): (b: Option<Bytes>)
    ensures b.Some? ==> |s| % 4 == 0 && forall c :: c in s ==> Value(c).Some? || c == '='
  {
    if s == [] then Some([])
    else if |s| % 4 != 0 || Chunk(s[..4]).None? || Base64(s[4..]).None? then None
    else
      assert s == s[..4] + s[4..];
      Some(Chunk(s[..4]).value + Base64(s[4..]).value)
  }

  // ---- Lines.

  predicate IsSpace(c: char) {
    c == ' ' || '\t' <= c <= '\r'
  }

  function TrimStart(s: string): (r: string) {
    if s != [] && IsSpace(s[0]) then TrimStart(s[1..]) else s
  }

  function TrimEnd(s: string): (r: string) {
    if s != [] && IsSpace(s[|s| - 1]) then TrimEnd(s[..|s| - 1]) else s
  }

  /** The length of the first line. */
  function LineLength(s: string): (n: nat)
    ensures n <= |s|
  {
    if s == [] || s[0] == '\n' then 0 else 1 + LineLength(s[1..])
  }

  function KeyLine(s: string): (l: Option<string>) {
    if s == [] then None
    else
      var n := LineLength(s);
      var line := TrimEnd(TrimStart(s[..n]));
      if line != [] && !(COMMENT <= line) then Some(line)
      else if n == |s| then None
      else KeyLine(s[n + 1..])
  }

  // ---- Reading a key.

  function IdIn(b: Bytes): (id: Option<Bytes>) {
    if |b| < 10 then None else Some(b[2..10])
  }

  function RawId(text: string): (id: Option<Bytes>) {
    if Base64(text).None? then None else IdIn(Base64(text).value)
  }

  /** `key` is how the signature library reads a line. */
  function Decoded(key: string -> Option<Bytes>, text: string): (d: Option<(Bytes, Bytes)>) {
    var line := KeyLine(text);
    if line.None? || key(line.value).None? || RawId(line.value).None? then None
    else Some((RawId(line.value).value, key(line.value).value))
  }

  lemma {:induction false} NothingToTrim(s: string)
    requires forall c :: c in s ==> !IsSpace(c)
    ensures LineLength(s) == |s| && TrimStart(s) == s && TrimEnd(s) == s
  {
    if s != [] {
      assert s[0] in s && s[|s| - 1] in s;
      NothingToTrim(s[1..]);
    }
  }

  lemma CommentHasSpace(s: string)
    requires COMMENT <= s
    ensures ' ' in s
  {
    assert s[9] == ' ';
  }

  /** A text that is base64 as it stands is its own key line. */
  lemma BareIsLine(text: string)
    requires Base64(text).Some? && text != []
    ensures KeyLine(text) == Some(text)
  {
    NothingToTrim(text);
    assert text[..|text|] == text;
    if COMMENT <= text {
      CommentHasSpace(text);
    }
  }

  function ReadKeyText(key: string -> Option<Bytes>, text: string): (t: KeyText)
    ensures t == Readings(RawId(text), Decoded(key, text))
  {
    if RawId(text).Some? then
      BareIsLine(text);
      Readings(RawId(text), Decoded(key, text))
    else Readings(None, Decoded(key, text))
  }

  /** A space before the text of a key hides its ID from the first reading and
      changes nothing in the second. */
  lemma SpaceHidesId(key: string -> Option<Bytes>, text: string)
    requires ReadKeyText(key, text).raw.Some?
    ensures ReadKeyText(key, " " + text) == ReadKeyText(key, text).(raw := None)
  {
    hide Base64, TrimEnd;
    NoIdInNothing();
    var padded := " " + text;
    BareIsLine(text);
    NothingToTrim(text);
    SpaceTrimmed(text);
    assert Base64(padded).None?;
    assert padded[..|padded|] == padded;
  }

  lemma NoIdInNothing()
    ensures RawId("") == None
  {
  }

  lemma SpaceTrimmed(text: string)
    ensures TrimStart(" " + text) == TrimStart(text) && LineLength(" " + text) == 1 + LineLength(text)
  {
    assert (" " + text)[1..] == text;
  }
}
