/** The per-item XOR stream that makes stored content inert. */
module Cipher {

  const KEY_LEN: nat := 32
  const CHUNK: nat := 65536

  /** "AWQDATA1", the header of every stored copy. */
  const DATA_MAGIC: seq<bv8> := [0x41, 0x57, 0x51, 0x44, 0x41, 0x54, 0x41, 0x31]

  /** `data` as it is stored when it starts `offset` bytes into the stream. */
  function Mask(key: seq<bv8>, offset: nat, data: seq<bv8>): (masked: seq<bv8>)
    requires |key| > 0
    ensures |masked| == |data|
    ensures forall i :: 0 <= i < |data| ==> masked[i] == data[i] ^ key[(offset + i) % |key|]
  {
    seq(|data|, i requires 0 <= i < |data| => data[i] ^ key[(offset + i) % |key|])
  }

  /** What a stored copy of `plain` holds on disk. */
  function Encoded(key: seq<bv8>, plain: seq<bv8>): (stored: seq<bv8>)
    requires |key| > 0
  {
    DATA_MAGIC + Mask(key, 0, plain)
  }

  lemma XorTwice(x: bv8, k: bv8)
    ensures (x ^ k) ^ k == x
  {
  }

  /** Decoding undoes encoding at every offset. */
  lemma MaskInvolution(key: seq<bv8>, offset: nat, data: seq<bv8>)
    requires |key| > 0
    ensures Mask(key, offset, Mask(key, offset, data)) == data
  {
    var twice := Mask(key, offset, Mask(key, offset, data));
    forall i | 0 <= i < |data|
      ensures twice[i] == data[i]
    {
      XorTwice(data[i], key[(offset + i) % |key|]);
    }
  }

  /** The stream depends on the absolute offset only: however the content is
      cut into reads, masking the pieces in turn masks the whole. */
  lemma MaskPieces(key: seq<bv8>, offset: nat, front: seq<bv8>, back: seq<bv8>)
    requires |key| > 0
    ensures Mask(key, offset, front + back) == Mask(key, offset, front) + Mask(key, offset + |front|, back)
  {
    var whole := Mask(key, offset, front + back);
    var parts := Mask(key, offset, front) + Mask(key, offset + |front|, back);
    forall i | 0 <= i < |whole|
      ensures whole[i] == parts[i]
    {
      if i >= |front| {
        assert offset + i == offset + |front| + (i - |front|);
      }
    }
  }

  /** Masks the first `n` bytes of a read buffer in place. */
  method XorInPlace(buf: array<bv8>, n: nat, key: seq<bv8>, offset: nat)
    requires n <= buf.Length && |key| > 0
    modifies buf
    ensures buf[..n] == Mask(key, offset, old(buf[..n]))
    ensures buf[n..] == old(buf[n..])
  {
    var i := 0;
    while i < n
      invariant 0 <= i <= n
      invariant forall j :: 0 <= j < i ==> buf[j] == old(buf[j]) ^ key[(offset + j) % |key|]
      invariant forall j :: i <= j < buf.Length ==> buf[j] == old(buf[j])
    {
      buf[i] := buf[i] ^ key[(offset + i) % |key|];
      i := i + 1;
    }
  }
}
