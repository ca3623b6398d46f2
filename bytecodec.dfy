/**
 * The client's two wire formats: a request is one unsigned integer packed
 * as exactly 4 big-endian bytes (`struct.pack(">I", v)`), and a reply is
 * whatever datagram bytes a receive with an 8-byte buffer returns, read as a
 * big-endian unsigned integer (`int.from_bytes(b, 'big')`).
 */
module ByteCodec {
  import opened Wrappers

  type Byte = b: int | 0 <= b < 256

  /** Number of bytes in a packed request. */
  const RequestSize: nat := 4

  /** Buffer size handed to the receive call: longer datagrams are cut to it. */
  const ReceiveBufSize: nat := 8

  /** 256 to the power n: the number of values n bytes can hold. */
  function Pow256(n: nat): (r: nat)
    ensures r > 0
  {
    if n == 0 then 1 else 256 * Pow256(n - 1)
  }

  lemma Pow256Values()
    ensures Pow256(RequestSize) == 0x1_0000_0000
    ensures Pow256(ReceiveBufSize) == 0x1_0000_0000_0000_0000
  {
    assert Pow256(1) == 256;
    assert Pow256(2) == 0x1_0000;
    assert Pow256(3) == 0x100_0000;
    assert Pow256(4) == 0x1_0000_0000;
    assert Pow256(5) == 0x100_0000_0000;
    assert Pow256(6) == 0x1_0000_0000_0000;
    assert Pow256(7) == 0x100_0000_0000_0000;
  }

  /** The last n bytes of v in big-endian order (most significant first). */
  function EncodeBE(v: nat, n: nat): (r: seq<Byte>)
    ensures |r| == n
  {
    if n == 0 then [] else EncodeBE(v / 256, n - 1) + [v % 256]
  }

  /** The unsigned integer that bytes s spell in big-endian order. */
  function DecodeBE(s: seq<Byte>): (r: nat)
    ensures r < Pow256(|s|)
  {
    if s == [] then 0 else DecodeBE(s[..|s| - 1]) * 256 + s[|s| - 1]
  }

  /** Decoding the n-byte encoding of a value that fits in n bytes gives the value back. */
  lemma {:induction false} DecodeEncode(v: nat, n: nat)
    requires v < Pow256(n)
    ensures DecodeBE(EncodeBE(v, n)) == v
  {
    if n > 0 {
      var e := EncodeBE(v, n);
      assert e[..|e| - 1] == EncodeBE(v / 256, n - 1);
      DecodeEncode(v / 256, n - 1);
    }
  }

  /** Encoding the value of a byte string, at the string's own width, gives the string back. */
  lemma {:induction false} EncodeDecode(s: seq<Byte>)
    ensures EncodeBE(DecodeBE(s), |s|) == s
  {
    if s != [] {
      var p := s[..|s| - 1];
      EncodeDecode(p);
      assert DecodeBE(s) / 256 == DecodeBE(p);
      assert DecodeBE(s) % 256 == s[|s| - 1];
      assert s == p + [s[|s| - 1]];
    }
  }

  /**
   * `struct.pack(">I", v)`: exactly four big-endian bytes that decode to v,
   * and a failure (`struct.error`) for every v outside [0, 2^32).
   */
  function PackU32(v: int): (r: Option<seq<Byte>>)
    ensures r.Some? <==> 0 <= v < 0x1_0000_0000
    ensures r.Some? ==> |r.value| == RequestSize && DecodeBE(r.value) == v
  {
    Pow256Values();
    if 0 <= v < 0x1_0000_0000 then
      DecodeEncode(v, RequestSize);
      Some(EncodeBE(v, RequestSize))
    else
      None
  }

  /**
   * What a receive with an 8-byte buffer hands back for a datagram d: the
   * whole datagram when it fits, otherwise its first 8 bytes.
   */
  function Received(d: seq<Byte>): (r: seq<Byte>)
    ensures |r| <= ReceiveBufSize
    ensures |r| <= |d| && r == d[..|r|]
    ensures |d| <= ReceiveBufSize ==> r == d
    ensures |d| > ReceiveBufSize ==> |r| == ReceiveBufSize
  {
    if |d| <= ReceiveBufSize then d else d[..ReceiveBufSize]
  }

  /** The integer a reply datagram is decoded to: below 2^64 whatever the server sent. */
  function DecodeReply(d: seq<Byte>): (r: nat)
    ensures r < 0x1_0000_0000_0000_0000
    ensures r < Pow256(|Received(d)|)
  {
    Pow256Values();
    var b := Received(d);
    PowMonotone(|b|, ReceiveBufSize);
    DecodeBE(b)
  }

  lemma {:induction false} PowMonotone(m: nat, n: nat)
    requires m <= n
    ensures Pow256(m) <= Pow256(n)
  {
    if m < n {
      PowMonotone(m, n - 1);
    }
  }
}
