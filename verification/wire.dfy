/**
 * The primitive wire encodings the put RPC is built from: big-endian
 * two's-complement integers (the default byte order of a Netty
 * ChannelBuffer), Hadoop's variable-length long, and the two length-prefixed
 * byte-array framings of HBaseRpc.  Each encoder has a reader beside it and
 * a lemma that reading back what was written gives the value and the rest.
 */
module Wire {
  import opened Wrappers

  /** An octet on the wire. */
  type Byte = b: int | 0 <= b < 0x100
  /** Java `byte`, `int` and `long`. */
  type Int8 = x: int | -0x80 <= x < 0x80
  type Int32 = x: int | -0x8000_0000 <= x < 0x8000_0000
  type Int64 = x: int | -0x8000_0000_0000_0000 <= x < 0x8000_0000_0000_0000
  /** A Java `byte[]`: its length is an `int`. */
  type Bytes = s: seq<Byte> | |s| < 0x8000_0000

  /** What a reader returns: the value read and the bytes after it. */
  datatype Parsed<+T> = Parsed(value: T, rest: seq<Byte>)

  function Pow256(n: nat): (p: nat)
    ensures p > 0
  {
    if n == 0 then 1 else 0x100 * Pow256(n - 1)
  }

  /** The `n` low-order bytes of `u`, most significant first. */
  function ToBigEndian(u: nat, n: nat): (r: seq<Byte>)
    ensures |r| == n
  {
    if n == 0 then [] else ToBigEndian(u / 0x100, n - 1) + [u % 0x100]
  }

  /** The unsigned number a big-endian byte string denotes. */
  function FromBigEndian(s: seq<Byte>): (u: nat)
    ensures u < Pow256(|s|)
  {
    if s == [] then 0
    else
      var hi := FromBigEndian(s[..|s| - 1]);
      assert hi * 0x100 + s[|s| - 1] < Pow256(|s| - 1) * 0x100 by {
        assert hi + 1 <= Pow256(|s| - 1);
        assert (hi + 1) * 0x100 <= Pow256(|s| - 1) * 0x100;
      }
      hi * 0x100 + s[|s| - 1]
  }

  lemma {:induction false} BigEndianRoundTrip(u: nat, n: nat)
    requires u < Pow256(n)
    ensures FromBigEndian(ToBigEndian(u, n)) == u
  {
    if n > 0 {
      var s := ToBigEndian(u, n);
      assert s[..n - 1] == ToBigEndian(u / 0x100, n - 1);
      assert u / 0x100 < Pow256(n - 1);
      BigEndianRoundTrip(u / 0x100, n - 1);
    }
  }

  // ---- writeInt / writeLong ----

  /** `writeInt`: four bytes, big-endian, two's complement. */
  function IntBytes(x: Int32): (r: seq<Byte>)
    ensures |r| == 4
  {
    ToBigEndian(x % 0x1_0000_0000, 4)
  }

  /** `writeLong`: eight bytes, big-endian, two's complement. */
  function LongBytes(x: Int64): (r: seq<Byte>)
    ensures |r| == 8
  {
    ToBigEndian(x % 0x1_0000_0000_0000_0000, 8)
  }

  function ReadByte(s: seq<Byte>): Option<Parsed<Byte>>
  {
    if |s| == 0 then None else Some(Parsed(s[0], s[1..]))
  }

  /** `readInt`: the inverse of IntBytes on the first four bytes. */
  function ReadInt(s: seq<Byte>): Option<Parsed<Int32>>
  {
    if |s| < 4 then None
    else
      assert Pow256(4) == 0x1_0000_0000;
      var u := FromBigEndian(s[..4]);
      Some(Parsed(if u < 0x8000_0000 then u else u - 0x1_0000_0000, s[4..]))
  }

  /** `readLong`: the inverse of LongBytes on the first eight bytes. */
  function ReadLong(s: seq<Byte>): Option<Parsed<Int64>>
  {
    if |s| < 8 then None
    else
      assert Pow256(8) == 0x1_0000_0000_0000_0000;
      var u := FromBigEndian(s[..8]);
      Some(Parsed(if u < 0x8000_0000_0000_0000 then u else u - 0x1_0000_0000_0000_0000, s[8..]))
  }

  lemma ReadByteRoundTrip(b: Byte, rest: seq<Byte>)
    ensures ReadByte([b] + rest) == Some(Parsed(b, rest))
  {
    assert ([b] + rest)[1..] == rest;
  }

  lemma IntRoundTrip(x: Int32, rest: seq<Byte>)
    ensures ReadInt(IntBytes(x) + rest) == Some(Parsed(x, rest))
  {
    var s := IntBytes(x) + rest;
    assert s[..4] == IntBytes(x) && s[4..] == rest;
    assert Pow256(4) == 0x1_0000_0000;
    var u := x % 0x1_0000_0000;
    assert u == if x >= 0 then x else x + 0x1_0000_0000;
    BigEndianRoundTrip(u, 4);
  }

  lemma LongRoundTrip(x: Int64, rest: seq<Byte>)
    ensures ReadLong(LongBytes(x) + rest) == Some(Parsed(x, rest))
  {
    var s := LongBytes(x) + rest;
    assert s[..8] == LongBytes(x) && s[8..] == rest;
    assert Pow256(8) == 0x1_0000_0000_0000_0000;
    var u := x % 0x1_0000_0000_0000_0000;
    assert u == if x >= 0 then x else x + 0x1_0000_0000_0000_0000;
    BigEndianRoundTrip(u, 8);
  }

  // ---- Hadoop variable-length long (WritableUtils.writeVLong), non-negative values ----

  /** The number of significant bytes of `n`. */
  function ByteCount(n: nat): nat
  {
    if n == 0 then 0 else 1 + ByteCount(n / 0x100)
  }

  /** `n` fits in `k` bytes exactly when it has at most `k` significant bytes. */
  lemma {:induction false} ByteCountBound(n: nat, k: nat)
    ensures ByteCount(n) <= k <==> n < Pow256(k)
  {
    if n != 0 && k != 0 {
      ByteCountBound(n / 0x100, k - 1);
    } else if n != 0 {
      assert Pow256(0) == 1;
    }
  }

  /** The width of writeVLong(n): one byte up to 127, else a length byte and the significant bytes. */
  function VLongSize(n: nat): nat
  {
    if n <= 127 then 1 else 1 + ByteCount(n)
  }

  /**
   * `writeVLong` on a non-negative long: values up to 127 are one byte;
   * a larger value is a marker byte -112 - k (as an octet, 0x90 - k)
   * followed by its k significant bytes, big-endian.
   */
  function VLongBytes(n: nat): (r: seq<Byte>)
    requires n < 0x8000_0000_0000_0000
    ensures |r| == VLongSize(n)
  {
    if n <= 127 then [n]
    else
      ByteCountBound(n, 8);
      [0x90 - ByteCount(n)] + ToBigEndian(n, ByteCount(n))
  }

  /**
   * `readVLong` restricted to what a length can be: a one-byte value up to
   * 127, or a marker 0x88..0x8F announcing 1..8 bytes of a positive value.
   * Markers of negative values are refused.
   */
  function ReadVLong(s: seq<Byte>): Option<Parsed<nat>>
  {
    if |s| == 0 then None
    else if s[0] <= 127 then Some(Parsed(s[0], s[1..]))
    else if s[0] < 0x88 || 0x90 <= s[0] then None
    else
      var k := 0x90 - s[0];
      if |s| < 1 + k then None else Some(Parsed(FromBigEndian(s[1..1 + k]), s[1 + k..]))
  }

  lemma VLongRoundTrip(n: nat, rest: seq<Byte>)
    requires n < 0x8000_0000_0000_0000
    ensures ReadVLong(VLongBytes(n) + rest) == Some(Parsed(n, rest))
  {
    if n <= 127 {
      assert ([n] + rest)[1..] == rest;
    } else {
      var k := ByteCount(n);
      ByteCountBound(n, 8);
      ByteCountBound(n, k);
      ByteCountBound(n, 0);
      var body := ToBigEndian(n, k);
      var s := [0x90 - k] + body + rest;
      assert VLongBytes(n) + rest == s;
      assert s[0] == 0x90 - k;
      assert s[1..1 + k] == body && s[1 + k..] == rest;
      BigEndianRoundTrip(n, k);
    }
  }

  /**
   * The widths the size prediction budgets for: one byte holds a length up
   * to 127, three bytes hold a length below 65536 (so in particular the
   * 32768 that the budget's comment names), and nothing longer.
   */
  lemma VLongSizeBounds(n: nat)
    ensures VLongSize(n) == 1 <==> n <= 127
    ensures VLongSize(n) <= 3 <==> n < 0x10000
  {
    ByteCountBound(n, 2);
    ByteCountBound(n, 0);
    assert Pow256(2) == 0x10000;
  }

  // ---- HBaseRpc.writeByteArray / writeHBaseByteArray ----

  /** The type code HBase's object serialisation gives a `byte[]` parameter. */
  const BYTE_ARRAY_CODE: Byte := 11

  /** `writeByteArray`: the vlong length, then the bytes. */
  function ByteArrayBytes(b: Bytes): (r: seq<Byte>)
    ensures |r| == VLongSize(|b|) + |b|
  {
    VLongBytes(|b|) + b
  }

  /** `writeHBaseByteArray`: the `byte[]` type code, then writeByteArray. */
  function HBaseByteArrayBytes(b: Bytes): (r: seq<Byte>)
    ensures |r| == 1 + VLongSize(|b|) + |b|
  {
    [BYTE_ARRAY_CODE] + ByteArrayBytes(b)
  }

  function ReadByteArray(s: seq<Byte>): Option<Parsed<seq<Byte>>>
  {
    var len :- ReadVLong(s);
    if |len.rest| < len.value then None
    else Some(Parsed(len.rest[..len.value], len.rest[len.value..]))
  }

  lemma ByteArrayRoundTrip(b: Bytes, rest: seq<Byte>)
    ensures ReadByteArray(ByteArrayBytes(b) + rest) == Some(Parsed(b, rest))
  {
    VLongRoundTrip(|b|, b + rest);
    assert ByteArrayBytes(b) + rest == VLongBytes(|b|) + (b + rest);
    assert (b + rest)[..|b|] == b && (b + rest)[|b|..] == rest;
  }
}
