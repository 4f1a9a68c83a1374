/**
 * Size prediction and serialisation of a put.  The buffer is sized once
 * from the prediction and never grows, so the prediction has to be an
 * upper bound on what serialisation writes.  `Encode` is the byte string
 * the serialiser writes; the lemmas here say exactly how far below the
 * prediction it stays, and when it would not fit.
 */
module PutSerialize {
  import opened Wrappers
  import opened Wire
  import opened Buffer
  import opened KeyValue
  import opened PutRequest

  /** The inner `Put` format version written on the wire. */
  const PUT_VERSION: Byte := 1

  /**
   * The predicted size: fixed headers of 44 bytes, a 3-byte length budget
   * for the region name and for the row key, a 1-byte budget for the
   * family, the three byte strings themselves and the cell.
   */
  function PredictedSize(r: PutReq, codec: Codec): (size: int)
    requires r.region.Some?
    ensures size == 44 + |r.region.value| + |r.key| + |r.family| + PayloadSize(r, codec)
  {
    4 + (1 + 3 + |r.region.value|) + 1 + 1
    + 1 + (3 + |r.key|) + 8 + 8 + 1 + 4
    + (1 + |r.family|) + 4 + 4
    + PayloadSize(r, codec)
  }

  /**
   * predictSerializedSize, field by field in wire order.  Each of the three
   * length prefixes is budgeted at a fixed width (3, 3 and 1 bytes), whatever
   * the vlong that serialisation actually writes needs.
   */
  method PredictSerializedSize(r: PutReq, codec: Codec) returns (size: int)
    requires r.region.Some?
    ensures size == PredictedSize(r, codec)
    ensures Sound(codec) ==> size >= 44 + |r.region.value| + |r.key| + |r.family|
  {
    size := 0;
    size := size + 4;
    size := size + 1;
    size := size + 3;
    size := size + |r.region.value|;
    size := size + 1;
    size := size + 1;
    size := size + 1;
    size := size + 3;
    size := size + |r.key|;
    size := size + 8;
    size := size + 8;
    size := size + 1;
    size := size + 4;
    size := size + 1;
    size := size + |r.family|;
    size := size + 4;
    size := size + 4;
    size := size + PayloadSize(r, codec);
    if Sound(codec) {
      assert |SerializePayload(r, codec)| == PayloadSize(r, codec);
    }
  }

  /** The WAL flag byte. */
  function WalByte(durable: bool): (b: Byte)
    ensures b == 1 <==> durable
    ensures b == 0 <==> !durable
  {
    if durable then 1 else 0
  }

  /** The first parameter: the parameter count, then the region name as an HBase `byte[]`. */
  function RegionParamBytes(region: Bytes): (b: seq<Byte>)
    ensures |b| + (3 - VLongSize(|region|)) == 4 + 1 + 3 + |region|
  {
    IntBytes(2) + HBaseByteArrayBytes(region)
  }

  /** The head of the second parameter: the Put code twice, the pinned inner version, the row key. */
  function PutHeadBytes(key: Bytes): (b: seq<Byte>)
    ensures |b| + (3 - VLongSize(|key|)) == 1 + 1 + 1 + 3 + |key|
  {
    [CODE, CODE, PUT_VERSION] + ByteArrayBytes(key)
  }

  /** Timestamp, lock id and WAL flag. */
  function EditFlagsBytes(timestamp: Int64, lockid: Int64, durable: bool): (b: seq<Byte>)
    ensures |b| == 8 + 8 + 1
  {
    LongBytes(timestamp) + LongBytes(lockid) + [WalByte(durable)]
  }

  /** One family, then one cell preceded by its size. */
  function FamilyAndCellBytes(r: PutReq, codec: Codec): (b: seq<Byte>)
    ensures Sound(codec) ==>
              |b| + (1 - VLongSize(|r.family|)) == 4 + 1 + |r.family| + 4 + 4 + PayloadSize(r, codec)
  {
    IntBytes(1) + ByteArrayBytes(r.family)
    + IntBytes(NumKeyValues()) + IntBytes(PayloadSize(r, codec)) + SerializePayload(r, codec)
  }

  /** The bytes `serialize` writes after the RPC header, in order. */
  function Encode(r: PutReq, codec: Codec): (e: seq<Byte>)
    requires r.region.Some?
    ensures Sound(codec) ==> |e| == PredictedSize(r, codec) - Slack(r)
  {
    RegionParamBytes(r.region.value)
    + PutHeadBytes(r.key)
    + EditFlagsBytes(r.timestamp, r.lockid, r.durable)
    + FamilyAndCellBytes(r, codec)
  }

  /** The slack of the three length budgets: what the prediction over-counts. */
  function Slack(r: PutReq): int
    requires r.region.Some?
  {
    (3 - VLongSize(|r.region.value|)) + (3 - VLongSize(|r.key|)) + (1 - VLongSize(|r.family|))
  }

  /** The prediction is large enough exactly when the three lengths fit in 7 vlong bytes together. */
  lemma PredictionSufficientIff(r: PutReq, codec: Codec)
    requires r.region.Some? && Sound(codec)
    ensures |Encode(r, codec)| <= PredictedSize(r, codec)
            <==> VLongSize(|r.region.value|) + VLongSize(|r.key|) + VLongSize(|r.family|) <= 7
  {
  }

  /**
   * Under the budget's own bounds (region name and row key of at most 32768
   * bytes, family of at most 127) the bytes written never exceed the
   * prediction, and they reach it exactly when the three lengths use their
   * full budget.
   */
  lemma PredictionSufficient(r: PutReq, codec: Codec)
    requires r.region.Some? && Sound(codec)
    requires |r.region.value| <= 32768 && |r.key| <= 32768 && |r.family| <= 127
    ensures |Encode(r, codec)| <= PredictedSize(r, codec)
    ensures |Encode(r, codec)| == PredictedSize(r, codec) <==> |r.region.value| >= 256 && |r.key| >= 256
  {
    VLongSizeBounds(|r.region.value|);
    VLongSizeBounds(|r.key|);
    VLongSizeBounds(|r.family|);
    VLongSizeThree(|r.region.value|);
    VLongSizeThree(|r.key|);
  }

  /** Below 65536, a vlong takes all three bytes exactly from 256 on. */
  lemma VLongSizeThree(n: nat)
    requires n < 0x10000
    ensures VLongSize(n) == 3 <==> n >= 256
  {
    ByteCountBound(n, 1);
    ByteCountBound(n, 2);
    assert Pow256(1) == 256 && Pow256(2) == 0x10000;
  }

  /**
   * The bounds cannot be dropped: a 256-byte region name with a 65536-byte
   * row key and a one-byte family needs one byte more than predicted.
   */
  lemma PredictionShortWithoutBounds(codec: Codec)
    requires Sound(codec)
    ensures var r := PutReq([], seq(65536, _ => 0), [0], [], [], TIMESTAMP_NOW, NO_LOCK, true, Some(seq(256, _ => 0)));
            |Encode(r, codec)| == PredictedSize(r, codec) + 1
  {
    var r := PutReq([], seq(65536, _ => 0), [0], [], [], TIMESTAMP_NOW, NO_LOCK, true, Some(seq(256, _ => 0)));
    ByteCountBound(256, 1);
    ByteCountBound(256, 2);
    ByteCountBound(65536, 2);
    ByteCountBound(65536, 3);
    assert Pow256(1) == 256 && Pow256(2) == 0x10000 && Pow256(3) == 0x100_0000;
  }

  /**
   * What holds between two writes of `Serialize`, where `done` is the part
   * of the encoding the writes so far were asked for: either they all
   * fitted and the buffer holds `done`, or one did not fit and then `done`
   * is already longer than the buffer.
   */
  ghost predicate Progress(buf: ChannelBuffer, ok: bool, done: seq<Byte>)
    reads buf, buf.data
  {
    && buf.Valid()
    && (ok ==> buf.Written() == done)
    && (!ok ==> |done| > buf.data.Length)
  }

  /** Writes RegionParamBytes into an empty buffer. */
  method WriteRegionParam(buf: ChannelBuffer, region: Bytes) returns (ok: bool)
    requires buf.Valid() && buf.Written() == []
    modifies buf, buf.data
    ensures Progress(buf, ok, RegionParamBytes(region))
  {
    ok := buf.WriteInt(2);                            // number of parameters
    assert Progress(buf, ok, IntBytes(2));
    if ok { ok := WriteHBaseByteArray(buf, region); }
  }

  /** Writes PutHeadBytes, unless an earlier write already failed. */
  method WritePutHead(buf: ChannelBuffer, ok0: bool, ghost done: seq<Byte>, key: Bytes) returns (ok: bool)
    requires Progress(buf, ok0, done)
    modifies buf, buf.data
    ensures Progress(buf, ok, done + PutHeadBytes(key))
  {
    PutHeadSplit(done, key);
    ok := ok0;
    if ok { ok := buf.WriteByte(CODE); }              // a Put parameter
    assert Progress(buf, ok, done + [CODE]);
    if ok { ok := buf.WriteByte(CODE); }              // its code again
    assert Progress(buf, ok, done + [CODE] + [CODE]);
    if ok { ok := buf.WriteByte(PUT_VERSION); }       // pinned to version 1
    assert Progress(buf, ok, done + [CODE] + [CODE] + [PUT_VERSION]);
    if ok { ok := WriteByteArray(buf, key); }
  }

  lemma PutHeadSplit(done: seq<Byte>, key: Bytes)
    ensures done + PutHeadBytes(key) == done + [CODE] + [CODE] + [PUT_VERSION] + ByteArrayBytes(key)
  {
    assert PutHeadBytes(key) == [CODE] + [CODE] + [PUT_VERSION] + ByteArrayBytes(key);
  }

  /** Writes EditFlagsBytes, unless an earlier write already failed. */
  method WriteEditFlags(buf: ChannelBuffer, ok0: bool, ghost done: seq<Byte>, timestamp: Int64, lockid: Int64, durable: bool)
    returns (ok: bool)
    requires Progress(buf, ok0, done)
    modifies buf, buf.data
    ensures Progress(buf, ok, done + EditFlagsBytes(timestamp, lockid, durable))
  {
    assert done + EditFlagsBytes(timestamp, lockid, durable)
        == done + LongBytes(timestamp) + LongBytes(lockid) + [WalByte(durable)];
    ok := ok0;
    if ok { ok := buf.WriteLong(timestamp); }
    assert Progress(buf, ok, done + LongBytes(timestamp));
    if ok { ok := buf.WriteLong(lockid); }
    assert Progress(buf, ok, done + LongBytes(timestamp) + LongBytes(lockid));
    if ok { ok := buf.WriteByte(WalByte(durable)); }
  }

  /** Writes FamilyAndCellBytes, unless an earlier write already failed. */
  method WriteFamilyAndCell(buf: ChannelBuffer, ok0: bool, ghost done: seq<Byte>, r: PutReq, codec: Codec)
    returns (ok: bool)
    requires Progress(buf, ok0, done)
    modifies buf, buf.data
    ensures Progress(buf, ok, done + FamilyAndCellBytes(r, codec))
  {
    assert done + FamilyAndCellBytes(r, codec)
        == done + IntBytes(1) + ByteArrayBytes(r.family) + IntBytes(NumKeyValues())
           + IntBytes(PayloadSize(r, codec)) + SerializePayload(r, codec);
    ok := ok0;
    ghost var d := done;
    if ok { ok := buf.WriteInt(1); }                  // number of families
    d := d + IntBytes(1);
    assert Progress(buf, ok, d);
    if ok { ok := WriteByteArray(buf, r.family); }
    d := d + ByteArrayBytes(r.family);
    assert Progress(buf, ok, d);
    if ok { ok := buf.WriteInt(NumKeyValues()); }     // number of cells
    d := d + IntBytes(NumKeyValues());
    assert Progress(buf, ok, d);
    if ok { ok := buf.WriteInt(PayloadSize(r, codec)); }
    d := d + IntBytes(PayloadSize(r, codec));
    assert Progress(buf, ok, d);
    if ok { ok := buf.WriteBytes(SerializePayload(r, codec)); }
  }

  /**
   * serialize: allocates a buffer of the predicted size and writes the
   * fields in order, stopping at the first write that does not fit.  The
   * server version only selects the RPC header, which is not modelled, so
   * the bytes written do not depend on it.
   */
  method Serialize(r: PutReq, codec: Codec, serverVersion: Int8) returns (buf: ChannelBuffer, ok: bool)
    requires r.region.Some? && Sound(codec)
    ensures fresh(buf) && fresh(buf.data) && buf.Valid()
    ensures buf.data.Length == PredictedSize(r, codec)
    ensures ok <==> |Encode(r, codec)| <= PredictedSize(r, codec)
    ensures ok ==> buf.Written() == Encode(r, codec)
    ensures |r.region.value| <= 32768 && |r.key| <= 32768 && |r.family| <= 127 ==> ok
  {
    var size := PredictSerializedSize(r, codec);
    buf := new ChannelBuffer(size);
    ok := WriteRegionParam(buf, r.region.value);
    ghost var done := RegionParamBytes(r.region.value);
    ok := WritePutHead(buf, ok, done, r.key);
    done := done + PutHeadBytes(r.key);
    ok := WriteEditFlags(buf, ok, done, r.timestamp, r.lockid, r.durable);
    done := done + EditFlagsBytes(r.timestamp, r.lockid, r.durable);
    ok := WriteFamilyAndCell(buf, ok, done, r, codec);
    done := done + FamilyAndCellBytes(r, codec);
    assert done == Encode(r, codec);
    if |r.region.value| <= 32768 && |r.key| <= 32768 && |r.family| <= 127 {
      PredictionSufficient(r, codec);
    }
  }
}
