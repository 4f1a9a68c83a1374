/**
 * A reader for the bytes `Encode` produces, field by field in wire order.
 * That reading back an encoded put yields its fields states the layout:
 * the order of the fields, the counts, the pinned inner version, and the
 * timestamp, lock id and WAL flag written through unchanged.
 */
module PutFrame {
  import opened Wrappers
  import opened Wire
  import opened KeyValue
  import opened PutRequest
  import opened PutSerialize

  /** The fields of a serialized put, in wire order. */
  datatype Frame = Frame(
    paramCount: Int32,
    regionCode: Byte,
    region: seq<Byte>,
    code: Byte,
    codeAgain: Byte,
    putVersion: Byte,
    key: seq<Byte>,
    timestamp: Int64,
    lockid: Int64,
    walFlag: Byte,
    familyCount: Int32,
    family: seq<Byte>,
    cellCount: Int32,
    cellBytes: Int32,
    cells: seq<Byte>)

  function ReadRegionParam(s: seq<Byte>): Option<Parsed<(Int32, Byte, seq<Byte>)>>
  {
    var paramCount :- ReadInt(s);
    var regionCode :- ReadByte(paramCount.rest);
    var region :- ReadByteArray(regionCode.rest);
    Some(Parsed((paramCount.value, regionCode.value, region.value), region.rest))
  }

  function ReadPutHead(s: seq<Byte>): Option<Parsed<(Byte, Byte, Byte, seq<Byte>)>>
  {
    var code :- ReadByte(s);
    var codeAgain :- ReadByte(code.rest);
    var putVersion :- ReadByte(codeAgain.rest);
    var key :- ReadByteArray(putVersion.rest);
    Some(Parsed((code.value, codeAgain.value, putVersion.value, key.value), key.rest))
  }

  function ReadEditFlags(s: seq<Byte>): Option<Parsed<(Int64, Int64, Byte)>>
  {
    var timestamp :- ReadLong(s);
    var lockid :- ReadLong(timestamp.rest);
    var walFlag :- ReadByte(lockid.rest);
    Some(Parsed((timestamp.value, lockid.value, walFlag.value), walFlag.rest))
  }

  /** The cell bytes are as many as the size field announces, and nothing may follow them. */
  function ReadFamilyAndCells(s: seq<Byte>): Option<(Int32, seq<Byte>, Int32, Int32, seq<Byte>)>
  {
    var familyCount :- ReadInt(s);
    var family :- ReadByteArray(familyCount.rest);
    var cellCount :- ReadInt(family.rest);
    var cellBytes :- ReadInt(cellCount.rest);
    if |cellBytes.rest| != cellBytes.value then None
    else Some((familyCount.value, family.value, cellCount.value, cellBytes.value, cellBytes.rest))
  }

  /** Reads a whole put. */
  function Decode(s: seq<Byte>): Option<Frame>
  {
    var p1 :- ReadRegionParam(s);
    var p2 :- ReadPutHead(p1.rest);
    var p3 :- ReadEditFlags(p2.rest);
    var p4 :- ReadFamilyAndCells(p3.rest);
    Some(Frame(p1.value.0, p1.value.1, p1.value.2,
               p2.value.0, p2.value.1, p2.value.2, p2.value.3,
               p3.value.0, p3.value.1, p3.value.2,
               p4.0, p4.1, p4.2, p4.3, p4.4))
  }

  lemma RegionParamRoundTrip(region: Bytes, rest: seq<Byte>)
    ensures ReadRegionParam(RegionParamBytes(region) + rest) == Some(Parsed((2, BYTE_ARRAY_CODE, region), rest))
  {
    var s2 := ByteArrayBytes(region) + rest;
    var s1 := [BYTE_ARRAY_CODE] + s2;
    assert RegionParamBytes(region) + rest == IntBytes(2) + s1;
    IntRoundTrip(2, s1);
    ReadByteRoundTrip(BYTE_ARRAY_CODE, s2);
    ByteArrayRoundTrip(region, rest);
  }

  lemma PutHeadRoundTrip(key: Bytes, rest: seq<Byte>)
    ensures ReadPutHead(PutHeadBytes(key) + rest) == Some(Parsed((CODE, CODE, PUT_VERSION, key), rest))
  {
    var s3 := ByteArrayBytes(key) + rest;
    var s2 := [PUT_VERSION] + s3;
    var s1 := [CODE] + s2;
    assert PutHeadBytes(key) + rest == [CODE] + s1;
    ReadByteRoundTrip(CODE, s1);
    ReadByteRoundTrip(CODE, s2);
    ReadByteRoundTrip(PUT_VERSION, s3);
    ByteArrayRoundTrip(key, rest);
  }

  lemma EditFlagsRoundTrip(timestamp: Int64, lockid: Int64, durable: bool, rest: seq<Byte>)
    ensures ReadEditFlags(EditFlagsBytes(timestamp, lockid, durable) + rest)
            == Some(Parsed((timestamp, lockid, WalByte(durable)), rest))
  {
    var s2 := [WalByte(durable)] + rest;
    var s1 := LongBytes(lockid) + s2;
    assert EditFlagsBytes(timestamp, lockid, durable) + rest == LongBytes(timestamp) + s1;
    LongRoundTrip(timestamp, s1);
    LongRoundTrip(lockid, s2);
    ReadByteRoundTrip(WalByte(durable), rest);
  }

  lemma FamilyAndCellRoundTrip(r: PutReq, codec: Codec)
    requires Sound(codec)
    ensures ReadFamilyAndCells(FamilyAndCellBytes(r, codec))
            == Some((1, r.family, NumKeyValues(), PayloadSize(r, codec), SerializePayload(r, codec)))
  {
    var cells := SerializePayload(r, codec);
    var s3 := IntBytes(PayloadSize(r, codec)) + cells;
    var s2 := IntBytes(NumKeyValues()) + s3;
    var s1 := ByteArrayBytes(r.family) + s2;
    assert FamilyAndCellBytes(r, codec) == IntBytes(1) + s1;
    IntRoundTrip(1, s1);
    ByteArrayRoundTrip(r.family, s2);
    IntRoundTrip(NumKeyValues(), s3);
    IntRoundTrip(PayloadSize(r, codec), cells);
  }

  /**
   * The layout of a serialized put: two parameters; the region name as an
   * HBase `byte[]`; the Put code twice; inner version 1; the row key; the
   * timestamp and lock id as stored; the WAL flag; one family; one cell,
   * preceded by its size as the codec predicts it.
   */
  lemma {:induction false} DecodeEncode(r: PutReq, codec: Codec)
    requires r.region.Some? && Sound(codec)
    ensures Decode(Encode(r, codec)) == Some(Frame(
              2, BYTE_ARRAY_CODE, r.region.value, CODE, CODE, 1, r.key, r.timestamp, r.lockid,
              WalByte(r.durable), 1, r.family, NumKeyValues(), PayloadSize(r, codec), SerializePayload(r, codec)))
  {
    var s3 := FamilyAndCellBytes(r, codec);
    var s2 := EditFlagsBytes(r.timestamp, r.lockid, r.durable) + s3;
    var s1 := PutHeadBytes(r.key) + s2;
    EncodePhases(r, codec);
    RegionParamRoundTrip(r.region.value, s1);
    PutHeadRoundTrip(r.key, s2);
    EditFlagsRoundTrip(r.timestamp, r.lockid, r.durable, s3);
    FamilyAndCellRoundTrip(r, codec);
  }

  lemma EncodePhases(r: PutReq, codec: Codec)
    requires r.region.Some?
    ensures Encode(r, codec)
            == RegionParamBytes(r.region.value)
               + (PutHeadBytes(r.key) + (EditFlagsBytes(r.timestamp, r.lockid, r.durable) + FamilyAndCellBytes(r, codec)))
  {
  }

  /**
   * The inner Put version on the wire is 1 whatever server version the
   * request is serialized for, so it differs from the header version
   * selected for a 0.92 or later server.
   */
  lemma InnerVersionPinned(r: PutReq, codec: Codec, serverVersion: Int8)
    requires r.region.Some? && Sound(codec)
    ensures Decode(Encode(r, codec)).Some?
    ensures Decode(Encode(r, codec)).value.putVersion == 1
    ensures serverVersion >= SERVER_VERSION_092_OR_ABOVE
            ==> Decode(Encode(r, codec)).value.putVersion != Version(serverVersion)
  {
    DecodeEncode(r, codec);
  }

  /**
   * The count fields are fixed: one family and one cell, and the size
   * field announces exactly the cell bytes that follow it.
   */
  lemma CountsFixed(r: PutReq, codec: Codec)
    requires r.region.Some? && Sound(codec)
    ensures Decode(Encode(r, codec)).Some?
    ensures var f := Decode(Encode(r, codec)).value;
            f.paramCount == 2 && f.familyCount == 1 && f.cellCount == NumKeyValues() == 1
            && f.cellBytes == PayloadSize(r, codec) == |f.cells|
  {
    DecodeEncode(r, codec);
  }

  /**
   * A put built without an explicit timestamp or lock carries the
   * TIMESTAMP_NOW and NO_LOCK sentinels to the wire unchanged, and asks
   * for the WAL.
   */
  lemma DefaultsOnTheWire(codec: Codec, table: Bytes, key: Bytes, family: Bytes, qualifier: Bytes, value: Bytes,
                          region: Bytes)
    requires Sound(codec)
    requires MakeNow(codec, table, key, family, qualifier, value).Success?
    ensures var r := MakeNow(codec, table, key, family, qualifier, value).value.(region := Some(region));
            && Decode(Encode(r, codec)).Some?
            && Decode(Encode(r, codec)).value.timestamp == TIMESTAMP_NOW
            && Decode(Encode(r, codec)).value.lockid == NO_LOCK
            && Decode(Encode(r, codec)).value.walFlag == 1
  {
    var r := MakeNow(codec, table, key, family, qualifier, value).value.(region := Some(region));
    DecodeEncode(r, codec);
  }
}
