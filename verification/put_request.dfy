/**
 * The put request itself: an immutable single-cell edit.  Every
 * convenience constructor collapses into the canonical one, which
 * validates family, qualifier and value with the cell codec's checks; the
 * constructor from an already-built cell skips them.  The byte arrays are
 * borrowed, never copied, so the stored fields are the caller's values.
 * The target region is bound later by region resolution, outside this
 * model, and is absent after construction.
 */
module PutRequest {
  import opened Wrappers
  import opened Wire
  import opened KeyValue

  /** The code of a serialized `Put` object. */
  const CODE: Byte := 35

  /** RegionClient.SERVER_VERSION_092_OR_ABOVE: the first server RPC version of HBase 0.92. */
  const SERVER_VERSION_092_OR_ABOVE: Int8 := 29

  datatype PutReq = PutReq(
    table: Bytes,
    key: Bytes,
    family: Bytes,
    qualifier: Bytes,
    value: Bytes,
    timestamp: Int64,
    lockid: Int64,
    durable: bool,
    region: Option<Bytes>)

  /** The field a KeyValue check refused (an IllegalArgumentException in the source). */
  datatype ValidationError = InvalidFamily | InvalidQualifier | InvalidValue

  /**
   * The canonical constructor: family, then qualifier, then value are
   * checked, and the first one refused is reported; otherwise the inputs
   * are stored as given.  A new request writes to the WAL and has no region.
   */
  function Make(codec: Codec, table: Bytes, key: Bytes, family: Bytes, qualifier: Bytes, value: Bytes,
                timestamp: Int64, lockid: Int64): (r: Result<PutReq, ValidationError>)
    ensures r.Success? <==> codec.checkFamily(family) && codec.checkQualifier(qualifier) && codec.checkValue(value)
    ensures !codec.checkFamily(family) ==> r == Failure(InvalidFamily)
    ensures codec.checkFamily(family) && !codec.checkQualifier(qualifier) ==> r == Failure(InvalidQualifier)
    ensures codec.checkFamily(family) && codec.checkQualifier(qualifier) && !codec.checkValue(value)
            ==> r == Failure(InvalidValue)
    ensures r.Success? ==>
              && r.value.table == table && r.value.key == key && r.value.family == family
              && r.value.qualifier == qualifier && r.value.value == value
              && r.value.timestamp == timestamp && r.value.lockid == lockid
              && r.value.durable && r.value.region == None
  {
    if !codec.checkFamily(family) then Failure(InvalidFamily)
    else if !codec.checkQualifier(qualifier) then Failure(InvalidQualifier)
    else if !codec.checkValue(value) then Failure(InvalidValue)
    else Success(PutReq(table, key, family, qualifier, value, timestamp, lockid, true, None))
  }

  /** Constructor using the current time: the server assigns the timestamp, and no lock is held. */
  function MakeNow(codec: Codec, table: Bytes, key: Bytes, family: Bytes, qualifier: Bytes, value: Bytes)
    : (r: Result<PutReq, ValidationError>)
    ensures r == Make(codec, table, key, family, qualifier, value, TIMESTAMP_NOW, NO_LOCK)
    ensures r.Success? <==> codec.checkFamily(family) && codec.checkQualifier(qualifier) && codec.checkValue(value)
    ensures r.Success? ==>
              && r.value.table == table && r.value.key == key && r.value.family == family
              && r.value.qualifier == qualifier && r.value.value == value
              && r.value.timestamp == TIMESTAMP_NOW && r.value.lockid == NO_LOCK
              && r.value.durable && r.value.region == None
  {
    Make(codec, table, key, family, qualifier, value, TIMESTAMP_NOW, NO_LOCK)
  }

  /** Constructor for a specific timestamp, holding no lock. */
  function MakeAt(codec: Codec, table: Bytes, key: Bytes, family: Bytes, qualifier: Bytes, value: Bytes,
                  timestamp: Int64): (r: Result<PutReq, ValidationError>)
    ensures r == Make(codec, table, key, family, qualifier, value, timestamp, NO_LOCK)
    ensures r.Success? <==> codec.checkFamily(family) && codec.checkQualifier(qualifier) && codec.checkValue(value)
    ensures r.Success? ==>
              && r.value.table == table && r.value.key == key && r.value.family == family
              && r.value.qualifier == qualifier && r.value.value == value
              && r.value.timestamp == timestamp && r.value.lockid == NO_LOCK
              && r.value.durable && r.value.region == None
  {
    Make(codec, table, key, family, qualifier, value, timestamp, NO_LOCK)
  }

  /** Constructor using an explicit row lock and the current time. */
  function MakeLocked(codec: Codec, table: Bytes, key: Bytes, family: Bytes, qualifier: Bytes, value: Bytes,
                      lock: RowLock): (r: Result<PutReq, ValidationError>)
    ensures r == Make(codec, table, key, family, qualifier, value, TIMESTAMP_NOW, lock.id)
    ensures r.Success? <==> codec.checkFamily(family) && codec.checkQualifier(qualifier) && codec.checkValue(value)
    ensures r.Success? ==>
              && r.value.table == table && r.value.key == key && r.value.family == family
              && r.value.qualifier == qualifier && r.value.value == value
              && r.value.timestamp == TIMESTAMP_NOW && r.value.lockid == lock.id
              && r.value.durable && r.value.region == None
  {
    Make(codec, table, key, family, qualifier, value, TIMESTAMP_NOW, lock.id)
  }

  /** Constructor with both a specific timestamp and an explicit row lock. */
  function MakeAtLocked(codec: Codec, table: Bytes, key: Bytes, family: Bytes, qualifier: Bytes, value: Bytes,
                        timestamp: Int64, lock: RowLock): (r: Result<PutReq, ValidationError>)
    ensures r == Make(codec, table, key, family, qualifier, value, timestamp, lock.id)
    ensures r.Success? <==> codec.checkFamily(family) && codec.checkQualifier(qualifier) && codec.checkValue(value)
    ensures r.Success? ==>
              && r.value.table == table && r.value.key == key && r.value.family == family
              && r.value.qualifier == qualifier && r.value.value == value
              && r.value.timestamp == timestamp && r.value.lockid == lock.id
              && r.value.durable && r.value.region == None
  {
    Make(codec, table, key, family, qualifier, value, timestamp, lock.id)
  }

  /** Constructor from an already-built cell with an explicit lock id: no check runs, so it cannot fail. */
  function FromCellLocked(table: Bytes, kv: Cell, lockid: Int64): (r: PutReq)
    ensures r.table == table && r.key == kv.key && r.family == kv.family
    ensures r.qualifier == kv.qualifier && r.value == kv.value
    ensures r.timestamp == kv.timestamp && r.lockid == lockid
    ensures r.durable && r.region == None
  {
    PutReq(table, kv.key, kv.family, kv.qualifier, kv.value, kv.timestamp, lockid, true, None)
  }

  /** Constructor from a cell, holding no lock. */
  function FromCell(table: Bytes, kv: Cell): (r: PutReq)
    ensures r == FromCellLocked(table, kv, NO_LOCK)
    ensures r.timestamp == kv.timestamp && r.lockid == NO_LOCK
    ensures r.key == kv.key && r.family == kv.family && r.qualifier == kv.qualifier && r.value == kv.value
  {
    FromCellLocked(table, kv, NO_LOCK)
  }

  /** Constructor from a cell with a row lock. */
  function FromCellWithLock(table: Bytes, kv: Cell, lock: RowLock): (r: PutReq)
    ensures r == FromCellLocked(table, kv, lock.id)
    ensures r.timestamp == kv.timestamp && r.lockid == lock.id
    ensures r.key == kv.key && r.family == kv.family && r.qualifier == kv.qualifier && r.value == kv.value
  {
    FromCellLocked(table, kv, lock.id)
  }

  /**
   * The two construction paths agree: whenever the canonical constructor
   * accepts a cell's fields it builds the same request as the cell
   * constructor, which accepts every cell, including those the checks refuse.
   */
  lemma CellPathSkipsChecks(codec: Codec, table: Bytes, kv: Cell, lockid: Int64)
    ensures var viaChecks := Make(codec, table, kv.key, kv.family, kv.qualifier, kv.value, kv.timestamp, lockid);
            viaChecks.Success? ==> viaChecks.value == FromCellLocked(table, kv, lockid)
  {
  }

  /**
   * The header version for a server: 2 (HBASE-3921 added attributes at
   * the end of a put) from 0.92 on, 1 before.
   */
  function Version(serverVersion: Int8): (v: Byte)
    ensures v == 2 <==> serverVersion >= SERVER_VERSION_092_OR_ABOVE
    ensures v == 1 <==> serverVersion < SERVER_VERSION_092_OR_ABOVE
  {
    if serverVersion >= SERVER_VERSION_092_OR_ABOVE then 2 else 1
  }

  /** A put carries exactly one cell. */
  function NumKeyValues(): (n: Int32)
    ensures n == 1
  {
    1
  }

  /** The codec's predicted size of this request's cell. */
  function PayloadSize(r: PutReq, codec: Codec): (n: Int32)
    ensures Sound(codec) ==>
              n >= 0 && n == |codec.serialize(PUT, r.timestamp, r.key, r.family, r.qualifier, r.value)|
  {
    SoundAt(codec, PUT, r.timestamp, r.key, r.family, r.qualifier, r.value);
    codec.predictSerializedSize(r.key, r.family, r.qualifier, r.value)
  }

  /** The cell as the codec writes it: a put of (key, family, qualifier, value) at the request's timestamp. */
  function SerializePayload(r: PutReq, codec: Codec): (payload: seq<Byte>)
    ensures Sound(codec) ==> |payload| == PayloadSize(r, codec)
  {
    codec.serialize(PUT, r.timestamp, r.key, r.family, r.qualifier, r.value)
  }
}
