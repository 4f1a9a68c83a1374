/**
 * What the put RPC uses of the KeyValue cell codec and of RowLock.  The
 * codec's own encoding and validation rules are not part of this model, so
 * a codec is given as a record of functions, and `Sound` states the one
 * fact the size prediction relies on: the writer emits exactly the number
 * of bytes the size function predicts.
 */
module KeyValue {
  import opened Wire

  /** KeyValue.TIMESTAMP_NOW: let the region server assign the time when it applies the edit. */
  const TIMESTAMP_NOW: Int64 := 0x7FFF_FFFF_FFFF_FFFF

  /** KeyValue.PUT: the cell type of a put. */
  const PUT: Byte := 4

  /** RowLock.NO_LOCK: the edit holds no explicit row lock. */
  const NO_LOCK: Int64 := -1

  /** A row lock; the put uses only its id. */
  datatype RowLock = RowLock(id: Int64)

  /** A cell already built by the caller. */
  datatype Cell = Cell(key: Bytes, family: Bytes, qualifier: Bytes, value: Bytes, timestamp: Int64)

  datatype Codec = Codec(
    predictSerializedSize: (Bytes, Bytes, Bytes, Bytes) -> Int32,  // (key, family, qualifier, value)
    serialize: (Byte, Int64, Bytes, Bytes, Bytes, Bytes) -> seq<Byte>,  // (type, timestamp, key, family, qualifier, value)
    checkFamily: Bytes -> bool,
    checkQualifier: Bytes -> bool,
    checkValue: Bytes -> bool)

  ghost predicate Sound(c: Codec)
  {
    forall kind, ts, k, f, q, v ::
      |c.serialize(kind, ts, k, f, q, v)| == c.predictSerializedSize(k, f, q, v)
  }

  /** Sound at one call of the codec. */
  lemma SoundAt(c: Codec, kind: Byte, ts: Int64, k: Bytes, f: Bytes, q: Bytes, v: Bytes)
    ensures Sound(c) ==> |c.serialize(kind, ts, k, f, q, v)| == c.predictSerializedSize(k, f, q, v)
  {
  }
}
