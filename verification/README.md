# Async HBase `PutRequest`: a verified model of the single-cell put encoder

This project models the client side of HBase's `put` RPC as Async HBase
writes it for one cell (`src/PutRequest.java`): how a put request is
built and validated, how the size of its serialized form is predicted,
and how it is written into a buffer allocated once from that prediction
and never grown.

The model has seven modules:

- `Wire` covers the primitive encodings: big-endian two's-complement
  `int` and `long` (the default byte order of a Netty `ChannelBuffer`),
  Hadoop's variable-length long (`writeVLong`) for non-negative values,
  and the two length-prefixed byte-array framings, `writeByteArray` and
  `writeHBaseByteArray`. Each encoding has a reader and a round-trip
  lemma.
- `Buffer` is the `ChannelBuffer`: a class holding a fixed-capacity array
  and a write cursor. A write that does not fit writes nothing and
  reports failure. This is Netty's `IndexOutOfBoundsException`, which
  aborts serialization.
- `KeyValue` covers the parts of the cell codec and of `RowLock` that the
  put uses. The codec is a record of functions: predicted cell size, cell
  writer, and the family/qualifier/value checks. `Sound(codec)` states the
  one fact the size prediction relies on: the writer emits exactly the
  predicted number of bytes.
- `PutRequest` holds the request value, every byte-array and `KeyValue`
  constructor, `version`,
  `numKeyValues`, `payloadSize` and `serializePayload`.
- `PutSerialize` holds the size prediction (a pure `PredictedSize` and the
  step-by-step `PredictSerializedSize` method) and `Encode`, the bytes
  `serialize` writes. It also holds the `Serialize` method over a
  `ChannelBuffer` and the lemmas relating the written size to the
  prediction.
- `PutFrame` is a reader for the put layout. `DecodeEncode` proves that
  reading an encoded put back gives its fields in wire order.
- `Wrappers` holds `Option` and `Result`.

Main results:

- **Exact size.** The bytes written equal the prediction minus the unused
  part of the three length budgets (3 bytes for the region name, 3 for the
  row key, 1 for the family): the contract of `Encode`.
- **When it fits.** Serialization fits in the buffer exactly when the three
  vlong length prefixes together take at most 7 bytes
  (`PredictionSufficientIff`, and the `ok` result of `Serialize`).
- **Under the source's own bounds it never overflows.** The bounds are a
  region name and row key of at most 32768 bytes and a family of at most
  127 bytes (`PredictionSufficient`). Three vlong bytes in fact cover
  lengths up to 65535 (`VLongSizeBounds`).
- **The bounds matter.** `PredictionShortWithoutBounds` gives a request
  that needs one byte more than predicted.
- **Field order and fixed fields.** The fields appear in a fixed order:
  the parameter count 2, the region name, the Put code 35 twice, inner
  version 1, the row key, the timestamp, the lock id, the WAL flag,
  family count 1, the family, cell count 1, the cell size, and the cell
  (`DecodeEncode`). The inner version is 1 for every server version
  (`InnerVersionPinned`). The `TIMESTAMP_NOW` and `NO_LOCK` sentinels
  reach the wire unchanged (`DefaultsOnTheWire`).

Where the source's own comments and its code differ, the model follows the
code:

- The comments in `predictSerializedSize` describe the region name and
  row key lengths as 3-byte fields and the family length as a 1-byte field
  (src/PutRequest.java:347, 354, 361). `serialize` writes all three with a
  vlong length (src/PutRequest.java:379, 385, 393). The fixed widths are
  therefore only the prediction's budgets.
- As a result, when the region name and the key are at most 32768 bytes
  and the family at most 127, the buffer is filled exactly only when the
  region name and the key are each at least 256 bytes long. Otherwise
  fewer bytes than predicted are written (`PredictionSufficient`).
- The doc comment calls the prediction a "lower bound". It is used, and
  proved here, as an upper bound on the bytes written.

Assumptions about code that is not part of this model (`KeyValue`,
`RowLock`, `RegionClient`, `HBaseRpc`, `BatchableRpc`):

- `TIMESTAMP_NOW` is `Long.MAX_VALUE` and `NO_LOCK` is -1.
- `SERVER_VERSION_092_OR_ABOVE` is 29.
- `KeyValue.PUT` is 4.
- `writeHBaseByteArray` writes the `byte[]` type code 11 before
  `writeByteArray`.
- `writeByteArray` writes a vlong length and then the bytes.
- A new request is durable (it writes to the WAL).

Byte arrays are borrowed, not copied, in the source. The model stores
them as values, so each accessor (the datatype's fields `table`, `key`,
`qualifier`, `value`) returns exactly what the constructor was given.

## Model

| member | source | states |
|---|---|---|
| `PutRequest.Make` | src/PutRequest.java:253-267 | Succeeds iff the family, qualifier and value checks all pass. Otherwise it reports the first refused field, in the order family, qualifier, value. On success it stores every input unchanged, with durable set and no region. |
| `PutRequest.MakeNow` | src/PutRequest.java:96-103 | Succeeds iff the three checks pass, and then stores the inputs with timestamp `TIMESTAMP_NOW`, lock `NO_LOCK`, durable set and no region. Failures are those of the canonical constructor. |
| `PutRequest.MakeAt` | src/PutRequest.java:116-123 | Succeeds iff the three checks pass, and then stores the inputs with the given timestamp and lock `NO_LOCK`. Failures are those of the canonical constructor. |
| `PutRequest.MakeLocked` | src/PutRequest.java:140-148 | Succeeds iff the three checks pass, and then stores the inputs with timestamp `TIMESTAMP_NOW` and the lock's id. Failures are those of the canonical constructor. |
| `PutRequest.MakeAtLocked` | src/PutRequest.java:162-170 | Succeeds iff the three checks pass, and then stores the inputs with the given timestamp and the lock's id. Failures are those of the canonical constructor. |
| `PutRequest.FromCellLocked` | src/PutRequest.java:244-251 | Never fails, since no check runs. The request carries the cell's key, family, qualifier, value and timestamp and the given lock id. |
| `PutRequest.FromCell` | src/PutRequest.java:226-229 | Carries the cell's key, family, qualifier, value and timestamp, with lock `NO_LOCK`; it is the cell constructor with that lock. |
| `PutRequest.FromCellWithLock` | src/PutRequest.java:238-242 | Carries the cell's key, family, qualifier, value and timestamp, with the lock's id; it is the cell constructor with that lock. |
| `PutRequest.CellPathSkipsChecks` | src/PutRequest.java:244-267 | Whenever the validating constructor accepts a cell's fields, it builds the same request as the non-validating cell constructor. |
| `PutRequest.Version` | src/PutRequest.java:303-313 | Returns 2 iff the server version is at least `SERVER_VERSION_092_OR_ABOVE`, and 1 iff it is below. The function is total. |
| `PutRequest.NumKeyValues` | src/PutRequest.java:320-323 | A put carries exactly one cell. |
| `PutRequest.PayloadSize` | src/PutRequest.java:325-328 | With a sound codec, the predicted cell size is non-negative and equal to the length of the bytes the codec writes for this put. |
| `PutRequest.SerializePayload` | src/PutRequest.java:325-334 | With a sound codec, the cell bytes written are exactly `payloadSize()` long. |
| `PutSerialize.PredictedSize` | src/PutRequest.java:343-369 | The prediction is 44 + region name length + key length + family length + `payloadSize()`. |
| `PutSerialize.PredictSerializedSize` | src/PutRequest.java:343-369 | The field-by-field sum equals `PredictedSize`. With a sound codec it is at least the 44 fixed bytes plus the three lengths. |
| `PutSerialize.WalByte` | src/PutRequest.java:390 | The WAL flag is 1 iff the request is durable, and 0 iff it is not. |
| `PutSerialize.RegionParamBytes` | src/PutRequest.java:376-379 | The first parameter takes its 8-byte budget plus the region name, less the unused part of the 3-byte length budget. |
| `PutSerialize.PutHeadBytes` | src/PutRequest.java:382-385 | The Put head takes its 6-byte budget plus the key, less the unused part of the 3-byte length budget. |
| `PutSerialize.EditFlagsBytes` | src/PutRequest.java:387-390 | Timestamp, lock id and WAL flag take exactly their 17 budgeted bytes. |
| `PutSerialize.FamilyAndCellBytes` | src/PutRequest.java:392-397 | With a sound codec, the family and cell take their 13-byte budget plus the family and `payloadSize()`, less the unused part of the 1-byte length budget. |
| `PutSerialize.Encode` | src/PutRequest.java:343-399 | With a sound codec, the bytes `serialize` writes are exactly the prediction minus the unused length budget (3 − vlong width for the region name and for the key, 1 − vlong width for the family). |
| `PutSerialize.PredictionSufficientIff` | src/PutRequest.java:343-399 | The written bytes fit in the predicted size iff the three vlong length prefixes take at most 7 bytes together. |
| `PutSerialize.PredictionSufficient` | src/PutRequest.java:336-369 | With region name and key ≤ 32768 bytes and family ≤ 127 bytes, the written size never exceeds the prediction. It equals the prediction iff the region name and the key are both ≥ 256 bytes. |
| `PutSerialize.VLongSizeThree` | src/PutRequest.java:347 | Below 65536, a length takes the full 3-byte budget iff it is at least 256. |
| `PutSerialize.PredictionShortWithoutBounds` | src/PutRequest.java:336-342 | A 256-byte region name with a 65536-byte key needs one byte more than predicted. This is the overflow the doc comment warns of. |
| `PutSerialize.WriteRegionParam` | src/PutRequest.java:376-379 | Writes the parameter count and the region name into the fresh buffer, or reports that they do not fit. |
| `PutSerialize.WritePutHead` | src/PutRequest.java:381-385 | Appends the Put code twice, the inner version and the row key, unless an earlier write failed. |
| `PutSerialize.WriteEditFlags` | src/PutRequest.java:387-390 | Appends the timestamp, the lock id and the WAL flag, unless an earlier write failed. |
| `PutSerialize.WriteFamilyAndCell` | src/PutRequest.java:392-397 | Appends family count 1, the family, cell count, cell size and the cell, unless an earlier write failed. |
| `PutSerialize.Serialize` | src/PutRequest.java:371-399 | The buffer's capacity is the prediction. Serialization succeeds iff `Encode` fits in it, and then the buffer holds exactly `Encode`. Under the source's length bounds it always succeeds. The bytes do not depend on the server version. |
| `PutFrame.DecodeEncode` | src/PutRequest.java:373-399 | Reading an encoded put gives: count 2, the `byte[]` code, the region name, code 35 twice, version 1, the key, the timestamp, the lock id, the WAL flag, family count 1, the family, cell count 1, the cell size and the cell bytes, in that order and with nothing left over. |
| `PutFrame.RegionParamRoundTrip` | src/PutRequest.java:376-379 | Reading the first parameter back gives count 2, the `byte[]` code and the region name. |
| `PutFrame.PutHeadRoundTrip` | src/PutRequest.java:382-385 | Reading the Put head back gives code 35 twice, version 1 and the key. |
| `PutFrame.EditFlagsRoundTrip` | src/PutRequest.java:387-390 | Reading back gives the timestamp, the lock id and the WAL flag unchanged. |
| `PutFrame.FamilyAndCellRoundTrip` | src/PutRequest.java:392-397 | Reading back gives family count 1, the family, the cell count, a cell size equal to `payloadSize()`, and exactly the cell bytes. |
| `PutFrame.InnerVersionPinned` | src/PutRequest.java:384 | The inner Put version on the wire is 1 for every server version. It therefore differs from `Version` for 0.92+ servers. |
| `PutFrame.CountsFixed` | src/PutRequest.java:320-328 | On the wire, parameter count 2, family count 1, and cell count = `numKeyValues()` = 1. The cell-size field equals `payloadSize()` and the length of the cell bytes. |
| `PutFrame.DefaultsOnTheWire` | src/PutRequest.java:96-103 | A put built without a timestamp or lock reaches the wire with `TIMESTAMP_NOW`, `NO_LOCK` and WAL flag 1. |
| `Wire.IntBytes` | src/PutRequest.java:392-396 | `writeInt` takes exactly four bytes; `IntRoundTrip` gives their value. |
| `Wire.LongBytes` | src/PutRequest.java:387-389 | `writeLong` takes exactly eight bytes; `LongRoundTrip` gives their value. |
| `Wire.IntRoundTrip` | src/PutRequest.java:376 | `writeInt` is four big-endian two's-complement bytes that read back to the same `int`. |
| `Wire.LongRoundTrip` | src/PutRequest.java:387-389 | `writeLong` is eight big-endian two's-complement bytes that read back to the same `long`. |
| `Wire.BigEndianRoundTrip` | src/PutRequest.java:387 | Any value below 256^n survives n-byte big-endian encoding. |
| `Wire.VLongRoundTrip` | src/PutRequest.java:385 | A non-negative vlong reads back to the same value and leaves the following bytes alone. |
| `Wire.VLongBytes` | src/PutRequest.java:347 | The vlong of n takes `VLongSize(n)` bytes. |
| `Wire.VLongSizeBounds` | src/PutRequest.java:347-361 | A vlong length takes 1 byte iff it is ≤ 127, and at most 3 bytes iff it is < 65536. |
| `Wire.ByteCountBound` | src/PutRequest.java:354 | A number has at most k significant bytes iff it is below 256^k. |
| `Wire.ByteArrayBytes` | src/PutRequest.java:385 | `writeByteArray` takes the vlong width of the length plus the bytes. |
| `Wire.HBaseByteArrayBytes` | src/PutRequest.java:379 | `writeHBaseByteArray` takes one byte more than `writeByteArray`. |
| `Wire.ByteArrayRoundTrip` | src/PutRequest.java:385 | A length-prefixed byte array reads back to the same bytes and the rest. |
| `Buffer.ChannelBuffer.constructor` | src/PutRequest.java:374-375 | The buffer is fresh, empty, and has exactly the requested capacity. |
| `Buffer.ChannelBuffer.WriteBytes` | src/PutRequest.java:397 | Appends iff the bytes fit the remaining capacity. Otherwise nothing changes. |
| `Buffer.ChannelBuffer.WriteByte` | src/PutRequest.java:382-384 | Appends one byte iff there is room. |
| `Buffer.ChannelBuffer.WriteInt` | src/PutRequest.java:376 | Appends the four bytes of an `int` iff there is room. |
| `Buffer.ChannelBuffer.WriteLong` | src/PutRequest.java:387-389 | Appends the eight bytes of a `long` iff there is room. |
| `Buffer.WriteByteArray` | src/PutRequest.java:385 | Succeeds iff the vlong length and the bytes fit, and then appends exactly them. |
| `Buffer.WriteHBaseByteArray` | src/PutRequest.java:379 | Succeeds iff the type code, the vlong length and the bytes fit, and then appends exactly them. |

## Left out

- The string constructors (src/PutRequest.java:185-218) are left out. They convert with the platform charset (`String.getBytes()`), which has no model here. The byte-array constructors they delegate to are modelled.
- `toString` and `Bytes.pretty` are left out: they are diagnostic formatting with no contract.
- The `EMPTY_PUT` shared instance is left out. It is a global mutated after construction. `MakeNow` with one-byte zero arrays followed by a region update builds the same value.
- The RPC header that `newBuffer` puts in front of the put is left out: it belongs to `HBaseRpc`, which is not part of this model. This header is the only use of the server version in `serialize`. The modelled buffer holds only the bytes after the header.
- Region resolution and `setRegion` are left out. The region is an optional field. `Serialize` and `PredictSerializedSize` require it to be set, since the source would fail with a null dereference otherwise.
- Checks made by the `BatchableRpc`/`HBaseRpc` super-constructor on table and key are left out; that code is not part of this model.
- The cell codec's encoding and its family/qualifier/value rules are left out. The model takes them as parameters (`KeyValue.Codec`) and assumes only `Sound`.
- `setDurable`, bufferability, batching, retries, transport and the cross-thread visibility of the region assignment are left out. They are state and concurrency outside this file.
- `PutSerialize.PredictSerializedSize`: the sum is an unbounded integer. Java's `int` sum would wrap only for a request over 2 GiB, and that wrap-around is not modelled.
- `Buffer.WriteByteArray`: when the bytes do not fit, nothing is said about the length prefix that may already have been written. The source abandons the buffer at that point.
- `Wire.VLongBytes`: only non-negative values are modelled, because lengths are never negative. `ReadVLong` refuses the markers of negative values.
- Aliasing of the borrowed byte arrays is not captured. A caller mutating an array after construction would change the Java request, but not the modelled value.
