/**
 * The output buffer of an RPC: a Netty ChannelBuffer allocated once with a
 * fixed capacity and a write cursor.  It never grows: a write that does not
 * fit fails (Netty throws IndexOutOfBoundsException) and writes nothing,
 * here reported as `ok == false`.
 */
module Buffer {
  import opened Wire

  class ChannelBuffer {
    const data: array<Byte>
    var writerIndex: nat

    ghost predicate Valid()
      reads this
    {
      writerIndex <= data.Length
    }

    /** The bytes written so far. */
    function Written(): seq<Byte>
      reads this, data
      requires Valid()
    {
      data[..writerIndex]
    }

    constructor (capacity: nat)
      ensures Valid() && fresh(data)
      ensures data.Length == capacity && Written() == []
    {
      data := new Byte[capacity];
      writerIndex := 0;
    }

    /** Appends `bs` when it fits in the remaining capacity, and otherwise leaves the buffer as it was. */
    method WriteBytes(bs: seq<Byte>) returns (ok: bool)
      requires Valid()
      modifies this, data
      ensures Valid()
      ensures ok <==> old(writerIndex) + |bs| <= data.Length
      ensures Written() == if ok then old(Written()) + bs else old(Written())
    {
      if writerIndex + |bs| > data.Length {
        return false;
      }
      ghost var before := data[..writerIndex];
      forall i | 0 <= i < |bs| {
        data[writerIndex + i] := bs[i];
      }
      assert data[..writerIndex] == before;
      assert data[writerIndex..writerIndex + |bs|] == bs;
      assert data[..writerIndex + |bs|] == data[..writerIndex] + data[writerIndex..writerIndex + |bs|];
      writerIndex := writerIndex + |bs|;
      ok := true;
    }

    method WriteByte(b: Byte) returns (ok: bool)
      requires Valid()
      modifies this, data
      ensures Valid()
      ensures ok <==> old(writerIndex) + 1 <= data.Length
      ensures Written() == if ok then old(Written()) + [b] else old(Written())
    {
      ok := WriteBytes([b]);
    }

    method WriteInt(x: Int32) returns (ok: bool)
      requires Valid()
      modifies this, data
      ensures Valid()
      ensures ok <==> old(writerIndex) + 4 <= data.Length
      ensures Written() == if ok then old(Written()) + IntBytes(x) else old(Written())
    {
      ok := WriteBytes(IntBytes(x));
    }

    method WriteLong(x: Int64) returns (ok: bool)
      requires Valid()
      modifies this, data
      ensures Valid()
      ensures ok <==> old(writerIndex) + 8 <= data.Length
      ensures Written() == if ok then old(Written()) + LongBytes(x) else old(Written())
    {
      ok := WriteBytes(LongBytes(x));
    }
  }

  /** HBaseRpc.writeByteArray: the vlong length, then the bytes; stops at the first write that does not fit. */
  method WriteByteArray(buf: ChannelBuffer, b: Bytes) returns (ok: bool)
    requires buf.Valid()
    modifies buf, buf.data
    ensures buf.Valid()
    ensures ok <==> old(buf.writerIndex) + |ByteArrayBytes(b)| <= buf.data.Length
    ensures ok ==> buf.Written() == old(buf.Written()) + ByteArrayBytes(b)
  {
    ghost var before := buf.Written();
    assert before + ByteArrayBytes(b) == before + VLongBytes(|b|) + b;
    ok := buf.WriteBytes(VLongBytes(|b|));
    if ok {
      ok := buf.WriteBytes(b);
    }
  }

  /** HBaseRpc.writeHBaseByteArray: the `byte[]` type code, then writeByteArray. */
  method WriteHBaseByteArray(buf: ChannelBuffer, b: Bytes) returns (ok: bool)
    requires buf.Valid()
    modifies buf, buf.data
    ensures buf.Valid()
    ensures ok <==> old(buf.writerIndex) + |HBaseByteArrayBytes(b)| <= buf.data.Length
    ensures ok ==> buf.Written() == old(buf.Written()) + HBaseByteArrayBytes(b)
  {
    ghost var before := buf.Written();
    assert before + HBaseByteArrayBytes(b) == before + [BYTE_ARRAY_CODE] + ByteArrayBytes(b);
    ok := buf.WriteByte(BYTE_ARRAY_CODE);
    if ok {
      ok := WriteByteArray(buf, b);
    }
  }
}
