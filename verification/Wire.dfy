/**
 * The two-wire (I2C) bus as the driver sees it: a transactional byte sink.
 * Every transaction goes to the display's fixed address 0x3C; the bus result
 * is ignored by the driver, so the model keeps only the bytes of each
 * completed transaction, in order, in an append-only ghost log.
 */
module Wire {
  class Bus {
    /** Completed transactions, oldest first; each is the bytes written between begin and end. */
    ghost var log: seq<seq<bv8>>
    /** Bytes written since the last beginTransmission. */
    ghost var pending: seq<bv8>

    constructor ()
      ensures log == [] && pending == []
    {
      log, pending := [], [];
    }

    /** Wire.beginTransmission: opens a transaction to the device. */
    method BeginTransmission()
      modifies this
      ensures log == old(log) && pending == []
    {
      pending := [];
    }

    /** Wire.write(b): appends one byte to the open transaction. */
    method Write(b: bv8)
      modifies this
      ensures log == old(log) && pending == old(pending) + [b]
    {
      pending := pending + [b];
    }

    /** Wire.write(c, n): appends n bytes to the open transaction. */
    method WriteBytes(c: seq<bv8>)
      modifies this
      ensures log == old(log) && pending == old(pending) + c
    {
      pending := pending + c;
    }

    /** Wire.endTransmission: closes the transaction and sends its bytes. */
    method EndTransmission()
      modifies this
      ensures log == old(log) + [old(pending)] && pending == []
    {
      log := log + [pending];
      pending := [];
    }
  }
}
