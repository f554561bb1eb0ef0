/** The GC2607 register map as the driver sees it: 16-bit register
    addresses, 8-bit values, the chip-identity registers and the two
    marker addresses of a register table, and the byte layout of the
    messages that carry a register access on the I2C bus. */
module Registers {

  /** One entry of a register table (struct gc2607_regval). */
  datatype RegVal = RegVal(addr: bv16, val: bv8)

  /** Address that ends a register table. */
  const REG_END: bv16 := 0xffff
  /** Address that turns a table entry into a sleep of `val` milliseconds. */
  const REG_DELAY: bv16 := 0x0000

  const REG_CHIP_ID_H: bv16 := 0x03f0
  const REG_CHIP_ID_L: bv16 := 0x03f1
  const CHIP_ID_H: bv8 := 0x26
  const CHIP_ID_L: bv8 := 0x07
  /** The documented chip identity, high byte then low byte. */
  const CHIP_ID: bv16 := 0x2607

  /** Linux error number returned when the chip identity does not match. */
  const ENODEV: int := 19

  /** The 16-bit word whose high byte is `hi` and low byte is `lo`. */
  function Word(hi: bv8, lo: bv8): bv16
  {
    ((hi as bv16) << 8) | (lo as bv16)
  }

  /** The address high byte, `reg >> 8`: the quotient of the address by 256. */
  function Hi(reg: bv16): (b: bv8)
    ensures b as bv16 == reg / 256
  {
    (reg >> 8) as bv8
  }

  /** The address low byte, `reg & 0xff`: the remainder of the address by 256. */
  function Lo(reg: bv16): (b: bv8)
    ensures b as bv16 == reg % 256
  {
    (reg & 0xff) as bv8
  }

  /** Splitting an address into its two bytes loses nothing. */
  lemma SplitJoin(reg: bv16)
    ensures Word(Hi(reg), Lo(reg)) == reg
  {
  }

  /** Joining two bytes into a word and splitting it again gives them back. */
  lemma JoinSplit(hi: bv8, lo: bv8)
    ensures Hi(Word(hi, lo)) == hi && Lo(Word(hi, lo)) == lo
  {
  }

  /** The first message of a register read: the address, high byte first. */
  function AddressMessage(reg: bv16): (buf: seq<bv8>)
    ensures |buf| == 2 && Word(buf[0], buf[1]) == reg
  {
    SplitJoin(reg);
    [Hi(reg), Lo(reg)]
  }

  /** The single message of a register write: address high byte, address
      low byte, value. */
  function WriteMessage(reg: bv16, val: bv8): (buf: seq<bv8>)
    ensures |buf| == 3 && Word(buf[0], buf[1]) == reg && buf[2] == val
    ensures buf[..2] == AddressMessage(reg)
  {
    SplitJoin(reg);
    [Hi(reg), Lo(reg), val]
  }

  /** What a device reads out of a write message: the register and the
      value, or nothing when the message does not have three bytes. */
  function DecodeWrite(buf: seq<bv8>): (r: Option<RegVal>)
    ensures r.Some? <==> |buf| == 3
    ensures r.Some? ==> WriteMessage(r.value.addr, r.value.val) == buf
  {
    if |buf| == 3 then
      JoinSplit(buf[0], buf[1]);
      Some(RegVal(Word(buf[0], buf[1]), buf[2]))
    else None
  }

  /** A device decodes every write message into the access that produced it. */
  lemma {:induction false} DecodeWriteMessage(reg: bv16, val: bv8)
    ensures DecodeWrite(WriteMessage(reg, val)) == Some(RegVal(reg, val))
  {
    var buf := WriteMessage(reg, val);
    JoinSplit(buf[0], buf[1]);
  }

  /** The two identity bytes match the expected ones exactly when the
      word they form is the documented chip identity. */
  lemma ChipIdBytes(hi: bv8, lo: bv8)
    ensures (hi == CHIP_ID_H && lo == CHIP_ID_L) <==> Word(hi, lo) == CHIP_ID
  {
    JoinSplit(hi, lo);
    JoinSplit(CHIP_ID_H, CHIP_ID_L);
  }

  datatype Option<T> = None | Some(value: T)
}
