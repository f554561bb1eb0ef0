/** The chip-identity check (gc2607_detect) as a function: the reads it
    issues and the value it returns. */
module Identity {
  import opened Registers
  import opened Hardware

  /** gc2607_detect, when its first read lands at trace position `base`:
      read the high identity byte, then the low one, and compare them with
      the expected bytes. A failed read returns that read's error number at
      once; a mismatch returns -ENODEV. */
  function DetectRun(base: nat, status: nat -> int, readback: nat -> bv8): (r: Run)
    ensures r.ret == 0 <==>
      status(base) >= 0 && status(base + 1) >= 0 &&
      Word(readback(base), readback(base + 1)) == CHIP_ID
    ensures status(base) < 0 ==>
      r == Run([I2c(ReadTransfer(REG_CHIP_ID_H))], status(base))
    ensures status(base) >= 0 ==>
      r.events == [I2c(ReadTransfer(REG_CHIP_ID_H)), I2c(ReadTransfer(REG_CHIP_ID_L))]
    ensures status(base) >= 0 && status(base + 1) < 0 ==> r.ret == status(base + 1)
    ensures status(base) >= 0 && status(base + 1) >= 0 && r.ret != 0 ==> r.ret == -ENODEV
  {
    ChipIdBytes(readback(base), readback(base + 1));
    var high := [I2c(ReadTransfer(REG_CHIP_ID_H))];
    if status(base) < 0 then Run(high, status(base))
    else
      var both := high + [I2c(ReadTransfer(REG_CHIP_ID_L))];
      if status(base + 1) < 0 then Run(both, status(base + 1))
      else if readback(base) != CHIP_ID_H || readback(base + 1) != CHIP_ID_L then Run(both, -ENODEV)
      else Run(both, 0)
  }
}
