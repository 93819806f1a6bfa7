/** The MODE2 edit of `configPCA9685` (pca9685.c:283-318): a fixed series of
    independent tests on the configuration mask, each editing the byte read
    back from the chip in place. */
module Mode2 {
  import opened Registers

  /** The output-enable field (bits 0-1) after the edit: a mask field of 0, 1
      or 2 replaces it, a mask field of 3 (OUTNE) matches none of the tests and
      keeps it. */
  function OutneField(mask: bv32, b: bv8): bv8
  {
    var req := mask & OUTNE;
    if req == OUTNE then b & OUTNE as bv8 else req as bv8
  }

  /** Bit 0x04 after the edit: OUT_TP sets it (it is the OUT_HZ value the
      driver ORs in), else OUT_HZ clears it, else it is kept. */
  function OutHzBit(mask: bv32, b: bv8): bv8
  {
    if mask & OUT_TP != 0 then OUT_HZ as bv8
    else if mask & OUT_HZ != 0 then 0
    else b & OUT_HZ as bv8
  }

  /** Bit 0x10 after the edit: INVRT sets it, nothing ever clears it. */
  function InvrtBit(mask: bv32, b: bv8): bv8
  {
    if mask & INVRT != 0 then INVRT as bv8 else b & INVRT as bv8
  }

  /** The bits no test touches: OCH (0x08), 0x20, 0x40 and 0x80. */
  const KEPT: bv8 := 0xE8

  /** The MODE2 byte written back, field by field. */
  function Mode2Edited(mask: bv32, b: bv8): bv8
  {
    (b & KEPT) | OutneField(mask, b) | OutHzBit(mask, b) | InvrtBit(mask, b)
  }

  /** Each field of the edited byte is the one its own rule gives: the tests
      do not interfere with each other. */
  lemma Mode2Fields(mask: bv32, b: bv8)
    ensures Mode2Edited(mask, b) & OUTNE as bv8 == OutneField(mask, b)
    ensures Mode2Edited(mask, b) & OUT_HZ as bv8 == OutHzBit(mask, b)
    ensures Mode2Edited(mask, b) & INVRT as bv8 == InvrtBit(mask, b)
    ensures Mode2Edited(mask, b) & KEPT == b & KEPT
  {
  }

  /** The chain of tests as the driver runs them on the byte `read`. */
  method EditMode2(mask: bv32, read: bv8) returns (r: bv8)
    ensures r == Mode2Edited(mask, read)
  {
    r := read;
    if mask & OUTNE == OUTNE_0 {
      r := r & !(OUTNE as bv8);
    }
    if mask & OUTNE == OUTNE_DRV {
      r := r & !(OUTNE as bv8);
      r := r | OUTNE_DRV as bv8;
    }
    if mask & OUTNE == OUTNE_HZ {
      r := r & !(OUTNE as bv8);
      r := r | OUTNE_HZ as bv8;
    }
    if mask & OUT_HZ != 0 {
      r := r & !(OUT_HZ as bv8);
    }
    if mask & OUT_TP != 0 {
      r := r | OUT_HZ as bv8;
    }
    if mask & OCH != 0 {
      // The driver leaves this test empty.
    }
    if mask & INVRT != 0 {
      r := r | INVRT as bv8;
    }
  }
}
