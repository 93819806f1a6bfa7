/** The MODE1 edit of `configPCA9685` (pca9685.c:193-274): the 16 request bits
    of the configuration mask are visited one at a time, in ascending order,
    and each set bit sets or clears one physical bit of the byte read back
    from the chip. */
module Mode1 {
  import opened Registers

  /** The `switch` on one masked request of the driver's loop: `request` is
      the configuration mask with all but one request bit cleared. */
  function Step(request: bv32, x: bv8): (r: bv8)
    ensures (r ^ x) & ((r ^ x) - 1) == 0
    ensures r & 0x40 == x & 0x40
  {
    if request == ALLCALL_ON then x | ALLCALL
    else if request == ALLCALL_OFF then x & !ALLCALL
    else if request == SUB3_ON then x | SUB3
    else if request == SUB3_OFF then x & !SUB3
    else if request == SUB2_ON then x | SUB2
    else if request == SUB2_OFF then x & !SUB2
    else if request == SUB1_ON then x | SUB1
    else if request == SUB1_OFF then x & !SUB1
    else if request == SLEEP_ON then x | SLEEP
    else if request == SLEEP_OFF then x & !SLEEP
    else if request == AI_ON then x | AI
    else if request == AI_OFF then x & !AI
    else if request == EXTCLK_ON then x | EXTCLK
    else if request == EXTCLK_OFF then x & !EXTCLK
    else if request == RESTART_ON || request == RESTART_OFF then x | RESTART
    else x
  }

  /** The value of the loop counter once every request bit has been visited. */
  const SLOT_END: bv32 := 0x10000

  /** One iteration of the loop with counter `i`: the switch on `mask & i`,
      which is either zero or the request `i` itself. */
  function Visit(mask: bv32, i: bv32, x: bv8): (r: bv8)
    ensures mask & i == 0 ==> r == x
    ensures (r ^ x) & ((r ^ x) - 1) == 0
    ensures r & 0x40 == x & 0x40
  {
    if mask & i == 0 then x else Step(i, x)
  }

  /** Powers of two up to 0x10000: the values the loop counter takes. */
  predicate IsSlot(i: bv32)
  {
    1 <= i <= SLOT_END && i & (i - 1) == 0
  }

  /** The byte the loop ends with when it reaches counter `i` holding `x`;
      the counter doubles on every iteration. */
  function Run(mask: bv32, x: bv8, i: bv32): (r: bv8)
    requires IsSlot(i)
    ensures mask == 0 ==> r == x
    ensures r & 0x40 == x & 0x40
    decreases SLOT_END as int - i as int
  {
    if i == SLOT_END then x else Run(mask, Visit(mask, i, x), i + i)
  }

  /** 0xFF when `mask` holds request `req`, else 0. */
  function Sel(mask: bv32, req: bv32): bv8
  {
    if mask & req != 0 then 0xFF else 0
  }

  /** One flag of MODE1 as the driver's requests treat it: the OFF request
      clears `bit`, the ON request sets it unless OFF is also present, and
      without either `x` is kept. */
  function Flag(mask: bv32, on: bv32, off: bv32, bit: bv8, x: bv8): bv8
  {
    (x & !(bit & Sel(mask, off))) | (bit & Sel(mask, on) & !Sel(mask, off))
  }

  /** The MODE1 byte after the edit, flag by flag in the order their request
      pairs are visited: EXTCLK acts on bit 0x04 after SUB2, and the RESTART
      pair only ever sets. */
  function Flags(mask: bv32, b: bv8): bv8
  {
    var x1 := Flag(mask, ALLCALL_ON, ALLCALL_OFF, ALLCALL, b);
    var x2 := Flag(mask, SUB3_ON, SUB3_OFF, SUB3, x1);
    var x3 := Flag(mask, SUB2_ON, SUB2_OFF, SUB2, x2);
    var x4 := Flag(mask, SUB1_ON, SUB1_OFF, SUB1, x3);
    var x5 := Flag(mask, SLEEP_ON, SLEEP_OFF, SLEEP, x4);
    var x6 := Flag(mask, AI_ON, AI_OFF, AI, x5);
    var x7 := Flag(mask, EXTCLK_ON, EXTCLK_OFF, EXTCLK, x6);
    x7 | (RESTART & (Sel(mask, RESTART_ON) | Sel(mask, RESTART_OFF)))
  }

  /** The two iterations over the ON and OFF requests of one flag. */
  lemma RunPair(mask: bv32, x: bv8, on: bv32, off: bv32, next: bv32, bit: bv8)
    requires IsSlot(on) && on < RESTART_ON && off == on + on && next == off + off
    requires Visit(mask, off, Visit(mask, on, x)) == Flag(mask, on, off, bit, x)
    ensures IsSlot(off) && IsSlot(next)
    ensures Run(mask, x, on) == Run(mask, Flag(mask, on, off, bit, x), next)
  {
    assert IsSlot(off);
    assert Run(mask, x, on) == Run(mask, Visit(mask, on, x), off);
  }

  // The loop over the ON and OFF requests of each flag in turn.

  lemma RunAllcall(mask: bv32, x: bv8)
    ensures Run(mask, x, ALLCALL_ON) == Run(mask, Flag(mask, ALLCALL_ON, ALLCALL_OFF, ALLCALL, x), SUB3_ON)
  {
    RunPair(mask, x, ALLCALL_ON, ALLCALL_OFF, SUB3_ON, ALLCALL);
  }

  lemma RunSub3(mask: bv32, x: bv8)
    ensures Run(mask, x, SUB3_ON) == Run(mask, Flag(mask, SUB3_ON, SUB3_OFF, SUB3, x), SUB2_ON)
  {
    RunPair(mask, x, SUB3_ON, SUB3_OFF, SUB2_ON, SUB3);
  }

  lemma RunSub2(mask: bv32, x: bv8)
    ensures Run(mask, x, SUB2_ON) == Run(mask, Flag(mask, SUB2_ON, SUB2_OFF, SUB2, x), SUB1_ON)
  {
    RunPair(mask, x, SUB2_ON, SUB2_OFF, SUB1_ON, SUB2);
  }

  lemma RunSub1(mask: bv32, x: bv8)
    ensures Run(mask, x, SUB1_ON) == Run(mask, Flag(mask, SUB1_ON, SUB1_OFF, SUB1, x), SLEEP_ON)
  {
    RunPair(mask, x, SUB1_ON, SUB1_OFF, SLEEP_ON, SUB1);
  }

  lemma RunSleep(mask: bv32, x: bv8)
    ensures Run(mask, x, SLEEP_ON) == Run(mask, Flag(mask, SLEEP_ON, SLEEP_OFF, SLEEP, x), AI_ON)
  {
    RunPair(mask, x, SLEEP_ON, SLEEP_OFF, AI_ON, SLEEP);
  }

  lemma RunAi(mask: bv32, x: bv8)
    ensures Run(mask, x, AI_ON) == Run(mask, Flag(mask, AI_ON, AI_OFF, AI, x), EXTCLK_ON)
  {
    RunPair(mask, x, AI_ON, AI_OFF, EXTCLK_ON, AI);
  }

  lemma RunExtclk(mask: bv32, x: bv8)
    ensures Run(mask, x, EXTCLK_ON) == Run(mask, Flag(mask, EXTCLK_ON, EXTCLK_OFF, EXTCLK, x), RESTART_ON)
  {
    RunPair(mask, x, EXTCLK_ON, EXTCLK_OFF, RESTART_ON, EXTCLK);
  }

  lemma RunRestart(mask: bv32, x: bv8)
    ensures Run(mask, x, RESTART_ON) == x | (RESTART & (Sel(mask, RESTART_ON) | Sel(mask, RESTART_OFF)))
  {
    assert Run(mask, x, RESTART_ON) == Run(mask, Visit(mask, RESTART_ON, x), RESTART_OFF);
  }

  /** Visiting the request bits one at a time, lowest first, amounts to
      treating the flags one at a time. */
  lemma RunIsFlags(mask: bv32, b: bv8)
    ensures Run(mask, b, ALLCALL_ON) == Flags(mask, b)
  {
    var x1 := Flag(mask, ALLCALL_ON, ALLCALL_OFF, ALLCALL, b);
    RunAllcall(mask, b);
    var x2 := Flag(mask, SUB3_ON, SUB3_OFF, SUB3, x1);
    RunSub3(mask, x1);
    var x3 := Flag(mask, SUB2_ON, SUB2_OFF, SUB2, x2);
    RunSub2(mask, x2);
    var x4 := Flag(mask, SUB1_ON, SUB1_OFF, SUB1, x3);
    RunSub1(mask, x3);
    var x5 := Flag(mask, SLEEP_ON, SLEEP_OFF, SLEEP, x4);
    RunSleep(mask, x4);
    var x6 := Flag(mask, AI_ON, AI_OFF, AI, x5);
    RunAi(mask, x5);
    var x7 := Flag(mask, EXTCLK_ON, EXTCLK_OFF, EXTCLK, x6);
    RunExtclk(mask, x6);
    RunRestart(mask, x7);
  }

  /** The value a flag's requests leave in that flag's own bit. */
  function FlagBit(mask: bv32, on: bv32, off: bv32, bit: bv8, x: bv8): bv8
  {
    if mask & off != 0 then 0 else if mask & on != 0 then bit else x & bit
  }

  /** What the loop leaves in each bit of MODE1: a flag's OFF request clears
      its bit, else its ON request sets it, else the bit read is kept; on bit
      0x04 the EXTCLK requests override the SUB2 requests; bit 0x40, which no
      request names, is always kept; either RESTART request sets bit 0x80. */
  lemma Mode1Bits(mask: bv32, b: bv8)
    ensures Run(mask, b, ALLCALL_ON) & ALLCALL == FlagBit(mask, ALLCALL_ON, ALLCALL_OFF, ALLCALL, b)
    ensures Run(mask, b, ALLCALL_ON) & SUB3 == FlagBit(mask, SUB3_ON, SUB3_OFF, SUB3, b)
    ensures Run(mask, b, ALLCALL_ON) & SUB2
         == FlagBit(mask, EXTCLK_ON, EXTCLK_OFF, EXTCLK, FlagBit(mask, SUB2_ON, SUB2_OFF, SUB2, b))
    ensures Run(mask, b, ALLCALL_ON) & SUB1 == FlagBit(mask, SUB1_ON, SUB1_OFF, SUB1, b)
    ensures Run(mask, b, ALLCALL_ON) & SLEEP == FlagBit(mask, SLEEP_ON, SLEEP_OFF, SLEEP, b)
    ensures Run(mask, b, ALLCALL_ON) & AI == FlagBit(mask, AI_ON, AI_OFF, AI, b)
    ensures Run(mask, b, ALLCALL_ON) & 0x40 == b & 0x40
    ensures Run(mask, b, ALLCALL_ON) & RESTART
         == if mask & (RESTART_ON | RESTART_OFF) != 0 then RESTART else b & RESTART
  {
    RunIsFlags(mask, b);
  }

  /** The loop of `configPCA9685` on MODE1: `read` is the byte read from the
      chip, `r` the byte it writes back. */
  method EditMode1(mask: bv32, read: bv8) returns (r: bv8)
    ensures r == Flags(mask, read)
  {
    r := read;
    var i: bv32 := 1;
    while i < MODE1_LAST
      invariant IsSlot(i)
      invariant Run(mask, r, i) == Run(mask, read, ALLCALL_ON)
      decreases SLOT_END as int - i as int
    {
      r := Step(mask & i, r);
      assert mask & i == 0 || mask & i == i;
      i := i + i;
    }
    RunIsFlags(mask, read);
  }
}
