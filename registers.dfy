/** Register map and flag encodings of the NXP PCA9685 16-channel PWM controller,
    as the driver names them (pca9685.c:44-171). */
module Registers {

  // Register addresses (the `registers` enumeration).
  const MODE1: bv8 := 0
  const MODE2: bv8 := 1
  const LED0_ON_L: bv8 := 6
  const LED15_OFF_H: bv8 := 69
  const ALL_LED_ON_L: bv8 := 250
  const PRE_SCALE: bv8 := 254

  /** The ON_L register of channel `id`, for the channels the chip has. */
  function LedOnL(id: nat): (a: bv8)
    requires id < 16
    ensures LED0_ON_L <= a <= LED15_OFF_H - 3
    ensures a as int == 6 + 4 * id
  {
    LED0_ON_L + 4 * id as bv8
  }

  // Physical bits of MODE1 (the `mode1_values` enumeration).  EXTCLK has the
  // same value as SUB2 in the driver; bit 0x40 has no name there.
  const ALLCALL: bv8 := 0x01
  const SUB3: bv8 := 0x02
  const SUB2: bv8 := 0x04
  const SUB1: bv8 := 0x08
  const SLEEP: bv8 := 0x10
  const AI: bv8 := 0x20
  const EXTCLK: bv8 := 0x04
  const RESTART: bv8 := 0x80

  // MODE1 change requests (the `mode1_status` enumeration): one ON and one
  // OFF bit per flag, packed in a 32-bit configuration mask.
  const ALLCALL_ON: bv32 := 0x0001
  const ALLCALL_OFF: bv32 := 0x0002
  const SUB3_ON: bv32 := 0x0004
  const SUB3_OFF: bv32 := 0x0008
  const SUB2_ON: bv32 := 0x0010
  const SUB2_OFF: bv32 := 0x0020
  const SUB1_ON: bv32 := 0x0040
  const SUB1_OFF: bv32 := 0x0080
  const SLEEP_ON: bv32 := 0x0100
  const SLEEP_OFF: bv32 := 0x0200
  const AI_ON: bv32 := 0x0400
  const AI_OFF: bv32 := 0x0800
  const EXTCLK_ON: bv32 := 0x1000
  const EXTCLK_OFF: bv32 := 0x2000
  const RESTART_ON: bv32 := 0x4000
  const RESTART_OFF: bv32 := 0x8000
  /** One past RESTART_OFF: the bound of the driver's request loop. */
  const MODE1_LAST: bv32 := 0x8001

  // MODE2 values (the `mode2` enumeration), used both as request bits of
  // the configuration mask and as physical bits of the register.
  const OUTNE_0: bv32 := 0x00
  const OUTNE_DRV: bv32 := 0x01
  const OUTNE_HZ: bv32 := 0x02
  const OUTNE: bv32 := 0x03
  const OUT_HZ: bv32 := 0x04
  const OCH: bv32 := 0x08
  const INVRT: bv32 := 0x10
  const OUT_TP: bv32 := 0x20
}
