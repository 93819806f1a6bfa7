/** The five bytes `setPCA9685PWM` sends for one channel (pca9685.c:395-405):
    the channel's LEDn_ON_L address followed by the ON and OFF counts, low
    byte first. */
module PwmFrame {
  import opened Registers

  /** The frame for channel `id`.  The address is computed in byte
      arithmetic, so it wraps for ids the chip does not have. */
  function Frame(id: bv8, on: bv16, off: bv16): (f: seq<bv8>)
    ensures |f| == 5
    ensures f[0] as int == (6 + 4 * id as int) % 256
    ensures (f[2] as bv16 << 8) | f[1] as bv16 == on
    ensures (f[4] as bv16 << 8) | f[3] as bv16 == off
  {
    [LED0_ON_L + 4 * id, (on & 0xFF) as bv8, (on >> 8) as bv8, (off & 0xFF) as bv8, (off >> 8) as bv8]
  }

  /** For the channels [0, 15] the address is that channel's LEDn_ON_L
      register, between LED0_ON_L and LED15_ON_L. */
  lemma FrameChannel(id: bv8, on: bv16, off: bv16)
    requires id < 16
    ensures Frame(id, on, off)[0] == LedOnL(id as nat)
    ensures LED0_ON_L <= Frame(id, on, off)[0] <= LED15_OFF_H - 3
  {
  }
}
