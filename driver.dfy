/** The driver's entry points over the simulated bus (pca9685.c:173-405):
    `configPCA9685`, `setPCA9685PWMFreq`, `setPCA9685PWM`, `openPCA9685` and
    `closePCA9685`.  Each is a specification function on `ChipState` and a
    method on `Bus` proved to follow it; the lemmas state what the sequences
    do to the chip and what they return. */
module Driver {
  import opened Registers
  import opened I2cBus
  import Mode1
  import Mode2
  import opened Prescale
  import opened PwmFrame

  /** The state a call leaves and the code it returns. */
  datatype Outcome = Outcome(state: ChipState, rc: int)

  // Error codes of `openPCA9685` and `setPCA9685PWMFreq`: the driver returns
  // the source line of the failing test.
  const OPEN_BUS_FAILED: int := 334
  const OPEN_ADDRESS_FAILED: int := 339
  const OPEN_MODE1_FAILED: int := 344
  const OPEN_MODE2_FAILED: int := 349
  const OPEN_OUTPUT_FAILED: int := 354
  const FREQ_SLEEP_FAILED: int := 372
  const FREQ_PRESCALE_FAILED: int := 379
  const FREQ_WAKE_FAILED: int := 384
  const FREQ_OUTPUT_FAILED: int := 389

  /** The byte `configPCA9685` writes back to MODE1 or MODE2 after reading `b`. */
  function Edit(reg: bv8, mask: bv32, b: bv8): (r: bv8)
    ensures reg == MODE1 ==> r & 0x40 == b & 0x40
    ensures reg != MODE1 ==> r & Mode2.KEPT == b & Mode2.KEPT
  {
    if reg == MODE1 then Mode1.Flags(mask, b) else Mode2.Mode2Edited(mask, b)
  }

  /** `configPCA9685(reg, mask)`: a zero mask first writes `[reg, 0]`; MODE1
      and MODE2 are then selected, read into a byte that starts at 0, edited
      and written back, and the call returns 0 exactly when the write-back
      reports 2 bytes; any other register returns 1. */
  function ConfigSpec(s: ChipState, reg: bv8, mask: bv32): (o: Outcome)
    requires s.Wf()
    ensures o.state.Wf() && o.state.script == s.script
  {
    var s1 := if mask == 0 then WriteState(s, [reg, 0]) else s;
    if reg == MODE1 || reg == MODE2 then
      var s2 := WriteState(s1, [reg]);
      var b := ReadByte(s2, 0);
      var s3 := ReadState(s2);
      Outcome(WriteState(s3, [reg, Edit(reg, mask, b)]), if Granted(s3, 2) != 2 then 1 else 0)
    else
      Outcome(s1, 1)
  }

  /** `setPCA9685PWMFreq(freq)`: put the chip to sleep with ALLCALL off and
      auto-increment on, write PRE_SCALE, wake it, set the outputs to totem
      pole with high impedance when disabled; the first failure returns the
      code of its step and nothing after it runs. */
  function FreqSpec(s: ChipState, freq: int): (o: Outcome)
    requires s.Wf() && Converts(freq)
    ensures o.state.Wf() && o.state.script == s.script
  {
    var o1 := ConfigSpec(s, MODE1, SLEEP_ON | ALLCALL_OFF | AI_ON);
    if o1.rc != 0 then Outcome(o1.state, FREQ_SLEEP_FAILED) else
    var s2 := WriteState(o1.state, [PRE_SCALE, PrescaleByte(freq)]);
    if Granted(o1.state, 2) != 2 then Outcome(s2, FREQ_PRESCALE_FAILED) else
    var o3 := ConfigSpec(s2, MODE1, SLEEP_OFF);
    if o3.rc != 0 then Outcome(o3.state, FREQ_WAKE_FAILED) else
    var o4 := ConfigSpec(o3.state, MODE2, OUT_TP | OUTNE_HZ);
    if o4.rc != 0 then Outcome(o4.state, FREQ_OUTPUT_FAILED) else
    Outcome(o4.state, 0)
  }

  /** `openPCA9685`: `fd` is what opening the bus returned and `bound` what
      binding the chip address returned.  Then MODE1 and MODE2 are reset,
      the outputs set to totem pole and the frequency to 50 Hz. */
  function OpenSpec(s: ChipState, fd: int, bound: int): (o: Outcome)
    requires s.Wf()
    ensures o.state.Wf() && o.state.script == s.script
  {
    if fd < 0 then Outcome(s, OPEN_BUS_FAILED)
    else if bound < 0 then Outcome(s, OPEN_ADDRESS_FAILED)
    else
      var o1 := ConfigSpec(s, MODE1, 0);
      if o1.rc != 0 then Outcome(o1.state, OPEN_MODE1_FAILED) else
      var o2 := ConfigSpec(o1.state, MODE2, 0);
      if o2.rc != 0 then Outcome(o2.state, OPEN_MODE2_FAILED) else
      var o3 := ConfigSpec(o2.state, MODE2, OUT_TP);
      if o3.rc != 0 then Outcome(o3.state, OPEN_OUTPUT_FAILED) else
      FreqSpec(o3.state, 50)
  }

  // ---------------------------------------------------------------------
  // The driver's functions over the simulated bus.

  method Config(bus: Bus, reg: bv8, mask: bv32) returns (rc: int)
    requires bus.Valid()
    modifies bus, bus.regs
    ensures bus.Valid()
    ensures Outcome(bus.State(), rc) == ConfigSpec(old(bus.State()), reg, mask)
  {
    var buf1: bv8 := 0;
    if mask == 0 {
      var ignored := bus.Write([reg, buf1]);
    }
    if reg == MODE1 || reg == MODE2 {
      var ignored := bus.Write([reg]);
      var count;
      count, buf1 := bus.Read(buf1);
      if reg == MODE1 {
        buf1 := Mode1.EditMode1(mask, buf1);
      } else {
        buf1 := Mode2.EditMode2(mask, buf1);
      }
      var written := bus.Write([reg, buf1]);
      rc := if written != 2 then 1 else 0;
    } else {
      rc := 1;
    }
  }

  method SetPwmFreq(bus: Bus, freq: int) returns (rc: int)
    requires bus.Valid() && Converts(freq)
    modifies bus, bus.regs
    ensures bus.Valid()
    ensures Outcome(bus.State(), rc) == FreqSpec(old(bus.State()), freq)
  {
    var prescale := PrescaleByte(freq);
    rc := Config(bus, MODE1, SLEEP_ON | ALLCALL_OFF | AI_ON);
    if rc != 0 {
      return FREQ_SLEEP_FAILED;
    }
    var written := bus.Write([PRE_SCALE, prescale]);
    if written != 2 {
      return FREQ_PRESCALE_FAILED;
    }
    rc := Config(bus, MODE1, SLEEP_OFF);
    if rc != 0 {
      return FREQ_WAKE_FAILED;
    }
    rc := Config(bus, MODE2, OUT_TP | OUTNE_HZ);
    if rc != 0 {
      return FREQ_OUTPUT_FAILED;
    }
    return 0;
  }

  /** `setPCA9685PWM`: one write of the channel's frame, 0 exactly when all
      five bytes were transferred. */
  method SetPwm(bus: Bus, id: bv8, on: bv16, off: bv16) returns (rc: int)
    requires bus.Valid()
    modifies bus, bus.regs
    ensures bus.Valid()
    ensures bus.State() == WriteState(old(bus.State()), Frame(id, on, off))
    ensures rc == if Granted(old(bus.State()), 5) != 5 then 1 else 0
  {
    var written := bus.Write(Frame(id, on, off));
    rc := if written != 5 then 1 else 0;
  }

  method Open(bus: Bus, fd: int, bound: int) returns (rc: int)
    requires bus.Valid()
    modifies bus, bus.regs
    ensures bus.Valid()
    ensures Outcome(bus.State(), rc) == OpenSpec(old(bus.State()), fd, bound)
  {
    if fd < 0 {
      return OPEN_BUS_FAILED;
    }
    if bound < 0 {
      return OPEN_ADDRESS_FAILED;
    }
    rc := Config(bus, MODE1, 0);
    if rc != 0 {
      return OPEN_MODE1_FAILED;
    }
    rc := Config(bus, MODE2, 0);
    if rc != 0 {
      return OPEN_MODE2_FAILED;
    }
    rc := Config(bus, MODE2, OUT_TP);
    if rc != 0 {
      return OPEN_OUTPUT_FAILED;
    }
    rc := SetPwmFreq(bus, 50);
  }

  /** `closePCA9685`: `closed` is what closing the device returned. */
  method Close(closed: int) returns (rc: int)
    ensures rc == closed
  {
    rc := closed;
  }
}
