/** What the driver's sequences do to the chip and what they return. */
module DriverProps {
  import opened Registers
  import opened I2cBus
  import Mode1
  import Mode2
  import opened Prescale
  import opened Driver

  /** Position of the select write in the log of a `configPCA9685` call
      starting from `s`: after the extra `[reg, 0]` write of a zero mask. */
  function SelectAt(s: ChipState, mask: bv32): nat
  {
    |s.log| + if mask == 0 then 1 else 0
  }

  /** `log` starts with `prefix`: the transfers made before are kept. */
  predicate Extends(log: seq<Transfer>, prefix: seq<Transfer>)
  {
    |prefix| <= |log| && log[..|prefix|] == prefix
  }

  /** The read-modify-write of `reg` at position `k` of `log`: the select
      write `[reg]`, a one-byte read and a two-byte write-back to `reg`. */
  predicate ConfigAt(log: seq<Transfer>, k: nat, reg: bv8)
  {
    && k + 3 <= |log|
    && log[k].WriteOf? && log[k].bytes == [reg]
    && log[k + 1].ReadOf?
    && log[k + 2].WriteOf? && |log[k + 2].bytes| == 2 && log[k + 2].bytes[0] == reg
  }

  /** The transfers of `configPCA9685` on MODE1 or MODE2: the zero-mask
      write `[reg, 0]`, then the select write, the read and the write-back,
      nothing else; the log only grows. */
  lemma {:induction false} ConfigTranscript(s: ChipState, reg: bv8, mask: bv32)
    requires s.Wf() && (reg == MODE1 || reg == MODE2)
    ensures var o := ConfigSpec(s, reg, mask); var k := SelectAt(s, mask);
      && Extends(o.state.log, s.log)
      && (mask == 0 ==> o.state.log[|s.log|].WriteOf? && o.state.log[|s.log|].bytes == [reg, 0])
      && |o.state.log| == k + 3 && ConfigAt(o.state.log, k, reg)
  {
    var s1 := if mask == 0 then WriteState(s, [reg, 0]) else s;
    var zero := if mask == 0 then [WriteOf([reg, 0], Granted(s, 2))] else [];
    assert s1.log == s.log + zero;
    var s2 := WriteState(s1, [reg]);
    var s3 := ReadState(s2);
    var s4 := WriteState(s3, [reg, Edit(reg, mask, ReadByte(s2, 0))]);
    var rmw := [WriteOf([reg], Granted(s1, 1)), ReadOf(Granted(s2, 1)), s4.log[|s3.log|]];
    assert s4.log == s.log + (zero + rmw);
  }

  /** Any register other than MODE1 and MODE2: only the zero-mask write
      reaches the bus, and the call returns 1. */
  lemma {:induction false} ConfigOther(s: ChipState, reg: bv8, mask: bv32)
    requires s.Wf() && reg != MODE1 && reg != MODE2
    ensures var o := ConfigSpec(s, reg, mask);
      && o.rc == 1
      && o.state.log == s.log + if mask == 0 then [WriteOf([reg, 0], Granted(s, 2))] else []
  {
  }

  /** `configPCA9685` returns 0 or 1, and 0 exactly for MODE1 or MODE2 when
      the last transfer, the two-byte write-back, reported 2 bytes. */
  lemma {:induction false} ConfigReturns(s: ChipState, reg: bv8, mask: bv32)
    requires s.Wf()
    ensures var o := ConfigSpec(s, reg, mask);
      && (o.rc == 0 || o.rc == 1)
      && (o.rc == 0 <==>
            (reg == MODE1 || reg == MODE2) && |o.state.log| > 0
            && o.state.log[|o.state.log| - 1].WriteOf? && o.state.log[|o.state.log| - 1].count == 2)
  {
    if reg == MODE1 || reg == MODE2 {
      ConfigTranscript(s, reg, mask);
    }
  }

  /** A read that moves no byte leaves the working byte at its initial 0, so
      the driver writes back the edit of 0, whatever the chip holds. */
  lemma {:induction false} ConfigFailedRead(s: ChipState, reg: bv8, mask: bv32)
    requires s.Wf() && (reg == MODE1 || reg == MODE2)
    requires SelectAt(s, mask) + 1 < |s.script| && s.script[SelectAt(s, mask) + 1] < 1
    ensures var o := ConfigSpec(s, reg, mask);
      o.state.log[SelectAt(s, mask) + 2].WriteOf?
      && o.state.log[SelectAt(s, mask) + 2].bytes == [reg, Edit(reg, mask, 0)]
  {
    var s1 := if mask == 0 then WriteState(s, [reg, 0]) else s;
    var s2 := WriteState(s1, [reg]);
    assert |s2.log| == SelectAt(s, mask) + 1;
    assert ReadByte(s2, 0) == 0;
    ConfigTranscript(s, reg, mask);
  }

  /** The transfers of a complete read-modify-write of `reg` that writes
      back `e`: select, one-byte read, two-byte write-back. */
  function Rmw(reg: bv8, e: bv8): seq<Transfer>
  {
    [WriteOf([reg], 1), ReadOf(1), WriteOf([reg, e], 2)]
  }

  /** The complete `[reg, 0]` write a zero mask starts with. */
  function ZeroWrite(reg: bv8, mask: bv32): seq<Transfer>
  {
    if mask == 0 then [WriteOf([reg, 0], 2)] else []
  }

  /** On a reliable bus `configPCA9685` on MODE1 or MODE2 succeeds, stores
      the edit of the register's old value (of 0 after the zero-mask write)
      and changes no other register, with exactly the expected transfers. */
  lemma {:induction false} ConfigReliable(s: ChipState, reg: bv8, mask: bv32)
    requires s.Wf() && Reliable(s) && (reg == MODE1 || reg == MODE2)
    ensures var o := ConfigSpec(s, reg, mask);
      var e := Edit(reg, mask, if mask == 0 then 0 else s.regs[reg]);
      && o.rc == 0 && Reliable(o.state) && o.state.pointer == reg
      && o.state.regs == s.regs[reg as int := e]
      && o.state.log == s.log + ZeroWrite(reg, mask) + Rmw(reg, e)
  {
    var s1 := if mask == 0 then WriteState(s, [reg, 0]) else s;
    if mask == 0 {
      WriteRegister(s, reg, 0);
    }
    assert Reliable(s1) && s1.regs[reg] == if mask == 0 then 0 else s.regs[reg];
    assert s1.log == s.log + ZeroWrite(reg, mask);
    var s2 := WriteState(s1, [reg]);
    assert s2.regs == s1.regs && s2.pointer == reg && s2.log == s1.log + [WriteOf([reg], 1)];
    var s3 := ReadState(s2);
    var e := Edit(reg, mask, ReadByte(s2, 0));
    WriteRegister(s3, reg, e);
    assert s1.regs[reg as int := e] == s.regs[reg as int := e];
  }

  /** With a zero mask the MODE1 write-back reproduces the byte read, while
      the MODE2 write-back clears the output-enable field (OUTNE_0). */
  lemma ZeroMaskEdits(b: bv8)
    ensures Edit(MODE1, 0, b) == b
    ensures Edit(MODE2, 0, b) == b & !(OUTNE as bv8)
  {
  }

  /** Transfer `k` of `log` is a write that reported `count` bytes. */
  predicate ReportedAt(log: seq<Transfer>, k: nat, count: int)
  {
    k < |log| && log[k].WriteOf? && log[k].count == count
  }

  /** A `configPCA9685` call on MODE1 or MODE2 with a nonzero mask adds
      exactly three transfers and returns 0 exactly when the last of them,
      the write-back, reported 2 bytes. */
  lemma {:induction false} ConfigStep(s: ChipState, reg: bv8, mask: bv32)
    requires s.Wf() && (reg == MODE1 || reg == MODE2) && mask != 0
    ensures var o := ConfigSpec(s, reg, mask); var n := |s.log|;
      && |o.state.log| == n + 3 && o.state.log[..n] == s.log
      && (o.rc == 0 <==> ReportedAt(o.state.log, n + 2, 2))
  {
    ConfigTranscript(s, reg, mask);
    ConfigReturns(s, reg, mask);
  }

  /** A `configPCA9685` call on MODE1 or MODE2 adds four transfers with a
      zero mask and three otherwise. */
  lemma {:induction false} ConfigLength(s: ChipState, reg: bv8, mask: bv32)
    requires s.Wf() && (reg == MODE1 || reg == MODE2)
    ensures |ConfigSpec(s, reg, mask).state.log| == |s.log| + if mask == 0 then 4 else 3
  {
    ConfigTranscript(s, reg, mask);
  }

  /** A transfer already in the log stays there as it was. */
  lemma EntryKept(log: seq<Transfer>, later: seq<Transfer>, k: nat)
    requires |log| <= |later| && later[..|log|] == log && k < |log|
    ensures later[k] == log[k]
  {
    assert later[k] == later[..|log|][k];
  }

  /** A transfer already in the log is reported the same way later on. */
  lemma ReportedKept(log: seq<Transfer>, later: seq<Transfer>, k: nat, count: int)
    requires |log| <= |later| && later[..|log|] == log && k < |log|
    ensures ReportedAt(later, k, count) == ReportedAt(log, k, count)
  {
    EntryKept(log, later, k);
  }

  /** `setPCA9685PWMFreq` returns 0 or the code of its failing step, and a
      failing step is the last to reach the bus: the log grows by 3, 4, 7 or
      all 10 transfers. */
  lemma {:induction false} FreqReturns(s: ChipState, freq: int)
    requires s.Wf() && Converts(freq)
    ensures var o := FreqSpec(s, freq); var n := |s.log|; var log := o.state.log;
      && (o.rc == 0 || o.rc == FREQ_SLEEP_FAILED || o.rc == FREQ_PRESCALE_FAILED
          || o.rc == FREQ_WAKE_FAILED || o.rc == FREQ_OUTPUT_FAILED)
      && (o.rc == FREQ_SLEEP_FAILED ==> |log| == n + 3)
      && (o.rc == FREQ_PRESCALE_FAILED ==> |log| == n + 4)
      && (o.rc == FREQ_WAKE_FAILED ==> |log| == n + 7)
      && (o.rc == FREQ_OUTPUT_FAILED || o.rc == 0 ==> |log| == n + 10)
  {
    var o1 := ConfigSpec(s, MODE1, SLEEP_ON | ALLCALL_OFF | AI_ON);
    ConfigStep(s, MODE1, SLEEP_ON | ALLCALL_OFF | AI_ON);
    if o1.rc == 0 {
      var s2 := WriteState(o1.state, [PRE_SCALE, PrescaleByte(freq)]);
      if Granted(o1.state, 2) == 2 {
        var o3 := ConfigSpec(s2, MODE1, SLEEP_OFF);
        ConfigStep(s2, MODE1, SLEEP_OFF);
        if o3.rc == 0 {
          ConfigStep(o3.state, MODE2, OUT_TP | OUTNE_HZ);
        }
      }
    }
  }

  /** `setPCA9685PWMFreq` returns 0 exactly when all ten transfers were made
      and the three write-backs and the prescale write reported 2 bytes. */
  lemma {:induction false} FreqSucceeds(s: ChipState, freq: int)
    requires s.Wf() && Converts(freq)
    ensures var o := FreqSpec(s, freq); var n := |s.log|; var log := o.state.log;
      o.rc == 0 <==>
        |log| == n + 10 && ReportedAt(log, n + 2, 2) && ReportedAt(log, n + 3, 2)
        && ReportedAt(log, n + 6, 2) && ReportedAt(log, n + 9, 2)
  {
    var n := |s.log|;
    var o1 := ConfigSpec(s, MODE1, SLEEP_ON | ALLCALL_OFF | AI_ON);
    ConfigStep(s, MODE1, SLEEP_ON | ALLCALL_OFF | AI_ON);
    if o1.rc == 0 {
      var s2 := WriteState(o1.state, [PRE_SCALE, PrescaleByte(freq)]);
      ReportedKept(o1.state.log, s2.log, n + 2, 2);
      if Granted(o1.state, 2) == 2 {
        var o3 := ConfigSpec(s2, MODE1, SLEEP_OFF);
        ConfigStep(s2, MODE1, SLEEP_OFF);
        ReportedKept(s2.log, o3.state.log, n + 2, 2);
        ReportedKept(s2.log, o3.state.log, n + 3, 2);
        if o3.rc == 0 {
          var o4 := ConfigSpec(o3.state, MODE2, OUT_TP | OUTNE_HZ);
          ConfigStep(o3.state, MODE2, OUT_TP | OUTNE_HZ);
          ReportedKept(o3.state.log, o4.state.log, n + 2, 2);
          ReportedKept(o3.state.log, o4.state.log, n + 3, 2);
          ReportedKept(o3.state.log, o4.state.log, n + 6, 2);
        }
      }
    }
  }

  /** The byte the first step of `setPCA9685PWMFreq` writes back to MODE1
      has SLEEP set, whatever was read. */
  lemma SleepEdit(b: bv8)
    ensures Edit(MODE1, SLEEP_ON | ALLCALL_OFF | AI_ON, b) & SLEEP == SLEEP
  {
    Mode1.RunIsFlags(SLEEP_ON | ALLCALL_OFF | AI_ON, b);
    Mode1.Mode1Bits(SLEEP_ON | ALLCALL_OFF | AI_ON, b);
  }

  /** Whatever the bus reports, the first step of `setPCA9685PWMFreq` writes
      back a MODE1 byte with SLEEP set, and when it succeeds MODE1 holds it. */
  lemma {:induction false} SleepWriteBack(s: ChipState)
    requires s.Wf()
    ensures var o1 := ConfigSpec(s, MODE1, SLEEP_ON | ALLCALL_OFF | AI_ON); var n := |s.log|;
      && |o1.state.log| == n + 3 && o1.state.log[n + 2].WriteOf?
      && o1.state.log[n + 2].bytes == [MODE1, o1.state.log[n + 2].bytes[1]]
      && o1.state.log[n + 2].bytes[1] & SLEEP == SLEEP
      && (o1.rc == 0 ==> o1.state.regs[MODE1] == o1.state.log[n + 2].bytes[1])
  {
    var n := |s.log|;
    var mask := SLEEP_ON | ALLCALL_OFF | AI_ON;
    var o1 := ConfigSpec(s, MODE1, mask);
    var s2 := WriteState(s, [MODE1]);
    var s3 := ReadState(s2);
    var e := Edit(MODE1, mask, ReadByte(s2, 0));
    SleepEdit(ReadByte(s2, 0));
    assert o1.state == WriteState(s3, [MODE1, e]);
    assert o1.state.log[n + 2] == WriteOf([MODE1, e], Granted(s3, 2));
    if o1.rc == 0 {
      assert [MODE1, e][1..2] == [e];
    }
  }

  /** Whatever the bus reports, `setPCA9685PWMFreq` writes PRE_SCALE only
      while the chip sleeps: the MODE1 write-back of its first step always
      sets SLEEP, and once that step succeeded MODE1 holds SLEEP and the
      very next transfer is the PRE_SCALE write. */
  lemma {:induction false} FreqSleepsFirst(s: ChipState, freq: int)
    requires s.Wf() && Converts(freq)
    ensures var o := FreqSpec(s, freq); var n := |s.log|; var log := o.state.log;
      var o1 := ConfigSpec(s, MODE1, SLEEP_ON | ALLCALL_OFF | AI_ON);
      && |log| >= n + 3 && log[n + 2].WriteOf? && |log[n + 2].bytes| == 2
      && log[n + 2].bytes[0] == MODE1 && log[n + 2].bytes[1] & SLEEP == SLEEP
      && (o1.rc == 0 ==>
            && o1.state.regs[MODE1] & SLEEP == SLEEP && |log| >= n + 4
            && log[n + 3] == WriteOf([PRE_SCALE, PrescaleByte(freq)], Granted(o1.state, 2)))
  {
    var n := |s.log|;
    var o1 := ConfigSpec(s, MODE1, SLEEP_ON | ALLCALL_OFF | AI_ON);
    SleepWriteBack(s);
    ConfigStep(s, MODE1, SLEEP_ON | ALLCALL_OFF | AI_ON);
    if o1.rc == 0 {
      var s4 := WriteState(o1.state, [PRE_SCALE, PrescaleByte(freq)]);
      EntryKept(o1.state.log, s4.log, n + 2);
      if Granted(o1.state, 2) == 2 {
        var o3 := ConfigSpec(s4, MODE1, SLEEP_OFF);
        ConfigStep(s4, MODE1, SLEEP_OFF);
        EntryKept(s4.log, o3.state.log, n + 2);
        EntryKept(s4.log, o3.state.log, n + 3);
        if o3.rc == 0 {
          var o4 := ConfigSpec(o3.state, MODE2, OUT_TP | OUTNE_HZ);
          ConfigStep(o3.state, MODE2, OUT_TP | OUTNE_HZ);
          EntryKept(o3.state.log, o4.state.log, n + 2);
          EntryKept(o3.state.log, o4.state.log, n + 3);
        }
      }
    }
  }

  /** Whatever the bus reports, the third step of `setPCA9685PWMFreq` writes
      back a MODE1 byte with SLEEP cleared. */
  lemma {:induction false} WakeWriteBack(s: ChipState)
    requires s.Wf()
    ensures var o := ConfigSpec(s, MODE1, SLEEP_OFF); var n := |s.log|;
      && |o.state.log| == n + 3 && o.state.log[n].WriteOf? && o.state.log[n].bytes == [MODE1]
      && o.state.log[n + 2].WriteOf? && |o.state.log[n + 2].bytes| == 2
      && o.state.log[n + 2].bytes[0] == MODE1 && o.state.log[n + 2].bytes[1] & SLEEP == 0
  {
    var n := |s.log|;
    var o := ConfigSpec(s, MODE1, SLEEP_OFF);
    var s2 := WriteState(s, [MODE1]);
    var s3 := ReadState(s2);
    var e := Edit(MODE1, SLEEP_OFF, ReadByte(s2, 0));
    assert e & SLEEP == 0 by {
      Mode1.RunIsFlags(SLEEP_OFF, ReadByte(s2, 0));
      Mode1.Mode1Bits(SLEEP_OFF, ReadByte(s2, 0));
    }
    assert o.state == WriteState(s3, [MODE1, e]);
    assert o.state.log[n] == WriteOf([MODE1], Granted(s, 1));
    assert o.state.log[n + 2] == WriteOf([MODE1, e], Granted(s3, 2));
  }

  /** Whatever the bus reports, once `setPCA9685PWMFreq` gets past its
      PRE_SCALE write, the next transfers select MODE1 and write it back
      with SLEEP cleared: the chip wakes only after the prescaler is set. */
  lemma {:induction false} FreqWakesAfter(s: ChipState, freq: int)
    requires s.Wf() && Converts(freq)
    ensures var o := FreqSpec(s, freq); var n := |s.log|; var log := o.state.log;
      |log| > n + 4 ==>
        && |log| >= n + 7
        && log[n + 3].WriteOf? && |log[n + 3].bytes| == 2 && log[n + 3].bytes[0] == PRE_SCALE
        && log[n + 4].WriteOf? && log[n + 4].bytes == [MODE1]
        && log[n + 6].WriteOf? && |log[n + 6].bytes| == 2
        && log[n + 6].bytes[0] == MODE1 && log[n + 6].bytes[1] & SLEEP == 0
  {
    var n := |s.log|;
    var o1 := ConfigSpec(s, MODE1, SLEEP_ON | ALLCALL_OFF | AI_ON);
    ConfigStep(s, MODE1, SLEEP_ON | ALLCALL_OFF | AI_ON);
    if o1.rc == 0 {
      var s4 := WriteState(o1.state, [PRE_SCALE, PrescaleByte(freq)]);
      assert |s4.log| == n + 4 && s4.log[n + 3] == WriteOf([PRE_SCALE, PrescaleByte(freq)], Granted(o1.state, 2));
      if Granted(o1.state, 2) == 2 {
        var o3 := ConfigSpec(s4, MODE1, SLEEP_OFF);
        ConfigStep(s4, MODE1, SLEEP_OFF);
        WakeWriteBack(s4);
        EntryKept(s4.log, o3.state.log, n + 3);
        if o3.rc == 0 {
          var o4 := ConfigSpec(o3.state, MODE2, OUT_TP | OUTNE_HZ);
          ConfigStep(o3.state, MODE2, OUT_TP | OUTNE_HZ);
          EntryKept(o3.state.log, o4.state.log, n + 3);
          EntryKept(o3.state.log, o4.state.log, n + 4);
          EntryKept(o3.state.log, o4.state.log, n + 6);
        }
      }
    }
  }

  /** On a reliable bus the first step of `setPCA9685PWMFreq` succeeds and
      puts the chip to sleep: ALLCALL cleared, SLEEP and AI set in MODE1. */
  lemma SleepStep(s: ChipState)
    requires s.Wf() && Reliable(s)
    ensures var o := ConfigSpec(s, MODE1, SLEEP_ON | ALLCALL_OFF | AI_ON);
      var asleep := (s.regs[MODE1] & !ALLCALL) | SLEEP | AI;
      && o.rc == 0 && Reliable(o.state)
      && o.state.regs == s.regs[MODE1 as int := asleep]
      && o.state.log == s.log + Rmw(MODE1, asleep)
  {
    ConfigReliable(s, MODE1, SLEEP_ON | ALLCALL_OFF | AI_ON);
  }

  /** On a reliable bus the third step of `setPCA9685PWMFreq` succeeds and
      wakes the chip: only SLEEP is cleared in MODE1. */
  lemma WakeStep(s: ChipState)
    requires s.Wf() && Reliable(s)
    ensures var o := ConfigSpec(s, MODE1, SLEEP_OFF);
      && o.rc == 0 && Reliable(o.state)
      && o.state.regs == s.regs[MODE1 as int := s.regs[MODE1] & !SLEEP]
      && o.state.log == s.log + Rmw(MODE1, s.regs[MODE1] & !SLEEP)
  {
    ConfigReliable(s, MODE1, SLEEP_OFF);
  }

  /** On a reliable bus the last step of `setPCA9685PWMFreq` succeeds and
      sets MODE2 to totem pole with high-impedance disabled outputs, keeping
      INVRT, OCH and the upper bits. */
  lemma OutputStep(s: ChipState)
    requires s.Wf() && Reliable(s)
    ensures var o := ConfigSpec(s, MODE2, OUT_TP | OUTNE_HZ);
      && o.rc == 0 && Reliable(o.state)
      && o.state.regs == s.regs[MODE2 as int := (s.regs[MODE2] & 0xF8) | 0x06]
      && o.state.log == s.log + Rmw(MODE2, (s.regs[MODE2] & 0xF8) | 0x06)
  {
    ConfigReliable(s, MODE2, OUT_TP | OUTNE_HZ);
  }

  /** Writing a register again after another one was written keeps only the
      last value. */
  lemma Overwrite(r: seq<bv8>, i: nat, j: nat, x: bv8, y: bv8, z: bv8)
    requires i < |r| && j < |r| && i != j
    ensures r[i := x][j := y][i := z] == r[i := z][j := y]
  {
    var before, after := r[i := x][j := y][i := z], r[i := z][j := y];
    assert forall a | 0 <= a < |r| :: before[a] == after[a];
  }

  /** On a reliable bus `setPCA9685PWMFreq` succeeds and leaves MODE1 awake
      with ALLCALL off and auto-increment on, the prescale value in PRE_SCALE
      and MODE2 in totem-pole mode with high-impedance disabled outputs; no
      other register changes. */
  lemma {:induction false} FreqReliable(s: ChipState, freq: int)
    requires s.Wf() && Reliable(s) && Converts(freq)
    ensures var o := FreqSpec(s, freq);
      var awake := (s.regs[MODE1] & !(ALLCALL | SLEEP)) | AI;
      var mode2 := (s.regs[MODE2] & 0xF8) | 0x06;
      && o.rc == 0 && Reliable(o.state)
      && o.state.regs == s.regs[MODE1 as int := awake][PRE_SCALE as int := PrescaleByte(freq)][MODE2 as int := mode2]
  {
    var asleep := (s.regs[MODE1] & !ALLCALL) | SLEEP | AI;
    var awake := (s.regs[MODE1] & !(ALLCALL | SLEEP)) | AI;
    var p := PrescaleByte(freq);
    var o1 := ConfigSpec(s, MODE1, SLEEP_ON | ALLCALL_OFF | AI_ON);
    assert o1.rc == 0 && Reliable(o1.state) && o1.state.regs == s.regs[MODE1 as int := asleep] by {
      SleepStep(s);
    }
    var s2 := WriteState(o1.state, [PRE_SCALE, p]);
    assert Granted(o1.state, 2) == 2 && Reliable(s2) && s2.regs == o1.state.regs[PRE_SCALE as int := p] by {
      WriteRegister(o1.state, PRE_SCALE, p);
    }
    var o3 := ConfigSpec(s2, MODE1, SLEEP_OFF);
    assert o3.rc == 0 && Reliable(o3.state) && o3.state.regs == s2.regs[MODE1 as int := awake] by {
      WakeStep(s2);
      assert asleep & !SLEEP == awake;
    }
    Overwrite(s.regs, MODE1 as int, PRE_SCALE as int, asleep, p, awake);
    var o4 := ConfigSpec(o3.state, MODE2, OUT_TP | OUTNE_HZ);
    assert o4.rc == 0 && Reliable(o4.state)
      && o4.state.regs == o3.state.regs[MODE2 as int := (s.regs[MODE2] & 0xF8) | 0x06] by {
      OutputStep(o3.state);
    }
  }

  /** On a reliable bus the transfers of `setPCA9685PWMFreq` are, in this
      order, the MODE1 update to sleep, the PRE_SCALE write, the MODE1
      update to wake and the MODE2 update, with the bytes each writes back. */
  lemma {:induction false} FreqReliableLog(s: ChipState, freq: int)
    requires s.Wf() && Reliable(s) && Converts(freq)
    ensures var o := FreqSpec(s, freq);
      var asleep := (s.regs[MODE1] & !ALLCALL) | SLEEP | AI;
      var awake := (s.regs[MODE1] & !(ALLCALL | SLEEP)) | AI;
      var mode2 := (s.regs[MODE2] & 0xF8) | 0x06;
      o.state.log == s.log + Rmw(MODE1, asleep) + [WriteOf([PRE_SCALE, PrescaleByte(freq)], 2)]
                           + Rmw(MODE1, awake) + Rmw(MODE2, mode2)
  {
    var asleep := (s.regs[MODE1] & !ALLCALL) | SLEEP | AI;
    var awake := (s.regs[MODE1] & !(ALLCALL | SLEEP)) | AI;
    var mode2 := (s.regs[MODE2] & 0xF8) | 0x06;
    var p := PrescaleByte(freq);
    var o1 := ConfigSpec(s, MODE1, SLEEP_ON | ALLCALL_OFF | AI_ON);
    SleepStep(s);
    var s2 := WriteState(o1.state, [PRE_SCALE, p]);
    WriteRegister(o1.state, PRE_SCALE, p);
    assert s2.regs[MODE1] == asleep && s2.regs[MODE2] == s.regs[MODE2];
    var o3 := ConfigSpec(s2, MODE1, SLEEP_OFF);
    WakeStep(s2);
    assert asleep & !SLEEP == awake;
    assert o3.state.regs[MODE2] == s.regs[MODE2];
    var o4 := ConfigSpec(o3.state, MODE2, OUT_TP | OUTNE_HZ);
    OutputStep(o3.state);
  }

  /** `openPCA9685` stops at a failed bus open or address bind without any
      transfer, and returns 0 or one of the distinct codes of its steps and
      of `setPCA9685PWMFreq`. */
  lemma {:induction false} OpenEarlyExit(s: ChipState, fd: int, bound: int)
    requires s.Wf()
    ensures var o := OpenSpec(s, fd, bound);
      && (fd < 0 ==> o == Outcome(s, OPEN_BUS_FAILED))
      && (fd >= 0 && bound < 0 ==> o == Outcome(s, OPEN_ADDRESS_FAILED))
      && (o.rc == 0 || o.rc == OPEN_BUS_FAILED || o.rc == OPEN_ADDRESS_FAILED
          || o.rc == OPEN_MODE1_FAILED || o.rc == OPEN_MODE2_FAILED || o.rc == OPEN_OUTPUT_FAILED
          || o.rc == FREQ_SLEEP_FAILED || o.rc == FREQ_PRESCALE_FAILED
          || o.rc == FREQ_WAKE_FAILED || o.rc == FREQ_OUTPUT_FAILED)
  {
    if fd >= 0 && bound >= 0 {
      var o1 := ConfigSpec(s, MODE1, 0);
      if o1.rc == 0 {
        var o2 := ConfigSpec(o1.state, MODE2, 0);
        if o2.rc == 0 {
          var o3 := ConfigSpec(o2.state, MODE2, OUT_TP);
          if o3.rc == 0 {
            FreqReturns(o3.state, 50);
          }
        }
      }
    }
  }

  /** On a reliable bus the reset of a mode register by `openPCA9685`
      succeeds and leaves it 0 (MODE2 through its high-impedance bit being
      cleared as well), whatever it held. */
  lemma ResetStep(s: ChipState, reg: bv8)
    requires s.Wf() && Reliable(s) && (reg == MODE1 || reg == MODE2)
    ensures var o := ConfigSpec(s, reg, 0);
      && o.rc == 0 && Reliable(o.state)
      && o.state.regs == s.regs[reg as int := 0]
      && o.state.log == s.log + [WriteOf([reg, 0], 2)] + Rmw(reg, 0)
  {
    ConfigReliable(s, reg, 0);
  }

  /** On a reliable bus the output step of `openPCA9685` succeeds and sets
      the totem-pole bit of MODE2, clearing the output-enable field. */
  lemma TotemPoleStep(s: ChipState)
    requires s.Wf() && Reliable(s)
    ensures var o := ConfigSpec(s, MODE2, OUT_TP);
      && o.rc == 0 && Reliable(o.state)
      && o.state.regs == s.regs[MODE2 as int := (s.regs[MODE2] & 0xF8) | 0x04]
      && o.state.log == s.log + Rmw(MODE2, (s.regs[MODE2] & 0xF8) | 0x04)
  {
    ConfigReliable(s, MODE2, OUT_TP);
  }

  /** After a successful open and bind, `openPCA9685` stops at its first
      failing register step and nothing after it reaches the bus: a failed
      MODE1 reset leaves 4 transfers, a failed MODE2 reset 8 and a failed
      OUT_TP step 11. */
  lemma {:induction false} OpenStops(s: ChipState, fd: int, bound: int)
    requires s.Wf() && fd >= 0 && bound >= 0
    ensures var o := OpenSpec(s, fd, bound); var n := |s.log|;
      && (o.rc == OPEN_MODE1_FAILED ==> |o.state.log| == n + 4)
      && (o.rc == OPEN_MODE2_FAILED ==> |o.state.log| == n + 8)
      && (o.rc == OPEN_OUTPUT_FAILED ==> |o.state.log| == n + 11)
  {
    var o := OpenSpec(s, fd, bound);
    var o1 := ConfigSpec(s, MODE1, 0);
    var o2 := ConfigSpec(o1.state, MODE2, 0);
    var o3 := ConfigSpec(o2.state, MODE2, OUT_TP);
    OpenHandsOver(s, fd, bound);
    if o1.rc != 0 {
      assert o == Outcome(o1.state, OPEN_MODE1_FAILED);
      ConfigLength(s, MODE1, 0);
    } else if o2.rc != 0 {
      assert o == Outcome(o2.state, OPEN_MODE2_FAILED);
      ConfigLength(s, MODE1, 0);
      ConfigLength(o1.state, MODE2, 0);
    } else if o3.rc != 0 {
      assert o == Outcome(o3.state, OPEN_OUTPUT_FAILED);
      ConfigLength(s, MODE1, 0);
      ConfigLength(o1.state, MODE2, 0);
      ConfigLength(o2.state, MODE2, OUT_TP);
    }
  }

  /** `openPCA9685` returns the result of `setPCA9685PWMFreq` at 50 Hz, issued
      after the 11 transfers of its register steps, exactly when the bus
      open, the address bind and those three steps all succeeded. */
  lemma {:induction false} OpenHandsOver(s: ChipState, fd: int, bound: int)
    requires s.Wf()
    ensures var o := OpenSpec(s, fd, bound);
      var o1 := ConfigSpec(s, MODE1, 0);
      var o2 := ConfigSpec(o1.state, MODE2, 0);
      var o3 := ConfigSpec(o2.state, MODE2, OUT_TP);
      var ready := fd >= 0 && bound >= 0 && o1.rc == 0 && o2.rc == 0 && o3.rc == 0;
      && (ready <==> o.rc == 0 || o.rc == FREQ_SLEEP_FAILED || o.rc == FREQ_PRESCALE_FAILED
                     || o.rc == FREQ_WAKE_FAILED || o.rc == FREQ_OUTPUT_FAILED)
      && (ready ==> |o3.state.log| == |s.log| + 11 && o == FreqSpec(o3.state, 50))
  {
    if fd >= 0 && bound >= 0 {
      var o1 := ConfigSpec(s, MODE1, 0);
      ConfigLength(s, MODE1, 0);
      if o1.rc == 0 {
        var o2 := ConfigSpec(o1.state, MODE2, 0);
        ConfigLength(o1.state, MODE2, 0);
        if o2.rc == 0 {
          var o3 := ConfigSpec(o2.state, MODE2, OUT_TP);
          ConfigLength(o2.state, MODE2, OUT_TP);
          if o3.rc == 0 {
            FreqReturns(o3.state, 50);
          }
        }
      }
    }
  }

  /** The registers `openPCA9685` writes, in the order it writes them, keep
      only their last values. */
  lemma OpenWrites(r: seq<bv8>)
    requires |r| == 256
    ensures r[MODE1 as int := 0][MODE2 as int := 0][MODE2 as int := 0x04][MODE1 as int := 0x20]
             [PRE_SCALE as int := 121][MODE2 as int := 0x06]
         == r[MODE1 as int := 0x20][MODE2 as int := 0x06][PRE_SCALE as int := 121]
  {
    var before := r[MODE1 as int := 0][MODE2 as int := 0][MODE2 as int := 0x04][MODE1 as int := 0x20]
      [PRE_SCALE as int := 121][MODE2 as int := 0x06];
    var after := r[MODE1 as int := 0x20][MODE2 as int := 0x06][PRE_SCALE as int := 121];
    assert forall a | 0 <= a < 256 :: before[a] == after[a];
  }

  /** On a reliable bus, once the device is open and bound, `openPCA9685`
      succeeds and leaves MODE1 = 0x20 (awake, auto-increment), MODE2 = 0x06
      (totem pole, high impedance when disabled) and PRE_SCALE = 121 (50 Hz),
      whatever the registers held before; no other register changes. */
  lemma {:induction false} OpenReliable(s: ChipState, fd: int, bound: int)
    requires s.Wf() && Reliable(s) && fd >= 0 && bound >= 0
    ensures var o := OpenSpec(s, fd, bound);
      && o.rc == 0 && Reliable(o.state)
      && o.state.regs == s.regs[MODE1 as int := 0x20][MODE2 as int := 0x06][PRE_SCALE as int := 121]
  {
    var o1 := ConfigSpec(s, MODE1, 0);
    ResetStep(s, MODE1);
    var o2 := ConfigSpec(o1.state, MODE2, 0);
    ResetStep(o1.state, MODE2);
    var o3 := ConfigSpec(o2.state, MODE2, OUT_TP);
    TotemPoleStep(o2.state);
    assert o3.state.regs == s.regs[MODE1 as int := 0][MODE2 as int := 0][MODE2 as int := 0x04];
    FreqReliable(o3.state, 50);
    PrescaleAt50();
    OpenWrites(s.regs);
  }

  /** On a reliable bus the transfers of `openPCA9685` are, in this order:
      the zero write and reset of MODE1, the zero write and reset of MODE2,
      the OUT_TP update of MODE2, then those of `setPCA9685PWMFreq` at 50 Hz
      from MODE1 = 0 and MODE2 = 0x04. */
  lemma {:induction false} OpenReliableLog(s: ChipState, fd: int, bound: int)
    requires s.Wf() && Reliable(s) && fd >= 0 && bound >= 0
    ensures var o := OpenSpec(s, fd, bound);
      o.state.log == s.log + [WriteOf([MODE1, 0], 2)] + Rmw(MODE1, 0)
                           + [WriteOf([MODE2, 0], 2)] + Rmw(MODE2, 0) + Rmw(MODE2, 0x04)
                           + Rmw(MODE1, 0x30) + [WriteOf([PRE_SCALE, 121], 2)]
                           + Rmw(MODE1, 0x20) + Rmw(MODE2, 0x06)
  {
    var o1 := ConfigSpec(s, MODE1, 0);
    var l1 := s.log + [WriteOf([MODE1, 0], 2)] + Rmw(MODE1, 0);
    assert o1.state.log == l1 && Reliable(o1.state) && o1.state.regs[MODE1] == 0 by {
      ResetStep(s, MODE1);
    }
    var o2 := ConfigSpec(o1.state, MODE2, 0);
    var l2 := l1 + [WriteOf([MODE2, 0], 2)] + Rmw(MODE2, 0);
    assert o2.state.log == l2 && Reliable(o2.state) && o2.state.regs[MODE1] == 0 && o2.state.regs[MODE2] == 0 by {
      ResetStep(o1.state, MODE2);
    }
    var o3 := ConfigSpec(o2.state, MODE2, OUT_TP);
    var l3 := l2 + Rmw(MODE2, 0x04);
    assert o3.state.log == l3 && Reliable(o3.state) && o3.state.regs[MODE1] == 0 && o3.state.regs[MODE2] == 0x04 by {
      TotemPoleStep(o2.state);
    }
    assert OpenSpec(s, fd, bound) == FreqSpec(o3.state, 50) by {
      OpenHandsOver(s, fd, bound);
    }
    assert FreqSpec(o3.state, 50).state.log
        == l3 + Rmw(MODE1, 0x30) + [WriteOf([PRE_SCALE, 121], 2)] + Rmw(MODE1, 0x20) + Rmw(MODE2, 0x06) by {
      FreqReliableLog(o3.state, 50);
      PrescaleAt50();
    }
  }
}
