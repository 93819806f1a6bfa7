/** The I2C bus as the driver sees it through `write` and `read` on the
    device file: a simulated PCA9685 with its 256 register addresses and its
    register pointer, a log of every transfer, and a script that says how
    many bytes each transfer reports. */
module I2cBus {

  /** One call the driver made on the device: the bytes it asked to write
      or a one-byte read, with the count the call returned. */
  datatype Transfer = WriteOf(bytes: seq<bv8>, count: int) | ReadOf(count: int)

  /** The chip and the bus: register file, register pointer, the transfers
      so far and the scripted counts.  Transfer k returns `script[k]` when
      the script has that many entries and reports the full length after. */
  datatype ChipState = ChipState(regs: seq<bv8>, pointer: bv8, log: seq<Transfer>, script: seq<int>)
  {
    predicate Wf()
    {
      |regs| == 256
    }
  }

  /** The count the next transfer of `n` bytes returns. */
  function Granted(s: ChipState, n: nat): int
  {
    if |s.log| < |s.script| then s.script[|s.log|] else n
  }

  /** The number of bytes that a call returning `count` for `n` requested
      bytes actually moved: an error moves nothing. */
  function Moved(count: int, n: nat): (m: nat)
    ensures m <= n
    ensures 0 <= count <= n ==> m == count
    ensures count < 0 ==> m == 0
  {
    if count < 0 then 0 else if count > n then n else count
  }

  /** The register file after `vals` have been stored from address `start`
      on; values that would land past address 255 are dropped. */
  function Stored(regs: seq<bv8>, start: nat, vals: seq<bv8>): (r: seq<bv8>)
    requires |regs| == 256 && start < 256
    ensures |r| == 256
    ensures forall j :: 0 <= j < |vals| && start + j < 256 ==> r[start + j] == vals[j]
    ensures forall a :: 0 <= a < start || start + |vals| <= a < 256 ==> r[a] == regs[a]
  {
    seq(256, a requires 0 <= a < 256 => if start <= a < start + |vals| then vals[a - start] else regs[a])
  }

  /** The state after a write of `bytes`: its first byte, once moved, sets
      the register pointer, the next ones are stored from that address on. */
  function WriteState(s: ChipState, bytes: seq<bv8>): (t: ChipState)
    requires s.Wf() && 1 <= |bytes| <= 256
    ensures t.Wf() && t.script == s.script
    ensures t.log == s.log + [WriteOf(bytes, Granted(s, |bytes|))]
  {
    var m := Moved(Granted(s, |bytes|), |bytes|);
    ChipState(if m >= 2 then Stored(s.regs, bytes[0] as int, bytes[1..m]) else s.regs,
              if m >= 1 then bytes[0] else s.pointer,
              s.log + [WriteOf(bytes, Granted(s, |bytes|))],
              s.script)
  }

  /** The state after a one-byte read: only the log changes. */
  function ReadState(s: ChipState): (t: ChipState)
    ensures t.regs == s.regs && t.pointer == s.pointer && t.script == s.script
    ensures t.log == s.log + [ReadOf(Granted(s, 1))]
  {
    s.(log := s.log + [ReadOf(Granted(s, 1))])
  }

  /** The destination byte after a one-byte read into it: the register at
      the pointer when a byte moved, the old contents otherwise. */
  function ReadByte(s: ChipState, into: bv8): (b: bv8)
    requires s.Wf()
    ensures Granted(s, 1) >= 1 ==> b == s.regs[s.pointer]
    ensures Granted(s, 1) < 1 ==> b == into
  {
    if Moved(Granted(s, 1), 1) == 1 then s.regs[s.pointer] else into
  }

  /** No scripted count is left: every further transfer is complete. */
  predicate Reliable(s: ChipState)
  {
    |s.log| >= |s.script|
  }

  /** Storing one value is a single register update. */
  lemma StoredOne(regs: seq<bv8>, a: nat, v: bv8)
    requires |regs| == 256 && a < 256
    ensures Stored(regs, a, [v]) == regs[a := v]
  {
    var r := Stored(regs, a, [v]);
    assert forall i | 0 <= i < 256 :: r[i] == regs[a := v][i];
  }

  /** A complete two-byte write `[reg, v]` sets register `reg` to `v`, points
      at it and changes no other register; the bus stays reliable. */
  lemma WriteRegister(s: ChipState, reg: bv8, v: bv8)
    requires s.Wf() && Reliable(s)
    ensures var t := WriteState(s, [reg, v]);
      Reliable(t) && t.regs == s.regs[reg as int := v] && t.pointer == reg
      && t.log == s.log + [WriteOf([reg, v], 2)]
  {
    StoredOne(s.regs, reg as int, v);
    assert [reg, v][1..2] == [v];
  }

  /** The device file opened on the simulated chip. */
  class Bus {
    const regs: array<bv8>
    var pointer: bv8
    var log: seq<Transfer>
    const script: seq<int>

    ghost predicate Valid()
      reads this
    {
      regs.Length == 256
    }

    /** The abstract state of the bus. */
    ghost function State(): (s: ChipState)
      reads this, regs
      requires Valid()
      ensures s.Wf()
    {
      ChipState(regs[..], pointer, log, script)
    }

    /** A chip whose registers hold `init`, with nothing transferred yet. */
    constructor (init: seq<bv8>, script: seq<int>)
      requires |init| == 256
      ensures Valid() && fresh(regs)
      ensures State() == ChipState(init, 0, [], script)
    {
      var a := new bv8[256](i requires 0 <= i < 256 => init[i]);
      regs := a;
      pointer := 0;
      log := [];
      this.script := script;
    }

    /** Stores `vals` into the register file from address `start` on. */
    method Store(start: nat, vals: seq<bv8>)
      requires Valid() && start < 256
      modifies regs
      ensures regs[..] == Stored(old(regs[..]), start, vals)
    {
      var j := 0;
      while j < |vals|
        invariant 0 <= j <= |vals|
        invariant forall a :: 0 <= a < 256 ==>
          regs[a] == if start <= a < start + j then vals[a - start] else old(regs[a])
      {
        if start + j < 256 {
          regs[start + j] := vals[j];
        }
        j := j + 1;
      }
      ghost var stored := Stored(old(regs[..]), start, vals);
      assert forall a | 0 <= a < 256 :: regs[..][a] == stored[a];
    }

    /** `write(fd, bytes, |bytes|)`: returns the scripted count and stores
        the bytes that moved. */
    method Write(bytes: seq<bv8>) returns (count: int)
      requires Valid() && 1 <= |bytes| <= 256
      modifies this, regs
      ensures Valid()
      ensures count == Granted(old(State()), |bytes|)
      ensures State() == WriteState(old(State()), bytes)
    {
      count := if |log| < |script| then script[|log|] else |bytes|;
      var m := Moved(count, |bytes|);
      if m >= 2 {
        Store(bytes[0] as int, bytes[1..m]);
      }
      if m >= 1 {
        pointer := bytes[0];
      }
      log := log + [WriteOf(bytes, count)];
    }

    /** `read(fd, &into, 1)`: returns the scripted count and the byte
        `into` holds afterwards. */
    method Read(into: bv8) returns (count: int, b: bv8)
      requires Valid()
      modifies this
      ensures Valid()
      ensures count == Granted(old(State()), 1)
      ensures b == ReadByte(old(State()), into)
      ensures State() == ReadState(old(State()))
    {
      count := if |log| < |script| then script[|log|] else 1;
      b := if count >= 1 then regs[pointer] else into;
      log := log + [ReadOf(count)];
    }
  }
}
