/** The PRE_SCALE value `setPCA9685PWMFreq` computes from the requested PWM
    frequency (pca9685.c:41-42, 368): the 25 MHz oscillator divided by the
    4096 steps of a period and by the frequency, truncated to an unsigned
    32-bit integer, minus one in 32-bit arithmetic, then stored in a byte.
    The value is computed on integers, with the 32-bit and 8-bit wrap
    written out, and converted to `bv8` only where it is written. */
module Prescale {

  /** The oscillator frequency in Hz (`clock`). */
  const CLOCK: nat := 25000000
  /** The steps of one PWM period (`periode`). */
  const PERIOD: nat := 4096

  /** The frequencies for which the conversion of the float quotient to an
      unsigned integer is defined: the positive ones, and the negative ones
      whose quotient lies strictly between -1 and 0 and truncates to 0. */
  predicate Converts(freq: int)
  {
    freq > 0 || PERIOD * -freq > CLOCK
  }

  /** The oscillator divided by the period and a positive `freq`. */
  function Divided(freq: int): nat
    requires freq > 0
  {
    CLOCK / (PERIOD * freq)
  }

  /** The truncated quotient of the oscillator by the period and `freq`. */
  function Quotient(freq: int): (q: nat)
    requires Converts(freq)
    ensures freq < 0 ==> q == 0
  {
    if freq > 0 then Divided(freq) else 0
  }

  /** The low byte of the wrapped 32-bit difference `q - 1`. */
  lemma LowByteOfDecrement(q: nat)
    ensures ((q - 1) % 0x1_0000_0000) % 256 == (q + 255) % 256
  {
  }

  /** The value the driver stores in the byte `prescale_val`: the unsigned
      subtraction wraps when the quotient is 0, and the assignment to a byte
      keeps the low eight bits. */
  function PrescaleValue(freq: int): (p: nat)
    requires Converts(freq)
    ensures p < 256
    ensures p == (Quotient(freq) + 255) % 256
  {
    var word := (Quotient(freq) - 1) % 0x1_0000_0000;
    LowByteOfDecrement(Quotient(freq));
    word % 256
  }

  /** The same value as the byte written to PRE_SCALE. */
  function PrescaleByte(freq: int): bv8
    requires Converts(freq)
  {
    PrescaleValue(freq) as bv8
  }

  /** The 50 Hz the driver programs at start-up gives 121. */
  lemma PrescaleAt50()
    ensures PrescaleValue(50) == 121
    ensures PrescaleByte(50) == 121
  {
    assert Quotient(50) == 122;
  }

  /** Above 6103 Hz the quotient is 0 and the subtraction wraps to 255. */
  lemma PrescaleWraps(freq: int)
    requires freq > CLOCK / PERIOD
    ensures Quotient(freq) == 0
    ensures PrescaleValue(freq) == 255
  {
    assert PERIOD * freq > CLOCK by {
      assert CLOCK / PERIOD == 6103;
      assert PERIOD * freq >= PERIOD * 6104;
    }
  }

  /** A negative frequency converts exactly when its magnitude is 6104 Hz or
      more; its quotient then truncates to 0 and the driver writes 255. */
  lemma PrescaleNegative(freq: int)
    requires freq < 0
    ensures Converts(freq) <==> freq <= -6104
    ensures freq <= -6104 ==> PrescaleValue(freq) == 255
  {
    if freq <= -6104 {
      assert PERIOD * -freq >= PERIOD * 6104;
    } else {
      assert PERIOD * -freq <= PERIOD * 6103;
    }
  }

  /** Multiplying by the same natural keeps the order. */
  lemma MulMonotone(x: nat, y: nat, b: nat)
    requires x <= y
    ensures x * b <= y * b
  {
    assert y * b - x * b == (y - x) * b;
  }

  /** `q` never exceeds `a / b` when `q * b <= a`. */
  lemma QuotientAtMost(a: nat, b: nat, q: nat)
    requires b > 0 && q * b <= a
    ensures q <= a / b
  {
    if q >= a / b + 1 {
      MulMonotone(a / b + 1, q, b);
      assert false;
    }
  }

  /** Dividing by more never gives more. */
  lemma QuotientAntitone(a: nat, b: nat, c: nat)
    requires 0 < c <= b
    ensures a / b <= a / c
  {
    var q := a / b;
    assert q * b <= a;
    assert q * b - q * c == q * (b - c);
    QuotientAtMost(a, c, q);
  }

  /** Between 24 Hz and 1525 Hz nothing wraps: the value is the quotient
      minus one and lies in the range [3, 253] the chip accepts. */
  lemma PrescaleInRange(freq: int)
    requires 24 <= freq <= 1525
    ensures 4 <= Quotient(freq) <= 254
    ensures PrescaleValue(freq) == Quotient(freq) - 1
    ensures 3 <= PrescaleValue(freq) <= 253
  {
    var d := PERIOD * freq;
    assert 98304 <= d <= 6246400;
    QuotientAntitone(CLOCK, d, 98304);
    QuotientAntitone(CLOCK, 6246400, d);
    assert CLOCK / 98304 == 254;
    assert CLOCK / 6246400 == 4;
  }
}
