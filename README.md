# PCA9685 PWM driver: a verified model

This project models the user-space Linux driver for the NXP PCA9685 16-channel,
12-bit PWM controller (`pca9685.c`). The driver talks to the chip through an I2C
device file. It does five things:

- It edits the MODE1 and MODE2 configuration registers by read-modify-write
  (`configPCA9685`).
- It computes and programs the PRE_SCALE divider for a PWM frequency
  (`setPCA9685PWMFreq`).
- It sends the five-byte ON/OFF frame of one channel (`setPCA9685PWM`).
- It runs the power-on sequence (`openPCA9685`).
- It closes the device (`closePCA9685`).

The I2C device is modelled as a simulated chip. The `I2cBus.Bus` class holds:

- a 256-byte register file (`array<bv8>`);
- the chip's register pointer;
- a log of every transfer;
- a script of the byte counts that `write` and `read` return.

A transfer past the end of the script moves all its bytes. The simulated chip
follows three rules:

- A write `[r, v1, ...]` sets the pointer to `r` and stores `v1, ...` from
  address `r` on.
- A one-byte write `[r]` only sets the pointer.
- A read returns the register at the pointer.

A transfer that reports fewer bytes moves only those bytes.

Each driver entry point has two forms:

- a specification function over the value `I2cBus.ChipState`:
  `Driver.ConfigSpec`, `Driver.FreqSpec` and `Driver.OpenSpec`;
- a method on `Bus` proved to follow that function: `Driver.Config`,
  `Driver.SetPwmFreq` and `Driver.Open`.

`DriverProps` proves what the driver's sequences do to the chip and what they
return.

The two in-place byte edits are modelled as they are written:

- MODE1 (`Mode1.EditMode1`) is a loop over the 16 request bits of the mask.
  Each iteration doubles the counter and switches on `mask & i`.
- MODE2 (`Mode2.EditMode2`) is a chain of in-place `&=` and `|=` tests.

Each edit is proved equal to a closed bitwise form (`Mode1.Flags`,
`Mode2.Mode2Edited`), and the bit-by-bit rules are stated on those forms.

Three quirks of the driver are reproduced as written:

- `EXTCLK` has the value `0x04` of `SUB2`, so bit 0x40 is never touched.
- `OUT_TP` sets the `OUT_HZ` bit.
- `OCH` does nothing, and `INVRT` only ever sets.

Error codes are the source line numbers the driver returns (`__LINE__`):

- `openPCA9685` returns 334, 339, 344, 349 or 354 for its own steps.
- `setPCA9685PWMFreq` returns 372, 379, 384 or 389.

Files:

- `registers.dfy`: the register map and flag encodings.
- `mode1.dfy` and `mode2.dfy`: the byte edits.
- `prescale.dfy`: the PRE_SCALE arithmetic.
- `pwm_frame.dfy`: the channel frame.
- `bus.dfy`: the simulated chip and bus.
- `driver.dfy`: the entry points.
- `driver_props.dfy`: the properties of the sequences.

## Model

| member | source | states |
|---|---|---|
| Registers.LedOnL | pca9685.c:52-115 | The ON_L register of channel id in [0, 15] is 6 + 4*id, between LED0_ON_L and LED15_ON_L |
| Mode1.Step | pca9685.c:194-272 | One case of the switch on a masked request changes at most one bit of the byte, and never bit 0x40 |
| Mode1.Visit | pca9685.c:194 | An iteration whose request bit is absent from the mask leaves the byte unchanged; otherwise at most one bit changes, never bit 0x40 |
| Mode1.Run | pca9685.c:192-273 | The rest of the loop from counter i: a zero mask leaves the byte as read, and bit 0x40 never changes |
| Mode1.RunPair | pca9685.c:193-196 | Two iterations of the MODE1 loop over one flag's ON and OFF requests apply that flag's rule, and the counter stays a power of two |
| Mode1.RunAllcall | pca9685.c:197-206 | The ALLCALL_ON/ALLCALL_OFF iterations apply the ALLCALL rule: OFF clears bit 0x01, else ON sets it |
| Mode1.RunSub3 | pca9685.c:207-216 | The SUB3 iterations apply the rule to bit 0x02 |
| Mode1.RunSub2 | pca9685.c:217-226 | The SUB2 iterations apply the rule to bit 0x04 |
| Mode1.RunSub1 | pca9685.c:227-236 | The SUB1 iterations apply the rule to bit 0x08 |
| Mode1.RunSleep | pca9685.c:237-246 | The SLEEP iterations apply the rule to bit 0x10 |
| Mode1.RunAi | pca9685.c:247-256 | The AI iterations apply the rule to bit 0x20 |
| Mode1.RunExtclk | pca9685.c:257-266 | The EXTCLK iterations apply the rule to bit 0x04, the value EXTCLK has in the driver |
| Mode1.RunRestart | pca9685.c:267-274 | The last two iterations set bit 0x80 when either RESTART request is present and end the loop |
| Mode1.RunIsFlags | pca9685.c:193-274 | Visiting the 16 request bits lowest first equals applying the eight flag rules in request order |
| Mode1.Mode1Bits | pca9685.c:193-274 | Per bit of MODE1: a flag's OFF request clears it, else ON sets it, else the bit is kept. On bit 0x04 the EXTCLK requests override SUB2. Bit 0x40 is never changed. Either RESTART request sets 0x80 |
| Mode1.EditMode1 | pca9685.c:193-274 | The driver's loop over the mask leaves exactly the closed-form byte `Flags(mask, read)` |
| Mode2.Mode2Fields | pca9685.c:283-318 | The low two bits become `mask & 3` when that is 0, 1 or 2 and are kept when it is 3. Bit 0x04 is set by OUT_TP, else cleared by OUT_HZ, else kept. Bit 0x10 is set by INVRT, else kept. Bits 0x08, 0x20, 0x40 and 0x80 are kept |
| Mode2.EditMode2 | pca9685.c:283-318 | The driver's chain of tests leaves exactly the closed-form byte `Mode2Edited(mask, read)` |
| Prescale.PrescaleValue | pca9685.c:368 | The byte written to PRE_SCALE is (Q + 255) mod 256, where Q is 25000000 div (4096*freq) for a positive freq and 0 for a negative freq whose float quotient truncates to 0. This is the quotient minus one, wrapped in 32 bits and truncated to 8 bits |
| Prescale.PrescaleAt50 | pca9685.c:357 | The 50 Hz of the power-on sequence gives PRE_SCALE 121 |
| Prescale.PrescaleWraps | pca9685.c:368 | Above 6103 Hz the quotient is 0 and the unsigned subtraction gives 255 |
| Prescale.PrescaleInRange | pca9685.c:368 | From 24 Hz to 1525 Hz nothing wraps: PRE_SCALE is the quotient minus one and lies in [3, 253] |
| Prescale.Quotient | pca9685.c:368 | The quotient truncated toward zero is 0 for every negative frequency whose conversion is defined |
| Prescale.PrescaleNegative | pca9685.c:368 | A negative frequency has a defined conversion exactly when its magnitude is at least 6104, and then the driver writes 255 |
| PwmFrame.Frame | pca9685.c:399-403 | The frame is five bytes. The first is (6 + 4*id) mod 256. Reassembling bytes 1-2 and 3-4 low byte first gives back the ON and OFF counts |
| PwmFrame.FrameChannel | pca9685.c:399 | For channels [0, 15] the frame starts at that channel's LEDn_ON_L register |
| I2cBus.Bus.constructor | pca9685.c:331 | The opened device shows the initial registers, pointer 0 and an empty log |
| I2cBus.Bus.Store | pca9685.c:182 | The bytes after the address are stored from that address on, and no other register changes |
| I2cBus.Bus.Write | pca9685.c:190 | `write` returns the scripted count. The moved bytes set the pointer and the registers as the chip does, and the transfer is logged |
| I2cBus.Bus.Read | pca9685.c:191 | `read` returns the scripted count and, when a byte moved, the register at the pointer. Otherwise the destination keeps its value |
| I2cBus.WriteState | pca9685.c:182 | The chip after a `write`: the state stays well formed, the script is unchanged, and the log grows by exactly this transfer with its scripted count |
| I2cBus.ReadState | pca9685.c:191 | The chip after a one-byte `read`: registers, pointer and script are unchanged, and the log grows by exactly this read |
| I2cBus.ReadByte | pca9685.c:191 | The destination byte after a read is the register at the pointer when a byte moved, and keeps its old value otherwise |
| I2cBus.WriteRegister | pca9685.c:375-377 | A complete write `[reg, v]` sets exactly register reg to v and points at it |
| Driver.ConfigSpec | pca9685.c:173-327 | The read-modify-write of `configPCA9685` as a function of the chip state. Its own contract states only that the chip stays well formed and the script unchanged; what it does is proved in the DriverProps.Config lemmas |
| Driver.Edit | pca9685.c:185-318 | The write-back of the `switch (mode)`: the MODE1 edit never changes bit 0x40, and the MODE2 edit keeps bits 0x08, 0x20, 0x40 and 0x80 |
| Driver.FreqSpec | pca9685.c:365-393 | The four steps of `setPCA9685PWMFreq` with their early exits. Its own contract states only well-formedness; what it does is proved in the DriverProps.Freq lemmas |
| Driver.OpenSpec | pca9685.c:329-358 | The power-on sequence with its early exits. Its own contract states only well-formedness; what it does is proved in the DriverProps.Open lemmas |
| Driver.Config | pca9685.c:173-327 | The driver's transfers and return code are exactly those of `ConfigSpec` |
| Driver.SetPwmFreq | pca9685.c:365-393 | The driver's transfers and return code are exactly those of `FreqSpec` |
| Driver.SetPwm | pca9685.c:395-405 | Exactly one write of the channel's frame is made, and 0 is returned exactly when 5 bytes were reported |
| Driver.Open | pca9685.c:329-358 | The driver's transfers and return code are exactly those of `OpenSpec` |
| Driver.Close | pca9685.c:360-363 | The status of closing the device is returned unchanged |
| DriverProps.ConfigTranscript | pca9685.c:178-191 | For MODE1 and MODE2: a zero mask first writes `[reg, 0]`, then the bus sees a select write, a one-byte read and a two-byte write-back to reg, and nothing else. The log only grows |
| DriverProps.ConfigOther | pca9685.c:321-326 | Any other register returns 1, and only the zero-mask write `[reg, 0]` reaches the bus |
| DriverProps.ConfigReturns | pca9685.c:275-326 | `configPCA9685` returns 0 or 1. It returns 0 exactly for MODE1/MODE2 when the final write-back reported 2 bytes |
| DriverProps.ConfigStep | pca9685.c:173-327 | A MODE1 or MODE2 call with a nonzero mask adds exactly three transfers, keeps the earlier log, and returns 0 exactly when the write-back reported 2 bytes |
| DriverProps.ConfigLength | pca9685.c:178-191 | A MODE1 or MODE2 call adds four transfers with a zero mask and three otherwise |
| DriverProps.ConfigFailedRead | pca9685.c:175-191 | A read that moves no byte makes the driver write back the edit of 0, whatever the chip holds |
| DriverProps.ConfigReliable | pca9685.c:173-327 | On a reliable bus, MODE1/MODE2 gets the edit of its old value (of 0 after a zero mask) and no other register changes. The return is 0 and the transfers are exactly the expected ones |
| DriverProps.ZeroMaskEdits | pca9685.c:178-286 | With mask 0 the MODE1 write-back reproduces the byte read. The MODE2 write-back clears the output-enable field |
| DriverProps.FreqReturns | pca9685.c:370-392 | `setPCA9685PWMFreq` returns 0 or the code of the first failing step, and nothing after that step reaches the bus: the call makes 3, 4, 7 or 10 transfers |
| DriverProps.FreqSucceeds | pca9685.c:370-392 | `setPCA9685PWMFreq` returns 0 exactly when all ten transfers happened and the three write-backs and the prescale write each reported 2 bytes |
| DriverProps.SleepStep | pca9685.c:370 | On a reliable bus the first step clears ALLCALL and sets SLEEP and AI in MODE1 |
| DriverProps.WakeStep | pca9685.c:382 | On a reliable bus the third step clears only SLEEP |
| DriverProps.OutputStep | pca9685.c:387 | On a reliable bus the last step keeps the bits 0xF8 of MODE2 and sets OUTNE_HZ and OUT_HZ (0x06) |
| DriverProps.FreqReliable | pca9685.c:365-393 | On a reliable bus the call returns 0 and changes exactly MODE1 (awake, ALLCALL off, AI on), PRE_SCALE (the prescale value) and MODE2 (totem pole, high impedance when disabled) |
| DriverProps.FreqReliableLog | pca9685.c:370-390 | On a reliable bus the transfers are, in order: the MODE1 update to sleep, `[PRE_SCALE, prescale]`, the MODE1 update to wake and the MODE2 update, each with the byte written back |
| DriverProps.SleepEdit | pca9685.c:370 | The MODE1 byte the first step writes back has SLEEP set, whatever was read |
| DriverProps.SleepWriteBack | pca9685.c:370 | On any bus, the first step's write-back is `[MODE1, e]` with SLEEP set in e, and MODE1 holds e when the step succeeds |
| DriverProps.FreqSleepsFirst | pca9685.c:370-380 | On any bus, PRE_SCALE is written only while the chip sleeps. Transfer n+2 is the MODE1 write-back with SLEEP set. When that step succeeded, MODE1 holds SLEEP and transfer n+3 is `[PRE_SCALE, prescale]` |
| DriverProps.WakeWriteBack | pca9685.c:382 | On any bus, the third step selects MODE1 and writes back a byte with SLEEP cleared |
| DriverProps.FreqWakesAfter | pca9685.c:375-385 | On any bus, when the call goes past the PRE_SCALE write, the next transfers are the MODE1 select and the write-back clearing SLEEP: the chip wakes only after the prescaler is set |
| DriverProps.OpenEarlyExit | pca9685.c:331-357 | A failed bus open returns 334 and a failed address bind returns 339, both without any transfer. Every return is 0 or one of the nine distinct step codes |
| DriverProps.ResetStep | pca9685.c:342-350 | On a reliable bus a mask-0 configuration of MODE1 or MODE2 leaves that register 0 and no other changed. The transfers are exactly the zero write and the read-modify-write writing back 0 |
| DriverProps.TotemPoleStep | pca9685.c:352 | On a reliable bus the OUT_TP configuration keeps the bits 0xF8 of MODE2, clears the output-enable field and sets OUT_HZ (0x04), with exactly the expected transfers |
| DriverProps.OpenStops | pca9685.c:342-355 | After a successful open and bind, a failed MODE1 reset (344) leaves 4 transfers, a failed MODE2 reset (349) 8 and a failed OUT_TP step (354) 11: nothing after the failing step reaches the bus |
| DriverProps.OpenHandsOver | pca9685.c:331-357 | The call returns a result of `setPCA9685PWMFreq` exactly when open, bind and the three register steps all succeeded. The result is then exactly that of `setPCA9685PWMFreq` at 50 Hz, issued after 11 transfers |
| DriverProps.OpenWrites | pca9685.c:342-357 | Of the register writes of the power-on sequence, only the last value of each register remains |
| DriverProps.OpenReliable | pca9685.c:329-358 | On a reliable bus, after a successful open and bind, the result is 0. The registers are exactly the old ones with MODE1 = 0x20, MODE2 = 0x06 and PRE_SCALE = 121, whatever they held |
| DriverProps.OpenReliableLog | pca9685.c:342-357 | On a reliable bus the transfers of the power-on sequence are, in order: the two MODE1 reset transfers, the two MODE2 reset transfers, the OUT_TP update, then the 50 Hz sequence from MODE1 = 0 and MODE2 = 0x04 |

## Left out

- Real I/O is not modelled. `open`, `ioctl(I2C_SLAVE)`, `close`, `write` and `read` on the Linux i2c-dev device are foreign calls. `open`, `ioctl` and `close` become parameters (the descriptor, the bind result, the close status). `write` and `read` become the simulated chip with its script of returned counts.
- The chip's auto-increment is modelled only for writes. Every write stores its bytes at consecutive addresses, whatever MODE1's AI bit holds, and `setPCA9685PWM`'s five-byte frame relies on that. A read never advances the register pointer. Bytes a write would store past address 255 are dropped rather than wrapping.
- The `PCA_WITH_THREAD` bus mutex hooks are not modelled. They exist only for concurrency, and their definitions are outside this code.
- The float division of `clock / periode / freq` is not modelled. The model uses exact integer division by 4096*freq, truncated toward zero. It does not capture single-precision rounding of the quotient.
- Prescale.PrescaleValue requires `Converts(freq)`: freq > 0, or freq <= -6104. Each excluded input is undefined behaviour in C. At zero the float quotient is infinite. For freq in [-6103, -1] it is -1 or below. Converting either to an unsigned integer is undefined. Frequencies of -6104 and below are defined: the quotient lies in (-1, 0) and truncates to 0, so the driver writes 255. The model covers them.
- errno values are not modelled. Failures of the OS calls are modelled only through the returned counts and results.
- The header `pca9685.h` is not part of this model. It holds only prototypes and comments.
- Driver.ConfigSpec takes any register byte, not just the enumeration's values. Every register other than MODE1 and MODE2 returns 1, as the `default` branch does.
- DriverProps.ZeroMaskEdits does not state that a zero mask reproduces the MODE2 byte, because the code does not: the OUTNE_0 test fires and clears the two low bits. The model follows the code.
