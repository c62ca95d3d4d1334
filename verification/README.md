# PCF2127 real-time-clock driver, modelled in Dafny

This project models the register-protocol layer of an Arduino driver for the
NXP PCF2127 real-time clock, which the microcontroller reaches over SPI.

- **Time codec** (`bcd.dfy`, module `Bcd`). `byte2bcd` and `bcd2byte` are written as byte arithmetic on `bv8`. The truncation of `byte2bcd`'s result to a byte is therefore exact.
- **Register map and address framing** (`registers.dfy`, module `RegisterMap`). These are the header's `WRITE_*`/`READ_*` address bytes, which have the form `D 01 NNNNN`. The module also names the register indices and control bits the driver touches, and gives the lengths of its bursts.
- **Bus and device** (`bus.dfy`, module `Bus`). The device is simulated as a passive register file of 26 bytes, indices 0x00..0x19, which echoes what is written. Each select-low/select-high bracket is one transaction: an address byte, then one data byte per register. The register pointer auto-increments, and `WriteBurst`/`ReadBurst` model that one byte at a time. A ghost transcript records every transaction, and each `delay` as a `Wait` event. `Chip.Write` and `Chip.Read` accept only a framed address whose burst stays inside 0x00..0x19. Because the driver verifies, it never issues any other kind of transaction.
- **Bit operations** (`bits.dfy`, module `Bits`). These are the Arduino `bitSet`/`bitClear` macros that every read-modify-write applies.
- **Driver** (`driver.dfy`, module `Driver`).
  - First, the effects of the read-modify-write operations (`WithBit`, `LowPowerEffect`) and of the alarm and countdown-timer operations are written as pure functions of the register file. The ensures clause of each function says which registers and bits change and that nothing else does. The bytes written by `setTime` and `setAlarm`, and the decoding of `readTime`, are pure functions too (`TimeBlock`, `AlarmBlock`, `DecodeTime`).
  - Second, class `Pcf2127` issues the same transactions as the C++ methods, in the same order. Each method's ensures gives the new register file and the exact transcript it appends. For most methods that register file is one of the functions above applied to the old one. `Reset`, `SetTime`, `ReadTime` and `ReadAllRegisters` state it directly: the default image, the time block in place with every other register unchanged, or the registers unchanged.
  - `readTime` also fills the public fields `second`..`year`.
- **Cross-operation properties** (`properties.dfy`, module `Properties`).
  - The time round trip, stated as a lemma and as a client of the class.
  - Idempotence and commutation of single-bit read-modify-writes.
  - `disableAlarm` and `disableCountdownTimer` erase what the matching `set` operation wrote.
  - The `reset` image already has the alarm and the countdown timer disabled.
  - The countdown-timer threshold.

Input validation: the driver performs none, and so the model has no input `requires`. Out-of-range inputs follow the byte arithmetic of the code.
- `byte(year - 2000)` keeps the year modulo 256. `YearByteWraps` states this.
- `byte2bcd` of 100..159 gives a non-decimal byte, and `byte2bcd` of 160..255 wraps onto `byte2bcd(n - 160)`. The ensures of `ByteToBcd` state this.
- The countdown tick count is truncated to a byte. The ensures of `CountdownSetting` state this.

`OTPRefresh` sets the OTPR bit, waits, re-reads, then clears it. Its doc comment quotes the datasheet's order (clear, then set). The model follows the code's order: `Pcf2127.OtpRefresh`'s transcript shows set-then-clear, and the net effect on the register file is OTPR cleared.

The header defines `READ_CONTROL_REGISTER_3` twice, with the same value. Dafny cannot declare a name twice, so the second definition is the constant `READ_CONTROL_REGISTER_3_AGAIN`, and `ReadAddressesAreFramed` states that the two are equal.

## Model

| member | source | states |
|---|---|---|
| `Bits.BitSet` | PCF2127.cpp:139-142 | the chosen bit becomes 1; each of the other seven bits keeps its value |
| `Bits.BitClear` | PCF2127.cpp:311 | the chosen bit becomes 0; each of the other seven bits keeps its value |
| `Bits.OneBitChangeIsUnique` | PCF2127.cpp:250-259 | any byte with the chosen bit at the given value and the other seven bits of the old byte is exactly the bitSet/bitClear result, so the bit-level contracts determine the written byte |
| `Bits.SetThenClear` | PCF2127.cpp:105-114 | clearing a bit after setting it equals clearing it alone, and setting it after clearing it equals setting it alone |
| `Bcd.ByteToBcd` | PCF2127.cpp:466-468 | for n ≤ 99: valid BCD, high nibble = n/10, low nibble = n%10; for 100..159: not valid BCD; for n ≥ 160: the same byte as for n − 160 (byte truncation) |
| `Bcd.BcdToByte` | PCF2127.cpp:481-483 | result = 10·high nibble + low nibble without overflow; on valid BCD the result is ≤ 99 and re-encodes to the same byte |
| `Bcd.BcdRoundTrip` | PCF2127.cpp:466-483 | bcd2byte(byte2bcd(n)) = n for 0 ≤ n ≤ 99 |
| `Bcd.ByteToBcdInjective` | PCF2127.cpp:466-468 | two values in 0..99 with the same BCD byte are equal |
| `RegisterMap.WriteAddress` | PCF2127.h:9-17 | the write address of an index has bit 7 = 0, bits 6-5 = 01 and decodes back to that index |
| `RegisterMap.ReadAddress` | PCF2127.h:19-28 | the read address of an index has bit 7 = 1, bits 6-5 = 01, decodes back to that index and equals the write address with bit 7 set |
| `RegisterMap.WriteAddressesAreFramed` | PCF2127.h:10-17 | every WRITE_* constant is the framed write address of its register: time 0x03, alarm 0x0A, control 1/2/3 0x00/0x01/0x02, clockout 0x0F, watchdog/timer 0x10, timestamp 0x12 |
| `RegisterMap.ReadAddressesAreFramed` | PCF2127.h:20-28 | every READ_* constant is the framed read address of the same register and its WRITE_* counterpart with bit 7 set; both READ_CONTROL_REGISTER_3 definitions are equal |
| `RegisterMap.BurstsStayInMap` | PCF2127.h:10-28 | each burst start plus its length stays within 0x00..0x19: 26 bytes for reset and for the register dump, 7 for time, 5 for alarm, 2 for the timer, and 1 for the single-register reads and writes of control registers 2 and 3, clockout and timestamp |
| `Bus.WriteBurst` | PCF2127.cpp:52-80 | a burst writes data[i] to register start+i, one byte per auto-increment step, and leaves every other register unchanged |
| `Bus.ReadBurst` | PCF2127.cpp:226-235 | a burst of count bytes returns registers start..start+count−1 in ascending order |
| `Bus.ReadAfterWrite` | PCF2127.cpp:200-236 | reading back the range a burst just wrote returns the written bytes |
| `Bus.WriteBurstWhole` | PCF2127.cpp:51-81 | a burst over the whole register file replaces it, whatever it held |
| `Bus.Chip.Write` | PCF2127.cpp:255-258 | a write transaction needs a framed write address and a burst inside the map; it applies the burst and appends (address, data) to the transcript |
| `Bus.Chip.Read` | PCF2127.cpp:251-254 | a read transaction needs a framed read address and a burst inside the map; it returns the addressed registers, changes none, and appends (address, data) to the transcript |
| `Bus.Chip.Delay` | PCF2127.cpp:107 | a delay leaves the registers unchanged and appends a Wait(ms) event |
| `Driver.YearByte` | PCF2127.cpp:209 | for years 2000..2255 the byte is year − 2000; for 2000..2099 it is ≤ 99 |
| `Driver.YearByteWraps` | PCF2127.cpp:209 | years 256 apart give the same byte |
| `Driver.TimeBlock` | PCF2127.cpp:202-209 | seven bytes; for year 2000..2099 and fields ≤ 99, every byte is valid BCD and decodes to (second, minute, hour, day, weekday 0, month, year − 2000) |
| `Driver.DecodeTime` | PCF2127.cpp:227-234 | field by field: each field read from a valid BCD byte is ≤ 99 and re-encodes (byte2bcd) to exactly that byte, whatever the other six bytes hold |
| `Driver.AlarmField` | PCF2127.cpp:278-287 | the disable bit 7 is clear and bits 6-0 are those of byte2bcd(x), for every x (so 85 gives 0x05); for x ≤ 79 the byte is exactly byte2bcd(x) and decodes back to x |
| `Driver.AlarmBlock` | PCF2127.cpp:278-288 | five bytes; the second/minute/hour/day fields have bit 7 clear and bits 6-0 equal to those of byte2bcd of their input, for every input; each field ≤ 79 is exactly byte2bcd of its input and decodes back to it; the weekday field is 0x80 |
| `Driver.DivideByMinute` | PCF2127.cpp:392 | for period > 60 the truncated period/60 is the number of whole minutes in period, and below 15360 it fits in a byte unchanged |
| `Driver.CountdownSetting` | PCF2127.cpp:384-398 | period ≤ 60: control 0x42 (1 Hz source) and, for 0..60, ticks = period; period > 60: control 0x43 (1/60 Hz source) and, below 15360, ticks·60 ≤ period < (ticks+1)·60; outside those ranges, ticks keep the low byte |
| `Driver.WithBit` | PCF2127.cpp:250-259 | a one-bit read-modify-write: the chosen bit of the chosen register takes the value; every other bit and register is unchanged |
| `Driver.LowPowerEffect` | PCF2127.cpp:129-155 | bits 7-5 of control register 3 set and its bits 4-0 kept; bit 6 of timestamp control set and its other bits kept; clockout control = 0x07; no other register changes |
| `Driver.SetAlarmEffect` | PCF2127.cpp:276-290 | registers 0x0A..0x0E = AlarmBlock of the inputs; AIE (bit 1 of 0x01) set and the other bits of 0x01 kept; no other register changes |
| `Driver.DisableAlarmEffect` | PCF2127.cpp:326-345 | registers 0x0A..0x0E all 0x80; AIE cleared and the other bits of 0x01 kept; no other register changes |
| `Driver.SetCountdownTimerEffect` | PCF2127.cpp:382-399 | 0x10 and 0x11 hold CountdownSetting(period); CDTIE (bit 0 of 0x01) set and the other bits kept; no other register changes |
| `Driver.DisableCountdownTimerEffect` | PCF2127.cpp:435-451 | 0x10 = 0x03, 0x11 = 0; CDTIE cleared and the other bits of 0x01 kept; no other register changes |
| `Driver.Pcf2127.constructor` | PCF2127.h:52-58 | the driver is bound to its device and its public time fields start at 0 |
| `Driver.Pcf2127.Reset` | PCF2127.cpp:51-81 | the register file becomes the 26-byte default image whatever it held; the transcript gains exactly one write burst at 0x20, with no read |
| `Driver.Pcf2127.OtpRefresh` | PCF2127.cpp:98-116 | transcript: read 0x0F, write it back with OTPR (bit 5) set, wait 100, re-read, write it back with OTPR cleared; net effect OTPR cleared, nothing else changed |
| `Driver.Pcf2127.LowPower` | PCF2127.cpp:129-155 | new register file = LowPowerEffect(old); transcript: read CR3, read timestamp control, write clockout 0x07, write CR3, write timestamp control |
| `Driver.Pcf2127.ReadAllRegisters` | PCF2127.cpp:170-180 | one read burst over 0x00..0x19; one (index, value) line per register, in index order; registers unchanged |
| `Driver.Pcf2127.SetTime` | PCF2127.cpp:200-211 | registers 0x03..0x09 = TimeBlock of the inputs, all others unchanged; the transcript gains one write burst at 0x23 |
| `Driver.Pcf2127.ReadTime` | PCF2127.cpp:225-236 | the public fields = DecodeTime of registers 0x03..0x09; registers unchanged; the transcript gains one read burst at 0xA3 |
| `Driver.Pcf2127.EnableAlarm` | PCF2127.cpp:250-259 | only AIE (bit 1 of 0x01) changes, to 1; the transcript gains a read and a write of 0x01 |
| `Driver.Pcf2127.SetAlarm` | PCF2127.cpp:276-290 | new register file = SetAlarmEffect(old, inputs); the transcript is enableAlarm's read-modify-write, then one alarm write burst |
| `Driver.Pcf2127.ClearAF` | PCF2127.cpp:304-313 | only AF (bit 4 of 0x01) changes, to 0; the transcript gains a read and a write of 0x01 |
| `Driver.Pcf2127.DisableAlarm` | PCF2127.cpp:326-345 | new register file = DisableAlarmEffect(old); the transcript is a blind alarm burst of five 0x80 bytes, then the read-modify-write of 0x01 |
| `Driver.Pcf2127.EnableCountdownTimer` | PCF2127.cpp:359-368 | only CDTIE (bit 0 of 0x01) changes, to 1; the transcript gains a read and a write of 0x01 |
| `Driver.Pcf2127.SetCountdownTimer` | PCF2127.cpp:382-399 | new register file = SetCountdownTimerEffect(old, period); the transcript is the read-modify-write of 0x01, then one two-byte burst at 0x30 |
| `Driver.Pcf2127.ClearCDTF` | PCF2127.cpp:413-422 | only CDTF (bit 3 of 0x01) changes, to 0; the transcript gains a read and a write of 0x01 |
| `Driver.Pcf2127.DisableCountdownTimer` | PCF2127.cpp:435-451 | new register file = DisableCountdownTimerEffect(old); the transcript is a blind burst [0x03, 0] at 0x30, then the read-modify-write of 0x01 |
| `Properties.TimeRoundTrip` | PCF2127.cpp:200-236 | decoding registers 0x03..0x09 after setTime's burst gives back second, minute, hour, day, weekday 0, month and year − 2000, for year 2000..2099 and fields ≤ 99 |
| `Properties.SetTimeThenReadTime` | PCF2127.cpp:200-236 | setTime followed by readTime on the passive device leaves the public fields equal to the values set, with weekday 0 |
| `Properties.WithBitCommutes` | PCF2127.cpp:250-313 | one-bit read-modify-writes of different bits of one register commute, e.g. enableAlarm and clearAF |
| `Properties.WithBitIdempotent` | PCF2127.cpp:250-259 | repeating a one-bit read-modify-write changes nothing further |
| `Properties.LowPowerIdempotent` | PCF2127.cpp:129-155 | lowPower applied twice has the effect of lowPower applied once |
| `Properties.DisableAlarmUndoesSetAlarm` | PCF2127.cpp:276-345 | disableAlarm after setAlarm leaves the same registers as disableAlarm alone |
| `Properties.DisableCountdownTimerUndoesSet` | PCF2127.cpp:382-451 | disableCountdownTimer after setCountdownTimer leaves the same registers as disableCountdownTimer alone |
| `Properties.ResetImageIsDisabled` | PCF2127.cpp:51-81 | disableAlarm and disableCountdownTimer leave the default image unchanged |
| `Properties.CountdownThreshold` | PCF2127.cpp:384-398 | period 60 gives (0x42, 60 ticks); 61 gives (0x43, 1); 125 gives (0x43, 2) |

## Left out

- `init` and the `_RTC_SS` field: pin mode, `SPI.begin`, bit order and SPI mode are hardware configuration with no register logic.
- Select-line toggling (`digitalWrite`): modelled only as transaction boundaries in the transcript, not as pin levels.
- `delay(100)`: no time is modelled. The delay appears as a `Wait(100)` transcript event between the two halves of `OTPRefresh`.
- `Driver.Pcf2127.ReadAllRegisters`: the text written to `Serial` (hexadecimal index, binary value) is not modelled. The method returns the (index, value) pairs that would be printed.
- Device behaviour beyond a passive register file is not modelled:
  - the clock ticking;
  - hardware-set flags such as AF and CDTF;
  - read-only and reserved bits;
  - the oscillator-stop bit in register 0x03;
  - registers above 0x19;
  - the register pointer wrapping past the end of the map.
- Transport failures: the source detects none, and the model has none.
- The width of C++ `int`: `year` and `period` are unbounded integers. Only their truncation to a byte is modelled, and that truncation does not depend on the platform's `int` width.
