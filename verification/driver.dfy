/**
 * The register-level behaviour of the PCF2127 driver: what each public
 * operation sends over the bus and what it leaves in the device's
 * registers, first as pure functions of the register file, then as the
 * driver class whose methods issue the transactions one by one.
 */
module Driver {
  import opened Bits
  import opened Bcd
  import opened RegisterMap
  import opened Bus

  /** The 26 bytes `reset` writes to registers 0x00..0x19, in index order. */
  const RESET_IMAGE: seq<bv8> :=
    [0x08, 0x00, 0x00, 0x80, 0x00, 0x00, 0x00, 0x00, 0x00, 0x00,
     0x80, 0x80, 0x80, 0x80, 0x80, 0x00, 0x03, 0x00, 0x00, 0x00,
     0x00, 0x00, 0x00, 0x00, 0x00, 0x08]

  /** The five alarm bytes `disableAlarm` writes. */
  const ALARM_OFF_BLOCK: seq<bv8> :=
    [ALARM_FIELD_OFF, ALARM_FIELD_OFF, ALARM_FIELD_OFF, ALARM_FIELD_OFF, ALARM_FIELD_OFF]

  /** The public time fields, as `readTime` leaves them. */
  datatype RtcTime = RtcTime(second: bv8, minute: bv8, hour: bv8, day: bv8,
                             weekday: bv8, month: bv8, year: bv8)

  /** Every time field is in 0..99, the range the two-digit codec covers. */
  predicate TwoDigits(month: bv8, day: bv8, hour: bv8, minute: bv8, second: bv8)
  {
    month <= 99 && day <= 99 && hour <= 99 && minute <= 99 && second <= 99
  }

  /** `byte(year - 2000)`: the year within the century, truncated to a byte. */
  function YearByte(year: int): (b: bv8)
    ensures 2000 <= year < 2256 ==> b == (year - 2000) as bv8
    ensures 2000 <= year <= 2099 ==> b <= 99
  {
    ((year - 2000) % 256) as bv8
  }

  /** The truncation makes years 256 apart indistinguishable. */
  lemma YearByteWraps(year: int)
    ensures YearByte(year + 256) == YearByte(year)
  {
    assert (year + 256 - 2000) % 256 == (year - 2000) % 256;
  }

  /** The seven bytes `setTime` writes to registers 0x03..0x09. */
  function TimeBlock(year: int, month: bv8, day: bv8, hour: bv8, minute: bv8, second: bv8): (block: seq<bv8>)
    ensures |block| == TIME_LENGTH
    ensures 2000 <= year <= 2099 && TwoDigits(month, day, hour, minute, second) ==>
      (forall i | 0 <= i < |block| :: IsBcd(block[i])) &&
      DecodeTime(block) == RtcTime(second, minute, hour, day, 0, month, (year - 2000) as bv8)
  {
    var block := [ByteToBcd(second), ByteToBcd(minute), ByteToBcd(hour), ByteToBcd(day),
                  ByteToBcd(0), ByteToBcd(month), ByteToBcd(YearByte(year))];
    if 2000 <= year <= 2099 && TwoDigits(month, day, hour, minute, second) then
      BcdRoundTrip(second); BcdRoundTrip(minute); BcdRoundTrip(hour); BcdRoundTrip(day);
      BcdRoundTrip(0); BcdRoundTrip(month); BcdRoundTrip(YearByte(year));
      block
    else
      block
  }

  /** The time fields `readTime` decodes from the seven bytes read at 0x03..0x09. */
  function DecodeTime(block: seq<bv8>): (t: RtcTime)
    requires |block| == TIME_LENGTH
    ensures var fields := [t.second, t.minute, t.hour, t.day, t.weekday, t.month, t.year];
      forall i | 0 <= i < TIME_LENGTH && IsBcd(block[i]) :: fields[i] <= 99 && ByteToBcd(fields[i]) == block[i]
  {
    RtcTime(BcdToByte(block[0]), BcdToByte(block[1]), BcdToByte(block[2]), BcdToByte(block[3]),
            BcdToByte(block[4]), BcdToByte(block[5]), BcdToByte(block[6]))
  }

  /** One enabled alarm field: the BCD byte of `x` with its disable bit 7 cleared. */
  function AlarmField(x: bv8): (f: bv8)
    ensures !Bit(f, AEN)
    ensures forall k: nat | k < 7 :: Bit(f, k) == Bit(ByteToBcd(x), k)
    ensures x <= 79 ==> f == ByteToBcd(x) && BcdToByte(f) == x
  {
    BitClear(ByteToBcd(x), AEN)
  }

  /**
   * The five bytes `setAlarm` writes to registers 0x0A..0x0E: four enabled
   * fields holding the time to match and a disabled weekday field.
   */
  function AlarmBlock(second: bv8, minute: bv8, hour: bv8, day: bv8): (block: seq<bv8>)
    ensures |block| == ALARM_LENGTH
    ensures forall i | 0 <= i < 4 :: !Bit(block[i], AEN)
    ensures var fields := [second, minute, hour, day];
      forall i, k: nat | 0 <= i < 4 && k < 7 :: Bit(block[i], k) == Bit(ByteToBcd(fields[i]), k)
    ensures block[4] == ALARM_FIELD_OFF
    ensures second <= 79 ==> block[0] == ByteToBcd(second) && BcdToByte(block[0]) == second
    ensures minute <= 79 ==> block[1] == ByteToBcd(minute) && BcdToByte(block[1]) == minute
    ensures hour <= 79 ==> block[2] == ByteToBcd(hour) && BcdToByte(block[2]) == hour
    ensures day <= 79 ==> block[3] == ByteToBcd(day) && BcdToByte(block[3]) == day
  {
    [AlarmField(second), AlarmField(minute), AlarmField(hour), AlarmField(day), ALARM_FIELD_OFF]
  }

  /** The source-clock field (bits 1-0) of the watchdog/timer control register. */
  function TimerSource(control: bv8): bv8 { control & 0x03 }

  const SOURCE_1_HZ: bv8 := 0x02
  const SOURCE_1_60_HZ: bv8 := 0x03

  /** The whole minutes in `period` seconds, as the truncating `period / 60` gives them. */
  lemma DivideByMinute(period: int)
    requires period > 60
    ensures (period / 60) * 60 <= period < (period / 60) * 60 + 60
    ensures period < 256 * 60 ==> period / 60 < 256 && (period / 60) % 256 == period / 60
  {
  }

  /**
   * What `setCountdownTimer(period)` writes to 0x10 and 0x11: the timer
   * control byte and the tick count `n`, which the source declares as a byte,
   * so that an out-of-range count keeps only its low eight bits.
   */
  function CountdownSetting(period: int): (setting: (bv8, int))
    ensures 0 <= setting.1 < 256
    ensures period <= 60 ==> setting.0 == TIMER_ON_SECONDS && TimerSource(setting.0) == SOURCE_1_HZ
    ensures period > 60 ==> setting.0 == TIMER_ON_MINUTES && TimerSource(setting.0) == SOURCE_1_60_HZ
    ensures 0 <= period <= 60 ==> setting.1 == period
    ensures 60 < period < 256 * 60 ==> setting.1 * 60 <= period < (setting.1 + 1) * 60
    ensures period < 0 ==> (period - setting.1) % 256 == 0
    ensures period >= 256 * 60 ==> (period / 60 - setting.1) % 256 == 0
  {
    if period <= 60 then (TIMER_ON_SECONDS, period % 256)
    else
      var n := period / 60;
      DivideByMinute(period);
      (TIMER_ON_MINUTES, n % 256)
  }

  /** A read-modify-write of one bit: register `index` gets bit `bit` equal to `value`, nothing else changes. */
  function WithBit(regs: seq<bv8>, index: nat, bit: nat, value: bool): (r: seq<bv8>)
    requires index < |regs| && bit < 8
    ensures |r| == |regs|
    ensures Bit(r[index], bit) == value
    ensures forall k: nat | k < 8 && k != bit :: Bit(r[index], k) == Bit(regs[index], k)
    ensures forall i | 0 <= i < |r| && i != index :: r[i] == regs[i]
  {
    regs[index := if value then BitSet(regs[index], bit) else BitClear(regs[index], bit)]
  }

  /** `lowPower`: power-management bits 7-5 of control register 3 and the timestamp-off bit set, clockout control 0x07. */
  function LowPowerEffect(regs: seq<bv8>): (r: seq<bv8>)
    requires |regs| == REGISTER_COUNT
    ensures |r| == REGISTER_COUNT
    ensures Bit(r[CONTROL_3], PWRMNG_HIGH) && Bit(r[CONTROL_3], PWRMNG_MID) && Bit(r[CONTROL_3], PWRMNG_LOW)
    ensures forall k: nat | k < 5 :: Bit(r[CONTROL_3], k) == Bit(regs[CONTROL_3], k)
    ensures Bit(r[TIMESTAMP_CONTROL], TSOFF)
    ensures forall k: nat | k < 8 && k != TSOFF :: Bit(r[TIMESTAMP_CONTROL], k) == Bit(regs[TIMESTAMP_CONTROL], k)
    ensures r[CLOCKOUT_CONTROL] == CLOCKOUT_LOW_POWER
    ensures forall i | 0 <= i < |r| && i !in {CONTROL_3, CLOCKOUT_CONTROL, TIMESTAMP_CONTROL} :: r[i] == regs[i]
  {
    regs[CLOCKOUT_CONTROL := CLOCKOUT_LOW_POWER]
        [CONTROL_3 := BitSet(BitSet(BitSet(regs[CONTROL_3], PWRMNG_HIGH), PWRMNG_MID), PWRMNG_LOW)]
        [TIMESTAMP_CONTROL := BitSet(regs[TIMESTAMP_CONTROL], TSOFF)]
  }

  /** `setAlarm`: the alarm interrupt enabled and the alarm block written. */
  function SetAlarmEffect(regs: seq<bv8>, second: bv8, minute: bv8, hour: bv8, day: bv8): (r: seq<bv8>)
    requires |regs| == REGISTER_COUNT
    ensures |r| == REGISTER_COUNT
    ensures r[SECOND_ALARM..SECOND_ALARM + ALARM_LENGTH] == AlarmBlock(second, minute, hour, day)
    ensures Bit(r[CONTROL_2], AIE)
    ensures forall k: nat | k < 8 && k != AIE :: Bit(r[CONTROL_2], k) == Bit(regs[CONTROL_2], k)
    ensures forall i | 0 <= i < |r| && i != CONTROL_2 && !(SECOND_ALARM <= i < SECOND_ALARM + ALARM_LENGTH) ::
      r[i] == regs[i]
  {
    WriteBurst(WithBit(regs, CONTROL_2, AIE, true), SECOND_ALARM, AlarmBlock(second, minute, hour, day))
  }

  /** `disableAlarm`: every alarm field disabled and the alarm interrupt disabled. */
  function DisableAlarmEffect(regs: seq<bv8>): (r: seq<bv8>)
    requires |regs| == REGISTER_COUNT
    ensures |r| == REGISTER_COUNT
    ensures forall i | SECOND_ALARM <= i < SECOND_ALARM + ALARM_LENGTH :: r[i] == ALARM_FIELD_OFF
    ensures !Bit(r[CONTROL_2], AIE)
    ensures forall k: nat | k < 8 && k != AIE :: Bit(r[CONTROL_2], k) == Bit(regs[CONTROL_2], k)
    ensures forall i | 0 <= i < |r| && i != CONTROL_2 && !(SECOND_ALARM <= i < SECOND_ALARM + ALARM_LENGTH) ::
      r[i] == regs[i]
  {
    WithBit(WriteBurst(regs, SECOND_ALARM, ALARM_OFF_BLOCK), CONTROL_2, AIE, false)
  }

  /** `setCountdownTimer`: the countdown interrupt enabled and the timer control and value written. */
  function SetCountdownTimerEffect(regs: seq<bv8>, period: int): (r: seq<bv8>)
    requires |regs| == REGISTER_COUNT
    ensures |r| == REGISTER_COUNT
    ensures r[WATCHDOG_CONTROL] == CountdownSetting(period).0
    ensures r[WATCHDOG_CONTROL + 1] == CountdownSetting(period).1 as bv8
    ensures Bit(r[CONTROL_2], CDTIE)
    ensures forall k: nat | 0 < k < 8 :: Bit(r[CONTROL_2], k) == Bit(regs[CONTROL_2], k)
    ensures forall i | 0 <= i < |r| && i !in {CONTROL_2, WATCHDOG_CONTROL, WATCHDOG_CONTROL + 1} :: r[i] == regs[i]
  {
    var setting := CountdownSetting(period);
    WriteBurst(WithBit(regs, CONTROL_2, CDTIE, true), WATCHDOG_CONTROL, [setting.0, setting.1 as bv8])
  }

  /** `disableCountdownTimer`: the timer switched off with tick count 0 and the countdown interrupt disabled. */
  function DisableCountdownTimerEffect(regs: seq<bv8>): (r: seq<bv8>)
    requires |regs| == REGISTER_COUNT
    ensures |r| == REGISTER_COUNT
    ensures r[WATCHDOG_CONTROL] == TIMER_OFF && r[WATCHDOG_CONTROL + 1] == 0
    ensures !Bit(r[CONTROL_2], CDTIE)
    ensures forall k: nat | 0 < k < 8 :: Bit(r[CONTROL_2], k) == Bit(regs[CONTROL_2], k)
    ensures forall i | 0 <= i < |r| && i !in {CONTROL_2, WATCHDOG_CONTROL, WATCHDOG_CONTROL + 1} :: r[i] == regs[i]
  {
    WithBit(WriteBurst(regs, WATCHDOG_CONTROL, [TIMER_OFF, 0]), CONTROL_2, CDTIE, false)
  }

  /** Two transactions that read one register and write back `after`. */
  function ReadModifyWrite(readAddress: bv8, writeAddress: bv8, before: bv8, after: bv8): seq<Event>
  {
    [Transaction(readAddress, [before]), Transaction(writeAddress, [after])]
  }

  /**
   * The driver object. It keeps no copy of the device's registers: every
   * operation reads what it needs from `chip` before writing. The public
   * time fields are filled only by `ReadTime`.
   */
  class Pcf2127 {
    const chip: Chip
    var second: bv8
    var minute: bv8
    var hour: bv8
    var day: bv8
    var weekday: bv8
    var month: bv8
    var year: bv8

    ghost predicate Valid()
      reads this, chip
    {
      chip.Valid()
    }

    /** The public time fields as one value. */
    function Time(): RtcTime
      reads this
    {
      RtcTime(second, minute, hour, day, weekday, month, year)
    }

    /** A driver talking to `chip`; the time fields start at 0, as for a static object. */
    constructor (chip: Chip)
      requires chip.Valid()
      ensures Valid() && this.chip == chip
      ensures Time() == RtcTime(0, 0, 0, 0, 0, 0, 0)
    {
      this.chip := chip;
      second, minute, hour, day, weekday, month, year := 0, 0, 0, 0, 0, 0, 0;
    }

    /** `reset`: one blind write burst of the default image over 0x00..0x19, whatever was there before. */
    method Reset()
      requires Valid()
      modifies chip
      ensures Valid()
      ensures chip.regs == RESET_IMAGE
      ensures chip.log == old(chip.log) + [Transaction(WRITE_CONTROL_REGISTER_1, RESET_IMAGE)]
    {
      WriteBurstWhole(chip.regs, RESET_IMAGE);
      chip.Write(WRITE_CONTROL_REGISTER_1, RESET_IMAGE);
    }

    /**
     * `OTPRefresh`: set the OTPR bit, wait 100 ms, re-read, clear the bit.
     * On a passive register file the net effect is OTPR cleared.
     */
    method OtpRefresh()
      requires Valid()
      modifies chip
      ensures Valid()
      ensures chip.regs == WithBit(old(chip.regs), CLOCKOUT_CONTROL, OTPR, false)
      ensures var c := old(chip.regs)[CLOCKOUT_CONTROL];
        chip.log == old(chip.log)
          + ReadModifyWrite(READ_CLOCKOUT_CONTROL_REGISTER, WRITE_CLOCKOUT_CONTROL_REGISTER, c, BitSet(c, OTPR))
          + [Wait(100)]
          + ReadModifyWrite(READ_CLOCKOUT_CONTROL_REGISTER, WRITE_CLOCKOUT_CONTROL_REGISTER,
                            BitSet(c, OTPR), BitClear(BitSet(c, OTPR), OTPR))
    {
      var ccr := chip.Read(READ_CLOCKOUT_CONTROL_REGISTER, 1);
      chip.Write(WRITE_CLOCKOUT_CONTROL_REGISTER, [BitSet(ccr[0], OTPR)]);
      chip.Delay(100);
      ccr := chip.Read(READ_CLOCKOUT_CONTROL_REGISTER, 1);
      chip.Write(WRITE_CLOCKOUT_CONTROL_REGISTER, [BitClear(ccr[0], OTPR)]);
      SetThenClear(old(chip.regs)[CLOCKOUT_CONTROL], OTPR);
    }

    /**
     * `lowPower`: read control register 3 and timestamp control, write the
     * clockout pattern, then write both registers back with their bits set.
     */
    method LowPower()
      requires Valid()
      modifies chip
      ensures Valid()
      ensures chip.regs == LowPowerEffect(old(chip.regs))
      ensures var cr3 := old(chip.regs)[CONTROL_3];
              var tscr := old(chip.regs)[TIMESTAMP_CONTROL];
        chip.log == old(chip.log) + [
          Transaction(READ_CONTROL_REGISTER_3, [cr3]),
          Transaction(READ_TIMESTAMP_CONTROL_REGISTER, [tscr]),
          Transaction(WRITE_CLOCKOUT_CONTROL_REGISTER, [CLOCKOUT_LOW_POWER]),
          Transaction(WRITE_CONTROL_REGISTER_3, [LowPowerEffect(old(chip.regs))[CONTROL_3]]),
          Transaction(WRITE_TIMESTAMP_CONTROL_REGISTER, [LowPowerEffect(old(chip.regs))[TIMESTAMP_CONTROL]])]
    {
      var cr3 := chip.Read(READ_CONTROL_REGISTER_3, 1);
      var tscr := chip.Read(READ_TIMESTAMP_CONTROL_REGISTER, 1);
      var control3 := BitSet(BitSet(BitSet(cr3[0], PWRMNG_HIGH), PWRMNG_MID), PWRMNG_LOW);
      var timestamp := BitSet(tscr[0], TSOFF);
      chip.Write(WRITE_CLOCKOUT_CONTROL_REGISTER, [CLOCKOUT_LOW_POWER]);
      chip.Write(WRITE_CONTROL_REGISTER_3, [control3]);
      chip.Write(WRITE_TIMESTAMP_CONTROL_REGISTER, [timestamp]);
    }

    /** `readAllRegisters` without its text formatting: one burst over 0x00..0x19, one (index, value) line per register. */
    method ReadAllRegisters() returns (lines: seq<(bv8, bv8)>)
      requires Valid()
      modifies chip
      ensures Valid() && chip.regs == old(chip.regs)
      ensures chip.log == old(chip.log) + [Transaction(READ_CONTROL_REGISTER_1, chip.regs)]
      ensures |lines| == REGISTER_COUNT
      ensures forall i | 0 <= i < REGISTER_COUNT :: lines[i] == (i as bv8, chip.regs[i])
    {
      var values := chip.Read(READ_CONTROL_REGISTER_1, REGISTER_COUNT);
      assert values == chip.regs;
      lines := [];
      var i: bv8 := 0x00;
      while i <= 0x19
        invariant i <= 0x1A && |lines| == i as int
        invariant forall j | 0 <= j < |lines| :: lines[j] == (j as bv8, values[j])
      {
        lines := lines + [(i, values[i])];
        i := i + 1;
      }
    }

    /** `setTime`: one write burst of the seven BCD time bytes at 0x03, weekday 0. */
    method SetTime(year: int, month: bv8, day: bv8, hour: bv8, minute: bv8, second: bv8)
      requires Valid()
      modifies chip
      ensures Valid()
      ensures chip.regs[SECONDS..SECONDS + TIME_LENGTH] == TimeBlock(year, month, day, hour, minute, second)
      ensures forall i | 0 <= i < REGISTER_COUNT && !(SECONDS <= i < SECONDS + TIME_LENGTH) ::
        chip.regs[i] == old(chip.regs)[i]
      ensures chip.log == old(chip.log) + [Transaction(WRITE_TIME, TimeBlock(year, month, day, hour, minute, second))]
    {
      chip.Write(WRITE_TIME, TimeBlock(year, month, day, hour, minute, second));
    }

    /** `readTime`: one read burst of the seven time bytes at 0x03, each decoded from BCD into its field. */
    method ReadTime()
      requires Valid()
      modifies this, chip
      ensures Valid() && chip.regs == old(chip.regs)
      ensures Time() == DecodeTime(chip.regs[SECONDS..SECONDS + TIME_LENGTH])
      ensures chip.log == old(chip.log) + [Transaction(READ_TIME, chip.regs[SECONDS..SECONDS + TIME_LENGTH])]
    {
      var block := chip.Read(READ_TIME, TIME_LENGTH);
      second := BcdToByte(block[0]);
      minute := BcdToByte(block[1]);
      hour := BcdToByte(block[2]);
      day := BcdToByte(block[3]);
      weekday := BcdToByte(block[4]);
      month := BcdToByte(block[5]);
      year := BcdToByte(block[6]);
    }

    /** `enableAlarm`: read-modify-write of control register 2 setting AIE. */
    method EnableAlarm()
      requires Valid()
      modifies chip
      ensures Valid()
      ensures chip.regs == WithBit(old(chip.regs), CONTROL_2, AIE, true)
      ensures var cr2 := old(chip.regs)[CONTROL_2];
        chip.log == old(chip.log) + ReadModifyWrite(READ_CONTROL_REGISTER_2, WRITE_CONTROL_REGISTER_2, cr2, BitSet(cr2, AIE))
    {
      var cr2 := chip.Read(READ_CONTROL_REGISTER_2, 1);
      chip.Write(WRITE_CONTROL_REGISTER_2, [BitSet(cr2[0], AIE)]);
    }

    /** `setAlarm`: `enableAlarm`, then one write burst of the alarm block at 0x0A. */
    method SetAlarm(alarmSecond: bv8, alarmMinute: bv8, alarmHour: bv8, alarmDay: bv8)
      requires Valid()
      modifies chip
      ensures Valid()
      ensures chip.regs == SetAlarmEffect(old(chip.regs), alarmSecond, alarmMinute, alarmHour, alarmDay)
      ensures var cr2 := old(chip.regs)[CONTROL_2];
        chip.log == old(chip.log)
          + ReadModifyWrite(READ_CONTROL_REGISTER_2, WRITE_CONTROL_REGISTER_2, cr2, BitSet(cr2, AIE))
          + [Transaction(WRITE_ALARM, AlarmBlock(alarmSecond, alarmMinute, alarmHour, alarmDay))]
    {
      EnableAlarm();
      var s := ByteToBcd(alarmSecond);
      var m := ByteToBcd(alarmMinute);
      var h := ByteToBcd(alarmHour);
      var d := ByteToBcd(alarmDay);
      chip.Write(WRITE_ALARM, [BitClear(s, AEN), BitClear(m, AEN), BitClear(h, AEN), BitClear(d, AEN), ALARM_FIELD_OFF]);
    }

    /** `clearAF`: read-modify-write of control register 2 clearing the alarm flag. */
    method ClearAF()
      requires Valid()
      modifies chip
      ensures Valid()
      ensures chip.regs == WithBit(old(chip.regs), CONTROL_2, AF, false)
      ensures var cr2 := old(chip.regs)[CONTROL_2];
        chip.log == old(chip.log) + ReadModifyWrite(READ_CONTROL_REGISTER_2, WRITE_CONTROL_REGISTER_2, cr2, BitClear(cr2, AF))
    {
      var cr2 := chip.Read(READ_CONTROL_REGISTER_2, 1);
      chip.Write(WRITE_CONTROL_REGISTER_2, [BitClear(cr2[0], AF)]);
    }

    /** `disableAlarm`: blind write of five disabled alarm fields, then read-modify-write clearing AIE. */
    method DisableAlarm()
      requires Valid()
      modifies chip
      ensures Valid()
      ensures chip.regs == DisableAlarmEffect(old(chip.regs))
      ensures var cr2 := old(chip.regs)[CONTROL_2];
        chip.log == old(chip.log)
          + [Transaction(WRITE_ALARM, ALARM_OFF_BLOCK)]
          + ReadModifyWrite(READ_CONTROL_REGISTER_2, WRITE_CONTROL_REGISTER_2, cr2, BitClear(cr2, AIE))
    {
      chip.Write(WRITE_ALARM, [ALARM_FIELD_OFF, ALARM_FIELD_OFF, ALARM_FIELD_OFF, ALARM_FIELD_OFF, ALARM_FIELD_OFF]);
      var cr2 := chip.Read(READ_CONTROL_REGISTER_2, 1);
      chip.Write(WRITE_CONTROL_REGISTER_2, [BitClear(cr2[0], AIE)]);
    }

    /** `enableCountdownTimer`: read-modify-write of control register 2 setting CDTIE. */
    method EnableCountdownTimer()
      requires Valid()
      modifies chip
      ensures Valid()
      ensures chip.regs == WithBit(old(chip.regs), CONTROL_2, CDTIE, true)
      ensures var cr2 := old(chip.regs)[CONTROL_2];
        chip.log == old(chip.log) + ReadModifyWrite(READ_CONTROL_REGISTER_2, WRITE_CONTROL_REGISTER_2, cr2, BitSet(cr2, CDTIE))
    {
      var cr2 := chip.Read(READ_CONTROL_REGISTER_2, 1);
      chip.Write(WRITE_CONTROL_REGISTER_2, [BitSet(cr2[0], CDTIE)]);
    }

    /** `setCountdownTimer`: `enableCountdownTimer`, then one write burst of control byte and tick count at 0x10. */
    method SetCountdownTimer(period: int)
      requires Valid()
      modifies chip
      ensures Valid()
      ensures chip.regs == SetCountdownTimerEffect(old(chip.regs), period)
      ensures var cr2 := old(chip.regs)[CONTROL_2];
              var setting := CountdownSetting(period);
        chip.log == old(chip.log)
          + ReadModifyWrite(READ_CONTROL_REGISTER_2, WRITE_CONTROL_REGISTER_2, cr2, BitSet(cr2, CDTIE))
          + [Transaction(WRITE_WD_TIMER_CONTROL_REGISTER, [setting.0, setting.1 as bv8])]
    {
      EnableCountdownTimer();
      if period <= 60 {
        var n := (period * 1) % 256;
        chip.Write(WRITE_WD_TIMER_CONTROL_REGISTER, [TIMER_ON_SECONDS, n as bv8]);
      } else if period > 60 {
        var n := (period / 60) % 256;
        chip.Write(WRITE_WD_TIMER_CONTROL_REGISTER, [TIMER_ON_MINUTES, n as bv8]);
      }
    }

    /** `clearCDTF`: read-modify-write of control register 2 clearing the countdown timer flag. */
    method ClearCDTF()
      requires Valid()
      modifies chip
      ensures Valid()
      ensures chip.regs == WithBit(old(chip.regs), CONTROL_2, CDTF, false)
      ensures var cr2 := old(chip.regs)[CONTROL_2];
        chip.log == old(chip.log) + ReadModifyWrite(READ_CONTROL_REGISTER_2, WRITE_CONTROL_REGISTER_2, cr2, BitClear(cr2, CDTF))
    {
      var cr2 := chip.Read(READ_CONTROL_REGISTER_2, 1);
      chip.Write(WRITE_CONTROL_REGISTER_2, [BitClear(cr2[0], CDTF)]);
    }

    /** `disableCountdownTimer`: blind write of the timer-off byte and tick count 0, then read-modify-write clearing CDTIE. */
    method DisableCountdownTimer()
      requires Valid()
      modifies chip
      ensures Valid()
      ensures chip.regs == DisableCountdownTimerEffect(old(chip.regs))
      ensures var cr2 := old(chip.regs)[CONTROL_2];
        chip.log == old(chip.log)
          + [Transaction(WRITE_WD_TIMER_CONTROL_REGISTER, [TIMER_OFF, 0])]
          + ReadModifyWrite(READ_CONTROL_REGISTER_2, WRITE_CONTROL_REGISTER_2, cr2, BitClear(cr2, CDTIE))
    {
      chip.Write(WRITE_WD_TIMER_CONTROL_REGISTER, [TIMER_OFF, 0]);
      var cr2 := chip.Read(READ_CONTROL_REGISTER_2, 1);
      chip.Write(WRITE_CONTROL_REGISTER_2, [BitClear(cr2[0], CDTIE)]);
    }
  }
}
