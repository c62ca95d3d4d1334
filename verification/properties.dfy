/**
 * Properties that relate several operations of the driver to each other,
 * stated over the register-file effects and, for the time round trip, over
 * the driver class itself.
 */
module Properties {
  import opened Bits
  import opened Bcd
  import opened RegisterMap
  import opened Bus
  import opened Driver

  /** Reading back the time block `setTime` wrote gives the fields it was given, with weekday 0. */
  lemma TimeRoundTrip(regs: seq<bv8>, year: int, month: bv8, day: bv8, hour: bv8, minute: bv8, second: bv8)
    requires |regs| == REGISTER_COUNT
    requires 2000 <= year <= 2099 && TwoDigits(month, day, hour, minute, second)
    ensures var after := WriteBurst(regs, SECONDS, TimeBlock(year, month, day, hour, minute, second));
      DecodeTime(after[SECONDS..SECONDS + TIME_LENGTH]) ==
        RtcTime(second, minute, hour, day, 0, month, (year - 2000) as bv8)
  {
  }

  /** `setTime` followed by `readTime` on the passive register file fills the public fields with what was set. */
  method SetTimeThenReadTime(rtc: Pcf2127, year: int, month: bv8, day: bv8, hour: bv8, minute: bv8, second: bv8)
    requires rtc.Valid()
    requires 2000 <= year <= 2099 && TwoDigits(month, day, hour, minute, second)
    modifies rtc, rtc.chip
    ensures rtc.Valid()
    ensures rtc.Time() == RtcTime(second, minute, hour, day, 0, month, (year - 2000) as bv8)
  {
    rtc.SetTime(year, month, day, hour, minute, second);
    rtc.ReadTime();
  }

  /** Two read-modify-writes of the same register on different bits can be done in either order. */
  lemma WithBitCommutes(regs: seq<bv8>, index: nat, a: nat, va: bool, b: nat, vb: bool)
    requires index < |regs| && a < 8 && b < 8 && a != b
    ensures WithBit(WithBit(regs, index, a, va), index, b, vb) == WithBit(WithBit(regs, index, b, vb), index, a, va)
  {
  }

  /** Repeating a read-modify-write of one bit changes nothing more: `OTPRefresh`, `clearAF`, `clearCDTF` and the enables are idempotent. */
  lemma WithBitIdempotent(regs: seq<bv8>, index: nat, bit: nat, value: bool)
    requires index < |regs| && bit < 8
    ensures WithBit(WithBit(regs, index, bit, value), index, bit, value) == WithBit(regs, index, bit, value)
  {
  }

  /** `lowPower` twice is `lowPower` once. */
  lemma LowPowerIdempotent(regs: seq<bv8>)
    requires |regs| == REGISTER_COUNT
    ensures LowPowerEffect(LowPowerEffect(regs)) == LowPowerEffect(regs)
  {
  }

  /** `disableAlarm` erases every register change `setAlarm` made. */
  lemma DisableAlarmUndoesSetAlarm(regs: seq<bv8>, second: bv8, minute: bv8, hour: bv8, day: bv8)
    requires |regs| == REGISTER_COUNT
    ensures DisableAlarmEffect(SetAlarmEffect(regs, second, minute, hour, day)) == DisableAlarmEffect(regs)
  {
  }

  /** `disableCountdownTimer` erases every register change `setCountdownTimer` made. */
  lemma DisableCountdownTimerUndoesSet(regs: seq<bv8>, period: int)
    requires |regs| == REGISTER_COUNT
    ensures DisableCountdownTimerEffect(SetCountdownTimerEffect(regs, period)) == DisableCountdownTimerEffect(regs)
  {
  }

  /** The default image `reset` writes already has the alarm and the countdown timer disabled. */
  lemma ResetImageIsDisabled()
    ensures DisableAlarmEffect(RESET_IMAGE) == RESET_IMAGE
    ensures DisableCountdownTimerEffect(RESET_IMAGE) == RESET_IMAGE
  {
  }

  /** The threshold of `setCountdownTimer` falls after 60: 60 s counts 60 one-second ticks, 61 s and 125 s count whole minutes. */
  lemma CountdownThreshold()
    ensures CountdownSetting(60) == (TIMER_ON_SECONDS, 60)
    ensures CountdownSetting(61) == (TIMER_ON_MINUTES, 1)
    ensures CountdownSetting(125) == (TIMER_ON_MINUTES, 2)
  {
  }
}
