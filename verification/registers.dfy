/**
 * The register map and the framing of the address byte that opens every
 * bus transaction: `D 01 NNNNN`, where D is 0 for a write and 1 for a read,
 * bits 6-5 are the fixed address class `01`, and NNNNN is the index of the
 * first register of the burst.
 */
module RegisterMap {

  /** The registers the driver uses and `reset` writes: indices 0x00..0x19. */
  const REGISTER_COUNT: nat := 26

  // Register indices.
  const CONTROL_1: nat := 0x00
  const CONTROL_2: nat := 0x01
  const CONTROL_3: nat := 0x02
  const SECONDS: nat := 0x03          // first of the seven time registers 0x03..0x09
  const SECOND_ALARM: nat := 0x0A     // first of the five alarm registers 0x0A..0x0E
  const CLOCKOUT_CONTROL: nat := 0x0F
  const WATCHDOG_CONTROL: nat := 0x10 // watchdog/timer control; the timer value follows at 0x11
  const TIMESTAMP_CONTROL: nat := 0x12

  // Bits of control register 2.
  const CDTIE: nat := 0  // countdown timer interrupt enable
  const AIE: nat := 1    // alarm interrupt enable
  const CDTF: nat := 3   // countdown timer flag
  const AF: nat := 4     // alarm flag

  // Bits of the other registers the driver changes one at a time.
  const PWRMNG_HIGH: nat := 7  // control register 3, bits 7-5: power management
  const PWRMNG_MID: nat := 6
  const PWRMNG_LOW: nat := 5
  const OTPR: nat := 5         // clockout control: OTP refresh
  const TSOFF: nat := 6        // timestamp control: timestamp function off
  const AEN: nat := 7          // each alarm register: 1 disables that field of the alarm

  // Whole-byte values the driver writes without reading first.
  const ALARM_FIELD_OFF: bv8 := 0x80          // alarm field disabled, value 0
  const CLOCKOUT_LOW_POWER: bv8 := 0x07       // slowest temperature measurement, clock output off
  const TIMER_ON_SECONDS: bv8 := 0x42         // countdown timer on, permanent interrupt, 1 Hz source
  const TIMER_ON_MINUTES: bv8 := 0x43         // countdown timer on, permanent interrupt, 1/60 Hz source
  const TIMER_OFF: bv8 := 0x03                // countdown timer bits 7-6 off, 1/60 Hz source

  // Lengths of the bursts that start at those indices.
  const TIME_LENGTH: nat := 7
  const ALARM_LENGTH: nat := 5
  const TIMER_LENGTH: nat := 2

  // Address bytes, as defined in the driver's header.
  const WRITE_TIME: bv8 := 0x23
  const WRITE_ALARM: bv8 := 0x2A
  const WRITE_CONTROL_REGISTER_1: bv8 := 0x20
  const WRITE_CONTROL_REGISTER_2: bv8 := 0x21
  const WRITE_WD_TIMER_CONTROL_REGISTER: bv8 := 0x30
  const WRITE_CLOCKOUT_CONTROL_REGISTER: bv8 := 0x2F
  const WRITE_CONTROL_REGISTER_3: bv8 := 0x22
  const WRITE_TIMESTAMP_CONTROL_REGISTER: bv8 := 0x32

  const READ_TIME: bv8 := 0xA3
  const READ_ALARM: bv8 := 0xAA
  const READ_CONTROL_REGISTER_1: bv8 := 0xA0
  const READ_CONTROL_REGISTER_2: bv8 := 0xA1
  const READ_CONTROL_REGISTER_3: bv8 := 0xA2
  const READ_WD_TIMER_CONTROL_REGISTER: bv8 := 0xB0
  const READ_TIMESTAMP_CONTROL_REGISTER: bv8 := 0xB2
  const READ_CLOCKOUT_CONTROL_REGISTER: bv8 := 0xAF

  /** The second, identical definition of the control-register-3 read address. */
  const READ_CONTROL_REGISTER_3_AGAIN: bv8 := 0xA2

  /** The direction bit (bit 7) is 0 and the class bits (6-5) are `01`. */
  predicate IsWriteAddress(address: bv8)
  {
    address & 0xE0 == 0x20
  }

  /** The direction bit (bit 7) is 1 and the class bits (6-5) are `01`. */
  predicate IsReadAddress(address: bv8)
  {
    address & 0xE0 == 0xA0
  }

  /** The starting register index carried in bits 4-0. */
  function Index(address: bv8): (i: nat)
    ensures i < 32
  {
    (address & 0x1F) as nat
  }

  /** The address byte that opens a write burst starting at register `index`. */
  function WriteAddress(index: nat): (address: bv8)
    requires index < 32
    ensures IsWriteAddress(address) && !IsReadAddress(address)
    ensures Index(address) == index
  {
    0x20 | index as bv8
  }

  /** The address byte that opens a read burst starting at register `index`: the write address with bit 7 set. */
  function ReadAddress(index: nat): (address: bv8)
    requires index < 32
    ensures IsReadAddress(address) && !IsWriteAddress(address)
    ensures Index(address) == index
    ensures address == WriteAddress(index) | 0x80
  {
    0xA0 | index as bv8
  }

  /** Every write constant is the framed write address of its register. */
  lemma WriteAddressesAreFramed()
    ensures WRITE_TIME == WriteAddress(SECONDS)
    ensures WRITE_ALARM == WriteAddress(SECOND_ALARM)
    ensures WRITE_CONTROL_REGISTER_1 == WriteAddress(CONTROL_1)
    ensures WRITE_CONTROL_REGISTER_2 == WriteAddress(CONTROL_2)
    ensures WRITE_CONTROL_REGISTER_3 == WriteAddress(CONTROL_3)
    ensures WRITE_WD_TIMER_CONTROL_REGISTER == WriteAddress(WATCHDOG_CONTROL)
    ensures WRITE_CLOCKOUT_CONTROL_REGISTER == WriteAddress(CLOCKOUT_CONTROL)
    ensures WRITE_TIMESTAMP_CONTROL_REGISTER == WriteAddress(TIMESTAMP_CONTROL)
  {
  }

  /** Every read constant is the framed read address of its register, i.e. its write counterpart with bit 7 set. */
  lemma ReadAddressesAreFramed()
    ensures READ_TIME == ReadAddress(SECONDS) == WRITE_TIME | 0x80
    ensures READ_ALARM == ReadAddress(SECOND_ALARM) == WRITE_ALARM | 0x80
    ensures READ_CONTROL_REGISTER_1 == ReadAddress(CONTROL_1) == WRITE_CONTROL_REGISTER_1 | 0x80
    ensures READ_CONTROL_REGISTER_2 == ReadAddress(CONTROL_2) == WRITE_CONTROL_REGISTER_2 | 0x80
    ensures READ_CONTROL_REGISTER_3 == ReadAddress(CONTROL_3) == WRITE_CONTROL_REGISTER_3 | 0x80
    ensures READ_CONTROL_REGISTER_3_AGAIN == READ_CONTROL_REGISTER_3
    ensures READ_WD_TIMER_CONTROL_REGISTER == ReadAddress(WATCHDOG_CONTROL) == WRITE_WD_TIMER_CONTROL_REGISTER | 0x80
    ensures READ_CLOCKOUT_CONTROL_REGISTER == ReadAddress(CLOCKOUT_CONTROL) == WRITE_CLOCKOUT_CONTROL_REGISTER | 0x80
    ensures READ_TIMESTAMP_CONTROL_REGISTER == ReadAddress(TIMESTAMP_CONTROL) == WRITE_TIMESTAMP_CONTROL_REGISTER | 0x80
  {
  }

  /** Every burst the driver issues, from its start index for its length, stays inside 0x00..0x19. */
  lemma BurstsStayInMap()
    ensures Index(WRITE_CONTROL_REGISTER_1) + REGISTER_COUNT <= REGISTER_COUNT
    ensures Index(READ_CONTROL_REGISTER_1) + REGISTER_COUNT <= REGISTER_COUNT
    ensures Index(WRITE_CONTROL_REGISTER_2) < REGISTER_COUNT && Index(WRITE_CONTROL_REGISTER_3) < REGISTER_COUNT
    ensures Index(WRITE_CLOCKOUT_CONTROL_REGISTER) < REGISTER_COUNT
    ensures Index(WRITE_TIMESTAMP_CONTROL_REGISTER) < REGISTER_COUNT
    ensures Index(WRITE_TIME) + TIME_LENGTH <= REGISTER_COUNT && Index(READ_TIME) + TIME_LENGTH <= REGISTER_COUNT
    ensures Index(WRITE_ALARM) + ALARM_LENGTH <= REGISTER_COUNT
    ensures Index(WRITE_WD_TIMER_CONTROL_REGISTER) + TIMER_LENGTH <= REGISTER_COUNT
    ensures Index(READ_CONTROL_REGISTER_2) < REGISTER_COUNT && Index(READ_CONTROL_REGISTER_3) < REGISTER_COUNT
    ensures Index(READ_CLOCKOUT_CONTROL_REGISTER) < REGISTER_COUNT
    ensures Index(READ_TIMESTAMP_CONTROL_REGISTER) < REGISTER_COUNT
  {
  }
}
