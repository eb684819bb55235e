/**
 Basic types of the vibration-motor driver: the fixed-width integers of the
 C++ interface, the pin name, one queued transaction, and the pulse-width
 arithmetic derived from the configured time unit.
 */
module MotorTypes {

  /** An optional value; `None` stands for a null pointer or handle. */
  datatype Option<+T> = None | Some(value: T)

  /** `uint8_t`: the duty cycle admits 0..255 although 0..100 is documented. */
  type uint8 = x: int | 0 <= x < 0x100

  /** `uint32_t`: a duration in milliseconds. */
  type uint32 = x: int | 0 <= x < 0x1_0000_0000

  /** A pin identifier, or `NC` (not connected). */
  datatype PinName = NC | Pin(id: nat)

  /** One queued command: drive the motor at `dutyCycle` percent for `duration` ms. */
  datatype Transaction = Transaction(dutyCycle: uint8, duration: uint32)

  /** Pulse-width unit in microseconds when the build does not configure one. */
  const PulseWidthUnit: nat := 200

  /** PWM period configured on acquisition: one hundred units. */
  const Period: nat := PulseWidthUnit * 100

  /** Timing tolerance requested when the queue re-arms itself. */
  const RearmTolerance: nat := 1

  /** Pulse width in microseconds for a duty cycle given in percent. */
  function PulseWidth(dutyCycle: uint8): nat
  {
    dutyCycle * PulseWidthUnit
  }

  /** The highest duty cycle the interface documents as meaningful. */
  predicate ValidPercent(percent: uint8)
  {
    percent <= 100
  }

  /** The pulse fits in the period exactly when the percent is documented-valid. */
  lemma PulseWithinPeriodIff(dutyCycle: uint8)
    ensures PulseWidth(dutyCycle) <= Period <==> ValidPercent(dutyCycle)
  {
  }

  /** With the default unit, the period is 20 ms and 70 % gives a 14 ms pulse. */
  lemma DefaultTiming()
    ensures Period == 20000
    ensures PulseWidth(70) == 14000
    ensures PulseWidth(0) == 0
  {
  }
}
