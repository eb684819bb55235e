/**
 The pulse width set on the PWM never exceeds its period as long as every
 queued duty cycle is within the documented 0..100 percent. The driver does
 not check this itself: a larger `uint8_t` value goes straight through.
 */
module PulseBound {
  import opened MotorTypes
  import opened Effects
  import opened VibrationMotor
  import opened Scheduler

  /** Every queued duty cycle is documented-valid and a held PWM's pulse fits its period. */
  ghost predicate Bounded(m: Motor)
  {
    && (forall i | 0 <= i < |m.queue| :: ValidPercent(m.queue[i].dutyCycle))
    && (m.pwm.Some? ==> m.pwm.value.pulse <= m.pwm.value.period)
  }

  /** Every pulse width a trace sets lies within one period. */
  ghost predicate LevelsWithinPeriod(t: seq<Effect>)
  {
    forall i | 0 <= i < |OutputLevels(t)| :: OutputLevels(t)[i].Pulse? ==> OutputLevels(t)[i].width <= Period
  }

  /** Every call of an event sequence passes a documented-valid percent. */
  predicate ValidCalls(evs: seq<Event>)
  {
    forall i | 0 <= i < |evs| :: evs[i].Call? ==> ValidPercent(evs[i].percent)
  }

  /** One event keeps the bound, given a valid percent for a call. */
  lemma DeliverBounded(s: System, ev: Event)
    requires Inv(s) && Bounded(s.motor)
    requires ev.Call? ==> ValidPercent(ev.percent)
    ensures Bounded(Deliver(s, ev).system.motor)
    ensures LevelsWithinPeriod(Deliver(s, ev).effects)
  {
  }

  /** An event sequence with valid percents keeps the bound throughout. */
  lemma {:induction false} RunBounded(s: System, evs: seq<Event>)
    requires Inv(s) && Bounded(s.motor) && ValidCalls(evs)
    ensures Bounded(Run(s, evs).system.motor)
    ensures LevelsWithinPeriod(Run(s, evs).effects)
    decreases |evs|
  {
    if evs != [] {
      var first := Deliver(s, evs[0]);
      DeliverBounded(s, evs[0]);
      DeliverPreservesInv(s, evs[0]);
      assert ValidCalls(evs[1..]) by {
        forall i | 0 <= i < |evs[1..]| ensures evs[1..][i].Call? ==> ValidPercent(evs[1..][i].percent) {
          assert evs[1..][i] == evs[i + 1];
        }
      }
      RunBounded(first.system, evs[1..]);
      var rest := Run(first.system, evs[1..]);
      OutputLevelsAppend(first.effects, rest.effects);
    }
  }

  /**
   From construction, if the caller only ever passes percents within 0..100,
   no pulse width the driver sets exceeds the period, and neither does the
   pulse of a PWM held at the end.
   */
  lemma PulseNeverExceedsPeriod(pin: PinName, evs: seq<Event>)
    requires ValidCalls(evs)
    ensures LevelsWithinPeriod(Run(Boot(pin), evs).effects)
    ensures var m := Run(Boot(pin), evs).system.motor;
            m.pwm.Some? ==> m.pwm.value.pulse <= m.pwm.value.period
  {
    BootInv(pin);
    RunBounded(Boot(pin), evs);
  }

  /**
   The driver does not validate the percent: on an idle motor, a call with
   a percent above 100 followed by one firing sets a pulse longer than the
   period.
   */
  lemma OverrangePercentPassesThrough(pin: PinName, percent: uint8, duration: uint32)
    requires !ValidPercent(percent)
    ensures var o := Run(Boot(pin), [Call(percent, duration), Fire]);
            && OutputLevels(o.effects) == [Pulse(PulseWidth(percent))]
            && PulseWidth(percent) > Period
  {
    PulseWithinPeriodIff(percent);
    var s := Boot(pin);
    var first := Deliver(s, Call(percent, duration));
    assert [Call(percent, duration), Fire][1..] == [Fire];
    var second := Deliver(first.system, Fire);
    assert Run(first.system, [Fire]) == Outcome(second.system, second.effects + []);
    SchedulingOnlyHasNoLevels(first.effects);
    OutputLevelsAppend(first.effects, second.effects);
    assert second.effects + [] == second.effects;
  }
}
