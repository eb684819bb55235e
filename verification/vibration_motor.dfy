/**
 The command-queue state machine of `VibrationMotor`: construction, the
 queueing call `dutyCycle(percent, duration)`, the scheduler callback
 `processQueue`, and destruction. Every transition is a pure function from
 the old state to the new state plus the trace of effects it performs.
 */
module VibrationMotor {
  import opened MotorTypes
  import opened Effects

  /** A held PWM peripheral: the period configured on acquisition and the last pulse width set. */
  datatype Pwm = Pwm(period: nat, pulse: nat)

  /**
   The driver state. `pending` stands for a non-null `processQueueHandle`,
   `pwm` for the `PwmOut*` field, `queue` for `sendQueue` (front first).
   */
  datatype Motor = Motor(pin: PinName, queue: seq<Transaction>, pwm: Option<Pwm>, pending: bool)

  /** The outcome of one transition. */
  datatype Step = Step(motor: Motor, effects: seq<Effect>)

  /** A motor with nothing queued, no PWM and no callback pending. */
  predicate Idle(m: Motor)
  {
    m.queue == [] && m.pwm == None && !m.pending
  }

  /** The constructor: binds the pin and, if it is connected, drives it low without PWM. */
  function Construct(pin: PinName): (r: Step)
    ensures Idle(r.motor) && r.motor.pin == pin
    ensures r.effects == if pin.NC? then [] else [PinLow]
    ensures OutputLevels(r.effects) == if pin.NC? then [] else [Off]
  {
    Step(Motor(pin, [], None, false), if pin != NC then [PinLow] else [])
  }

  /**
   `dutyCycle(percent, duration)`: append the transaction and post an
   immediate callback unless one is already pending.
   */
  function Enqueue(m: Motor, percent: uint8, duration: uint32): (r: Step)
    ensures r.motor.queue == m.queue + [Transaction(percent, duration)]
    ensures r.motor.pin == m.pin && r.motor.pwm == m.pwm
    ensures r.motor.pending
    ensures Posts(r.effects) == if m.pending then 0 else 1
    ensures forall i | 0 <= i < |r.effects| :: r.effects[i] == Post(0, None)
  {
    var queue := m.queue + [Transaction(percent, duration)];
    if m.pending then Step(m.(queue := queue), [])
    else Step(m.(queue := queue, pending := true), [Post(0, None)])
  }

  /** `delete pwm`: releases the peripheral if one is held; deleting null does nothing. */
  function Release(pwm: Option<Pwm>): (t: seq<Effect>)
    ensures |t| == if pwm.Some? then 1 else 0
    ensures forall e | e in t :: e == PwmRelease
    ensures OutputLevels(t) == [] && Posts(t) == 0 && Acquires(t) == 0
    ensures PwmRelease in t <==> pwm.Some?
  {
    if pwm.Some? then [PwmRelease] else []
  }

  /** Applying one duty cycle to the output: the new PWM slot and the effects. */
  datatype Output = Output(pwm: Option<Pwm>, effects: seq<Effect>)

  /**
   The body of `processQueue` for one transaction, without the re-arm: a
   non-zero duty cycle acquires PWM (if none is held) and sets the pulse
   width; a zero duty cycle releases PWM and drives the pin low.
   */
  function ApplyDuty(pwm: Option<Pwm>, dutyCycle: uint8): (r: Output)
    ensures r.pwm.Some? <==> dutyCycle > 0
    ensures r.pwm.Some? ==> r.pwm.value.pulse == PulseWidth(dutyCycle)
    ensures r.pwm.Some? ==> r.pwm.value.period == if pwm.Some? then pwm.value.period else Period
    ensures OutputLevels(r.effects) == [LevelOf(dutyCycle)]
    ensures PinLow in r.effects <==> dutyCycle == 0
    ensures forall i | 0 <= i < |r.effects| :: r.effects[i].SetPulse? ==> dutyCycle > 0
    ensures Acquires(r.effects) == if dutyCycle > 0 && pwm.None? then 1 else 0
    ensures PwmAcquire(Period) in r.effects <==> dutyCycle > 0 && pwm.None?
    ensures PwmRelease in r.effects <==> dutyCycle == 0 && pwm.Some?
    ensures Posts(r.effects) == 0 && Cancels(r.effects) == 0
    ensures |r.effects| <= 2
    ensures r.effects != [] &&
            r.effects[|r.effects| - 1] == if dutyCycle > 0 then SetPulse(PulseWidth(dutyCycle)) else PinLow
  {
    if dutyCycle > 0 then
      var period := if pwm.Some? then pwm.value.period else Period;
      var acquire := if pwm.None? then [PwmAcquire(Period)] else [];
      var t := acquire + [SetPulse(PulseWidth(dutyCycle))];
      OutputLevelsAppend(acquire, [SetPulse(PulseWidth(dutyCycle))]);
      AcquiresAppend(acquire, [SetPulse(PulseWidth(dutyCycle))]);
      PostsAppend(acquire, [SetPulse(PulseWidth(dutyCycle))]);
      CancelsAppend(acquire, [SetPulse(PulseWidth(dutyCycle))]);
      Output(Some(Pwm(period, PulseWidth(dutyCycle))), t)
    else
      var t := Release(pwm) + [PinLow];
      OutputLevelsAppend(Release(pwm), [PinLow]);
      AcquiresAppend(Release(pwm), [PinLow]);
      PostsAppend(Release(pwm), [PinLow]);
      CancelsAppend(Release(pwm), [PinLow]);
      Output(None, t)
  }

  /**
   `processQueue`, run when the scheduler fires the pending callback. With a
   non-empty queue it applies the front transaction and re-arms once after
   that transaction's duration; with an empty queue it releases PWM, drives
   the pin low and clears the handle.
   */
  function ProcessQueue(m: Motor): (r: Step)
    ensures r.motor.pin == m.pin
    ensures r.motor.pwm.Some? ==> r.motor.pwm.value.period == if m.pwm.Some? then m.pwm.value.period else Period
    ensures |m.queue| > 0 ==>
              && r.motor.queue == m.queue[1..]
              && r.motor.pending
              && (r.motor.pwm.Some? <==> m.queue[0].dutyCycle > 0)
              && (r.motor.pwm.Some? ==> r.motor.pwm.value.pulse == PulseWidth(m.queue[0].dutyCycle))
              && Acquires(r.effects) == (if m.queue[0].dutyCycle > 0 && m.pwm.None? then 1 else 0)
              && OutputLevels(r.effects) == [LevelOf(m.queue[0].dutyCycle)]
              && Delays(r.effects) == [m.queue[0].duration]
              && (PwmRelease in r.effects <==> m.queue[0].dutyCycle == 0 && m.pwm.Some?)
              && r.effects[|r.effects| - 1] == Post(m.queue[0].duration, Some(RearmTolerance))
    ensures |m.queue| == 0 ==>
              && Idle(r.motor)
              && OutputLevels(r.effects) == [Off]
              && r.effects[|r.effects| - 1] == PinLow
              && Delays(r.effects) == []
              && Acquires(r.effects) == 0
              && Posts(r.effects) == 0
              && (PwmRelease in r.effects <==> m.pwm.Some?)
    ensures Posts(r.effects) == if |m.queue| > 0 then 1 else 0
    ensures Cancels(r.effects) == 0
  {
    if |m.queue| > 0 then
      var action := m.queue[0];
      var out := ApplyDuty(m.pwm, action.dutyCycle);
      var rearm := [Post(action.duration, Some(RearmTolerance))];
      OutputLevelsAppend(out.effects, rearm);
      DelaysAppend(out.effects, rearm);
      AcquiresAppend(out.effects, rearm);
      PostsAppend(out.effects, rearm);
      CancelsAppend(out.effects, rearm);
      assert PwmRelease in out.effects + rearm <==> PwmRelease in out.effects;
      Step(m.(queue := m.queue[1..], pwm := out.pwm, pending := true), out.effects + rearm)
    else
      var t := Release(m.pwm) + [PinLow];
      OutputLevelsAppend(Release(m.pwm), [PinLow]);
      DelaysAppend(Release(m.pwm), [PinLow]);
      AcquiresAppend(Release(m.pwm), [PinLow]);
      PostsAppend(Release(m.pwm), [PinLow]);
      CancelsAppend(Release(m.pwm), [PinLow]);
      Step(m.(pwm := None, pending := false), t)
  }

  /**
   The order of `processQueue`'s effects. On a non-empty queue: an
   acquisition with the default period comes first, before the pulse is
   set; a release comes first, before the pin is driven low; the front's
   level is set just before the re-arm; and there are at most three
   effects. On an empty queue: at most one release, then the pin low.
   */
  lemma ProcessQueueOrder(m: Motor)
    ensures var r := ProcessQueue(m);
            && (|m.queue| > 0 ==>
                  && 2 <= |r.effects| <= 3
                  && (m.queue[0].dutyCycle > 0 && m.pwm.None? ==> r.effects[0] == PwmAcquire(Period))
                  && (m.queue[0].dutyCycle == 0 && m.pwm.Some? ==> r.effects[0] == PwmRelease)
                  && r.effects[|r.effects| - 2] ==
                       if m.queue[0].dutyCycle > 0 then SetPulse(PulseWidth(m.queue[0].dutyCycle)) else PinLow)
            && (|m.queue| == 0 ==>
                  && |r.effects| == (if m.pwm.Some? then 2 else 1)
                  && (m.pwm.Some? ==> r.effects[0] == PwmRelease))
  {
  }

  /**
   The destructor: cancels the pending callback, if any. It performs no
   peripheral effect, so a PWM held at that moment is not released.
   */
  function Destroy(m: Motor): (t: seq<Effect>)
    ensures Cancels(t) == if m.pending then 1 else 0
    ensures forall i | 0 <= i < |t| :: t[i] == Cancel
  {
    if m.pending then [Cancel] else []
  }
}
