/**
 The observable effects of the driver on its two collaborators: the PWM /
 digital-output peripheral and the task scheduler. A transition returns the
 effects it performs, in order, as a trace.
 */
module Effects {
  import opened MotorTypes

  datatype Effect =
    | PwmAcquire(period: nat)                         // new PwmOut(pin); period_us(period)
    | SetPulse(width: nat)                            // pulsewidth_us(width)
    | PwmRelease                                      // delete pwm (only when one is held)
    | PinLow                                          // DigitalOut out(pin): pin driven to 0
    | Post(delay: uint32, tolerance: Option<nat>)     // postCallback; None = scheduler default
    | Cancel                                          // cancelCallback(handle)

  /**
   What the pin shows after an effect: PWM at a pulse width, or a static
   low output driven through `DigitalOut`.
   */
  datatype Level = Pulse(width: nat) | Off

  /** The level one transaction's duty cycle asks for: PWM when non-zero, otherwise low. */
  function LevelOf(dutyCycle: uint8): Level
  {
    if dutyCycle > 0 then Pulse(PulseWidth(dutyCycle)) else Off
  }

  /** True of effects that reach the scheduler rather than the peripheral. */
  predicate IsScheduling(e: Effect)
  {
    e.Post? || e.Cancel?
  }

  /** A trace that only talks to the scheduler. */
  predicate SchedulingOnly(t: seq<Effect>)
  {
    forall i | 0 <= i < |t| :: IsScheduling(t[i])
  }

  /** Number of callbacks posted by a trace. */
  function Posts(t: seq<Effect>): nat
  {
    if t == [] then 0 else (if t[0].Post? then 1 else 0) + Posts(t[1..])
  }

  /** Number of callbacks cancelled by a trace. */
  function Cancels(t: seq<Effect>): nat
  {
    if t == [] then 0 else (if t[0].Cancel? then 1 else 0) + Cancels(t[1..])
  }

  /** Number of PWM acquisitions in a trace. */
  function Acquires(t: seq<Effect>): nat
  {
    if t == [] then 0 else (if t[0].PwmAcquire? then 1 else 0) + Acquires(t[1..])
  }

  /**
   The successive output levels a trace puts on the pin: `SetPulse(w)` shows
   `Pulse(w)`, `PinLow` shows `Off`, the other effects show nothing.
   */
  function OutputLevels(t: seq<Effect>): seq<Level>
  {
    if t == [] then []
    else
      match t[0]
      case SetPulse(w) => [Pulse(w)] + OutputLevels(t[1..])
      case PinLow => [Off] + OutputLevels(t[1..])
      case _ => OutputLevels(t[1..])
  }

  /** The delays of the callbacks a trace posts, in posting order. */
  function Delays(t: seq<Effect>): seq<uint32>
  {
    if t == [] then []
    else if t[0].Post? then [t[0].delay] + Delays(t[1..])
    else Delays(t[1..])
  }

  lemma {:induction false} PostsAppend(a: seq<Effect>, b: seq<Effect>)
    ensures Posts(a + b) == Posts(a) + Posts(b)
  {
    if a == [] {
      assert a + b == b;
    } else {
      assert (a + b)[1..] == a[1..] + b;
      PostsAppend(a[1..], b);
    }
  }

  lemma {:induction false} CancelsAppend(a: seq<Effect>, b: seq<Effect>)
    ensures Cancels(a + b) == Cancels(a) + Cancels(b)
  {
    if a == [] {
      assert a + b == b;
    } else {
      assert (a + b)[1..] == a[1..] + b;
      CancelsAppend(a[1..], b);
    }
  }

  lemma {:induction false} AcquiresAppend(a: seq<Effect>, b: seq<Effect>)
    ensures Acquires(a + b) == Acquires(a) + Acquires(b)
  {
    if a == [] {
      assert a + b == b;
    } else {
      assert (a + b)[1..] == a[1..] + b;
      AcquiresAppend(a[1..], b);
    }
  }

  lemma {:induction false} OutputLevelsAppend(a: seq<Effect>, b: seq<Effect>)
    ensures OutputLevels(a + b) == OutputLevels(a) + OutputLevels(b)
  {
    if a == [] {
      assert a + b == b;
    } else {
      assert (a + b)[0] == a[0];
      assert (a + b)[1..] == a[1..] + b;
      OutputLevelsAppend(a[1..], b);
    }
  }

  lemma {:induction false} DelaysAppend(a: seq<Effect>, b: seq<Effect>)
    ensures Delays(a + b) == Delays(a) + Delays(b)
  {
    if a == [] {
      assert a + b == b;
    } else {
      assert (a + b)[0] == a[0];
      assert (a + b)[1..] == a[1..] + b;
      DelaysAppend(a[1..], b);
    }
  }

  lemma SchedulingOnlyAppend(a: seq<Effect>, b: seq<Effect>)
    requires SchedulingOnly(a) && SchedulingOnly(b)
    ensures SchedulingOnly(a + b)
  {
  }

  /** A trace made only of scheduling effects touches no peripheral. */
  lemma {:induction false} SchedulingOnlyHasNoLevels(t: seq<Effect>)
    requires SchedulingOnly(t)
    ensures OutputLevels(t) == []
    ensures Acquires(t) == 0
  {
    if t != [] {
      assert IsScheduling(t[0]);
      SchedulingOnlyHasNoLevels(t[1..]);
    }
  }
}
