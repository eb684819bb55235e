/**
 Draining the queue with no further calls: each firing applies the front
 transaction and re-arms once; the firing after the last transaction finds
 the queue empty, turns the output off and arms nothing.
 */
module Drain {
  import opened MotorTypes
  import opened Effects
  import opened VibrationMotor
  import opened Scheduler

  /** `n` firings in a row with no call in between. */
  function Fires(n: nat): (evs: seq<Event>)
    ensures |evs| == n
    ensures forall i | 0 <= i < n :: evs[i] == Fire
  {
    seq(n, _ => Fire)
  }

  /** The output levels a queue asks for, front first. */
  function Levels(q: seq<Transaction>): (ls: seq<Level>)
    ensures |ls| == |q|
  {
    seq(|q|, i requires 0 <= i < |q| => LevelOf(q[i].dutyCycle))
  }

  /** The durations a queue asks for, front first. */
  function Durations(q: seq<Transaction>): (ds: seq<uint32>)
    ensures |ds| == |q|
  {
    seq(|q|, i requires 0 <= i < |q| => q[i].duration)
  }

  /**
   The number of "on" runs in a queue: transactions with a non-zero duty
   cycle that follow a zero one (or start the queue while no PWM is held).
   */
  function OnRuns(q: seq<Transaction>, held: bool): nat
  {
    if q == [] then 0
    else (if q[0].dutyCycle > 0 && !held then 1 else 0) + OnRuns(q[1..], q[0].dutyCycle > 0)
  }

  /** `n + 1` firings are one firing followed by `n`. */
  lemma RunFiresUnfold(s: System, n: nat)
    ensures Run(s, Fires(n + 1)) ==
              var first := Deliver(s, Fire);
              var rest := Run(first.system, Fires(n));
              Outcome(rest.system, first.effects + rest.effects)
  {
    assert Fires(n + 1)[1..] == Fires(n);
  }

  /** One firing with a callback pending: what `processQueue` leaves and emits. */
  lemma FirePending(s: System)
    requires Inv(s) && s.motor.pending
    ensures var first := Deliver(s, Fire);
            && Inv(first.system)
            && first.system.motor.pin == s.motor.pin
            && (s.motor.queue == [] ==>
                  && Idle(first.system.motor)
                  && first.system.callbacks == 0
                  && OutputLevels(first.effects) == [Off]
                  && Delays(first.effects) == []
                  && Acquires(first.effects) == 0)
            && (s.motor.queue != [] ==>
                  && first.system.motor.pending
                  && first.system.motor.queue == s.motor.queue[1..]
                  && (first.system.motor.pwm.Some? <==> s.motor.queue[0].dutyCycle > 0)
                  && OutputLevels(first.effects) == [LevelOf(s.motor.queue[0].dutyCycle)]
                  && Delays(first.effects) == [s.motor.queue[0].duration]
                  && Acquires(first.effects) ==
                       (if s.motor.queue[0].dutyCycle > 0 && s.motor.pwm.None? then 1 else 0))
  {
  }

  /** Unfolds the drain of a non-empty queue into its first firing and the drain of the rest. */
  lemma DrainStep(s: System, first: Outcome, rest: Outcome)
    requires s.motor.queue != []
    requires first.system.motor.queue == s.motor.queue[1..]
    requires first.system.motor.pwm.Some? <==> s.motor.queue[0].dutyCycle > 0
    requires OutputLevels(first.effects) == [LevelOf(s.motor.queue[0].dutyCycle)]
    requires Delays(first.effects) == [s.motor.queue[0].duration]
    requires Acquires(first.effects) == (if s.motor.queue[0].dutyCycle > 0 && s.motor.pwm.None? then 1 else 0)
    requires OutputLevels(rest.effects) == Levels(first.system.motor.queue) + [Off]
    requires Delays(rest.effects) == Durations(first.system.motor.queue)
    requires Acquires(rest.effects) == OnRuns(first.system.motor.queue, first.system.motor.pwm.Some?)
    ensures OutputLevels(first.effects + rest.effects) == Levels(s.motor.queue) + [Off]
    ensures Delays(first.effects + rest.effects) == Durations(s.motor.queue)
    ensures Acquires(first.effects + rest.effects) == OnRuns(s.motor.queue, s.motor.pwm.Some?)
  {
    var q := s.motor.queue;
    OutputLevelsAppend(first.effects, rest.effects);
    DelaysAppend(first.effects, rest.effects);
    AcquiresAppend(first.effects, rest.effects);
    assert Levels(q) == [LevelOf(q[0].dutyCycle)] + Levels(q[1..]);
    assert Durations(q) == [q[0].duration] + Durations(q[1..]);
  }

  /**
   FIFO order and termination: with a callback pending and no further
   calls, |queue| + 1 firings apply every queued pulse width in queue order,
   followed by the terminal off level; the callbacks are re-armed with the
   queued durations in order; PWM is acquired once per "on" run; and the
   motor ends idle with no callback held.
   */
  lemma {:induction false} DrainInOrder(s: System)
    requires Inv(s) && s.motor.pending
    ensures var o := Run(s, Fires(|s.motor.queue| + 1));
            && Idle(o.system.motor)
            && o.system.callbacks == 0
            && o.system.motor.pin == s.motor.pin
            && OutputLevels(o.effects) == Levels(s.motor.queue) + [Off]
            && Delays(o.effects) == Durations(s.motor.queue)
            && Acquires(o.effects) == OnRuns(s.motor.queue, s.motor.pwm.Some?)
    decreases |s.motor.queue|
  {
    var q := s.motor.queue;
    var first := Deliver(s, Fire);
    FirePending(s);
    var rest := Run(first.system, Fires(|q|));
    RunFiresUnfold(s, |q|);
    if q == [] {
      assert rest == Outcome(first.system, []);
      assert first.effects + rest.effects == first.effects;
    } else {
      DrainInOrder(first.system);
      DrainStep(s, first, rest);
    }
  }

  /** The drain does not end early: after k <= |queue| firings a callback is still pending. */
  lemma {:induction false} DrainNotEarly(s: System, k: nat)
    requires Inv(s) && s.motor.pending && k <= |s.motor.queue|
    ensures var o := Run(s, Fires(k));
            && o.system.motor.pending
            && o.system.callbacks == 1
            && o.system.motor.queue == s.motor.queue[k..]
    decreases k
  {
    if k > 0 {
      var first := Deliver(s, Fire);
      DeliverPreservesInv(s, Fire);
      assert Fires(k)[1..] == Fires(k - 1);
      DrainNotEarly(first.system, k - 1);
      assert s.motor.queue[1..][k - 1..] == s.motor.queue[k..];
    }
  }

  /** An idle motor stays idle: firings find no callback and do nothing. */
  lemma {:induction false} IdleStaysIdle(s: System, n: nat)
    requires Inv(s) && !s.motor.pending
    ensures Run(s, Fires(n)) == Outcome(s, [])
    decreases n
  {
    if n > 0 {
      assert Fires(n)[1..] == Fires(n - 1);
      IdleStaysIdle(s, n - 1);
    }
  }

  /**
   Termination, exactly: with no further calls a queue of n transactions
   keeps a callback pending for n firings, is idle with PWM released after
   n + 1, and stays so under any number of further firings.
   */
  lemma DrainTakesQueuePlusOneFirings(s: System, extra: nat)
    requires Inv(s) && s.motor.pending
    ensures Run(s, Fires(|s.motor.queue|)).system.motor.pending
    ensures var o := Run(s, Fires(|s.motor.queue| + 1));
            && Idle(o.system.motor)
            && Run(o.system, Fires(extra)) == Outcome(o.system, [])
  {
    DrainNotEarly(s, |s.motor.queue|);
    DrainInOrder(s);
    var o := Run(s, Fires(|s.motor.queue| + 1));
    RunPreservesInv(s, Fires(|s.motor.queue| + 1));
    IdleStaysIdle(o.system, extra);
  }

  /** A queue of pauses only has no "on" run, whether or not PWM is held at its start. */
  lemma {:induction false} PausesNeverAcquire(q: seq<Transaction>, held: bool)
    requires forall i | 0 <= i < |q| :: q[i].dutyCycle == 0
    ensures OnRuns(q, held) == 0
  {
    if q != [] {
      PausesNeverAcquire(q[1..], false);
    }
  }

  /**
   Draining a queue of pauses never acquires PWM, even when PWM is still held
   from an earlier "on": the first pause releases it and none re-acquires it.
   */
  lemma DrainOfPausesNeverAcquires(s: System)
    requires Inv(s) && s.motor.pending
    requires forall i | 0 <= i < |s.motor.queue| :: s.motor.queue[i].dutyCycle == 0
    ensures Acquires(Run(s, Fires(|s.motor.queue| + 1)).effects) == 0
  {
    DrainInOrder(s);
    PausesNeverAcquire(s.motor.queue, s.motor.pwm.Some?);
  }
}
