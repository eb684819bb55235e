/**
 The motor together with the scheduler that fires its callbacks. The
 scheduler is modelled only by the number of callbacks it holds for this
 motor: a post adds one and a firing consumes one. The caller's calls and
 the firings are serialized into one event sequence. Destruction ends the
 sequence; `DestroyCancelsAll` compares its cancels with the count.
 */
module Scheduler {
  import opened MotorTypes
  import opened Effects
  import opened VibrationMotor
  import opened VibrationAdder

  /** What can happen to a motor: the caller queues a command, or a callback fires. */
  datatype Event = Call(percent: uint8, duration: uint32) | Fire

  /** The motor plus the number of its callbacks the scheduler holds. */
  datatype System = System(motor: Motor, callbacks: nat)

  /** A new state of the system and the effects that led to it. */
  datatype Outcome = Outcome(system: System, effects: seq<Effect>)

  /** A freshly constructed motor with nothing scheduled. */
  function Boot(pin: PinName): System
  {
    System(Construct(pin).motor, 0)
  }

  /**
   One event. A `Fire` with no callback held does nothing: the scheduler
   only runs `processQueue` for a callback it was given.
   */
  function Deliver(s: System, ev: Event): (r: Outcome)
  {
    match ev
    case Call(p, d) =>
      var st := Enqueue(s.motor, p, d);
      Outcome(System(st.motor, s.callbacks + Posts(st.effects)), st.effects)
    case Fire =>
      if s.callbacks == 0 then Outcome(s, [])
      else
        var st := ProcessQueue(s.motor);
        Outcome(System(st.motor, s.callbacks - 1 + Posts(st.effects)), st.effects)
  }

  /** A sequence of events, in order, with the concatenated effects. */
  function Run(s: System, evs: seq<Event>): Outcome
    decreases |evs|
  {
    if evs == [] then Outcome(s, [])
    else
      var first := Deliver(s, evs[0]);
      var rest := Run(first.system, evs[1..]);
      Outcome(rest.system, first.effects + rest.effects)
  }

  /**
   The invariant of a running motor: the handle is set exactly when the
   scheduler holds one callback (never two); a motor without a pending
   callback has an empty queue and no PWM; a held PWM keeps the period it
   was configured with.
   */
  ghost predicate Inv(s: System)
  {
    && s.callbacks == (if s.motor.pending then 1 else 0)
    && (!s.motor.pending ==> s.motor.queue == [] && s.motor.pwm.None?)
    && (s.motor.pwm.Some? ==> s.motor.pwm.value.period == Period)
  }

  lemma BootInv(pin: PinName)
    ensures Inv(Boot(pin))
    ensures Idle(Boot(pin).motor) && Boot(pin).motor.pin == pin
  {
  }

  /** Every event keeps the invariant. */
  lemma DeliverPreservesInv(s: System, ev: Event)
    requires Inv(s)
    ensures Inv(Deliver(s, ev).system)
    ensures Deliver(s, ev).system.motor.pin == s.motor.pin
  {
  }

  /** Every event sequence keeps the invariant and the pin. */
  lemma {:induction false} RunPreservesInv(s: System, evs: seq<Event>)
    requires Inv(s)
    ensures Inv(Run(s, evs).system)
    ensures Run(s, evs).system.motor.pin == s.motor.pin
    decreases |evs|
  {
    if evs != [] {
      DeliverPreservesInv(s, evs[0]);
      RunPreservesInv(Deliver(s, evs[0]).system, evs[1..]);
    }
  }

  /**
   From construction, whatever the caller does and however the firings
   interleave: at most one callback is ever held, and a non-empty queue
   always has one pending.
   */
  lemma AtMostOneCallback(pin: PinName, evs: seq<Event>)
    ensures Run(Boot(pin), evs).system.callbacks <= 1
    ensures Run(Boot(pin), evs).system.motor.queue != [] ==>
              Run(Boot(pin), evs).system.motor.pending && Run(Boot(pin), evs).system.callbacks == 1
  {
    BootInv(pin);
    RunPreservesInv(Boot(pin), evs);
  }

  /** The transaction an event queues, if it is a call. */
  function RequestedBy(ev: Event): seq<Transaction>
  {
    match ev
    case Call(p, d) => [Transaction(p, d)]
    case Fire => []
  }

  /** The transaction an event applies, if it is a firing that finds a callback and a non-empty queue. */
  function ProcessedBy(s: System, ev: Event): seq<Transaction>
  {
    if ev.Fire? && s.callbacks > 0 && s.motor.queue != [] then [s.motor.queue[0]] else []
  }

  /** The transactions the calls of an event sequence queue, in call order. */
  function Requested(evs: seq<Event>): seq<Transaction>
    decreases |evs|
  {
    if evs == [] then [] else RequestedBy(evs[0]) + Requested(evs[1..])
  }

  /** The transactions the firings of an event sequence apply, in firing order. */
  function Processed(s: System, evs: seq<Event>): seq<Transaction>
    decreases |evs|
  {
    if evs == [] then [] else ProcessedBy(s, evs[0]) + Processed(Deliver(s, evs[0]).system, evs[1..])
  }

  /** One event: what it applies, then the new queue, is the old queue then what it requests. */
  lemma FifoStep(s: System, ev: Event)
    ensures ProcessedBy(s, ev) + Deliver(s, ev).system.motor.queue == s.motor.queue + RequestedBy(ev)
  {
  }

  /**
   FIFO, under any interleaving of calls and firings: the transactions
   applied so far followed by those still queued are exactly the ones that
   were queued before followed by the ones requested since, in call order.
   Nothing is lost, duplicated or reordered.
   */
  lemma {:induction false} FifoConservation(s: System, evs: seq<Event>)
    ensures Processed(s, evs) + Run(s, evs).system.motor.queue == s.motor.queue + Requested(evs)
    decreases |evs|
  {
    if evs != [] {
      var first := Deliver(s, evs[0]);
      var now := ProcessedBy(s, evs[0]);
      var tail := Processed(first.system, evs[1..]);
      var final := Run(first.system, evs[1..]).system.motor.queue;
      assert Run(s, evs).system.motor.queue == final;
      assert Processed(s, evs) == now + tail;
      assert Requested(evs) == RequestedBy(evs[0]) + Requested(evs[1..]);
      FifoStep(s, evs[0]);
      FifoConservation(first.system, evs[1..]);
      Regroup(now, tail, final, first.system.motor.queue, s.motor.queue, RequestedBy(evs[0]), Requested(evs[1..]));
    }
  }

  /** Sequence regrouping for one step of `FifoConservation`. */
  lemma Regroup<T>(now: seq<T>, tail: seq<T>, final: seq<T>, mid: seq<T>, q: seq<T>, req: seq<T>, reqs: seq<T>)
    requires tail + final == mid + reqs
    requires now + mid == q + req
    ensures (now + tail) + final == q + (req + reqs)
  {
    calc {
      (now + tail) + final;
      now + (tail + final);
      now + (mid + reqs);
      (now + mid) + reqs;
      (q + req) + reqs;
    }
  }

  /** Queueing while a callback is pending posts nothing and keeps exactly one callback. */
  lemma EnqueueWhilePendingPostsNothing(s: System, percent: uint8, duration: uint32)
    requires Inv(s) && s.motor.pending
    ensures Posts(Deliver(s, Call(percent, duration)).effects) == 0
    ensures Deliver(s, Call(percent, duration)).system.callbacks == 1
  {
  }

  /** Queueing on an idle motor posts exactly one immediate callback. */
  lemma EnqueueWhenIdlePostsOnce(s: System, percent: uint8, duration: uint32)
    requires Inv(s) && !s.motor.pending
    ensures Deliver(s, Call(percent, duration)).effects == [Post(0, None)]
    ensures Deliver(s, Call(percent, duration)).system.callbacks == 1
  {
  }

  /** The events a fluent chain `a.on(..).pause(..)...` issues, in order. */
  function ChainCalls(a: Adder, ops: seq<ChainOp>): (evs: seq<Event>)
    ensures |evs| == |ops|
  {
    seq(|ops|, i requires 0 <= i < |ops| =>
      var t := TransactionOf(a.dutyCycle, ops[i]); Call(t.dutyCycle, t.duration))
  }

  /**
   A fluent chain issued without an intervening firing is the same as the
   corresponding sequence of queueing calls.
   */
  lemma {:induction false} ChainIsCalls(a: Adder, s: System, ops: seq<ChainOp>)
    ensures Run(s, ChainCalls(a, ops)) ==
              var c := Chain(a, s.motor, ops);
              Outcome(System(c.motor, s.callbacks + Posts(c.effects)), c.effects)
    decreases |ops|
  {
    if ops != [] {
      var evs := ChainCalls(a, ops);
      assert evs[1..] == ChainCalls(a, ops[1..]);
      var first := Deliver(s, evs[0]);
      ChainIsCalls(a, first.system, ops[1..]);
      var f := Apply(a, s.motor, ops[0]);
      var rest := Chain(a, f.motor, ops[1..]);
      PostsAppend(f.effects, rest.effects);
    }
  }

  /**
   Queueing never touches the peripheral: a motor that receives only calls
   and is then destroyed before any firing performs scheduling effects only
   (so no output level, no PWM acquisition and no release), and the
   destructor leaves the scheduler holding nothing.
   */
  lemma {:induction false} CallsThenDestroyTouchNoPeripheral(s: System, evs: seq<Event>)
    requires Inv(s)
    requires forall i | 0 <= i < |evs| :: evs[i].Call?
    ensures var o := Run(s, evs);
            && SchedulingOnly(o.effects)
            && SchedulingOnly(Destroy(o.system.motor))
            && OutputLevels(o.effects) == []
            && Acquires(o.effects) == 0
            && o.system.callbacks == Cancels(Destroy(o.system.motor))
    decreases |evs|
  {
    RunPreservesInv(s, evs);
    if evs != [] {
      var first := Deliver(s, evs[0]);
      DeliverPreservesInv(s, evs[0]);
      CallsThenDestroyTouchNoPeripheral(first.system, evs[1..]);
      SchedulingOnlyHasNoLevels(first.effects);
      OutputLevelsAppend(first.effects, Run(first.system, evs[1..]).effects);
      SchedulingOnlyAppend(first.effects, Run(first.system, evs[1..]).effects);
      AcquiresAppend(first.effects, Run(first.system, evs[1..]).effects);
    }
  }

  /** The destructor cancels every callback the scheduler holds for the motor. */
  lemma DestroyCancelsAll(s: System)
    requires Inv(s)
    ensures s.callbacks == Cancels(Destroy(s.motor))
    ensures OutputLevels(Destroy(s.motor)) == [] && Acquires(Destroy(s.motor)) == 0
  {
  }

  /**
   The destructor releases nothing: destroyed while a non-zero duty cycle is
   applied, the motor leaves its PWM running.
   */
  lemma DestroyLeavesPwmHeld(s: System)
    requires Inv(s) && s.motor.pwm.Some?
    ensures PwmRelease !in Destroy(s.motor)
    ensures Destroy(s.motor) == [Cancel]
  {
  }
}
