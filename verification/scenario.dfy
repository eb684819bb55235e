/**
 The vibration pattern of the unit-test application: at 70 % duty cycle,
 `on(200).pause(100)` three times, `on(100).pause(100)` three times,
 `on(200).pause(100)` twice and a final `on(200)`, issued in one chain from
 a freshly constructed motor.
 */
module Scenario {
  import opened MotorTypes
  import opened Effects
  import opened VibrationMotor
  import opened VibrationAdder
  import opened Scheduler
  import opened Drain

  /** The chain of the test application, link by link. */
  const TestChain: seq<ChainOp> := [
    OnFor(200), PauseFor(100),
    OnFor(200), PauseFor(100),
    OnFor(200), PauseFor(100),
    OnFor(100), PauseFor(100),
    OnFor(100), PauseFor(100),
    OnFor(100), PauseFor(100),
    OnFor(200), PauseFor(100),
    OnFor(200), PauseFor(100),
    OnFor(200)
  ]

  /** The queued transactions the chain produces at duty cycle `duty`. */
  lemma TestChainTransactions(duty: uint8)
    ensures TransactionsOf(duty, TestChain) == [
      Transaction(duty, 200), Transaction(0, 100),
      Transaction(duty, 200), Transaction(0, 100),
      Transaction(duty, 200), Transaction(0, 100),
      Transaction(duty, 100), Transaction(0, 100),
      Transaction(duty, 100), Transaction(0, 100),
      Transaction(duty, 100), Transaction(0, 100),
      Transaction(duty, 200), Transaction(0, 100),
      Transaction(duty, 200), Transaction(0, 100),
      Transaction(duty, 200)
    ]
  {
  }

  /** In a queue that alternates "on" (non-zero) and pause, every "on" starts a run of its own. */
  lemma {:induction false} AlternatingOnRuns(q: seq<Transaction>, held: bool)
    requires forall i | 0 <= i < |q| :: (q[i].dutyCycle > 0 <==> i % 2 == 0)
    requires |q| > 0 ==> !held
    ensures OnRuns(q, held) == (|q| + 1) / 2
  {
    if q != [] {
      var tail := q[1..];
      if |tail| > 0 {
        assert tail[0] == q[1];
        var rest := tail[1..];
        forall i | 0 <= i < |rest| ensures (rest[i].dutyCycle > 0 <==> i % 2 == 0) {
          assert rest[i] == q[i + 2];
        }
        AlternatingOnRuns(rest, false);
        assert OnRuns(tail, true) == OnRuns(rest, false);
      }
    }
  }

  /** The chain, issued from a freshly constructed motor, posts one immediate callback and queues its links. */
  lemma TestChainQueues(pin: PinName)
    ensures var s := Boot(pin);
            var calls := Run(s, ChainCalls(DutyCycle(s.motor, 70).adder, TestChain));
            && calls.effects == [Post(0, None)]
            && calls.system.callbacks == 1
            && calls.system.motor.pending
            && calls.system.motor.pwm.None?
            && calls.system.motor.queue == TransactionsOf(70, TestChain)
            && Inv(calls.system)
  {
    var s := Boot(pin);
    BootInv(pin);
    var a := DutyCycle(s.motor, 70).adder;
    ChainIsCalls(a, s, TestChain);
    RunPreservesInv(s, ChainCalls(a, TestChain));
  }

  /** The pulse widths of the queued test pattern, then the terminal off level. */
  lemma TestQueueLevels()
    ensures Levels(TransactionsOf(70, TestChain)) + [Off] ==
                 [Pulse(14000), Off, Pulse(14000), Off, Pulse(14000), Off,
                  Pulse(14000), Off, Pulse(14000), Off, Pulse(14000), Off,
                  Pulse(14000), Off, Pulse(14000), Off, Pulse(14000), Off]
  {
  }

  /** The durations of the queued test pattern. */
  lemma TestQueueDurations()
    ensures Durations(TransactionsOf(70, TestChain)) ==
              [200, 100, 200, 100, 200, 100, 100, 100, 100, 100,
               100, 100, 200, 100, 200, 100, 200]
  {
  }

  /** The queued test pattern has nine "on" runs. */
  lemma TestQueueOnRuns()
    ensures OnRuns(TransactionsOf(70, TestChain), false) == 9
  {
    var q := TransactionsOf(70, TestChain);
    TestChainTransactions(70);
    AlternatingOnRuns(q, false);
  }

  /**
   The test application, end to end. The chain posts a single immediate
   callback and touches no peripheral. The 18 firings that follow drive the
   pin alternately at a 14000 us pulse (70 % of the 20000 us period) and
   low, one level per transaction in call order and a final low level;
   callbacks are re-armed with the chained durations; PWM is acquired once
   for each of the nine "on" links; and the motor ends idle.
   */
  lemma TestApplication(pin: PinName)
    ensures var s := Boot(pin);
            var calls := Run(s, ChainCalls(DutyCycle(s.motor, 70).adder, TestChain));
            var drain := Run(calls.system, Fires(18));
            && calls.effects == [Post(0, None)]
            && OutputLevels(drain.effects) ==
                 [Pulse(14000), Off, Pulse(14000), Off, Pulse(14000), Off,
                  Pulse(14000), Off, Pulse(14000), Off, Pulse(14000), Off,
                  Pulse(14000), Off, Pulse(14000), Off, Pulse(14000), Off]
            && Delays(drain.effects) ==
                 [200, 100, 200, 100, 200, 100, 100, 100, 100, 100,
                  100, 100, 200, 100, 200, 100, 200]
            && Acquires(drain.effects) == 9
            && Idle(drain.system.motor)
            && drain.system.callbacks == 0
  {
    var s := Boot(pin);
    var calls := Run(s, ChainCalls(DutyCycle(s.motor, 70).adder, TestChain));
    TestChainQueues(pin);
    TestPatternDrain(calls.system);
  }

  /** Draining the queued test pattern from any motor that holds it and has its callback pending. */
  lemma TestPatternDrain(s: System)
    requires Inv(s) && s.motor.pending && s.motor.pwm.None?
    requires s.motor.queue == TransactionsOf(70, TestChain)
    ensures var drain := Run(s, Fires(18));
            && OutputLevels(drain.effects) ==
                 [Pulse(14000), Off, Pulse(14000), Off, Pulse(14000), Off,
                  Pulse(14000), Off, Pulse(14000), Off, Pulse(14000), Off,
                  Pulse(14000), Off, Pulse(14000), Off, Pulse(14000), Off]
            && Delays(drain.effects) ==
                 [200, 100, 200, 100, 200, 100, 100, 100, 100, 100,
                  100, 100, 200, 100, 200, 100, 200]
            && Acquires(drain.effects) == 9
            && Idle(drain.system.motor)
            && drain.system.callbacks == 0
  {
    assert |s.motor.queue| + 1 == 18;
    DrainInOrder(s);
    TestQueueLevels();
    TestQueueDurations();
    TestQueueOnRuns();
  }

  /** `dutyCycle(0).on(50)` on a freshly constructed motor queues one zero-duty transaction. */
  lemma ZeroDutyQueues(pin: PinName)
    ensures var s := Boot(pin);
            var calls := Run(s, ChainCalls(DutyCycle(s.motor, 0).adder, [OnFor(50)]));
            && Inv(calls.system)
            && calls.system.motor.pending
            && calls.system.motor.queue == [Transaction(0, 50)]
  {
    var s := Boot(pin);
    BootInv(pin);
    var a := DutyCycle(s.motor, 0).adder;
    ChainIsCalls(a, s, [OnFor(50)]);
    assert TransactionsOf(0, [OnFor(50)]) == [Transaction(0, 50)];
    RunPreservesInv(s, ChainCalls(a, [OnFor(50)]));
  }

  /**
   A chain at duty cycle 0, `dutyCycle(0).on(50)`: the pin is held low for
   the transaction and again when the queue drains, and PWM is never acquired.
   */
  lemma ZeroDutyApplication(pin: PinName)
    ensures var s := Boot(pin);
            var a := DutyCycle(s.motor, 0).adder;
            var calls := Run(s, ChainCalls(a, [OnFor(50)]));
            var drain := Run(calls.system, Fires(2));
            && OutputLevels(drain.effects) == [Off, Off]
            && Delays(drain.effects) == [50]
            && Acquires(drain.effects) == 0
            && Idle(drain.system.motor)
  {
    var s := Boot(pin);
    var calls := Run(s, ChainCalls(DutyCycle(s.motor, 0).adder, [OnFor(50)]));
    ZeroDutyQueues(pin);
    DrainInOrder(calls.system);
    DrainOfPausesNeverAcquires(calls.system);
  }
}
