/**
 The fluent helper `VibrationAdder`: a value bound to one duty cycle whose
 `on(d)` and `pause(d)` forward to the motor's queueing call and hand back
 the same adder, so chained calls share the bound duty cycle.
 */
module VibrationAdder {
  import opened MotorTypes
  import opened Effects
  import opened VibrationMotor

  /** The adder's state: the duty cycle it was created with (its owner is the motor it is applied to). */
  datatype Adder = Adder(dutyCycle: uint8)

  /** The outcome of an adder call: the adder handed back, and the motor's step. */
  datatype AdderStep = AdderStep(adder: Adder, motor: Motor, effects: seq<Effect>)

  /** One link of a fluent chain. */
  datatype ChainOp = OnFor(duration: uint32) | PauseFor(duration: uint32)

  /** `VibrationMotor::dutyCycle(percent)`: returns an adder and leaves the motor untouched. */
  function DutyCycle(m: Motor, percent: uint8): (r: AdderStep)
    ensures r.motor == m && r.effects == []
    ensures r.adder.dutyCycle == percent
  {
    AdderStep(Adder(percent), m, [])
  }

  /** `on(duration)`: queues the bound duty cycle for `duration` ms. */
  function On(a: Adder, m: Motor, duration: uint32): (r: AdderStep)
    ensures r.adder == a
    ensures r.motor.queue == m.queue + [Transaction(a.dutyCycle, duration)]
    ensures r.motor.pending
    ensures r.motor.pin == m.pin && r.motor.pwm == m.pwm
    ensures r.effects == if m.pending then [] else [Post(0, None)]
  {
    var s := Enqueue(m, a.dutyCycle, duration);
    AdderStep(a, s.motor, s.effects)
  }

  /** `pause(duration)`: queues a zero duty cycle for `duration` ms. */
  function Pause(a: Adder, m: Motor, duration: uint32): (r: AdderStep)
    ensures r.adder == a
    ensures r.motor.queue == m.queue + [Transaction(0, duration)]
    ensures r.motor.pending
    ensures r.motor.pin == m.pin && r.motor.pwm == m.pwm
    ensures r.effects == if m.pending then [] else [Post(0, None)]
  {
    var s := Enqueue(m, 0, duration);
    AdderStep(a, s.motor, s.effects)
  }

  /** The transaction one chain link asks for under duty cycle `duty`. */
  function TransactionOf(duty: uint8, op: ChainOp): Transaction
  {
    match op
    case OnFor(d) => Transaction(duty, d)
    case PauseFor(d) => Transaction(0, d)
  }

  /** The transactions a whole chain asks for, in call order. */
  function TransactionsOf(duty: uint8, ops: seq<ChainOp>): (ts: seq<Transaction>)
    ensures |ts| == |ops|
  {
    seq(|ops|, i requires 0 <= i < |ops| => TransactionOf(duty, ops[i]))
  }

  /** One chain link applied to the adder. */
  function Apply(a: Adder, m: Motor, op: ChainOp): AdderStep
  {
    match op
    case OnFor(d) => On(a, m, d)
    case PauseFor(d) => Pause(a, m, d)
  }

  /**
   A whole chain `a.on(d1).pause(d2)...`: every link uses the same adder,
   the transactions are appended in call order behind what was queued, and
   at most one callback is posted, only if none was pending.
   */
  function Chain(a: Adder, m: Motor, ops: seq<ChainOp>): (r: AdderStep)
    ensures r.adder == a
    ensures r.motor.queue == m.queue + TransactionsOf(a.dutyCycle, ops)
    ensures r.motor.pin == m.pin && r.motor.pwm == m.pwm
    ensures r.motor.pending == (m.pending || ops != [])
    ensures r.effects == if !m.pending && ops != [] then [Post(0, None)] else []
    decreases |ops|
  {
    if ops == [] then
      AdderStep(a, m, [])
    else
      var first := Apply(a, m, ops[0]);
      var rest := Chain(first.adder, first.motor, ops[1..]);
      assert TransactionsOf(a.dutyCycle, ops) == [TransactionOf(a.dutyCycle, ops[0])] + TransactionsOf(a.dutyCycle, ops[1..]);
      AdderStep(rest.adder, rest.motor, first.effects + rest.effects)
  }
}
