# Vibration motor command queue, modelled in Dafny

This project models the core of the wearable reference design's vibration
motor driver, `VibrationMotor`. The driver keeps a FIFO of transactions. Each
transaction is a duty cycle in percent and a duration in milliseconds. One
scheduler callback at a time drains the queue. Each firing applies the front
transaction to the pin:
- a non-zero duty cycle acquires PWM lazily and sets the pulse width;
- a zero duty cycle releases PWM and drives the pin low.

The firing then re-arms one callback after that transaction's duration. The
firing that finds the queue empty turns the output off and clears the handle.

The model is purely functional. The driver state is an immutable record
`Motor(pin, queue, pwm, pending)`, where:
- `pwm` is the held PWM slot, with its period and pulse width, or `None`;
- `pending` stands for a non-null `processQueueHandle`.

Each C++ member becomes a function that returns the new state plus a trace
of effects on the two collaborators. The effects are `PwmAcquire(period)`,
`SetPulse(width)`, `PwmRelease`, `PinLow`, `Post(delay, tolerance)` and
`Cancel`. The levels the pin shows are `Pulse(width)` under PWM or `Off`
when driven low, so a zero pulse width and a low pin are never conflated.
The scheduler is modelled by the number of callbacks it holds for the
motor. A post adds one, a firing consumes one, and a firing with none held
does nothing. Calls and firings are interleaved as one sequence of
events, which is how the single-threaded cooperative scheduler serialises
them.

Files:
- `motor_types.dfy` (`MotorTypes`): `uint8`/`uint32`, pins, transactions,
  `PULSE_WIDTH_UNIT` = 200, the period and pulse-width arithmetic.
- `effects.dfy` (`Effects`): the effect trace and counting/projection helpers.
- `vibration_motor.dfy` (`VibrationMotor`): constructor, `dutyCycle(percent, duration)`,
  `processQueue`, destructor.
- `vibration_adder.dfy` (`VibrationAdder`): `dutyCycle(percent)` and the fluent
  `on`/`pause` chain.
- `scheduler.dfy` (`Scheduler`): motor plus scheduler, the invariant, FIFO
  conservation, destruction.
- `drain.dfy` (`Drain`): draining with no further calls, covering order,
  termination and PWM acquisitions.
- `pulse_bound.dfy` (`PulseBound`): pulse width never exceeds the period for
  percents within 0..100.
- `scenario.dfy` (`Scenario`): the unit-test application's chained pattern, end
  to end.

Some behaviour a reader might expect is not what the code does. The model
follows the code:
- The destructor only cancels the pending callback. It neither deletes the
  PWM object nor drives the pin low. `Scheduler.DestroyLeavesPwmHeld` states
  this.
- `processQueue` re-arms after every transaction it applies, including the
  last one. It does not re-arm only when more remain. The re-arm is what holds
  the last transaction for its duration. Draining n transactions therefore
  takes n + 1 firings.
- Just after the last transaction is popped, the queue is empty while a
  callback is still pending. So "empty queue implies no pending callback" does
  not hold. The invariant that does hold is "no pending callback implies empty
  queue and no PWM held", together with "callbacks held = 1 exactly when the
  handle is set".
- The percent is a `uint8_t` that the driver never checks. The model keeps the
  0..255 range. The pulse bound is proved under the caller obligation
  `percent <= 100`.

## Model

| member | source | states |
|---|---|---|
| `MotorTypes.PulseWithinPeriodIff` | source/VibrationMotor.cpp:113-119 | the pulse width `dutyCycle * PULSE_WIDTH_UNIT` fits the period `PULSE_WIDTH_UNIT * 100` if and only if the duty cycle is at most 100 |
| `MotorTypes.DefaultTiming` | wrd-vibration-motor/VibrationMotor.h:35-39 | with the default 200 us unit the period is 20000 us, 70 % is a 14000 us pulse and 0 % a zero width |
| `VibrationMotor.Construct` | source/VibrationMotor.cpp:20-30 | a new motor has an empty queue, no PWM and no pending callback; a connected pin is driven low without PWM, and an `NC` pin is left alone |
| `VibrationMotor.Enqueue` | source/VibrationMotor.cpp:81-96 | appends exactly `(percent, duration)` behind the unchanged earlier entries; leaves pin and PWM alone; posts one immediate callback exactly when none is pending and otherwise nothing |
| `VibrationMotor.Release` | source/VibrationMotor.cpp:123-125 | deleting the PWM object emits exactly one `PwmRelease` when one is held and nothing at all otherwise |
| `VibrationMotor.ApplyDuty` | source/VibrationMotor.cpp:107-129 | a non-zero duty cycle leaves PWM held with pulse `dutyCycle * unit` and acquires it (period 100 units) only if none was held; a zero duty cycle releases a held PWM and drives the pin low; at most two effects, ending with the `SetPulse` for a non-zero duty cycle (after the acquisition, when there is one) and with `PinLow` for zero (after the release, when there is one); exactly one output level is shown: `Pulse(dutyCycle * unit)` for a non-zero duty cycle, `Off` (a `PinLow`, never a `SetPulse`) for zero |
| `VibrationMotor.ProcessQueue` | source/VibrationMotor.cpp:98-149 | on a non-empty queue: removes exactly the front, shows its level, releases PWM exactly when the front is a pause and PWM is held, and re-arms once with its duration and tolerance 1 as the last effect; on an empty queue: releases PWM exactly when held, ends by driving the pin low (`Off`), clears the handle and arms nothing |
| `VibrationMotor.ProcessQueueOrder` | source/VibrationMotor.cpp:107-148 | a firing's effects come in the driver's order: PWM is acquired with the period of 100 units before the pulse is set, a held PWM is released once before the pin is driven low, the front's level is set just before the re-arm, and an empty queue gives at most one release and then the pin low |
| `VibrationMotor.Destroy` | source/VibrationMotor.cpp:32-38 | the destructor cancels the callback exactly when one is pending and does nothing else |
| `VibrationAdder.DutyCycle` | source/VibrationMotor.cpp:74-79 | `dutyCycle(percent)` returns an adder bound to `percent` and leaves the motor and its queue untouched |
| `VibrationAdder.On` | source/VibrationMotor.cpp:58-64 | `on(d)` queues `(boundDuty, d)`, leaves pin and PWM untouched, posts an immediate callback only if none is pending, and hands back the same adder |
| `VibrationAdder.Pause` | source/VibrationMotor.cpp:66-72 | `pause(d)` queues `(0, d)`, leaves pin and PWM untouched, posts an immediate callback only if none is pending, and hands back the same adder |
| `VibrationAdder.Chain` | wrd-vibration-motor/VibrationMotor.h:64-77 | a chain of `on`/`pause` links keeps the same adder and duty throughout, appends its transactions in call order behind the existing queue, and posts at most one callback (only if none was pending) |
| `Scheduler.BootInv` | source/VibrationMotor.cpp:20-30 | a freshly constructed motor satisfies the running invariant and is idle |
| `Scheduler.DeliverPreservesInv` | source/VibrationMotor.cpp:81-148 | every call and every firing keeps "callbacks held = 1 if the handle is set, else 0", "no handle implies empty queue and no PWM", and the PWM period |
| `Scheduler.RunPreservesInv` | source/VibrationMotor.cpp:81-148 | the invariant and the pin survive any sequence of calls and firings |
| `Scheduler.AtMostOneCallback` | wrd-vibration-motor/VibrationMotor.h:128-132 | from construction, under any interleaving, at most one callback is held, and a non-empty queue always has one pending |
| `Scheduler.FifoStep` | source/VibrationMotor.cpp:88-105 | one event applies at most the front transaction and queues at most one at the back, so nothing is lost or reordered |
| `Scheduler.FifoConservation` | wrd-vibration-motor/VibrationMotor.h:112-118 | under any interleaving of calls and firings, the transactions applied and then those still queued equal the earlier queue and then all requested transactions, in call order |
| `Scheduler.EnqueueWhilePendingPostsNothing` | source/VibrationMotor.cpp:90-95 | a call made while a callback is pending posts nothing, and exactly one callback stays held |
| `Scheduler.EnqueueWhenIdlePostsOnce` | source/VibrationMotor.cpp:90-95 | a call on an idle motor posts exactly one immediate callback |
| `Scheduler.ChainIsCalls` | source/VibrationMotor.cpp:58-72 | a fluent chain issued with no firing in between is the same as the corresponding sequence of `dutyCycle(percent, duration)` calls |
| `Scheduler.CallsThenDestroyTouchNoPeripheral` | source/VibrationMotor.cpp:32-96 | calls alone perform scheduling effects only (posts, no output level, no PWM acquisition or release), and destroying the motor afterwards cancels, and only cancels, every callback the scheduler holds |
| `Scheduler.DestroyCancelsAll` | source/VibrationMotor.cpp:32-38 | destruction cancels exactly the callbacks held and touches no peripheral |
| `Scheduler.DestroyLeavesPwmHeld` | source/VibrationMotor.cpp:32-38 | destroyed while PWM is held, the motor only cancels and releases no PWM |
| `Drain.FirePending` | source/VibrationMotor.cpp:98-148 | a firing with a callback pending keeps the invariant, re-arms only for a non-empty queue, and shows the front's level (or the off level when the queue is empty) |
| `Drain.DrainInOrder` | source/VibrationMotor.cpp:98-148 | with no further calls, `|queue| + 1` firings show every queued level in queue order and then `Off`, re-arm with the queued durations in order, acquire PWM once per "on" run, and end idle with PWM released and no callback held |
| `Drain.DrainNotEarly` | source/VibrationMotor.cpp:131-135 | after k <= `|queue|` firings the callback is still pending and exactly the first k transactions have been removed |
| `Drain.IdleStaysIdle` | source/VibrationMotor.cpp:137-148 | once drained, further firings find no callback and change nothing |
| `Drain.DrainTakesQueuePlusOneFirings` | source/VibrationMotor.cpp:98-148 | with no further calls, a queue of n transactions is still pending after n firings, is idle after n + 1, and stays idle |
| `Drain.DrainOfPausesNeverAcquires` | source/VibrationMotor.cpp:121-129 | draining a queue of zero duty cycles never acquires PWM, whether or not PWM is held when the drain starts |
| `PulseBound.DeliverBounded` | source/VibrationMotor.cpp:108-120 | with valid percents, one event keeps every queued duty within 0..100 and a held pulse within its period, and shows no level above the period |
| `PulseBound.RunBounded` | source/VibrationMotor.cpp:108-120 | the same bound survives any sequence of events whose calls pass percents within 0..100 |
| `PulseBound.PulseNeverExceedsPeriod` | source/VibrationMotor.cpp:108-120 | from construction, if every call passes a percent within 0..100, no pulse width set ever exceeds the period |
| `PulseBound.OverrangePercentPassesThrough` | source/VibrationMotor.cpp:81-88 | the driver does not validate the percent: a call above 100 followed by one firing sets a pulse longer than the period |
| `Scenario.TestChainQueues` | test/unit/main.cpp:29-38 | the test chain, issued on a new motor, posts one immediate callback and queues its 17 links in order |
| `Scenario.TestPatternDrain` | test/unit/main.cpp:29-38 | draining the test pattern shows a 14000 us pulse and `Off` alternately, ending with `Off`; it re-arms with the chained durations in order, acquires PWM nine times and ends idle |
| `Scenario.TestApplication` | test/unit/main.cpp:29-38 | the test application end to end: one immediate post, then 18 firings that alternate a 70 % pulse and low, acquire PWM once per "on" link, and end idle |
| `Scenario.ZeroDutyApplication` | source/VibrationMotor.cpp:121-129 | `dutyCycle(0).on(50)` holds the pin low for 50 ms and then idles, and PWM is never acquired |

## Left out

- The `PwmOut` and `DigitalOut` drivers are foreign code. They appear only as
  the abstract effects `PwmAcquire`, `SetPulse`, `PwmRelease` and `PinLow`.
  Their electrical behaviour and any acquisition failure are not modelled.
- The minar scheduler's real time, tolerance semantics, handle values and
  millisecond conversion are left out. A post is a `Post(delay, tolerance)`
  effect plus a held-callback count. A firing is an explicit `Fire` event.
  The model therefore says nothing about how long a level is actually held.
- Only the default `PULSE_WIDTH_UNIT` of 200 us is modelled. Build
  configuration macros and the `DEFAULT_PIN` default are left out. The pin is
  kept only as fixed at construction, and `NC` only matters to the
  constructor.
- Heap allocation of the PWM object and the copy constructor and assignment
  of `VibrationAdder` are left out. The adder's owner pointer is implicit: the
  adder functions take the motor they act on. The static global instance of
  the test application is also left out.
- Concurrency is left out. Every call and firing is one atomic transition, as
  the single callback loop guarantees.
- The destructor's missing PWM release is modelled as written. The model
  never claims PWM is released on destruction.
