# Stepper-motor clock firmware, modelled in Dafny

The firmware in `main.c` drives two stepper motors from an 8-bit AVR
microcontroller: a clock-hand motor and a pitch motor. Each motor has four
coil pins, arranged as two coil pairs. `stepper_dir` derives the active pin
table from the fixed coil map according to the sign of the pending-step
counter. `stepper_step` energises the pins in a four-phase pattern.
`stepper_disable` drives every pin low. The main loop runs one tick after
another. Each tick services both motors, moves their counters toward zero,
and idles for the rest of a fixed tick budget.

The model has three modules:

- `Gpio` (gpio.dfy) covers pins, the two 8-bit port registers and the
  bit-level write of the `gpio_set` macro. The class `Ports` holds PORTA and
  PORTB as `bv8` fields. It also keeps a ghost log of every pin write in
  hardware order. Its invariant says the registers always equal the initial
  registers with the logged writes applied (`Apply`). `LevelAfter` says the
  last write to a pin decides its level.
- `Stepper` (stepper.dfy) covers the coil map and the active configuration.
  The class `Stepper` holds both as `array2<Pin>`, as `stepper_t` does. It
  also covers the direction selector, the phase sequencer and the disable
  routine. Each method is proved against a specification function:
  `Directed`, `StepWrites` and `DisableWrites`. Lemmas about those
  functions give the write order and the final pin levels.
- `Scheduler` (scheduler.dfy) covers the signed 8-bit step counters, one
  tick of the main loop (`Controller.Tick`), a bounded prefix of the endless
  loop (`Controller.RunTicks`) and the tick budget.

Phase numbers are not stored in the log. `StepWritesByPhase` states that
write `2 * i + j` of a step belongs to phase `i`.

Pin numbers are bit positions 0..7 (`BitIndex`), the only numbers the
firmware uses.

Points of the code that the model keeps as written:

- Every tick sets `step_deltas[0]` to 1 before servicing the motors
  (main.c:153). So the hand motor steps every tick, and both counters move
  toward zero in the same tick. With the second counter at 3 and a 1000 ms
  budget, the first three ticks step both motors (24 ms) and idle 976 ms.
  Only the fourth tick idles 988 ms (`ThreePendingSteps`).
- The idle wait is `budget - elapsed` converted to `unsigned long`
  (main.c:168). A negative difference wraps modulo 2^32 and is not
  clamped to zero (`UnsignedLong`, `TickWait`).
- Nothing in the firmware ever sets `step_deltas[1]`. Run as written, the
  pitch motor never steps and keeps its zero-initialised configuration
  (`Firmware`).

## Model

| member | source | states |
|---|---|---|
| Gpio.Mask | main.c:36-37 | the table entry for bit `n` is the mask `1 << n` |
| Gpio.SetBit | main.c:35-38 | under the mask of bit `n` the result is all ones when `state` is set and zero otherwise; outside that mask the register is unchanged |
| Gpio.SetBitAt | main.c:35-38 | bit by bit: bit `n` reads the requested state, and every other bit keeps its old value |
| Gpio.DrivenLevel | main.c:35-38 | after one pin write, the written pin reads the written level and every other pin on either port keeps its level |
| Gpio.LevelAfter | main.c:35-38 | after a sequence of writes, a pin reads its last written level, or its old level if nothing wrote it |
| Gpio.ApplyAppend | main.c:35-38 | applying two batches of writes one after the other is the same as applying their concatenation |
| Gpio.LastWriteAppend | main.c:35-38 | the last write to a pin in `ws + vs` comes from `vs` when `vs` writes it, and from `ws` otherwise |
| Gpio.Ports.constructor | main.c:35-38 | the registers start cleared, with an empty log |
| Gpio.Ports.Set | main.c:35-38 | `gpio_set` on the pin's port: the registers become the old registers with that one pin driven to `state != 0`; the write is appended to the log, and the registers still equal the initial ones with the log applied |
| Stepper.DirectedPermutes | main.c:63-79 | direction selection holds the same four pins as the coil map; entry `[i][j]` is coil-map entry `[1-i][j]` for `dir < 0` and `[i][j]` otherwise |
| Stepper.DirectedBySign | main.c:65-78 | only the sign of `dir` matters, and a non-negative direction restores the forward mapping |
| Stepper.Stepper.constructor | main.c:29-32 | the coil map is the given table; the active configuration is zero-initialised |
| Stepper.Stepper.SetDirection | main.c:63-79 | the active configuration becomes `Directed(coil map, dir)`, whatever it was before, and the coil map is unchanged |
| Stepper.Stepper.DrivePair | main.c:94-107 | the inner loop appends exactly the two writes, terminal 0 then terminal 1, of coil pair `k` of the active configuration |
| Stepper.Stepper.Step | main.c:82-114 | returns 12 ms (4 × 3 ms); the ports receive exactly `StepWrites` of the active configuration, in order; only the ports change |
| Stepper.StepWritesInOrder | main.c:85-106 | a step makes eight writes: pair0 ← (1,0), pair1 ← (0,1), pair0 ← (0,1), pair1 ← (1,0) |
| Stepper.StepWritesByPhase | main.c:92-107 | write `2*i+j` drives terminal `j` of coil pair `i % 2` to `signals[i][j]` |
| Stepper.ReverseStepWrites | main.c:63-107 | under `dir < 0` the same level pattern is written to the exchanged physical coil pairs |
| Stepper.StepOutcome | main.c:92-107 | after a step each configured pin reads the level of its last write, and every pin outside the configuration keeps its level |
| Stepper.StepFinalLevels | main.c:92-107 | with four distinct pins, pair0 reads (0,1) and pair1 reads (1,0) after a step |
| Stepper.ReverseStepFinalLevels | main.c:63-107 | under `dir < 0`, coil pair 1 reads (0,1) and coil pair 0 reads (1,0) after a step |
| Stepper.Stepper.Disable | main.c:41-60 | the ports receive exactly `DisableWrites` of the active configuration; only the ports change |
| Stepper.DisableOutcome | main.c:41-60 | after disable every configured pin reads 0, whatever the prior levels; every other pin keeps its level |
| Scheduler.TowardZero | main.c:165-166 | zero stays zero; otherwise the magnitude drops by exactly one and a nonzero result keeps the sign |
| Scheduler.ServicedIffPending | main.c:159-163 | a motor is stepped (eight writes) exactly when its counter is nonzero |
| Scheduler.TickElapsed | main.c:153-163 | a tick's stepping time is 12 ms per stepped motor; the first motor always steps, so the time is 12 or 24 ms |
| Scheduler.UnsignedLong | main.c:168 | the conversion to `unsigned long` is below 2^32, is the identity on non-negative values and adds 2^32 to small negative ones |
| Scheduler.TickWait | main.c:168 | a budget of at least 24 ms gives the exact wait `budget - elapsed`; a smaller non-negative budget wraps to a wait near 2^32 |
| Scheduler.Controller.constructor | main.c:116-135 | the hand motor is index 0 and the pitch motor index 1, each with fresh, zero-initialised active configurations; the counters are zero, and the ports are cleared |
| Scheduler.Controller.Serve | main.c:159-166 | motor `i` steps in its counter's direction iff the counter is nonzero; its counter moves one unit toward zero; the other motor and counter are untouched |
| Scheduler.Controller.ServeAll | main.c:157-167 | motor 1 is serviced before motor 0: the log gains motor 1's writes followed by motor 0's, and both counters move toward zero |
| Scheduler.Controller.Tick | main.c:153-168 | counter 0 ends at 0 and counter 1 at `TowardZero` of its old value; elapsed is `TickElapsed`; wait is `budget - elapsed` modulo 2^32; the first motor is forward-configured; the ports receive motor 1's writes then a forward step of motor 0 |
| Scheduler.DecayedClosedForm | main.c:151-167 | after `n` ticks the second counter is `d - n` (or `d + n` if negative) until it reaches zero, and zero from then on |
| Scheduler.DecayedPending | main.c:159-166 | the second motor still has steps pending at tick `k` iff `abs(d) > k` |
| Scheduler.TotalElapsedClosedForm | main.c:151-167 | the stepping time of `n` ticks is `12n + 12·min(abs(d), n)` |
| Scheduler.ThreePendingSteps | main.c:151-168 | with the second counter at 3 and a 1000 ms budget: the wait is 976 ms for three ticks, then 988 ms; 84 ms of stepping in four ticks |
| Scheduler.DecayedSign | main.c:159-166 | a nonzero second counter keeps the sign it started with |
| Scheduler.TickTimeAddsUp | main.c:151-168 | when the budget covers the 24 ms longest tick, stepping plus idle time of `n` ticks is exactly `n` budgets |
| Scheduler.RevolutionTime | main.c:151-168 | 200 ticks take exactly half a day under the budget computed in `long`, and 200 × 19392 ms under the budget as the code computes it |
| Scheduler.TicksWritesLength | main.c:151-167 | `n` ticks make 8 writes per hand step and 8 per pending step of the second motor: `8n + 8·min(abs(d), n)` |
| Scheduler.TicksHandLevels | main.c:151-167 | after at least one tick the hand motor's distinct pins read the final pattern of a forward step, whatever the ports held before |
| Scheduler.Controller.TickAt | main.c:153-168 | tick `k` of a run: carries the run's state after `k` ticks to the state after `k + 1` ticks; its elapsed and wait are those of the counter's value at tick `k` |
| Scheduler.Controller.RunLoop | main.c:151-173 | `n` iterations of the main loop keep the run's state; stepping and idle times are `TotalElapsed` and `TotalIdle` |
| Scheduler.Controller.RunTicks | main.c:151-173 | after `n > 0` ticks counter 0 is 0 and the hand motor is forward-configured; counter 1 is `Decayed(d, n)`; the second motor is configured by the sign of its initial counter once it has stepped, and is unchanged otherwise; stepping and idle times are `TotalElapsed` and `TotalIdle` under any budget, and add up to `n` budgets when the budget is at least 24 ms; the ports receive `TicksWrites`, tick by tick |
| Scheduler.Firmware | main.c:133-173 | `main` as written, run for `n` ticks under the 19392 ms budget: both counters stay 0, the pitch motor keeps its zero-initialised configuration, stepping is 12 ms per tick, stepping plus idle is `n × 19392`, and after a tick the hand motor's pins read the final pattern of a forward step |
| Scheduler.WrapInt16 | main.c:168 | two's-complement reduction to 16 bits: the result is in range, congruent to the input and equal to it when it fits |
| Scheduler.BudgetAsWrittenOverflows | main.c:168 | the budget as computed in 16-bit `int` is 19392 ms, and 200 such ticks do not make half a day |
| Scheduler.TickBudget | main.c:168 | the budget in `long` arithmetic: 200 ticks make exactly half a day, and it covers the 24 ms maximum stepping time |
| Scheduler.FirmwareCoilMapsDistinct | main.c:118-130 | each motor's coil map uses four distinct pins |

## Left out

- The `_delay_ms` busy-waits (main.c:109, 170-173) are not modelled as real delays. Time appears only as the millisecond counts that are returned and accumulated.
- The DDR pin-direction setup loop (main.c:139-148) is not modelled. It is one-time hardware configuration that does not affect the port values.
- The `F_CPU` and `math.h` headers and the unused counter `t` are not modelled.
- The endless main loop (main.c:151) is covered only by its first `n` iterations (`Controller.RunTicks`, `Firmware`). The unreachable `PORTA = 0; PORTB = 0;` after it (main.c:176-177) is not modelled.
- The `volatile` qualifier on `step_deltas` (main.c:116) is not modelled. Nothing in the firmware writes the counters concurrently.
- `pin_t.num` is an `int` in the code. The model restricts it to 0..7, the numbers the firmware uses. With 16-bit `int` on AVR, numbers 8..14 make `gpio_set` leave the 8-bit register unchanged, because the compound assignment truncates to 8 bits. Numbers of 15 or more, and negative numbers, are undefined in C.
- Scheduler.Controller.Tick: the budget is a 32-bit parameter, and `budget - elapsed` is computed without modelling signed `long` overflow when the budget is within 24 of the most negative `long`.
- `stepper_disable` has no caller in the firmware. It is modelled on its own (`Stepper.Stepper.Disable`), and no tick uses it.

## Findings

| source | as written | input that shows it | evidently intended | confidence | as-written member | corrected member |
|---|---|---|---|---|---|---|
| main.c:168 | `SEC_TO_WAIT * 1000` multiplies two `int` constants, and `int` is 16 bits on AVR, so the product 216000 wraps to 19392 before it is widened to `long` | the constant expression itself: 216 × 1000 = 216000 ≥ 2^15 | a tick budget of 216000 ms, so that 200 ticks (one revolution) take 12 hours | high (the wrap is the usual avr-gcc result of this signed overflow), not executed | Scheduler.BudgetAsWrittenOverflows | Scheduler.TickBudget |
