/** The control loop: a signed pending-step counter per motor, one tick that
    services every motor with pending steps and decays its counter, and the
    idle wait that fills the rest of the tick budget. */
module Scheduler {
  import opened Gpio
  import opened Stepper

  /** The range of the firmware's `int8_t` step counters. */
  type Int8 = x: int | -0x80 <= x < 0x80

  /** The range of a 32-bit `long`, the type the loop accounts time in. */
  type Int32 = x: int | -0x8000_0000 <= x < 0x8000_0000

  /** The firmware's timing constants. */
  const SecPerHalfDay := 12 * 3600
  const StepsPerRev := 200
  const SecToWait := 216

  /** Time one physical step takes: four phases of `PhaseMs` each. */
  const StepMs := 4 * PhaseMs

  /** The most stepping time one tick can spend: both motors step. */
  const MaxTickMs := 2 * StepMs

  function Abs(x: int): nat {
    if x < 0 then -x else x
  }

  /** The counter update of the loop: one unit toward zero. */
  function TowardZero(d: Int8): (r: Int8)
    ensures d == 0 ==> r == 0
    ensures d != 0 ==> Abs(r) == Abs(d) - 1
    ensures r != 0 ==> (r < 0) == (d < 0)
  {
    if d > 0 then d - 1 else if d < 0 then d + 1 else d
  }

  /** Conversion of a `long` difference to `unsigned long`: modulo 2^32. */
  function UnsignedLong(x: int): (r: nat)
    ensures r < 0x1_0000_0000
    ensures 0 <= x < 0x1_0000_0000 ==> r == x
    ensures -0x1_0000_0000 <= x < 0 ==> r == x + 0x1_0000_0000
  {
    x % 0x1_0000_0000
  }

  /** The pin writes of servicing one motor: a step in the direction of the
      counter's sign when steps are pending, nothing otherwise. */
  function MotorWrites(pins: Coils, d: int): seq<PinWrite> {
    if d != 0 then StepWrites(Directed(pins, d)) else []
  }

  /** The stepping time of servicing one motor. */
  function MotorTime(d: int): nat {
    if d != 0 then StepMs else 0
  }

  /** A motor's active configuration after it is serviced. */
  function CfgAfter(pins: Coils, d: int, prev: Coils): Coils {
    if d != 0 then Directed(pins, d) else prev
  }

  /** The stepping time of one tick whose second counter is `d1`: the first
      motor is always stepped, the second only when it has steps pending. */
  function TickElapsed(d1: Int8): (r: nat)
    ensures r == StepMs * (if d1 != 0 then 2 else 1)
    ensures StepMs <= r <= MaxTickMs
  {
    MotorTime(d1) + MotorTime(1)
  }

  /** A motor is stepped exactly when its counter is nonzero, and a step is
      eight pin writes. */
  lemma ServicedIffPending(pins: Coils, d: int)
    ensures (MotorWrites(pins, d) == []) == (d == 0)
    ensures d != 0 ==> |MotorWrites(pins, d)| == 8
  {
    if d != 0 {
      StepWritesInOrder(Directed(pins, d));
    }
  }

  /** The idle wait of a tick does not underflow when the budget covers the
      longest possible stepping time; it wraps to a huge value when not. */
  lemma TickWait(budget: Int32, d1: Int8)
    ensures budget >= MaxTickMs ==> UnsignedLong(budget - TickElapsed(d1)) == budget - TickElapsed(d1)
    ensures 0 <= budget < TickElapsed(d1) ==> UnsignedLong(budget - TickElapsed(d1)) >= 0x1_0000_0000 - MaxTickMs
  {
  }

  /** The second counter after `n` ticks. */
  function Decayed(d: Int8, n: nat): Int8 {
    if n == 0 then d else TowardZero(Decayed(d, n - 1))
  }

  /** A counter decays by one per tick until it reaches zero, then stays there. */
  lemma {:induction false} DecayedClosedForm(d: Int8, n: nat)
    ensures Decayed(d, n) as int == if d >= 0 then (if d > n then d as int - n else 0)
                                    else (if -(d as int) > n then d as int + n else 0)
  {
    if n > 0 {
      DecayedClosedForm(d, n - 1);
    }
  }

  /** The second motor still has steps pending at tick `k` exactly when its
      initial counter exceeds `k` in magnitude. */
  lemma DecayedPending(d: Int8, k: nat)
    ensures (Decayed(d, k) != 0) == (Abs(d) > k)
  {
    DecayedClosedForm(d, k);
  }

  /** The stepping time of the first `n` ticks. */
  function TotalElapsed(d: Int8, n: nat): nat {
    if n == 0 then 0 else TotalElapsed(d, n - 1) + TickElapsed(Decayed(d, n - 1))
  }

  /** Over `n` ticks the first motor steps every tick and the second steps
      once per pending step, as long as steps remain. */
  lemma {:induction false} TotalElapsedClosedForm(d: Int8, n: nat)
    ensures TotalElapsed(d, n) == StepMs * n + StepMs * (if Abs(d) < n then Abs(d) else n)
  {
    if n > 0 {
      TotalElapsedClosedForm(d, n - 1);
      DecayedPending(d, n - 1);
    }
  }

  /** A nonzero second counter keeps the sign it started with, so every
      direction selection it causes is the same. */
  lemma DecayedSign(d: Int8, k: nat)
    ensures Decayed(d, k) != 0 ==> (Decayed(d, k) < 0) == (d < 0)
  {
    DecayedClosedForm(d, k);
  }

  /** The idle time of the first `n` ticks under `budget`. */
  function TotalIdle(d: Int8, n: nat, budget: Int32): int {
    if n == 0 then 0
    else TotalIdle(d, n - 1, budget) + UnsignedLong(budget - TickElapsed(Decayed(d, n - 1)))
  }

  /** When the budget covers the longest tick, stepping and idle time of `n`
      ticks add up to exactly `n` budgets. */
  lemma {:induction false} TickTimeAddsUp(d: Int8, n: nat, budget: Int32)
    requires budget >= MaxTickMs
    ensures TotalElapsed(d, n) + TotalIdle(d, n, budget) == n * budget
  {
    if n > 0 {
      TickTimeAddsUp(d, n - 1, budget);
      TickWait(budget, Decayed(d, n - 1));
      assert n * budget == (n - 1) * budget + budget;
    }
  }

  /** One revolution of `StepsPerRev` ticks takes half a day under the budget
      computed in `long`, and about 65 minutes under the budget as the
      firmware computes it. */
  lemma RevolutionTime(d: Int8)
    ensures TotalElapsed(d, StepsPerRev) + TotalIdle(d, StepsPerRev, TickBudget()) == SecPerHalfDay * 1000
    ensures TotalElapsed(d, StepsPerRev) + TotalIdle(d, StepsPerRev, BudgetAsWritten()) == StepsPerRev * 19392
  {
    TickTimeAddsUp(d, StepsPerRev, TickBudget());
    BudgetAsWrittenOverflows();
    TickTimeAddsUp(d, StepsPerRev, BudgetAsWritten());
  }

  /** The pin writes of the first `n` ticks: in each tick, the second motor's
      writes at its counter's value at that tick, then a forward step of the
      hand motor. */
  function TicksWrites(hand: Coils, other: Coils, d: Int8, n: nat): seq<PinWrite> {
    if n == 0 then []
    else TicksWrites(hand, other, d, n - 1) + MotorWrites(other, Decayed(d, n - 1)) + StepWrites(hand)
  }

  /** `n` ticks make eight writes per hand step and eight per pending step
      of the second motor. */
  lemma {:induction false} TicksWritesLength(hand: Coils, other: Coils, d: Int8, n: nat)
    ensures |TicksWrites(hand, other, d, n)| == 8 * n + 8 * (if Abs(d) < n then Abs(d) else n)
  {
    if n > 0 {
      TicksWritesLength(hand, other, d, n - 1);
      DecayedPending(d, n - 1);
      ServicedIffPending(other, Decayed(d, n - 1));
      StepWritesInOrder(hand);
    }
  }

  /** After at least one tick the hand motor's pins, when distinct, read the
      final pattern of a forward step, whatever the ports held before and
      whatever pins the second motor shares with it. */
  lemma TicksHandLevels(r: Registers, hand: Coils, other: Coils, d: Int8, n: nat)
    requires n > 0 && Distinct(hand)
    ensures var r' := Apply(r, TicksWrites(hand, other, d, n));
      !Level(r', hand.pair0.t0) && Level(r', hand.pair0.t1) &&
      Level(r', hand.pair1.t0) && !Level(r', hand.pair1.t1)
  {
    var prefix := TicksWrites(hand, other, d, n - 1) + MotorWrites(other, Decayed(d, n - 1));
    ApplyAppend(r, prefix, StepWrites(hand));
    StepFinalLevels(Apply(r, prefix), hand);
  }

  /** A second counter of 3 under a 1000 ms budget: three ticks of 24 ms
      stepping and 976 ms idle, then the counter is 0 and the fourth tick
      steps only the first motor, idling 988 ms. */
  lemma ThreePendingSteps()
    ensures Decayed(3, 1) == 2 && Decayed(3, 3) == 0
    ensures TickElapsed(Decayed(3, 0)) == 24 && UnsignedLong(1000 - TickElapsed(Decayed(3, 0))) == 976
    ensures TickElapsed(Decayed(3, 3)) == 12 && UnsignedLong(1000 - TickElapsed(Decayed(3, 3))) == 988
    ensures TotalElapsed(3, 4) == 84
  {
    DecayedClosedForm(3, 1);
    DecayedClosedForm(3, 2);
    DecayedClosedForm(3, 3);
    TotalElapsedClosedForm(3, 4);
  }

  /** Two's complement wrap-around to 16 bits, the width of `int` on the
      8-bit AVR target. */
  function WrapInt16(x: int): (r: int)
    ensures -0x8000 <= r < 0x8000
    ensures (x - r) % 0x1_0000 == 0
    ensures -0x8000 <= x < 0x8000 ==> r == x
  {
    (x + 0x8000) % 0x1_0000 - 0x8000
  }

  /** The tick budget as the firmware computes it: `SEC_TO_WAIT * 1000`,
      both operands `int`, so the product is taken in 16 bits. */
  function BudgetAsWritten(): Int32 {
    WrapInt16(SecToWait * 1000)
  }

  /** The product overflows: the budget is 19392 ms rather than 216 s, and
      200 ticks take about 65 minutes instead of half a day. */
  lemma BudgetAsWrittenOverflows()
    ensures BudgetAsWritten() == 19392
    ensures BudgetAsWritten() * StepsPerRev != SecPerHalfDay * 1000
  {
  }

  /** The tick budget computed in `long` arithmetic: one revolution of
      `StepsPerRev` ticks lasts exactly half a day, and the budget covers the
      longest stepping time of a tick. */
  function TickBudget(): (r: Int32)
    ensures r * StepsPerRev == SecPerHalfDay * 1000
    ensures r >= MaxTickMs
  {
    SecToWait * 1000
  }

  /** The coil map of the clock-hand motor. */
  const HandPins := Coils(Pair(Pin(PortA, 3), Pin(PortA, 2)), Pair(Pin(PortA, 1), Pin(PortA, 0)))

  /** The coil map of the pitch motor. */
  const PitchPins := Coils(Pair(Pin(PortB, 0), Pin(PortB, 1)), Pair(Pin(PortB, 2), Pin(PortA, 7)))

  /** Both motors of the firmware use four distinct pins, so the final-level
      facts of a step apply to them. */
  lemma FirmwareCoilMapsDistinct()
    ensures Distinct(HandPins) && Distinct(PitchPins)
  {
  }

  /** The firmware's process-wide state: its two motors in the order the loop
      indexes them, their step counters and the output ports. */
  class Controller {
    const motors: seq<Stepper>
    const deltas: array<Int8>
    const io: Ports

    ghost predicate Valid()
      reads io
    {
      io.Valid() && |motors| == 2 && deltas.Length == 2 &&
      motors[0].Valid() && motors[1].Valid() &&
      motors[0].cfg != motors[1].cfg &&
      motors[0].coilPins != motors[1].cfg && motors[1].coilPins != motors[0].cfg
    }

    /** The firmware's two motors, hand first; counters cleared and ports
        reset. */
    constructor ()
      ensures Valid() && fresh(deltas) && fresh(io)
      ensures fresh(motors[0].cfg) && fresh(motors[1].cfg)
      ensures motors[0].Pins() == HandPins && motors[1].Pins() == PitchPins
      ensures motors[0].Cfg() == Unset && motors[1].Cfg() == Unset
      ensures deltas[..] == [0, 0]
      ensures io.State() == Registers(0, 0) && io.log == []
    {
      var hand := new Stepper(HandPins);
      var pitch := new Stepper(PitchPins);
      motors := [hand, pitch];
      deltas := new Int8[2](_ => 0);
      io := new Ports();
    }

    /** Service motor `i`: step it in the direction of its counter's sign
        when the counter is nonzero, then move the counter one unit toward
        zero. The other motor and its counter are left alone. */
    method Serve(i: nat) returns (elapsed: int)
      requires Valid() && i < 2
      modifies deltas, motors[i].cfg, io
      ensures Valid() && io.initial == old(io.initial)
      ensures deltas[i] == TowardZero(old(deltas[i])) && deltas[1 - i] == old(deltas[1 - i])
      ensures elapsed == MotorTime(old(deltas[i]))
      ensures motors[i].Cfg() == CfgAfter(motors[i].Pins(), old(deltas[i]), old(motors[i].Cfg()))
      ensures motors[1 - i].Cfg() == old(motors[1 - i].Cfg())
      ensures io.log == old(io.log) + MotorWrites(motors[i].Pins(), old(deltas[i]))
    {
      var m, d := motors[i], deltas[i];
      elapsed := 0;
      if d != 0 {
        m.SetDirection(d);
        elapsed := m.Step(io);
      }
      if d > 0 {
        deltas[i] := d - 1;
      } else if d < 0 {
        deltas[i] := d + 1;
      }
    }

    /** The inner loop of one iteration: motors are serviced from index 1
        down to 0, so the pin writes are those of motor 1 followed by those
        of motor 0. */
    method ServeAll() returns (elapsed: int)
      requires Valid()
      modifies deltas, motors[0].cfg, motors[1].cfg, io
      ensures Valid() && io.initial == old(io.initial)
      ensures deltas[0] == TowardZero(old(deltas[0])) && deltas[1] == TowardZero(old(deltas[1]))
      ensures elapsed == MotorTime(old(deltas[1])) + MotorTime(old(deltas[0]))
      ensures motors[0].Cfg() == CfgAfter(motors[0].Pins(), old(deltas[0]), old(motors[0].Cfg()))
      ensures motors[1].Cfg() == CfgAfter(motors[1].Pins(), old(deltas[1]), old(motors[1].Cfg()))
      ensures io.log == old(io.log) + MotorWrites(motors[1].Pins(), old(deltas[1]))
                                    + MotorWrites(motors[0].Pins(), old(deltas[0]))
    {
      ghost var d0, d1 := deltas[0], deltas[1];
      ghost var c0, c1 := motors[0].Cfg(), motors[1].Cfg();
      ghost var w0, w1 := MotorWrites(motors[0].Pins(), d0), MotorWrites(motors[1].Pins(), d1);
      elapsed := 0;
      var i := 2;
      while i > 0
        invariant 0 <= i <= 2 && Valid() && io.initial == old(io.initial)
        invariant i >= 1 ==> motors[0].Cfg() == c0 && deltas[0] == d0
        invariant i == 2 ==> motors[1].Cfg() == c1 && deltas[1] == d1
        invariant i == 2 ==> elapsed == 0 && io.log == old(io.log)
        invariant i <= 1 ==> motors[1].Cfg() == CfgAfter(motors[1].Pins(), d1, c1) && deltas[1] == TowardZero(d1)
        invariant i == 1 ==> elapsed == MotorTime(d1) && io.log == old(io.log) + w1
        invariant i == 0 ==> motors[0].Cfg() == CfgAfter(motors[0].Pins(), d0, c0) && deltas[0] == TowardZero(d0)
        invariant i == 0 ==> elapsed == MotorTime(d1) + MotorTime(d0) && io.log == old(io.log) + w1 + w0
      {
        i := i - 1;
        var e := Serve(i);
        elapsed := elapsed + e;
      }
    }

    /** One iteration of the control loop. The first counter is forced to 1,
        so the first motor steps every tick; the second steps in the
        direction of its counter's sign while its counter is nonzero; both
        counters move one unit toward zero. The result is the stepping time
        and the idle wait that fills the rest of `budget`. */
    method Tick(budget: Int32) returns (elapsed: int, wait: int)
      requires Valid()
      modifies deltas, motors[0].cfg, motors[1].cfg, io
      ensures Valid() && io.initial == old(io.initial)
      ensures deltas[0] == 0 && deltas[1] == TowardZero(old(deltas[1]))
      ensures elapsed == TickElapsed(old(deltas[1]))
      ensures wait == UnsignedLong(budget - elapsed)
      ensures motors[0].Cfg() == motors[0].Pins()
      ensures motors[1].Cfg() == CfgAfter(motors[1].Pins(), old(deltas[1]), old(motors[1].Cfg()))
      ensures io.log == old(io.log) + MotorWrites(motors[1].Pins(), old(deltas[1])) + StepWrites(motors[0].Pins())
      ensures io.State() == Apply(old(io.State()), MotorWrites(motors[1].Pins(), old(deltas[1])) + StepWrites(motors[0].Pins()))
    {
      deltas[0] := 1;
      ghost var log0 := io.log;
      ghost var w1 := MotorWrites(motors[1].Pins(), deltas[1]);
      elapsed := ServeAll();
      ghost var w0 := StepWrites(motors[0].Pins());
      assert log0 + (w1 + w0) == log0 + w1 + w0;
      ApplyAppend(io.initial, log0, w1 + w0);
      wait := UnsignedLong(budget - elapsed);
    }

    /** The state after `k` ticks of a run that started with counters
        `d0`, `d`, active configurations `c0`, `c1` and port log `log0`. */
    ghost predicate RunAt(k: nat, d0: Int8, d: Int8, c0: Coils, c1: Coils, log0: seq<PinWrite>)
      reads io, deltas, set m | m in motors :: m.cfg, set m | m in motors :: m.coilPins
    {
      Valid() &&
      (k > 0 ==> deltas[0] == 0 && motors[0].Cfg() == motors[0].Pins()) &&
      (k == 0 ==> deltas[0] == d0 && motors[0].Cfg() == c0) &&
      deltas[1] == Decayed(d, k) &&
      motors[1].Cfg() == (if k > 0 && d != 0 then Directed(motors[1].Pins(), d) else c1) &&
      io.log == log0 + TicksWrites(motors[0].Pins(), motors[1].Pins(), d, k)
    }

    /** Tick `k` of such a run: `Tick` restated against the run's start. */
    method TickAt(budget: Int32, ghost k: nat, ghost d0: Int8, ghost d: Int8, ghost c0: Coils, ghost c1: Coils,
                  ghost log0: seq<PinWrite>) returns (elapsed: int, wait: int)
      requires RunAt(k, d0, d, c0, c1, log0)
      modifies deltas, motors[0].cfg, motors[1].cfg, io
      ensures RunAt(k + 1, d0, d, c0, c1, log0) && io.initial == old(io.initial)
      ensures elapsed == TickElapsed(Decayed(d, k)) && wait == UnsignedLong(budget - elapsed)
    {
      ghost var p0, p1 := motors[0].Pins(), motors[1].Pins();
      ghost var done, mw, sw := TicksWrites(p0, p1, d, k), MotorWrites(p1, Decayed(d, k)), StepWrites(p0);
      DecayedSign(d, k);
      DecayedPending(d, k);
      if Decayed(d, k) != 0 {
        DirectedBySign(p1, Decayed(d, k), d);
      }
      elapsed, wait := Tick(budget);
      assert TicksWrites(p0, p1, d, k + 1) == done + mw + sw;
      assert log0 + done + mw + sw == log0 + (done + mw + sw);
    }

    /** The loop of `RunTicks`: `n` ticks, each keeping `RunAt`. */
    method RunLoop(n: nat, budget: Int32, ghost d0: Int8, ghost d: Int8, ghost c0: Coils, ghost c1: Coils,
                   ghost log0: seq<PinWrite>) returns (busy: int, idle: int)
      requires RunAt(0, d0, d, c0, c1, log0)
      modifies deltas, motors[0].cfg, motors[1].cfg, io
      ensures RunAt(n, d0, d, c0, c1, log0) && io.initial == old(io.initial)
      ensures busy == TotalElapsed(d, n) && idle == TotalIdle(d, n, budget)
    {
      busy, idle := 0, 0;
      var k := 0;
      while k < n
        invariant 0 <= k <= n && io.initial == old(io.initial)
        invariant RunAt(k, d0, d, c0, c1, log0)
        invariant busy == TotalElapsed(d, k) && idle == TotalIdle(d, k, budget)
      {
        var elapsed, wait := TickAt(budget, k, d0, d, c0, c1, log0);
        busy, idle := busy + elapsed, idle + wait;
        k := k + 1;
      }
    }

    /** The first `n` iterations of the endless main loop under `budget`.
        The first counter is 0 and the hand motor forward-configured after
        any tick; the second counter decays as `Decayed` says and, once it
        has caused a step, leaves its motor configured by its initial sign;
        the stepping and idle times are `TotalElapsed` and `TotalIdle`; the
        ports receive `TicksWrites`. */
    method RunTicks(n: nat, budget: Int32) returns (busy: int, idle: int)
      requires Valid()
      modifies deltas, motors[0].cfg, motors[1].cfg, io
      ensures Valid() && io.initial == old(io.initial)
      ensures n > 0 ==> deltas[0] == 0 && motors[0].Cfg() == motors[0].Pins()
      ensures n == 0 ==> deltas[0] == old(deltas[0]) && motors[0].Cfg() == old(motors[0].Cfg())
      ensures deltas[1] == Decayed(old(deltas[1]), n)
      ensures motors[1].Cfg() == if n > 0 && old(deltas[1]) != 0 then Directed(motors[1].Pins(), old(deltas[1]))
                                 else old(motors[1].Cfg())
      ensures busy == TotalElapsed(old(deltas[1]), n) && idle == TotalIdle(old(deltas[1]), n, budget)
      ensures budget >= MaxTickMs ==> busy + idle == n * budget
      ensures io.log == old(io.log) + TicksWrites(motors[0].Pins(), motors[1].Pins(), old(deltas[1]), n)
      ensures io.State() == Apply(old(io.State()), TicksWrites(motors[0].Pins(), motors[1].Pins(), old(deltas[1]), n))
    {
      ghost var d0, d := deltas[0], deltas[1];
      ghost var c0, c1 := motors[0].Cfg(), motors[1].Cfg();
      ghost var log0 := io.log;
      assert log0 + TicksWrites(motors[0].Pins(), motors[1].Pins(), d, 0) == log0;
      busy, idle := RunLoop(n, budget, d0, d, c0, c1, log0);
      ApplyAppend(io.initial, log0, TicksWrites(motors[0].Pins(), motors[1].Pins(), d, n));
      if budget >= MaxTickMs {
        TickTimeAddsUp(d, n, budget);
      }
    }
  }

  /** `main` as written, without the pin-direction setup: build the two
      motors and run the first `n` ticks under the budget the firmware
      computes. Nothing ever sets the pitch motor's counter, so it never
      steps and keeps its zero-initialised configuration; the hand motor
      steps every tick and ends each tick in the forward step's final
      pattern. */
  method Firmware(n: nat) returns (c: Controller, busy: int, idle: int)
    ensures c.Valid() && c.deltas[0] == 0 && c.deltas[1] == 0
    ensures c.motors[1].Cfg() == Unset
    ensures busy == StepMs * n && busy + idle == n * BudgetAsWritten()
    ensures c.io.log == TicksWrites(HandPins, PitchPins, 0, n)
    ensures c.io.State() == Apply(Registers(0, 0), TicksWrites(HandPins, PitchPins, 0, n))
    ensures n > 0 ==> var r := c.io.State();
      !Level(r, HandPins.pair0.t0) && Level(r, HandPins.pair0.t1) &&
      Level(r, HandPins.pair1.t0) && !Level(r, HandPins.pair1.t1)
  {
    c := new Controller();
    BudgetAsWrittenOverflows();
    busy, idle := c.RunTicks(n, BudgetAsWritten());
    TotalElapsedClosedForm(0, n);
    DecayedClosedForm(0, n);
    if n > 0 {
      FirmwareCoilMapsDistinct();
      TicksHandLevels(Registers(0, 0), HandPins, PitchPins, 0, n);
    }
  }
}
