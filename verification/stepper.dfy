/** One stepper motor: its coil map, the direction selector that derives the
    active configuration from it, and the phase sequencer and disable routine
    that drive the configured pins. */
module Stepper {
  import opened Gpio

  /** The two terminal pins of one coil pair. */
  datatype Pair = Pair(t0: Pin, t1: Pin)

  /** A 2×2 pin table, indexed by coil pair and terminal. */
  datatype Coils = Coils(pair0: Pair, pair1: Pair)

  /** Entry `[i][j]` of a pin table. */
  function Terminal(c: Coils, i: nat, j: nat): Pin
    requires i < 2 && j < 2
  {
    var pair := if i == 0 then c.pair0 else c.pair1;
    if j == 0 then pair.t0 else pair.t1
  }

  /** The four pins of a table are pairwise distinct. */
  predicate Distinct(c: Coils) {
    var a, b, x, y := c.pair0.t0, c.pair0.t1, c.pair1.t0, c.pair1.t1;
    a != b && a != x && a != y && b != x && b != y && x != y
  }

  /** The pins of a table, as a multiset. */
  function PinSet(c: Coils): multiset<Pin> {
    multiset{c.pair0.t0, c.pair0.t1, c.pair1.t0, c.pair1.t1}
  }

  /** Hold time of one phase, in milliseconds. */
  const PhaseMs := 3

  /** The energisation pattern: phase `i` drives terminal `j` of its coil pair
      to the `j`-th component of `Signals[i]`. */
  const Signals: seq<(int, int)> := [(1, 0), (0, 1), (0, 1), (1, 0)]

  /** The level phase `i` drives terminal `j` to. */
  function Signal(i: nat, j: nat): int
    requires i < 4 && j < 2
  {
    if j == 0 then Signals[i].0 else Signals[i].1
  }

  /** The active configuration the direction selector derives from the coil
      pins: a straight copy for `dir >= 0`, the two coil pairs exchanged for
      `dir < 0`. */
  function Directed(pins: Coils, dir: int): Coils {
    if dir < 0 then Coils(pins.pair1, pins.pair0) else pins
  }

  /** The direction selector only reorders the coil pins: the result is the
      coil map itself or the coil map with its pairs exchanged, never a
      terminal swap, and it holds the same four pins. */
  lemma DirectedPermutes(pins: Coils, dir: int)
    ensures PinSet(Directed(pins, dir)) == PinSet(pins)
    ensures forall i, j :: 0 <= i < 2 && 0 <= j < 2 ==>
              Terminal(Directed(pins, dir), i, j) == Terminal(pins, if dir < 0 then 1 - i else i, j)
  {
    if dir < 0 {
      var a, b, x, y := pins.pair0.t0, pins.pair0.t1, pins.pair1.t0, pins.pair1.t1;
      assert multiset{x, y, a, b} == multiset{a, b, x, y};
    }
  }

  /** Only the sign of `dir` matters: two selections with the same sign give
      the same configuration, and a non-negative selection after any other
      restores the forward mapping. */
  lemma DirectedBySign(pins: Coils, d1: int, d2: int)
    requires (d1 < 0) == (d2 < 0)
    ensures Directed(pins, d1) == Directed(pins, d2)
    ensures d1 >= 0 ==> Directed(pins, d1) == pins
  {
  }

  /** The two writes that drive coil pair `k` to `levels`: terminal 0 first,
      then terminal 1. */
  function PairWrites(c: Coils, k: nat, levels: (int, int)): seq<PinWrite>
    requires k < 2
  {
    [PinWrite(Terminal(c, k, 0), levels.0 != 0), PinWrite(Terminal(c, k, 1), levels.1 != 0)]
  }

  /** The two writes of phase `i` of a step. */
  function StepPhase(c: Coils, i: nat): seq<PinWrite>
    requires i < 4
  {
    PairWrites(c, i % 2, Signals[i])
  }

  /** The writes of the first `n` phases of a step. */
  function StepPrefix(c: Coils, n: nat): seq<PinWrite>
    requires n <= 4
  {
    if n == 0 then [] else StepPrefix(c, n - 1) + StepPhase(c, n - 1)
  }

  /** Every pin write of one step, in order. */
  function StepWrites(c: Coils): seq<PinWrite> {
    StepPrefix(c, 4)
  }

  /** The two writes of pass `i` of the disable routine. */
  function DisablePhase(c: Coils, i: nat): seq<PinWrite>
    requires i < 4
  {
    PairWrites(c, i % 2, (0, 0))
  }

  /** The writes of the first `n` passes of the disable routine. */
  function DisablePrefix(c: Coils, n: nat): seq<PinWrite>
    requires n <= 4
  {
    if n == 0 then [] else DisablePrefix(c, n - 1) + DisablePhase(c, n - 1)
  }

  /** Every pin write of the disable routine, in order. */
  function DisableWrites(c: Coils): seq<PinWrite> {
    DisablePrefix(c, 4)
  }

  /** A step makes exactly eight writes, and they alternate between the coil
      pairs: pair0 ← (1, 0), pair1 ← (0, 1), pair0 ← (0, 1), pair1 ← (1, 0). */
  lemma StepWritesInOrder(c: Coils)
    ensures StepWrites(c) ==
      [PinWrite(c.pair0.t0, true),  PinWrite(c.pair0.t1, false),
       PinWrite(c.pair1.t0, false), PinWrite(c.pair1.t1, true),
       PinWrite(c.pair0.t0, false), PinWrite(c.pair0.t1, true),
       PinWrite(c.pair1.t0, true),  PinWrite(c.pair1.t1, false)]
  {
    assert StepPrefix(c, 1) == StepPhase(c, 0);
    assert StepPrefix(c, 2) == StepPhase(c, 0) + StepPhase(c, 1);
    assert StepPrefix(c, 3) == StepPrefix(c, 2) + StepPhase(c, 2);
  }

  /** Write `2 * i + j` of a step belongs to phase `i`: it drives terminal
      `j` of coil pair `i % 2` to `Signal(i, j)`. */
  lemma StepWritesByPhase(c: Coils)
    ensures |StepWrites(c)| == 8
    ensures forall i, j :: 0 <= i < 4 && 0 <= j < 2 ==>
              StepWrites(c)[2 * i + j] == PinWrite(Terminal(c, i % 2, j), Signal(i, j) != 0)
  {
    StepWritesInOrder(c);
  }

  /** Under reverse direction a step drives the same level pattern, with the
      roles of the physical coil pairs exchanged. */
  lemma ReverseStepWrites(pins: Coils, dir: int)
    requires dir < 0
    ensures StepWrites(Directed(pins, dir)) ==
      [PinWrite(pins.pair1.t0, true),  PinWrite(pins.pair1.t1, false),
       PinWrite(pins.pair0.t0, false), PinWrite(pins.pair0.t1, true),
       PinWrite(pins.pair1.t0, false), PinWrite(pins.pair1.t1, true),
       PinWrite(pins.pair0.t0, true),  PinWrite(pins.pair0.t1, false)]
  {
    StepWritesInOrder(Directed(pins, dir));
  }

  /** The last write to `p` among four writes, read from the back. */
  lemma LastWriteOfFour(ws: seq<PinWrite>, p: Pin)
    requires |ws| == 4
    ensures LastWrite(ws, p) ==
      if ws[3].pin == p then Some(ws[3].level)
      else if ws[2].pin == p then Some(ws[2].level)
      else if ws[1].pin == p then Some(ws[1].level)
      else if ws[0].pin == p then Some(ws[0].level)
      else None
  {
    var w3 := ws[..3];
    var w2 := w3[..2];
    var w1 := w2[..1];
    assert w1[..0] == [];
    assert LastWrite(w1, p) == if ws[0].pin == p then Some(ws[0].level) else None;
    assert LastWrite(w2, p) == if ws[1].pin == p then Some(ws[1].level) else LastWrite(w1, p);
    assert LastWrite(w3, p) == if ws[2].pin == p then Some(ws[2].level) else LastWrite(w2, p);
  }

  /** The level every pin reads after a step: the last write to a pin wins,
      and a pin outside the configuration keeps its level. */
  lemma StepOutcome(r: Registers, c: Coils, p: Pin)
    ensures Level(Apply(r, StepWrites(c)), p) ==
      if p == c.pair1.t1 then false
      else if p == c.pair1.t0 then true
      else if p == c.pair0.t1 then true
      else if p == c.pair0.t0 then false
      else Level(r, p)
  {
    StepWritesInOrder(c);
    var head := [PinWrite(c.pair0.t0, true), PinWrite(c.pair0.t1, false),
                 PinWrite(c.pair1.t0, false), PinWrite(c.pair1.t1, true)];
    var tail := [PinWrite(c.pair0.t0, false), PinWrite(c.pair0.t1, true),
                 PinWrite(c.pair1.t0, true), PinWrite(c.pair1.t1, false)];
    assert StepWrites(c) == head + tail;
    LastWriteAppend(head, tail, p);
    LastWriteOfFour(head, p);
    LastWriteOfFour(tail, p);
    LevelAfter(r, StepWrites(c), p);
  }

  /** With four distinct configured pins, a step leaves pair0 reading (0, 1)
      and pair1 reading (1, 0). */
  lemma StepFinalLevels(r: Registers, c: Coils)
    requires Distinct(c)
    ensures var r' := Apply(r, StepWrites(c));
      !Level(r', c.pair0.t0) && Level(r', c.pair0.t1) &&
      Level(r', c.pair1.t0) && !Level(r', c.pair1.t1)
  {
    StepOutcome(r, c, c.pair0.t0);
    StepOutcome(r, c, c.pair0.t1);
    StepOutcome(r, c, c.pair1.t0);
    StepOutcome(r, c, c.pair1.t1);
  }

  /** Under reverse direction the same final pattern lands on the exchanged
      physical pairs: coil pair 1 reads (0, 1), coil pair 0 reads (1, 0). */
  lemma ReverseStepFinalLevels(r: Registers, pins: Coils, dir: int)
    requires dir < 0 && Distinct(pins)
    ensures var r' := Apply(r, StepWrites(Directed(pins, dir)));
      !Level(r', pins.pair1.t0) && Level(r', pins.pair1.t1) &&
      Level(r', pins.pair0.t0) && !Level(r', pins.pair0.t1)
  {
    StepFinalLevels(r, Directed(pins, dir));
  }

  /** After the disable routine every configured pin reads 0, whatever the
      previous levels; every other pin keeps its level. */
  lemma DisableOutcome(r: Registers, c: Coils, p: Pin)
    ensures Level(Apply(r, DisableWrites(c)), p) ==
      if p in [c.pair0.t0, c.pair0.t1, c.pair1.t0, c.pair1.t1] then false else Level(r, p)
  {
    var half := [PinWrite(c.pair0.t0, false), PinWrite(c.pair0.t1, false),
                 PinWrite(c.pair1.t0, false), PinWrite(c.pair1.t1, false)];
    assert DisablePrefix(c, 1) == DisablePhase(c, 0);
    assert DisablePrefix(c, 2) == half;
    assert DisablePrefix(c, 3) == half + DisablePhase(c, 2);
    assert DisableWrites(c) == half + half;
    LastWriteAppend(half, half, p);
    LastWriteOfFour(half, p);
    LevelAfter(r, DisableWrites(c), p);
  }

  /** The active configuration of a motor whose direction was never
      selected: zero-initialised storage names bit 0 of port A four times. */
  const Unset := Coils(Pair(Pin(PortA, 0), Pin(PortA, 0)), Pair(Pin(PortA, 0), Pin(PortA, 0)))

  /** A motor's coil map and the active configuration derived from it, each a
      2×2 pin table indexed by coil pair and terminal. */
  class Stepper {
    const coilPins: array2<Pin>
    const cfg: array2<Pin>

    ghost predicate Valid() {
      coilPins.Length0 == 2 && coilPins.Length1 == 2 &&
      cfg.Length0 == 2 && cfg.Length1 == 2 &&
      coilPins != cfg
    }

    /** The coil map as a value. */
    function Pins(): Coils
      reads coilPins
      requires Valid()
    {
      Coils(Pair(coilPins[0, 0], coilPins[0, 1]), Pair(coilPins[1, 0], coilPins[1, 1]))
    }

    /** The active configuration as a value. */
    function Cfg(): Coils
      reads cfg
      requires Valid()
    {
      Coils(Pair(cfg[0, 0], cfg[0, 1]), Pair(cfg[1, 0], cfg[1, 1]))
    }

    /** A motor with the given coil map. The active configuration is
        zero-initialised, as static storage is: all four entries name bit 0
        of port A until a direction is selected. */
    constructor (pins: Coils)
      ensures Valid() && fresh(coilPins) && fresh(cfg)
      ensures Pins() == pins
      ensures Cfg() == Unset
    {
      var p := new Pin[2, 2]((i, j) requires 0 <= i < 2 && 0 <= j < 2 => Terminal(pins, i, j));
      coilPins := p;
      cfg := new Pin[2, 2]((i, j) => Pin(PortA, 0));
    }

    /** Direction selection: rebuild the active configuration from the coil
        map by the sign of `dir`; the coil map itself is left as it is. */
    method SetDirection(dir: int)
      requires Valid()
      modifies cfg
      ensures Cfg() == Directed(Pins(), dir)
      ensures Pins() == old(Pins())
    {
      if dir < 0 {
        cfg[0, 0] := coilPins[1, 0];
        cfg[0, 1] := coilPins[1, 1];
        cfg[1, 0] := coilPins[0, 0];
        cfg[1, 1] := coilPins[0, 1];
      } else {
        cfg[0, 0] := coilPins[0, 0];
        cfg[0, 1] := coilPins[0, 1];
        cfg[1, 0] := coilPins[1, 0];
        cfg[1, 1] := coilPins[1, 1];
      }
    }

    /** Drive terminal 0 and then terminal 1 of coil pair `k` of the active
        configuration to `levels`: the inner loop shared by the step and the
        disable routine. */
    method DrivePair(io: Ports, k: nat, levels: (int, int))
      requires Valid() && io.Valid() && k < 2
      modifies io
      ensures io.Valid() && io.initial == old(io.initial)
      ensures io.log == old(io.log) + PairWrites(Cfg(), k, levels)
    {
      ghost var writes := PairWrites(Cfg(), k, levels);
      var j := 0;
      while j < 2
        invariant 0 <= j <= 2
        invariant io.Valid() && io.initial == old(io.initial)
        invariant io.log == old(io.log) + writes[..j]
      {
        var pin := cfg[k, j];
        io.Set(pin, if j == 0 then levels.0 else levels.1);
        assert writes[..j + 1] == writes[..j] + [writes[j]];
        j := j + 1;
      }
      assert writes[..2] == writes;
    }

    /** One physical step: four phases, phase `i` driving coil pair `i % 2`
        to `Signals[i]` and holding for `PhaseMs`. The motor is not changed;
        the ports receive exactly `StepWrites(Cfg())`. */
    method Step(io: Ports) returns (elapsed: int)
      requires Valid() && io.Valid()
      modifies io
      ensures io.Valid() && io.initial == old(io.initial)
      ensures elapsed == 4 * PhaseMs
      ensures io.log == old(io.log) + StepWrites(Cfg())
      ensures io.State() == Apply(old(io.State()), StepWrites(Cfg()))
    {
      ghost var c := Cfg();
      elapsed := 0;
      var i := 0;
      while i < 4
        invariant 0 <= i <= 4
        invariant elapsed == PhaseMs * i
        invariant io.Valid() && io.initial == old(io.initial)
        invariant io.log == old(io.log) + StepPrefix(c, i)
      {
        DrivePair(io, i % 2, Signals[i]);
        elapsed := elapsed + PhaseMs;
        i := i + 1;
      }
      ApplyAppend(io.initial, old(io.log), StepWrites(c));
    }

    /** De-energise the motor: drive both coil pairs to (0, 0), in the same
        four-pass order the step uses. */
    method Disable(io: Ports)
      requires Valid() && io.Valid()
      modifies io
      ensures io.Valid() && io.initial == old(io.initial)
      ensures io.log == old(io.log) + DisableWrites(Cfg())
      ensures io.State() == Apply(old(io.State()), DisableWrites(Cfg()))
    {
      ghost var c := Cfg();
      var i := 0;
      while i < 4
        invariant 0 <= i <= 4
        invariant io.Valid() && io.initial == old(io.initial)
        invariant io.log == old(io.log) + DisablePrefix(c, i)
      {
        DrivePair(io, i % 2, (0, 0));
        i := i + 1;
      }
      ApplyAppend(io.initial, old(io.log), DisableWrites(c));
    }
  }
}
