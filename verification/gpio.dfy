/** Digital outputs of the microcontroller: the two 8-bit port registers and
    the bit-level write that the firmware's `gpio_set` macro performs on them. */
module Gpio {

  /** The two output ports the firmware addresses. */
  datatype Port = PortA | PortB

  /** A bit position inside an 8-bit port register. */
  type BitIndex = n: int | 0 <= n < 8

  /** One digital output: a port and a bit inside it. */
  datatype Pin = Pin(port: Port, num: BitIndex)

  /** The contents of both port registers at one moment. */
  datatype Registers = Registers(a: bv8, b: bv8)

  /** One pin write as the hardware sees it: which pin, driven to which level. */
  datatype PinWrite = PinWrite(pin: Pin, level: bool)

  datatype Option<T> = None | Some(value: T)

  /** The single-bit mask `1 << n`, one table entry per bit position. */
  function Mask(n: BitIndex): (m: bv8)
    ensures m == 1 << n
  {
    if n == 0 then 0x01 else if n == 1 then 0x02 else if n == 2 then 0x04
    else if n == 3 then 0x08 else if n == 4 then 0x10 else if n == 5 then 0x20
    else if n == 6 then 0x40 else 0x80
  }

  /** Bit `k` of a register. */
  predicate BitOf(v: bv8, k: BitIndex) {
    v & Mask(k) != 0
  }

  /** `gpio_set` on one register: bit `n` becomes `on`, the other seven bits
      keep their values. */
  function SetBit(v: bv8, n: BitIndex, on: bool): (r: bv8)
    ensures r & Mask(n) == (if on then Mask(n) else 0)
    ensures r & !Mask(n) == v & !Mask(n)
  {
    if on then v | Mask(n) else v & !Mask(n)
  }

  /** The same, bit by bit. */
  lemma SetBitAt(v: bv8, n: BitIndex, on: bool, k: BitIndex)
    ensures BitOf(SetBit(v, n, on), k) == if k == n then on else BitOf(v, k)
  {
    if k != n {
      assert Mask(k) & !Mask(n) == Mask(k);
    }
  }

  /** The level a pin currently reads. */
  predicate Level(r: Registers, p: Pin) {
    BitOf(if p.port == PortA then r.a else r.b, p.num)
  }

  /** The registers after one pin write. */
  function Driven(r: Registers, w: PinWrite): Registers {
    match w.pin.port
    case PortA => Registers(SetBit(r.a, w.pin.num, w.level), r.b)
    case PortB => Registers(r.a, SetBit(r.b, w.pin.num, w.level))
  }

  /** After one pin write the written pin reads the written level and every
      other pin, on either port, keeps its level. */
  lemma DrivenLevel(r: Registers, w: PinWrite, p: Pin)
    ensures Level(Driven(r, w), p) == if p == w.pin then w.level else Level(r, p)
  {
    if p.port == w.pin.port {
      var v := if p.port == PortA then r.a else r.b;
      SetBitAt(v, w.pin.num, w.level, p.num);
    }
  }

  /** The registers after a sequence of pin writes, applied in order. */
  function Apply(r: Registers, ws: seq<PinWrite>): Registers
    decreases |ws|
  {
    if ws == [] then r else Driven(Apply(r, ws[..|ws| - 1]), ws[|ws| - 1])
  }

  /** The level of the last write to `p` in `ws`, if any. */
  function LastWrite(ws: seq<PinWrite>, p: Pin): Option<bool>
    decreases |ws|
  {
    if ws == [] then None
    else if ws[|ws| - 1].pin == p then Some(ws[|ws| - 1].level)
    else LastWrite(ws[..|ws| - 1], p)
  }

  /** A pin reads the level of the last write to it, or its old level when
      nothing wrote it. */
  lemma {:induction false} LevelAfter(r: Registers, ws: seq<PinWrite>, p: Pin)
    ensures Level(Apply(r, ws), p) == match LastWrite(ws, p)
                                       case None => Level(r, p)
                                       case Some(b) => b
    decreases |ws|
  {
    if ws != [] {
      LevelAfter(r, ws[..|ws| - 1], p);
      DrivenLevel(Apply(r, ws[..|ws| - 1]), ws[|ws| - 1], p);
    }
  }

  /** The last write to `p` in `ws + vs` is the last one in `vs` when `vs`
      writes `p` at all, and otherwise the last one in `ws`. */
  lemma {:induction false} LastWriteAppend(ws: seq<PinWrite>, vs: seq<PinWrite>, p: Pin)
    ensures LastWrite(ws + vs, p) == if LastWrite(vs, p).Some? then LastWrite(vs, p) else LastWrite(ws, p)
    decreases |vs|
  {
    if vs == [] {
      assert ws + vs == ws;
    } else {
      assert (ws + vs)[..|ws + vs| - 1] == ws + vs[..|vs| - 1];
      LastWriteAppend(ws, vs[..|vs| - 1], p);
    }
  }

  /** Applying two batches of writes one after the other is applying their
      concatenation. */
  lemma {:induction false} ApplyAppend(r: Registers, ws: seq<PinWrite>, vs: seq<PinWrite>)
    ensures Apply(r, ws + vs) == Apply(Apply(r, ws), vs)
    decreases |vs|
  {
    if vs == [] {
      assert ws + vs == ws;
    } else {
      assert (ws + vs)[..|ws + vs| - 1] == ws + vs[..|vs| - 1];
      ApplyAppend(r, ws, vs[..|vs| - 1]);
    }
  }

  /** The PORTA and PORTB output registers. `log` records every pin write in
      the order it reaches the hardware, so that the intermediate pin states
      of a step, and not only the final ones, can be stated; the registers
      always hold `initial` with the logged writes applied. */
  class Ports {
    var portA: bv8
    var portB: bv8
    ghost var initial: Registers
    ghost var log: seq<PinWrite>

    function State(): Registers
      reads this
    {
      Registers(portA, portB)
    }

    ghost predicate Valid()
      reads this
    {
      State() == Apply(initial, log)
    }

    /** Both registers start cleared, as after reset. */
    constructor ()
      ensures Valid() && State() == Registers(0, 0) && log == []
    {
      portA, portB := 0, 0;
      initial := Registers(0, 0);
      log := [];
    }

    /** Select the register of `pin` and apply `gpio_set` to it: the pin
        reads `state != 0` afterwards and nothing else changes. */
    method Set(pin: Pin, state: int)
      requires Valid()
      modifies this
      ensures Valid() && initial == old(initial)
      ensures log == old(log) + [PinWrite(pin, state != 0)]
      ensures State() == Driven(old(State()), PinWrite(pin, state != 0))
    {
      match pin.port {
        case PortA => portA := SetBit(portA, pin.num, state != 0);
        case PortB => portB := SetBit(portB, pin.num, state != 0);
      }
      log := log + [PinWrite(pin, state != 0)];
      assert log[..|log| - 1] == old(log);
    }
  }
}
