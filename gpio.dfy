/**
 * The GPIO peripheral of the microcontroller, as far as the relay driver
 * sees it: four ports (GPIOA to GPIOD) of sixteen pins each, an
 * output-data register (ODR) per port holding the level each pin drives,
 * and an output-enable register per port recording which pins have been
 * configured as outputs. A register is kept as its sixteen bits, element
 * `k` being bit `k`.
 *
 * The vendor primitives `gpio_write` and `gpio_init` are modelled by what
 * they do to these registers; their register-level implementation is not
 * part of this model.
 */
module Gpio {

  /** The four GPIO peripherals a relay command can select. */
  datatype Port = A | B | C | D

  /** The two levels `gpio_write` can drive. */
  datatype Level = Low | High

  /** A pin number within one port. */
  type Pin = p: int | 0 <= p < 16

  /** A 16-bit port register, bit `k` at index `k`. */
  type Register = bits: seq<bool> | |bits| == 16 witness seq(16, _ => false)

  const AllPorts: set<Port> := {A, B, C, D}

  /** The register with every bit clear, as after reset. */
  const Cleared: Register := seq(16, _ => false)

  /** The level that register `r` drives on `pin`. */
  function LevelOf(r: Register, pin: Pin): Level {
    if r[pin] then High else Low
  }

  /** The register after driving `pin` to `level`. */
  function WriteBit(r: Register, pin: Pin, level: Level): (r': Register)
    ensures LevelOf(r', pin) == level
    ensures forall q: Pin :: q != pin ==> r'[q] == r[q]
  {
    r[pin := level == High]
  }

  /** Driving a pin to the level it already has is a no-op. */
  lemma WriteBitIdempotent(r: Register, pin: Pin, level: Level)
    ensures WriteBit(WriteBit(r, pin, level), pin, level) == WriteBit(r, pin, level)
  {
  }

  /** Driving the same pin twice: the second level wins. */
  lemma WriteBitOverwrites(r: Register, pin: Pin, first: Level, second: Level)
    ensures WriteBit(WriteBit(r, pin, first), pin, second) == WriteBit(r, pin, second)
  {
  }

  /** Writes to different pins of one port do not interfere. */
  lemma WriteBitCommutes(r: Register, p: Pin, lp: Level, q: Pin, lq: Level)
    requires p != q
    ensures WriteBit(WriteBit(r, p, lp), q, lq) == WriteBit(WriteBit(r, q, lq), p, lp)
  {
  }

  /**
   * The registers of all four ports. `odr` is the output-data register,
   * `outputs` the output-enable register (bit set: the pin is a push-pull
   * output).
   */
  class Controller {
    var odr: map<Port, Register>
    var outputs: map<Port, Register>

    ghost predicate Valid()
      reads this
    {
      forall p: Port :: p in odr && p in outputs
    }

    /** The reset state: every pin an input, every ODR clear. */
    constructor ()
      ensures Valid()
      ensures forall p :: p in AllPorts ==> odr[p] == Cleared && outputs[p] == Cleared
    {
      odr := map[A := Cleared, B := Cleared, C := Cleared, D := Cleared];
      outputs := map[A := Cleared, B := Cleared, C := Cleared, D := Cleared];
      new;
      forall p: Port
        ensures p in odr && p in outputs
      {
        match p
        case A =>
        case B =>
        case C =>
        case D =>
      }
    }

    /** `gpio_write(port, pin, level)`: drive one pin, nothing else. */
    method Write(port: Port, pin: Pin, level: Level)
      requires Valid()
      modifies this
      ensures Valid()
      ensures odr == old(odr)[port := WriteBit(old(odr)[port], pin, level)]
      ensures outputs == old(outputs)
    {
      odr := odr[port := WriteBit(odr[port], pin, level)];
    }

    /**
     * `gpio_init(port, pin, GPIO_MODE_OUTPUT_PP_LOW)`: the pin becomes a
     * push-pull output driving low; no other pin changes.
     */
    method InitOutputLow(port: Port, pin: Pin)
      requires Valid()
      modifies this
      ensures Valid()
      ensures odr == old(odr)[port := WriteBit(old(odr)[port], pin, Low)]
      ensures outputs == old(outputs)[port := WriteBit(old(outputs)[port], pin, High)]
    {
      outputs := outputs[port := WriteBit(outputs[port], pin, High)];
      odr := odr[port := WriteBit(odr[port], pin, Low)];
    }
  }
}
