/**
 * The relay driver: configuring relay pins, switching one relay on or off,
 * interpreting a two-byte remote relay instruction, and serialising the
 * relay pin levels of a port into a 16-byte status payload.
 *
 * An instruction is two bytes. The first selects the port: its high nibble
 * must be 0xF and its low nibble 0xA, 0xB, 0xC or 0xD picks GPIOA to
 * GPIOD. The second selects pin and level: its high nibble is the pin
 * number, its low nibble 0x0 (drive low) or 0xF (drive high).
 */
module Relay {
  import opened Gpio

  datatype Option<T> = None | Some(value: T)

  /** A decoded relay instruction: drive `pin` of `port` to `level`. */
  datatype Command = Command(port: Port, pin: Pin, level: Level)

  // ---------------------------------------------------------------------
  // Decoding an instruction
  // ---------------------------------------------------------------------

  /** `gpio_pinHigh`: the pin number carried by the second byte. */
  function PinField(pinCode: bv8): (p: bv8)
    ensures p < 16
    ensures p as int == pinCode as int / 16
  {
    (pinCode & 0xf0) >> 4
  }

  /** `gpio_pinLow`: the level code carried by the second byte. */
  function LevelField(pinCode: bv8): (c: bv8)
    ensures c < 16
    ensures c as int == pinCode as int % 16
  {
    pinCode & 0x0f
  }

  /** The pin-number condition of the instruction decoder, as written. */
  predicate AllowListed(pin: bv8): (b: bool)
    ensures b <==> pin as int in AcceptedPins + {16, 17, 60}
  {
    (4 <= pin <= 9) || pin == 11 || pin == 14 || pin == 15 || pin == 16 || pin == 17 || pin == 60
  }

  /** The pins an instruction can actually select. */
  const AcceptedPins: set<int> := {4, 5, 6, 7, 8, 9, 11, 14, 15}

  /** The port-selecting `switch` on the low nibble of the first byte. */
  function PortOf(low: bv8): (r: Option<Port>)
    ensures r.Some? <==> 0x0a <= low <= 0x0d
  {
    match low
    case 0x0a => Some(A)
    case 0x0b => Some(B)
    case 0x0c => Some(C)
    case 0x0d => Some(D)
    case _ => None
  }

  /** The low nibble that names `port` in the first instruction byte. */
  function PortCode(port: Port): (code: bv8)
    ensures 0x0a <= code <= 0x0d
    ensures PortOf(code) == Some(port)
  {
    match port
    case A => 0x0a
    case B => 0x0b
    case C => 0x0c
    case D => 0x0d
  }

  /** The low nibble that names `level` in the second instruction byte. */
  function LevelCode(level: Level): (code: bv8)
    ensures code == 0x00 || code == 0x0f
    ensures code == 0x00 <==> level == Low
  {
    match level
    case Low => 0x00
    case High => 0x0f
  }

  /**
   * The decision table of `relay_instruction_analysis`: the command the two
   * bytes denote, or None when any field is invalid.
   */
  function Decode(portCode: bv8, pinCode: bv8): (r: Option<Command>)
    ensures r.Some? ==> portCode & 0xf0 == 0xf0 && PortCode(r.value.port) == portCode & 0x0f
    ensures r.Some? ==> r.value.pin in AcceptedPins && r.value.pin == PinField(pinCode) as int
    ensures r.Some? ==> LevelCode(r.value.level) == LevelField(pinCode)
  {
    var high := portCode & 0xf0;
    var low := portCode & 0x0f;
    var pinLow := LevelField(pinCode);
    var pinHigh := PinField(pinCode);
    if high != 0xf0 then None
    else
      match PortOf(low)
      case None => None
      case Some(port) =>
        if !AllowListed(pinHigh) then None
        else if pinLow == 0x00 then Some(Command(port, pinHigh as int, Low))
        else if pinLow == 0x0f then Some(Command(port, pinHigh as int, High))
        else None
  }

  /** The two instruction bytes that denote `cmd`. */
  function Encode(cmd: Command): (bytes: (bv8, bv8))
    ensures bytes.0 & 0xf0 == 0xf0 && bytes.0 & 0x0f == PortCode(cmd.port)
    ensures PinField(bytes.1) as int == cmd.pin && LevelField(bytes.1) == LevelCode(cmd.level)
  {
    (0xf0 | PortCode(cmd.port), (PinNibble(cmd.pin) << 4) | LevelCode(cmd.level))
  }

  /** A pin number as a byte. */
  function PinNibble(pin: Pin): (b: bv8)
    ensures b < 16 && b as int == pin
  {
    pin as bv8
  }

  // ---------------------------------------------------------------------
  // Properties of the decoder
  // ---------------------------------------------------------------------

  /**
   * The pin number is a nibble, so the allow-list entries 16, 17 and 60
   * never match: the allow-list accepts exactly the pins in AcceptedPins.
   */
  lemma AllowListEffective(pinCode: bv8)
    ensures PinField(pinCode) != 16 && PinField(pinCode) != 17 && PinField(pinCode) != 60
    ensures AllowListed(PinField(pinCode)) <==> PinField(pinCode) as int in AcceptedPins
  {
  }

  /** A first byte whose high nibble is not 0xF is rejected. */
  lemma RejectsBadPrefix(portCode: bv8, pinCode: bv8)
    requires portCode & 0xf0 != 0xf0
    ensures Decode(portCode, pinCode) == None
  {
  }

  /**
   * With the 0xF prefix, low nibbles 0xA to 0xD select GPIOA to GPIOD and
   * every other low nibble is rejected.
   */
  lemma PortSelection(portCode: bv8, pinCode: bv8)
    requires portCode & 0xf0 == 0xf0
    ensures Decode(portCode, pinCode).Some? && portCode & 0x0f == 0x0a ==> Decode(portCode, pinCode).value.port == A
    ensures Decode(portCode, pinCode).Some? && portCode & 0x0f == 0x0b ==> Decode(portCode, pinCode).value.port == B
    ensures Decode(portCode, pinCode).Some? && portCode & 0x0f == 0x0c ==> Decode(portCode, pinCode).value.port == C
    ensures Decode(portCode, pinCode).Some? && portCode & 0x0f == 0x0d ==> Decode(portCode, pinCode).value.port == D
    ensures !(0x0a <= portCode & 0x0f <= 0x0d) ==> Decode(portCode, pinCode) == None
  {
  }

  /** A pin number outside AcceptedPins is rejected. */
  lemma RejectsBadPin(portCode: bv8, pinCode: bv8)
    requires PinField(pinCode) as int !in AcceptedPins
    ensures Decode(portCode, pinCode) == None
  {
  }

  /** A level code other than 0x0 and 0xF is rejected, even with a valid port and pin. */
  lemma RejectsBadLevel(portCode: bv8, pinCode: bv8)
    requires LevelField(pinCode) != 0x00 && LevelField(pinCode) != 0x0f
    ensures Decode(portCode, pinCode) == None
  {
  }

  /**
   * All or nothing: an instruction is accepted exactly when port, pin and
   * level are all valid.
   */
  lemma DecodeAcceptsExactly(portCode: bv8, pinCode: bv8)
    ensures Decode(portCode, pinCode).Some? <==>
      0xfa <= portCode <= 0xfd && PinField(pinCode) as int in AcceptedPins &&
      (LevelField(pinCode) == 0x00 || LevelField(pinCode) == 0x0f)
  {
  }

  /** Every command on an accepted pin survives encoding and decoding. */
  lemma DecodeEncode(cmd: Command)
    requires cmd.pin in AcceptedPins
    ensures Decode(Encode(cmd).0, Encode(cmd).1) == Some(cmd)
  {
  }

  /** An accepted instruction is the encoding of the command it decodes to. */
  lemma EncodeDecode(portCode: bv8, pinCode: bv8)
    requires Decode(portCode, pinCode).Some?
    ensures Encode(Decode(portCode, pinCode).value) == (portCode, pinCode)
  {
  }

  /** Examples of the instruction format: relay A4 on, relay A4 off, and a bad port. */
  lemma FormatExamples()
    ensures Decode(0xfa, 0x4f) == Some(Command(A, 4, High))
    ensures Decode(0xfa, 0x40) == Some(Command(A, 4, Low))
    ensures Decode(0xfe, 0x4f) == None
  {
  }

  /**
   * The example bytes of the decoder's documentation: first bytes 0xfa and
   * 0xfd, second bytes 0xff and 0x00. The second byte 0x00 names pin 0,
   * which is not on the allow-list, so the documented 0x00 example is
   * rejected.
   */
  lemma DocumentedExamples()
    ensures Decode(0xfa, 0xff) == Some(Command(A, 15, High))
    ensures Decode(0xfd, 0xff) == Some(Command(D, 15, High))
    ensures Decode(0xfa, 0x00) == None
    ensures Decode(0xfd, 0x00) == None
  {
  }

  // ---------------------------------------------------------------------
  // The effect of a command on the port registers
  // ---------------------------------------------------------------------

  /**
   * The output-data registers after executing `cmd`: the selected pin of
   * the selected port reads back at the command's level, and every other
   * pin of every port keeps its value.
   */
  function Execute(odr: map<Port, Register>, cmd: Command): (odr': map<Port, Register>)
    requires cmd.port in odr
    ensures odr'.Keys == odr.Keys
    ensures LevelOf(odr'[cmd.port], cmd.pin) == cmd.level
    ensures forall q: Pin :: q != cmd.pin ==> odr'[cmd.port][q] == odr[cmd.port][q]
    ensures forall p :: p in odr && p != cmd.port ==> odr'[p] == odr[p]
  {
    odr[cmd.port := WriteBit(odr[cmd.port], cmd.pin, cmd.level)]
  }

  // ---------------------------------------------------------------------
  // The driver operations
  // ---------------------------------------------------------------------

  /** `relay_gpio_init`: the pin becomes a push-pull output driving low. */
  method RelayGpioInit(hw: Controller, port: Port, pin: Pin)
    requires hw.Valid()
    modifies hw
    ensures hw.Valid()
    ensures hw.odr == old(hw.odr)[port := WriteBit(old(hw.odr)[port], pin, Low)]
    ensures hw.outputs == old(hw.outputs)[port := WriteBit(old(hw.outputs)[port], pin, High)]
  {
    hw.InitOutputLow(port, pin);
  }

  /** `relay_on`: drive the relay pin high; nothing else changes. */
  method RelayOn(hw: Controller, port: Port, pin: Pin)
    requires hw.Valid()
    modifies hw
    ensures hw.Valid() && hw.outputs == old(hw.outputs)
    ensures hw.odr == Execute(old(hw.odr), Command(port, pin, High))
  {
    hw.Write(port, pin, High);
  }

  /** `relay_off`: drive the relay pin low; nothing else changes. */
  method RelayOff(hw: Controller, port: Port, pin: Pin)
    requires hw.Valid()
    modifies hw
    ensures hw.Valid() && hw.outputs == old(hw.outputs)
    ensures hw.odr == Execute(old(hw.odr), Command(port, pin, Low))
  {
    hw.Write(port, pin, Low);
  }

  /** Switching a relay on, or off, twice has the effect of doing it once. */
  lemma SwitchIdempotent(odr: map<Port, Register>, cmd: Command)
    requires cmd.port in odr
    ensures Execute(Execute(odr, cmd), cmd) == Execute(odr, cmd)
  {
    WriteBitIdempotent(odr[cmd.port], cmd.pin, cmd.level);
  }

  /** Of two switchings of one relay, the second decides its state. */
  lemma SwitchLastWins(odr: map<Port, Register>, port: Port, pin: Pin, first: Level, second: Level)
    requires port in odr
    ensures Execute(Execute(odr, Command(port, pin, first)), Command(port, pin, second))
         == Execute(odr, Command(port, pin, second))
  {
    WriteBitOverwrites(odr[port], pin, first, second);
  }

  /**
   * Initialising a relay pin twice leaves the registers of all ports as
   * initialising it once, with the update RelayGpioInit makes.
   */
  lemma GpioInitIdempotent(odr: map<Port, Register>, outputs: map<Port, Register>, port: Port, pin: Pin)
    requires port in odr && port in outputs
    ensures var once := odr[port := WriteBit(odr[port], pin, Low)];
      once[port := WriteBit(once[port], pin, Low)] == once
    ensures var once := outputs[port := WriteBit(outputs[port], pin, High)];
      once[port := WriteBit(once[port], pin, High)] == once
  {
    WriteBitIdempotent(odr[port], pin, Low);
    WriteBitIdempotent(outputs[port], pin, High);
  }

  /**
   * `relay_instruction_analysis`: decode the two bytes and, if they are a
   * valid instruction, perform its single write. Returns whether the
   * instruction was executed; a rejected instruction changes nothing.
   */
  method RelayInstructionAnalysis(hw: Controller, portCode: bv8, pinCode: bv8) returns (executed: bool)
    requires hw.Valid()
    modifies hw
    ensures hw.Valid() && hw.outputs == old(hw.outputs)
    ensures executed <==> Decode(portCode, pinCode).Some?
    ensures executed ==> hw.odr == Execute(old(hw.odr), Decode(portCode, pinCode).value)
    ensures !executed ==> hw.odr == old(hw.odr)
  {
    var cmd := Decode(portCode, pinCode);
    if cmd.None? {
      return false;
    }
    hw.Write(cmd.value.port, cmd.value.pin, cmd.value.level);
    return true;
  }

  // ---------------------------------------------------------------------
  // The status payload
  // ---------------------------------------------------------------------

  /** The payload type tag: a relay control report. */
  const StatusTag: bv8 := 0x01

  /** The fixed payload size. */
  const StatusSize: nat := 16

  /** The reported pins, each with the payload offset of its level byte. */
  const Tracked: seq<(Pin, nat)> := [(4, 2), (5, 4), (8, 6), (9, 8), (11, 10), (14, 12), (15, 15)]

  /** The payload bytes that carry a pin level. */
  const LevelOffsets: set<nat> := set j | 0 <= j < |Tracked| :: Tracked[j].1

  /** Bit `k` of a register, moved down to bit 0 of a byte. */
  function BitByte(r: Register, k: Pin): (b: bv8)
    ensures b == LevelByte(LevelOf(r, k))
  {
    if r[k] then 1 else 0
  }

  /** The byte a level is reported as. */
  function LevelByte(level: Level): bv8 {
    match level
    case Low => 0
    case High => 1
  }

  /**
   * The payload `relay_read_pins_status` builds from a port's ODR: sixteen
   * zero bytes, then the tag at byte 0 and, at each level offset, the ODR
   * bit of its pin.
   */
  function StatusReport(odr: Register): (r: seq<bv8>)
    ensures |r| == StatusSize && r[0] == StatusTag
  {
    seq(StatusSize, _ => 0)
      [0 := StatusTag]
      [2 := BitByte(odr, 4)]
      [4 := BitByte(odr, 5)]
      [6 := BitByte(odr, 8)]
      [8 := BitByte(odr, 9)]
      [10 := BitByte(odr, 11)]
      [12 := BitByte(odr, 14)]
      [15 := BitByte(odr, 15)]
  }

  /**
   * The layout of the status payload: the level of each tracked pin at its
   * offset, as 0 or 1, and zero in every other byte after the tag.
   */
  lemma StatusLayout(odr: Register)
    ensures forall j :: 0 <= j < |Tracked| ==>
      StatusReport(odr)[Tracked[j].1] == LevelByte(LevelOf(odr, Tracked[j].0))
    ensures forall i :: 1 <= i < StatusSize && i !in LevelOffsets ==> StatusReport(odr)[i] == 0
  {
    assert Tracked[0].1 == 2 && Tracked[1].1 == 4 && Tracked[2].1 == 6 && Tracked[3].1 == 8;
    assert Tracked[4].1 == 10 && Tracked[5].1 == 12 && Tracked[6].1 == 15;
    assert {2, 4, 6, 8, 10, 12, 15} <= LevelOffsets;
  }

  /** `memset(a, 0, StatusSize)`: zero the first StatusSize bytes of `a`. */
  method ClearBytes(a: array<bv8>)
    requires a.Length >= StatusSize
    modifies a
    ensures a[..StatusSize] == seq(StatusSize, _ => 0)
    ensures a[StatusSize..] == old(a[StatusSize..])
  {
    var i := 0;
    while i < StatusSize
      invariant i <= StatusSize
      invariant forall k :: 0 <= k < i ==> a[k] == 0
      invariant forall k :: StatusSize <= k < a.Length ==> a[k] == old(a[k])
    {
      a[i] := 0;
      i := i + 1;
    }
  }

  /**
   * `relay_read_pins_status`: fill the first 16 bytes of `appData` with the
   * status payload of `port` and return the payload size.
   */
  method RelayReadPinsStatus(hw: Controller, port: Port, appData: array<bv8>) returns (appDataSize: bv8)
    requires hw.Valid() && appData.Length >= StatusSize
    modifies appData
    ensures appData[..StatusSize] == StatusReport(hw.odr[port])
    ensures appData[StatusSize..] == old(appData[StatusSize..])
    ensures appDataSize as nat == StatusSize
  {
    var odr := hw.odr[port];
    ClearBytes(appData);
    appData[0] := StatusTag;
    appData[2] := BitByte(odr, 4);
    appData[4] := BitByte(odr, 5);
    appData[6] := BitByte(odr, 8);
    appData[8] := BitByte(odr, 9);
    appData[10] := BitByte(odr, 11);
    appData[12] := BitByte(odr, 14);
    appData[15] := BitByte(odr, 15);
    appDataSize := 16;
    assert hw.odr[port] == odr;
  }

  // ---------------------------------------------------------------------
  // Instructions and status reports together
  // ---------------------------------------------------------------------

  /**
   * After an accepted instruction for a tracked pin, the status payload of
   * its port reports the level written, at that pin's offset.
   */
  lemma ReportShowsExecutedCommand(odr: map<Port, Register>, portCode: bv8, pinCode: bv8, j: nat)
    requires odr.Keys == AllPorts
    requires Decode(portCode, pinCode).Some?
    requires j < |Tracked| && Tracked[j].0 == Decode(portCode, pinCode).value.pin
    ensures StatusReport(Execute(odr, Decode(portCode, pinCode).value)[Decode(portCode, pinCode).value.port])[Tracked[j].1]
         == LevelByte(Decode(portCode, pinCode).value.level)
  {
    var cmd := Decode(portCode, pinCode).value;
    StatusLayout(Execute(odr, cmd)[cmd.port]);
  }

  /** The status payload depends only on the ODR bits of the tracked pins. */
  lemma ReportDependsOnTrackedBits(r: Register, s: Register)
    requires forall j :: 0 <= j < |Tracked| ==> r[Tracked[j].0] == s[Tracked[j].0]
    ensures StatusReport(r) == StatusReport(s)
  {
    assert Tracked[0].0 == 4 && Tracked[1].0 == 5 && Tracked[2].0 == 8 && Tracked[3].0 == 9;
    assert Tracked[4].0 == 11 && Tracked[5].0 == 14 && Tracked[6].0 == 15;
  }

  /**
   * Pins 6 and 7 are accepted by the decoder but absent from the status
   * payload: writing them leaves every report unchanged.
   */
  lemma UntrackedPinsNotReported(odr: map<Port, Register>, cmd: Command)
    requires cmd.port in odr && (cmd.pin == 6 || cmd.pin == 7)
    ensures forall p :: p in odr ==> StatusReport(Execute(odr, cmd)[p]) == StatusReport(odr[p])
  {
  }
}
