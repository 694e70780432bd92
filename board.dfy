/**
 * The relay part of board start-up: the seven relay pins of GPIOA are made
 * outputs driving low, so that every relay starts switched off. Clock,
 * UART, RTC, interrupt and radio bring-up are not part of this model.
 */
module Board {
  import opened Gpio
  import opened Relay

  /** The relay pins configured at start-up, all on GPIOA, in start-up order. */
  const RelayPins: seq<Pin> := [4, 5, 8, 9, 11, 14, 15]

  /** The payload reported while every relay is off. */
  const AllOffReport: seq<bv8> := [0x01, 0, 0, 0, 0, 0, 0, 0, 0, 0, 0, 0, 0, 0, 0, 0]

  /** The start-up relay pins are exactly the pins the status payload reports. */
  lemma RelayPinsAreTracked()
    ensures |RelayPins| == |Tracked|
    ensures forall j :: 0 <= j < |Tracked| ==> RelayPins[j] == Tracked[j].0
  {
  }

  /** Driving `pins` to `level`, one after another. */
  function DrivePins(r: Register, pins: seq<Pin>, level: Level): Register
    decreases |pins|
  {
    if pins == [] then r else DrivePins(WriteBit(r, pins[0], level), pins[1..], level)
  }

  /** After driving `pins`, each of them is at `level` and every other pin is as before. */
  lemma {:induction false} DrivePinsEffect(r: Register, pins: seq<Pin>, level: Level)
    decreases |pins|
    ensures forall q: Pin :: q in pins ==> LevelOf(DrivePins(r, pins, level), q) == level
    ensures forall q: Pin :: q !in pins ==> DrivePins(r, pins, level)[q] == r[q]
  {
    if pins != [] {
      var r1 := WriteBit(r, pins[0], level);
      DrivePinsEffect(r1, pins[1..], level);
      forall q: Pin | q in pins
        ensures LevelOf(DrivePins(r, pins, level), q) == level
      {
        if q !in pins[1..] {
          assert q == pins[0];
        }
      }
      forall q: Pin | q !in pins
        ensures DrivePins(r, pins, level)[q] == r[q]
      {
        assert q != pins[0] && q !in pins[1..];
      }
    }
  }

  /** While every relay pin is low, the payload reports every relay off. */
  lemma ReportAllOff(odr: Register)
    requires forall j :: 0 <= j < |RelayPins| ==> LevelOf(odr, RelayPins[j]) == Low
    ensures StatusReport(odr) == AllOffReport
  {
    RelayPinsAreTracked();
    ReportDependsOnTrackedBits(odr, Cleared);
  }

  /** Start-up leaves every relay pin low, so GPIOA reports every relay off. */
  lemma StartupReportsAllOff(r: Register)
    ensures StatusReport(DrivePins(r, RelayPins, Low)) == AllOffReport
  {
    DrivePinsEffect(r, RelayPins, Low);
    ReportAllOff(DrivePins(r, RelayPins, Low));
  }

  /**
   * Configure the relay pins as `main` does: on GPIOA each relay pin is
   * driven low and becomes an output, one after another; no other pin or
   * port changes.
   */
  method InitRelays(hw: Controller)
    requires hw.Valid()
    modifies hw
    ensures hw.Valid()
    ensures hw.odr[A] == DrivePins(old(hw.odr)[A], RelayPins, Low)
    ensures hw.outputs[A] == DrivePins(old(hw.outputs)[A], RelayPins, High)
    ensures forall p: Port :: p != A ==> hw.odr[p] == old(hw.odr)[p] && hw.outputs[p] == old(hw.outputs)[p]
  {
    ghost var o0, e0 := hw.odr[A], hw.outputs[A];
    RelayGpioInit(hw, A, 4);
    ghost var o4, e4 := hw.odr[A], hw.outputs[A];
    RelayGpioInit(hw, A, 5);
    ghost var o5, e5 := hw.odr[A], hw.outputs[A];
    RelayGpioInit(hw, A, 8);
    ghost var o8, e8 := hw.odr[A], hw.outputs[A];
    RelayGpioInit(hw, A, 9);
    ghost var o9, e9 := hw.odr[A], hw.outputs[A];
    RelayGpioInit(hw, A, 11);
    ghost var o11, e11 := hw.odr[A], hw.outputs[A];
    RelayGpioInit(hw, A, 14);
    ghost var o14, e14 := hw.odr[A], hw.outputs[A];
    RelayGpioInit(hw, A, 15);
    DriveInOrder(o0, Low, o4, o5, o8, o9, o11, o14, hw.odr[A]);
    DriveInOrder(e0, High, e4, e5, e8, e9, e11, e14, hw.outputs[A]);
  }

  /** Seven single-pin writes in start-up order are DrivePins over RelayPins. */
  lemma DriveInOrder(r: Register, level: Level,
                     r4: Register, r5: Register, r8: Register, r9: Register,
                     r11: Register, r14: Register, r15: Register)
    requires r4 == WriteBit(r, 4, level) && r5 == WriteBit(r4, 5, level)
    requires r8 == WriteBit(r5, 8, level) && r9 == WriteBit(r8, 9, level)
    requires r11 == WriteBit(r9, 11, level) && r14 == WriteBit(r11, 14, level)
    requires r15 == WriteBit(r14, 15, level)
    ensures r15 == DrivePins(r, RelayPins, level)
  {
    var ps := RelayPins;
    assert ps[1..] == [5, 8, 9, 11, 14, 15];
    assert ps[1..][1..] == [8, 9, 11, 14, 15];
    assert ps[1..][1..][1..] == [9, 11, 14, 15];
    assert ps[1..][1..][1..][1..] == [11, 14, 15];
    assert ps[1..][1..][1..][1..][1..] == [14, 15];
    assert ps[1..][1..][1..][1..][1..][1..] == [15];
    assert DrivePins(r14, [15], level) == r15 by {
      assert [15][1..] == [];
    }
  }
}
