# Relay driver of the ASR6601 LoRa relay node

This project models the relay driver of the ASR6601CB evaluation-board
template. The driver does four things:

- it configures a GPIO pin as a relay output, driving low (`relay_gpio_init`);
- it switches one relay on or off (`relay_on`, `relay_off`);
- it interprets a two-byte remote instruction and drives the selected pin
  (`relay_instruction_analysis`);
- it serialises the levels of the seven relay pins of a port into a 16-byte
  uplink payload (`relay_read_pins_status`).

The model also covers the start-up sequence in `main`, which makes GPIOA
pins 4, 5, 8, 9, 11, 14 and 15 relay outputs.

The project has three modules:

- `Gpio` (gpio.dfy) holds the hardware state the driver touches. A
  `Controller` object keeps the output-data register (ODR) and the
  output-enable state of each of the four ports GPIOA to GPIOD. Each register
  is a sequence of 16 bits, where element `k` is the bit of pin `k`.
- `Relay` (relay.dfy) holds the driver. The instruction decoder is the pure
  function `Decode`, which works on bytes (`bv8`) with the same masks and
  shifts as the C code. `Encode` inverts `Decode` on commands whose pin the
  decoder accepts, and every accepted instruction is an encoding. The effect of a command is
  the function `Execute`. The driver entry points are methods that act on a
  `Controller`, and the status payload is written into an `array<bv8>`
  in place, as the C code writes `AppData`.
- `Board` (board.dfy) holds the relay part of start-up.

Two facts come out of the decoder that are easy to miss when reading it:

- The pin number is the high nibble of the second byte, so it is always
  between 0 and 15. The allow-list entries 16, 17 and 60 can therefore never
  match. The pins an instruction can select are exactly 4–9, 11, 14 and 15.
- Pins 6 and 7 are accepted by the decoder but are not part of the status
  payload. Writing them never changes a report.

## Model

| member | source | states |
|---|---|---|
| Gpio.WriteBit | ASR6601-getting-started-guide-main/SDK/projects/ASR6601CB-EVAL/template/src/relay.c:23-38 | after a write the pin reads back at the written level and every other pin of the register is unchanged |
| Gpio.WriteBitIdempotent | ASR6601-getting-started-guide-main/SDK/projects/ASR6601CB-EVAL/template/src/relay.c:23-38 | writing the same level to a pin twice is the same as writing it once |
| Gpio.WriteBitOverwrites | ASR6601-getting-started-guide-main/SDK/projects/ASR6601CB-EVAL/template/src/relay.c:25 | a property of the register model of `gpio_write`: of two writes to one pin, the second level wins |
| Gpio.WriteBitCommutes | ASR6601-getting-started-guide-main/SDK/projects/ASR6601CB-EVAL/template/src/relay.c:25 | a property of the register model of `gpio_write`: writes to two different pins of one port give the same register in either order |
| Gpio.Controller.Write | ASR6601-getting-started-guide-main/SDK/projects/ASR6601CB-EVAL/template/src/relay.c:25 | `gpio_write`: the ODR of the port changes only at the written pin; the output-enable state is unchanged |
| Gpio.Controller.InitOutputLow | ASR6601-getting-started-guide-main/SDK/projects/ASR6601CB-EVAL/template/src/relay.c:13 | `gpio_init` in push-pull-low mode: the pin's ODR bit is cleared and the pin becomes an output; no other pin changes |
| Relay.PinField | ASR6601-getting-started-guide-main/SDK/projects/ASR6601CB-EVAL/template/src/relay.c:56 | the pin number is the high nibble of the second byte: it is below 16 and equals the byte divided by 16 |
| Relay.LevelField | ASR6601-getting-started-guide-main/SDK/projects/ASR6601CB-EVAL/template/src/relay.c:55 | the level code is the low nibble of the second byte: it is below 16 and equals the byte modulo 16 |
| Relay.AllowListed | ASR6601-getting-started-guide-main/SDK/projects/ASR6601CB-EVAL/template/src/relay.c:95-96 | the pin condition as written: true exactly for 4–9, 11, 14, 15, 16, 17 and 60 |
| Relay.PortOf | ASR6601-getting-started-guide-main/SDK/projects/ASR6601CB-EVAL/template/src/relay.c:62-86 | the port switch: a port exactly for the low nibbles 0xA to 0xD, none for any other |
| Relay.PortCode | ASR6601-getting-started-guide-main/SDK/projects/ASR6601CB-EVAL/template/src/relay.c:62-83 | every port has a low nibble between 0xA and 0xD, and the decoder's port switch maps that nibble back to the port |
| Relay.LevelCode | ASR6601-getting-started-guide-main/SDK/projects/ASR6601CB-EVAL/template/src/relay.c:99-106 | a level is encoded as the low nibble 0x0 or 0xF, and the code is 0x0 exactly for Low |
| Relay.Decode | ASR6601-getting-started-guide-main/SDK/projects/ASR6601CB-EVAL/template/src/relay.c:47-117 | an accepted instruction has prefix 0xF, a first-byte low nibble naming its port, a pin among the accepted pins equal to the second byte's high nibble, and a level whose code is the second byte's low nibble |
| Relay.Encode | ASR6601-getting-started-guide-main/SDK/projects/ASR6601CB-EVAL/template/src/relay.c:41-44 | the bytes of a command carry the 0xF prefix, its port's nibble, its pin as the high nibble and its level's code as the low nibble |
| Relay.PinNibble | ASR6601-getting-started-guide-main/SDK/projects/ASR6601CB-EVAL/template/src/relay.c:56 | a pin number fits in a nibble and keeps its value as a byte |
| Relay.AllowListEffective | ASR6601-getting-started-guide-main/SDK/projects/ASR6601CB-EVAL/template/src/relay.c:95-96 | the pin field never equals 16, 17 or 60, and the allow-list accepts a pin field exactly when it is one of 4–9, 11, 14, 15 |
| Relay.RejectsBadPrefix | ASR6601-getting-started-guide-main/SDK/projects/ASR6601CB-EVAL/template/src/relay.c:60-91 | a first byte whose high nibble is not 0xF is rejected |
| Relay.PortSelection | ASR6601-getting-started-guide-main/SDK/projects/ASR6601CB-EVAL/template/src/relay.c:60-86 | with prefix 0xF, low nibbles 0xA, 0xB, 0xC, 0xD select GPIOA, GPIOB, GPIOC, GPIOD and any other low nibble is rejected |
| Relay.RejectsBadPin | ASR6601-getting-started-guide-main/SDK/projects/ASR6601CB-EVAL/template/src/relay.c:95-115 | a pin number outside the accepted pins is rejected |
| Relay.RejectsBadLevel | ASR6601-getting-started-guide-main/SDK/projects/ASR6601CB-EVAL/template/src/relay.c:99-110 | a level code other than 0x0 and 0xF is rejected |
| Relay.DecodeAcceptsExactly | ASR6601-getting-started-guide-main/SDK/projects/ASR6601CB-EVAL/template/src/relay.c:47-117 | all or nothing: an instruction is accepted if and only if the first byte is 0xFA–0xFD, the pin is accepted and the level code is 0x0 or 0xF |
| Relay.DecodeEncode | ASR6601-getting-started-guide-main/SDK/projects/ASR6601CB-EVAL/template/src/relay.c:41-44 | every command on an accepted pin decodes back to itself after encoding |
| Relay.EncodeDecode | ASR6601-getting-started-guide-main/SDK/projects/ASR6601CB-EVAL/template/src/relay.c:41-44 | every accepted instruction is the encoding of the command it decodes to |
| Relay.FormatExamples | ASR6601-getting-started-guide-main/SDK/projects/ASR6601CB-EVAL/template/src/relay.c:53-115 | (0xFA, 0x4F) drives A4 high, (0xFA, 0x40) drives A4 low, and (0xFE, 0x4F) is rejected |
| Relay.DocumentedExamples | ASR6601-getting-started-guide-main/SDK/projects/ASR6601CB-EVAL/template/src/relay.c:42-43 | the documented bytes: (0xFA, 0xFF) drives A15 high, (0xFD, 0xFF) drives D15 high, and the documented second byte 0x00 is rejected with either first byte, since pin 0 is not allowed |
| Relay.Execute | ASR6601-getting-started-guide-main/SDK/projects/ASR6601CB-EVAL/template/src/relay.c:99-106 | the selected pin of the selected port reads back at the command's level; every other pin of that port and every other port are unchanged |
| Relay.RelayGpioInit | ASR6601-getting-started-guide-main/SDK/projects/ASR6601CB-EVAL/template/src/relay.c:10-14 | the pin of the port is driven low and becomes an output; nothing else changes |
| Relay.RelayOn | ASR6601-getting-started-guide-main/SDK/projects/ASR6601CB-EVAL/template/src/relay.c:23-26 | the ODR becomes that of executing "drive the pin high"; the output-enable state is unchanged |
| Relay.RelayOff | ASR6601-getting-started-guide-main/SDK/projects/ASR6601CB-EVAL/template/src/relay.c:35-38 | the ODR becomes that of executing "drive the pin low"; the output-enable state is unchanged |
| Relay.SwitchLastWins | ASR6601-getting-started-guide-main/SDK/projects/ASR6601CB-EVAL/template/src/relay.c:23-38 | switching a relay on or off and then on or off again leaves every port as the second switching alone |
| Relay.GpioInitIdempotent | ASR6601-getting-started-guide-main/SDK/projects/ASR6601CB-EVAL/template/src/relay.c:10-14 | applying the register update of RelayGpioInit twice to the ODR and output maps of all ports gives the same maps as applying it once |
| Relay.SwitchIdempotent | ASR6601-getting-started-guide-main/SDK/projects/ASR6601CB-EVAL/template/src/relay.c:23-38 | switching a relay on, or off, twice has the same effect as once |
| Relay.RelayInstructionAnalysis | ASR6601-getting-started-guide-main/SDK/projects/ASR6601CB-EVAL/template/src/relay.c:47-117 | returns true exactly when the bytes decode; then the ODR is that of executing the decoded command, and otherwise no register changes |
| Relay.BitByte | ASR6601-getting-started-guide-main/SDK/projects/ASR6601CB-EVAL/template/src/relay.c:132-138 | `(ODR & mask) >> k`: the level of pin k as the byte 0 or 1 |
| Relay.StatusReport | ASR6601-getting-started-guide-main/SDK/projects/ASR6601CB-EVAL/template/src/relay.c:127-140 | the payload has 16 bytes and byte 0 is the tag 0x01 |
| Relay.StatusLayout | ASR6601-getting-started-guide-main/SDK/projects/ASR6601CB-EVAL/template/src/relay.c:129-138 | the byte at each of the offsets 2, 4, 6, 8, 10, 12, 15 is the level of pin 4, 5, 8, 9, 11, 14, 15 as 0 or 1, and every other byte after the tag is 0 |
| Relay.ClearBytes | ASR6601-getting-started-guide-main/SDK/projects/ASR6601CB-EVAL/template/src/relay.c:129 | the first 16 bytes of the buffer become 0 and the rest of the buffer is unchanged |
| Relay.RelayReadPinsStatus | ASR6601-getting-started-guide-main/SDK/projects/ASR6601CB-EVAL/template/src/relay.c:127-140 | the first 16 bytes of the buffer become the status payload of the port's ODR, the rest of the buffer is unchanged, and the returned size is 16 |
| Relay.ReportShowsExecutedCommand | ASR6601-getting-started-guide-main/SDK/projects/ASR6601CB-EVAL/template/src/relay.c:99-138 | after an accepted instruction for a reported pin, the payload of its port shows the written level at that pin's offset |
| Relay.ReportDependsOnTrackedBits | ASR6601-getting-started-guide-main/SDK/projects/ASR6601CB-EVAL/template/src/relay.c:132-138 | two registers that agree on pins 4, 5, 8, 9, 11, 14 and 15 give the same payload |
| Relay.UntrackedPinsNotReported | ASR6601-getting-started-guide-main/SDK/projects/ASR6601CB-EVAL/template/src/relay.c:95-138 | executing a command for pin 6 or 7 leaves the payload of every port unchanged |
| Board.RelayPinsAreTracked | ASR6601-getting-started-guide-main/SDK/projects/ASR6601CB-EVAL/template/src/main.c:63-69 | the pins configured at start-up are, in order, exactly the pins the payload reports |
| Board.DrivePins | ASR6601-getting-started-guide-main/SDK/projects/ASR6601CB-EVAL/template/src/main.c:63-69 | a register after driving a list of pins one after another; what it yields is stated by DrivePinsEffect |
| Board.DrivePinsEffect | ASR6601-getting-started-guide-main/SDK/projects/ASR6601CB-EVAL/template/src/main.c:63-69 | after driving a list of pins, each of them is at the level and every other pin is unchanged |
| Board.DriveInOrder | ASR6601-getting-started-guide-main/SDK/projects/ASR6601CB-EVAL/template/src/main.c:63-69 | the seven single-pin writes in start-up order amount to driving the relay pin list |
| Board.ReportAllOff | ASR6601-getting-started-guide-main/SDK/projects/ASR6601CB-EVAL/template/src/relay.c:129-138 | while every relay pin is low, the payload is 0x01 followed by fifteen zero bytes |
| Board.StartupReportsAllOff | ASR6601-getting-started-guide-main/SDK/projects/ASR6601CB-EVAL/template/src/main.c:63-69 | right after start-up, GPIOA reports every relay off |
| Board.InitRelays | ASR6601-getting-started-guide-main/SDK/projects/ASR6601CB-EVAL/template/src/main.c:63-69 | on GPIOA each relay pin is driven low and becomes an output; every other pin and every other port is unchanged |

## Left out

- The debug logging at relay.c lines 57 and 130 is not modelled. It has no
  effect on state.
- `gpio_set_iomux` (relay.c line 12) is not modelled. It selects the pin's
  alternate function, which no other operation of the driver observes.
- `gpio_init` and `gpio_write` are modelled by their effect on the ODR and the
  output-enable state. The register-level code of the GPIO library is not
  part of this model.
- tremo_regs.h is not part of this model. The ODR is modelled as 16 bits,
  one per pin, which is all the driver ever reads.
- Gpio.Controller.Write, Relay.RelayOn, Relay.RelayOff, Relay.RelayGpioInit:
  pin numbers are limited to 0–15, where the C prototypes take any `uint8_t`.
  The decoder can only produce pins below 16, and start-up passes pins 4 to 15.
  Other callers of `relay_on`, `relay_off` and `relay_gpio_init` are not part
  of this model.
- Gpio.Controller.constructor: the power-on values of the registers are
  modelled as cleared. The real reset values come from the chip.
- The rest of `main` (clocks, UART, RTC, interrupts, the LoRaWAN stack) is
  not modelled. Neither is the code that calls the driver from received
  downlinks.
- Concurrency is not modelled: an interrupt that writes GPIO registers while
  a driver operation runs is outside the model.
