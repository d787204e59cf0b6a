# A7105 radio driver, modelled in Dafny

This project models the register-access and control logic of a driver for
the A7105 2.4 GHz FSK/GFSK transceiver, which a host microcontroller reaches
over SPI with a chip-select line. It has three layers:

- **Constants and bit helpers** (`a7105_defs.dfy`, module `A7105Defs`):
  - the `A7105_READ`/`A7105_WRITE` address macros;
  - the `SET`/`CLEAR`/`TOGGLE`/`TEST_BIT` macros;
  - the TX/RX state, the eight strobe opcodes and the 51-entry register map;
  - the calibration failure masks.
- **Transport layer** (`a7105_spi.dfy`, module `A7105Spi`): how a strobe, a
  register write, a register read, the 32-bit ID and the FIFO bursts are
  framed on the bus.
- **Device control** (`a7105.dfy`, module `A7105`): the reset sequence and
  its PLL read-back check, the TX/RX/off GPIO settings, calibration and its
  6-bit result, and the TX power byte.

`spi_bus.dfy` (module `SpiBus`) stands in for the HAL's GPIO, SPI and delay
calls. `wrappers.dfy` holds an `Option` type.

## The bus

`SpiBus.Bus` is a class. Its methods stand in for the HAL calls:

| method | stands in for |
|---|---|
| `Select` | driving chip-select low |
| `Transmit` | `HAL_SPI_Transmit` |
| `Receive` | `HAL_SPI_Receive` |
| `Deselect` | driving chip-select high |
| `Wait` | `HAL_Delay` |

The bus keeps a history `log: Log`, a snoc-list in which `Then(before, last)`
appends one entry:

- `Xfer(out, got)` records one chip-select window: the bytes shifted out,
  then the bytes clocked in.
- `Pause(ms)` records one blocking wait.

The functions `Steps`, `Sent` and `Got` view a history as:

- its list of entries;
- everything the chip received;
- everything the host clocked in.

Bytes clocked in come from a script fixed at construction, which plays the
part of the chip: `Chip(script, k)` is the k-th byte read back.

The preconditions of the bus methods are the chip-select protocol:

- a window opens only when none is open;
- bytes move only inside a window, all bytes out before any byte in;
- waits happen with the chip released.

Every driver operation requires, and ensures, `!bus.selected`, that is, the
chip released between driver calls. Each operation's postcondition gives
the new history as a function of the old one: `StrobeStep`, `WriteStep`,
`ReadStep`, `IdWriteStep`, `WriteDataLog`, `ReadDataLog`, `ModeLog`,
`ResetLog` or `CalibLog`. Lemmas about those functions give the exact bytes
and windows on the wire.

`A7105Spi.Commands` is an independent reading of a window from the chip's
side. Two of its rules are the address-byte layout that
`src/a7105_spi.c:71-72` documents:

- bit 7 set means a strobe;
- otherwise bit 6 set means a register read and bit 6 clear a register
  write, and bits 5..0 name the register.

The other three rules are assumptions of this model about the chip, not
stated in the source:

- a strobe is one byte, and the next byte of the same window starts a new
  command (the FIFO burst at `src/a7105_spi.c:96-104` relies on this);
- a register write takes every remaining byte of the window as data;
- a byte with bit 7 set that is no strobe opcode decodes as `Unknown`.

The `...Decodes` lemmas show that every window the driver sends decodes as
the command it is meant to be.

## Model

| member | source | states |
|---|---|---|
| A7105Defs.WriteAddress | src/inc/a7105.h:13 | the result has bit 6 clear and every other bit of the argument unchanged |
| A7105Defs.ReadAddress | src/inc/a7105.h:14 | the result has bit 6 set and every other bit of the argument unchanged |
| A7105Defs.AddressFramingIdempotent | src/inc/a7105.h:13-14 | READ and WRITE are each idempotent; WRITE(READ(a)) == WRITE(a) and READ(WRITE(a)) == READ(a) |
| A7105Defs.TestBit | src/inc/a7105.h:18 | computed on the byte promoted to int: the result is 0 or 1, and it is 1 exactly when the index is below 8 and that bit of the byte is set |
| A7105Defs.SetBit | src/inc/a7105.h:15 | computed at int width and truncated to the stored byte: no bit of the byte is lost, and an index of 8..30 leaves the byte unchanged (SetBitAt gives the per-bit effect) |
| A7105Defs.ClearBit | src/inc/a7105.h:16 | computed at int width and truncated to the stored byte: no bit is gained, and an index of 8..30 leaves the byte unchanged (ClearBitAt gives the per-bit effect) |
| A7105Defs.ToggleBit | src/inc/a7105.h:17 | computed at int width and truncated to the stored byte: the byte changes exactly when the index is below 8 (ToggleBitAt gives the per-bit effect) |
| A7105Defs.SetBitAt | src/inc/a7105.h:15 | after SET_BIT, TEST_BIT of the chosen bit is 1 and every other bit is unchanged |
| A7105Defs.ClearBitAt | src/inc/a7105.h:16 | after CLEAR_BIT, TEST_BIT of the chosen bit is 0 and every other bit is unchanged |
| A7105Defs.ToggleBitAt | src/inc/a7105.h:17 | after TOGGLE_BIT, the chosen bit is flipped and every other bit is unchanged |
| A7105Defs.ToggleTwice | src/inc/a7105.h:17 | toggling the same bit twice restores the byte |
| A7105Defs.BitsDetermineByte | src/inc/a7105.h:18 | two bytes with the same eight TEST_BIT values are equal |
| A7105Defs.Opcode | src/inc/a7105.h:33-42 | the enum value of each strobe, the whole wire byte: at least 0x80 with a zero low nibble (OpcodeRoundTrip and OpcodesDistinct give the rest) |
| A7105Defs.StrobeOf | src/inc/a7105.h:33-42 | a byte decodes as a strobe exactly when it is at least 0x80 with a zero low nibble |
| A7105Defs.OpcodeRoundTrip | src/inc/a7105.h:33-42 | every opcode is at least 0x80 with a zero low nibble, is changed by `& 0x3F` (so it is no 6-bit address) and decodes back to its strobe |
| A7105Defs.OpcodesDistinct | src/inc/a7105.h:33-42 | different strobes have different opcodes |
| A7105Defs.StrobeOfOpcode | src/inc/a7105.h:33-42 | every byte that decodes as a strobe is that strobe's opcode |
| A7105Defs.RegisterMapIsSixBit | src/inc/a7105.h:48-100 | the map has 51 registers at addresses 0x00..0x32 in order, each unchanged by `& 0x3F` |
| A7105Defs.MasksMatchTestedBits | src/inc/a7105.h:104-107 | FBCF is 0x10 and VBCF is 0x08, selecting the bits calibration tests with TEST_BIT on registers 0x22 and 0x25 |
| A7105Spi.RegisterAddress | src/a7105_spi.c:73 | `address &= 0x3f`: the byte sent is below 0x40, so it is neither a read command nor a strobe |
| A7105Spi.ReadCommand | src/a7105_spi.c:84-85 | `reg &= 0x3f; reg \|= 0x40`: the byte sent lies in 0x40..0x7F, the read-command range |
| A7105Spi.AddressBits | src/a7105_spi.c:73-85 | a write address has bits 7 and 6 clear, a read command has bit 7 clear and bit 6 set, and both keep the register's low six bits; they agree with the WRITE and READ macros |
| A7105Spi.AddressNeverStrobe | src/a7105_spi.c:71-73 | no write address or read command equals a strobe opcode or decodes as a strobe |
| A7105Spi.NamedRegisterFraming | src/inc/a7105.h:48-100 | every named register is framed as its own address, and read with bit 6 added |
| A7105Spi.IdBytes | src/a7105_spi.c:37-40 | an ID splits into 4 bytes: bits 31..24, 23..16, 15..8 and 7..0, in that order |
| A7105Spi.IdFromBytes | src/a7105_spi.c:60-63 | assembling 4 bytes gives the ID whose split is exactly those bytes |
| A7105Spi.IdRoundTrip | src/a7105_spi.c:37-63 | assembling the split of an ID gives the ID back |
| A7105Spi.RegisterWindowsDecode | src/a7105_spi.c:69-93 | for every address byte, the chip decodes a register-write window as one write of the data to register `address & 0x3F`, and a register-read window as one read of that register |
| A7105Spi.StrobeWindowDecodes | src/a7105_spi.c:24-28 | a strobe window decodes as that strobe alone |
| A7105Spi.IdWriteWindowDecodes | src/a7105_spi.c:30-45 | setting the ID decodes as one write of the four ID bytes to register 0x06 |
| A7105Spi.FifoBurstDecodes | src/a7105_spi.c:96-106 | the FIFO burst decodes as the write-pointer reset strobe, then one write of the whole payload to register 0x05 |
| A7105Spi.WriteDataLogWire | src/a7105_spi.c:95-109 | a packet write adds three windows: [0xE0, 0x05] + payload, then [0x0F, channel], then [0xD0]; the chip receives exactly those bytes and nothing is clocked in |
| A7105Spi.FifoReadsSteps | src/a7105_spi.c:114-116 | the per-byte FIFO reads add one window per byte, keeping the earlier history; window i sends 0x45 and clocks in byte i |
| A7105Spi.FifoReadsWire | src/a7105_spi.c:114-116 | over the per-byte reads, the chip receives 0x45 once per byte and the host clocks in exactly the bytes read |
| A7105Spi.ReadDataLogWire | src/a7105_spi.c:111-117 | a packet read sends 0xF0 and then 0x45 once per byte, and clocks in exactly the bytes stored |
| A7105Spi.GetIdAsWrittenSendsWriteCommand | src/a7105_spi.c:55-57 | as written, reading the ID sends 0x06, the same first byte as setting the ID, and the chip decodes it as a write to register 0x06 |
| A7105Spi.GetIdSendsReadCommand | src/a7105_spi.c:55-57 | corrected, reading the ID sends 0x46, which the chip decodes as a read of register 0x06 |
| A7105Spi.SendStrobe | src/a7105_spi.c:24-28 | one window holding only the opcode; nothing is clocked in |
| A7105Spi.RegWrite | src/a7105_spi.c:69-79 | one window [address & 0x3F, data]; nothing is clocked in |
| A7105Spi.RegRead | src/a7105_spi.c:81-93 | one window that sends (reg & 0x3F) \| 0x40 and clocks in one byte, which it returns |
| A7105Spi.SetId | src/a7105_spi.c:30-45 | one window holding 0x06 and the ID, most significant byte first |
| A7105Spi.GetIdAsWritten | src/a7105_spi.c:47-67 | one window sending 0x06 and clocking in 4 bytes; it returns them assembled most significant first |
| A7105Spi.GetId | src/a7105_spi.c:47-67 | as GetIdAsWritten, with the command byte 0x46 |
| A7105Spi.WriteData | src/a7105_spi.c:95-109 | the history grows by the packet-write windows for `data[..len]` and the channel |
| A7105Spi.ReadData | src/a7105_spi.c:111-117 | buffer[..len] holds the next len bytes the chip drives back, buffer[len..] is unchanged, and the history grows by the packet-read windows for exactly the stored bytes |
| A7105.GpioSetting | src/a7105.c:21-36 | the GPIO pair of each mode decodes back to that mode |
| A7105.ModeOfGpioSetting | src/a7105.c:21-36 | every GPIO pair that names a mode is that mode's setting |
| A7105.GpioSettingsDistinct | src/a7105.c:21-36 | the three modes have distinct settings; TX mirrors RX, and off drives both registers alike (the cross-wired amplifier) |
| A7105.ModeLogWire | src/a7105.c:21-36 | setting a mode is exactly two register writes, 0x0B then 0x0C, with the mode's values; nothing is clocked in |
| A7105.SetTxRxMode | src/a7105.c:21-36 | the history grows by the two GPIO register writes of the mode |
| A7105.ResetLogWire | src/a7105.c:7-19 | reset is, in order: [0x00, 0x00], a 1000 ms wait, [0x0B, 0x33], [0x0C, 0x33], a read of 0x10, then the 0xA0 strobe; the read-back is the only byte clocked in |
| A7105.Reset | src/a7105.c:7-19 | returns 1 when PLL register II reads back 0x9E and 0 otherwise, and the history grows by the reset windows |
| A7105.CalibFlags | src/a7105.c:57-86 | the calibration result from the four read-backs, built by the source's six flag steps in order; it never exceeds 0x3F (CalibFlagsBits, CalibSuccessIff and CalibExtremes give its meaning) |
| A7105.CalibFlagsBits | src/a7105.c:57-86 | bits 0x10, 0x01 and 0x04 of the result are bits 0, 1 and 2 of register 0x02; 0x20, 0x02 and 0x08 are the failure bits of registers 0x22, 0x25 and 0x24; bits 7 and 6 are always clear |
| A7105.CalibSuccessIff | src/inc/a7105.h:119-125 | the result is 0 exactly when none of the six tested bits is set |
| A7105.CalibExtremes | src/inc/a7105.h:119-125 | with all three calibrations still running and none failed the result is 0x15; with all three failed and none running it is 0x2A |
| A7105.CalibLogSteps | src/a7105.c:45-88 | calibration is, in order: the 0xB0 strobe, [0x02, 0x07], a 1000 ms wait, reads of 0x02, 0x22, 0x25 and 0x24, then the 0xA0 strobe whatever the result |
| A7105.CalibLogGot | src/a7105.c:57-86 | the four read-backs are the only bytes calibration clocks in, in that order |
| A7105.Calib | src/a7105.c:40-91 | the result is the flag combination of the next four bytes the chip drives back, and the history grows by the calibration windows |
| A7105.PowerByte | src/a7105.c:93-95 | the low three bits are TBG's; for PAC <= 3 and TBG <= 7 the byte is below 0x20, `byte >> 3 == PAC` and `byte & 7 == TBG` |
| A7105.PowerByteFields | src/inc/a7105.h:185-190 | every byte below 0x20 is the packing of its PAC and TBG fields |
| A7105.SetPower | src/a7105.c:93-95 | one write of the packed byte to register 0x28 |

## Left out

- HAL calls (`HAL_GPIO_WritePin`, `HAL_SPI_Transmit`, `HAL_SPI_Receive`,
  `HAL_Delay`) are the methods of `SpiBus.Bus`.
  - The driver ignores their status results, so it has no transport-fault
    path, and neither does the model.
  - The SPI timeout constant has no effect here, and delays are recorded as
    log entries.
- The chip's answers are a finite script. Past its end the chip drives
  0xFF, the level of an undriven, pulled-up data line. How the chip really
  answers (reset self-clearing, calibration completing) is not modelled.
- Within a window, the bus requires every byte out before any byte in. That
  is the order every driver function uses. Full-duplex exchange (what the
  chip returns while the host transmits) is not modelled.
- The pin and peripheral setters (`src/a7105_spi.c:5-22`) only store
  pointers into the global configuration. The bus object stands in for that
  configuration.
- The empty `A7105Init` (`src/a7105.c:3-5`) is not modelled.
- `src/inc/a7105_spi.h` declares `a7105SpiRegWrite16` and
  `a7105SpiRegWrite8`, but they are not defined anywhere. The functions that
  `src/inc/a7105.h` declares under other names and types (`writeRegister`,
  `readRegister`, `strobe`, `writeData`, `readData`, `setId`, `setTxRxMode`,
  a `void A7105Reset`) are not defined either. The model follows the
  functions the `.c` files define.
- `A7105SetTxRxMode` handles any value other than `TX_EN` and `RX_EN` like
  `TXRX_OFF`. The model's `TxRxState` has just the three enumerators, so an
  out-of-range enum value is not modelled.
- `setPower` takes raw PAC and TBG values; the code has no power-level
  table, so the model has none either.
- A7105Defs.SetBit, A7105Defs.ClearBit, A7105Defs.ToggleBit,
  A7105Defs.TestBit: the bit index is a byte rather than a C `int`. Each
  still requires an index in the range where the C shift of 1 is defined
  (below 31 or 32).
- A7105.Calib: each `if (...) retVal |= mask;` step is written as the
  assignment `retVal := Flag(retVal, ..., mask)`. The order of the register
  reads and of the tests is the source's.
- A7105Spi.SendStrobe: sends the opcode byte itself. `a7105SpiStrobe`
  (`src/a7105_spi.c:26`) transmits the first byte in memory of the enum
  argument, which is the opcode only on a little-endian target such as the
  STM32; byte order on other targets is not modelled.

## Findings

| source | as written | input that shows it | evidently intended | confidence | as-written member | corrected member |
|---|---|---|---|---|---|---|
| src/a7105_spi.c:55-57 | `a7105SpiGetId` sends the bare register address 0x06 and then clocks in 4 bytes. Bit 6 is clear, and by the file's own address-byte layout (lines 71-72) that byte starts a write to the ID register: the same first byte that `a7105SpiSetId` sends. | Any call: the window sends [0x06], which `Commands` decodes as `WriteReg(0x06, [])`, not a read. | Send `A7105_READ(0x06)` = 0x46, as `a7105SpiRegRead` does for single registers (lines 83-85). | medium, not executed | A7105Spi.GetIdAsWritten, A7105Spi.GetIdAsWrittenSendsWriteCommand | A7105Spi.GetId, A7105Spi.GetIdSendsReadCommand |
