# MCP23S08 SPI I/O-expander driver, modelled in Dafny

The driver exposes the eight pins of an MCP23S08 expander on an SPI bus. It
turns pin- and port-level requests (set a pin's mode, set the whole port's
mode, write a pin, read a pin, raw register access) into register
transactions. Every transaction has the same shape on the wire: chip-select
goes low, three bytes go out (control byte, register number, data byte), and
chip-select goes high. The control byte is `(0x20 | (address & 3)) << 1`,
and its low bit selects a read.

The model has five modules:

- `Bits` holds the bit arithmetic of the read-modify-write sequences:
  `BitOf`, `Mask`, `SetBit`, `ClearBit` and `WithBit`. Each one's contract
  says which pin bit it reads, sets or clears, and that every other bit is
  unchanged (`OthersUnchanged`).
- `Registers` holds the header's constants (device code 0x20 and the
  eleven register offsets) and the constructor's control-byte encoding.
- `Hal` simulates what the driver consumes from the hardware abstraction
  layer, as the class `Bus`. This covers the SPI transfer, the chip-select
  line, and the expander behind them. The expander is reduced to a
  256-entry register file, so a read returns the last value written to that
  register. A ghost log records every wire event: `CsOutput`, `CsLow`,
  `Xfer(byte)` and `CsHigh`. The HAL's pin-mode and logic-level codes
  (`GPIO_INPUT`, `GPIO_OUTPUT`, `GPIO_INPUT_PULLUP`, `HIGH`) are carried as
  the record `Constants`. Their numeric values live in hal.h, so no property
  depends on them. Where a property needs the three modes to differ, it
  requires `ModesDistinct()`.
- `Protocol` describes transactions on the wire. It defines `Frame` and
  `Frames`, a parser `Parse` that reads a log back into transactions, and
  `Replay`, the register file a device holds after a sequence of
  transactions.
- `Driver` has two parts. One is a pure specification per operation
  (`PinModeSpec`, `PortModeSpec`, `DigitalWriteSpec`, `DigitalReadSpec`):
  the transactions the operation issues, in order, and the value it
  returns. The other is the class `Mcp23s08`. Like the C++ class, it keeps
  only constants: the bus, the chip-select pin and the control byte
  (`_spi`, `_cs_pin` and `_address`). It also keeps the HAL codes, which
  the C++ code takes from hal.h. Its methods mirror the C++ member functions step by step.
  Each method's postcondition ties the new event log and register file to
  its specification: the log grows by `Frames(txns)`, and the registers
  become `Replay(old registers, txns)`. The lemmas beside them state what
  those transactions do to the device.

Where the header's documentation and the implementation disagree, the model
follows mcp23s08.cpp:

- `digitalWrite` raises the pin only when `val == HIGH` (mcp23s08.cpp:88).
  The header says "non-zero for logic high" (mcp23s08.h:74). Under the code,
  any other value, including non-zero ones, lowers the pin.
- `pinMode` with an unknown mode is not free of bus traffic. The code reads
  IODIR (mcp23s08.cpp:37) before it rejects the mode (mcp23s08.cpp:52-55).
  So the model issues one read transaction and writes no register.
- The constructor follows the definition `(spi_bus, cs_pin, address)`
  (mcp23s08.cpp:16). The header declares `(address, cs_pin, spi_channel)`
  (mcp23s08.h:50).

## Model

| member | source | states |
|---|---|---|
| `Registers.ControlByte` | mcp23s08.cpp:19 | the stored control byte is even (write bit clear), lies in 0x40..0x46, carries the base code 0x20 in its upper bits, and the strap bits `address & 3` can be read back from bits 1..2 |
| `Registers.ControlByteDependsOnStrapOnly` | mcp23s08.cpp:19 | two constructor addresses give the same control byte exactly when their low two bits agree |
| `Registers.RegisterMapIsConsecutive` | mcp23s08.h:29-39 | the eleven registers IODIR..OLAT are at offsets 0x00..0x0A in order, hence pairwise distinct |
| `Bits.BitOf` | mcp23s08.cpp:98 | extracting a pin's bit yields only 0 or 1 |
| `Bits.Mask` | mcp23s08.cpp:41 | `1 << pin` has exactly bit `pin` set |
| `Bits.SetBit` | mcp23s08.cpp:41 | raising the mask into `data` has bit `pin` set and every other bit as in `data` |
| `Bits.ClearBit` | mcp23s08.cpp:45 | `data & ~(1 << pin)` has bit `pin` clear and every other bit as in `data` |
| `Bits.WithBit` | mcp23s08.cpp:88 | the conditional set/clear leaves bit `pin` at the requested level and every other bit unchanged |
| `Protocol.ParseFrames` | mcp23s08.cpp:124-147 | every sequence of transactions, framed as CS low / three bytes / CS high, parses back to exactly that sequence |
| `Protocol.ParseSound` | mcp23s08.cpp:124-147 | any log that parses as transactions is exactly their framing, so each exchange is bracketed by one CS low and one CS high |
| `Protocol.ReplayReads` | mcp23s08.cpp:136-147 | read transactions (read bit set) leave every register of the device unchanged |
| `Driver.WriteRegisterThenRead` | mcp23s08.cpp:106-119 | after `write(reg, val)` with the stored (even) control byte, register `reg` holds `val` and every other register is as it was; the following `read(reg)` transaction changes nothing, so it returns `val`; of two writes to the same register the later one wins |
| `Driver.PinModeSpec` | mcp23s08.cpp:31-60 | `pinMode` returns true iff `pin <= 7` and the mode is INPUT, OUTPUT or INPUT_PULLUP; `pin > 7` issues no transaction; otherwise IODIR is read first; an unknown mode issues only that read |
| `Driver.PinModeRejectedWritesNothing` | mcp23s08.cpp:35-55 | when `pinMode` returns false, no register of the device changes |
| `Driver.PinModeEffect` | mcp23s08.cpp:39-59 | an accepted `pinMode` clears IODIR bit `pin` for OUTPUT and sets it for INPUT/INPUT_PULLUP, sets GPPU bit `pin` only for INPUT_PULLUP, and leaves every other bit and register unchanged |
| `Driver.PortModeSpec` | mcp23s08.cpp:62-79 | `portMode` issues two write transactions with the stored control byte, GPPU before IODIR, exactly when the mode is one of the three; any other mode issues nothing |
| `Driver.PortModeEffect` | mcp23s08.cpp:62-79 | INPUT leaves GPPU=0x00 and IODIR=0xFF, OUTPUT leaves GPPU=0x00 and IODIR=0x00, INPUT_PULLUP leaves both 0xFF; other modes and other registers are unchanged |
| `Driver.DigitalWriteSpec` | mcp23s08.cpp:81-92 | `digitalWrite` returns true iff `pin <= 7`; `pin > 7` issues no transaction; otherwise a GPIO read followed by a GPIO write whose byte has bit `pin` at 1 iff `val == HIGH` and every other bit as read |
| `Driver.DigitalWriteEffect` | mcp23s08.cpp:85-91 | an accepted `digitalWrite` makes GPIO bit `pin` 1 iff `val == HIGH` and 0 otherwise, leaving the other GPIO bits and all other registers unchanged |
| `Driver.DigitalWriteThenRead` | mcp23s08.cpp:81-99 | `digitalRead(pin)` after `digitalWrite(pin, val)` returns 1 iff `pin <= 7` and `val == HIGH`; reads of every other pin are unaffected |
| `Driver.DigitalWriteIdempotent` | mcp23s08.cpp:85-91 | repeating `digitalWrite(pin, val)` leaves the device exactly as one call does |
| `Driver.DigitalReadSpec` | mcp23s08.cpp:94-99 | `digitalRead` returns only 0 or 1; `pin > 7` gives 0 with no transaction; otherwise one GPIO read, and the result is 1 iff GPIO bit `pin` is set |
| `Driver.Mcp23s08.constructor` | mcp23s08.cpp:16-23 | stores the control byte `ControlByte(address)`, configures chip-select as an output and leaves it high, touching no register |
| `Driver.Mcp23s08.Init` | mcp23s08.cpp:25-29 | configures chip-select as an output and leaves it high, with no transaction |
| `Driver.Mcp23s08.SpiWrite` | mcp23s08.cpp:124-131 | appends exactly CS low, the control byte, `reg`, `byte`, CS high to the log; sets register `reg` to `byte`, all others unchanged; ends with chip-select high |
| `Driver.Mcp23s08.SpiRead` | mcp23s08.cpp:136-147 | appends exactly CS low, control byte with read bit set, `reg`, dummy 0, CS high; returns the third exchange's answer (the register's content); changes no register |
| `Driver.Mcp23s08.RaisePullup` | mcp23s08.cpp:50 | the INPUT_PULLUP step: one GPPU read, then one GPPU write of that value with bit `pin` set |
| `Driver.Mcp23s08.PinMode` | mcp23s08.cpp:31-60 | the bus traffic and register effect are exactly those of `PinModeSpec`, and the return value is its result |
| `Driver.Mcp23s08.PortMode` | mcp23s08.cpp:62-79 | the bus traffic and register effect are exactly those of `PortModeSpec` |
| `Driver.Mcp23s08.DigitalWrite` | mcp23s08.cpp:81-92 | the bus traffic and register effect are exactly those of `DigitalWriteSpec`, and the return value is its result |
| `Driver.Mcp23s08.DigitalRead` | mcp23s08.cpp:94-99 | the bus traffic is exactly that of `DigitalReadSpec`, the result is its value, and no register changes |
| `Driver.Mcp23s08.WritePort` | mcp23s08.cpp:101-104 | one write transaction to GPIO with `val`, unchecked |
| `Driver.Mcp23s08.WriteRegister` | mcp23s08.cpp:106-109 | one write transaction to any register number `reg`, with no validation |
| `Driver.Mcp23s08.ReadPort` | mcp23s08.cpp:111-114 | one read transaction of GPIO, returning its content |
| `Driver.Mcp23s08.ReadRegister` | mcp23s08.cpp:116-119 | one read transaction of any register number `reg`, with no validation, returning its content |

## Left out

- hal.h and the HAL's SPI and GPIO implementations are not part of this model. The bus transfer and the chip-select pin are simulated by `Hal.Bus`. The numeric values of `GPIO_INPUT`, `GPIO_OUTPUT`, `GPIO_INPUT_PULLUP` and `HIGH` are parameters (`Hal.Constants`).
- The expander's electrical behaviour is not modelled. The simulated device only stores writes and answers reads. GPIO and OLAT are separate plain registers, input pins do not float or follow external levels, and IPOL inverts nothing.
- The device's sequential-address mode (IOCON.SEQOP) and hardware-address matching (IOCON.HAEN) are not modelled. The simulated device acts on the read/write bit of the control byte and ignores bytes after the third until chip-select falls again.
- What the interrupt and configuration registers (GPINTEN, DEFVAL, INTCON, IOCON, INTF, INTCAP) mean is not modelled. The driver only passes them through `WriteRegister` and `ReadRegister`.
- Concurrency is not modelled: interleaving callers, the non-atomic two-register INPUT_PULLUP sequence, and other devices sharing the bus. Each operation runs alone on the bus.
- Hal.Bus.Transfer: the byte the device answers while receiving the control byte, the register number or a write's data byte is left unspecified. The driver discards those answers.
- The stale constructor declaration in the header (mcp23s08.h:50, with `spi_channel`) is not modelled; the definition at mcp23s08.cpp:16 is.
- Bus faults and transport timeouts are not modelled. Neither exists in the driver: a transfer always completes.
