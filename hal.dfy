/** What the driver consumes from the hardware abstraction layer (hal.h), as a
    simulation: the SPI bus, the chip-select line of the expander, and the
    expander itself reduced to a register file. The HAL's own code is not
    part of this model. */
module Hal {

  /** The HAL's pin-mode and logic-level codes. Their numeric values are
      defined in hal.h, outside this model; the driver only compares against
      them, so they are carried as parameters. */
  datatype Constants = Constants(gpioInput: bv8, gpioOutput: bv8, gpioInputPullup: bv8, high: bv8)
  {
    /** The three pin modes are different codes. */
    predicate ModesDistinct()
    {
      gpioInput != gpioOutput && gpioInput != gpioInputPullup && gpioOutput != gpioInputPullup
    }
  }

  /** The expander's register file, addressed by any 8-bit register number. */
  type RegFile = s: seq<bv8> | |s| == 256 witness seq(256, _ => 0)

  /** One observable step on the wires: the chip-select pin set to output,
      chip-select driven low or high, or one byte clocked out on the bus. */
  datatype Event = CsOutput | CsLow | CsHigh | Xfer(sent: bv8)

  /** The bus, the chip-select line and the device behind them. The device
      is simulated: it decodes each selected exchange as control byte,
      register number, data byte; a write (control bit 0 clear) stores the
      data byte, a read answers the third byte with the register's content. */
  class Bus {
    var regs: RegFile
    var csHigh: bool
    var phase: nat      // bytes received since chip-select last went low
    var opcode: bv8     // first byte of the current exchange
    var target: bv8     // second byte of the current exchange
    ghost var log: seq<Event>

    constructor (initial: RegFile)
      ensures regs == initial && !csHigh && phase == 0 && log == []
    {
      regs := initial;
      csHigh := false;
      phase := 0;
      opcode, target := 0, 0;
      log := [];
    }

    /** `HAL::GPIO::pinMode(GPIO_OUTPUT)` on the chip-select pin. */
    method ConfigureCsOutput()
      modifies this`log
      ensures log == old(log) + [CsOutput]
    {
      log := log + [CsOutput];
    }

    /** `HAL::GPIO::digitalWrite(level)` on the chip-select pin; a falling
        edge starts a new exchange in the device. */
    method WriteCs(high: bool)
      modifies this`csHigh, this`phase, this`log
      ensures csHigh == high
      ensures phase == if high then old(phase) else 0
      ensures log == old(log) + [if high then CsHigh else CsLow]
    {
      csHigh := high;
      if !high {
        phase := 0;
      }
      log := log + [if high then CsHigh else CsLow];
    }

    /** `HAL::SPI::transfer(b)`: full duplex, one byte out and one byte back.
        Only the answer to the data byte of a read is specified; the driver
        discards every other answer. */
    method Transfer(b: bv8) returns (r: bv8)
      modifies this`regs, this`phase, this`opcode, this`target, this`log
      ensures log == old(log) + [Xfer(b)]
      ensures old(csHigh) || old(phase) >= 3 ==>
        regs == old(regs) && phase == old(phase) && opcode == old(opcode) && target == old(target)
      ensures !old(csHigh) && old(phase) == 0 ==>
        regs == old(regs) && phase == 1 && opcode == b && target == old(target)
      ensures !old(csHigh) && old(phase) == 1 ==>
        regs == old(regs) && phase == 2 && opcode == old(opcode) && target == b
      ensures !old(csHigh) && old(phase) == 2 ==>
        phase == 3 && opcode == old(opcode) && target == old(target) &&
        if opcode & 1 == 0 then regs == old(regs)[target as int := b]
        else regs == old(regs) && r == old(regs)[target as int]
    {
      log := log + [Xfer(b)];
      r := 0;
      if !csHigh && phase < 3 {
        if phase == 0 {
          opcode := b;
        } else if phase == 1 {
          target := b;
        } else if opcode & 1 == 0 {
          regs := regs[target as int := b];
        } else {
          r := regs[target as int];
        }
        phase := phase + 1;
      }
    }
  }
}
