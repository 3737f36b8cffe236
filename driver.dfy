/** The MCP23S08 driver: pin- and port-level operations as read-modify-write
    sequences of register transactions, and the register protocol encoder
    that puts each transaction on the bus. */
module Driver {
  import opened Bits
  import opened Registers
  import opened Hal
  import opened Protocol

  /** A register read as the encoder frames it: read bit set, dummy data byte 0. */
  function ReadTxn(control: bv8, reg: bv8): Txn
  {
    Txn(control | 1, reg, 0)
  }

  /** A register write as the encoder frames it: the stored control byte, read bit clear. */
  function WriteTxn(control: bv8, reg: bv8, data: bv8): Txn
  {
    Txn(control, reg, data)
  }

  /** `mode` is one of the three pin modes the driver accepts. */
  predicate IsMode(hal: Constants, mode: bv8)
  {
    mode == hal.gpioInput || mode == hal.gpioOutput || mode == hal.gpioInputPullup
  }

  /** What one driver operation does: the transactions it issues, in order,
      and the value it returns. */
  datatype Outcome<R> = Outcome(txns: seq<Txn>, result: R)

  /** `pinMode(pin, mode)` against a device whose registers are `regs`. */
  function PinModeSpec(hal: Constants, control: bv8, regs: RegFile, pin: bv8, mode: bv8): (o: Outcome<bool>)
    ensures o.result <==> pin <= 7 && IsMode(hal, mode)
    ensures pin > 7 ==> o.txns == []
    ensures pin <= 7 ==> |o.txns| >= 1 && o.txns[0] == ReadTxn(control, IODIR)
    ensures pin <= 7 && !IsMode(hal, mode) ==> o.txns == [ReadTxn(control, IODIR)]
  {
    if pin > 7 then Outcome([], false)
    else
      var data := regs[IODIR as int];
      if mode == hal.gpioInput then
        Outcome([ReadTxn(control, IODIR), WriteTxn(control, IODIR, SetBit(data, pin))], true)
      else if mode == hal.gpioOutput then
        Outcome([ReadTxn(control, IODIR), WriteTxn(control, IODIR, ClearBit(data, pin))], true)
      else if mode == hal.gpioInputPullup then
        Outcome([ReadTxn(control, IODIR), ReadTxn(control, GPPU),
                 WriteTxn(control, GPPU, SetBit(regs[GPPU as int], pin)),
                 WriteTxn(control, IODIR, SetBit(data, pin))], true)
      else Outcome([ReadTxn(control, IODIR)], false)
  }

  /** `portMode(mode)`: the pull-up register is written before the direction register. */
  function PortModeSpec(hal: Constants, control: bv8, mode: bv8): (ts: seq<Txn>)
    ensures !IsMode(hal, mode) <==> ts == []
    ensures IsMode(hal, mode) ==>
      (|ts| == 2 && ts[0] == WriteTxn(control, GPPU, ts[0].data) && ts[1] == WriteTxn(control, IODIR, ts[1].data))
  {
    if mode == hal.gpioInput then [WriteTxn(control, GPPU, 0x00), WriteTxn(control, IODIR, 0xFF)]
    else if mode == hal.gpioOutput then [WriteTxn(control, GPPU, 0x00), WriteTxn(control, IODIR, 0x00)]
    else if mode == hal.gpioInputPullup then [WriteTxn(control, GPPU, 0xFF), WriteTxn(control, IODIR, 0xFF)]
    else []
  }

  /** `digitalWrite(pin, val)`: the pin goes high exactly when `val == HIGH`. */
  function DigitalWriteSpec(hal: Constants, control: bv8, regs: RegFile, pin: bv8, val: bv8): (o: Outcome<bool>)
    ensures o.result <==> pin <= 7
    ensures pin > 7 ==> o.txns == []
    ensures pin <= 7 ==>
      (|o.txns| == 2 && o.txns[0] == ReadTxn(control, GPIO) &&
       o.txns[1] == WriteTxn(control, GPIO, o.txns[1].data) &&
       BitOf(o.txns[1].data, pin) == (if val == hal.high then 1 else 0) &&
       OthersUnchanged(o.txns[1].data, regs[GPIO as int], pin))
  {
    if pin > 7 then Outcome([], false)
    else
      var data := regs[GPIO as int];
      Outcome([ReadTxn(control, GPIO), WriteTxn(control, GPIO, WithBit(data, pin, val == hal.high))], true)
  }

  /** `digitalRead(pin)`: one GPIO read and the pin's bit, or 0 without bus traffic. */
  function DigitalReadSpec(control: bv8, regs: RegFile, pin: bv8): (o: Outcome<bv8>)
    ensures o.result == 0 || o.result == 1
    ensures pin > 7 ==> o.txns == [] && o.result == 0
    ensures pin <= 7 ==> o.txns == [ReadTxn(control, GPIO)] && (o.result == 1 <==> BitOf(regs[GPIO as int], pin) == 1)
  {
    if pin > 7 then Outcome([], 0)
    else Outcome([ReadTxn(control, GPIO)], BitOf(regs[GPIO as int], pin))
  }

  /** A rejected `pinMode` reads IODIR but writes no register. */
  lemma PinModeRejectedWritesNothing(hal: Constants, control: bv8, regs: RegFile, pin: bv8, mode: bv8)
    requires control & 1 == 0
    requires !PinModeSpec(hal, control, regs, pin, mode).result
    ensures Replay(regs, PinModeSpec(hal, control, regs, pin, mode).txns) == regs
  {
    var ts := PinModeSpec(hal, control, regs, pin, mode).txns;
    ReplayReads(regs, ts);
  }

  /** An accepted `pinMode`: IODIR's bit `pin` becomes 0 for OUTPUT and 1 for
      INPUT and INPUT_PULLUP, GPPU's bit `pin` is set for INPUT_PULLUP only,
      and nothing else in the device changes. */
  lemma PinModeEffect(hal: Constants, control: bv8, regs: RegFile, pin: bv8, mode: bv8)
    requires control & 1 == 0 && hal.ModesDistinct()
    requires pin <= 7 && IsMode(hal, mode)
    ensures var after := Replay(regs, PinModeSpec(hal, control, regs, pin, mode).txns);
      BitOf(after[IODIR as int], pin) == (if mode == hal.gpioOutput then 0 else 1) &&
      OthersUnchanged(after[IODIR as int], regs[IODIR as int], pin) &&
      (mode == hal.gpioInputPullup ==>
        BitOf(after[GPPU as int], pin) == 1 && OthersUnchanged(after[GPPU as int], regs[GPPU as int], pin)) &&
      (mode != hal.gpioInputPullup ==> after[GPPU as int] == regs[GPPU as int]) &&
      forall r :: 0 <= r < 256 && r != IODIR as int && r != GPPU as int ==> after[r] == regs[r]
  {
    var ts := PinModeSpec(hal, control, regs, pin, mode).txns;
    var data := regs[IODIR as int];
    var r0 := ReadTxn(control, IODIR);
    if mode == hal.gpioInputPullup {
      var r1 := ReadTxn(control, GPPU);
      var w1 := WriteTxn(control, GPPU, SetBit(regs[GPPU as int], pin));
      var w2 := WriteTxn(control, IODIR, SetBit(data, pin));
      assert ts == [r0, r1] + [w1, w2];
      ReplayAppend(regs, [r0, r1], [w1, w2]);
      ReplayReads(regs, [r0, r1]);
      Pair(regs, [], w1, w2);
    } else {
      var w := ts[1];
      assert ts == [r0] + [w];
      ReplayAppend(regs, [r0], [w]);
      ReplayReads(regs, [r0]);
      Single(regs, [], w);
      assert w.data == WithBit(data, pin, mode != hal.gpioOutput);
    }
  }

  /** `portMode`: INPUT gives GPPU 0x00 and IODIR 0xFF, OUTPUT gives both
      0x00, INPUT_PULLUP gives both 0xFF; any other mode changes nothing. */
  lemma PortModeEffect(hal: Constants, control: bv8, regs: RegFile, mode: bv8)
    requires control & 1 == 0 && hal.ModesDistinct()
    ensures var after := Replay(regs, PortModeSpec(hal, control, mode));
      (mode == hal.gpioInput ==> after[GPPU as int] == 0x00 && after[IODIR as int] == 0xFF) &&
      (mode == hal.gpioOutput ==> after[GPPU as int] == 0x00 && after[IODIR as int] == 0x00) &&
      (mode == hal.gpioInputPullup ==> after[GPPU as int] == 0xFF && after[IODIR as int] == 0xFF) &&
      (!IsMode(hal, mode) ==> after == regs) &&
      forall r :: 0 <= r < 256 && r != IODIR as int && r != GPPU as int ==> after[r] == regs[r]
  {
    var ts := PortModeSpec(hal, control, mode);
    if ts != [] {
      Pair(regs, [], ts[0], ts[1]);
    }
  }

  /** An accepted `digitalWrite`: GPIO's bit `pin` becomes 1 exactly when
      `val == HIGH` (any other value, non-zero ones included, gives 0), and
      nothing else in the device changes. */
  lemma DigitalWriteEffect(hal: Constants, control: bv8, regs: RegFile, pin: bv8, val: bv8)
    requires control & 1 == 0
    requires pin <= 7
    ensures var after := Replay(regs, DigitalWriteSpec(hal, control, regs, pin, val).txns);
      BitOf(after[GPIO as int], pin) == (if val == hal.high then 1 else 0) &&
      OthersUnchanged(after[GPIO as int], regs[GPIO as int], pin) &&
      forall r :: 0 <= r < 256 && r != GPIO as int ==> after[r] == regs[r]
  {
    var ts := DigitalWriteSpec(hal, control, regs, pin, val).txns;
    assert ts == [ts[0]] + [ts[1]];
    ReplayAppend(regs, [ts[0]], [ts[1]]);
    ReplayReads(regs, [ts[0]]);
    assert [ts[1]][..0] == [];
  }

  /** Round trip: `digitalRead(pin)` after `digitalWrite(pin, val)` gives 1
      exactly when the pin is in range and `val == HIGH`; the reads of every
      other pin are unchanged by the write. */
  lemma DigitalWriteThenRead(hal: Constants, control: bv8, regs: RegFile, pin: bv8, val: bv8, other: bv8)
    requires control & 1 == 0
    ensures var after := Replay(regs, DigitalWriteSpec(hal, control, regs, pin, val).txns);
      DigitalReadSpec(control, after, pin).result == (if pin <= 7 && val == hal.high then 1 else 0) &&
      (other != pin ==> DigitalReadSpec(control, after, other).result == DigitalReadSpec(control, regs, other).result)
  {
    if pin <= 7 {
      DigitalWriteEffect(hal, control, regs, pin, val);
    }
  }

  /** Writing the same level to a pin twice leaves the device as one write does. */
  lemma DigitalWriteIdempotent(hal: Constants, control: bv8, regs: RegFile, pin: bv8, val: bv8)
    requires control & 1 == 0
    ensures var once := Replay(regs, DigitalWriteSpec(hal, control, regs, pin, val).txns);
      Replay(once, DigitalWriteSpec(hal, control, once, pin, val).txns) == once
  {
    var once := Replay(regs, DigitalWriteSpec(hal, control, regs, pin, val).txns);
    if pin <= 7 {
      DigitalWriteEffect(hal, control, regs, pin, val);
      DigitalWriteEffect(hal, control, once, pin, val);
      var twice := Replay(once, DigitalWriteSpec(hal, control, once, pin, val).txns);
      var a, b := twice[GPIO as int], once[GPIO as int];
      forall q | q <= 7 ensures BitOf(a, q) == BitOf(b, q) {
      }
      BitsDetermineByte(a, b);
      assert twice == once;
    }
  }

  /** `write(reg, val)` then `read(reg)`: register `reg` holds `val`, the read
      brings it back without changing anything, a second write to the same
      register overrides the first, and every other register is as it was. */
  lemma WriteRegisterThenRead(control: bv8, regs: RegFile, reg: bv8, val: bv8, earlier: bv8)
    requires control & 1 == 0
    ensures var written := Replay(regs, [WriteTxn(control, reg, val)]);
      written[reg as int] == val &&
      Replay(regs, [WriteTxn(control, reg, val), ReadTxn(control, reg)]) == written &&
      Replay(regs, [WriteTxn(control, reg, earlier), WriteTxn(control, reg, val)]) == written &&
      forall r :: 0 <= r < 256 && r != reg as int ==> written[r] == regs[r]
  {
    var w, e := WriteTxn(control, reg, val), WriteTxn(control, reg, earlier);
    Pair(regs, [], w, ReadTxn(control, reg));
    Pair(regs, [], e, w);
    Single(regs, [], w);
    Single(regs, [], e);
  }

  /** One MCP23S08 on a bus. The handle never changes after construction:
      every operation only acts on the bus and the device behind it. */
  class Mcp23s08 {
    const spi: Bus
    /** The chip-select pin; `spi`'s single chip-select line stands for it. */
    const csPin: bv8
    const address: bv8
    const hal: Constants

    /** The stored control byte keeps its read bit clear. */
    predicate Valid()
    {
      address & 1 == 0
    }

    /** `MCP23S08(spi_bus, cs_pin, address)`: stores the control byte and
        leaves chip-select configured as an output and driven high. */
    constructor (spi: Bus, csPin: bv8, address: bv8, hal: Constants)
      modifies spi
      ensures Valid()
      ensures this.spi == spi && this.csPin == csPin && this.hal == hal
      ensures this.address == ControlByte(address)
      ensures spi.csHigh && spi.regs == old(spi.regs)
      ensures spi.log == old(spi.log) + [CsOutput, CsHigh]
    {
      this.spi := spi;
      this.csPin := csPin;
      this.address := ControlByte(address);
      this.hal := hal;
      new;
      spi.ConfigureCsOutput();
      spi.WriteCs(true);
    }

    /** `init()`: configure chip-select as an output and deselect the device. */
    method Init()
      modifies spi
      ensures spi.csHigh && spi.regs == old(spi.regs)
      ensures spi.log == old(spi.log) + [CsOutput, CsHigh]
    {
      spi.ConfigureCsOutput();
      spi.WriteCs(true);
    }

    /** `spiWrite(reg, byte)`: one framed write transaction; the device's
        register `reg` becomes `byte`. */
    method SpiWrite(reg: bv8, byte: bv8)
      requires Valid()
      modifies spi
      ensures spi.log == old(spi.log) + Frame(WriteTxn(address, reg, byte))
      ensures spi.regs == old(spi.regs)[reg as int := byte]
      ensures spi.csHigh
    {
      spi.WriteCs(false);
      var ignored := spi.Transfer(address);
      ignored := spi.Transfer(reg);
      ignored := spi.Transfer(byte);
      spi.WriteCs(true);
    }

    /** `spiRead(reg)`: one framed read transaction whose third exchange
        returns the register's content; no register changes. */
    method SpiRead(reg: bv8) returns (data: bv8)
      requires Valid()
      modifies spi
      ensures data == old(spi.regs)[reg as int]
      ensures spi.log == old(spi.log) + Frame(ReadTxn(address, reg))
      ensures spi.regs == old(spi.regs)
      ensures spi.csHigh
    {
      spi.WriteCs(false);
      var ignored := spi.Transfer(address | 1);
      ignored := spi.Transfer(reg);
      data := spi.Transfer(0);
      spi.WriteCs(true);
    }

    /** `spiWrite(GPPU, spiRead(GPPU) | (1 << pin))`: the pull-up step of
        INPUT_PULLUP, a read of GPPU and a write of it with bit `pin` set. */
    method RaisePullup(pin: bv8)
      requires Valid() && pin <= 7
      modifies spi
      ensures var read, write := ReadTxn(address, GPPU), WriteTxn(address, GPPU, SetBit(old(spi.regs)[GPPU as int], pin));
        spi.log == old(spi.log) + Frame(read) + Frame(write) &&
        spi.regs == Apply(Apply(old(spi.regs), read), write) && spi.csHigh
    {
      var pullups := SpiRead(GPPU);
      SpiWrite(GPPU, SetBit(pullups, pin));
    }

    /** `pinMode(pin, mode)`. */
    method PinMode(pin: bv8, mode: bv8) returns (ok: bool)
      requires Valid()
      modifies spi
      ensures var o := PinModeSpec(hal, address, old(spi.regs), pin, mode);
        ok == o.result &&
        spi.log == old(spi.log) + Frames(o.txns) &&
        spi.regs == Replay(old(spi.regs), o.txns) &&
        spi.csHigh == (old(spi.csHigh) || o.txns != [])
    {
      ghost var regs0, log0 := spi.regs, spi.log;
      if pin > 7 {
        return false;
      }
      var data := SpiRead(IODIR);
      ghost var read := ReadTxn(address, IODIR);
      if mode == hal.gpioInput {
        data := SetBit(data, pin);
      } else if mode == hal.gpioOutput {
        data := ClearBit(data, pin);
      } else if mode == hal.gpioInputPullup {
        data := SetBit(data, pin);
        RaisePullup(pin);
      } else {
        Single(regs0, log0, read);
        return false;
      }
      SpiWrite(IODIR, data);
      ghost var write := WriteTxn(address, IODIR, data);
      if mode == hal.gpioInput || mode == hal.gpioOutput {
        Pair(regs0, log0, read, write);
      } else {
        ghost var pullRead, pullWrite := ReadTxn(address, GPPU), WriteTxn(address, GPPU, SetBit(regs0[GPPU as int], pin));
        Quad(regs0, log0, read, pullRead, pullWrite, write);
      }
      return true;
    }

    /** `portMode(mode)`. */
    method PortMode(mode: bv8)
      requires Valid()
      modifies spi
      ensures var ts := PortModeSpec(hal, address, mode);
        spi.log == old(spi.log) + Frames(ts) &&
        spi.regs == Replay(old(spi.regs), ts) &&
        spi.csHigh == (old(spi.csHigh) || ts != [])
    {
      ghost var regs0, log0 := spi.regs, spi.log;
      if mode == hal.gpioInput {
        SpiWrite(GPPU, 0x00);
        SpiWrite(IODIR, 0xFF);
      } else if mode == hal.gpioOutput {
        SpiWrite(GPPU, 0x00);
        SpiWrite(IODIR, 0x00);
      } else if mode == hal.gpioInputPullup {
        SpiWrite(GPPU, 0xFF);
        SpiWrite(IODIR, 0xFF);
      }
      ghost var ts := PortModeSpec(hal, address, mode);
      if ts != [] {
        Pair(regs0, log0, ts[0], ts[1]);
      }
    }

    /** `digitalWrite(pin, val)`. */
    method DigitalWrite(pin: bv8, val: bv8) returns (ok: bool)
      requires Valid()
      modifies spi
      ensures var o := DigitalWriteSpec(hal, address, old(spi.regs), pin, val);
        ok == o.result &&
        spi.log == old(spi.log) + Frames(o.txns) &&
        spi.regs == Replay(old(spi.regs), o.txns) &&
        spi.csHigh == (old(spi.csHigh) || o.txns != [])
    {
      if pin > 7 {
        return false;
      }
      var data := SpiRead(GPIO);
      data := WithBit(data, pin, val == hal.high);
      SpiWrite(GPIO, data);
      Pair(old(spi.regs), old(spi.log), ReadTxn(address, GPIO), WriteTxn(address, GPIO, data));
      return true;
    }

    /** `digitalRead(pin)`. */
    method DigitalRead(pin: bv8) returns (bit: bv8)
      requires Valid()
      modifies spi
      ensures var o := DigitalReadSpec(address, old(spi.regs), pin);
        bit == o.result &&
        spi.log == old(spi.log) + Frames(o.txns) &&
        spi.regs == old(spi.regs) &&
        spi.csHigh == (old(spi.csHigh) || o.txns != [])
    {
      if pin > 7 {
        return 0x00;
      }
      var data := SpiRead(GPIO);
      bit := BitOf(data, pin);
      Single(old(spi.regs), old(spi.log), ReadTxn(address, GPIO));
    }

    /** `write(val)`: the whole GPIO port. */
    method WritePort(val: bv8)
      requires Valid()
      modifies spi
      ensures spi.log == old(spi.log) + Frame(WriteTxn(address, GPIO, val))
      ensures spi.regs == old(spi.regs)[GPIO as int := val]
      ensures spi.csHigh
    {
      SpiWrite(GPIO, val);
    }

    /** `write(reg, val)`: any register number, unchecked. */
    method WriteRegister(reg: bv8, val: bv8)
      requires Valid()
      modifies spi
      ensures spi.log == old(spi.log) + Frame(WriteTxn(address, reg, val))
      ensures spi.regs == old(spi.regs)[reg as int := val]
      ensures spi.csHigh
    {
      SpiWrite(reg, val);
    }

    /** `read()`: the whole GPIO port. */
    method ReadPort() returns (val: bv8)
      requires Valid()
      modifies spi
      ensures val == old(spi.regs)[GPIO as int]
      ensures spi.log == old(spi.log) + Frame(ReadTxn(address, GPIO))
      ensures spi.regs == old(spi.regs)
      ensures spi.csHigh
    {
      val := SpiRead(GPIO);
    }

    /** `read(reg)`: any register number, unchecked. */
    method ReadRegister(reg: bv8) returns (val: bv8)
      requires Valid()
      modifies spi
      ensures val == old(spi.regs)[reg as int]
      ensures spi.log == old(spi.log) + Frame(ReadTxn(address, reg))
      ensures spi.regs == old(spi.regs)
      ensures spi.csHigh
    {
      val := SpiRead(reg);
    }
  }
}
