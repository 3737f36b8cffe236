/** The MCP23S08's protocol constants: the base device code, the register
    map, and the control byte that opens every bus transaction. */
module Registers {

  /** Base device code; the two hardware strap bits are OR-ed into it. */
  const DEVICE_CODE: bv8 := 0x20

  /** Register map: eleven single-byte offsets. */
  const IODIR: bv8 := 0x00
  const IPOL: bv8 := 0x01
  const GPINTEN: bv8 := 0x02
  const DEFVAL: bv8 := 0x03
  const INTCON: bv8 := 0x04
  const IOCON: bv8 := 0x05
  const GPPU: bv8 := 0x06
  const INTF: bv8 := 0x07
  const INTCAP: bv8 := 0x08
  const GPIO: bv8 := 0x09
  const OLAT: bv8 := 0x0A

  /** The register map in declaration order. */
  const REGISTER_MAP: seq<bv8> := [IODIR, IPOL, GPINTEN, DEFVAL, INTCON, IOCON, GPPU, INTF, INTCAP, GPIO, OLAT]

  /** The eleven registers sit at consecutive offsets 0x00..0x0A, so no two coincide. */
  lemma RegisterMapIsConsecutive()
    ensures |REGISTER_MAP| == 11
    ensures forall i :: 0 <= i < |REGISTER_MAP| ==> REGISTER_MAP[i] as int == i
    ensures forall i, j :: 0 <= i < j < |REGISTER_MAP| ==> REGISTER_MAP[i] != REGISTER_MAP[j]
  {
  }

  /** The control byte stored by the constructor: `(0x20 | (address & 3)) << 1`.
      Its low bit is the read/write selector and is left 0 (write). */
  function ControlByte(address: bv8): (c: bv8)
    ensures c & 1 == 0
    ensures 0x40 <= c <= 0x46
    ensures (c >> 1) & 3 == address & 3
    ensures c & 0xF8 == DEVICE_CODE << 1
  {
    (DEVICE_CODE | (address & 3)) << 1
  }

  /** Only the two strap bits of the constructor's address argument matter:
      two arguments give the same control byte exactly when their low two bits agree. */
  lemma ControlByteDependsOnStrapOnly(a: bv8, b: bv8)
    ensures ControlByte(a) == ControlByte(b) <==> a & 3 == b & 3
  {
  }
}
