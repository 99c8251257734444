/**
  The layout of a 32-bit NEC infrared frame as the firmware hands it to the
  transmitter, most significant byte first: two address bytes, the command
  byte, and the bitwise complement of the command byte. Classic NEC sends the
  complement of the address as the second byte; the extended form uses the
  two bytes as a 16-bit address, which is how the second remote family's
  codes are built.
*/
module Nec {
  import opened Wrappers

  /** One call of the transmitter's send primitive: code, bit count, repeat flag. */
  datatype Frame = NecMsb(code: bv32, bits: nat, repeat: bool)

  /** The 16-bit address: the two bytes sent first. */
  function Address(code: bv32): bv16
  {
    (code >> 16) as bv16
  }

  /** The command byte: the third byte sent. */
  function CommandByte(code: bv32): bv8
  {
    ((code >> 8) & 0xFF) as bv8
  }

  /** The check byte: the last byte sent. */
  function CheckByte(code: bv32): bv8
  {
    (code & 0xFF) as bv8
  }

  /** A receiver accepts a frame only when the check byte inverts the command byte. */
  predicate WellFormed(code: bv32)
  {
    CheckByte(code) == !CommandByte(code)
  }

  /** Classic (non-extended) addressing: the second byte inverts the first. */
  predicate ClassicAddress(code: bv32)
  {
    (Address(code) & 0xFF) as bv8 == !((Address(code) >> 8) as bv8)
  }

  /** Builds the frame for an address and a command. */
  function Encode(address: bv16, command: bv8): (code: bv32)
    ensures WellFormed(code)
    ensures Address(code) == address && CommandByte(code) == command
  {
    ((address as bv32) << 16) | ((command as bv32) << 8) | ((!command) as bv32)
  }

  /** What a receiver reads back from a frame: its address and command, or nothing when the check fails. */
  function Decode(code: bv32): (r: Option<(bv16, bv8)>)
    ensures r.Some? <==> WellFormed(code)
    ensures r.Some? ==> Encode(r.value.0, r.value.1) == code
  {
    if WellFormed(code) then Some((Address(code), CommandByte(code))) else None
  }
}
