/** The MCP23S17 I/O expander as the focuser driver sees it: the registers it
    writes and the bytes it sends to them. Each mcp23s17_write_reg call of the
    driver becomes one `Write` value. */
module Mcp23s17 {

  /** The registers named in the driver's register writes. */
  datatype Register = IOCON | IODIRA | IODIRB | GPPUA | GPPUB | GPIOA | GPIOB

  /** One register write: the register and the value sent to it. */
  datatype Write = Write(reg: Register, value: int)

  /** The GPIO output register of the selected port. */
  function Gpio(portA: bool): Register {
    if portA then GPIOA else GPIOB
  }

  /** The I/O direction register of the selected port. */
  function IoDir(portA: bool): Register {
    if portA then IODIRA else IODIRB
  }

  /** The pull-up register of the selected port. */
  function PullUp(portA: bool): Register {
    if portA then GPPUA else GPPUB
  }

  /** The IOCON value the driver ORs together from the library's flag macros
      (bank off, interrupt mirror off, sequential operation off, slew rate
      control off, hardware addressing on, open drain off, interrupt polarity
      low). The library header is not part of this model, so the value is left
      unspecified. */
  const IoConfig: int

  /** The unsigned value of a byte, 0..255. */
  function ByteValue(b: bv8): int {
    b as int
  }

  /** Masking a byte with 0xf keeps its remainder modulo 16. */
  lemma ByteMask(x: bv8)
    ensures (x & 0xf) as int == ByteValue(x) % 16
  {
  }

  lemma ModNest(v: int)
    ensures (v % 256) % 16 == v % 16
  {
    var q, r := v / 256, v % 256;
    assert v == 256 * q + r;
    assert 256 * q + r == 16 * (16 * q) + r;
  }

  /** The low byte of v's two's-complement pattern is the byte whose value is
      v mod 256 (never negative); masking it with 0xf gives v mod 16. */
  lemma LowByteMask(v: int)
    ensures forall b: bv8 :: ByteValue(b) == v % 256 ==> (b & 0xf) as int == v % 16
  {
    forall b: bv8 | ByteValue(b) == v % 256
      ensures (b & 0xf) as int == v % 16
    {
      ByteMask(b);
      ModNest(v);
    }
  }

  /** `v & 0xf` for a C `int` v: the mask applied to the low byte of v's
      two's-complement bit pattern, which is the non-negative remainder of v
      modulo 16, negative v included. */
  function LowNibble(v: int): (n: bv32)
    ensures n < 16
    ensures forall b: bv8 :: ByteValue(b) == v % 256 ==> n as int == (b & 0xf) as int
    ensures n as int == v % 16
  {
    LowByteMask(v);
    (v % 16) as bv32
  }

  /** The byte the sequencer sends for phase code `v`: on port A the code sits
      in the high nibble and the low nibble is clear; on port B the code is
      inverted and sits in the low nibble, with the high nibble clear. */
  function PhasePayload(portA: bool, v: int): (r: int)
    ensures 0 <= r < 256
    ensures portA ==> r % 16 == 0 && r / 16 == v % 16
    ensures !portA ==> r / 16 == 0 && r + v % 16 == 15
  {
    if portA then (v % 16) * 16 else 15 - v % 16
  }

  /** One port-A update of the driver's payload accumulator,
      `payload = (payload & 0x0f) | ((value & 0xf) << 4)`, when the low nibble
      is clear: the result is the port-A phase payload and keeps the low nibble
      clear. */
  lemma PackHighNibble(payload: bv32, v: int)
    requires payload & 0x0f == 0
    ensures ((payload & 0x0f) | (LowNibble(v) << 4)) & 0x0f == 0
    ensures ((payload & 0x0f) | (LowNibble(v) << 4)) as int == PhasePayload(true, v)
  {
    var n := LowNibble(v);
    assert (payload & 0x0f) | (n << 4) == n * 16 by {
      assert payload & 0x0f == 0;
      assert n << 4 == n * 16 by { assert n < 16; }
    }
    assert (n * 16) & 0x0f == 0 by { assert n < 16; }
    assert (n * 16) as int == n as int * 16 by { assert n < 16; }
  }

  /** One port-B update of the accumulator,
      `payload = (payload & 0xf0) | ((value & 0xf) ^ 0xf)`, when the high nibble
      is clear: the result is the port-B phase payload and keeps the high
      nibble clear. */
  lemma PackLowNibble(payload: bv32, v: int)
    requires payload & 0xf0 == 0
    ensures ((payload & 0xf0) | (LowNibble(v) ^ 0xf)) & 0xf0 == 0
    ensures ((payload & 0xf0) | (LowNibble(v) ^ 0xf)) as int == PhasePayload(false, v)
  {
    var n := LowNibble(v);
    assert (payload & 0xf0) | (n ^ 0xf) == 15 - n by {
      assert n < 16;
    }
    assert (15 - n) & 0xf0 == 0 by { assert n < 16; }
    assert (15 - n) as int == 15 - n as int by { assert n < 16; }
  }

  /** One update of the driver's payload accumulator for phase code `value`:
      on port A `payload = (payload & 0x0f) | ((value & 0xf) << 4)`, on port B
      `payload = (payload & 0xf0) | ((value & 0xf) ^ 0xf)`. As long as the
      nibble the port does not use is clear, and it starts clear at 0x00, the
      accumulator carries nothing over from earlier steps: the result is
      exactly the phase payload of `value`, and the unused nibble stays clear. */
  function Accumulate(payload: bv32, portA: bool, value: int): (r: bv32)
    requires portA ==> payload & 0x0f == 0
    requires !portA ==> payload & 0xf0 == 0
    ensures r as int == PhasePayload(portA, value)
    ensures portA ==> r & 0x0f == 0
    ensures !portA ==> r & 0xf0 == 0
  {
    if portA then
      PackHighNibble(payload, value);
      (payload & 0x0f) | (LowNibble(value) << 4)
    else
      PackLowNibble(payload, value);
      (payload & 0xf0) | (LowNibble(value) ^ 0xf)
  }
}
