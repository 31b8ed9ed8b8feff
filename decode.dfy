/** The two pure decode blocks of the driver: the conversion of a two-byte
    temperature register into degrees Celsius, and the assembly of the three
    raw ADC bytes into a 32-bit two's-complement word. */
module Decode {
  import opened McpTypes

  // ---------------------------------------------------------------------------
  // Temperature registers
  // ---------------------------------------------------------------------------

  /** The temperature the driver computes from the register bytes `b0` (upper)
      and `b1` (lower): `b0*16 + b1/16` in C integer arithmetic, less 4096 when
      the sign bit of `b0` is set. The division discards the low nibble of `b1`,
      so the value is always a whole number of degrees. */
  function DecodeTemp(b0: byte, b1: byte): (t: int)
    ensures -2048 <= t <= 2047
    ensures t < 0 <==> b0 & 0x80 == 0x80
  {
    if b0 & 0x80 == 0x80 then (b0 as int * 16 + b1 as int / 16) - 4096
    else b0 as int * 16 + b1 as int / 16
  }

  /** The register read as a 16-bit two's-complement count of 1/16 degree. */
  function Signed16(b0: byte, b1: byte): int
  {
    b0 as int * 256 + b1 as int - (if b0 & 0x80 == 0x80 then 0x1_0000 else 0)
  }

  /** The two bytes of a 16-bit two's-complement register holding `q`
      sixteenths of a degree (upper byte first). */
  function RegisterBytes(q: int): (byte, byte)
    requires -0x8000 <= q < 0x8000
  {
    var w := q % 0x1_0000;
    WordSplit(q);
    (ToByte(w / 256), ToByte(w % 256))
  }

  /** The byte whose value is n, built bit by bit. */
  function ToByte(n: nat): (b: byte)
    requires n < 256
    ensures b as int == n
  {
    if n == 0 then 0
    else
      var bit: byte := if n % 2 == 1 then 1 else 0;
      ShiftInBit(ToByte(n / 2), bit);
      (ToByte(n / 2) << 1) | bit
  }

  lemma ShiftInBit(x: byte, bit: byte)
    requires x as int < 128 && (bit == 0 || bit == 1)
    ensures ((x << 1) | bit) as int == 2 * x as int + bit as int
  {
  }

  lemma Bit7(b: byte)
    ensures b & 0x80 == 0x80 <==> b as int >= 128
  {
  }

  lemma HighNibble(b: byte)
    ensures (b >> 4) as int == b as int / 16
  {
  }

  lemma WordSplit(q: int)
    requires -0x8000 <= q < 0x8000
    ensures var w := q % 0x1_0000;
      && w == (w / 256) * 256 + w % 256
      && 0 <= w / 256 < 256
      && (w / 256 >= 128 <==> q < 0)
      && w == (if q < 0 then q + 0x1_0000 else q)
  {
  }

  lemma SameValueSameByte(a: byte, b: byte)
    requires a as int == b as int
    ensures a == b
  {
  }

  lemma Wrap16(x: int)
    requires 0 <= x < 0x1_0000
    ensures x % 0x1_0000 == x && (x - 0x1_0000) % 0x1_0000 == x
  {
  }

  lemma DigitsOf(h: int, l: int)
    requires 0 <= h < 256 && 0 <= l < 256
    ensures (h * 256 + l) / 256 == h && (h * 256 + l) % 256 == l
  {
  }

  /** The decoded temperature is the register's signed value in sixteenths of a
      degree, rounded down to a whole degree. */
  lemma DecodeTempFloorsSixteenths(b0: byte, b1: byte)
    ensures DecodeTemp(b0, b1) == Signed16(b0, b1) / 16
    ensures 16 * DecodeTemp(b0, b1) <= Signed16(b0, b1) < 16 * DecodeTemp(b0, b1) + 16
  {
    Bit7(b0);
  }

  /** Only the high nibble of the lower byte takes part in the decode. */
  lemma DecodeTempIgnoresLowNibble(b0: byte, b1: byte, c1: byte)
    requires b1 & 0xF0 == c1 & 0xF0
    ensures DecodeTemp(b0, b1) == DecodeTemp(b0, c1)
  {
    HighNibble(b1);
    HighNibble(c1);
    assert b1 >> 4 == c1 >> 4;
  }

  /** Writing a signed count of sixteenths into the register format and reading
      it back as a signed count gives the count back. */
  lemma RegisterBytesRoundTrip(q: int)
    requires -0x8000 <= q < 0x8000
    ensures Signed16(RegisterBytes(q).0, RegisterBytes(q).1) == q
  {
    WordSplit(q);
    Bit7(RegisterBytes(q).0);
  }

  /** The other direction: every pair of register bytes is the encoding of its
      own signed count. */
  lemma Signed16RoundTrip(b0: byte, b1: byte)
    ensures -0x8000 <= Signed16(b0, b1) < 0x8000
    ensures RegisterBytes(Signed16(b0, b1)) == (b0, b1)
  {
    Signed16Wraps(b0, b1);
    RegisterBytesOfWord(Signed16(b0, b1), b0 as int, b1 as int);
    SameValueSameByte(RegisterBytes(Signed16(b0, b1)).0, b0);
    SameValueSameByte(RegisterBytes(Signed16(b0, b1)).1, b1);
  }

  lemma Signed16Wraps(b0: byte, b1: byte)
    ensures -0x8000 <= Signed16(b0, b1) < 0x8000
    ensures Signed16(b0, b1) % 0x1_0000 == b0 as int * 256 + b1 as int
  {
    var u := b0 as int * 256 + b1 as int;
    assert 0 <= u < 0x1_0000;
    Wrap16(u);
    Bit7(b0);
    if b0 & 0x80 == 0x80 {
      assert Signed16(b0, b1) == u - 0x1_0000;
    } else {
      assert Signed16(b0, b1) == u;
    }
  }

  lemma RegisterBytesOfWord(q: int, h: int, l: int)
    requires -0x8000 <= q < 0x8000
    requires 0 <= h < 256 && 0 <= l < 256 && q % 0x1_0000 == h * 256 + l
    ensures RegisterBytes(q).0 as int == h && RegisterBytes(q).1 as int == l
  {
    DigitsOf(h, l);
  }

  /** A register holding `q` sixteenths decodes to `q` rounded down to a whole
      degree: the 1/16-degree fraction is lost. */
  lemma DecodeRegisterBytes(q: int)
    requires -0x8000 <= q < 0x8000
    ensures DecodeTemp(RegisterBytes(q).0, RegisterBytes(q).1) == q / 16
  {
    RegisterBytesRoundTrip(q);
    DecodeTempFloorsSixteenths(RegisterBytes(q).0, RegisterBytes(q).1);
  }

  /** Whole-degree temperatures in range survive the register format exactly. */
  lemma WholeDegreesRoundTrip(t: int)
    requires -2048 <= t <= 2047
    ensures DecodeTemp(RegisterBytes(16 * t).0, RegisterBytes(16 * t).1) == t
  {
    DecodeRegisterBytes(16 * t);
  }

  // ---------------------------------------------------------------------------
  // Raw ADC register
  // ---------------------------------------------------------------------------

  /** `buff[0]<<24 | buff[1]<<16 | buff[2]<<8` as a 32-bit word; the shift of
      `buff[0]` into the sign bit wraps around. */
  function AdcWord(b0: byte, b1: byte, b2: byte): bv32
  {
    ((b0 as bv32) << 24) | ((b1 as bv32) << 16) | ((b2 as bv32) << 8)
  }

  /** Byte k of a 32-bit word, k = 0 being the least significant. */
  function ByteOf(w: bv32, k: nat): byte
    requires k < 4
  {
    (if k == 0 then w & 0xFF
     else if k == 1 then (w >> 8) & 0xFF
     else if k == 2 then (w >> 16) & 0xFF
     else w >> 24) as byte
  }

  /** The value of a 32-bit word read as two's complement (`int32_t`). */
  function Int32Of(w: bv32): int
  {
    var u := ByteOf(w, 3) as int * 0x100_0000 + ByteOf(w, 2) as int * 0x1_0000
           + ByteOf(w, 1) as int * 0x100 + ByteOf(w, 0) as int;
    if w & 0x8000_0000 == 0 then u else u - 0x1_0000_0000
  }

  /** The three ADC bytes read big-endian as a signed 24-bit number. */
  function Signed24(b0: byte, b1: byte, b2: byte): int
  {
    b0 as int * 0x1_0000 + b1 as int * 0x100 + b2 as int
      - (if b0 & 0x80 == 0x80 then 0x100_0000 else 0)
  }

  /** The bytes of the assembled word are the three ADC bytes over a zero byte,
      and its sign bit is bit 7 of the first ADC byte. */
  lemma AdcWordLayout(b0: byte, b1: byte, b2: byte)
    ensures ByteOf(AdcWord(b0, b1, b2), 3) == b0 && ByteOf(AdcWord(b0, b1, b2), 2) == b1
    ensures ByteOf(AdcWord(b0, b1, b2), 1) == b2 && ByteOf(AdcWord(b0, b1, b2), 0) == 0
    ensures AdcWord(b0, b1, b2) & 0xFF == 0
    ensures AdcWord(b0, b1, b2) & 0x8000_0000 == 0 <==> b0 & 0x80 == 0
  {
  }

  /** The sign-extension test `buff[0] & 0x800000` looks at a bit a byte does
      not have: it is always false. */
  lemma SignExtensionTestDead(b0: byte)
    ensures (b0 as bv32) & 0x80_0000 == 0
  {
  }

  /** The assembled word, read as two's complement, is the signed 24-bit
      value shifted up by eight bits. */
  lemma AdcWordValue(b0: byte, b1: byte, b2: byte)
    ensures Int32Of(AdcWord(b0, b1, b2)) == 256 * Signed24(b0, b1, b2)
  {
    AdcWordLayout(b0, b1, b2);
  }

  lemma Signed24Range(b0: byte, b1: byte, b2: byte)
    ensures -0x80_0000 <= Signed24(b0, b1, b2) < 0x80_0000
    ensures Signed24(b0, b1, b2) < 0 <==> b0 & 0x80 == 0x80
  {
    Bit7(b0);
  }

  /** The value the driver returns from the ADC bytes, including the
      sign-extension branch as written: the signed 24-bit ADC value times 256,
      since the bytes are left in bits 31..8 and never shifted back down. */
  function AdcReading(b0: byte, b1: byte, b2: byte): (v: int)
    ensures v == 256 * Signed24(b0, b1, b2)
    ensures -0x8000_0000 <= v < 0x8000_0000
    ensures v % 256 == 0
    ensures v < 0 <==> b0 & 0x80 == 0x80
  {
    var word := AdcWord(b0, b1, b2);
    var adc := if (b0 as bv32) & 0x80_0000 != 0 then word | 0xFF00_0000 else word;
    SignExtensionTestDead(b0);
    assert adc == word;
    AdcWordValue(b0, b1, b2);
    Signed24Range(b0, b1, b2);
    Int32Of(adc)
  }
}
