/**
 * The Si114x 8-bit pseudo-float used for the chip's measurement-rate and timer registers:
 * a byte `eeee ffff` stands for the 16-bit value `1.ffff * 2^eeee`, with a denormal
 * `0.ffff` range for exponent zero that rounds to 0 or 1.
 *
 * The codec works on unsigned integers of 8, 16 and 32 bits.  Here they are `int`s in range:
 * `<<` and `>>` are `Shl` and `Shr`, a mask of low bits is a remainder, a mask of the high
 * nibble followed by `>> 4` a quotient, and the final `uint8_t` return a remainder by 256.
 * No intermediate value of the C code exceeds its 32 bits, so only that last truncation
 * matters.
 */
module Si114xCompress {
  type UInt8 = x: int | 0 <= x < 0x100
  type UInt16 = x: int | 0 <= x < 0x1_0000

  // Shifts

  /** `x << n`. */
  function Shl(x: nat, n: nat): nat {
    if n == 0 then x else 2 * Shl(x, n - 1)
  }

  /** `x >> n`. */
  function Shr(x: nat, n: nat): nat {
    if n == 0 then x else Shr(x / 2, n - 1)
  }

  /** Shifting left distributes over a sum. */
  lemma {:induction false} ShlAdd(a: nat, b: nat, n: nat)
    ensures Shl(a + b, n) == Shl(a, n) + Shl(b, n)
  {
    if n > 0 {
      ShlAdd(a, b, n - 1);
    }
  }

  /** One more shift is one more doubling, on either side. */
  lemma ShlTwice(a: nat, n: nat)
    ensures Shl(2 * a, n) == 2 * Shl(a, n) == Shl(a, n + 1)
  {
    ShlAdd(a, a, n);
  }

  lemma ShlMonotone(a: nat, b: nat, n: nat)
    requires a <= b
    ensures Shl(a, n) <= Shl(b, n)
  {
    ShlAdd(a, b - a, n);
  }

  /** A right shift keeps the whole multiples of `2^n`: `x` lies between `s << n` and `(s + 1) << n`. */
  lemma {:induction false} ShrBetweenShifts(x: nat, n: nat)
    ensures Shl(Shr(x, n), n) <= x < Shl(Shr(x, n) + 1, n)
  {
    if n > 0 {
      ShrBetweenShifts(x / 2, n - 1);
      var s := Shr(x / 2, n - 1);
      ShlTwice(s, n - 1);
      ShlTwice(s + 1, n - 1);
    }
  }

  /** `x >> n` is the `s` whose multiples `s << n` and `(s + 1) << n` bracket `x`. */
  lemma ShrBetween(x: nat, n: nat, lo: nat, hi: nat)
    requires Shl(lo, n) <= x < Shl(hi, n)
    ensures lo <= Shr(x, n) < hi
  {
    var s := Shr(x, n);
    ShrBetweenShifts(x, n);
    if s < lo {
      ShlMonotone(s + 1, lo, n);
    } else if s >= hi {
      ShlMonotone(hi, s, n);
    }
  }

  /** Shifting left, then right by as much again and `k` more, drops only the `k` bits. */
  lemma {:induction false} ShrShl(a: nat, n: nat, k: nat)
    ensures Shr(Shl(a, n), n + k) == Shr(a, k)
  {
    if n > 0 {
      ShrShl(a, n - 1, k);
    }
  }

  /** The powers of two up to `1 << 16`. */
  lemma Powers()
    ensures Shl(1, 0) == 1 && Shl(1, 1) == 2 && Shl(1, 2) == 4 && Shl(1, 3) == 8 && Shl(1, 4) == 16
    ensures Shl(1, 5) == 32 && Shl(1, 10) == 0x400 && Shl(1, 13) == 0x2000 && Shl(1, 14) == 0x4000
    ensures Shl(1, 15) == 0x8000 && Shl(1, 16) == 0x1_0000
  {
    assert Shl(1, 10) == 0x400;
    assert Shl(1, 11) == 0x800;
    assert Shl(1, 12) == 0x1000;
  }

  /** Shifts by at most four places, as products and quotients. */
  lemma SmallShifts(x: nat)
    ensures Shl(x, 1) == 2 * x && Shl(x, 2) == 4 * x && Shl(x, 3) == 8 * x && Shl(x, 4) == 16 * x
    ensures Shr(x, 1) == x / 2 && Shr(x, 2) == x / 4 && Shr(x, 3) == x / 8 && Shr(x, 4) == x / 16
  {
    assert Shl(x, 2) == 2 * Shl(x, 1);
    assert Shl(x, 3) == 2 * Shl(x, 2);
    assert Shr(x, 2) == Shr(x / 2, 1);
    assert Shr(x, 3) == Shr(x / 2, 2) == Shr(x / 4, 1);
    assert Shr(x, 4) == Shr(x / 2, 3) == Shr(x / 4, 2) == Shr(x / 8, 1);
  }

  // Decoding

  /**
   * `Uncompress`: bytes below 8 are the denormals that round to 0; otherwise the high nibble is
   * the exponent and the low nibble the fraction under an implicit leading one.
   */
  function Uncompress(input: UInt8): (output: nat)
    ensures input < 8 ==> output == 0
  {
    if input < 8 then 0
    else
      var exponent := input / 16;
      var significand := 16 + input % 16;
      if exponent >= 4 then Shl(significand, exponent - 4) else Shr(significand, 4 - exponent)
  }

  /** Decoding a byte read as its exponent and fraction fields. */
  lemma UncompressFields(e: nat, n: int)
    requires e < 16 && 0 <= n < 16 && e * 16 + n >= 8
    ensures e >= 4 ==> Uncompress(e * 16 + n) == Shl(16 + n, e - 4)
    ensures e < 4 ==> Uncompress(e * 16 + n) == Shr(16 + n, 4 - e)
  {
    assert (e * 16 + n) / 16 == e && (e * 16 + n) % 16 == n;
  }

  /** `1 << e` written as the significand 16 shifted by `e - 4`. */
  lemma PowerAsSignificand(e: nat)
    requires e >= 4
    ensures Shl(1, e) == Shl(16, e - 4)
  {
    ShlTwice(1, e - 1);
    ShlTwice(2, e - 2);
    ShlTwice(4, e - 3);
    ShlTwice(8, e - 4);
  }

  /** A significand `1.ffff` shifted left by `e - 4` lies in `[2^e, 2^(e+1))`, within 16 bits. */
  lemma ShiftedSignificandRange(e: nat, n: nat)
    requires 4 <= e < 16 && n < 16
    ensures Shl(1, e) <= Shl(16 + n, e - 4) < Shl(1, e + 1) <= 0x1_0000
  {
    PowerAsSignificand(e);
    PowerAsSignificand(e + 1);
    ShlTwice(16, e - 4);
    ShlMonotone(16, 16 + n, e - 4);
    ShlMonotone(17 + n, 32, e - 4);
    ShlAdd(16 + n, 1, e - 4);
    ShlMonotoneShift(1, 0, e - 4);
    ShlMonotoneShift(1, e + 1, 16);
    Powers();
  }

  /** A significand `1.ffff` shifted right by `4 - e` lies in `[2^e, 2^(e+1))`. */
  lemma DenormalSignificandRange(e: nat, n: nat)
    requires e < 4 && n < 16
    ensures Shl(1, e) <= Shr(16 + n, 4 - e) < Shl(1, e + 1)
  {
    SmallShifts(16 + n);
    Powers();
  }

  /**
   * A byte with exponent `e` decodes into `[2^e, 2^(e+1))`: the exponent is the position of the
   * decoded value's highest bit, and every value fits the `uint16_t` result.
   */
  lemma UncompressRange(input: UInt8)
    requires input >= 8
    ensures Shl(1, input / 16) <= Uncompress(input) < Shl(1, input / 16 + 1)
    ensures Uncompress(input) < 0x1_0000
  {
    var e := input / 16;
    var n := input % 16;
    UncompressFields(e, n);
    if e >= 4 {
      ShiftedSignificandRange(e, n);
    } else {
      DenormalSignificandRange(e, n);
      ShlMonotoneShift(1, e + 1, 16);
      Powers();
    }
  }

  /** A longer shift never gives less. */
  lemma {:induction false} ShlMonotoneShift(a: nat, m: nat, n: nat)
    requires m <= n
    ensures Shl(a, m) <= Shl(a, n)
  {
    if m < n {
      ShlMonotoneShift(a, m, n - 1);
    }
  }

  /** Within one exponent, a larger fraction never decodes to a smaller value. */
  lemma FractionMonotone(e: nat, n: nat, m: nat)
    requires e < 16 && n <= m < 16 && e * 16 + n >= 8
    ensures Uncompress(e * 16 + n) <= Uncompress(e * 16 + m)
  {
    UncompressFields(e, n);
    UncompressFields(e, m);
    if e >= 4 {
      ShlMonotone(16 + n, 16 + m, e - 4);
    } else {
      SmallShifts(16 + n);
      SmallShifts(16 + m);
    }
  }

  /** A larger byte never decodes to a smaller value. */
  lemma UncompressMonotone(x: UInt8, y: UInt8)
    requires x <= y
    ensures Uncompress(x) <= Uncompress(y)
  {
    if x >= 8 {
      var e := x / 16;
      if e < y / 16 {
        UncompressRange(x);
        UncompressRange(y);
        ShlMonotoneShift(1, e + 1, y / 16);
      } else {
        FractionMonotone(e, x % 16, y % 16);
      }
    }
  }

  /** The worked examples and table rows of the codec's documentation. */
  lemma UncompressExamples()
    ensures Uncompress(0x9A) == 0x340 && Uncompress(0xFF) == 0xF800
    ensures Uncompress(0x08) == 0x1 && Uncompress(0x24) == 0x5 && Uncompress(0x3E) == 0xF
    ensures Uncompress(0x40) == 0x10 && Uncompress(0x44) == 0x14
    ensures Uncompress(0x50) == 0x20 && Uncompress(0x54) == 0x28
    ensures Uncompress(0xDF) == 15872
  {
  }

  // Encoding

  /**
   * The index of the highest set bit of a positive number: the count of right shifts until
   * only the leading one is left.
   */
  function HighestBit(x: nat): (e: nat)
    requires x >= 1
    ensures Shr(x, e) == 1
  {
    if x == 1 then 0 else 1 + HighestBit(x / 2)
  }

  /** The highest set bit brackets the number between consecutive powers of two. */
  lemma HighestBitRange(x: nat)
    requires x >= 1
    ensures Shl(1, HighestBit(x)) <= x < Shl(1, HighestBit(x) + 1)
  {
    var e := HighestBit(x);
    ShrBetweenShifts(x, e);
    ShlTwice(1, e);
  }

  /** Only one exponent brackets a number between consecutive powers of two. */
  lemma HighestBitUnique(x: nat, e: nat)
    requires Shl(1, e) <= x < Shl(1, e + 1)
    ensures HighestBit(x) == e
  {
    var h := HighestBit(x);
    HighestBitRange(x);
    if h < e {
      ShlMonotoneShift(1, h + 1, e);
    } else if h > e {
      ShlMonotoneShift(1, e + 1, h);
    }
  }

  /** A 16-bit number has its highest set bit at 15 or below. */
  lemma HighestBitOf16Bits(x: UInt16)
    requires x >= 1
    ensures HighestBit(x) <= 15
  {
    HighestBitRange(x);
    Powers();
    if HighestBit(x) > 15 {
      ShlMonotoneShift(1, 16, HighestBit(x));
    }
  }

  /**
   * `Compress`'s result before the `uint8_t` return truncates it: `(exponent << 4) | nibble`
   * in 32 bits, where the nibble never reaches the exponent's bits.  Exponents below 5 keep
   * every bit of the input; from 5 on the significand is rounded.
   */
  function CompressedCode(input: UInt16): nat {
    if input == 0 then 0
    else if input == 1 then 0x08
    else ExponentCode(input, HighestBit(input))
  }

  /** The code of an input from 2 up whose highest set bit is `exponent`. */
  function ExponentCode(input: nat, exponent: nat): nat {
    if exponent < 5 then exponent * 16 + Shl(input, 4 - exponent) % 16
    else RoundSignificand(exponent, Shr(input, exponent - 5))
  }

  /**
   * The rounding step on a six-bit significand `1.fffff`: when the fifth fraction bit is set,
   * add one at the fourth (bit 1), and if that carries into bit 6 move to the next exponent.
   */
  function RoundSignificand(exponent: nat, significand: nat): nat {
    if significand % 2 == 1 && ((significand + 2) / 0x40) % 2 == 1 then
      (exponent + 1) * 16 + ((significand + 2) / 2 / 2) % 16
    else if significand % 2 == 1 then
      exponent * 16 + ((significand + 2) / 2) % 16
    else
      exponent * 16 + (significand / 2) % 16
  }

  /** `Compress` as written: the 32-bit code truncated to the `uint8_t` it returns. */
  function CompressAsWritten(input: UInt16): UInt8 {
    CompressedCode(input) % 0x100
  }

  /** `Compress` as intended: codes past the largest byte saturate at 0xFF instead of wrapping. */
  function CompressSaturating(input: UInt16): (r: UInt8)
    ensures CompressedCode(input) <= 0xFF ==> r == CompressAsWritten(input)
    ensures CompressedCode(input) > 0xFF ==> r == 0xFF
  {
    var code := CompressedCode(input);
    if code > 0xFF then 0xFF else code
  }

  /** `Compress`, step by step: the denormal cases, the exponent search, then the rounding. */
  method Compress(input: UInt16) returns (r: UInt8)
    ensures r == CompressAsWritten(input)
  {
    if input == 0 {
      return 0;
    }
    if input == 0x0001 {
      return 0x08;
    }
    var exponent := 0;
    var tmp := input;
    while true
      invariant tmp >= 2
      invariant exponent + HighestBit(tmp) == HighestBit(input)
      decreases tmp
    {
      tmp := tmp / 2;
      exponent := exponent + 1;
      if tmp == 1 {
        break;
      }
    }
    assert CompressedCode(input) == ExponentCode(input, exponent);
    if exponent < 5 {
      var significand := Shl(input, 4 - exponent);
      return (exponent * 16 + significand % 16) % 0x100;
    }
    var significand := Shr(input, exponent - 5);
    ghost var code := RoundSignificand(exponent, significand);
    if significand % 2 == 1 {
      significand := significand + 2;
      if (significand / 0x40) % 2 == 1 {
        exponent := exponent + 1;
        significand := significand / 2;
      }
    }
    assert exponent * 16 + (significand / 2) % 16 == code;
    r := (exponent * 16 + (significand / 2) % 16) % 0x100;
  }

  /** The denormal answers and the worked 500 ms example: 16000 ticks compress to 0xDF. */
  lemma CompressExamples()
    ensures CompressAsWritten(0) == 0x00 && CompressAsWritten(1) == 0x08
    ensures CompressAsWritten(16000) == 0xDF
  {
    Powers();
    HighestBitUnique(16000, 13);
  }

  /** Shifting a number of exponent 1 to 4 left by `4 - e` puts its leading one at bit 4, losing nothing. */
  lemma SmallShift(input: nat, e: nat)
    requires 1 <= e <= 4 && Shl(1, e) <= input < Shl(1, e + 1)
    ensures 16 <= Shl(input, 4 - e) < 32 && Shr(Shl(input, 4 - e), 4 - e) == input
  {
    ShrShl(input, 4 - e, 0);
    SmallShifts(input);
    Powers();
  }

  /** For exponents below 5 the code is the exponent and the low four bits of the shifted input. */
  lemma SmallCode(input: UInt16, e: nat, significand: nat)
    requires input >= 2 && e == HighestBit(input) && e < 5
    requires significand == Shl(input, 4 - e) && 16 <= significand < 32
    ensures CompressAsWritten(input) == e * 16 + (significand - 16)
  {
    assert CompressedCode(input) == e * 16 + significand % 16;
  }

  /** Below 32 no bit is dropped: the exponent is the highest set bit and decoding gives the input back. */
  lemma CompressSmallRoundTrip(input: UInt16)
    requires input < 32
    ensures input >= 2 ==> CompressAsWritten(input) / 16 == HighestBit(input)
    ensures Uncompress(CompressAsWritten(input)) == input
  {
    if input >= 2 {
      var e := HighestBit(input);
      HighestBitRange(input);
      Powers();
      if e >= 5 {
        ShlMonotoneShift(1, 5, e);
      }
      SmallShift(input, e);
      var significand := Shl(input, 4 - e);
      SmallCode(input, e, significand);
      UncompressFields(e, significand - 16);
    }
  }

  /** The three outcomes of the rounding step on a six-bit significand. */
  lemma SignificandCode(e: nat, s: nat)
    requires 32 <= s < 64
    ensures s % 2 == 0 ==> RoundSignificand(e, s) == e * 16 + (s / 2 - 16)
    ensures s % 2 == 1 && s < 63 ==> RoundSignificand(e, s) == e * 16 + ((s + 1) / 2 - 16)
    ensures s == 63 ==> RoundSignificand(e, s) == (e + 1) * 16
  {
  }

  /**
   * The rounded code decodes to the significand rounded up to even, shifted by `e - 5`: an even
   * significand keeps its value, an odd one gains the fifth fraction bit's weight.
   */
  lemma DecodeRounded(e: nat, s: nat)
    requires 5 <= e <= 15 && 32 <= s < 64 && (s == 63 ==> e < 15)
    ensures RoundSignificand(e, s) <= 0xFF
    ensures Uncompress(RoundSignificand(e, s)) == Shl(s + s % 2, e - 5)
  {
    SignificandCode(e, s);
    if s % 2 == 0 {
      UncompressFields(e, s / 2 - 16);
      ShlTwice(s / 2, e - 5);
    } else if s < 63 {
      UncompressFields(e, (s + 1) / 2 - 16);
      ShlTwice((s + 1) / 2, e - 5);
    } else {
      UncompressFields(e + 1, 0);
      ShlTwice(16, e - 4);
      ShlTwice(32, e - 5);
    }
  }

  /** From 32 up to 0xFBFF the highest set bit lies between 5 and 15. */
  lemma ExponentBounds(input: UInt16)
    requires 32 <= input < 0xFC00
    ensures 5 <= HighestBit(input) <= 15
  {
    var e := HighestBit(input);
    HighestBitRange(input);
    HighestBitOf16Bits(input);
    Powers();
    if e < 5 {
      ShlMonotoneShift(1, e + 1, 5);
    }
  }

  /**
   * The six bits kept from the top of such an input form a significand `1.fffff` between 32
   * and 63, and only 63 itself at exponent 15 is out of reach below 0xFC00.
   */
  lemma SignificandBounds(input: UInt16, e: nat)
    requires 32 <= input < 0xFC00 && e == HighestBit(input) && 5 <= e <= 15
    ensures 32 <= Shr(input, e - 5) < 64
    ensures e == 15 ==> Shr(input, e - 5) < 63
  {
    HighestBitRange(input);
    PowerAsSignificand(e);
    PowerAsSignificand(e + 1);
    ShlTwice(16, e - 5);
    ShlTwice(32, e - 5);
    ShrBetween(input, e - 5, 32, 64);
    if e == 15 {
      assert Shl(63, 10) == 0xFC00;
      ShrBetween(input, 10, 32, 63);
    }
  }

  /** From exponent 5 on the code is the rounding of the six-bit significand. */
  lemma LargeCode(input: UInt16, e: nat, s: nat)
    requires input >= 2 && e == HighestBit(input) && e >= 5 && s == Shr(input, e - 5)
    ensures CompressedCode(input) == RoundSignificand(e, s)
    ensures RoundSignificand(e, s) <= 0xFF ==> CompressAsWritten(input) == RoundSignificand(e, s)
  {
  }

  /**
   * From 32 up to 0xFBFF the six-bit significand `s = input >> (e - 5)` is rounded to even
   * and the code decodes to it, shifted back.
   */
  lemma RoundedValue(input: UInt16, e: nat, s: nat)
    requires 32 <= input < 0xFC00 && e == HighestBit(input) && e >= 5 && s == Shr(input, e - 5)
    ensures Uncompress(CompressAsWritten(input)) == Shl(s + s % 2, e - 5)
  {
    ExponentBounds(input);
    SignificandBounds(input, e);
    DecodeRounded(e, s);
    LargeCode(input, e, s);
  }

  /** Below 0xFC00 the code fits a byte, so the `uint8_t` return loses nothing. */
  lemma RoundedCodeFits(input: UInt16)
    requires 32 <= input < 0xFC00
    ensures CompressedCode(input) <= 0xFF
  {
    ExponentBounds(input);
    var e := HighestBit(input);
    var s := Shr(input, e - 5);
    SignificandBounds(input, e);
    DecodeRounded(e, s);
    LargeCode(input, e, s);
  }

  /**
   * Rounding the significand `s = x >> k` up to even and shifting it back lands within one unit
   * of the dropped bits' weight, `1 << k`, of `x`.
   */
  lemma SignificandNearest(x: nat, s: nat, k: nat)
    requires s == Shr(x, k)
    ensures x - Shl(1, k) < Shl(s + s % 2, k) <= x + Shl(1, k)
  {
    ShrBetweenShifts(x, k);
    ShlAdd(s, 1, k);
  }

  /**
   * From 32 to 0xFBFF the code decodes to within `2^(e-5)` of the input, where `e` is the
   * input's highest set bit: four fraction bits, rounded half up on the fifth.
   */
  lemma CompressRoundsToNearest(input: UInt16, e: nat)
    requires 32 <= input < 0xFC00 && e == HighestBit(input)
    ensures e >= 5
    ensures input - Shl(1, e - 5) < Uncompress(CompressAsWritten(input)) <= input + Shl(1, e - 5)
  {
    ExponentBounds(input);
    var s := Shr(input, e - 5);
    RoundedValue(input, e, s);
    SignificandNearest(input, s, e - 5);
  }

  /** A value with no bits below its significand's fraction encodes to exactly that exponent and fraction. */
  lemma ExactCode(u: UInt16, e: nat, n: nat)
    requires 4 <= e < 16 && n < 16 && u == Shl(16 + n, e - 4) && u >= 1 && HighestBit(u) == e
    ensures CompressAsWritten(u) == e * 16 + n
  {
    if e == 4 {
      SmallCode(u, 4, u);
    } else {
      ShlTwice(16 + n, e - 5);
      ShrShl(2 * (16 + n), e - 5, 0);
      SignificandCode(e, 2 * (16 + n));
      LargeCode(u, e, 2 * (16 + n));
    }
  }

  /** Every byte from 0x40 up, where no fraction bit is shifted out, compresses back from its value. */
  lemma UncompressCompressRoundTrip(b: UInt8)
    requires b >= 0x40
    ensures Uncompress(b) < 0x1_0000 && CompressAsWritten(Uncompress(b)) == b
  {
    var e := b / 16;
    var n := b % 16;
    UncompressFields(e, n);
    ShiftedSignificandRange(e, n);
    var u := Shl(16 + n, e - 4);
    HighestBitUnique(u, e);
    ExactCode(u, e, n);
  }

  /**
   * As written: from 0xFC00 up the rounding carry makes the exponent 16, and `(16 << 4)` does
   * not fit the `uint8_t` result, so the largest inputs compress to 0x00, the code of zero.
   */
  lemma CompressWrapsAtTop(input: UInt16)
    requires input >= 0xFC00
    ensures CompressedCode(input) == 0x100 && CompressAsWritten(input) == 0x00
    ensures Uncompress(CompressAsWritten(input)) == 0
  {
    Powers();
    HighestBitUnique(input, 15);
    ShrBetween(input, 10, 63, 64);
  }

  /** The wrap in numbers: 0xFBFF compresses to the largest byte, one more to the smallest. */
  lemma CompressNotMonotoneAsWritten()
    ensures CompressAsWritten(0xFBFF) == 0xFF && CompressAsWritten(0xFC00) == 0x00
  {
    Powers();
    HighestBitUnique(0xFBFF, 15);
    ShrBetween(0xFBFF, 10, 62, 63);
    LargeCode(0xFBFF, 15, 62);
    CompressWrapsAtTop(0xFC00);
  }

  /**
   * The saturating encoder never wraps: inputs the byte range cannot reach get 0xFF, the code
   * of the largest value any byte decodes to, and every other input keeps its rounding bound.
   */
  lemma CompressSaturatingBounds(input: UInt16, e: nat)
    requires input >= 32 && e == HighestBit(input)
    ensures input >= 0xFC00 ==> CompressSaturating(input) == 0xFF
    ensures input >= 0xFC00 ==> forall b: UInt8 :: Uncompress(b) <= Uncompress(CompressSaturating(input))
    ensures input < 0xFC00 ==>
              e >= 5 && input - Shl(1, e - 5) < Uncompress(CompressSaturating(input)) <= input + Shl(1, e - 5)
  {
    if input >= 0xFC00 {
      CompressWrapsAtTop(input);
      forall b: UInt8
        ensures Uncompress(b) <= Uncompress(0xFF)
      {
        UncompressMonotone(b, 0xFF);
      }
    } else {
      CompressRoundsToNearest(input, e);
      RoundedCodeFits(input);
    }
  }
}
