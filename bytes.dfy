/**
 * Byte-level helpers with Python's semantics: slicing that clamps instead of failing,
 * `int.from_bytes` on at most two bytes, `int.to_bytes(2, "big")` and `bytes([v])`.
 */
module Bytes {
  import opened Errors

  function Min(a: int, b: int): int {
    if a <= b then a else b
  }

  /** Python's `s[a:b]` for non-negative bounds: clamps both bounds and never fails. */
  function Slice<T>(s: seq<T>, a: nat, b: nat): (r: seq<T>)
    ensures |r| == if Min(a, |s|) <= Min(b, |s|) then Min(b, |s|) - Min(a, |s|) else 0
    ensures forall i | 0 <= i < |r| :: r[i] == s[a + i]
    ensures a <= b <= |s| ==> r == s[a..b]
  {
    var lo := Min(a, |s|);
    var hi := Min(b, |s|);
    if lo <= hi then s[lo..hi] else []
  }

  /** `s[::-1]` */
  function Reverse<T>(s: seq<T>): (r: seq<T>)
    ensures |r| == |s|
    ensures forall i | 0 <= i < |s| :: r[i] == s[|s| - 1 - i]
  {
    if s == [] then [] else Reverse(s[1..]) + [s[0]]
  }

  /** `s[i]`: IndexError past the end. */
  function ByteAt(s: seq<bv8>, i: nat): (r: Result<bv8>)
    ensures r.Success? <==> i < |s|
    ensures r.Success? ==> r.value == s[i]
    ensures r.Failure? ==> r.error == IndexOutOfRange
  {
    if i < |s| then Success(s[i]) else Failure(IndexOutOfRange)
  }

  /** `int.from_bytes(s, "big")` for the one- and two-byte slices the drivers decode. */
  function Word(s: seq<bv8>): (w: bv16)
    requires |s| <= 2
    ensures |s| == 2 ==> w >> 8 == s[0] as bv16 && w & 0xFF == s[1] as bv16
    ensures |s| == 1 ==> w == s[0] as bv16
    ensures |s| == 0 ==> w == 0
  {
    if |s| == 2 then (s[0] as bv16 << 8) | s[1] as bv16
    else if |s| == 1 then s[0] as bv16
    else 0
  }

  /** `int.from_bytes(s, "big", signed=True)` for at most two bytes: two's complement. */
  function SignedWord(s: seq<bv8>): (v: int)
    requires |s| <= 2
    ensures |s| == 2 ==> -0x8000 <= v < 0x8000
    ensures |s| == 2 ==> (v < 0 <==> s[0] >= 0x80)
    ensures |s| == 2 ==> (v + 0x10000) % 0x10000 == s[0] as int * 0x100 + s[1] as int
  {
    if |s| == 2 then
      var unsigned := s[0] as int * 0x100 + s[1] as int;
      if s[0] >= 0x80 then unsigned - 0x10000 else unsigned
    else if |s| == 1 then
      (if s[0] >= 0x80 then s[0] as int - 0x100 else s[0] as int)
    else 0
  }

  /** `v.to_bytes(2, "big")` for a value that already fits in sixteen bits. */
  function BigEndian16(v: bv16): (r: seq<bv8>)
    ensures |r| == 2 && Word(r) == v
  {
    [(v >> 8) as bv8, (v & 0xFF) as bv8]
  }

  /** An integer already known to fit in a byte, as that byte. */
  function ToByte(v: int): (b: bv8)
    requires 0 <= v < 256
    ensures b as int == v
    decreases v
  {
    // Counted up from zero rather than cast: the solver's proof that a cast keeps the value
    // is costly and varies widely from run to run, while each step here is one increment.
    if v == 0 then 0 else ToByte(v - 1) + 1
  }

  /** A byte is determined by its value. */
  lemma ByteOfInt(b: bv8, v: int)
    requires b as int == v
    ensures 0 <= v < 256 && ToByte(v) == b
  {
  }

  /** The two bytes of a value below 0x10000, most significant first. */
  function HighLow(v: int): (r: seq<bv8>)
    requires 0 <= v < 0x10000
    ensures |r| == 2 && r[0] as int == v / 256 && r[1] as int == v % 256
  {
    [ToByte(v / 256), ToByte(v % 256)]
  }

  /** `v.to_bytes(2, "big")` on a Python integer: OverflowError outside 0..0xFFFF. */
  function IntToBytes2(v: int): (r: Result<seq<bv8>>)
    ensures r.Success? <==> 0 <= v < 0x10000
    ensures r.Success? ==> r.value == HighLow(v)
  {
    if 0 <= v < 0x10000 then Success(HighLow(v)) else Failure(IntTooBig)
  }

  /** The bytes `IntToBytes2` produces read back, most significant first, as the same integer. */
  lemma IntToBytes2RoundTrip(v: int)
    requires 0 <= v < 0x10000
    ensures var r := IntToBytes2(v); r.Success? && r.value[0] as int * 256 + r.value[1] as int == v
  {
  }

  /** One element of `bytes([...])`: ValueError outside 0..255. */
  function ByteOf(v: int): (r: Result<bv8>)
    ensures r.Success? <==> 0 <= v < 256
    ensures r.Success? ==> r.value as int == v
  {
    if 0 <= v < 256 then Success(ToByte(v)) else Failure(ByteOutOfRange)
  }
  /** `bytes(values)` on a list of Python integers: ValueError unless every one is a byte. */
  function BytesOf(values: seq<int>): (r: Result<seq<bv8>>)
    ensures r.Success? <==> forall i | 0 <= i < |values| :: 0 <= values[i] < 256
    ensures r.Success? ==> |r.value| == |values| && forall i | 0 <= i < |values| :: r.value[i] as int == values[i]
    ensures r.Failure? ==> r.error == ByteOutOfRange
  {
    if values == [] then Success([])
    else
      match ByteOf(values[0])
      case Failure(e) => Failure(e)
      case Success(b) =>
        match BytesOf(values[1..])
        case Failure(e) => Failure(e)
        case Success(tail) => Success([b] + tail)
  }

  /** `list(b)`: the bytes of `b` as Python integers. */
  function Values(b: seq<bv8>): (r: seq<int>)
    ensures |r| == |b| && forall i | 0 <= i < |b| :: r[i] == b[i] as int
  {
    seq(|b|, i requires 0 <= i < |b| => b[i] as int)
  }

  /** Listing bytes and packing them again gives the same bytes. */
  lemma BytesOfValues(b: seq<bv8>)
    ensures BytesOf(Values(b)) == Success(b)
  {
    var r := BytesOf(Values(b));
    assert r.Success?;
    assert |r.value| == |b|;
    forall i | 0 <= i < |b|
      ensures r.value[i] == b[i]
    {
      ByteOfInt(r.value[i], b[i] as int);
      ByteOfInt(b[i], b[i] as int);
    }
    assert r.value == b;
  }

  // Register fields

  /** A field of a register update: left as it is, or cleared and ORed with `bits`. */
  datatype Field = Keep | Put(bits: bv16)

  /** `config &= ~mask; config |= value` */
  function SetField(config: bv16, mask: bv16, value: bv16): bv16 {
    (config & !mask) | value
  }

  /** One field update: clear the field's mask and OR the value in, or leave the word as it is. */
  function FieldStep(config: bv16, mask: bv16, field: Field): bv16 {
    match field
    case Keep => config
    case Put(bits) => SetField(config, mask, bits)
  }

  /** `config &= ~mask; config |= bits` on a local word, when the field is supplied. */
  method UpdateField(config: bv16, mask: bv16, field: Field) returns (r: bv16)
    ensures r == FieldStep(config, mask, field)
  {
    r := config;
    if field.Put? {
      r := r & !mask;
      r := r | field.bits;
    }
  }
}
