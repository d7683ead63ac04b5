/** The \\uXXXX escapes of JSON strings (section 7 of RFC 8259) as src/yyjson.c
    writes and reads them: hexadecimal digits and surrogate pairs. */
module JsonEscape {
  import opened Bytes
  import opened Utf8

  const QUOTE: Byte := 0x22
  const BACKSLASH: Byte := 0x5C
  const SLASH: Byte := 0x2F
  const LOWER_U: Byte := 0x75

  // ----- hexadecimal -----

  /** One digit of esc_hex_char_table. */
  function HexChar(n: Byte): (c: Byte)
  {
    if n < 10 then 0x30 + n else 0x37 + n
  }

  /** hex_conv_table. */
  function HexVal(c: Byte): (n: Byte)
  {
    if 0x30 <= c <= 0x39 then c - 0x30
    else if 0x41 <= c <= 0x46 then c - 0x37
    else if 0x61 <= c <= 0x66 then c - 0x57
    else 0xF0
  }

  /** The escape \uXXXX of a 16-bit unit. */
  function UniEscape(u: bv16): (r: seq<Byte>)
    ensures |r| == 6
  {
    [BACKSLASH, LOWER_U,
     HexChar((u >> 12) as Byte), HexChar(((u >> 8) & 0xF) as Byte),
     HexChar(((u >> 4) & 0xF) as Byte), HexChar((u & 0xF) as Byte)]
  }

  /** hex_load_4. */
  function HexLoad(a: Byte, b: Byte, c: Byte, d: Byte): (r: Option<bv16>)
  {
    var t0 := (HexVal(a) as bv16 << 8) | HexVal(c) as bv16;
    var t1 := (HexVal(b) as bv16 << 8) | HexVal(d) as bv16;
    if (t0 | t1) & 0xF0F0 == 0 then Some((t0 << 4) | t1) else None
  }

  lemma {:induction false} HexDigit(n: Byte)
    requires n < 16
    ensures HexVal(HexChar(n)) == n
  {
  }

  /** A load that succeeds did not run into the zero padding. */
  lemma {:induction false} HexLoadInside(a: Byte, b: Byte, c: Byte, d: Byte)
    requires HexLoad(a, b, c, d).Some?
    ensures d != 0
  {
  }

  lemma {:induction false} NibblesJoin(u: bv16, a: Byte, b: Byte, c: Byte, d: Byte)
    requires a == (u >> 12) as Byte && b == ((u >> 8) & 0xF) as Byte
    requires c == ((u >> 4) & 0xF) as Byte && d == (u & 0xF) as Byte
    ensures var t0, t1 := (a as bv16 << 8) | c as bv16, (b as bv16 << 8) | d as bv16;
            (t0 | t1) & 0xF0F0 == 0 && (t0 << 4) | t1 == u
  {
  }

  lemma {:induction false} HexRoundTrip(u: bv16)
    ensures var e := UniEscape(u); HexLoad(e[2], e[3], e[4], e[5]) == Some(u)
  {
    var a, b, c, d := (u >> 12) as Byte, ((u >> 8) & 0xF) as Byte, ((u >> 4) & 0xF) as Byte, (u & 0xF) as Byte;
    HexDigit(a);
    HexDigit(b);
    HexDigit(c);
    HexDigit(d);
    NibblesJoin(u, a, b, c, d);
  }

  // ----- surrogate pairs -----

  predicate IsSurrogate(u: bv16) { u & 0xF800 == 0xD800 }

  predicate IsHigh(u: bv16) { u & 0xFC00 == 0xD800 }

  predicate IsLow(u: bv16) { u & 0xFC00 == 0xDC00 }

  function Wide(u: bv16): (c: bv32) { u as bv32 }

  /** The 20-bit offset of a supplementary scalar, and back. */
  function Offset(c: bv32): (v: bv32) { c - 0x10000 }

  function Onset(v: bv32): (c: bv32) { v + 0x10000 }

  function HighOf(v: bv32): (u: bv16)
    requires v <= 0xFFFFF
  {
    ((v >> 10) + 0xD800) as bv16
  }

  function LowOf(v: bv32): (u: bv16)
  {
    ((v & 0x3FF) + 0xDC00) as bv16
  }

  function HighBits(hi: bv16): (x: bv32) { hi as bv32 - 0xD800 }

  function LowBits(lo: bv16): (y: bv32) { lo as bv32 - 0xDC00 }

  function Glue(x: bv32, y: bv32): (v: bv32) { (x << 10) | y }

  function Join(hi: bv16, lo: bv16): (v: bv32)
  {
    Glue(HighBits(hi), LowBits(lo))
  }

  function FromSurrogates(hi: bv16, lo: bv16): (c: bv32)
  {
    Onset(Join(hi, lo))
  }

  lemma {:induction false} OffsetIsInRange(c: bv32)
    requires 0x10000 <= c <= 0x10FFFF
    ensures Offset(c) <= 0xFFFFF
  {
  }

  lemma {:induction false} HighHalf(v: bv32)
    requires v <= 0xFFFFF
    ensures IsHigh(HighOf(v)) && HighBits(HighOf(v)) == v >> 10
  {
  }

  lemma {:induction false} LowHalf(v: bv32)
    ensures IsLow(LowOf(v)) && LowBits(LowOf(v)) == v & 0x3FF
  {
  }

  lemma {:induction false} JoinHalves(v: bv32)
    requires v <= 0xFFFFF
    ensures Join(HighOf(v), LowOf(v)) == v
  {
    HighHalf(v);
    LowHalf(v);
    assert Glue(v >> 10, v & 0x3FF) == v;
  }

  lemma {:induction false} SurrogatesRoundTrip(c: bv32)
    requires 0x10000 <= c <= 0x10FFFF
    ensures Offset(c) <= 0xFFFFF
    ensures var hi, lo := HighOf(Offset(c)), LowOf(Offset(c));
            IsHigh(hi) && IsLow(lo) && FromSurrogates(hi, lo) == c
  {
    OffsetIsInRange(c);
    HighHalf(Offset(c));
    LowHalf(Offset(c));
    JoinHalves(Offset(c));
    assert Onset(c - 0x10000) == c;
  }

  lemma {:induction false} SurrogatesInRange(hi: bv16, lo: bv16)
    requires IsHigh(hi) && IsLow(lo)
    ensures 0x10000 <= FromSurrogates(hi, lo) <= 0x10FFFF
  {
  }

  lemma {:induction false} BmpIsScalar(u: bv16)
    requires !IsSurrogate(u)
    ensures IsScalar(Wide(u))
  {
  }

  lemma {:induction false} HighIsSurrogate(u: bv16)
    requires IsHigh(u)
    ensures IsSurrogate(u)
  {
  }

  // ----- digits in either case -----

  /** The digit n as a reader may find it. */
  function HexCharIn(lower: bool, n: Byte): (c: Byte)
  {
    if lower && n >= 10 then HexChar(n) + 0x20 else HexChar(n)
  }

  lemma {:induction false} HexDigitInAnyCase(lower: bool, n: Byte)
    requires n < 16
    ensures HexVal(HexCharIn(lower, n)) == n
  {
  }

  /** Nothing else is a digit. */
  lemma {:induction false} OnlyHexDigits(c: Byte)
    requires HexVal(c) < 16
    ensures c == HexCharIn(false, HexVal(c)) || c == HexCharIn(true, HexVal(c))
  {
  }

  /** Four digits, each in either case, load as the unit they spell. */
  lemma {:induction false} HexLoadsInAnyCase(u: bv16, p: bool, q: bool, r: bool, s: bool)
    ensures HexLoad(HexCharIn(p, (u >> 12) as Byte), HexCharIn(q, ((u >> 8) & 0xF) as Byte),
                    HexCharIn(r, ((u >> 4) & 0xF) as Byte), HexCharIn(s, (u & 0xF) as Byte)) == Some(u)
  {
    var a, b, c, d := (u >> 12) as Byte, ((u >> 8) & 0xF) as Byte, ((u >> 4) & 0xF) as Byte, (u & 0xF) as Byte;
    HexDigitInAnyCase(p, a);
    HexDigitInAnyCase(q, b);
    HexDigitInAnyCase(r, c);
    HexDigitInAnyCase(s, d);
    NibblesJoin(u, a, b, c, d);
  }

  /** And fewer digits do not load. */
  lemma {:induction false} HexLoadNeedsDigits(a: Byte, b: Byte, c: Byte, d: Byte)
    requires HexLoad(a, b, c, d).Some?
    ensures HexVal(a) < 16 && HexVal(b) < 16 && HexVal(c) < 16 && HexVal(d) < 16
  {
  }
}
