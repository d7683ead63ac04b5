/** The JSON string writer and reader of src/yyjson.c (section 7 of RFC 8259) under
    strict options, and their round trip. */
module JsonString {
  import opened Bytes
  import opened Utf8
  import opened JsonEscape

  // ----- the writer -----

  /** Character encode types; the digit is the number of input bytes. */
  datatype Enc = Cpy1 | Err1 | EscA | Esc1 | Cpy2 | Esc2 | Cpy3 | Esc3 | Cpy4 | Esc4

  /** The four encode tables: `esc` escapes all of Unicode, `slash` escapes '/'. */
  function EncType(esc: bool, slash: bool, b: Byte): (e: Enc)
  {
    if b < 0x20 then
      if b == 0x08 || b == 0x09 || b == 0x0A || b == 0x0C || b == 0x0D then EscA else Esc1
    else if b == QUOTE || b == BACKSLASH then EscA
    else if b == SLASH then if slash then EscA else Cpy1
    else if b < 0x80 then Cpy1
    else if b < 0xC0 then Err1
    else if b < 0xE0 then if esc then Esc2 else Cpy2
    else if b < 0xF0 then if esc then Esc3 else Cpy3
    else if b < 0xF8 then if esc then Esc4 else Cpy4
    else Err1
  }

  /** esc_single_char_table. */
  function EscChar(b: Byte): (c: Byte)
  {
    if b == 0x08 then 0x62
    else if b == 0x09 then 0x74
    else if b == 0x0A then 0x6E
    else if b == 0x0C then 0x66
    else if b == 0x0D then 0x72
    else b
  }

  /** The word the mask tests look at. */
  function Word(s: seq<Byte>): (u: bv32)
  {
    Load4(At(s, 0), At(s, 1), At(s, 2), At(s, 3))
  }

  datatype Written = Written(out: seq<Byte>, n: nat)

  /** One character at the front: its output and its input length, or an error. */
  function WriteUnit(esc: bool, slash: bool, s: seq<Byte>): (r: Option<Written>)
    requires s != []
    ensures r.Some? ==> 1 <= r.value.n <= |s| && 1 <= |r.value.out| <= 6 * r.value.n
  {
    match EncType(esc, slash, s[0])
    case Cpy1 => Some(Written(s[..1], 1))
    case Err1 => None
    case EscA => Some(Written([BACKSLASH, EscChar(s[0])], 1))
    case Esc1 => Some(Written(UniEscape(s[0] as bv16), 1))
    case Cpy2 => if |s| < 2 || !IsSeq2(Word(s)) then None else Some(Written(s[..2], 2))
    case Cpy3 => if |s| < 3 || !IsSeq3(Word(s)) then None else Some(Written(s[..3], 3))
    case Cpy4 => if |s| < 4 || !IsSeq4(Word(s)) then None else Some(Written(s[..4], 4))
    case Esc2 => if |s| < 2 || !IsSeq2(Word(s)) then None else Some(Written(UniEscape(Unit2(s[0], s[1])), 2))
    case Esc3 => if |s| < 3 || !IsSeq3(Word(s)) then None else Some(Written(UniEscape(Unit3(s[0], s[1], s[2])), 3))
    case Esc4 =>
      if |s| < 4 || !IsSeq4(Word(s)) then None
      else
        OffsetOfSeq4(s);
        var v := Offset(Decode4(s[0], s[1], s[2], s[3]));
        Some(Written(UniEscape(HighOf(v)) + UniEscape(LowOf(v)), 4))
  }

  lemma {:induction false} OffsetOfSeq4(s: seq<Byte>)
    requires |s| >= 4 && IsSeq4(Word(s))
    ensures 0x10000 <= Decode4(s[0], s[1], s[2], s[3]) <= 0x10FFFF
    ensures Offset(Decode4(s[0], s[1], s[2], s[3])) <= 0xFFFFF
  {
    MasksAgree(s);
    Continuing(s[1]);
    FourRange(s[0], s[1], s[2], s[3]);
    OffsetIsInRange(Decode4(s[0], s[1], s[2], s[3]));
  }

  lemma {:induction false} Continuing(b: Byte)
    ensures 0x80 <= b <= 0xBF ==> Continues(b)
  {
  }

  function Unit2(a: Byte, b: Byte): (u: bv16)
  {
    ((a & 0x1F) as bv16 << 6) | (b & 0x3F) as bv16
  }

  function Unit3(a: Byte, b: Byte, c: Byte): (u: bv16)
  {
    ((a & 0x0F) as bv16 << 12) | ((b & 0x3F) as bv16 << 6) | (c & 0x3F) as bv16
  }

  function WriteFrom(esc: bool, slash: bool, s: seq<Byte>): (r: Option<seq<Byte>>)
    decreases |s|
  {
    if s == [] then Some([QUOTE])
    else
      var u := WriteUnit(esc, slash, s);
      if u == None then None
      else
        var rest := WriteFrom(esc, slash, s[u.value.n..]);
        if rest == None then None else Some(u.value.out + rest.value)
  }

  /** write_str: the quoted string, or nothing for invalid UTF-8. */
  function Write(esc: bool, slash: bool, s: seq<Byte>): (r: Option<seq<Byte>>)
  {
    var w := WriteFrom(esc, slash, s);
    if w == None then None else Some([QUOTE] + w.value)
  }

  lemma {:induction false} WritesOne(esc: bool, slash: bool, str: seq<Byte>, src: nat, out: seq<Byte>, u: Written)
    requires src < |str| && WriteUnit(esc, slash, str[src..]) == Some(u)
    ensures Glued(out, WriteFrom(esc, slash, str[src..]))
         == Glued(out + u.out, WriteFrom(esc, slash, str[src + u.n..]))
  {
    assert str[src..][u.n..] == str[src + u.n..];
    GluedStep(out, u.out, WriteFrom(esc, slash, str[src + u.n..]));
  }

  /** One turn of the writer's loop: plain ASCII is copied, anything else goes through the
      switch; `goal` is the output of the whole string. */
  method WriteNext(esc: bool, slash: bool, str: seq<Byte>, src: nat, out: seq<Byte>, ghost goal: Option<seq<Byte>>)
    returns (ok: bool, src': nat, out': seq<Byte>)
    requires src < |str| && goal == Glued(out, WriteFrom(esc, slash, str[src..]))
    ensures !ok ==> goal == None
    ensures ok ==> src < src' <= |str| && goal == Glued(out', WriteFrom(esc, slash, str[src'..]))
  {
    var u := Some(Written([str[src]], 1));
    if EncType(esc, slash, str[src]) == Cpy1 {
      assert str[src..][..1] == [str[src]];
    } else {
      u := WriteUnit(esc, slash, str[src..]);
      if u == None {
        return false, src, out;
      }
    }
    WritesOne(esc, slash, str, src, out, u.value);
    return true, src + u.value.n, out + u.value.out;
  }

  /** write_str, cursor by cursor. */
  method WriteStr(esc: bool, slash: bool, str: seq<Byte>) returns (r: Option<seq<Byte>>)
    ensures r == Write(esc, slash, str)
  {
    var out, src, ok := [QUOTE], 0, true;
    assert str[0..] == str;
    ghost var goal := Write(esc, slash, str);
    while src < |str|
      invariant 0 <= src <= |str| && goal == Glued(out, WriteFrom(esc, slash, str[src..]))
    {
      ok, src, out := WriteNext(esc, slash, str, src, out, goal);
      if !ok {
        return None;
      }
    }
    assert str[src..] == [];
    return Some(out + [QUOTE]);
  }

  function Glued(out: seq<Byte>, rest: Option<seq<Byte>>): (r: Option<seq<Byte>>)
  {
    if rest == None then None else Some(out + rest.value)
  }

  lemma {:induction false} GluedStep(a: seq<Byte>, b: seq<Byte>, rest: Option<seq<Byte>>)
    ensures Glued(a, Glued(b, rest)) == Glued(a + b, rest)
  {
    if rest.Some? {
      assert a + (b + rest.value) == a + b + rest.value;
    }
  }

  /** write_str_noesc: copies sixteen, four, then single bytes. */
  method WriteStrNoEsc(str: seq<Byte>) returns (out: seq<Byte>)
    ensures out == [QUOTE] + str + [QUOTE]
  {
    out := [QUOTE];
    var i := 0;
    while |str| - i >= 16
      invariant 0 <= i <= |str| && out == [QUOTE] + str[..i]
    {
      assert str[..i] + str[i..i + 16] == str[..i + 16];
      out := out + str[i..i + 16];
      i := i + 16;
    }
    while |str| - i >= 4
      invariant 0 <= i <= |str| && out == [QUOTE] + str[..i]
    {
      assert str[..i] + str[i..i + 4] == str[..i + 4];
      out := out + str[i..i + 4];
      i := i + 4;
    }
    while i < |str|
      invariant 0 <= i <= |str| && out == [QUOTE] + str[..i]
    {
      assert str[..i] + [str[i]] == str[..i + 1];
      out := out + [str[i]];
      i := i + 1;
    }
    assert str[..i] == str;
    out := out + [QUOTE];
  }

  // ----- the reader -----

  /** CHAR_TYPE_ASCII: printable ASCII but quote and backslash. */
  predicate IsAsciiSkip(c: Byte)
  {
    0x20 <= c < 0x80 && c != QUOTE && c != BACKSLASH
  }

  /** What the reader finds at its cursor. */
  datatype Found = Bad | Close | Found(out: seq<Byte>, n: nat, escaped: bool)

  /** The single-character escapes. */
  function Unescape(c: Byte): (r: Option<Byte>)
  {
    if c == QUOTE || c == BACKSLASH || c == SLASH then Some(c)
    else if c == 0x62 then Some(0x08)
    else if c == 0x66 then Some(0x0C)
    else if c == 0x6E then Some(0x0A)
    else if c == 0x72 then Some(0x0D)
    else if c == 0x74 then Some(0x09)
    else None
  }

  /** read_uni_esc. */
  function ReadUniEsc(s: seq<Byte>): (f: Found)
    ensures f.Found? ==> 1 <= |f.out| <= f.n <= |s|
    ensures f != Close
  {
    var hi := HexLoad(At(s, 2), At(s, 3), At(s, 4), At(s, 5));
    if hi == None then Bad
    else if !IsSurrogate(hi.value) then
      BmpIsScalar(hi.value);
      HexLoadInside(At(s, 2), At(s, 3), At(s, 4), At(s, 5));
      Found(Encode(Wide(hi.value)), 6, true)
    else if !IsHigh(hi.value) || At(s, 6) != BACKSLASH || At(s, 7) != LOWER_U then Bad
    else
      var lo := HexLoad(At(s, 8), At(s, 9), At(s, 10), At(s, 11));
      if lo == None || !IsLow(lo.value) then Bad
      else
        SurrogatesInRange(hi.value, lo.value);
        HexLoadInside(At(s, 8), At(s, 9), At(s, 10), At(s, 11));
        Found(Encode(FromSurrogates(hi.value, lo.value)), 12, true)
  }

  /** One character at the cursor of a zero-padded buffer. */
  function ReadUnit(s: seq<Byte>): (f: Found)
    ensures f.Found? ==> 1 <= |f.out| <= f.n <= |s|
    ensures f == Close ==> s != []
  {
    var c := At(s, 0);
    if IsAsciiSkip(c) then Found([c], 1, false)
    else if c == QUOTE then Close
    else if c & 0x80 != 0 then
      MasksAgree(s);
      if IsSeq3(Word(s)) then Found(s[..3], 3, false)
      else if IsSeq2(Word(s)) then Found(s[..2], 2, false)
      else if IsSeq4(Word(s)) then Found(s[..4], 4, false)
      else Bad
    else if c == BACKSLASH then
      var u := Unescape(At(s, 1));
      if u.Some? then Found([u.value], 2, true)
      else if At(s, 1) == LOWER_U then ReadUniEsc(s)
      else Bad
    else Bad
  }

  datatype Read = ReadErr | ReadOk(bytes: seq<Byte>, n: nat, noEsc: bool)

  function Prepend(f: Found, r: Read): (r': Read)
    requires f.Found?
  {
    if r == ReadErr then ReadErr else ReadOk(f.out + r.bytes, f.n + r.n, r.noEsc && !f.escaped)
  }

  /** read_str: the text behind the opening quote; `n` counts up to and with the
      closing quote, `noEsc` is the tag for strings without escapes. */
  function ReadFrom(s: seq<Byte>): (r: Read)
    decreases |s|
  {
    var f := ReadUnit(s);
    match f
    case Bad => ReadErr
    case Close => ReadOk([], 1, true)
    case Found(_, n, _) => Prepend(f, ReadFrom(s[n..]))
  }

  // ----- round trip -----

  /** The reader turns `out`, whatever follows it, back into `bytes`. */
  ghost predicate ReadsBack(out: seq<Byte>, bytes: seq<Byte>, escaped: bool)
  {
    forall rest :: ReadUnit(out + rest) == Found(bytes, |out|, escaped)
  }

  lemma {:induction false} AsciiReadsBack(esc: bool, slash: bool, b: Byte)
    requires b < 0x80
    ensures var u := WriteUnit(esc, slash, [b]);
            u.Some? && u.value.n == 1 && ReadsBack(u.value.out, [b], EncType(esc, slash, b) != Cpy1)
  {
    var out := WriteUnit(esc, slash, [b]).value.out;
    if EncType(esc, slash, b) == Esc1 {
      UniEscapeReadsBack(b as bv16);
      OneEncodes(b);
    } else {
      forall rest
        ensures ReadUnit(out + rest) == Found([b], |out|, EncType(esc, slash, b) != Cpy1)
      {
        assert (out + rest)[0] == out[0] && (|out| == 2 ==> (out + rest)[1] == out[1]);
      }
    }
  }

  /** A buffer that begins with an escape of a unit outside the surrogates. */
  lemma {:induction false} EscapeIsRead(s: seq<Byte>, u: bv16)
    requires |s| >= 6 && s[0] == BACKSLASH && s[1] == LOWER_U
    requires HexLoad(s[2], s[3], s[4], s[5]) == Some(u) && !IsSurrogate(u)
    ensures IsScalar(Wide(u)) && ReadUnit(s) == Found(Encode(Wide(u)), 6, true)
  {
    BmpIsScalar(u);
    EscapeGoesToUniEsc(s);
    UnitIsRead(s, u);
  }

  lemma {:induction false} EscapeGoesToUniEsc(s: seq<Byte>)
    requires |s| >= 2 && s[0] == BACKSLASH && s[1] == LOWER_U
    ensures ReadUnit(s) == ReadUniEsc(s)
  {
  }

  lemma {:induction false} UnitIsRead(s: seq<Byte>, u: bv16)
    requires |s| >= 6 && HexLoad(s[2], s[3], s[4], s[5]) == Some(u)
    requires !IsSurrogate(u) && IsScalar(Wide(u))
    ensures ReadUniEsc(s) == Found(Encode(Wide(u)), 6, true)
  {
  }

  /** A buffer that begins with the two escapes of a surrogate pair. */
  lemma {:induction false} PairIsRead(s: seq<Byte>, hi: bv16, lo: bv16)
    requires |s| >= 12 && s[0] == s[6] == BACKSLASH && s[1] == s[7] == LOWER_U
    requires HexLoad(s[2], s[3], s[4], s[5]) == Some(hi) && IsHigh(hi)
    requires HexLoad(s[8], s[9], s[10], s[11]) == Some(lo) && IsLow(lo)
    ensures IsScalar(FromSurrogates(hi, lo)) && ReadUnit(s) == Found(Encode(FromSurrogates(hi, lo)), 12, true)
  {
    SurrogatesInRange(hi, lo);
    HighIsSurrogate(hi);
    EscapeGoesToUniEsc(s);
  }

  lemma {:induction false} UniEscapeReadsBack(u: bv16)
    requires !IsSurrogate(u)
    ensures IsScalar(Wide(u)) && ReadsBack(UniEscape(u), Encode(Wide(u)), true)
  {
    BmpIsScalar(u);
    forall rest
      ensures ReadUnit(UniEscape(u) + rest) == Found(Encode(Wide(u)), 6, true)
    {
      EscapeBegins(u, UniEscape(u) + rest);
      EscapeIsRead(UniEscape(u) + rest, u);
    }
  }

  lemma {:induction false} EscapeBegins(u: bv16, s: seq<Byte>)
    requires UniEscape(u) <= s
    ensures |s| >= 6 && s[0] == BACKSLASH && s[1] == LOWER_U && HexLoad(s[2], s[3], s[4], s[5]) == Some(u)
  {
    HexRoundTrip(u);
    var e := UniEscape(u);
    assert forall i :: 0 <= i < 6 ==> s[i] == e[i];
  }

  lemma {:induction false} PairReadsBack(c: bv32)
    requires 0x10000 <= c <= 0x10FFFF && Offset(c) <= 0xFFFFF
    ensures ReadsBack(UniEscape(HighOf(Offset(c))) + UniEscape(LowOf(Offset(c))), Encode(c), true)
  {
    SurrogatesRoundTrip(c);
    var hi, lo := HighOf(Offset(c)), LowOf(Offset(c));
    forall rest
      ensures ReadUnit(UniEscape(hi) + UniEscape(lo) + rest) == Found(Encode(c), 12, true)
    {
      var s := UniEscape(hi) + UniEscape(lo) + rest;
      EscapeBegins(hi, s);
      EscapeBegins(lo, s[6..]);
      PairIsRead(s, hi, lo);
    }
  }

  lemma {:induction false} SeqLenOfPrefix(s: seq<Byte>, n: nat, rest: seq<Byte>)
    requires s != [] && n == SeqLen(s) > 0
    ensures SeqLen(s[..n] + rest) == n
  {
    SequenceIsEncoded(s);
    EncodeIsSequence(DecodeSeq(s), rest);
  }

  lemma {:induction false} HighBitSet(b: Byte)
    requires b >= 0x80
    ensures b & 0x80 != 0 && !IsAsciiSkip(b) && b != QUOTE
  {
  }

  /** A multi-byte sequence copied as it is. */
  lemma {:induction false} RawReadsBack(s: seq<Byte>, n: nat)
    requires s != [] && n == SeqLen(s) > 1
    ensures ReadsBack(s[..n], s[..n], false)
  {
    forall rest
      ensures ReadUnit(s[..n] + rest) == Found(s[..n], n, false)
    {
      var t := s[..n] + rest;
      SeqLenOfPrefix(s, n, rest);
      MasksAgree(t);
      HighBitSet(t[0]);
      assert t[..n] == s[..n];
    }
  }

  lemma {:induction false} Unit2IsDecode(a: Byte, b: Byte)
    ensures Wide(Unit2(a, b)) == Decode2(a, b) && !IsSurrogate(Unit2(a, b))
  {
  }

  lemma {:induction false} Unit3IsDecode(a: Byte, b: Byte, c: Byte)
    ensures Wide(Unit3(a, b, c)) == Decode3(a, b, c)
  {
  }

  lemma {:induction false} ScalarUnit(u: bv16)
    requires IsScalar(Wide(u))
    ensures !IsSurrogate(u)
  {
  }

  lemma {:induction false} EscapedReadsBack(s: seq<Byte>, slash: bool)
    requires s != [] && SeqLen(s) > 1
    ensures var u := WriteUnit(true, slash, s);
            u.Some? && u.value.n == SeqLen(s) && ReadsBack(u.value.out, s[..SeqLen(s)], true)
  {
    MasksAgree(s);
    SequenceIsEncoded(s);
    match SeqLen(s)
    case 2 =>
      Unit2IsDecode(s[0], s[1]);
      UniEscapeReadsBack(Unit2(s[0], s[1]));
    case 3 =>
      Unit3IsDecode(s[0], s[1], s[2]);
      ScalarUnit(Unit3(s[0], s[1], s[2]));
      UniEscapeReadsBack(Unit3(s[0], s[1], s[2]));
    case _ =>
      OffsetOfSeq4(s);
      PairReadsBack(Decode4(s[0], s[1], s[2], s[3]));
  }

  /** Was the front character written with an escape? */
  predicate Escapes(esc: bool, slash: bool, b: Byte)
  {
    EncType(esc, slash, b) in {EscA, Esc1, Esc2, Esc3, Esc4}
  }

  /** Every character the validator accepts is written, and read back. */
  lemma {:induction false} UnitRoundTrip(esc: bool, slash: bool, s: seq<Byte>)
    requires s != [] && SeqLen(s) > 0
    ensures var u := WriteUnit(esc, slash, s);
            u.Some? && u.value.n == SeqLen(s) &&
            ReadsBack(u.value.out, s[..SeqLen(s)], Escapes(esc, slash, s[0]))
  {
    if s[0] < 0x80 {
      AsciiReadsBack(esc, slash, s[0]);
      assert s[..1] == [s[0]] && [s[0]][..1] == [s[0]];
    } else if esc {
      EscapedReadsBack(s, slash);
    } else {
      MasksAgree(s);
      RawReadsBack(s, SeqLen(s));
    }
  }

  /** The writer succeeds on every valid UTF-8 string, within 6 len + 2 bytes. */
  lemma {:induction false} WriteFits(esc: bool, slash: bool, s: seq<Byte>)
    requires Valid(s)
    ensures var w := WriteFrom(esc, slash, s); w.Some? && |w.value| <= 6 * |s| + 1
    decreases |s|
  {
    if s != [] {
      UnitRoundTrip(esc, slash, s);
      WriteFits(esc, slash, s[SeqLen(s)..]);
    }
  }

  lemma {:induction false} WriteFromStep(esc: bool, slash: bool, s: seq<Byte>)
    requires s != [] && WriteFrom(esc, slash, s).Some?
    ensures var u := WriteUnit(esc, slash, s);
      u.Some? && var w := WriteFrom(esc, slash, s[u.value.n..]);
      w.Some? && WriteFrom(esc, slash, s).value == u.value.out + w.value
  {
  }

  lemma {:induction false} ReadsBackAll(esc: bool, slash: bool, s: seq<Byte>, tail: seq<Byte>)
    requires Valid(s) && WriteFrom(esc, slash, s).Some?
    ensures ReadsAs(WriteFrom(esc, slash, s).value, tail, s)
    decreases |s|, 1
  {
    if s == [] {
      ReadsEmpty(tail);
    } else {
      var out, n, escaped, w := FirstWritten(esc, slash, s);
      RestReadsBack(esc, slash, s[n..], tail, |s|, w);
      FirstReadsBack(out, escaped, w, tail, s, n);
    }
  }

  lemma {:induction false} RestReadsBack(esc: bool, slash: bool, s: seq<Byte>, tail: seq<Byte>, bound: nat,
                                         w: seq<Byte>)
    requires |s| < bound && Valid(s) && WriteFrom(esc, slash, s) == Some(w)
    ensures ReadsAs(w, tail, s)
    decreases bound, 0
  {
    ReadsBackAll(esc, slash, s, tail);
  }

  lemma {:induction false} FirstReadsBack(out: seq<Byte>, escaped: bool, w: seq<Byte>, tail: seq<Byte>,
                                          s: seq<Byte>, n: nat)
    requires n <= |s| && ReadsBack(out, s[..n], escaped) && ReadsAs(w, tail, s[n..])
    ensures ReadsAs(out + w, tail, s)
  {
    ReadStep(out, s[..n], escaped, w, tail, s[n..]);
    assert s[..n] + s[n..] == s;
  }

  /** The first character of a valid string: written as `out`, it reads back as
      itself, and the rest is written behind it as `w`. */
  lemma {:induction false} FirstWritten(esc: bool, slash: bool, s: seq<Byte>)
    returns (out: seq<Byte>, n: nat, escaped: bool, w: seq<Byte>)
    requires s != [] && Valid(s) && WriteFrom(esc, slash, s).Some?
    ensures 0 < n <= |s| && Valid(s[n..]) && ReadsBack(out, s[..n], escaped)
    ensures WriteFrom(esc, slash, s[n..]) == Some(w) && WriteFrom(esc, slash, s) == Some(out + w)
  {
    UnitRoundTrip(esc, slash, s);
    WriteFromStep(esc, slash, s);
    out, n, escaped := WriteUnit(esc, slash, s).value.out, SeqLen(s), Escapes(esc, slash, s[0]);
    w := WriteFrom(esc, slash, s[n..]).value;
  }

  ghost predicate ReadsAs(w: seq<Byte>, tail: seq<Byte>, s: seq<Byte>)
  {
    var r := ReadFrom(w + tail);
    r.ReadOk? && r.bytes == s && r.n == |w|
  }

  lemma {:induction false} ReadsEmpty(tail: seq<Byte>)
    ensures ReadsAs([QUOTE], tail, [])
  {
    assert ([QUOTE] + tail)[0] == QUOTE;
  }

  lemma {:induction false} ReadStep(out: seq<Byte>, bytes: seq<Byte>, escaped: bool, w: seq<Byte>, tail: seq<Byte>,
                                    rest: seq<Byte>)
    requires ReadsBack(out, bytes, escaped) && ReadsAs(w, tail, rest)
    ensures ReadsAs(out + w, tail, bytes + rest)
  {
    var t := w + tail;
    assert out + w + tail == out + t;
    assert ReadUnit(out + t) == Found(bytes, |out|, escaped);
    assert (out + t)[|out|..] == t;
  }

  /** Round trip: for every valid UTF-8 string, NUL included, and every choice of
      escaping options, the writer succeeds, needs at most 6 len + 2 bytes, and
      reading what it printed behind the opening quote gives the same bytes back,
      up to the closing quote. */
  lemma {:induction false} RoundTrip(esc: bool, slash: bool, s: seq<Byte>, tail: seq<Byte>)
    requires Valid(s)
    ensures var w := Write(esc, slash, s);
            && w.Some? && w.value[0] == QUOTE && |w.value| <= 6 * |s| + 2
            && ReadsAs(w.value[1..], tail, s)
  {
    WriteFits(esc, slash, s);
    ReadsBackAll(esc, slash, s, tail);
    var w := WriteFrom(esc, slash, s).value;
    assert ([QUOTE] + w)[1..] == w;
  }

  /** The writer fails exactly on the strings the validator rejects. */
  lemma {:induction false} WritesIffValid(esc: bool, slash: bool, s: seq<Byte>)
    ensures Write(esc, slash, s).Some? <==> Valid(s)
    decreases |s|
  {
    if s != [] {
      MasksAgree(s);
      if SeqLen(s) > 0 {
        UnitRoundTrip(esc, slash, s);
        WritesIffValid(esc, slash, s[SeqLen(s)..]);
      } else {
        InvalidIsNotWritten(esc, slash, s);
      }
    }
  }

  lemma {:induction false} InvalidIsNotWritten(esc: bool, slash: bool, s: seq<Byte>)
    requires s != [] && SeqLen(s) == 0
    ensures WriteUnit(esc, slash, s) == None
  {
    MasksAgree(s);
  }

  lemma {:induction false} NoEscIsCopied(t: seq<Byte>)
    requires ReadFrom(t).ReadOk? && ReadFrom(t).noEsc
    ensures WriteFrom(false, false, ReadFrom(t).bytes) == Some(ReadFrom(t).bytes + [QUOTE])
    decreases |t|
  {
    var f := ReadUnit(t);
    if f.Found? {
      NoEscIsCopied(t[f.n..]);
      var rest := ReadFrom(t[f.n..]).bytes;
      PlainUnitIsCopied(t, rest);
      assert (f.out + rest)[f.n..] == rest;
      assert f.out + (rest + [QUOTE]) == f.out + rest + [QUOTE];
    } else {
      assert ReadFrom(t).bytes + [QUOTE] == [QUOTE];
    }
  }

  /** For a string the reader tagged as free of escapes, the fast writer and the
      plain escaping writer print the same. */
  lemma {:induction false} NoEscIsVerbatim(t: seq<Byte>)
    requires ReadFrom(t).ReadOk? && ReadFrom(t).noEsc
    ensures Write(false, false, ReadFrom(t).bytes) == Some([QUOTE] + ReadFrom(t).bytes + [QUOTE])
  {
    NoEscIsCopied(t);
    assert [QUOTE] + (ReadFrom(t).bytes + [QUOTE]) == [QUOTE] + ReadFrom(t).bytes + [QUOTE];
  }

  lemma {:induction false} PlainUnitIsCopied(t: seq<Byte>, rest: seq<Byte>)
    requires ReadUnit(t).Found? && !ReadUnit(t).escaped
    ensures var f := ReadUnit(t);
            |f.out| == f.n && WriteUnit(false, false, f.out + rest) == Some(Written(f.out, f.n))
  {
    var f := ReadUnit(t);
    var s := f.out + rest;
    assert s[..f.n] == f.out;
    if !IsAsciiSkip(At(t, 0)) {
      MasksAgree(t);
      SeqLenOfPrefix(t, f.n, rest);
      MasksAgree(s);
    }
  }

  // ----- the grammar of section 7 of RFC 8259 -----

  /** The two-character escapes. */
  lemma {:induction false} TwoCharacterEscapes(s: seq<Byte>)
    requires |s| >= 2 && s[0] == 0x5C && s[1] != 0x75
    ensures var f := ReadUnit(s);
            && (s[1] in {0x22, 0x5C, 0x2F} ==> f == Found([s[1]], 2, true))
            && (s[1] == 0x62 ==> f == Found([0x08], 2, true))
            && (s[1] == 0x66 ==> f == Found([0x0C], 2, true))
            && (s[1] == 0x6E ==> f == Found([0x0A], 2, true))
            && (s[1] == 0x72 ==> f == Found([0x0D], 2, true))
            && (s[1] == 0x74 ==> f == Found([0x09], 2, true))
            && (s[1] !in {0x22, 0x5C, 0x2F, 0x62, 0x66, 0x6E, 0x72, 0x74} ==> f == Bad)
  {
  }

  /** Characters that stand for themselves: one UTF-8 sequence other than the quote, the
      backslash and the control characters, which end the string, escape, or are not
      allowed. */
  lemma {:induction false} PlainCharacters(s: seq<Byte>)
    requires s != [] && s[0] != 0x5C
    ensures ReadUnit(s) == if s[0] == 0x22 then Close
                           else if s[0] < 0x20 || SeqLen(s) == 0 then Bad
                           else Found(s[..SeqLen(s)], SeqLen(s), false)
  {
    MasksAgree(s);
    if s[0] < 0x80 {
      assert s[..1] == [s[0]];
    } else {
      HighBitSet(s[0]);
    }
  }

  /** The \\u escapes: four hexadecimal digits of a unit outside the surrogates, or those
      of a high surrogate followed by an escape of a low one; nothing else, a lone
      surrogate in particular. */
  lemma {:induction false} UnicodeEscapes(s: seq<Byte>)
    requires |s| >= 2 && s[0] == 0x5C && s[1] == 0x75
    ensures var f := ReadUnit(s);
            var u := HexLoad(At(s, 2), At(s, 3), At(s, 4), At(s, 5));
            var v := HexLoad(At(s, 8), At(s, 9), At(s, 10), At(s, 11));
            var paired := u.Some? && v.Some? && At(s, 6) == 0x5C && At(s, 7) == 0x75
                          && 0xD800 <= u.value <= 0xDBFF && 0xDC00 <= v.value <= 0xDFFF;
            if u.Some? && !(0xD800 <= u.value <= 0xDFFF) then
              IsScalar(Wide(u.value)) && f == Found(Encode(Wide(u.value)), 6, true)
            else if paired then
              && IsScalar(FromSurrogates(u.value, v.value))
              && f == Found(Encode(FromSurrogates(u.value, v.value)), 12, true)
            else f == Bad
  {
    EscapeGoesToUniEsc(s);
    var u := HexLoad(At(s, 2), At(s, 3), At(s, 4), At(s, 5));
    var v := HexLoad(At(s, 8), At(s, 9), At(s, 10), At(s, 11));
    if u.Some? {
      SurrogateRanges(u.value);
      if !IsSurrogate(u.value) {
        BmpIsScalar(u.value);
      }
    }
    if v.Some? {
      SurrogateRanges(v.value);
    }
    if u.Some? && v.Some? && IsHigh(u.value) && IsLow(v.value) {
      SurrogatesInRange(u.value, v.value);
    }
  }

  lemma {:induction false} SurrogateRanges(u: bv16)
    ensures IsSurrogate(u) <==> 0xD800 <= u <= 0xDFFF
    ensures IsHigh(u) <==> 0xD800 <= u <= 0xDBFF
    ensures IsLow(u) <==> 0xDC00 <= u <= 0xDFFF
  {
  }

  /** A sequence of several bytes has none below 0x80. */
  lemma {:induction false} SequenceIsHigh(s: seq<Byte>, i: nat)
    requires s != [] && i < SeqLen(s) && SeqLen(s) > 1
    ensures s[i] >= 0x80
  {
  }

  lemma {:induction false} PlainHasNoBackslash(s: seq<Byte>)
    requires ReadUnit(s).Found?
    ensures ReadUnit(s).escaped <==> BACKSLASH in s[..ReadUnit(s).n]
  {
    if s[0] == BACKSLASH {
      assert s[..ReadUnit(s).n][0] == BACKSLASH;
      if s[1] == LOWER_U {
        UnicodeEscapes(s);
      }
    } else {
      PlainCharacters(s);
      forall i | 0 <= i < ReadUnit(s).n
        ensures s[i] != BACKSLASH
      {
        if SeqLen(s) > 1 {
          SequenceIsHigh(s, i);
        }
      }
    }
  }

  /** A string that was read is tagged as free of escapes exactly if its text holds no
      backslash. */
  lemma {:induction false} TagIsExact(s: seq<Byte>)
    requires ReadFrom(s).ReadOk?
    ensures ReadFrom(s).n <= |s|
    ensures ReadFrom(s).noEsc <==> BACKSLASH !in s[..ReadFrom(s).n]
    decreases |s|
  {
    var f := ReadUnit(s);
    if f.Found? {
      var rest := s[f.n..];
      assert ReadFrom(s) == Prepend(f, ReadFrom(rest));
      TagIsExact(rest);
      PlainHasNoBackslash(s);
      TextSplits(s, f.n, ReadFrom(rest).n);
    } else {
      assert s[..1] == [s[0]];
    }
  }

  lemma {:induction false} TextSplits(s: seq<Byte>, n: nat, m: nat)
    requires n + m <= |s|
    ensures BACKSLASH in s[..n + m] <==> BACKSLASH in s[..n] || BACKSLASH in s[n..][..m]
  {
    assert s[..n + m] == s[..n] + s[n..][..m];
  }

  /** What the writer makes of one character: the short escapes where there are any, \\u00
      escapes for the other control characters, and the character itself otherwise, unless
      all of Unicode is to be escaped. */
  lemma {:induction false} WrittenForms(esc: bool, slash: bool, s: seq<Byte>)
    requires s != [] && SeqLen(s) > 0
    ensures var out := WriteUnit(esc, slash, s).value.out;
            && WriteUnit(esc, slash, s).Some?
            && (s[0] == 0x22 ==> out == [0x5C, 0x22]) && (s[0] == 0x5C ==> out == [0x5C, 0x5C])
            && (s[0] == 0x08 ==> out == [0x5C, 0x62]) && (s[0] == 0x0C ==> out == [0x5C, 0x66])
            && (s[0] == 0x0A ==> out == [0x5C, 0x6E]) && (s[0] == 0x0D ==> out == [0x5C, 0x72])
            && (s[0] == 0x09 ==> out == [0x5C, 0x74])
            && (s[0] < 0x20 && s[0] !in {0x08, 0x09, 0x0A, 0x0C, 0x0D} ==>
                  |out| == 6 && out[..4] == [0x5C, 0x75, 0x30, 0x30])
            && (s[0] >= 0x20 && s[0] !in {0x22, 0x2F, 0x5C} && (s[0] < 0x80 || !esc) ==> out == s[..SeqLen(s)])
  {
    UnitRoundTrip(esc, slash, s);
    if s[0] < 0x20 {
      LowUnit(s[0]);
    }
    MasksAgree(s);
  }

  lemma {:induction false} LowUnit(b: Byte)
    requires b < 0x20
    ensures UniEscape(b as bv16)[..4] == [0x5C, 0x75, 0x30, 0x30]
  {
    assert (b as bv16 >> 12) as Byte == 0 && ((b as bv16 >> 8) & 0xF) as Byte == 0;
    assert UniEscape(b as bv16)[..4]
        == [BACKSLASH, LOWER_U, HexChar((b as bv16 >> 12) as Byte), HexChar(((b as bv16 >> 8) & 0xF) as Byte)];
  }

  /** With all of Unicode escaped the output is printable ASCII. */
  predicate Printable(s: seq<Byte>)
  {
    forall i :: 0 <= i < |s| ==> 0x20 <= s[i] < 0x80
  }

  lemma {:induction false} EscapeIsPrintable(u: bv16)
    ensures Printable(UniEscape(u))
  {
    NibbleIsPrintable((u >> 12) as Byte);
    NibbleIsPrintable(((u >> 8) & 0xF) as Byte);
    NibbleIsPrintable(((u >> 4) & 0xF) as Byte);
    NibbleIsPrintable((u & 0xF) as Byte);
    assert (u >> 12) as Byte < 16 && ((u >> 8) & 0xF) as Byte < 16 && ((u >> 4) & 0xF) as Byte < 16;
  }

  lemma {:induction false} NibbleIsPrintable(n: Byte)
    ensures n < 16 ==> 0x30 <= HexChar(n) <= 0x46
  {
  }

  lemma {:induction false} UnitIsPrintable(slash: bool, s: seq<Byte>)
    requires s != [] && WriteUnit(true, slash, s).Some?
    ensures Printable(WriteUnit(true, slash, s).value.out)
  {
    match EncType(true, slash, s[0])
    case Esc1 => EscapeIsPrintable(s[0] as bv16);
    case Esc2 => EscapeIsPrintable(Unit2(s[0], s[1]));
    case Esc3 => EscapeIsPrintable(Unit3(s[0], s[1], s[2]));
    case Esc4 =>
      var v := Offset(Decode4(s[0], s[1], s[2], s[3]));
      EscapeIsPrintable(HighOf(v));
      EscapeIsPrintable(LowOf(v));
    case _ =>
  }

  lemma {:induction false} EscapedOutputIsAscii(slash: bool, s: seq<Byte>)
    requires WriteFrom(true, slash, s).Some?
    ensures Printable(WriteFrom(true, slash, s).value)
    decreases |s|
  {
    if s != [] {
      WriteFromStep(true, slash, s);
      UnitIsPrintable(slash, s);
      EscapedOutputIsAscii(slash, s[WriteUnit(true, slash, s).value.n..]);
    }
  }

  /** A solidus is escaped exactly if that is asked for. */
  lemma {:induction false} SolidusIsOptional(esc: bool, slash: bool, s: seq<Byte>)
    requires s != [] && s[0] == 0x2F
    ensures WriteUnit(esc, slash, s) == Some(Written(if slash then [0x5C, 0x2F] else [0x2F], 1))
  {
    assert s[..1] == [s[0]];
  }
}
