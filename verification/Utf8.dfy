/** The strict UTF-8 validator (src/request.c), an encoder (demo/chat.c) and the
    JSON library's mask tests (src/yyjson.c). */
module Utf8 {
  import opened Bytes

  /** Unicode scalar values. */
  predicate IsScalar(c: bv32)
  {
    c <= 0x10FFFF && !(0xD800 <= c <= 0xDFFF)
  }

  type Scalar = c: bv32 | c <= 0x10FFFF && !(0xD800 <= c <= 0xDFFF)

  /** A continuation byte holding the low six bits. */
  function Cont(x: bv32): (b: Byte)
  {
    (0x80 | (x & 0x3F)) as Byte
  }

  /** utf8_encode. */
  function Encode(c: Scalar): (r: seq<Byte>)
    ensures 1 <= |r| <= 4
  {
    if c < 0x80 then [c as Byte]
    else if c < 0x800 then [Lead2(c), Cont(c)]
    else if c < 0x10000 then [Lead3(c), Cont(c >> 6), Cont(c)]
    else [Lead4(c), Cont(c >> 12), Cont(c >> 6), Cont(c)]
  }

  function Lead2(c: bv32): (b: Byte)
    requires c < 0x800
  {
    (0xC0 | (c >> 6)) as Byte
  }

  function Lead3(c: bv32): (b: Byte)
    requires c < 0x10000
  {
    (0xE0 | (c >> 12)) as Byte
  }

  function Lead4(c: bv32): (b: Byte)
    requires c <= 0x10FFFF
  {
    (0xF0 | (c >> 18)) as Byte
  }

  function EncodeAll(cs: seq<Scalar>): (r: seq<Byte>)
  {
    if cs == [] then [] else Encode(cs[0]) + EncodeAll(cs[1..])
  }

  predicate Continues(b: Byte)
  {
    b & 0xC0 == 0x80
  }

  /** The validator's verdict on the sequence at the front: its length, or 0. */
  function SeqLen(s: seq<Byte>): (n: nat)
    requires s != []
    ensures n <= 4 && n <= |s|
  {
    var b := s[0];
    if b < 0x80 then 1
    else if b < 0xC2 then 0
    else if b < 0xE0 then
      if |s| < 2 || !Continues(s[1]) then 0 else 2
    else if b < 0xF0 then
      if |s| < 3 then 0
      else
        var lo: Byte := if b == 0xE0 then 0xA0 else 0x80;
        var hi: Byte := if b == 0xED then 0x9F else 0xBF;
        if s[1] < lo || s[1] > hi || !Continues(s[2]) then 0 else 3
    else if b < 0xF5 then
      if |s| < 4 then 0
      else
        var lo: Byte := if b == 0xF0 then 0x90 else 0x80;
        var hi: Byte := if b == 0xF4 then 0x8F else 0xBF;
        if s[1] < lo || s[1] > hi || !Continues(s[2]) || !Continues(s[3]) then 0 else 4
    else 0
  }

  predicate Valid(s: seq<Byte>)
    decreases |s|
  {
    s == [] || (var n := SeqLen(s); n > 0 && Valid(s[n..]))
  }

  /** sicha_utf8_valid. */
  method Validate(bytes: seq<Byte>) returns (ok: bool)
    ensures ok == Valid(bytes)
  {
    var i := 0;
    while i < |bytes|
      invariant 0 <= i <= |bytes| && Valid(bytes) == Valid(bytes[i..])
    {
      var n := Advance(bytes, i);
      if n == 0 {
        return false;
      }
      assert bytes[i..][n..] == bytes[i + n..];
      i := i + n;
    }
    return true;
  }

  /** The loop body: how far to advance, 0 to reject. */
  method Advance(p: seq<Byte>, i: nat) returns (n: nat)
    requires i < |p|
    ensures n == SeqLen(p[i..])
  {
    var b := p[i];
    var len := |p|;
    if b < 0x80 {
      return 1;
    }
    if b < 0xC2 {
      return 0;
    }
    if b < 0xE0 {
      if len - i < 2 || p[i + 1] & 0xC0 != 0x80 {
        return 0;
      }
      return 2;
    }
    var lo: Byte, hi: Byte := 0x80, 0xBF;
    if b < 0xF0 {
      if len - i < 3 {
        return 0;
      }
      if b == 0xE0 {
        lo := 0xA0;
      } else if b == 0xED {
        hi := 0x9F;
      }
      if p[i + 1] < lo || p[i + 1] > hi || p[i + 2] & 0xC0 != 0x80 {
        return 0;
      }
      return 3;
    }
    if b < 0xF5 {
      if len - i < 4 {
        return 0;
      }
      if b == 0xF0 {
        lo := 0x90;
      } else if b == 0xF4 {
        hi := 0x8F;
      }
      if p[i + 1] < lo || p[i + 1] > hi || p[i + 2] & 0xC0 != 0x80 || p[i + 3] & 0xC0 != 0x80 {
        return 0;
      }
      return 4;
    }
    return 0;
  }

  // ----- the validator accepts exactly the encodings of scalar values -----

  /** What the encoder emits is one sequence of its own length. */
  lemma {:induction false} EncodeIsSequence(c: Scalar, rest: seq<Byte>)
    ensures SeqLen(Encode(c) + rest) == |Encode(c)|
  {
    var e := Encode(c);
    var s := e + rest;
    assert forall i :: 0 <= i < |e| ==> s[i] == e[i];
  }

  function Decode2(a: Byte, b: Byte): (c: bv32)
  {
    ((a & 0x1F) as bv32 << 6) | (b & 0x3F) as bv32
  }

  function Decode3(a: Byte, b: Byte, d: Byte): (c: bv32)
  {
    ((a & 0x0F) as bv32 << 12) | ((b & 0x3F) as bv32 << 6) | (d & 0x3F) as bv32
  }

  function Decode4(a: Byte, b: Byte, d: Byte, e: Byte): (c: bv32)
  {
    ((a & 0x07) as bv32 << 18) | ((b & 0x3F) as bv32 << 12) | ((d & 0x3F) as bv32 << 6) | (e & 0x3F) as bv32
  }

  /** The scalar a valid sequence encodes. */
  function DecodeSeq(s: seq<Byte>): (c: bv32)
    requires s != [] && SeqLen(s) > 0
  {
    match SeqLen(s)
    case 1 => s[0] as bv32
    case 2 => Decode2(s[0], s[1])
    case 3 => Decode3(s[0], s[1], s[2])
    case _ => Decode4(s[0], s[1], s[2], s[3])
  }

  lemma {:induction false} TwoFields(a: Byte, b: Byte)
    requires 0xC2 <= a < 0xE0 && Continues(b)
    ensures var c := Decode2(a, b);
            0x80 <= c < 0x800 && Lead2(c) == a && Cont(c) == b
  {
  }

  lemma {:induction false} TwoEncodes(a: Byte, b: Byte)
    requires 0xC2 <= a < 0xE0 && Continues(b)
    ensures IsScalar(Decode2(a, b)) && Encode(Decode2(a, b)) == [a, b]
  {
    TwoFields(a, b);
  }

  lemma {:induction false} ThreeRange(a: Byte, b: Byte, d: Byte)
    requires 0xE0 <= a < 0xF0 && Continues(b)
    requires (a == 0xE0 ==> b >= 0xA0) && (a == 0xED ==> b <= 0x9F)
    ensures var c := Decode3(a, b, d);
            0x800 <= c < 0x10000 && !(0xD800 <= c <= 0xDFFF)
  {
  }

  lemma {:induction false} ThreeFields(a: Byte, b: Byte, d: Byte)
    requires 0xE0 <= a < 0xF0 && Continues(b) && Continues(d) && Decode3(a, b, d) < 0x10000
    ensures var c := Decode3(a, b, d);
            Lead3(c) == a && Cont(c >> 6) == b && Cont(c) == d
  {
  }

  lemma {:induction false} ThreeEncodes(a: Byte, b: Byte, d: Byte)
    requires 0xE0 <= a < 0xF0 && Continues(b) && Continues(d)
    requires (a == 0xE0 ==> b >= 0xA0) && (a == 0xED ==> b <= 0x9F)
    ensures IsScalar(Decode3(a, b, d)) && Encode(Decode3(a, b, d)) == [a, b, d]
  {
    ThreeRange(a, b, d);
    ThreeFields(a, b, d);
  }

  lemma {:induction false} FourRange(a: Byte, b: Byte, d: Byte, e: Byte)
    requires 0xF0 <= a < 0xF5 && Continues(b)
    requires (a == 0xF0 ==> b >= 0x90) && (a == 0xF4 ==> b <= 0x8F)
    ensures 0x10000 <= Decode4(a, b, d, e) <= 0x10FFFF
  {
  }

  lemma {:induction false} FourLead(a: Byte, b: Byte, d: Byte, e: Byte)
    requires 0xF0 <= a < 0xF5 && Decode4(a, b, d, e) <= 0x10FFFF
    ensures Lead4(Decode4(a, b, d, e)) == a
  {
  }

  lemma {:induction false} FourRest(a: Byte, b: Byte, d: Byte, e: Byte)
    requires Continues(b) && Continues(d) && Continues(e)
    ensures var c := Decode4(a, b, d, e);
            Cont(c >> 12) == b && Cont(c >> 6) == d && Cont(c) == e
  {
  }

  lemma {:induction false} FourEncodes(a: Byte, b: Byte, d: Byte, e: Byte)
    requires 0xF0 <= a < 0xF5 && Continues(b) && Continues(d) && Continues(e)
    requires (a == 0xF0 ==> b >= 0x90) && (a == 0xF4 ==> b <= 0x8F)
    ensures IsScalar(Decode4(a, b, d, e)) && Encode(Decode4(a, b, d, e)) == [a, b, d, e]
  {
    FourRange(a, b, d, e);
    FourLead(a, b, d, e);
    FourRest(a, b, d, e);
  }

  /** A sequence the validator accepts is the encoding of a scalar value. */
  lemma {:induction false} SequenceIsEncoded(s: seq<Byte>)
    requires s != [] && SeqLen(s) > 0
    ensures IsScalar(DecodeSeq(s)) && Encode(DecodeSeq(s)) == s[..SeqLen(s)]
  {
    match SeqLen(s)
    case 1 => OneEncodes(s[0]); assert s[..1] == [s[0]];
    case 2 => TwoEncodes(s[0], s[1]); assert s[..2] == [s[0], s[1]];
    case 3 => ThreeEncodes(s[0], s[1], s[2]); assert s[..3] == [s[0], s[1], s[2]];
    case _ => FourEncodes(s[0], s[1], s[2], s[3]); assert s[..4] == [s[0], s[1], s[2], s[3]];
  }

  lemma {:induction false} OneEncodes(a: Byte)
    requires a < 0x80
    ensures IsScalar(a as bv32) && Encode(a as bv32) == [a]
  {
  }

  lemma {:induction false} ValidHasScalars(s: seq<Byte>) returns (cs: seq<Scalar>)
    requires Valid(s)
    ensures EncodeAll(cs) == s
    decreases |s|
  {
    if s == [] {
      cs := [];
    } else {
      var n := SeqLen(s);
      SequenceIsEncoded(s);
      var c: Scalar := DecodeSeq(s);
      var rest := ValidHasScalars(s[n..]);
      cs := [c] + rest;
      assert cs[1..] == rest;
      assert s[..n] + s[n..] == s;
    }
  }

  lemma {:induction false} ScalarsAreValid(cs: seq<Scalar>)
    ensures Valid(EncodeAll(cs))
  {
    if cs != [] {
      var e, rest := Encode(cs[0]), EncodeAll(cs[1..]);
      ScalarsAreValid(cs[1..]);
      EncodeIsSequence(cs[0], rest);
      assert (e + rest)[|e|..] == rest;
    }
  }

  /** The validator accepts a byte string exactly when it is a concatenation of
      encodings of Unicode scalar values (sections 3 and 4 of RFC 3629). */
  lemma {:induction false} ValidIffScalars(s: seq<Byte>)
    ensures Valid(s) <==> exists cs :: EncodeAll(cs) == s
  {
    if Valid(s) {
      var cs := ValidHasScalars(s);
    }
    forall cs | EncodeAll(cs) == s
      ensures Valid(s)
    {
      ScalarsAreValid(cs);
    }
  }

  // ----- the JSON library's mask tests -----

  /** A byte of a zero-padded buffer. */
  function At(s: seq<Byte>, i: nat): (b: Byte)
  {
    if i < |s| then s[i] else 0
  }

  /** byte_load_4, little endian. */
  function Load4(a: Byte, b: Byte, c: Byte, d: Byte): (u: bv32)
  {
    (a as bv32) | (b as bv32 << 8) | (c as bv32 << 16) | (d as bv32 << 24)
  }

  predicate IsSeq1(u: bv32)
  {
    u & 0x0000_0080 == 0
  }

  predicate IsSeq2(u: bv32)
  {
    u & 0x0000_C0E0 == 0x0000_80C0 && u & 0x0000_001E != 0
  }

  predicate IsSeq3(u: bv32)
  {
    u & 0x00C0_C0F0 == 0x0080_80E0 && u & 0x0000_200F != 0 && u & 0x0000_200F != 0x0000_200D
  }

  predicate IsSeq4(u: bv32)
  {
    && u & 0xC0C0_C0F8 == 0x8080_80F0 && u & 0x0000_3007 != 0
    && ((u & 0x0000_3007) & 0x0000_0004 == 0 || (u & 0x0000_3007) & 0x0000_3003 == 0)
  }

  /** The validator's rules, byte by byte, for a zero-padded buffer. */
  function PaddedLen(a: Byte, b: Byte, c: Byte, d: Byte): (n: nat)
  {
    if a < 0x80 then 1
    else if 0xC2 <= a < 0xE0 && Continues(b) then 2
    else if 0xE0 <= a < 0xF0 && Continues(b) && Continues(c)
            && (a != 0xE0 || b >= 0xA0) && (a != 0xED || b <= 0x9F) then 3
    else if 0xF0 <= a < 0xF5 && Continues(b) && Continues(c) && Continues(d)
            && (a != 0xF0 || b >= 0x90) && (a != 0xF4 || b <= 0x8F) then 4
    else 0
  }

  lemma {:induction false} MasksArePadded(a: Byte, b: Byte, c: Byte, d: Byte)
    ensures var u, n := Load4(a, b, c, d), PaddedLen(a, b, c, d);
            && (IsSeq1(u) <==> n == 1) && (IsSeq2(u) <==> n == 2)
            && (IsSeq3(u) <==> n == 3) && (IsSeq4(u) <==> n == 4)
  {
  }

  lemma {:induction false} ContinuesRange(b: Byte)
    ensures Continues(b) <==> 0x80 <= b <= 0xBF
  {
  }

  lemma {:induction false} PaddedIsSeqLen(s: seq<Byte>)
    requires s != []
    ensures PaddedLen(At(s, 0), At(s, 1), At(s, 2), At(s, 3)) == SeqLen(s)
  {
    ContinuesRange(At(s, 1));
    ContinuesRange(At(s, 2));
    ContinuesRange(At(s, 3));
  }

  /** The four mask tests on a word loaded from a zero-padded buffer agree with the
      validator about the sequence at the front. */
  lemma {:induction false} MasksAgree(s: seq<Byte>)
    requires s != []
    ensures var u := Load4(At(s, 0), At(s, 1), At(s, 2), At(s, 3));
            && (IsSeq1(u) <==> SeqLen(s) == 1) && (IsSeq2(u) <==> SeqLen(s) == 2)
            && (IsSeq3(u) <==> SeqLen(s) == 3) && (IsSeq4(u) <==> SeqLen(s) == 4)
  {
    MasksArePadded(At(s, 0), At(s, 1), At(s, 2), At(s, 3));
    PaddedIsSeqLen(s);
  }
}
