/** The integer writer and the integer path of the number reader of src/yyjson.c,
    and their round trip over all 64-bit unsigned values. */
module IntegerText {
  import opened Bytes
  import opened Decimal

  // ----- the writer -----

  // Division by constants through multiplication; each is exact on the range the
  // writer uses it on, and no product exceeds the word it is computed in.

  /** (v * 5243) >> 19 in 32 bits. */
  function Div100(v: nat): (q: nat)
    requires v < 10_000
    ensures q == v / 100 && v * 5243 <= 0xFFFF_FFFF
  {
    Exact100(v);
    v * 5243 / 524_288
  }

  /** (v * 429497) >> 32 in 64 bits. */
  function Div10000Short(v: nat): (q: nat)
    requires v < 1_000_000
    ensures q == v / 10_000 && v * 429_497 <= UINT64_MAX
  {
    Exact10000Short(v);
    v * 429_497 / 4_294_967_296
  }

  /** (v * 109951163) >> 40 in 64 bits. */
  function Div10000(v: nat): (q: nat)
    requires v < 100_000_000
    ensures q == v / 10_000 && v * 109_951_163 <= UINT64_MAX
  {
    Exact10000(v);
    v * 109_951_163 / 1_099_511_627_776
  }

  lemma {:induction false} Exact100(v: nat)
    requires v < 10_000
    ensures v * 5243 / 524_288 == v / 100
  {
    var q, r := v / 100, v % 100;
    assert v * 5243 == q * 524_288 + (12 * q + 5243 * r);
    assert 12 * q + 5243 * r < 524_288;
  }

  lemma {:induction false} Exact10000Short(v: nat)
    requires v < 1_000_000
    ensures v * 429_497 / 4_294_967_296 == v / 10_000
  {
    var q, r := v / 10_000, v % 10_000;
    assert v * 429_497 == q * 4_294_967_296 + (2_704 * q + 429_497 * r);
    assert 2_704 * q + 429_497 * r < 4_294_967_296;
  }

  lemma {:induction false} Exact10000(v: nat)
    requires v < 100_000_000
    ensures v * 109_951_163 / 1_099_511_627_776 == v / 10_000
  {
    var q, r := v / 10_000, v % 10_000;
    assert v * 109_951_163 == q * 1_099_511_627_776 + (2_224 * q + 109_951_163 * r);
    assert 2_224 * q + 109_951_163 * r < 1_099_511_627_776;
  }

  /** An entry of digit_table. */
  function Pair(n: nat): (s: string)
    requires n < 100
    ensures |s| == 2 && AllDigits(s)
  {
    [DigitChar(n / 10), DigitChar(n % 10)]
  }

  /** The first pair, without its leading zero. */
  function LeadPair(n: nat): (s: string)
    requires n < 100
    ensures 1 <= |s| <= 2 && AllDigits(s)
  {
    Pair(n)[if n < 10 then 1 else 0..]
  }

  /** write_u32_len_8. */
  function Len8(v: nat): (s: string)
    requires v < 100_000_000
    ensures |s| == 8 && AllDigits(s)
  {
    var aabb := Div10000(v);
    var ccdd := v - aabb * 10_000;
    var aa, cc := Div100(aabb), Div100(ccdd);
    Pair(aa) + Pair(aabb - aa * 100) + Pair(cc) + Pair(ccdd - cc * 100)
  }

  /** write_u32_len_4. */
  function Len4(v: nat): (s: string)
    requires v < 10_000
    ensures |s| == 4 && AllDigits(s)
  {
    var aa := Div100(v);
    Pair(aa) + Pair(v - aa * 100)
  }

  /** write_u32_len_5_to_8. */
  function Len5To8(v: nat): (s: string)
    requires 10_000 <= v < 100_000_000
    ensures 1 <= |s| <= 8 && AllDigits(s)
  {
    if v < 1_000_000 then
      var aa := Div10000Short(v);
      var bbcc := v - aa * 10_000;
      var bb := Div100(bbcc);
      LeadPair(aa) + Pair(bb) + Pair(bbcc - bb * 100)
    else
      var aabb := Div10000(v);
      var ccdd := v - aabb * 10_000;
      var aa, cc := Div100(aabb), Div100(ccdd);
      LeadPair(aa) + Pair(aabb - aa * 100) + Pair(cc) + Pair(ccdd - cc * 100)
  }

  /** write_u32_len_1_to_8. */
  function Len1To8(v: nat): (s: string)
    requires v < 100_000_000
    ensures 1 <= |s| <= 8 && AllDigits(s)
  {
    if v < 100 then LeadPair(v)
    else if v < 10_000 then
      var aa := Div100(v);
      LeadPair(aa) + Pair(v - aa * 100)
    else Len5To8(v)
  }

  /** The last case of write_u64: what precedes the low eight digits, then those. */
  function WriteUpper(tmp: nat, low: nat): (s: string)
    requires 100_000_000 <= tmp <= 184_467_440_737 && low < 100_000_000
    ensures 1 <= |s| <= 20 && AllDigits(s)
  {
    var hgh := tmp / 10_000;
    Len5To8(hgh) + Len4(tmp - hgh * 10_000) + Len8(low)
  }

  /** write_u64. */
  function WriteU64(v: U64): (s: string)
    ensures 1 <= |s| <= 20 && AllDigits(s)
  {
    if v < 100_000_000 then Len1To8(v)
    else if v < 10_000_000_000_000_000 then
      var hgh := v / 100_000_000;
      Len1To8(hgh) + Len8(v - hgh * 100_000_000)
    else
      var tmp := v / 100_000_000;
      WriteUpper(tmp, v - tmp * 100_000_000)
  }

  // ----- what the writer prints -----

  lemma {:induction false} AppendDigit(a: string, c: char)
    requires AllDigits(a) && IsDigit(c)
    ensures AllDigits(a + [c]) && Value(a + [c]) == 10 * Value(a) + DigitValue(c)
  {
    var s := a + [c];
    assert s[..|s| - 1] == a && s[|s| - 1] == c;
  }

  lemma {:induction false} PairValue(n: nat)
    requires n < 100
    ensures Value(Pair(n)) == n && Value(LeadPair(n)) == n
    ensures n >= 1 ==> LeadPair(n)[0] != '0'
  {
    var p := Pair(n);
    assert p[..1] == [p[0]] && p[..1][..0] == [];
    assert Value(p[..1]) == n / 10;
    if n < 10 {
      assert p[1..] == [p[1]] && p[1..][..0] == [];
    } else {
      assert p[0..] == p;
    }
  }

  /** Appending a pair, four or eight digits. */
  lemma {:induction false} AppendPair(a: string, n: nat)
    requires AllDigits(a) && n < 100
    ensures AllDigits(a + Pair(n)) && Value(a + Pair(n)) == Value(a) * 100 + n
  {
    var p := Pair(n);
    AppendDigit(a, p[0]);
    AppendDigit(a + [p[0]], p[1]);
    assert a + p == a + [p[0]] + [p[1]];
  }

  lemma {:induction false} Append4(a: string, v: nat)
    requires AllDigits(a) && v < 10_000
    ensures AllDigits(a + Len4(v)) && Value(a + Len4(v)) == Value(a) * 10_000 + v
  {
    var aa := v / 100;
    AppendPair(a, aa);
    AppendPair(a + Pair(aa), v - aa * 100);
    assert a + Len4(v) == a + Pair(aa) + Pair(v - aa * 100);
  }

  lemma {:induction false} Len8IsTwo4(v: nat)
    requires v < 100_000_000
    ensures Len8(v) == Len4(v / 10_000) + Len4(v - v / 10_000 * 10_000)
  {
  }

  lemma {:induction false} Append8(a: string, v: nat)
    requires AllDigits(a) && v < 100_000_000
    ensures AllDigits(a + Len8(v)) && Value(a + Len8(v)) == Value(a) * 100_000_000 + v
  {
    var hi := v / 10_000;
    Len8IsTwo4(v);
    Append4(a, hi);
    Append4(a + Len4(hi), v - hi * 10_000);
    assert a + Len8(v) == a + Len4(hi) + Len4(v - hi * 10_000);
  }

  lemma {:induction false} Len5To6Value(v: nat)
    requires 10_000 <= v < 1_000_000
    ensures Value(Len5To8(v)) == v && Len5To8(v)[0] != '0'
  {
    var hi := v / 10_000;
    var lo := v - hi * 10_000;
    PairValue(hi);
    Append4(LeadPair(hi), lo);
    assert Len5To8(v) == LeadPair(hi) + Len4(lo);
  }

  lemma {:induction false} Len7To8Value(v: nat)
    requires 1_000_000 <= v < 100_000_000
    ensures Value(Len5To8(v)) == v && Len5To8(v)[0] != '0'
  {
    var hi := v / 10_000;
    var lo, aa := v - hi * 10_000, hi / 100;
    PairValue(aa);
    AppendPair(LeadPair(aa), hi - aa * 100);
    Append4(LeadPair(aa) + Pair(hi - aa * 100), lo);
    Len7To8IsThree(v, hi, lo, aa);
  }

  lemma {:induction false} Len7To8IsThree(v: nat, hi: nat, lo: nat, aa: nat)
    requires 1_000_000 <= v < 100_000_000 && hi == v / 10_000 && lo == v - hi * 10_000 && aa == hi / 100
    ensures Len5To8(v) == LeadPair(aa) + Pair(hi - aa * 100) + Len4(lo)
  {
  }

  lemma {:induction false} Len5To8Value(v: nat)
    requires 10_000 <= v < 100_000_000
    ensures Value(Len5To8(v)) == v && Len5To8(v)[0] != '0'
  {
    if v < 1_000_000 {
      Len5To6Value(v);
    } else {
      Len7To8Value(v);
    }
  }

  lemma {:induction false} Len1To8Value(v: nat)
    requires v < 100_000_000
    ensures Value(Len1To8(v)) == v && (v >= 1 ==> Len1To8(v)[0] != '0') && (v == 0 ==> |Len1To8(v)| == 1)
  {
    if v < 100 {
      PairValue(v);
    } else if v < 10_000 {
      var aa := v / 100;
      PairValue(aa);
      AppendPair(LeadPair(aa), v - aa * 100);
    } else {
      Len5To8Value(v);
    }
  }

  lemma {:induction false} NineTo16Value(v: U64)
    requires 100_000_000 <= v < 10_000_000_000_000_000
    ensures Value(WriteU64(v)) == v && WriteU64(v)[0] != '0'
  {
    var hgh := v / 100_000_000;
    Len1To8Value(hgh);
    Append8(Len1To8(hgh), v - hgh * 100_000_000);
  }

  lemma {:induction false} ThreePartsValue(hgh: nat, mid: nat, low: nat)
    requires 10_000 <= hgh < 100_000_000 && mid < 10_000 && low < 100_000_000
    ensures var s := Len5To8(hgh) + Len4(mid) + Len8(low);
            AllDigits(s) && Value(s) == (hgh * 10_000 + mid) * 100_000_000 + low && s[0] != '0'
  {
    Len5To8Value(hgh);
    Append4(Len5To8(hgh), mid);
    Append8(Len5To8(hgh) + Len4(mid), low);
  }

  lemma {:induction false} SeventeenTo20Value(v: U64)
    requires v >= 10_000_000_000_000_000
    ensures Value(WriteU64(v)) == v && WriteU64(v)[0] != '0'
  {
    var tmp := v / 100_000_000;
    LowDivision(v, tmp);
    var low := v - tmp * 100_000_000;
    UpperValue(tmp, low);
    WritesUpper(v, tmp, low);
  }

  lemma {:induction false} WritesUpper(v: U64, tmp: nat, low: nat)
    requires v >= 10_000_000_000_000_000 && tmp == v / 100_000_000 && low == v - tmp * 100_000_000
    requires 100_000_000 <= tmp <= 184_467_440_737 && low < 100_000_000
    ensures WriteU64(v) == WriteUpper(tmp, low)
  {
  }

  lemma {:induction false} LowDivision(v: U64, tmp: nat)
    requires v >= 10_000_000_000_000_000 && tmp == v / 100_000_000
    ensures 100_000_000 <= tmp <= 184_467_440_737 && 0 <= v - tmp * 100_000_000 < 100_000_000
  {
  }

  lemma {:induction false} UpperValue(tmp: nat, low: nat)
    requires 100_000_000 <= tmp <= 184_467_440_737 && low < 100_000_000
    ensures Value(WriteUpper(tmp, low)) == tmp * 100_000_000 + low && WriteUpper(tmp, low)[0] != '0'
  {
    var hgh := tmp / 10_000;
    ThreePartsValue(hgh, tmp - hgh * 10_000, low);
  }

  /** The writer prints the decimal digits of the value, without a leading zero. */
  lemma {:induction false} WriterPrintsValue(v: U64)
    ensures var s := WriteU64(v);
            && AllDigits(s) && Value(s) == v
            && (|s| > 1 ==> s[0] != '0')
  {
    if v < 100_000_000 {
      Len1To8Value(v);
    } else if v < 10_000_000_000_000_000 {
      NineTo16Value(v);
    } else {
      SeventeenTo20Value(v);
    }
  }

  // ----- the reader -----

  /** A character of the zero-padded input. */
  function CharAt(s: string, i: nat): (c: char)
  {
    if i < |s| then s[i] else '\0'
  }

  /** [.eE] */
  predicate IsFp(c: char)
  {
    c == '.' || c == 'e' || c == 'E'
  }

  /** What a number literal is: an integer of 64 bits with its sign and length,
      something the floating-point path has to deal with, or malformed. */
  datatype Num = Int(negative: bool, magnitude: nat, n: nat) | Real | Malformed

  function DigitRun(s: string, i: nat): (j: nat)
    requires i <= |s|
    ensures i <= j <= |s| && AllDigits(s[i..j]) && !IsDigit(CharAt(s, j))
    decreases |s| - i
  {
    if i < |s| && IsDigit(s[i]) then
      var j := DigitRun(s, i + 1);
      assert forall k :: i <= k < j ==> s[i..j][k - i] == s[k] && (k > i ==> s[k] == s[i + 1..j][k - i - 1]);
      j
    else i
  }

  const I64_LIMIT: nat := 0x8000_0000_0000_0000

  /** The meaning of a literal: its whole digit run, over the unbounded integers. */
  function NumSpec(s: string): (r: Num)
  {
    var neg := CharAt(s, 0) == '-';
    var i := if neg then 1 else 0;
    var j := DigitRun(s, i);
    if i == j || (s[i] == '0' && j > i + 1) then Malformed
    else if IsFp(CharAt(s, j)) then Real
    else
      var v := Value(s[i..j]);
      if v <= (if neg then I64_LIMIT else UINT64_MAX) then Int(neg, v, j) else Real
  }

  lemma {:induction false} DigitRunUpTo(s: string, i: nat, j: nat)
    requires i <= j <= |s| && forall k :: i <= k < j ==> IsDigit(s[k])
    ensures DigitRun(s, i) == DigitRun(s, j)
    decreases j - i
  {
    if i < j {
      DigitRunUpTo(s, i + 1, j);
    }
  }

  function Power(n: nat): (r: nat)
    ensures r > 0
  {
    if n == 0 then 1 else 10 * Power(n - 1)
  }

  lemma {:induction false} PowerAdd(a: nat, b: nat)
    ensures Power(a + b) == Power(a) * Power(b)
    decreases b
  {
    if b > 0 {
      PowerAdd(a, b - 1);
      assert Power(a) * (10 * Power(b - 1)) == 10 * (Power(a) * Power(b - 1));
    }
  }

  lemma {:induction false} PowerMonotone(a: nat, b: nat)
    requires a <= b
    ensures Power(a) <= Power(b)
    decreases b
  {
    if a < b {
      PowerMonotone(a, b - 1);
    }
  }

  const TEN_19: nat := 10_000_000_000_000_000_000

  lemma {:induction false} PowerOf19()
    ensures Power(19) == TEN_19 && Power(20) == 10 * TEN_19
  {
    assert Power(2) == 100;
    PowerAdd(2, 2);
    PowerAdd(4, 4);
    PowerAdd(8, 8);
    PowerAdd(16, 2);
    assert Power(19) == 10 * Power(18);
    assert Power(20) == 10 * Power(19);
  }

  /** A digit string without leading zero lies between two powers of ten. */
  lemma {:induction false} ValueRange(s: string)
    requires AllDigits(s) && s != []
    ensures Value(s) < Power(|s|)
    ensures s[0] != '0' ==> Value(s) >= Power(|s| - 1)
    decreases |s|
  {
    var front := s[..|s| - 1];
    if front == [] {
      assert Power(1) == 10;
    } else {
      ValueRange(front);
    }
  }

  lemma {:induction false} UpTo19Digits(s: string)
    requires AllDigits(s) && 1 <= |s| <= 19
    ensures Value(s) < TEN_19
  {
    ValueRange(s);
    PowerMonotone(|s|, 19);
    PowerOf19();
  }

  lemma {:induction false} From20Digits(s: string)
    requires AllDigits(s) && |s| >= 20 && s[0] != '0'
    ensures Value(s) >= TEN_19 && (|s| > 20 ==> Value(s) >= 10 * TEN_19)
  {
    ValueRange(s);
    PowerMonotone(19, |s| - 1);
    if |s| > 20 {
      PowerMonotone(20, |s| - 1);
    }
    PowerOf19();
  }

  /** The first digit and up to eighteen more; 64 bits always suffice. */
  method Take19(s: string, i: nat) returns (sig: U64, k: nat)
    requires i < |s| && IsDigit(s[i])
    ensures i + k <= |s| && 1 <= k <= 19 && AllDigits(s[i..i + k]) && sig == Value(s[i..i + k])
    ensures k < 19 ==> !IsDigit(CharAt(s, i + k))
  {
    sig, k := DigitValue(s[i]), 1;
    assert s[i..i + 1][..0] == [];
    while k <= 18 && IsDigit(CharAt(s, i + k))
      invariant 1 <= k <= 19 && i + k <= |s|
      invariant AllDigits(s[i..i + k]) && sig == Value(s[i..i + k])
    {
      assert s[i..i + k + 1][..k] == s[i..i + k];
      UpTo19Digits(s[i..i + k + 1]);
      sig := DigitValue(s[i + k]) + sig * 10;
      k := k + 1;
    }
  }

  lemma {:induction false} RunIs(s: string, i: nat, j: nat)
    requires i <= j <= |s| && AllDigits(s[i..j]) && !IsDigit(CharAt(s, j))
    ensures DigitRun(s, i) == j
  {
    forall k | i <= k < j
      ensures IsDigit(s[k])
    {
      assert s[i..j][k - i] == s[k];
    }
    DigitRunUpTo(s, i, j);
  }

  /** The integer path of read_num: at most nineteen digits are accumulated
      unchecked, a twentieth passes the overflow check, anything longer or with a
      fraction is left to the floating-point path. */
  method ReadNum(s: string) returns (r: Num)
    ensures r == NumSpec(s)
  {
    var neg := CharAt(s, 0) == '-';
    var i := if neg then 1 else 0;
    var c := CharAt(s, i);
    if !IsDigit(c) {
      return Malformed;
    }
    if c == '0' {
      r := AfterZero(s, neg, i);
      return;
    }
    var sig, k := Take19(s, i);
    var next := CharAt(s, i + k);
    if !IsDigit(next) {
      RunIs(s, i, i + k);
      UpTo19Digits(s[i..i + k]);
      if IsFp(next) {
        return Real;
      }
      if neg && sig > I64_LIMIT {
        return Real;
      }
      return Int(neg, sig, i + k);
    }
    forall m | i <= m < i + 20
      ensures IsDigit(s[m])
    {
      assert m < i + 19 ==> s[m] == s[i..i + 19][m - i];
    }
    r := After19(s, neg, i, sig);
  }

  /** A literal that begins with 0. */
  method AfterZero(s: string, neg: bool, i: nat) returns (r: Num)
    requires neg == (CharAt(s, 0) == '-') && i == (if neg then 1 else 0) && CharAt(s, i) == '0'
    ensures r == NumSpec(s)
  {
    var c := CharAt(s, i + 1);
    if IsDigit(c) {
      DigitRunUpTo(s, i, i + 2);
      return Malformed;
    }
    assert s[i..i + 1] == ['0'] && Value(['0']) == 0;
    RunIs(s, i, i + 1);
    if IsFp(c) {
      return Real;
    }
    return Int(neg, 0, i + 1);
  }

  /** Nineteen digits read and another one at hand. */
  method After19(s: string, neg: bool, i: nat, sig: U64) returns (r: Num)
    requires neg == (CharAt(s, 0) == '-') && i == if neg then 1 else 0
    requires i + 19 < |s| && (forall k :: i <= k < i + 20 ==> IsDigit(s[k])) && s[i] != '0'
    requires sig == Value(s[i..i + 19])
    ensures r == NumSpec(s)
  {
    ghost var j := DigitRun(s, i);
    DigitRunUpTo(s, i, i + 20);
    From20Digits(s[i..j]);
    var next := CharAt(s, i + 20);
    if !IsDigit(next) && !IsFp(next) {
      RunIs(s, i, i + 20);
      var num := DigitValue(s[i + 19]);
      assert s[i..i + 20][..19] == s[i..i + 19];
      if sig < UINT64_MAX / 10 || (sig == UINT64_MAX / 10 && num <= UINT64_MAX % 10) {
        var all: U64 := num + sig * 10;
        if neg {
          return Real;
        }
        return Int(neg, all, i + 20);
      }
    }
    return Real;
  }

  /** Round trip: the reader returns every 64-bit unsigned value the writer
      printed, whatever non-number character follows. */
  lemma {:induction false} RoundTrip(v: U64, tail: string)
    requires tail == [] || (!IsDigit(tail[0]) && !IsFp(tail[0]))
    ensures NumSpec(WriteU64(v) + tail) == Int(false, v, |WriteU64(v)|)
  {
    WriterPrintsValue(v);
    var w := WriteU64(v);
    var s := w + tail;
    assert s[0] == w[0] && s[0..|w|] == w;
    assert !IsDigit(CharAt(s, |w|)) && !IsFp(CharAt(s, |w|));
    RunIs(s, 0, |w|);
  }

  /** Behind a minus sign a printed value reads back negated up to 2^63, the magnitude of
      the least 64-bit signed value, and is left to the floating-point path beyond. */
  lemma {:induction false} NegativeRoundTrip(v: U64, tail: string)
    requires tail == [] || (!IsDigit(tail[0]) && !IsFp(tail[0]))
    ensures NumSpec("-" + WriteU64(v) + tail)
            == if v <= 0x8000_0000_0000_0000 then Int(true, v, |WriteU64(v)| + 1) else Real
  {
    WriterPrintsValue(v);
    var w := WriteU64(v);
    var s := "-" + w + tail;
    assert s[0] == '-' && s[1] == w[0] && s[1..|w| + 1] == w;
    assert !IsDigit(CharAt(s, |w| + 1)) && !IsFp(CharAt(s, |w| + 1));
    RunIs(s, 1, |w| + 1);
  }

  lemma {:induction false} SpecOfRun(s: string, neg: bool, i: nat, j: nat)
    requires neg == (CharAt(s, 0) == '-') && i == (if neg then 1 else 0)
    requires i < j <= |s| && AllDigits(s[i..j]) && !IsDigit(CharAt(s, j)) && (s[i] != '0' || j == i + 1)
    ensures NumSpec(s) == if !IsFp(CharAt(s, j)) && Value(s[i..j]) <= (if neg then I64_LIMIT else UINT64_MAX)
                          then Int(neg, Value(s[i..j]), j) else Real
  {
    RunIs(s, i, j);
  }

  /** Every literal of digits without a leading zero, with or without a minus sign: a
      fraction or an exponent behind it, or a value outside 64 bits, makes it a matter of
      the floating-point path, and nothing else does. */
  lemma {:induction false} LiteralMeaning(neg: bool, ds: string, tail: string)
    requires AllDigits(ds) && ds != [] && (ds[0] != '0' || |ds| == 1) && (tail == [] || !IsDigit(tail[0]))
    ensures var n := NumSpec((if neg then "-" else "") + ds + tail);
            if tail != [] && tail[0] in {'.', 'e', 'E'} then n == Real
            else if Value(ds) <= (if neg then 0x8000_0000_0000_0000 else 0xFFFF_FFFF_FFFF_FFFF)
            then n == Int(neg, Value(ds), |ds| + if neg then 1 else 0)
            else n == Real
  {
    var s := (if neg then "-" else "") + ds + tail;
    var i := if neg then 1 else 0;
    var j := i + |ds|;
    SignedText(neg, ds, tail, s);
    SpecOfRun(s, neg, i, j);
  }

  lemma {:induction false} SignedText(neg: bool, ds: string, tail: string, s: string)
    requires s == (if neg then "-" else "") + ds + tail && ds != [] && IsDigit(ds[0])
    ensures var i := if neg then 1 else 0;
            && |s| == i + |ds| + |tail| && s[i] == ds[0] && s[i..i + |ds|] == ds && neg == (CharAt(s, 0) == '-')
            && (tail != [] ==> s[i + |ds|] == tail[0])
  {
  }

  /** Integers JSON does not allow (section 6 of RFC 8259): no digit, or a leading zero. */
  lemma {:induction false} MalformedIntegers(s: string, d: char)
    requires IsDigit(d) && (s == [] || !IsDigit(s[0])) && (s == [] || s[0] != '-')
    ensures NumSpec(s) == Malformed && NumSpec("-" + s) == Malformed
    ensures NumSpec("0" + [d] + s) == Malformed && NumSpec("-0" + [d] + s) == Malformed
  {
    var a, b, m := "0" + [d] + s, "-0" + [d] + s, "-" + s;
    assert a[0] == '0' && a[1] == d && b[0] == '-' && b[1] == '0' && b[2] == d;
    DigitRunUpTo(a, 0, 2);
    DigitRunUpTo(b, 1, 3);
    assert s != [] ==> m[1] == s[0];
  }
}
