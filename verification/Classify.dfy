/** Retry policy, classification of one round trip, Retry-After and backoff
    (src/classify.c). */
module Classify {
  import opened Bytes
  import opened Decimal
  import opened StreamAssembly

  datatype Class = Success | Abort | RetrySame | Advance | Cancel | Validation

  datatype Transport =
    | TransportOk
    | Connect
    | Tls
    | TimeoutConnect
    | TimeoutFirstByte
    | TimeoutIdle
    | TimeoutTotal
    | ConnReset
    | AbortedBySink
    | TransportCancelled
    | Protocol
    | TransportNoMem
    | Other
    | Unknown(code: int)

  datatype BodyState = BodyOk | BodyEmpty | BodyMalformed | BodyTooBig

  datatype Override = Override(httpStatus: int, cls: Class)

  /** sicha_retry_policy; NO_LIMIT disables jitter or Retry-After. */
  datatype Policy = Policy(
    maxTries: U32,
    validationRetries: U32,
    backoffBaseMs: U32,
    backoffCapMs: U32,
    backoffJitterMs: U32,
    retryAfterCapMs: U32,
    lengthIsAdvance: bool,
    contentFilterIsAdvance: bool,
    retryAfterDeltas: bool,
    overrides: seq<Override>)

  function OrDefault(n: U32, d: U32): (r: U32)
    requires d > 0
    ensures r > 0 && (n != 0 ==> r == n)
  {
    if n == 0 then d else n
  }

  /** sicha_policy_resolve. */
  function Resolve(p: Policy): (r: Policy)
    ensures Resolved(r)
    ensures Resolved(p) ==> r == p
    ensures r.maxTries == p.maxTries || (p.maxTries == 0 && r.maxTries == 3)
    ensures r.backoffBaseMs == p.backoffBaseMs || (p.backoffBaseMs == 0 && r.backoffBaseMs == 1000)
    ensures r.backoffCapMs == p.backoffCapMs || (p.backoffCapMs == 0 && r.backoffCapMs == 30000)
    ensures r.backoffJitterMs == p.backoffJitterMs || (p.backoffJitterMs == 0 && r.backoffJitterMs == 500)
    ensures r.retryAfterCapMs == p.retryAfterCapMs || (p.retryAfterCapMs == 0 && r.retryAfterCapMs == 120000)
    ensures r == p.(maxTries := r.maxTries, backoffBaseMs := r.backoffBaseMs, backoffCapMs := r.backoffCapMs,
                    backoffJitterMs := r.backoffJitterMs, retryAfterCapMs := r.retryAfterCapMs)
  {
    p.(maxTries := OrDefault(p.maxTries, 3),
       backoffBaseMs := OrDefault(p.backoffBaseMs, 1000),
       backoffCapMs := OrDefault(p.backoffCapMs, 30000),
       backoffJitterMs := OrDefault(p.backoffJitterMs, 500),
       retryAfterCapMs := OrDefault(p.retryAfterCapMs, 120000))
  }

  predicate Resolved(p: Policy)
  {
    && p.maxTries > 0 && p.backoffBaseMs > 0 && p.backoffCapMs > 0
    && p.backoffJitterMs > 0 && p.retryAfterCapMs > 0
  }

  /** What sicha_policy_validate demands of the overrides. */
  predicate Validated(p: Policy)
  {
    forall i :: 0 <= i < |p.overrides| ==>
      p.overrides[i].httpStatus > 0 && p.overrides[i].cls in {Abort, RetrySame, Advance}
  }

  function FirstOverride(os: seq<Override>, httpStatus: int): (r: Option<Class>)
  {
    if os == [] then None
    else if os[0].httpStatus == httpStatus then Some(os[0].cls)
    else FirstOverride(os[1..], httpStatus)
  }

  /** lookup_override: the first match wins. */
  method LookupOverride(os: seq<Override>, httpStatus: int) returns (found: Option<Class>)
    ensures found == FirstOverride(os, httpStatus)
    ensures found.Some? <==> exists i :: 0 <= i < |os| && os[i].httpStatus == httpStatus
    ensures found.Some? ==>
              exists i :: 0 <= i < |os| && os[i] == Override(httpStatus, found.value)
                          && forall j :: 0 <= j < i ==> os[j].httpStatus != httpStatus
  {
    var i := 0;
    while i < |os|
      invariant i <= |os|
      invariant forall j :: 0 <= j < i ==> os[j].httpStatus != httpStatus
      invariant FirstOverride(os, httpStatus) == FirstOverride(os[i..], httpStatus)
    {
      if os[i].httpStatus == httpStatus {
        return Some(os[i].cls);
      }
      i := i + 1;
    }
    return None;
  }

  predicate Http2xx(status: int)
  {
    200 <= status <= 299
  }

  /** sicha_classify. */
  function ClassifyTrip(p: Policy, ts: Transport, httpStatus: int, body: BodyState, finish: Finish): (c: Class)
  {
    match ts
    case TransportCancelled => Cancel
    case AbortedBySink => Cancel
    case TimeoutConnect => Advance
    case TimeoutFirstByte => Advance
    case TimeoutIdle => Advance
    case TimeoutTotal => Advance
    case Connect => RetrySame
    case Tls => RetrySame
    case ConnReset => RetrySame
    case Other => RetrySame
    case Protocol => Advance
    case TransportNoMem => Advance
    case Unknown(_) => RetrySame
    case TransportOk =>
      if Http2xx(httpStatus) then
        if body != BodyOk then Advance
        else if finish == FinishLength && p.lengthIsAdvance then Advance
        else if finish == FinishContentFilter && p.contentFilterIsAdvance then Advance
        else Success
      else
        var o := FirstOverride(p.overrides, httpStatus);
        if o.Some? then o.value
        else if 400 <= httpStatus <= 404 then Abort
        else if httpStatus == 429 then Advance
        else RetrySame
  }

  lemma {:induction false} OverrideIsValidated(os: seq<Override>, httpStatus: int)
    requires forall i :: 0 <= i < |os| ==> os[i].cls in {Abort, RetrySame, Advance}
    ensures FirstOverride(os, httpStatus).Some? ==>
              FirstOverride(os, httpStatus).value in {Abort, RetrySame, Advance}
  {
    if os != [] {
      OverrideIsValidated(os[1..], httpStatus);
    }
  }

  /** Under any validated policy, success is exactly a clean 2xx response, a
      cancellation comes only from the transport or the sink, and no response is
      ever classed as a validator rejection. */
  lemma {:induction false} ClassesAreDisjoint(p: Policy, ts: Transport, httpStatus: int, body: BodyState,
                                              finish: Finish)
    requires Validated(p)
    ensures var c := ClassifyTrip(p, ts, httpStatus, body, finish);
            && (c == Success <==>
                  ts == TransportOk && 200 <= httpStatus <= 299 && body == BodyOk
                  && !(finish == FinishLength && p.lengthIsAdvance)
                  && !(finish == FinishContentFilter && p.contentFilterIsAdvance))
            && (c == Cancel <==> ts == TransportCancelled || ts == AbortedBySink)
            && c != Validation
  {
    OverrideIsValidated(p.overrides, httpStatus);
  }

  /** No entry of the overrides is for this status. */
  predicate NotOverridden(os: seq<Override>, httpStatus: int)
  {
    forall i :: 0 <= i < |os| ==> os[i].httpStatus != httpStatus
  }

  /** Entry i is the first one for this status. */
  predicate OverriddenBy(os: seq<Override>, httpStatus: int, i: nat)
  {
    i < |os| && os[i].httpStatus == httpStatus && NotOverridden(os[..i], httpStatus)
  }

  lemma {:induction false} FirstOverrideIs(os: seq<Override>, httpStatus: int, i: nat)
    ensures NotOverridden(os, httpStatus) ==> FirstOverride(os, httpStatus) == None
    ensures OverriddenBy(os, httpStatus, i) ==> FirstOverride(os, httpStatus) == Some(os[i].cls)
    decreases |os|
  {
    if os != [] {
      if i > 0 {
        if OverriddenBy(os, httpStatus, i) {
          assert os[..i][0] == os[0];
          assert forall j :: 0 <= j < i - 1 ==> os[1..][j] == os[..i][j + 1];
        }
        FirstOverrideIs(os[1..], httpStatus, i - 1);
      } else {
        FirstOverrideIs(os[1..], httpStatus, 0);
      }
    }
  }

  /** A response outside 2xx that no override names: 400 to 404 abort, 429 advances,
      everything else is retried on the same backend. */
  lemma {:induction false} BuiltInClasses(p: Policy, httpStatus: int, body: BodyState, finish: Finish)
    requires !(200 <= httpStatus <= 299) && NotOverridden(p.overrides, httpStatus)
    ensures var c := ClassifyTrip(p, TransportOk, httpStatus, body, finish);
            && (c == Abort <==> httpStatus in {400, 401, 402, 403, 404})
            && (c == Advance <==> httpStatus == 429)
            && (c == RetrySame <==> httpStatus !in {400, 401, 402, 403, 404, 429})
  {
    FirstOverrideIs(p.overrides, httpStatus, 0);
  }

  /** A response outside 2xx with an override: the class of the first entry for its
      status, whatever the built-in table says. */
  lemma {:induction false} OverriddenClasses(p: Policy, httpStatus: int, body: BodyState, finish: Finish, i: nat)
    requires !(200 <= httpStatus <= 299) && OverriddenBy(p.overrides, httpStatus, i)
    ensures ClassifyTrip(p, TransportOk, httpStatus, body, finish) == p.overrides[i].cls
  {
    FirstOverrideIs(p.overrides, httpStatus, i);
  }

  /** A 2xx response: overrides play no part; an unusable body, or a finish the policy
      turns down, advances. */
  lemma {:induction false} GoodClasses(p: Policy, httpStatus: int, body: BodyState, finish: Finish)
    requires 200 <= httpStatus <= 299
    ensures var c := ClassifyTrip(p, TransportOk, httpStatus, body, finish);
            && c in {Success, Advance}
            && (c == Advance <==>
                  || body in {BodyEmpty, BodyMalformed, BodyTooBig}
                  || (p.lengthIsAdvance && finish == FinishLength)
                  || (p.contentFilterIsAdvance && finish == FinishContentFilter))
  {
  }

  /** A transport failure: timeouts, protocol errors and want of memory advance, failed
      and lost connections (and codes not known) are retried, a cancellation by the
      transport or the sink cancels; status, body and policy play no part. */
  lemma {:induction false} TransportClasses(p: Policy, ts: Transport, httpStatus: int, body: BodyState, finish: Finish)
    requires ts != TransportOk
    ensures var c := ClassifyTrip(p, ts, httpStatus, body, finish);
            && (c == Advance <==> ts in {TimeoutConnect, TimeoutFirstByte, TimeoutIdle, TimeoutTotal, Protocol,
                                         TransportNoMem})
            && (c == RetrySame <==> ts in {Connect, Tls, ConnReset, Other} || ts.Unknown?)
            && (c == Cancel <==> ts in {TransportCancelled, AbortedBySink})
  {
  }

  // ----- Retry-After (section 10.2.3 of RFC 9110, delta-seconds only) -----

  const RETRY_AFTER_SAT_MS: nat := 1_000_000_000_000_000

  predicate IsOws(c: char)
  {
    c == ' ' || c == '\t'
  }

  function SkipOws(s: string, i: nat): (j: nat)
    requires i <= |s|
    ensures i <= j <= |s|
    ensures forall k :: i <= k < j ==> IsOws(s[k])
    ensures j < |s| ==> !IsOws(s[j])
    decreases |s| - i
  {
    if i < |s| && IsOws(s[i]) then SkipOws(s, i + 1) else i
  }

  function SkipDigits(s: string, i: nat): (j: nat)
    requires i <= |s|
    ensures i <= j <= |s|
    ensures forall k :: i <= k < j ==> IsDigit(s[k])
    ensures j < |s| ==> !IsDigit(s[j])
    decreases |s| - i
  {
    if i < |s| && IsDigit(s[i]) then SkipDigits(s, i + 1) else i
  }

  /** Milliseconds of a delta-seconds header, UINT64_MAX for anything else. */
  function RetryAfterMs(s: string): (ms: U64)
  {
    var a := SkipOws(s, 0);
    var b := SkipDigits(s, a);
    var c := SkipOws(s, b);
    if a == b || c != |s| then UINT64_MAX
    else Min(1000 * Value(s[a..b]), RETRY_AFTER_SAT_MS)
  }

  ghost predicate IsDelta(s: string, lead: string, digits: string, trail: string)
  {
    && s == lead + digits + trail
    && (forall i :: 0 <= i < |lead| ==> lead[i] == ' ' || lead[i] == '\t')
    && (forall i :: 0 <= i < |trail| ==> trail[i] == ' ' || trail[i] == '\t')
    && digits != [] && AllDigits(digits)
  }

  /** For a digit string of any length between optional blanks the result is
      exactly min(1000 n, 10^15). */
  lemma {:induction false} RetryAfterOfDelta(s: string, lead: string, digits: string, trail: string)
    requires IsDelta(s, lead, digits, trail)
    ensures RetryAfterMs(s) == Min(1000 * Value(digits), 1_000_000_000_000_000)
  {
    var a, b := |lead|, |lead| + |digits|;
    assert forall i :: 0 <= i < a ==> s[i] == lead[i];
    assert forall i :: a <= i < b ==> s[i] == digits[i - a];
    assert forall i :: b <= i < |s| ==> s[i] == trail[i - b];
    assert s[a] == digits[0];
    assert b < |s| ==> s[b] == trail[0];
    assert SkipOws(s, 0) == a;
    assert SkipDigits(s, a) == b;
    assert SkipOws(s, b) == |s|;
    assert s[a..b] == digits;
  }

  /** A header that asks for a wait has its parts. */
  lemma {:induction false} DeltaParts(s: string) returns (lead: string, digits: string, trail: string)
    requires RetryAfterMs(s) != UINT64_MAX
    ensures IsDelta(s, lead, digits, trail)
  {
    var a := SkipOws(s, 0);
    var b := SkipDigits(s, a);
    lead, digits, trail := s[..a], s[a..b], s[b..];
    assert s == s[..a] + s[a..b] + s[b..];
  }

  /** Anything else — empty, a date, trailing garbage — is "none". */
  lemma {:induction false} RetryAfterOfGarbage(s: string)
    requires forall lead, digits, trail :: !IsDelta(s, lead, digits, trail)
    ensures RetryAfterMs(s) == UINT64_MAX
  {
    if RetryAfterMs(s) != UINT64_MAX {
      var lead, digits, trail := DeltaParts(s);
    }
  }

  /** The leading or trailing blanks of the header. */
  method ScanOws(value: string, from: nat) returns (i: nat)
    requires from <= |value|
    ensures i == SkipOws(value, from)
  {
    i := from;
    while i < |value| && IsOws(value[i])
      invariant from <= i <= |value|
      invariant SkipOws(value, from) == SkipOws(value, i)
    {
      i := i + 1;
    }
  }

  /** The digit loop.  `seconds` is 64 bits wide: the accumulator never overflows,
      although it oscillates once saturated. */
  method ScanSeconds(value: string, from: nat) returns (i: nat, seconds: U64)
    requires from <= |value|
    ensures i == SkipDigits(value, from)
    ensures seconds == Value(value[from..i]) ||
            (seconds >= RETRY_AFTER_SAT_MS && Value(value[from..i]) >= RETRY_AFTER_SAT_MS)
  {
    i, seconds := from, 0;
    while i < |value| && IsDigit(value[i])
      invariant from <= i <= |value|
      invariant SkipDigits(value, from) == SkipDigits(value, i)
      invariant AllDigits(value[from..i])
      invariant seconds == Value(value[from..i]) ||
                (seconds >= RETRY_AFTER_SAT_MS && Value(value[from..i]) >= RETRY_AFTER_SAT_MS)
      invariant seconds <= 10 * RETRY_AFTER_SAT_MS + 9
    {
      assert value[from..i + 1][..i - from] == value[from..i];
      if seconds > RETRY_AFTER_SAT_MS {
        seconds := RETRY_AFTER_SAT_MS;
      } else {
        seconds := seconds * 10 + DigitValue(value[i]);
      }
      i := i + 1;
    }
  }

  /** sicha_retry_after_ms. */
  method ParseRetryAfter(value: string) returns (ms: U64)
    ensures ms == RetryAfterMs(value)
  {
    var a := ScanOws(value, 0);
    var b, seconds := ScanSeconds(value, a);
    var c := ScanOws(value, b);
    if a == b || c != |value| {
      return UINT64_MAX;
    }
    if seconds > RETRY_AFTER_SAT_MS / 1000 {
      return RETRY_AFTER_SAT_MS;
    }
    return seconds * 1000;
  }

  // ----- Backoff -----

  function Pow2(n: nat): (r: nat)
    ensures r > 0
  {
    if n == 0 then 1 else 2 * Pow2(n - 1)
  }

  /** sicha_backoff_ms: every intermediate is a 64-bit value. */
  function BackoffMs(p: Policy, k: nat, rand: U64): (ms: U64)
  {
    var shift := if k == 0 then 0 else k - 1;
    var base: U64, cap: U64 := p.backoffBaseMs, p.backoffCapMs;
    var wait: U64 := if shift >= 63 || base > UINT64_MAX / Pow2(shift) then cap
                     else Shifted(base, shift);
    var jittered: U64 :=
      if p.backoffJitterMs != NO_LIMIT && p.backoffJitterMs > 0 then
        var j := rand % p.backoffJitterMs;
        if wait > UINT64_MAX - j then UINT64_MAX else wait + j
      else wait;
    if jittered < cap then jittered else cap
  }

  /** base << shift, where the guard has excluded overflow. */
  function Shifted(base: U64, shift: nat): (r: U64)
    requires base <= UINT64_MAX / Pow2(shift)
    ensures r == base * Pow2(shift)
  {
    MulDiv(base, Pow2(shift));
    base * Pow2(shift)
  }

  lemma {:induction false} MulDiv(x: nat, d: nat)
    requires d > 0 && x <= UINT64_MAX / d
    ensures x * d <= UINT64_MAX
  {
    MulMonotone(x, UINT64_MAX / d, d);
  }

  lemma {:induction false} Pow2Monotone(a: nat, b: nat)
    requires a <= b
    ensures Pow2(a) <= Pow2(b)
    decreases b
  {
    if a < b {
      Pow2Monotone(a, b - 1);
    }
  }

  function Jitter(p: Policy, rand: U64): (j: nat)
  {
    if p.backoffJitterMs == NO_LIMIT || p.backoffJitterMs == 0 then 0 else rand % p.backoffJitterMs
  }

  lemma {:induction false} MulMonotone(x: nat, y: nat, d: nat)
    requires x <= y
    ensures x * d <= y * d
  {
    assert (y - x) * d >= 0;
  }

  lemma {:induction false} DivGuard(x: nat, d: nat, m: nat)
    requires d > 0 && x > m / d
    ensures x * d > m
  {
    var q := m / d;
    MulMonotone(q + 1, x, d);
    assert (q + 1) * d == q * d + d;
    assert m == q * d + m % d;
  }

  lemma {:induction false} Pow2Of32()
    ensures Pow2(32) == 0x1_0000_0000
  {
    assert Pow2(2) == 4;
    Pow2Add(2, 2);
    Pow2Add(4, 4);
    Pow2Add(8, 8);
    Pow2Add(16, 16);
  }

  lemma {:induction false} Pow2Add(a: nat, b: nat)
    ensures Pow2(a + b) == Pow2(a) * Pow2(b)
    decreases b
  {
    if b > 0 {
      Pow2Add(a, b - 1);
      assert Pow2(a) * (2 * Pow2(b - 1)) == 2 * (Pow2(a) * Pow2(b - 1));
    }
  }

  /** When the guard trips, the true product is beyond any 32-bit cap. */
  lemma {:induction false} GuardMeansHuge(base: U64, shift: nat)
    requires base > 0
    requires shift >= 63 || base > UINT64_MAX / Pow2(shift)
    ensures base * Pow2(shift) >= NO_LIMIT
  {
    if shift >= 63 {
      Pow2Of32();
      Pow2Monotone(32, shift);
      MulMonotone(1, base, Pow2(shift));
    } else {
      DivGuard(base, Pow2(shift), UINT64_MAX);
    }
  }

  /** base 2^n. */
  function Doubled(base: nat, n: nat): (r: nat)
  {
    if n == 0 then base else 2 * Doubled(base, n - 1)
  }

  lemma {:induction false} DoubledIsProduct(base: nat, n: nat)
    ensures Doubled(base, n) == base * Pow2(n)
  {
    if n > 0 {
      DoubledIsProduct(base, n - 1);
      assert base * (2 * Pow2(n - 1)) == 2 * (base * Pow2(n - 1));
    }
  }

  lemma {:induction false} DoubledMonotone(base: nat, m: nat, n: nat)
    requires m <= n
    ensures Doubled(base, m) <= Doubled(base, n)
    decreases n
  {
    if m < n {
      DoubledMonotone(base, m, n - 1);
    }
  }

  /** The schedule the header documents, over the unbounded integers: the base doubled
      k - 1 times, plus the jitter, cut to the cap. */
  function Schedule(p: Policy, k: nat, rand: U64): (ms: nat)
    requires k >= 1
  {
    Min(Doubled(p.backoffBaseMs, k - 1) + Jitter(p, rand), p.backoffCapMs)
  }

  /** Closed form: for a resolved policy, the shift-guarded 64-bit computation is
      min(base 2^(k-1) + rand mod jitter, cap). */
  lemma {:induction false} BackoffClosedForm(p: Policy, k: nat, rand: U64)
    requires Resolved(p) && k >= 1
    ensures BackoffMs(p, k, rand) == Schedule(p, k, rand)
    ensures BackoffMs(p, 0, rand) == BackoffMs(p, 1, rand)
  {
    var base, shift := p.backoffBaseMs, k - 1;
    DoubledIsProduct(base, shift);
    if shift >= 63 || base > UINT64_MAX / Pow2(shift) {
      GuardMeansHuge(base, shift);
    }
  }

  lemma {:induction false} ScheduleMonotone(p: Policy, k: nat, k': nat, rand: U64, rand': U64)
    requires p.backoffJitterMs == NO_LIMIT && 1 <= k <= k'
    ensures Schedule(p, k, rand) <= Schedule(p, k', rand')
  {
    DoubledMonotone(p.backoffBaseMs, k - 1, k' - 1);
  }

  /** Without jitter the computed waits never shrink. */
  lemma {:induction false} BackoffMonotone(p: Policy, k: nat, k': nat, rand: U64, rand': U64)
    requires Resolved(p) && p.backoffJitterMs == NO_LIMIT && 1 <= k <= k'
    ensures BackoffMs(p, k, rand) <= BackoffMs(p, k', rand')
  {
    var x, y := BackoffMs(p, k, rand), BackoffMs(p, k', rand');
    assert x == Schedule(p, k, rand) by { BackoffClosedForm(p, k, rand); }
    assert y == Schedule(p, k', rand') by { BackoffClosedForm(p, k', rand'); }
    ScheduleMonotone(p, k, k', rand, rand');
  }
}
