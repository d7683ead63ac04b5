/** A call in which an earlier attempt is felt by a later one: the first backend's
    text goes over the cap before anything is delivered, the second backend's would
    fit, and yet the call is exhausted; with the second backend alone it succeeds. */
module StickyWitness {
  import opened Bytes
  import Buf
  import opened StreamAssembly
  import opened Classify
  import opened Attempt
  import opened AttemptBatch
  import opened Engine
  import opened EngineCall
  import opened EngineWire
  import opened StickyOutcome
  import SseReference
  import SsePrint

  /** What the two backends send: one payload each, carrying the given text, and
      [DONE] behind the second. */
  datatype Scene = Scene(policy: Policy, cap: nat, h: Hooks, long: seq<Byte>, longText: seq<Byte>,
                         short: seq<Byte>, shortText: seq<Byte>)

  /** A chunk that carries content and nothing else. */
  predicate Carries(h: Hooks, payload: seq<Byte>, text: seq<Byte>)
  {
    && payload != DONE && SsePrint.CrFree(payload) && text != []
    && h.parse(payload) == Chunk(Choice(Some(Delta(Some(text), None, false)), None), None, None)
  }

  /** The long text is over the cap and the short one is not; accumulation is on, no
      callback stops the stream and memory is granted.  Everything else is open. */
  ghost predicate Staged(e: Scene)
  {
    && Resolved(e.policy) && 0 < |e.shortText| <= e.cap < |e.longText|
    && Carries(e.h, e.long, e.longText) && Carries(e.h, e.short, e.shortText)
    && e.h.accumulate && (forall log :: !e.h.stops(log))
    && (forall n :: e.h.alloc(n)) && (forall trip, n :: e.h.parserAlloc(trip, n))
  }

  /** A 200 response that streams some payloads. */
  function Streaming(payloads: seq<seq<Byte>>): (w: Wire)
  {
    Response(200, [], [SsePrint.PlainText(payloads)], TransportOk)
  }

  function Long(e: Scene): (w: Wire)
  {
    Streaming([e.long])
  }

  function Short(e: Scene): (w: Wire)
  {
    Streaming([e.short, DONE])
  }

  function LimitsOf(e: Scene): (lim: Limits)
  {
    Limits(e.cap, 0)
  }

  /** Backends that answer along `wire`, with a validator that accepts. */
  function Chain(e: Scene, n: nat, wire: nat -> Wire): (w: World)
  {
    World(n, e.policy, e.cap,
          (k: nat, r: Content, log: seq<Call>, a: nat) => RunSpec(LimitsOf(e), e.h, true, wire(k), k, r, log, a),
          (k: nat) => 0, (k: nat) => false, (i: nat) => Ok,
          (k: nat, r: Content) => false, (k: nat) => true, (k: nat) => false)
  }

  /** Only the backend that fits. */
  function Alone(e: Scene): (wire: nat -> Wire)
  {
    (k: nat) => Short(e)
  }

  /** Round trip 0 meets the one that does not, every later one the one that fits. */
  function Both(e: Scene): (wire: nat -> Wire)
  {
    (k: nat) => if k == 0 then Long(e) else Short(e)
  }

  lemma {:induction false} ChainTrip(e: Scene, n: nat, wire: nat -> Wire, s: State)
    ensures Trip(Chain(e, n, wire), s)
            == StreamAttempt(LimitsOf(e), e.h, wire(s.trips), s.trips, ResetContent(s.r), s.log, s.allocs)
  {
    var w := Chain(e, n, wire);
    assert w.attempt(s.trips, ResetContent(s.r), s.log, s.allocs)
        == RunSpec(LimitsOf(e), e.h, true, wire(s.trips), s.trips, ResetContent(s.r), s.log, s.allocs);
  }

  // ----- the round trips -----

  lemma {:induction false} BatchOfStreaming(payloads: seq<seq<Byte>>)
    requires forall i :: 0 <= i < |payloads| ==> SsePrint.CrFree(payloads[i])
    ensures var body := Concat(ChunksOf(Streaming(payloads)));
            && SseReference.BatchOf(0, body) == SseReference.Batch(payloads, Ok)
            && CleanWire(Streaming(payloads))
  {
    var text := SsePrint.PlainText(payloads);
    assert [text][1..] == [] && Concat([text]) == text + [];
    assert text + [] == text;
    SsePrint.PlainBatch(payloads);
  }

  /** What the events of the payloads make of a context. */
  ghost function After(e: Scene, x: Ctx, payloads: seq<seq<Byte>>): (seen: SseReference.Seen<Ctx>)
  {
    var (x', rc) := SseReference.Deliver(ParserEnv(e.h, x.trip).onEvent, x, payloads);
    SseReference.Seen(x', rc, Ok)
  }

  lemma {:induction false} SeenIsAfter(e: Scene, payloads: seq<seq<Byte>>, trip: nat, r: Content, log: seq<Call>,
                                       allocs: nat)
    requires forall i :: 0 <= i < |payloads| ==> SsePrint.CrFree(payloads[i])
    ensures SeenOf(LimitsOf(e), e.h, Streaming(payloads), trip, r, log, allocs)
            == After(e, NewCtx(trip, r, log, allocs), payloads)
  {
    BatchOfStreaming(payloads);
  }

  /** The outcome of a round trip in terms of its payloads. */
  lemma {:induction false} Streamed(e: Scene, payloads: seq<seq<Byte>>, trip: nat, r: Content, log: seq<Call>,
                                    allocs: nat)
    requires Staged(e) && forall i :: 0 <= i < |payloads| ==> SsePrint.CrFree(payloads[i])
    ensures var o := StreamAttempt(LimitsOf(e), e.h, Streaming(payloads), trip, r, log, allocs);
            var want := EventsOutcome(Streaming(payloads), After(e, NewCtx(trip, r, log, allocs), payloads));
            o == want.(ts := o.ts) && (want.terminal == Ok ==> o == want)
  {
    SeenIsAfter(e, payloads, trip, r, log, allocs);
    assert forall k :: e.h.parserAlloc(trip, k);
    StreamAttemptIsBatch(LimitsOf(e), e.h, Streaming(payloads), trip, r, log, allocs);
  }

  /** An event whose text goes over the cap, or meets a failed buffer, delivers
      nothing. */
  lemma {:induction false} TooLong(e: Scene, x: Ctx, payload: seq<Byte>, text: seq<Byte>)
    requires Staged(e) && Carries(e.h, payload, text)
    requires x.r.text.err == TooBig || (x.r.text == Buf.BufV([], e.cap, Ok) && |text| > e.cap)
    ensures var (x', rc) := OnEvent(e.h, x, payload);
            && rc == -1 && x'.err == TooBig && x'.delivered == x.delivered && x'.log == x.log && x'.done == x.done
            && x'.r.text == x.r.text.(err := TooBig)
  {
    assert e.h.alloc(x.allocs);
  }

  /** An event whose text fits a fresh buffer is delivered. */
  lemma {:induction false} JustFits(e: Scene, x: Ctx, payload: seq<Byte>, text: seq<Byte>)
    requires Staged(e) && Carries(e.h, payload, text)
    requires x.r.text == Buf.BufV([], e.cap, Ok) && |text| <= e.cap
    ensures var (x', rc) := OnEvent(e.h, x, payload);
            rc == 0 && x'.r == x.r.(text := Buf.BufV(text, e.cap, Ok)) && x'.done == x.done
  {
    assert e.h.alloc(x.allocs) && [] + text == text;
    assert !e.h.stops(x.log + [Call(x.trip, OnDelta, text)]);
  }

  /** How a stream ends whose first event fails, or whose second one is [DONE]. */
  lemma {:induction false} Ends(e: Scene, x: Ctx, payloads: seq<seq<Byte>>)
    requires payloads != [] && (|payloads| == 2 ==> payloads[1] == DONE) && |payloads| <= 2
    ensures var (x1, rc1) := OnEvent(e.h, x, payloads[0]);
            var (x2, rc2) := SseReference.Deliver(ParserEnv(e.h, x.trip).onEvent, x, payloads);
            && (rc1 != 0 ==> (x2, rc2) == (x1, rc1))
            && (rc1 == 0 && |payloads| == 2 ==> (x2, rc2) == (x1.(done := true), STREAM_STOP))
  {
    if |payloads| == 2 {
      assert payloads[1..][0] == DONE && payloads[1..][1..] == [];
    }
  }

  /** The long text trips the cap and delivers nothing. */
  lemma {:induction false} LongTrips(e: Scene, log: seq<Call>, allocs: nat)
    requires Staged(e)
    ensures var o := StreamAttempt(LimitsOf(e), e.h, Long(e), 0, FreshContent(e.cap), log, allocs);
            && o.ts == TransportOk && o.httpStatus == 200 && o.body == BodyTooBig && o.terminal == Ok
            && !o.delivered && o.log == log && o.r.text == Buf.BufV([], e.cap, TooBig)
  {
    var x := NewCtx(0, FreshContent(e.cap), log, allocs);
    TooLong(e, x, e.long, e.longText);
    Ends(e, x, [e.long]);
    Streamed(e, [e.long], 0, FreshContent(e.cap), log, allocs);
  }

  /** The short one, in a fresh result, is a success. */
  lemma {:induction false} ShortSucceeds(e: Scene, log: seq<Call>, allocs: nat)
    requires Staged(e)
    ensures var o := StreamAttempt(LimitsOf(e), e.h, Short(e), 0, FreshContent(e.cap), log, allocs);
            && o.ts == TransportOk && o.httpStatus == 200 && o.body == BodyOk && o.terminal == Ok
            && o.r.text.bytes == e.shortText && o.r.finish == FinishUnknown
  {
    var x := NewCtx(0, FreshContent(e.cap), log, allocs);
    JustFits(e, x, e.short, e.shortText);
    Ends(e, x, [e.short, DONE]);
    Streamed(e, [e.short, DONE], 0, FreshContent(e.cap), log, allocs);
  }

  /** After the long one it is not. */
  lemma {:induction false} ShortFailsLater(e: Scene, r: Content, log: seq<Call>, allocs: nat)
    requires Staged(e) && r.text.err == TooBig
    ensures var o := StreamAttempt(LimitsOf(e), e.h, Short(e), 1, r, log, allocs);
            && o.ts == TransportOk && o.httpStatus == 200 && o.body == BodyTooBig && o.terminal == Ok
            && !o.delivered
  {
    var x := NewCtx(1, r, log, allocs);
    TooLong(e, x, e.short, e.shortText);
    Ends(e, x, [e.short, DONE]);
    Streamed(e, [e.short, DONE], 1, r, log, allocs);
  }

  // ----- the calls -----

  /** One more turn that ends in an advance. */
  lemma {:induction false} TurnAdvances(w: World, s: State)
    requires Running(w, s) && s.final == None && !w.cancelled(s.trips) && w.build(s.backend) == Ok
    requires w.recordRoom(s.trips) && !s.anyDelivered
    requires var o := Trip(w, s); ClassOf(w, s.trips, o) == Advance && o.terminal == Ok && !o.delivered
    ensures var s' := Step(w, s);
            && Running(w, s') && Run(w, s) == Run(w, s') && s'.backend == s.backend + 1 && s'.trips == s.trips + 1
            && s'.final == (if s.backend + 1 >= w.n then Some(Exhausted) else None)
            && s'.r == Trip(w, s).r && s'.log == Trip(w, s).log && !s'.anyDelivered
  {
    OneStepOn(w, s);
  }

  lemma {:induction false} AloneItSucceeds(e: Scene)
    requires Staged(e)
    ensures var w := Chain(e, 1, Alone(e)); Run(w, Start(w)).final == Some(Ok)
  {
    var w := Chain(e, 1, Alone(e));
    var s := Start(w);
    ShortSucceeds(e, [], 0);
    ChainTrip(e, 1, Alone(e), s);
    assert ClassOf(w, 0, Trip(w, s)) == Success;
    assert Step(w, s).final == Some(Ok);
    OneStepOn(w, s);
  }

  /** The first turn leaves the text's error behind. */
  lemma {:induction false} FirstTurn(e: Scene) returns (s1: State)
    requires Staged(e)
    ensures var w := Chain(e, 2, Both(e));
            && Running(w, s1) && Run(w, Start(w)) == Run(w, s1) && s1.final == None
            && s1.backend == 1 && s1.trips == 1 && !s1.anyDelivered && s1.r.text == Buf.BufV([], e.cap, TooBig)
  {
    var w := Chain(e, 2, Both(e));
    var s := Start(w);
    LongTrips(e, [], 0);
    ChainTrip(e, 2, Both(e), s);
    assert ClassOf(w, 0, Trip(w, s)) == Advance;
    TurnAdvances(w, s);
    s1 := Step(w, s);
  }

  lemma {:induction false} TogetherTheyFail(e: Scene)
    requires Staged(e)
    ensures var w := Chain(e, 2, Both(e)); Run(w, Start(w)).final == Some(Exhausted)
  {
    var w := Chain(e, 2, Both(e));
    var s1 := FirstTurn(e);
    ShortFailsLater(e, ResetContent(s1.r), s1.log, s1.allocs);
    ChainTrip(e, 2, Both(e), s1);
    assert ClassOf(w, 1, Trip(w, s1)) == Advance;
    TurnAdvances(w, s1);
  }

  /** A later attempt is not a fresh one: in every such scene the second backend alone
      succeeds, and behind the first the same answer is too big. */
  lemma {:induction false} SecondBackendIsNotFresh(e: Scene)
    requires Staged(e)
    ensures var w := Chain(e, 1, Alone(e)); Run(w, Start(w)).final == Some(Ok)
    ensures var w := Chain(e, 2, Both(e)); Run(w, Start(w)).final == Some(Exhausted)
  {
    AloneItSucceeds(e);
    TogetherTheyFail(e);
  }

  // ----- such a scene, with payloads of a real service -----

  /** {"choices":[{"delta":{"content":"xy"}}]} */
  const JSON_XY: seq<Byte> := [
    0x7B, 0x22, 0x63, 0x68, 0x6F, 0x69, 0x63, 0x65, 0x73, 0x22, 0x3A, 0x5B, 0x7B, 0x22, 0x64, 0x65, 0x6C, 0x74, 0x61,
    0x22, 0x3A, 0x7B, 0x22, 0x63, 0x6F, 0x6E, 0x74, 0x65, 0x6E, 0x74, 0x22, 0x3A, 0x22, 0x78, 0x79, 0x22, 0x7D, 0x7D,
    0x5D, 0x7D]

  /** {"choices":[{"delta":{"content":"x"}}]} */
  const JSON_X: seq<Byte> := [
    0x7B, 0x22, 0x63, 0x68, 0x6F, 0x69, 0x63, 0x65, 0x73, 0x22, 0x3A, 0x5B, 0x7B, 0x22, 0x64, 0x65, 0x6C, 0x74, 0x61,
    0x22, 0x3A, 0x7B, 0x22, 0x63, 0x6F, 0x6E, 0x74, 0x65, 0x6E, 0x74, 0x22, 0x3A, 0x22, 0x78, 0x22, 0x7D, 0x7D,
    0x5D, 0x7D]

  function ContentChunk(text: seq<Byte>): (p: Payload)
  {
    Chunk(Choice(Some(Delta(Some(text), None, false)), None), None, None)
  }

  /** A caller to whom these two payloads read as they do in JSON. */
  function JsonCaller(): (h: Hooks)
  {
    Hooks(true, true, true, (log: seq<Call>) => false,
          (d: seq<Byte>) => if d == JSON_XY then ContentChunk([0x78, 0x79])
                            else if d == JSON_X then ContentChunk([0x78])
                            else Unparseable,
          (b: seq<Byte>) => BadReply, true, (n: nat) => true, (trip: nat, n: nat) => true)
  }

  lemma {:induction false} JsonScene() returns (e: Scene)
    ensures Staged(e) && e.h == JsonCaller() && e.long == JSON_XY && e.short == JSON_X && e.cap == 1
  {
    e := Scene(Policy(1, 0, 1, 1, 1, 1, false, false, false, []), 1, JsonCaller(),
               JSON_XY, [0x78, 0x79], JSON_X, [0x78]);
    JsonIsText();
  }

  lemma {:induction false} JsonIsText()
    ensures SsePrint.CrFree(JSON_XY) && SsePrint.CrFree(JSON_X)
    ensures JSON_XY != DONE && JSON_X != DONE && JSON_XY != JSON_X
  {
    assert |JSON_XY| == 40 && |JSON_X| == 39 && |DONE| == 6;
  }
}
