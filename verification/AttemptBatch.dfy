/** A streamed round trip over a clean wire, read off the batch meaning of its body:
    chunks, sink aborts and the flush at the end make no difference. */
module AttemptBatch {
  import opened Bytes
  import opened Buf
  import opened StreamAssembly
  import opened Classify
  import opened Attempt
  import opened SseReference
  import Sse

  /** The codes of the event handler: [DONE] is the only way to be done, and a
      failure leaves its error. */
  lemma {:induction false} OnEventCodes(h: Hooks, x: Ctx, data: seq<Byte>)
    ensures var (x', rc) := OnEvent(h, x, data);
            && rc in {0, STREAM_STOP, STREAM_CANCEL, -1}
            && x'.done == (x.done || rc == STREAM_STOP)
            && (rc == -1 ==> x'.err != Ok)
  {
    if data != DONE {
      var x1 := x.(sawEvent := true);
      match h.parse(data)
      case Unparseable => RawChunkCodes(h, x, data);
      case Unmodeled => RawChunkCodes(h, x, data);
      case Chunk(choice, usage, model) =>
        match choice
        case BadChoice => RawChunkCodes(h, x1, data);
        case NoChoice => LiftTailCodes(h, x1, usage, model);
        case Choice(delta, finish) =>
          OnChoiceCodes(h, x1, delta, finish, data);
          LiftTailCodes(h, OnChoice(h, x1, delta, finish, data).0, usage, model);
    }
  }

  /** The codes of everything below the event handler. */
  predicate Mild(x: Ctx, r: (Ctx, int))
  {
    r.1 in {0, STREAM_CANCEL, -1} && r.0.done == x.done && (r.1 == -1 ==> r.0.err != Ok)
  }

  lemma {:induction false} RawChunkCodes(h: Hooks, x: Ctx, data: seq<Byte>)
    ensures Mild(x, RawChunk(h, x, data))
  {
  }

  lemma {:induction false} LiftTailCodes(h: Hooks, x: Ctx, usage: Option<Usage>, model: Option<seq<Byte>>)
    ensures Mild(x, LiftTail(h, x, usage, model))
  {
  }

  lemma {:induction false} OnChoiceCodes(h: Hooks, x: Ctx, delta: Option<Delta>, finish: Option<seq<Byte>>,
                                         data: seq<Byte>)
    ensures Mild(x, OnChoice(h, x, delta, finish, data))
  {
    if delta.Some? {
      OnDeltaCodes(h, x, delta.value, data);
    }
  }

  lemma {:induction false} OnDeltaCodes(h: Hooks, x: Ctx, d: Delta, data: seq<Byte>)
    ensures Mild(x, OnDeltaObject(h, x, d, data))
  {
    DeliverSomeCodes(h, x, Text, d.content);
    var x1 := DeliverSome(h, x, Text, d.content).0;
    DeliverSomeCodes(h, x1, Reasoning, d.reasoning);
    RawChunkCodes(h, DeliverSome(h, x1, Reasoning, d.reasoning).0, data);
  }

  lemma {:induction false} DeliverSomeCodes(h: Hooks, x: Ctx, target: Target, bytes: Option<seq<Byte>>)
    ensures Mild(x, DeliverSome(h, x, target, bytes))
  {
  }

  /** The same of a list of events. */
  lemma {:induction false} DeliverCodes(h: Hooks, trip: nat, x: Ctx, events: seq<seq<Byte>>)
    requires !x.done
    ensures var (x', rc) := SseReference.Deliver(ParserEnv(h, trip).onEvent, x, events);
            && rc in {0, STREAM_STOP, STREAM_CANCEL, -1}
            && x'.done == (rc == STREAM_STOP)
            && (rc == -1 ==> x'.err != Ok)
    decreases |events|
  {
    if events != [] {
      OnEventCodes(h, x, events[0]);
      var (x1, rc1) := OnEvent(h, x, events[0]);
      if rc1 == 0 {
        DeliverCodes(h, trip, x1, events[1..]);
      }
    }
  }

  /** A feed that nothing stopped has not seen [DONE]. */
  lemma {:induction false} QuietIsNotDone(lim: Limits, h: Hooks, w: Wire, trip: nat, r: Content, log: seq<Call>,
                                          allocs: nat)
    ensures var fed := FeedStream(lim, h, w, trip, r, log, allocs);
            fed.rc == 0 ==> !fed.ctx.done
  {
    var env := ParserEnv(h, trip);
    var inv := (x: Ctx) => !x.done;
    forall x: Ctx, d: seq<Byte> | inv(x) && env.onEvent(x, d).1 == 0
      ensures inv(env.onEvent(x, d).0)
    {
      OnEventCodes(h, x, d);
    }
    Sse.FeedAllKeepsQuietly(env, inv, Sse.Init(lim.maxEvent), NewCtx(trip, r, log, allocs), ChunksOf(w));
  }

  /** What the events of a body make of a round trip. */
  function EventsEnd(seen: Seen<Ctx>): (e: End)
  {
    if seen.rc == STREAM_CANCEL then End(TransportCancelled, BodyOk, Ok)
    else if seen.rc == -1 then
      if seen.ctx.err == NoMem || seen.err == NoMem then End(TransportOk, BodyOk, NoMem)
      else End(TransportOk, BodyTooBig, Ok)
    else if seen.ctx.done || seen.ctx.r.finishRaw.Some? then End(TransportOk, BodyOk, Ok)
    else End(TransportOk, if seen.ctx.sawEvent then BodyMalformed else BodyEmpty, Ok)
  }

  function EventsOutcome(w: Wire, seen: Seen<Ctx>): (o: Outcome)
  {
    var e, x := EventsEnd(seen), seen.ctx;
    Outcome(e.ts, HttpOf(w), e.body, RetryAfterOf(HeadersOf(w)), x.delivered, e.terminal, x.r, x.log, x.allocs)
  }

  /** The response arrives whole and well. */
  predicate CleanWire(w: Wire)
  {
    w.Response? && w.ts == TransportOk && 200 <= w.httpStatus <= 299
  }

  /** The caller of the handler sees the batch meaning of the body. */
  ghost function SeenOf(lim: Limits, h: Hooks, w: Wire, trip: nat, r: Content, log: seq<Call>, allocs: nat)
    : (s: Seen<Ctx>)
  {
    Expect(ParserEnv(h, trip), NewCtx(trip, r, log, allocs), BatchOf(lim.maxEvent, Concat(ChunksOf(w))))
  }

  lemma {:induction false} SeenCodes(lim: Limits, h: Hooks, w: Wire, trip: nat, r: Content, log: seq<Call>, allocs: nat)
    ensures var seen := SeenOf(lim, h, w, trip, r, log, allocs);
            && seen.rc in {0, STREAM_STOP, STREAM_CANCEL, -1}
            && seen.ctx.done == (seen.rc == STREAM_STOP)
  {
    DeliverCodes(h, trip, NewCtx(trip, r, log, allocs), BatchOf(lim.maxEvent, Concat(ChunksOf(w))).events);
  }

  lemma {:induction false} AbortedIsBatch(h: Hooks, w: Wire, trip: nat, fed: Sse.Out<Ctx>)
    requires CleanWire(w) && Sse.Valid(fed.p) && fed.rc in {STREAM_STOP, STREAM_CANCEL, -1}
    requires fed.ctx.done == (fed.rc == STREAM_STOP)
    ensures var o := ConcludeStream(h, trip, AbortedBySink, HttpOf(w), HeadersOf(w), fed);
            var want := EventsOutcome(w, Observe(fed));
            o == want.(ts := o.ts) && (want.terminal == Ok ==> o == want)
  {
  }

  lemma {:induction false} FinishedIsBatch(h: Hooks, w: Wire, trip: nat, fed: Sse.Out<Ctx>)
    requires CleanWire(w) && Sse.Valid(fed.p) && fed.rc == 0 && !fed.ctx.done
    ensures var f := Sse.Finish(ParserEnv(h, trip), fed.p, fed.ctx);
            f.rc in {0, STREAM_STOP, STREAM_CANCEL, -1} && f.ctx.done == (f.rc == STREAM_STOP) ==>
              ConcludeStream(h, trip, w.ts, HttpOf(w), HeadersOf(w), fed) == EventsOutcome(w, Observe(f))
  {
  }

  /** Over a clean wire, with memory for the parser, a streamed round trip is what
      the batch of its body's events makes of it, delivered one by one to the event
      handler.  (When memory ends it, only the transport status of the abort may
      differ.) */
  lemma {:induction false} StreamAttemptIsBatch(lim: Limits, h: Hooks, w: Wire, trip: nat, r: Content,
                                                log: seq<Call>, allocs: nat)
    requires CleanWire(w) && forall k :: h.parserAlloc(trip, k)
    requires !SilentlyDropped(lim.maxEvent, Concat(ChunksOf(w)))
    ensures var o := StreamAttempt(lim, h, w, trip, r, log, allocs);
            var want := EventsOutcome(w, SeenOf(lim, h, w, trip, r, log, allocs));
            o == want.(ts := o.ts) && (want.terminal == Ok ==> o == want)
  {
    var env, x0 := ParserEnv(h, trip), NewCtx(trip, r, log, allocs);
    StreamRefinesBatch(env, lim.maxEvent, x0, ChunksOf(w));
    SeenCodes(lim, h, w, trip, r, log, allocs);
    QuietIsNotDone(lim, h, w, trip, r, log, allocs);
    var fed := FeedStream(lim, h, w, trip, r, log, allocs);
    assert Observe(Sse.Stream(env, lim.maxEvent, x0, ChunksOf(w))) == SeenOf(lim, h, w, trip, r, log, allocs);
    if fed.rc != 0 {
      AbortedIsBatch(h, w, trip, fed);
    } else {
      FinishedIsBatch(h, w, trip, fed);
    }
  }
}
