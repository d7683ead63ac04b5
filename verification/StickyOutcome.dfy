/** What a failed buffer means for the outcome of later round trips: a trip that tries
    to fill it ends there, and for any other trip it makes no difference. */
module StickyOutcome {
  import opened Bytes
  import Buf
  import opened StreamAssembly
  import opened Classify
  import opened Attempt
  import opened AttemptBatch
  import opened EngineSticky
  import opened SseReference

  // ----- streamed -----

  predicate HasBytes(bytes: Option<seq<Byte>>)
  {
    bytes.Some? && bytes.value != []
  }

  /** The handler comes to hand bytes of this event to the buffer. */
  predicate Attempts(h: Hooks, x: Ctx, data: seq<Byte>, target: Target)
  {
    data != DONE && h.parse(data).Chunk? && h.parse(data).choice.Choice? &&
    var d := h.parse(data).choice.delta;
    d.Some? &&
    match target
    case Text => HasBytes(d.value.content)
    case Reasoning =>
      HasBytes(d.value.reasoning) && DeliverSome(h, x.(sawEvent := true), Text, d.value.content).1 == 0
  }

  /** One of the events does, before any event stops the stream. */
  predicate Tries(h: Hooks, x: Ctx, events: seq<seq<Byte>>, target: Target)
    decreases |events|
  {
    events != [] &&
    (|| Attempts(h, x, events[0], target)
     || (OnEvent(h, x, events[0]).1 == 0 && Tries(h, OnEvent(h, x, events[0]).0, events[1..], target)))
  }

  /** On a buffer that has failed such an event fails. */
  lemma {:induction false} AttemptFails(h: Hooks, x: Ctx, data: seq<Byte>, target: Target)
    requires h.accumulate && Attempts(h, x, data, target) && Buffer(x, target).err != Ok
    ensures var (x', rc) := OnEvent(h, x, data);
            && rc == -1 && x'.err == Buffer(x, target).err
            && (target == Text ==> x'.log == x.log && x'.delivered == x.delivered)
  {
  }

  lemma {:induction false} EventsFail(h: Hooks, trip: nat, x: Ctx, events: seq<seq<Byte>>, target: Target)
    requires h.accumulate && Buffer(x, target).err != Ok && Buffer(x, target).bytes == []
    requires Tries(h, x, events, target)
    ensures var (x', rc) := SseReference.Deliver(ParserEnv(h, trip).onEvent, x, events);
            rc == -1 && x'.err == Buffer(x, target).err
    decreases |events|
  {
    if Attempts(h, x, events[0], target) {
      AttemptFails(h, x, events[0], target);
    } else {
      OnEventMuted(h, target, Buffer(x, target).err, Heard(x.log, KindOf(target)), x, events[0]);
      EventsFail(h, trip, OnEvent(h, x, events[0]).0, events[1..], target);
    }
  }

  /** The events of a body, by the batch definition. */
  ghost function EventsOf(lim: Limits, w: Wire): (events: seq<seq<Byte>>)
  {
    BatchOf(lim.maxEvent, Concat(ChunksOf(w))).events
  }

  /** A streamed round trip over a clean wire that tries to fill a buffer which hit its
      cap earlier in the call ends TOOBIG, whatever its size. */
  lemma {:induction false} StreamEndsTooBig(lim: Limits, h: Hooks, w: Wire, trip: nat, r: Content, log: seq<Call>,
                                            allocs: nat, target: Target)
    requires h.accumulate && BufferOf(r, target).err == TooBig && BufferOf(r, target).bytes == []
    requires CleanWire(w) && forall k :: h.parserAlloc(trip, k)
    requires !SilentlyDropped(lim.maxEvent, Concat(ChunksOf(w)))
    requires Tries(h, NewCtx(trip, r, log, allocs), EventsOf(lim, w), target)
    ensures var o := StreamAttempt(lim, h, w, trip, r, log, allocs);
            o.ts == TransportOk && o.body == BodyTooBig && o.terminal == Ok
  {
    StreamAttemptIsBatch(lim, h, w, trip, r, log, allocs);
    EventsFail(h, trip, NewCtx(trip, r, log, allocs), EventsOf(lim, w), target);
  }

  // ----- the converse: no attempt, no difference -----

  /** A result with another state of one buffer. */
  function Put(r: Content, target: Target, b: Buf.BufV): (r': Content)
  {
    match target
    case Text => r.(text := b)
    case Reasoning => r.(reasoning := b)
  }

  /** A step from the context with the other buffer state is the step with it. */
  predicate Commutes(a: (Ctx, int), a': (Ctx, int), target: Target, b: Buf.BufV)
  {
    a' == (WithBuffer(a.0, target, b), a.1)
  }

  lemma {:induction false} DeliverCommutes(h: Hooks, x: Ctx, target: Target, b: Buf.BufV, other: Target,
                                           bytes: Option<seq<Byte>>)
    requires other == target ==> !HasBytes(bytes)
    ensures Commutes(DeliverSome(h, x, other, bytes), DeliverSome(h, WithBuffer(x, target, b), other, bytes), target, b)
  {
    match target
    case Text =>
    case Reasoning =>
  }

  lemma {:induction false} RawChunkCommutes(h: Hooks, x: Ctx, target: Target, b: Buf.BufV, data: seq<Byte>)
    ensures Commutes(RawChunk(h, x, data), RawChunk(h, WithBuffer(x, target, b), data), target, b)
  {
    match target
    case Text =>
    case Reasoning =>
  }

  lemma {:induction false} SetFinishCommutes(h: Hooks, x: Ctx, target: Target, b: Buf.BufV, raw: Option<seq<Byte>>)
    ensures Commutes(SetFinish(h, x, raw), SetFinish(h, WithBuffer(x, target, b), raw), target, b)
  {
    match target
    case Text =>
    case Reasoning =>
  }

  lemma {:induction false} LiftTailCommutes(h: Hooks, x: Ctx, target: Target, b: Buf.BufV, usage: Option<Usage>,
                                            model: Option<seq<Byte>>)
    ensures Commutes(LiftTail(h, x, usage, model), LiftTail(h, WithBuffer(x, target, b), usage, model), target, b)
  {
    match target
    case Text =>
    case Reasoning =>
  }

  lemma {:induction false} OnDeltaCommutes(h: Hooks, x: Ctx, target: Target, b: Buf.BufV, d: Delta, data: seq<Byte>)
    requires target == Text ==> !HasBytes(d.content)
    requires target == Reasoning && HasBytes(d.reasoning) ==> DeliverSome(h, x, Text, d.content).1 != 0
    ensures Commutes(OnDeltaObject(h, x, d, data), OnDeltaObject(h, WithBuffer(x, target, b), d, data), target, b)
  {
    DeliverCommutes(h, x, target, b, Text, d.content);
    var (x1, rc1) := DeliverSome(h, x, Text, d.content);
    if rc1 == 0 {
      DeliverCommutes(h, x1, target, b, Reasoning, d.reasoning);
      RawChunkCommutes(h, DeliverSome(h, x1, Reasoning, d.reasoning).0, target, b, data);
    }
  }

  lemma {:induction false} OnChoiceCommutes(h: Hooks, x: Ctx, target: Target, b: Buf.BufV, delta: Option<Delta>,
                                            finish: Option<seq<Byte>>, data: seq<Byte>)
    requires delta.Some? && target == Text ==> !HasBytes(delta.value.content)
    requires delta.Some? && target == Reasoning && HasBytes(delta.value.reasoning) ==>
               DeliverSome(h, x, Text, delta.value.content).1 != 0
    ensures Commutes(OnChoice(h, x, delta, finish, data), OnChoice(h, WithBuffer(x, target, b), delta, finish, data),
                     target, b)
  {
    if delta.Some? {
      OnDeltaCommutes(h, x, target, b, delta.value, data);
      SetFinishCommutes(h, OnDeltaObject(h, x, delta.value, data).0, target, b, finish);
    } else {
      SetFinishCommutes(h, x, target, b, finish);
    }
  }

  /** An event that makes no attempt on the buffer does the same whatever its state. */
  lemma {:induction false} OnEventCommutes(h: Hooks, x: Ctx, target: Target, b: Buf.BufV, data: seq<Byte>)
    requires !Attempts(h, x, data, target)
    ensures Commutes(OnEvent(h, x, data), OnEvent(h, WithBuffer(x, target, b), data), target, b)
  {
    var x1 := x.(sawEvent := true);
    assert WithBuffer(x, target, b).(sawEvent := true) == WithBuffer(x1, target, b);
    assert WithBuffer(x, target, b).(done := true) == WithBuffer(x.(done := true), target, b);
    if data != DONE {
      match h.parse(data)
      case Unparseable => RawChunkCommutes(h, x, target, b, data);
      case Unmodeled => RawChunkCommutes(h, x, target, b, data);
      case Chunk(choice, usage, model) =>
        match choice
        case BadChoice => RawChunkCommutes(h, x1, target, b, data);
        case NoChoice => LiftTailCommutes(h, x1, target, b, usage, model);
        case Choice(delta, finish) =>
          OnChoiceCommutes(h, x1, target, b, delta, finish, data);
          LiftTailCommutes(h, OnChoice(h, x1, delta, finish, data).0, target, b, usage, model);
    }
  }

  lemma {:induction false} EventsCommute(h: Hooks, trip: nat, x: Ctx, target: Target, b: Buf.BufV,
                                         events: seq<seq<Byte>>)
    requires !Tries(h, x, events, target)
    ensures Commutes(SseReference.Deliver(ParserEnv(h, trip).onEvent, x, events),
                     SseReference.Deliver(ParserEnv(h, trip).onEvent, WithBuffer(x, target, b), events), target, b)
    decreases |events|
  {
    if events != [] {
      OnEventCommutes(h, x, target, b, events[0]);
      var (x1, rc) := OnEvent(h, x, events[0]);
      if rc == 0 {
        EventsCommute(h, trip, x1, target, b, events[1..]);
      }
    }
  }

  lemma {:induction false} EndsCommute(w: Wire, seen: Seen<Ctx>, target: Target, b: Buf.BufV)
    ensures var o := EventsOutcome(w, seen);
            EventsOutcome(w, seen.(ctx := WithBuffer(seen.ctx, target, b))) == o.(r := Put(o.r, target, b))
  {
    match target
    case Text =>
    case Reasoning =>
  }

  /** A streamed round trip over a clean wire that makes no attempt on a buffer has the
      outcome it has on any other state of that buffer, a fresh one included: transport
      status, body state, delivered flag, callbacks and the rest of the content; the
      buffer stays as it was.  (When memory ends it, only the transport status of the
      abort may differ.) */
  lemma {:induction false} StreamUnaffected(lim: Limits, h: Hooks, w: Wire, trip: nat, r: Content, log: seq<Call>,
                                            allocs: nat, target: Target, b: Buf.BufV)
    requires CleanWire(w) && forall k :: h.parserAlloc(trip, k)
    requires !SilentlyDropped(lim.maxEvent, Concat(ChunksOf(w)))
    requires !Tries(h, NewCtx(trip, r, log, allocs), EventsOf(lim, w), target)
    ensures var o := StreamAttempt(lim, h, w, trip, r, log, allocs);
            var o' := StreamAttempt(lim, h, w, trip, Put(r, target, b), log, allocs);
            o' == o.(r := Put(o.r, target, b), ts := o'.ts) && (o.terminal == Ok ==> o.ts == o'.ts)
  {
    var x := NewCtx(trip, r, log, allocs);
    SwappedStart(trip, r, log, allocs, target, b);
    EventsCommute(h, trip, x, target, b, EventsOf(lim, w));
    StreamAttemptIsBatch(lim, h, w, trip, r, log, allocs);
    StreamAttemptIsBatch(lim, h, w, trip, Put(r, target, b), log, allocs);
    var seen := SeenOf(lim, h, w, trip, r, log, allocs);
    assert SeenOf(lim, h, w, trip, Put(r, target, b), log, allocs) == seen.(ctx := WithBuffer(seen.ctx, target, b));
    EndsCommute(w, seen, target, b);
  }

  lemma {:induction false} SwappedStart(trip: nat, r: Content, log: seq<Call>, allocs: nat, target: Target, b: Buf.BufV)
    ensures NewCtx(trip, Put(r, target, b), log, allocs) == WithBuffer(NewCtx(trip, r, log, allocs), target, b)
  {
  }

  // ----- not streamed -----

  /** Parsing the body comes to append a member of the reply to the buffer. */
  predicate Fills(h: Hooks, x: Ctx, body: seq<Byte>, target: Target)
  {
    body != [] && h.parseBody(body).Reply? &&
    var reply := h.parseBody(body);
    (reply.content.Some? || reply.toolCalls) &&
    match target
    case Text => reply.content.Some?
    case Reasoning => reply.reasoning.Some? && Lift(h, x, Text, reply.content).body == BodyOk
  }

  /** A round trip that is not streamed and tries to fill a buffer which hit its cap
      earlier in the call ends TOOBIG. */
  lemma {:induction false} PlainEndsTooBig(lim: Limits, h: Hooks, w: Wire, trip: nat, r: Content, log: seq<Call>,
                                           allocs: nat, target: Target)
    requires BufferOf(r, target).err == TooBig
    requires CleanWire(w) && !BodyStarves(lim, h, w, trip)
    requires Fills(h, NewCtx(trip, r, log, allocs), Concat(ChunksOf(w)), target)
    ensures var o := PlainAttempt(lim, h, w, trip, r, log, allocs);
            o.ts == TransportOk && o.body == BodyTooBig && o.terminal == Ok
  {
    AccumulateIsConcat(h, trip, Buf.Empty(lim.maxResponse), ChunksOf(w), 0);
    assert [] + Concat(ChunksOf(w)) == Concat(ChunksOf(w));
  }

  predicate ParsedCommutes(p: Parsed, p': Parsed, target: Target, b: Buf.BufV)
  {
    p' == p.(x := WithBuffer(p.x, target, b))
  }

  lemma {:induction false} LiftCommutes(h: Hooks, x: Ctx, target: Target, b: Buf.BufV, other: Target,
                                        bytes: Option<seq<Byte>>)
    requires other == target ==> bytes == None
    ensures ParsedCommutes(Lift(h, x, other, bytes), Lift(h, WithBuffer(x, target, b), other, bytes), target, b)
  {
    match target
    case Text =>
    case Reasoning =>
  }

  lemma {:induction false} ParseTailCommutes(h: Hooks, x: Ctx, target: Target, b: Buf.BufV, reply: Reply)
    requires reply.Reply?
    ensures ParsedCommutes(ParseTail(h, x, reply), ParseTail(h, WithBuffer(x, target, b), reply), target, b)
  {
    SetFinishCommutes(h, x, target, b, reply.finish);
    LiftTailCommutes(h, SetFinish(h, x, reply.finish).0, target, b, reply.usage, reply.model);
  }

  lemma {:induction false} ParseBodyCommutes(h: Hooks, x: Ctx, target: Target, b: Buf.BufV, body: seq<Byte>)
    requires !Fills(h, x, body, target)
    ensures ParsedCommutes(ParseBody(h, x, body), ParseBody(h, WithBuffer(x, target, b), body), target, b)
  {
    var reply := h.parseBody(body);
    if body != [] && reply.Reply? && (reply.content.Some? || reply.toolCalls) {
      LiftCommutes(h, x, target, b, Text, reply.content);
      var p1 := Lift(h, x, Text, reply.content);
      if p1.body == BodyOk {
        LiftCommutes(h, p1.x, target, b, Reasoning, reply.reasoning);
        ParseTailCommutes(h, Lift(h, p1.x, Reasoning, reply.reasoning).x, target, b, reply);
      }
    }
  }

  lemma {:induction false} FinishBodyCommutes(h: Hooks, x: Ctx, target: Target, b: Buf.BufV, body: Buf.BufV,
                                              stored: bool)
    requires !Fills(h, x, body.bytes, target)
    ensures var (e, x') := FinishBody(h, x, body, stored);
            FinishBody(h, WithBuffer(x, target, b), body, stored) == (e, WithBuffer(x', target, b))
  {
    ParseBodyCommutes(h, x, target, b, body.bytes);
    match target
    case Text =>
    case Reasoning =>
  }

  /** A round trip that is not streamed and makes no attempt on a buffer has the outcome
      it has on any other state of that buffer, whatever the wire does; the buffer stays
      as it was. */
  lemma {:induction false} PlainUnaffected(lim: Limits, h: Hooks, w: Wire, trip: nat, r: Content, log: seq<Call>,
                                           allocs: nat, target: Target, b: Buf.BufV)
    requires !Fills(h, NewCtx(trip, r, log, allocs), Concat(ChunksOf(w)), target)
    ensures var o := PlainAttempt(lim, h, w, trip, r, log, allocs);
            PlainAttempt(lim, h, w, trip, Put(r, target, b), log, allocs) == o.(r := Put(o.r, target, b))
  {
    var x := NewCtx(trip, r, log, allocs);
    var body := Accumulate(h, trip, Buf.Empty(lim.maxResponse), ChunksOf(w), 0);
    AccumulateIsConcat(h, trip, Buf.Empty(lim.maxResponse), ChunksOf(w), 0);
    assert [] + Concat(ChunksOf(w)) == Concat(ChunksOf(w));
    SwappedStart(trip, r, log, allocs, target, b);
    ConcludeCommutes(h, if body.err != Ok then AbortedBySink else w.ts, w, body, x, target, b);
  }

  lemma {:induction false} ConcludeCommutes(h: Hooks, ts: Transport, w: Wire, body: Buf.BufV, x: Ctx,
                                            target: Target, b: Buf.BufV)
    requires body.err == Ok ==> !Fills(h, x, body.bytes, target)
    requires body.err != Ok ==> ts == AbortedBySink
    ensures var o := ConcludePlain(h, ts, HttpOf(w), HeadersOf(w), body, ChunksOf(w) != [], x);
            ConcludePlain(h, ts, HttpOf(w), HeadersOf(w), body, ChunksOf(w) != [], WithBuffer(x, target, b))
            == o.(r := Put(o.r, target, b))
  {
    if body.err == Ok {
      FinishBodyCommutes(h, x, target, b, body, ChunksOf(w) != []);
    }
  }
}
