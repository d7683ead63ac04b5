/** What one round trip returns, said of its response alone: the content, the callbacks
    and the verdict, streamed or not, and what becomes of every other response. */
module AttemptResults {
  import opened Bytes
  import opened Buf
  import opened StreamAssembly
  import opened Classify
  import opened Attempt
  import opened AttemptBatch
  import opened EventFolds
  import SseReference
  import Sse

  // ----- streamed -----

  /** The events of the body: payloads, and [DONE] with whatever follows if `ended`. */
  ghost predicate Streams(lim: Limits, w: Wire, ds: seq<seq<Byte>>, ended: bool, more: seq<seq<Byte>>)
  {
    var b := SseReference.BatchOf(lim.maxEvent, Concat(ChunksOf(w)));
    && b.events == ds + (if ended then [DONE] + more else []) && DONE !in ds
    && (!ended ==> b.status == Ok)
  }

  lemma {:induction false} DeliverUpTo<S>(cb: (S, seq<Byte>) -> (S, int), c: S, ds: seq<seq<Byte>>,
                                          more: seq<seq<Byte>>)
    ensures SseReference.Deliver(cb, c, ds + more) ==
            var (c1, rc) := SseReference.Deliver(cb, c, ds);
            if rc != 0 then (c1, rc) else SseReference.Deliver(cb, c1, more)
    decreases |ds|
  {
    if ds == [] {
      assert ds + more == more;
    } else {
      assert (ds + more)[0] == ds[0] && (ds + more)[1..] == ds[1..] + more;
      var (c1, rc) := cb(c, ds[0]);
      if rc == 0 {
        DeliverUpTo(cb, c1, ds[1..], more);
      }
    }
  }

  /** The context the events of a willing stream leave, and the code. */
  lemma {:induction false} SeenOfStream(lim: Limits, h: Hooks, w: Wire, trip: nat, r: Content, log: seq<Call>,
                                        allocs: nat, ds: seq<seq<Byte>>, ended: bool, more: seq<seq<Byte>>)
    returns (y: Ctx)
    requires Streams(lim, w, ds, ended, more) && Willing(h)
    requires HasRoom(h.accumulate, r.text, Texts(h, ds)) && HasRoom(h.accumulate, r.reasoning, Reasonings(h, ds))
    ensures AbsorbsAll(h, NewCtx(trip, r, log, allocs), ds, y)
    ensures SeenOf(lim, h, w, trip, r, log, allocs)
            == if ended then SseReference.Seen(y.(done := true), STREAM_STOP, Ok) else SseReference.Seen(y, 0, Ok)
  {
    var cb, x := ParserEnv(h, trip).onEvent, NewCtx(trip, r, log, allocs);
    EventsGoOn(h, trip, x, ds);
    EventsFold(h, trip, x, ds);
    y := SseReference.Deliver(cb, x, ds).0;
    if ended {
      DeliverUpTo(cb, x, ds, [DONE] + more);
      assert ([DONE] + more)[0] == DONE;
      assert SseReference.Deliver(cb, y, [DONE] + more) == (y.(done := true), STREAM_STOP);
    } else {
      assert ds + [] == ds;
    }
  }

  /** A streamed response that arrives whole and well, with willing callbacks, memory and
      room: the result and the callbacks are those its payloads before [DONE] say, and
      it is a usable body exactly if it had [DONE] or a finish reason; otherwise it is
      malformed or, without any chunk, empty. */
  lemma {:induction false} StreamResult(lim: Limits, h: Hooks, w: Wire, trip: nat, r: Content, log: seq<Call>,
                                        allocs: nat, ds: seq<seq<Byte>>, ended: bool, more: seq<seq<Byte>>)
    returns (y: Ctx)
    requires CleanWire(w) && forall k :: h.parserAlloc(trip, k)
    requires !SseReference.SilentlyDropped(lim.maxEvent, Concat(ChunksOf(w)))
    requires Streams(lim, w, ds, ended, more) && Willing(h)
    requires HasRoom(h.accumulate, r.text, Texts(h, ds)) && HasRoom(h.accumulate, r.reasoning, Reasonings(h, ds))
    ensures AbsorbsAll(h, NewCtx(trip, r, log, allocs), ds, y)
    ensures var o := StreamAttempt(lim, h, w, trip, r, log, allocs);
            && o.r == y.r && o.log == y.log
            && o.ts == TransportOk && o.terminal == Ok && o.httpStatus == w.httpStatus
            && o.body == (if ended || LastFinish(h, r.finishRaw, ds).Some? then BodyOk
                          else if SomeChunk(h, ds) then BodyMalformed else BodyEmpty)
  {
    y := SeenOfStream(lim, h, w, trip, r, log, allocs, ds, ended, more);
    StreamAttemptIsBatch(lim, h, w, trip, r, log, allocs);
  }

  /** A stream that nothing stopped, behind a transport that failed or a status outside
      2xx: the transport's status stands, and no verdict is passed on the body. */
  lemma {:induction false} UnusableStream(lim: Limits, h: Hooks, w: Wire, trip: nat, r: Content, log: seq<Call>,
                                          allocs: nat)
    requires w.ts != TransportOk || !(200 <= HttpOf(w) <= 299)
    requires w.ts != AbortedBySink && FeedStream(lim, h, w, trip, r, log, allocs).rc == 0
    ensures var o := StreamAttempt(lim, h, w, trip, r, log, allocs);
            o.ts == w.ts && o.body == BodyOk && o.terminal == (if w.ts == TransportNoMem then NoMem else Ok)
  {
  }

  /** A stream that its sink stopped, whatever the status and the transport: [DONE] is a
      success, a callback's stop a cancellation, want of memory ends the call, and
      everything else went over a cap. */
  lemma {:induction false} StoppedStream(lim: Limits, h: Hooks, w: Wire, trip: nat, r: Content, log: seq<Call>,
                                         allocs: nat)
    requires FeedStream(lim, h, w, trip, r, log, allocs).rc != 0
    ensures var fed := FeedStream(lim, h, w, trip, r, log, allocs);
            var o := StreamAttempt(lim, h, w, trip, r, log, allocs);
            var starved := fed.ctx.err == NoMem || fed.p.err == NoMem;
            && o.r == fed.ctx.r && o.log == fed.ctx.log && o.delivered == fed.ctx.delivered
            && (fed.ctx.done ==> o.ts == TransportOk && o.terminal == Ok)
            && (!fed.ctx.done && fed.rc == STREAM_CANCEL ==>
                  o.ts == TransportCancelled && o.body == BodyOk && o.terminal == Ok)
            && (!fed.ctx.done && fed.rc != STREAM_CANCEL ==>
                  if starved then o.ts == AbortedBySink && o.terminal == NoMem
                  else o.ts == TransportOk && o.body == BodyTooBig && o.terminal == Ok)
  {
  }

  // ----- not streamed -----

  /** The usage and model of a reply behind what is known. */
  function Known(r: Content, reply: Reply): (r': Content)
    requires reply.Reply?
  {
    var u := reply.usage;
    r.(usage := if u == None then r.usage
                else Usage(if u.value.prompt >= 0 then u.value.prompt else r.usage.prompt,
                           if u.value.completion >= 0 then u.value.completion else r.usage.completion,
                           if u.value.total >= 0 then u.value.total else r.usage.total),
       model := if r.model.Some? then r.model else reply.model)
  }

  predicate Usable(reply: Reply)
  {
    reply.Reply? && (reply.content.Some? || reply.toolCalls)
  }

  /** The body of a plain response arrives whole and within the cap. */
  predicate Arrives(lim: Limits, h: Hooks, w: Wire, trip: nat)
  {
    && !BodyStarves(lim, h, w, trip)
    && (lim.maxResponse == 0 || |Concat(ChunksOf(w))| <= lim.maxResponse)
  }

  lemma {:induction false} BodyArrives(lim: Limits, h: Hooks, w: Wire, trip: nat)
    requires Arrives(lim, h, w, trip)
    ensures Accumulate(h, trip, Empty(lim.maxResponse), ChunksOf(w), 0)
            == BufV(Concat(ChunksOf(w)), lim.maxResponse, Ok)
  {
    AccumulateIsConcat(h, trip, Empty(lim.maxResponse), ChunksOf(w), 0);
    assert [] + Concat(ChunksOf(w)) == Concat(ChunksOf(w));
  }

  lemma {:induction false} LiftFits(h: Hooks, x: Ctx, target: Target, bytes: Option<seq<Byte>>)
    requires (forall n :: h.alloc(n)) && HasRoom(true, Buffer(x, target), BytesOf(bytes))
    ensures var p := Lift(h, x, target, bytes);
            && p.body == BodyOk && p.status == Ok
            && p.x == WithBuffer(x, target, Longer(Buffer(x, target), BytesOf(bytes))).(allocs := p.x.allocs)
  {
    assert h.alloc(x.allocs);
    assert Buffer(x, target).bytes + [] == Buffer(x, target).bytes;
  }

  lemma {:induction false} FinishIsSet(h: Hooks, x: Ctx, raw: Option<seq<Byte>>) returns (x': Ctx)
    requires forall n :: h.alloc(n)
    ensures (x', 0) == SetFinish(h, x, raw)
    ensures x' == x.(r := x.r.(finishRaw := x'.r.finishRaw, finish := x'.r.finish), allocs := x'.allocs)
    ensures x'.r.finishRaw == (if raw.Some? then raw else x.r.finishRaw)
    ensures FinishFits(x.r.finishRaw, x.r.finish) ==> FinishFits(x'.r.finishRaw, x'.r.finish)
  {
    assert h.alloc(x.allocs);
    x' := SetFinish(h, x, raw).0;
    QuietFinish(h, x, raw);
  }

  lemma {:induction false} RestIsLifted(h: Hooks, x: Ctx, reply: Reply) returns (x': Ctx)
    requires (forall n :: h.alloc(n)) && reply.Reply?
    ensures (x', 0) == LiftTail(h, x, reply.usage, reply.model)
    ensures x' == x.(r := Known(x.r, reply), allocs := x'.allocs)
  {
    assert h.alloc(x.allocs);
    x' := LiftTail(h, x, reply.usage, reply.model).0;
  }

  lemma {:induction false} TailFits(h: Hooks, x: Ctx, reply: Reply)
    requires (forall n :: h.alloc(n)) && reply.Reply?
    ensures var p := ParseTail(h, x, reply);
            && p.body == BodyOk && p.status == Ok && p.x.log == x.log
            && p.x.r == Known(x.r, reply).(finishRaw := p.x.r.finishRaw, finish := p.x.r.finish)
            && p.x.r.finishRaw == (if reply.finish.Some? then reply.finish else x.r.finishRaw)
            && (FinishFits(x.r.finishRaw, x.r.finish) ==> FinishFits(p.x.r.finishRaw, p.x.r.finish))
  {
    var x1 := FinishIsSet(h, x, reply.finish);
    var x2 := RestIsLifted(h, x1, reply);
  }

  /** Parsing a usable body. */
  lemma {:induction false} ParseFits(h: Hooks, x: Ctx, body: seq<Byte>)
    requires (forall n :: h.alloc(n)) && body != [] && Usable(h.parseBody(body))
    requires HasRoom(true, x.r.text, BytesOf(h.parseBody(body).content))
    requires HasRoom(true, x.r.reasoning, BytesOf(h.parseBody(body).reasoning))
    ensures var p, reply := ParseBody(h, x, body), h.parseBody(body);
            && p.body == BodyOk && p.status == Ok && p.x.log == x.log
            && p.x.r == Known(x.r, reply).(
                 text := Longer(x.r.text, BytesOf(reply.content)),
                 reasoning := Longer(x.r.reasoning, BytesOf(reply.reasoning)),
                 finishRaw := p.x.r.finishRaw, finish := p.x.r.finish)
            && p.x.r.finishRaw == (if reply.finish.Some? then reply.finish else x.r.finishRaw)
            && (FinishFits(x.r.finishRaw, x.r.finish) ==> FinishFits(p.x.r.finishRaw, p.x.r.finish))
  {
    var reply := h.parseBody(body);
    LiftFits(h, x, Text, reply.content);
    var x1 := Lift(h, x, Text, reply.content).x;
    LiftFits(h, x1, Reasoning, reply.reasoning);
    TailFits(h, Lift(h, x1, Reasoning, reply.reasoning).x, reply);
  }

  /** A plain response that arrives whole and well, with memory and room: an empty body
      is empty, an unusable one malformed, and a usable reply fills the result with its
      members; the verbatim body is kept in all three cases, and no callback is made. */
  lemma {:induction false} PlainResult(lim: Limits, h: Hooks, w: Wire, trip: nat, r: Content, log: seq<Call>,
                                       allocs: nat)
    requires CleanWire(w) && Arrives(lim, h, w, trip) && forall n :: h.alloc(n)
    requires var reply := h.parseBody(Concat(ChunksOf(w)));
             Usable(reply) ==>
               HasRoom(true, r.text, BytesOf(reply.content)) && HasRoom(true, r.reasoning, BytesOf(reply.reasoning))
    ensures var o := PlainAttempt(lim, h, w, trip, r, log, allocs);
            var body := Concat(ChunksOf(w));
            var reply := h.parseBody(body);
            && o.ts == TransportOk && o.terminal == Ok && o.log == log && !o.delivered
            && o.r.rawBody == Some(body)
            && (body == [] ==> o.body == BodyEmpty && o.r == r.(rawBody := Some(body)))
            && (body != [] && !Usable(reply) ==> o.body == BodyMalformed && o.r == r.(rawBody := Some(body)))
            && (body != [] && Usable(reply) ==>
                  && o.body == BodyOk
                  && o.r == Known(r, reply).(
                       text := Longer(r.text, BytesOf(reply.content)),
                       reasoning := Longer(r.reasoning, BytesOf(reply.reasoning)),
                       finishRaw := o.r.finishRaw, finish := o.r.finish, rawBody := Some(body))
                  && o.r.finishRaw == (if reply.finish.Some? then reply.finish else r.finishRaw)
                  && (FinishFits(r.finishRaw, r.finish) ==> FinishFits(o.r.finishRaw, o.r.finish)))
  {
    BodyArrives(lim, h, w, trip);
    var body, x := Concat(ChunksOf(w)), NewCtx(trip, r, log, allocs);
    if body != [] && Usable(h.parseBody(body)) {
      ParseFits(h, x, body);
    }
    assert h.alloc(ParseBody(h, x, body).x.allocs);
  }

  /** Any other plain response leaves the result alone: over the cap it is too big,
      and otherwise the transport's status stands. */
  lemma {:induction false} UnusablePlain(lim: Limits, h: Hooks, w: Wire, trip: nat, r: Content, log: seq<Call>,
                                         allocs: nat)
    requires !BodyStarves(lim, h, w, trip) && w.ts != AbortedBySink
    ensures var o := PlainAttempt(lim, h, w, trip, r, log, allocs);
            && (!Arrives(lim, h, w, trip) ==>
                  o.ts == TransportOk && o.body == BodyTooBig && o.terminal == Ok && o.r == r)
            && (Arrives(lim, h, w, trip) && (w.ts != TransportOk || !(200 <= HttpOf(w) <= 299)) ==>
                  && o.ts == w.ts && o.body == BodyOk && o.r == r
                  && o.terminal == (if w.ts == TransportNoMem then NoMem else Ok))
  {
    AccumulateIsConcat(h, trip, Empty(lim.maxResponse), ChunksOf(w), 0);
    assert [] + Concat(ChunksOf(w)) == Concat(ChunksOf(w));
  }
}
