/** What want of memory does to one round trip: exactly which allocations it needs, and
    that the refusal of one of them ends the call. */
module AttemptMemory {
  import opened Bytes
  import opened Buf
  import opened StreamAssembly
  import opened Classify
  import opened Attempt
  import opened AttemptBatch
  import opened EventFolds
  import opened AttemptResults
  import SseReference

  /** The allocator's answers from the from-th on. */
  predicate Granted(h: Hooks, from: nat, n: nat)
  {
    forall k :: from <= k < from + n ==> h.alloc(k)
  }

  lemma {:induction false} GrantedSplit(h: Hooks, from: nat, m: nat, n: nat)
    ensures Granted(h, from, m + n) <==> Granted(h, from, m) && Granted(h, from + m, n)
  {
  }

  // ----- streamed -----

  /** No buffer has failed. */
  predicate Sound(x: Ctx)
  {
    x.err == Ok && x.r.text.err == Ok && x.r.reasoning.err == Ok && x.lastRaw.err == Ok && x.lastRaw.max == 2048
  }

  /** Text or reasoning went over its cap. */
  predicate OverCap(x: Ctx)
  {
    x.r.text.err == TooBig || x.r.reasoning.err == TooBig
  }

  /** What handling a payload asks of memory: it goes on only if everything it asked for
      was granted, and fails only on a cap or, leaving NOMEM, on its last request. */
  ghost predicate Pays(h: Hooks, x: Ctx, r: (Ctx, int))
  {
    && x.allocs <= r.0.allocs
    && if r.1 != -1 then Sound(r.0) && Granted(h, x.allocs, r.0.allocs - x.allocs)
       else if OverCap(r.0) then r.0.err == TooBig
       else r.0.err == NoMem && x.allocs < r.0.allocs && !h.alloc(r.0.allocs - 1)
  }

  lemma {:induction false} PaysTwice(h: Hooks, x: Ctx, x1: Ctx, r: (Ctx, int))
    requires Pays(h, x, (x1, 0)) && Pays(h, x1, r)
    ensures Pays(h, x, r)
  {
    if r.1 != -1 {
      GrantedSplit(h, x.allocs, x1.allocs - x.allocs, r.0.allocs - x1.allocs);
    }
  }

  lemma {:induction false} DeliverPays(h: Hooks, x: Ctx, target: Target, bytes: Option<seq<Byte>>)
    requires Sound(x)
    ensures Pays(h, x, DeliverSome(h, x, target, bytes))
  {
    match target
    case Text =>
    case Reasoning =>
  }

  lemma {:induction false} RawPays(h: Hooks, x: Ctx, d: seq<Byte>)
    requires Sound(x)
    ensures Pays(h, x, RawChunk(h, x, d))
  {
  }

  lemma {:induction false} FinishPays(h: Hooks, x: Ctx, raw: Option<seq<Byte>>)
    requires Sound(x)
    ensures Pays(h, x, SetFinish(h, x, raw))
  {
  }

  lemma {:induction false} TailPays(h: Hooks, x: Ctx, usage: Option<Usage>, model: Option<seq<Byte>>)
    requires Sound(x)
    ensures Pays(h, x, LiftTail(h, x, usage, model))
  {
  }

  lemma {:induction false} DeltaPays(h: Hooks, x: Ctx, delta: Delta, d: seq<Byte>)
    requires Sound(x)
    ensures Pays(h, x, OnDeltaObject(h, x, delta, d))
  {
    DeliverPays(h, x, Text, delta.content);
    var (x1, rc1) := DeliverSome(h, x, Text, delta.content);
    if rc1 == 0 {
      DeliverPays(h, x1, Reasoning, delta.reasoning);
      var r := DeliverSome(h, x1, Reasoning, delta.reasoning);
      PaysTwice(h, x, x1, r);
      if r.1 == 0 && delta.toolCalls {
        RawPays(h, r.0, d);
        PaysTwice(h, x, r.0, RawChunk(h, r.0, d));
      }
    }
  }

  lemma {:induction false} ChoicePays(h: Hooks, x: Ctx, delta: Option<Delta>, finish: Option<seq<Byte>>, d: seq<Byte>)
    requires Sound(x)
    ensures Pays(h, x, OnChoice(h, x, delta, finish, d))
  {
    if delta.Some? {
      DeltaPays(h, x, delta.value, d);
      var (x1, rc1) := OnDeltaObject(h, x, delta.value, d);
      if rc1 == 0 {
        FinishPays(h, x1, finish);
        PaysTwice(h, x, x1, SetFinish(h, x1, finish));
      }
    } else {
      FinishPays(h, x, finish);
    }
  }

  lemma {:induction false} ChunkPays(h: Hooks, x: Ctx, delta: Option<Delta>, finish: Option<seq<Byte>>,
                                     d: seq<Byte>, usage: Option<Usage>, model: Option<seq<Byte>>)
    requires Sound(x)
    ensures var (x1, rc1) := OnChoice(h, x, delta, finish, d);
            Pays(h, x, if rc1 != 0 then (x1, rc1) else LiftTail(h, x1, usage, model))
  {
    ChoicePays(h, x, delta, finish, d);
    var (x1, rc1) := OnChoice(h, x, delta, finish, d);
    if rc1 == 0 {
      TailPays(h, x1, usage, model);
      PaysTwice(h, x, x1, LiftTail(h, x1, usage, model));
    }
  }

  lemma {:induction false} ModelledPays(h: Hooks, x: Ctx, d: seq<Byte>)
    requires Sound(x) && IsModelled(h, d) && d != DONE
    ensures Pays(h, x.(sawEvent := true), OnEvent(h, x, d))
  {
    var y, p := x.(sawEvent := true), h.parse(d);
    if p.choice.Choice? {
      ChunkPays(h, y, p.choice.delta, p.choice.finish, d, p.usage, p.model);
    } else {
      TailPays(h, y, p.usage, p.model);
    }
  }

  /** One event. */
  lemma {:induction false} OnEventPays(h: Hooks, x: Ctx, d: seq<Byte>)
    requires Sound(x)
    ensures Pays(h, x, OnEvent(h, x, d))
  {
    if d != DONE {
      if IsModelled(h, d) {
        ModelledPays(h, x, d);
      } else if IsChunk(h, d) {
        RawPays(h, x.(sawEvent := true), d);
      } else {
        RawPays(h, x, d);
      }
    }
  }

  /** A list of events. */
  lemma {:induction false} EventsPay(h: Hooks, trip: nat, x: Ctx, ds: seq<seq<Byte>>)
    requires Sound(x)
    ensures Pays(h, x, SseReference.Deliver(ParserEnv(h, trip).onEvent, x, ds))
    decreases |ds|
  {
    if ds != [] {
      OnEventPays(h, x, ds[0]);
      var (x1, rc) := OnEvent(h, x, ds[0]);
      if rc == 0 {
        EventsPay(h, trip, x1, ds[1..]);
        PaysTwice(h, x, x1, SseReference.Deliver(ParserEnv(h, trip).onEvent, x1, ds[1..]));
      }
    }
  }

  /** The verdict on a body whose events were delivered with code rc. */
  lemma {:induction false} VerdictPays(h: Hooks, w: Wire, x: Ctx, rc: int, seen: SseReference.Seen<Ctx>)
    requires Pays(h, x, (seen.ctx, rc)) && seen.err != NoMem
    requires seen.rc == rc || (rc == 0 && seen.rc == -1)
    ensures var o, y := EventsOutcome(w, seen), seen.ctx;
            && o.terminal in {Ok, NoMem}
            && (o.terminal == NoMem <==> !Granted(h, x.allocs, y.allocs - x.allocs) && !OverCap(y))
  {
  }

  lemma {:induction false} BatchPays(h: Hooks, trip: nat, x: Ctx, w: Wire, max: nat, s: seq<Byte>,
                                     seen: SseReference.Seen<Ctx>)
    requires Sound(x) && seen == SseReference.Expect(ParserEnv(h, trip), x, SseReference.BatchOf(max, s))
    ensures var o, y := EventsOutcome(w, seen), seen.ctx;
            && o.terminal in {Ok, NoMem} && x.allocs <= y.allocs
            && (o.terminal == NoMem <==> !Granted(h, x.allocs, y.allocs - x.allocs) && !OverCap(y))
  {
    var b := SseReference.BatchOf(max, s);
    EventsPay(h, trip, x, b.events);
    SseReference.BatchNeverStarves(max, SseReference.Lines(SseReference.StripBom(s)) + [[]], None);
    VerdictPays(h, w, x, SseReference.Deliver(ParserEnv(h, trip).onEvent, x, b.events).1, seen);
  }

  /** A streamed response that arrives whole and well, over content that has not failed,
      with memory for the parser: it ends in NOMEM if and only if one of the allocations
      it asked for was refused and no cap was hit; otherwise the call goes on to judge
      it. */
  lemma {:induction false} StreamMemory(lim: Limits, h: Hooks, w: Wire, trip: nat, r: Content, log: seq<Call>,
                                        allocs: nat)
    requires CleanWire(w) && forall k :: h.parserAlloc(trip, k)
    requires !SseReference.SilentlyDropped(lim.maxEvent, Concat(ChunksOf(w)))
    requires r.text.err == Ok && r.reasoning.err == Ok
    ensures var o := StreamAttempt(lim, h, w, trip, r, log, allocs);
            && allocs <= o.allocs
            && (o.terminal == NoMem <==>
                  && !Granted(h, allocs, o.allocs - allocs)
                  && o.r.text.err != TooBig && o.r.reasoning.err != TooBig)
            && (o.terminal == NoMem || o.terminal == Ok)
  {
    StreamAttemptIsBatch(lim, h, w, trip, r, log, allocs);
    BatchPays(h, trip, NewCtx(trip, r, log, allocs), w, lim.maxEvent, Concat(ChunksOf(w)),
              SeenOf(lim, h, w, trip, r, log, allocs));
  }

  // ----- not streamed -----

  /** The allocations a usable reply asks for: its text, its reasoning, its finish reason
      and its model, as far as it has them. */
  function Asks(r: Content, reply: Reply): (n: nat)
    requires reply.Reply?
  {
    (if reply.content.Some? then 1 else 0) + (if reply.reasoning.Some? then 1 else 0)
    + (if reply.finish.Some? then 1 else 0) + (if reply.model.Some? && r.model.None? then 1 else 0)
  }

  lemma {:induction false} LiftAsks(h: Hooks, x: Ctx, target: Target, bytes: Option<seq<Byte>>)
    requires HasRoom(true, Buffer(x, target), BytesOf(bytes))
    ensures var p, n := Lift(h, x, target, bytes), if bytes.Some? then 1 else 0;
            if Granted(h, x.allocs, n) then p.body == BodyOk && p.status == Ok && p.x.allocs == x.allocs + n
            else p.body == BodyMalformed && p.status == NoMem
    ensures var p := Lift(h, x, target, bytes);
            (target == Text ==> p.x.r.reasoning == x.r.reasoning) && p.x.r.model == x.r.model
  {
    assert bytes.None? || (Granted(h, x.allocs, 1) <==> h.alloc(x.allocs));
  }

  lemma {:induction false} TailAsks(h: Hooks, x: Ctx, reply: Reply)
    requires reply.Reply?
    ensures var n := (if reply.finish.Some? then 1 else 0)
                     + (if reply.model.Some? && x.r.model.None? then 1 else 0);
            var p := ParseTail(h, x, reply);
            if Granted(h, x.allocs, n) then p.body == BodyOk && p.status == Ok
            else p.body == BodyMalformed && p.status == NoMem
  {
    assert Granted(h, x.allocs, 1) <==> h.alloc(x.allocs);
    assert Granted(h, x.allocs, 2) <==> h.alloc(x.allocs) && h.alloc(x.allocs + 1);
  }

  lemma {:induction false} ParseAsks(h: Hooks, x: Ctx, body: seq<Byte>)
    requires body != [] && Usable(h.parseBody(body))
    requires HasRoom(true, x.r.text, BytesOf(h.parseBody(body).content))
    requires HasRoom(true, x.r.reasoning, BytesOf(h.parseBody(body).reasoning))
    ensures var p := ParseBody(h, x, body);
            if Granted(h, x.allocs, Asks(x.r, h.parseBody(body))) then p.body == BodyOk && p.status == Ok
            else p.body == BodyMalformed && p.status == NoMem
  {
    var reply := h.parseBody(body);
    var a, b := if reply.content.Some? then 1 else 0, if reply.reasoning.Some? then 1 else 0;
    var rest := Asks(x.r, reply) - a - b;
    GrantedSplit(h, x.allocs, a, b + rest);
    GrantedSplit(h, x.allocs + a, b, rest);
    LiftAsks(h, x, Text, reply.content);
    var x1 := Lift(h, x, Text, reply.content).x;
    LiftAsks(h, x1, Reasoning, reply.reasoning);
    TailAsks(h, Lift(h, x1, Reasoning, reply.reasoning).x, reply);
  }

  /** A plain response that arrives whole and well with a usable reply and room for it
      ends in success if and only if every allocation the reply asks for is granted, and
      in NOMEM otherwise. */
  lemma {:induction false} PlainMemory(lim: Limits, h: Hooks, w: Wire, trip: nat, r: Content, log: seq<Call>,
                                       allocs: nat)
    requires CleanWire(w) && Arrives(lim, h, w, trip)
    requires var body := Concat(ChunksOf(w));
             && body != [] && Usable(h.parseBody(body))
             && HasRoom(true, r.text, BytesOf(h.parseBody(body).content))
             && HasRoom(true, r.reasoning, BytesOf(h.parseBody(body).reasoning))
    ensures var o := PlainAttempt(lim, h, w, trip, r, log, allocs);
            var granted := Granted(h, allocs, Asks(r, h.parseBody(Concat(ChunksOf(w)))));
            && o.terminal == (if granted then Ok else NoMem)
            && (granted ==> o.ts == TransportOk && o.body == BodyOk)
  {
    BodyArrives(lim, h, w, trip);
    ParseAsks(h, NewCtx(trip, r, log, allocs), Concat(ChunksOf(w)));
  }
}
