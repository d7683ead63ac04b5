/** Memory over whole calls: a call with enough of it never reports NOMEM. */
module EngineMemory {
  import opened Bytes
  import opened StreamAssembly
  import opened Classify
  import opened Attempt
  import opened Engine
  import opened EngineCall
  import Sse
  import SseReference
  import Buf

  /** Every allocation of the round trip is granted. */
  ghost predicate Ample(h: Hooks, trip: nat)
  {
    (forall n :: h.alloc(n)) && (forall n :: h.parserAlloc(trip, n))
  }

  /** No buffer of the result has failed but by its cap. */
  predicate Healthy(r: Content)
  {
    r.text.err in {Ok, TooBig} && r.reasoning.err in {Ok, TooBig}
  }

  predicate HealthyCtx(x: Ctx)
  {
    Healthy(x.r) && x.err != NoMem && x.lastRaw.err != NoMem
  }

  // ----- streamed -----

  lemma {:induction false} OnDeltaObjectHealthy(h: Hooks, x: Ctx, d: Delta, data: seq<Byte>)
    requires (forall n :: h.alloc(n)) && HealthyCtx(x)
    ensures HealthyCtx(OnDeltaObject(h, x, d, data).0)
  {
    DeliverHealthy(h, x, Text, d.content);
    var x1 := DeliverSome(h, x, Text, d.content).0;
    DeliverHealthy(h, x1, Reasoning, d.reasoning);
    RawChunkHealthy(h, DeliverSome(h, x1, Reasoning, d.reasoning).0, data);
  }

  lemma {:induction false} DeliverHealthy(h: Hooks, x: Ctx, target: Target, bytes: Option<seq<Byte>>)
    requires (forall n :: h.alloc(n)) && HealthyCtx(x)
    ensures HealthyCtx(DeliverSome(h, x, target, bytes).0)
  {
    assert h.alloc(x.allocs);
  }

  lemma {:induction false} RawChunkHealthy(h: Hooks, x: Ctx, data: seq<Byte>)
    requires (forall n :: h.alloc(n)) && HealthyCtx(x)
    ensures HealthyCtx(RawChunk(h, x, data).0)
  {
    assert h.alloc(x.allocs);
  }

  lemma {:induction false} SetFinishHealthy(h: Hooks, x: Ctx, raw: Option<seq<Byte>>)
    requires (forall n :: h.alloc(n)) && HealthyCtx(x)
    ensures HealthyCtx(SetFinish(h, x, raw).0) && SetFinish(h, x, raw).1 == 0
  {
    assert h.alloc(x.allocs);
  }

  lemma {:induction false} LiftTailHealthy(h: Hooks, x: Ctx, usage: Option<Usage>, model: Option<seq<Byte>>)
    requires (forall n :: h.alloc(n)) && HealthyCtx(x)
    ensures HealthyCtx(LiftTail(h, x, usage, model).0) && LiftTail(h, x, usage, model).1 == 0
  {
    assert h.alloc(x.allocs);
  }

  lemma {:induction false} OnChoiceHealthy(h: Hooks, x: Ctx, delta: Option<Delta>, finish: Option<seq<Byte>>,
                                           data: seq<Byte>)
    requires (forall n :: h.alloc(n)) && HealthyCtx(x)
    ensures HealthyCtx(OnChoice(h, x, delta, finish, data).0)
  {
    if delta.Some? {
      OnDeltaObjectHealthy(h, x, delta.value, data);
    }
    SetFinishHealthy(h, if delta.Some? then OnDeltaObject(h, x, delta.value, data).0 else x, finish);
  }

  lemma {:induction false} OnEventHealthy(h: Hooks, x: Ctx, data: seq<Byte>)
    requires (forall n :: h.alloc(n)) && HealthyCtx(x)
    ensures HealthyCtx(OnEvent(h, x, data).0)
  {
    if data != DONE {
      var x1 := x.(sawEvent := true);
      match h.parse(data)
      case Unparseable => RawChunkHealthy(h, x, data);
      case Unmodeled => RawChunkHealthy(h, x, data);
      case Chunk(choice, usage, model) =>
        match choice
        case BadChoice => RawChunkHealthy(h, x1, data);
        case NoChoice => LiftTailHealthy(h, x1, usage, model);
        case Choice(delta, finish) =>
          OnChoiceHealthy(h, x1, delta, finish, data);
          LiftTailHealthy(h, OnChoice(h, x1, delta, finish, data).0, usage, model);
    }
  }

  lemma {:induction false} HealthIsKept(h: Hooks, trip: nat)
    requires Ample(h, trip)
    ensures Sse.KeptByCallback(ParserEnv(h, trip), (x: Ctx) => HealthyCtx(x))
  {
    var env := ParserEnv(h, trip);
    forall x: Ctx, d: seq<Byte> | HealthyCtx(x)
      ensures HealthyCtx(env.onEvent(x, d).0)
    {
      OnEventHealthy(h, x, d);
    }
  }

  /** The contexts and the parser a streamed round trip ends with. */
  lemma {:induction false} StreamEndsHealthy(lim: Limits, h: Hooks, w: Wire, trip: nat, r: Content, log: seq<Call>,
                                             allocs: nat)
    requires Ample(h, trip) && Healthy(r)
    ensures var fed := FeedStream(lim, h, w, trip, r, log, allocs);
            var f := Sse.Finish(ParserEnv(h, trip), fed.p, fed.ctx);
            && HealthyCtx(fed.ctx) && HealthyCtx(f.ctx)
            && (fed.rc != 0 ==> fed.p.err != NoMem) && (fed.rc == 0 ==> f.p.err != NoMem)
  {
    var env, x0, inv := ParserEnv(h, trip), NewCtx(trip, r, log, allocs), (x: Ctx) => HealthyCtx(x);
    HealthIsKept(h, trip);
    Sse.FeedAllKeeps(env, inv, Sse.Init(lim.maxEvent), x0, ChunksOf(w));
    var fed := FeedStream(lim, h, w, trip, r, log, allocs);
    Sse.FinishKeeps(env, inv, fed.p, fed.ctx);
    assert SseReference.AllGranted(env);
    SseReference.CleanIsExact(env, lim.maxEvent, x0, ChunksOf(w));
  }

  lemma {:induction false} StreamIsHealthy(lim: Limits, h: Hooks, w: Wire, trip: nat, r: Content, log: seq<Call>,
                                           allocs: nat)
    requires Ample(h, trip) && Healthy(r) && w.ts != TransportNoMem
    ensures var o := StreamAttempt(lim, h, w, trip, r, log, allocs); o.terminal == Ok && Healthy(o.r)
  {
    StreamEndsHealthy(lim, h, w, trip, r, log, allocs);
  }

  // ----- not streamed -----

  lemma {:induction false} LiftHealthy(h: Hooks, x: Ctx, target: Target, bytes: Option<seq<Byte>>)
    requires (forall n :: h.alloc(n)) && HealthyCtx(x)
    ensures var p := Lift(h, x, target, bytes); p.status == Ok && HealthyCtx(p.x)
  {
    assert h.alloc(x.allocs);
  }

  lemma {:induction false} ParseBodyHealthy(h: Hooks, x: Ctx, body: seq<Byte>)
    requires (forall n :: h.alloc(n)) && HealthyCtx(x)
    ensures var p := ParseBody(h, x, body); p.status == Ok && HealthyCtx(p.x)
  {
    var reply := h.parseBody(body);
    if body != [] && reply.Reply? && (reply.content.Some? || reply.toolCalls) {
      LiftHealthy(h, x, Text, reply.content);
      var p1 := Lift(h, x, Text, reply.content);
      LiftHealthy(h, p1.x, Reasoning, reply.reasoning);
      TailHealthy(h, Lift(h, p1.x, Reasoning, reply.reasoning).x, reply);
    }
  }

  lemma {:induction false} TailHealthy(h: Hooks, x: Ctx, reply: Reply)
    requires (forall n :: h.alloc(n)) && HealthyCtx(x) && reply.Reply?
    ensures var p := ParseTail(h, x, reply); p.status == Ok && HealthyCtx(p.x)
  {
    SetFinishHealthy(h, x, reply.finish);
    LiftTailHealthy(h, SetFinish(h, x, reply.finish).0, reply.usage, reply.model);
  }

  lemma {:induction false} PlainIsHealthy(lim: Limits, h: Hooks, w: Wire, trip: nat, r: Content, log: seq<Call>,
                                          allocs: nat)
    requires Ample(h, trip) && Healthy(r) && w.ts != TransportNoMem
    ensures var o := PlainAttempt(lim, h, w, trip, r, log, allocs); o.terminal == Ok && Healthy(o.r)
  {
    var b := Accumulate(h, trip, Buf.Empty(lim.maxResponse), ChunksOf(w), 0);
    AmpleBody(lim, h, w, trip);
    AccumulateIsConcat(h, trip, Buf.Empty(lim.maxResponse), ChunksOf(w), 0);
    ParseBodyHealthy(h, NewCtx(trip, r, log, allocs), b.bytes);
    assert h.alloc(ParseBody(h, NewCtx(trip, r, log, allocs), b.bytes).x.allocs);
  }

  // ----- whole calls -----

  lemma {:induction false} TripIsHealthy(w: World, lim: Limits, h: Hooks, stream: bool, wire: nat -> Wire, s: State)
    requires Wired(w, lim, h, stream, wire) && Ample(h, s.trips) && wire(s.trips).ts != TransportNoMem
    requires Healthy(s.r)
    ensures Trip(w, s).terminal == Ok && Healthy(Trip(w, s).r)
  {
    var r := ResetContent(s.r);
    if stream {
      StreamIsHealthy(lim, h, wire(s.trips), s.trips, r, s.log, s.allocs);
    } else {
      PlainIsHealthy(lim, h, wire(s.trips), s.trips, r, s.log, s.allocs);
    }
    assert Trip(w, s) == RunSpec(lim, h, stream, wire(s.trips), s.trips, r, s.log, s.allocs);
  }

  ghost predicate NeverStarved(s: State)
  {
    Healthy(s.r) && s.final != Some(NoMem)
  }

  lemma {:induction false} SettleNeverStarves(w: World, s: State, o: Outcome)
    requires s.final == None && o.terminal == Ok && Healthy(o.r) && w.recordRoom(s.trips)
    ensures NeverStarved(Settle(w, s, o))
  {
  }

  /** A call that allocates what it asks for, over transports that do not run out of
      memory either, ends with a status other than NOMEM, whatever else happens. */
  lemma {:induction false} AmpleMemoryNeverNoMem(w: World, lim: Limits, h: Hooks, stream: bool, wire: nat -> Wire)
    requires Resolved(w.policy) && Wired(w, lim, h, stream, wire)
    requires forall k :: Ample(h, k) && w.recordRoom(k) && wire(k).ts != TransportNoMem
    requires forall i :: w.build(i) != NoMem
    ensures Run(w, Start(w)).final != Some(NoMem)
  {
    var inv := (s: State) => NeverStarved(s);
    forall t: State | inv(t) && Running(w, t) && t.final == None
      ensures inv(Step(w, t))
    {
      assert Ample(h, t.trips);
      TripIsHealthy(w, lim, h, stream, wire, t);
      SettleNeverStarves(w, t, Trip(w, t));
    }
    RunKeeps(w, Start(w), inv);
  }
}
