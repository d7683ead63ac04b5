/** The sticky buffers over whole calls.  Resetting the result between round trips
    keeps its buffers' errors, so a later round trip is not a fresh one: once the
    text (or the reasoning) has failed, its callback hears nothing for the rest of
    the call. */
module EngineSticky {
  import opened Bytes
  import Buf
  import opened StreamAssembly
  import opened Classify
  import opened Attempt
  import opened Engine
  import opened EngineCall

  function BufferOf(r: Content, target: Target): (b: Buf.BufV)
  {
    match target
    case Text => r.text
    case Reasoning => r.reasoning
  }

  /** The callback that listens to a buffer. */
  function KindOf(target: Target): (k: Kind)
  {
    match target
    case Text => OnDelta
    case Reasoning => OnReasoning
  }

  /** The buffer `mute` has failed with e and is empty, and its callback has heard
      `told`. */
  ghost predicate Muted(mute: Target, e: Status, told: seq<Byte>, r: Content, log: seq<Call>)
  {
    BufferOf(r, mute).err == e && BufferOf(r, mute).bytes == [] && Heard(log, KindOf(mute)) == told
  }

  lemma {:induction false} ToldMuted(x: Ctx, kind: Kind, bytes: seq<Byte>, mute: Target)
    requires kind != KindOf(mute)
    ensures Heard(Told(x, kind, bytes).log, KindOf(mute)) == Heard(x.log, KindOf(mute))
  {
    var log := Told(x, kind, bytes).log;
    assert log[..|log| - 1] == x.log;
  }

  lemma {:induction false} RawChunkMuted(h: Hooks, mute: Target, e: Status, told: seq<Byte>, x: Ctx, data: seq<Byte>)
    requires Muted(mute, e, told, x.r, x.log)
    ensures var x' := RawChunk(h, x, data).0; Muted(mute, e, told, x'.r, x'.log)
  {
    ToldMuted(x, OnRawChunk, data, mute);
  }

  lemma {:induction false} DeliverMuted(h: Hooks, mute: Target, e: Status, told: seq<Byte>, x: Ctx, target: Target,
                                        bytes: Option<seq<Byte>>)
    requires h.accumulate && e != Ok && Muted(mute, e, told, x.r, x.log)
    ensures var x' := DeliverSome(h, x, target, bytes).0; Muted(mute, e, told, x'.r, x'.log)
  {
    if bytes.Some? && target != mute {
      ToldMuted(x, KindOf(target), bytes.value, mute);
    }
  }

  lemma {:induction false} OnDeltaObjectMuted(h: Hooks, mute: Target, e: Status, told: seq<Byte>, x: Ctx, d: Delta,
                                              data: seq<Byte>)
    requires h.accumulate && e != Ok && Muted(mute, e, told, x.r, x.log)
    ensures var x' := OnDeltaObject(h, x, d, data).0; Muted(mute, e, told, x'.r, x'.log)
  {
    DeliverMuted(h, mute, e, told, x, Text, d.content);
    var x1 := DeliverSome(h, x, Text, d.content).0;
    DeliverMuted(h, mute, e, told, x1, Reasoning, d.reasoning);
    var x2 := DeliverSome(h, x1, Reasoning, d.reasoning).0;
    RawChunkMuted(h, mute, e, told, x2, data);
  }

  lemma {:induction false} OnChoiceMuted(h: Hooks, mute: Target, e: Status, told: seq<Byte>, x: Ctx,
                                         delta: Option<Delta>, finish: Option<seq<Byte>>, data: seq<Byte>)
    requires h.accumulate && e != Ok && Muted(mute, e, told, x.r, x.log)
    ensures var x' := OnChoice(h, x, delta, finish, data).0; Muted(mute, e, told, x'.r, x'.log)
  {
    if delta.Some? {
      OnDeltaObjectMuted(h, mute, e, told, x, delta.value, data);
    }
  }

  lemma {:induction false} LiftTailMuted(h: Hooks, mute: Target, e: Status, told: seq<Byte>, x: Ctx,
                                         usage: Option<Usage>, model: Option<seq<Byte>>)
    requires Muted(mute, e, told, x.r, x.log)
    ensures var x' := LiftTail(h, x, usage, model).0; Muted(mute, e, told, x'.r, x'.log)
  {
  }

  lemma {:induction false} OnEventMuted(h: Hooks, mute: Target, e: Status, told: seq<Byte>, x: Ctx, data: seq<Byte>)
    requires h.accumulate && e != Ok && Muted(mute, e, told, x.r, x.log)
    ensures var x' := OnEvent(h, x, data).0; Muted(mute, e, told, x'.r, x'.log)
  {
    var x1 := x.(sawEvent := true);
    if data != DONE {
      match h.parse(data)
      case Unparseable => RawChunkMuted(h, mute, e, told, x, data);
      case Unmodeled => RawChunkMuted(h, mute, e, told, x, data);
      case Chunk(choice, usage, model) =>
        match choice
        case BadChoice => RawChunkMuted(h, mute, e, told, x1, data);
        case NoChoice => LiftTailMuted(h, mute, e, told, x1, usage, model);
        case Choice(delta, finish) =>
          OnChoiceMuted(h, mute, e, told, x1, delta, finish, data);
          LiftTailMuted(h, mute, e, told, OnChoice(h, x1, delta, finish, data).0, usage, model);
    }
  }

  lemma {:induction false} StreamAttemptMuted(lim: Limits, h: Hooks, w: Wire, trip: nat, r: Content, log: seq<Call>,
                                              allocs: nat, mute: Target, e: Status, told: seq<Byte>)
    requires h.accumulate && e != Ok && Muted(mute, e, told, r, log)
    ensures var o := StreamAttempt(lim, h, w, trip, r, log, allocs); Muted(mute, e, told, o.r, o.log)
  {
    var env := ParserEnv(h, trip);
    var inv := (x: Ctx) => Muted(mute, e, told, x.r, x.log);
    forall x: Ctx, d: seq<Byte> | inv(x)
      ensures inv(env.onEvent(x, d).0)
    {
      OnEventMuted(h, mute, e, told, x, d);
    }
    var x := StreamAttemptKeeps(lim, h, w, trip, r, log, allocs, inv);
  }

  lemma {:induction false} LiftMuted(h: Hooks, x: Ctx, target: Target, bytes: Option<seq<Byte>>, mute: Target,
                                     e: Status, told: seq<Byte>)
    requires e != Ok && Muted(mute, e, told, x.r, x.log)
    ensures var p := Lift(h, x, target, bytes); Muted(mute, e, told, p.x.r, p.x.log)
  {
  }

  lemma {:induction false} ParseBodyMuted(h: Hooks, x: Ctx, body: seq<Byte>, mute: Target, e: Status, told: seq<Byte>)
    requires e != Ok && Muted(mute, e, told, x.r, x.log)
    ensures var p := ParseBody(h, x, body); Muted(mute, e, told, p.x.r, p.x.log)
  {
    var reply := h.parseBody(body);
    if body != [] && reply.Reply? && (reply.content.Some? || reply.toolCalls) {
      LiftMuted(h, x, Text, reply.content, mute, e, told);
      var p1 := Lift(h, x, Text, reply.content);
      if p1.body == BodyOk {
        LiftMuted(h, p1.x, Reasoning, reply.reasoning, mute, e, told);
        var p2 := Lift(h, p1.x, Reasoning, reply.reasoning);
        if p2.body == BodyOk {
          TailMuted(h, p2.x, reply, mute, e, told);
        }
      }
    }
  }

  lemma {:induction false} TailMuted(h: Hooks, x: Ctx, reply: Reply, mute: Target, e: Status, told: seq<Byte>)
    requires Muted(mute, e, told, x.r, x.log) && reply.Reply?
    ensures var p := ParseTail(h, x, reply); Muted(mute, e, told, p.x.r, p.x.log)
  {
    LiftTailMuted(h, mute, e, told, SetFinish(h, x, reply.finish).0, reply.usage, reply.model);
  }

  lemma {:induction false} PlainAttemptMuted(lim: Limits, h: Hooks, w: Wire, trip: nat, r: Content, log: seq<Call>,
                                             allocs: nat, mute: Target, e: Status, told: seq<Byte>)
    requires e != Ok && Muted(mute, e, told, r, log)
    ensures var o := PlainAttempt(lim, h, w, trip, r, log, allocs); Muted(mute, e, told, o.r, o.log)
  {
    var b := Accumulate(h, trip, Buf.Empty(lim.maxResponse), ChunksOf(w), 0);
    ParseBodyMuted(h, NewCtx(trip, r, log, allocs), b.bytes, mute, e, told);
  }

  /** The state of a call that has been muted since its trip `k`. */
  ghost predicate Silent(mute: Target, e: Status, told: seq<Byte>, k: nat, s: State)
  {
    && BufferOf(s.r, mute).err == e && Heard(s.log, KindOf(mute)) == told
    && s.trips >= k && (s.trips > k ==> BufferOf(s.r, mute).bytes == [])
  }

  lemma {:induction false} SettleSilent(w: World, mute: Target, e: Status, told: seq<Byte>, k: nat, s: State,
                                        o: Outcome)
    requires s.trips >= k && Muted(mute, e, told, o.r, o.log)
    ensures Silent(mute, e, told, k, Settle(w, s, o))
  {
    var cls := ClassOf(w, s.trips, o);
    var s1, s' := Note(w, s, o, cls), Settle(w, s, o);
    assert s'.log == s1.log && s'.trips == s1.trips && s'.r == s1.r;
  }

  lemma {:induction false} TripMuted(w: World, lim: Limits, h: Hooks, stream: bool, wire: nat -> Wire, s: State,
                                     mute: Target, e: Status, told: seq<Byte>)
    requires Wired(w, lim, h, stream, wire) && (stream ==> h.accumulate) && e != Ok
    requires BufferOf(s.r, mute).err == e && Heard(s.log, KindOf(mute)) == told
    ensures var o := Trip(w, s); Muted(mute, e, told, o.r, o.log)
  {
    var r := ResetContent(s.r);
    if stream {
      StreamAttemptMuted(lim, h, wire(s.trips), s.trips, r, s.log, s.allocs, mute, e, told);
    } else {
      PlainAttemptMuted(lim, h, wire(s.trips), s.trips, r, s.log, s.allocs, mute, e, told);
    }
    assert w.attempt(s.trips, r, s.log, s.allocs)
        == RunSpec(lim, h, stream, wire(s.trips), s.trips, r, s.log, s.allocs);
  }

  /** From any state of a call in which the text (or the reasoning) has failed, to
      its end, streamed or not: its callback hears nothing more, the error stays,
      and the buffer is empty once another round trip is made, whatever the later
      backends answer. */
  lemma {:induction false} FailedBufferStaysSilent(w: World, lim: Limits, h: Hooks, stream: bool, wire: nat -> Wire,
                                                   s: State, mute: Target)
    requires Running(w, s) && Wired(w, lim, h, stream, wire) && (stream ==> h.accumulate)
    requires BufferOf(s.r, mute).err != Ok
    ensures var s' := Run(w, s);
      && BufferOf(s'.r, mute).err == BufferOf(s.r, mute).err
      && Heard(s'.log, KindOf(mute)) == Heard(s.log, KindOf(mute))
      && (s'.trips > s.trips ==> BufferOf(s'.r, mute).bytes == [])
  {
    var e, told, k := BufferOf(s.r, mute).err, Heard(s.log, KindOf(mute)), s.trips;
    var inv := (t: State) => Silent(mute, e, told, k, t);
    forall t: State | inv(t) && Running(w, t) && t.final == None
      ensures inv(Step(w, t))
    {
      TripMuted(w, lim, h, stream, wire, t, mute, e, told);
      SettleSilent(w, mute, e, told, k, t, Trip(w, t));
    }
    RunKeeps(w, s, inv);
  }
}
