/** Whole calls over a scripted transport. */
module ScriptCalls {
  import opened Bytes
  import Buf
  import opened StreamAssembly
  import opened Classify
  import opened Attempt
  import opened Script
  import opened ScriptLaws
  import opened Engine
  import opened EngineCall
  import EngineWire
  import Sse

  /** A queue of responses with the limits and the start of each round trip; the token
      does not fire. */
  datatype Session = Session(queue: seq<ScriptResponse>, limits: nat -> Timeouts, start: nat -> U64, never: nat)

  /** The transport's answer to the k-th request: the k-th response, or a connect
      failure once the queue is empty (Script.ScriptTransport.Serve). */
  function Answer<S>(s: Session, k: nat, sink: Sink<S>, c: S): (e: Served<S>)
  {
    if k < |s.queue| then Perform(s.queue[k], s.limits(k), s.start(k), s.never, sink, c)
    else Served(Connect, c, s.start(k), 0)
  }

  /** A round trip over the scripted transport. */
  function ScriptedTrip(lim: Limits, h: Hooks, stream: bool, s: Session, k: nat, r: Content, log: seq<Call>,
                        allocs: nat): (o: Option<Outcome>)
  {
    if stream then
      var e := Answer(s, k, AttemptSink(h, k), NewIo(lim, k, r, log, allocs));
      if Sse.Valid(e.ctx.fed.p) then Some(ConcludeStream(h, k, e.st, e.ctx.http, e.ctx.headers, e.ctx.fed)) else None
    else
      var e := Answer(s, k, PlainSink(h, k), PlainIo(Buf.Empty(lim.maxResponse), 0, 0, []));
      Some(ConcludePlain(h, e.st, e.ctx.http, e.ctx.headers, e.ctx.body, e.ctx.n > 0, NewCtx(k, r, log, allocs)))
  }

  /** The world's round trips go over the scripted transport. */
  ghost predicate Scripted(w: World, lim: Limits, h: Hooks, stream: bool, s: Session)
  {
    forall k, r, log, a :: ScriptedTrip(lim, h, stream, s, k, r, log, a) == Some(w.attempt(k, r, log, a))
  }

  /** No delays, and limits that leave time. */
  ghost predicate Undelayed(s: Session)
  {
    && Never(s.never)
    && (forall i :: 0 <= i < |s.queue| ==> Instant(s.queue[i]))
    && (forall k :: Positive(s.limits(k)) && s.start(k) < UINT64_MAX)
  }

  function WireAt(s: Session, k: nat): (w: Wire)
  {
    if k < |s.queue| then WireOf(s.queue[k]) else NoResponse(Connect)
  }

  lemma {:induction false} TripIsWired(lim: Limits, h: Hooks, stream: bool, s: Session, k: nat, r: Content,
                                       log: seq<Call>, allocs: nat)
    requires Undelayed(s)
    ensures ScriptedTrip(lim, h, stream, s, k, r, log, allocs)
            == Some(RunSpec(lim, h, stream, WireAt(s, k), k, r, log, allocs))
  {
    assert Positive(s.limits(k)) && s.start(k) < UINT64_MAX;
    if k < |s.queue| {
      if stream {
        InstantAttemptIsWired(lim, h, s.queue[k], s.limits(k), s.start(k), s.never, k, r, log, allocs);
      } else {
        InstantPlainIsWired(lim, h, s.queue[k], s.limits(k), s.start(k), s.never, k, r, log, allocs);
      }
    }
  }

  lemma {:induction false} ScriptedIsWired(w: World, lim: Limits, h: Hooks, stream: bool, s: Session, wire: nat -> Wire)
    requires Scripted(w, lim, h, stream, s) && Undelayed(s)
    requires forall k :: wire(k) == WireAt(s, k)
    ensures Wired(w, lim, h, stream, wire)
  {
    forall k, r, log, a
      ensures w.attempt(k, r, log, a) == RunSpec(lim, h, stream, wire(k), k, r, log, a)
    {
      TripIsWired(lim, h, stream, s, k, r, log, a);
      assert ScriptedTrip(lim, h, stream, s, k, r, log, a) == Some(w.attempt(k, r, log, a));
    }
  }

  /** The same session, cut differently. */
  ghost predicate Recut(s: Session, s': Session)
  {
    && s' == s.(queue := s'.queue) && |s'.queue| == |s.queue|
    && (forall i :: 0 <= i < |s.queue| ==> s'.queue[i] == s.queue[i].(chunkSize := s'.queue[i].chunkSize))
  }

  lemma {:induction false} RecutWire(s: Session, s': Session, k: nat)
    requires Recut(s, s')
    ensures SameButFragmented(WireAt(s, k), WireAt(s', k))
  {
    if k < |s.queue| {
      ChunksConcat(Sent(s.queue[k]), s.queue[k].chunkSize);
      ChunksConcat(Sent(s.queue[k]), s'.queue[k].chunkSize);
    }
  }

  /** End to end for whole calls: over a queue of undelayed responses a call ends in the
      same state under all chunk sizes: status, records, waits, text, every callback.
      (A call that does not stream: provided memory gives out under both cuts of a body
      or under neither.) */
  lemma {:induction false} CallChunkSizeIndependence(w: World, w': World, lim: Limits, h: Hooks, stream: bool,
                                                     s: Session, s': Session)
    requires Resolved(w.policy) && w' == w.(attempt := w'.attempt)
    requires Scripted(w, lim, h, stream, s) && Scripted(w', lim, h, stream, s')
    requires Undelayed(s) && Recut(s, s')
    requires stream || forall k, a :: StarveAlike(lim, h, WireAt(s, k), WireAt(s', k), k, a)
    ensures Run(w, Start(w)) == Run(w', Start(w'))
  {
    var wire, wire' := (k: nat) => WireAt(s, k), (k: nat) => WireAt(s', k);
    ScriptedIsWired(w, lim, h, stream, s, wire);
    ScriptedIsWired(w', lim, h, stream, s', wire');
    forall k
      ensures SameButFragmented(wire(k), wire'(k))
    {
      RecutWire(s, s', k);
    }
    EngineWire.CallFragmentationIndependence(w, w', lim, h, stream, wire, wire');
  }
}
