/** A scripted response without delays is its wire, and a round trip over it does not
    depend, end to end, on the chunk size. */
module ScriptLaws {
  import opened Bytes
  import opened Buf
  import opened StreamAssembly
  import opened Classify
  import opened Attempt
  import opened Script
  import Sse

  predicate Never(cancelAt: nat)
  {
    cancelAt > UINT64_MAX
  }

  lemma {:induction false} OneChunkInTime(t0: U64, idle: U32, dlTotal: U64, cancelAt: nat)
    requires Never(cancelAt) && t0 < dlTotal && idle > 0
    ensures var d := ChunkDeadlines(t0, idle, dlTotal, cancelAt);
            EndStatus(t0, 0, d) == TransportOk && EndTime(t0, 0, d) == t0
  {
  }

  // ----- no delays: the transport is just a wire -----

  /** The wire a scripted response without delays amounts to. */
  function WireOf(r: ScriptResponse): (w: Wire)
  {
    if r.status != TransportOk && r.failAfterBytes == 0 then NoResponse(r.status)
    else Response(r.httpStatus, r.headers, Chunks(Sent(r), r.chunkSize), r.status)
  }

  predicate Instant(r: ScriptResponse)
  {
    r.connectDelayMs == 0 && r.firstByteDelayMs == 0 && r.perChunkDelayMs == 0
  }

  /** Resolved limits are positive. */
  predicate Positive(to: Timeouts)
  {
    to.connect > 0 && to.firstByte > 0 && to.idle > 0 && to.total > 0
  }

  /** The receiving side of a streamed attempt. */
  datatype Io = Io(fed: Sse.Out<Ctx>, http: int, headers: seq<Header>)

  function AttemptSink(h: Hooks, trip: nat): (s: Sink<Io>)
  {
    Sink((io: Io, http: int, hs: seq<Header>) => (io.(http := http, headers := hs), 0),
         (io: Io, b: seq<Byte>) => OnBody(h, trip, io, b))
  }

  /** attempt_on_body. */
  function OnBody(h: Hooks, trip: nat, io: Io, b: seq<Byte>): (r: (Io, int))
  {
    if !Sse.Valid(io.fed.p) then (io, 0)
    else
      var o := Sse.Feed(ParserEnv(h, trip), io.fed.p, io.fed.ctx, b);
      (io.(fed := o), if o.rc != 0 then 1 else 0)
  }

  function NewIo(lim: Limits, trip: nat, r: Content, log: seq<Call>, allocs: nat): (io: Io)
  {
    Io(Sse.Out(Sse.Init(lim.maxEvent), NewCtx(trip, r, log, allocs), 0), 0, [])
  }

  /** A streamed attempt whose transport is the scripted one. */
  function ScriptedAttempt(lim: Limits, h: Hooks, resp: ScriptResponse, to: Timeouts, start: U64, cancelAt: nat,
                           trip: nat, r: Content, log: seq<Call>, allocs: nat): (o: Option<Outcome>)
  {
    var e := Perform(resp, to, start, cancelAt, AttemptSink(h, trip), NewIo(lim, trip, r, log, allocs));
    if Sse.Valid(e.ctx.fed.p) then Some(ConcludeStream(h, trip, e.st, e.ctx.http, e.ctx.headers, e.ctx.fed))
    else None
  }

  lemma {:induction false} InstantTransfer(h: Hooks, trip: nat, io: Io, now: U64, chunks: seq<seq<Byte>>, idle: U32,
                                           dlTotal: U64, cancelAt: nat, n: nat)
    requires Never(cancelAt) && now < dlTotal && idle > 0
    requires Sse.Valid(io.fed.p) && io.fed.rc == 0
    ensures var e := Transfer(AttemptSink(h, trip), io, now, chunks, 0, idle, dlTotal, cancelAt, n);
            var fed := Sse.FeedAll(ParserEnv(h, trip), io.fed.p, io.fed.ctx, chunks);
            && e.ctx == io.(fed := fed) && Sse.Valid(fed.p)
            && e.st == if fed.rc != 0 then AbortedBySink else TransportOk
    decreases |chunks|
  {
    if chunks != [] {
      OneChunkInTime(now, idle, dlTotal, cancelAt);
      var (io', rc) := OnBody(h, trip, io, chunks[0]);
      if rc == 0 {
        InstantTransfer(h, trip, io', now, chunks[1..], idle, dlTotal, cancelAt, n + 1);
      }
    }
  }

  lemma {:induction false} NoDelayIsOk(start: U64, a: U64, stA: Transport, b: U64, stB: Transport, cancelAt: nat)
    requires start < a && start < b && Never(cancelAt)
    ensures var d := Deadlines(a, stA, b, stB, cancelAt);
            EndTime(start, 0, d) == start && EndStatus(start, 0, d) == TransportOk
  {
  }

  /** A scripted response without delays behaves as its wire. */
  lemma {:induction false} InstantAttemptIsWired(lim: Limits, h: Hooks, resp: ScriptResponse, to: Timeouts,
                                                 start: U64, cancelAt: nat, trip: nat, r: Content, log: seq<Call>,
                                                 allocs: nat)
    requires Instant(resp) && Positive(to) && start < UINT64_MAX && Never(cancelAt)
    ensures ScriptedAttempt(lim, h, resp, to, start, cancelAt, trip, r, log, allocs)
            == Some(StreamAttempt(lim, h, WireOf(resp), trip, r, log, allocs))
  {
    var io := NewIo(lim, trip, r, log, allocs);
    var dlTotal := AbsDeadline(start, to.total);
    NoDelayIsOk(start, AbsDeadline(start, to.connect), TimeoutConnect, dlTotal, TimeoutTotal, cancelAt);
    NoDelayIsOk(start, AbsDeadline(start, to.firstByte), TimeoutFirstByte, dlTotal, TimeoutTotal, cancelAt);
    if !(resp.status != TransportOk && resp.failAfterBytes == 0) {
      var io1 := io.(http := resp.httpStatus, headers := resp.headers);
      var chunks := Chunks(Sent(resp), resp.chunkSize);
      InstantTransfer(h, trip, io1, start, chunks, to.idle, dlTotal, cancelAt, 0);
    }
  }

  /** End to end: for a scripted response without delays, under any chunk size the
      streamed attempt has the same outcome — transport status after untangling,
      body state, delivered flag, text, finish and the whole callback sequence —
      hence the same class. */
  lemma {:induction false} ChunkSizeIndependence(lim: Limits, h: Hooks, resp: ScriptResponse, size: nat,
                                                 to: Timeouts, start: U64, cancelAt: nat, trip: nat, r: Content,
                                                 log: seq<Call>, allocs: nat)
    requires Instant(resp) && Positive(to) && start < UINT64_MAX && Never(cancelAt)
    ensures ScriptedAttempt(lim, h, resp, to, start, cancelAt, trip, r, log, allocs)
            == ScriptedAttempt(lim, h, resp.(chunkSize := size), to, start, cancelAt, trip, r, log, allocs)
  {
    var resp' := resp.(chunkSize := size);
    InstantAttemptIsWired(lim, h, resp, to, start, cancelAt, trip, r, log, allocs);
    InstantAttemptIsWired(lim, h, resp', to, start, cancelAt, trip, r, log, allocs);
    ChunksConcat(Sent(resp), resp.chunkSize);
    ChunksConcat(Sent(resp), size);
    assert SameButFragmented(WireOf(resp), WireOf(resp'));
    StreamFragmentationIndependence(lim, h, WireOf(resp), WireOf(resp'), trip, r, log, allocs);
  }

  // ----- the same for a response that is not streamed -----

  /** The receiving side of a plain attempt: the body buffer and the number of
      appends. */
  datatype PlainIo = PlainIo(body: BufV, n: nat, http: int, headers: seq<Header>)

  function PlainSink(h: Hooks, trip: nat): (s: Sink<PlainIo>)
  {
    Sink((io: PlainIo, http: int, hs: seq<Header>) => (io.(http := http, headers := hs), 0),
         (io: PlainIo, b: seq<Byte>) => OnPlainBody(h, trip, io, b))
  }

  function OnPlainBody(h: Hooks, trip: nat, io: PlainIo, b: seq<Byte>): (r: (PlainIo, int))
  {
    var body := io.body.Append(b, h.parserAlloc(trip, io.n));
    (io.(body := body, n := io.n + 1), if body.err == Ok then 0 else 1)
  }

  /** A plain attempt whose transport is the scripted one. */
  function ScriptedPlain(lim: Limits, h: Hooks, resp: ScriptResponse, to: Timeouts, start: U64, cancelAt: nat,
                         trip: nat, r: Content, log: seq<Call>, allocs: nat): (o: Outcome)
  {
    var e := Perform(resp, to, start, cancelAt, PlainSink(h, trip), PlainIo(Empty(lim.maxResponse), 0, 0, []));
    ConcludePlain(h, e.st, e.ctx.http, e.ctx.headers, e.ctx.body, e.ctx.n > 0, NewCtx(trip, r, log, allocs))
  }

  lemma {:induction false} InstantBody(h: Hooks, trip: nat, io: PlainIo, now: U64, chunks: seq<seq<Byte>>,
                                       idle: U32, dlTotal: U64, cancelAt: nat, n: nat)
    requires Never(cancelAt) && now < dlTotal && idle > 0 && io.body.err == Ok
    ensures var e := Transfer(PlainSink(h, trip), io, now, chunks, 0, idle, dlTotal, cancelAt, n);
            && e.ctx.body == Accumulate(h, trip, io.body, chunks, io.n)
            && e.ctx.http == io.http && e.ctx.headers == io.headers
            && (e.ctx.n > 0 <==> io.n > 0 || chunks != [])
            && e.st == if e.ctx.body.err != Ok then AbortedBySink else TransportOk
    decreases |chunks|
  {
    if chunks != [] {
      OneChunkInTime(now, idle, dlTotal, cancelAt);
      var (io', rc) := OnPlainBody(h, trip, io, chunks[0]);
      if rc == 0 {
        InstantBody(h, trip, io', now, chunks[1..], idle, dlTotal, cancelAt, n + 1);
      }
    }
  }

  lemma {:induction false} InstantPlainIsWired(lim: Limits, h: Hooks, resp: ScriptResponse, to: Timeouts,
                                               start: U64, cancelAt: nat, trip: nat, r: Content, log: seq<Call>,
                                               allocs: nat)
    requires Instant(resp) && Positive(to) && start < UINT64_MAX && Never(cancelAt)
    ensures ScriptedPlain(lim, h, resp, to, start, cancelAt, trip, r, log, allocs)
            == PlainAttempt(lim, h, WireOf(resp), trip, r, log, allocs)
  {
    var dlTotal := AbsDeadline(start, to.total);
    NoDelayIsOk(start, AbsDeadline(start, to.connect), TimeoutConnect, dlTotal, TimeoutTotal, cancelAt);
    NoDelayIsOk(start, AbsDeadline(start, to.firstByte), TimeoutFirstByte, dlTotal, TimeoutTotal, cancelAt);
    if !(resp.status != TransportOk && resp.failAfterBytes == 0) {
      var io := PlainIo(Empty(lim.maxResponse), 0, resp.httpStatus, resp.headers);
      InstantBody(h, trip, io, start, Chunks(Sent(resp), resp.chunkSize), to.idle, dlTotal, cancelAt, 0);
    }
  }

  /** End to end for a plain attempt: the same outcome for both chunk sizes, exactly
      if memory for the body gives out under both or under neither. */
  lemma {:induction false} PlainChunkSizeIndependence(lim: Limits, h: Hooks, resp: ScriptResponse, size: nat,
                                                      to: Timeouts, start: U64, cancelAt: nat, trip: nat,
                                                      r: Content, log: seq<Call>, allocs: nat)
    requires Instant(resp) && Positive(to) && start < UINT64_MAX && Never(cancelAt)
    ensures ScriptedPlain(lim, h, resp, to, start, cancelAt, trip, r, log, allocs)
            == ScriptedPlain(lim, h, resp.(chunkSize := size), to, start, cancelAt, trip, r, log, allocs)
            <==> StarveAlike(lim, h, WireOf(resp), WireOf(resp.(chunkSize := size)), trip, allocs)
  {
    var resp' := resp.(chunkSize := size);
    InstantPlainIsWired(lim, h, resp, to, start, cancelAt, trip, r, log, allocs);
    InstantPlainIsWired(lim, h, resp', to, start, cancelAt, trip, r, log, allocs);
    ChunksConcat(Sent(resp), resp.chunkSize);
    ChunksConcat(Sent(resp), size);
    assert SameButFragmented(WireOf(resp), WireOf(resp'));
    PlainFragmentationIndependence(lim, h, WireOf(resp), WireOf(resp'), trip, r, log, allocs);
  }
}
