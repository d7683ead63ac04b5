/** The scripted transport (src/transport_script.c) under an exact virtual clock: its
    deadline-aware wait, its phases and chunk loop, and its queue. */
module Script {
  import opened Bytes
  import opened Classify
  import opened Attempt

  /** Per-request limits in milliseconds, NO_LIMIT for none. */
  datatype Timeouts = Timeouts(connect: U32, firstByte: U32, idle: U32, total: U32)

  datatype ScriptResponse = ScriptResponse(
    status: Transport,
    httpStatus: int,
    headers: seq<Header>,
    body: seq<Byte>,
    chunkSize: nat,
    connectDelayMs: U64,
    firstByteDelayMs: U64,
    perChunkDelayMs: U64,
    failAfterBytes: nat)

  // ----- deadline-aware waiting -----

  function SaturatingAdd(a: U64, b: U64): (r: U64)
  {
    if a > UINT64_MAX - b then UINT64_MAX else a + b
  }

  /** abs_deadline. */
  function AbsDeadline(start: U64, budget: U32): (r: U64)
    ensures start <= r
    ensures r < UINT64_MAX ==> r == start + budget && budget != NO_LIMIT
    ensures budget == NO_LIMIT || start + budget >= UINT64_MAX ==> r == UINT64_MAX
  {
    if budget == NO_LIMIT then UINT64_MAX else SaturatingAdd(start, budget)
  }

  /** Two deadlines with the statuses they report, and the virtual instant at which
      the token fires (beyond the clock's range: never). */
  datatype Deadlines = Deadlines(a: U64, stA: Transport, b: U64, stB: Transport, cancelAt: nat)

  /** When a delay ends: the first of the delay, the deadlines and the token, but
      not before it starts. */
  function EndTime(start: U64, delay: U64, d: Deadlines): (t: U64)
    ensures t >= start
  {
    Max(start, Min(Min(SaturatingAdd(start, delay), d.cancelAt), Min(d.a, d.b)))
  }

  /** Why it ends: ties go to the token, then deadline a, then deadline b. */
  function EndStatus(start: U64, delay: U64, d: Deadlines): (st: Transport)
  {
    var t := EndTime(start, delay, d);
    if d.cancelAt <= t then TransportCancelled
    else if d.a <= t then d.stA
    else if d.b <= t then d.stB
    else TransportOk
  }

  /** delay_within over an exact clock: `now` is its reading, a wait advances it by
      exactly the time asked unless the token fires first. */
  method DelayWithin(start: U64, delay: U64, d: Deadlines) returns (st: Transport, now: U64)
    ensures now == EndTime(start, delay, d)
    ensures st == EndStatus(start, delay, d)
  {
    var target := SaturatingAdd(start, delay);
    now := start;
    while true
      invariant start <= now
      invariant now > start ==> now <= target && now <= d.a && now <= d.b && now <= d.cancelAt
      decreases UINT64_MAX - now
    {
      if now >= d.cancelAt {
        return TransportCancelled, now;
      }
      if now >= d.a {
        return d.stA, now;
      }
      if now >= d.b {
        return d.stB, now;
      }
      if now >= target {
        return TransportOk, now;
      }
      var until := target;
      if d.a < until {
        until := d.a;
      }
      if d.b < until {
        until := d.b;
      }
      var chunk := until - now;
      if chunk > 100 {
        chunk := 100;
      }
      if d.cancelAt <= now + chunk {
        now := d.cancelAt;
        return TransportCancelled, now;
      }
      now := now + chunk;
    }
  }

  // ----- the response body -----

  /** The chunk loop's cuts: every `size` bytes, one single chunk for 0. */
  function Chunks(body: seq<Byte>, size: nat): (r: seq<seq<Byte>>)
    decreases |body|
  {
    if body == [] then []
    else
      var n := if size == 0 || size > |body| then |body| else size;
      [body[..n]] + Chunks(body[n..], size)
  }

  lemma {:induction false} ChunksConcat(body: seq<Byte>, size: nat)
    ensures Concat(Chunks(body, size)) == body
    decreases |body|
  {
    if body != [] {
      var n := if size == 0 || size > |body| then |body| else size;
      ChunksConcat(body[n..], size);
      assert Chunks(body, size)[1..] == Chunks(body[n..], size);
      assert body[..n] + body[n..] == body;
    }
  }

  /** Every chunk but the last has the chunk size, the last one no more and none is
      empty; for chunk size 0 there is one chunk. */
  lemma {:induction false} ChunkSizes(body: seq<Byte>, size: nat, i: nat)
    requires i < |Chunks(body, size)|
    ensures var cs := Chunks(body, size);
            && cs[i] != [] && (size > 0 ==> |cs[i]| <= size)
            && (i + 1 < |cs| ==> size > 0 && |cs[i]| == size)
            && (size == 0 ==> cs == [body])
    decreases |body|
  {
    var n := if size == 0 || size > |body| then |body| else size;
    assert body[..|body|] == body;
    assert Chunks(body, size)[1..] == Chunks(body[n..], size);
    if i > 0 {
      ChunkSizes(body[n..], size, i - 1);
    }
  }

  /** The bytes sent before the scripted end. */
  function Sent(r: ScriptResponse): (b: seq<Byte>)
  {
    if r.status != TransportOk && r.failAfterBytes < |r.body| then r.body[..r.failAfterBytes] else r.body
  }

  /** The receiving side: a nonzero code aborts the transfer. */
  datatype Sink<!S> = Sink(
    onStatus: (S, int, seq<Header>) -> (S, int),
    onBody: (S, seq<Byte>) -> (S, int))

  datatype Served<S> = Served(st: Transport, ctx: S, now: U64, delivered: nat)

  function ChunkDeadlines(now: U64, idle: U32, dlTotal: U64, cancelAt: nat): (d: Deadlines)
  {
    Deadlines(AbsDeadline(now, idle), TimeoutIdle, dlTotal, TimeoutTotal, cancelAt)
  }

  /** The body phase, chunk after chunk; `n` chunks are delivered already. */
  function Transfer<S>(sink: Sink<S>, c: S, now: U64, chunks: seq<seq<Byte>>, per: U64, idle: U32,
                       dlTotal: U64, cancelAt: nat, n: nat): (e: Served<S>)
    decreases |chunks|
  {
    if chunks == [] then Served(TransportOk, c, now, n)
    else
      var d := ChunkDeadlines(now, idle, dlTotal, cancelAt);
      var t, st := EndTime(now, per, d), EndStatus(now, per, d);
      if st != TransportOk then Served(st, c, t, n)
      else
        var (c', rc) := sink.onBody(c, chunks[0]);
        if rc != 0 then Served(AbortedBySink, c', t, n)
        else Transfer(sink, c', t, chunks[1..], per, idle, dlTotal, cancelAt, n + 1)
  }

  /** From the first byte on, at instant t: status and headers, then the body, then
      the scripted end. */
  function Respond<S>(r: ScriptResponse, idle: U32, dlTotal: U64, cancelAt: nat, sink: Sink<S>, c: S, t: U64)
    : (e: Served<S>)
  {
    var (c', rc) := sink.onStatus(c, r.httpStatus, r.headers);
    if rc != 0 then Served(AbortedBySink, c', t, 0)
    else
      var e := Transfer(sink, c', t, Chunks(Sent(r), r.chunkSize), r.perChunkDelayMs, idle, dlTotal, cancelAt, 0);
      if e.st != TransportOk then e else e.(st := r.status)
  }

  function ConnectDeadlines(to: Timeouts, start: U64, cancelAt: nat): (d: Deadlines)
  {
    Deadlines(AbsDeadline(start, to.connect), TimeoutConnect, AbsDeadline(start, to.total), TimeoutTotal, cancelAt)
  }

  function FirstByteDeadlines(to: Timeouts, start: U64, cancelAt: nat): (d: Deadlines)
  {
    Deadlines(AbsDeadline(start, to.firstByte), TimeoutFirstByte, AbsDeadline(start, to.total), TimeoutTotal, cancelAt)
  }

  /** How far a response gets before its first byte: `go` if that arrives, at `now`;
      otherwise `st` is the end. */
  datatype Reached = Reached(st: Transport, now: U64, go: bool)

  /** The first two phases, under deadlines for the connection and the first byte. */
  function Reach(r: ScriptResponse, d1: Deadlines, d2: Deadlines, start: U64): (p: Reached)
  {
    var t1, st1 := EndTime(start, r.connectDelayMs, d1), EndStatus(start, r.connectDelayMs, d1);
    if st1 != TransportOk then Reached(st1, t1, false)
    else if r.status != TransportOk && r.failAfterBytes == 0 then Reached(r.status, t1, false)
    else
      var t2, st2 := EndTime(t1, r.firstByteDelayMs, d2), EndStatus(t1, r.firstByteDelayMs, d2);
      Reached(st2, t2, st2 == TransportOk)
  }

  /** script_perform for one scripted response. */
  function Perform<S>(r: ScriptResponse, to: Timeouts, start: U64, cancelAt: nat, sink: Sink<S>, c: S): (e: Served<S>)
  {
    var p := Reach(r, ConnectDeadlines(to, start, cancelAt), FirstByteDeadlines(to, start, cancelAt), start);
    if p.go then Respond(r, to.idle, AbsDeadline(start, to.total), cancelAt, sink, c, p.now)
    else Served(p.st, c, p.now, 0)
  }

  // ----- the transport object -----

  const MAX_HEADERS: nat := 256
  const MAX_HEADER_BYTES: nat := 16 * 1024
  const MAX_HEADERS_TOTAL_BYTES: nat := 64 * 1024

  function OneHeaderBytes(h: Header): (n: nat)
  {
    |h.name| + |h.value|
  }

  function HeaderBytes(hs: seq<Header>): (n: nat)
  {
    if hs == [] then 0 else HeaderBytes(hs[..|hs| - 1]) + OneHeaderBytes(hs[|hs| - 1])
  }

  /** The headers are within the library's limits. */
  predicate Acceptable(hs: seq<Header>)
  {
    && |hs| <= MAX_HEADERS
    && (forall i :: 0 <= i < |hs| ==> OneHeaderBytes(hs[i]) <= MAX_HEADER_BYTES)
    && HeaderBytes(hs) <= MAX_HEADERS_TOTAL_BYTES
  }

  class ScriptTransport<!S> {
    var queue: seq<ScriptResponse>
    var calls: nat

    constructor ()
      ensures queue == [] && calls == 0
    {
      queue, calls := [], 0;
    }

    /** sicha_script_push; `room` is the allocator's answer to its copies. */
    method Push(r: ScriptResponse, room: bool) returns (status: Status)
      modifies this
      ensures status == if !Acceptable(r.headers) then InvalidArg else if !room then NoMem else Ok
      ensures queue == (if status == Ok then old(queue) + [r] else old(queue)) && calls == old(calls)
    {
      if |r.headers| > MAX_HEADERS {
        return InvalidArg;
      }
      var total, i := 0, 0;
      while i < |r.headers|
        invariant 0 <= i <= |r.headers| && total == HeaderBytes(r.headers[..i])
        invariant forall j :: 0 <= j < i ==> OneHeaderBytes(r.headers[j]) <= MAX_HEADER_BYTES
      {
        assert r.headers[..i + 1][..i] == r.headers[..i];
        if OneHeaderBytes(r.headers[i]) > MAX_HEADER_BYTES {
          return InvalidArg;
        }
        total := total + OneHeaderBytes(r.headers[i]);
        i := i + 1;
      }
      assert r.headers[..i] == r.headers;
      if total > MAX_HEADERS_TOTAL_BYTES {
        return InvalidArg;
      }
      if !room {
        return NoMem;
      }
      queue := queue + [r];
      return Ok;
    }

    /** script_perform: records the call, if `room` is left for that, and answers with
        the oldest response, or with a connect failure when none is left. */
    method Serve(to: Timeouts, start: U64, cancelAt: nat, sink: Sink<S>, c: S, room: bool) returns (e: Served<S>)
      modifies this
      ensures !room ==> calls == old(calls) && queue == old(queue) && e == Served(TransportNoMem, c, start, 0)
      ensures room ==> calls == old(calls) + 1
      ensures room && old(queue) == [] ==> queue == [] && e == Served(Connect, c, start, 0)
      ensures room && old(queue) != [] ==>
                && queue == old(queue)[1..]
                && e == Perform(old(queue)[0], to, start, cancelAt, sink, c)
    {
      if !room {
        return Served(TransportNoMem, c, start, 0);
      }
      calls := calls + 1;
      if queue == [] {
        return Served(Connect, c, start, 0);
      }
      var r := queue[0];
      queue := queue[1..];
      var dlTotal := AbsDeadline(start, to.total);
      var st, now := DelayWithin(start, r.connectDelayMs, ConnectDeadlines(to, start, cancelAt));
      if st != TransportOk {
        return Served(st, c, now, 0);
      }
      if r.status != TransportOk && r.failAfterBytes == 0 {
        return Served(r.status, c, now, 0);
      }
      st, now := DelayWithin(now, r.firstByteDelayMs, FirstByteDeadlines(to, start, cancelAt));
      if st != TransportOk {
        return Served(st, c, now, 0);
      }
      var (c', rc) := sink.onStatus(c, r.httpStatus, r.headers);
      if rc != 0 {
        return Served(AbortedBySink, c', now, 0);
      }
      e := Body(r, to.idle, dlTotal, cancelAt, sink, c', now);
      if e.st == TransportOk {
        e := e.(st := r.status);
      }
    }

    /** The chunk loop. */
    static method Body(r: ScriptResponse, idle: U32, dlTotal: U64, cancelAt: nat, sink: Sink<S>, c: S, start: U64)
      returns (e: Served<S>)
      ensures e == Transfer(sink, c, start, Chunks(Sent(r), r.chunkSize), r.perChunkDelayMs, idle, dlTotal, cancelAt, 0)
    {
      var body := Sent(r);
      var ctx, now, n, pos := c, start, 0, 0;
      while pos < |body|
        invariant 0 <= pos <= |body|
        invariant Transfer(sink, c, start, Chunks(body, r.chunkSize), r.perChunkDelayMs, idle, dlTotal, cancelAt, 0)
               == Transfer(sink, ctx, now, Chunks(body[pos..], r.chunkSize), r.perChunkDelayMs, idle, dlTotal,
                           cancelAt, n)
      {
        var remaining := |body| - pos;
        var size := if r.chunkSize == 0 || r.chunkSize > remaining then remaining else r.chunkSize;
        var st, t := DelayWithin(now, r.perChunkDelayMs, ChunkDeadlines(now, idle, dlTotal, cancelAt));
        assert body[pos..][..size] == body[pos..pos + size] && body[pos..][size..] == body[pos + size..];
        if st != TransportOk {
          return Served(st, ctx, t, n);
        }
        var (ctx', rc) := sink.onBody(ctx, body[pos..pos + size]);
        if rc != 0 {
          return Served(AbortedBySink, ctx', t, n);
        }
        ctx, now, n, pos := ctx', t, n + 1, pos + size;
      }
      e := Served(TransportOk, ctx, now, n);
    }
  }
}
