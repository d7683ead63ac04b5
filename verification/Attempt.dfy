/** One HTTP round trip (`run_attempt` and its sink in src/client.c), streaming
    and not, and its independence of how the wire fragments the body. */
module Attempt {
  import opened Bytes
  import opened Buf
  import Sse
  import SseParser
  import opened StreamAssembly
  import opened Classify

  datatype Header = Header(name: string, value: string)

  /** What a transport does for one request: fail before any response, or report
      a status and headers, deliver body chunks and end with a status of its own.
      A nonzero answer of the sink aborts the transfer. */
  datatype Wire =
    | NoResponse(ts: Transport)
    | Response(httpStatus: int, headers: seq<Header>, chunks: seq<seq<Byte>>, ts: Transport)

  datatype Limits = Limits(maxResponse: nat, maxEvent: nat)

  /** struct attempt_outcome and the result content it leaves behind. */
  datatype Outcome = Outcome(
    ts: Transport,
    httpStatus: int,
    body: BodyState,
    retryAfterMs: U64,
    delivered: bool,
    terminal: Status,
    r: Content,
    log: seq<Call>,
    allocs: nat)

  // ----- attempt_on_status -----

  const RETRY_AFTER_NAME: string := "retry-after"
  const RETRY_AFTER_ROOM: nat := 63

  function Lower(c: char): (r: char)
  {
    if 'A' <= c <= 'Z' then (c as int - 'A' as int + 'a' as int) as char else c
  }

  /** sicha_header_name_eq against a lower-case name. */
  predicate NameIs(a: string, lower: string)
  {
    |a| == |lower| && forall i :: 0 <= i < |a| ==> Lower(a[i]) == lower[i]
  }

  /** Exactly the header names that spell Retry-After, each letter in either case. */
  lemma {:induction false} RetryAfterInAnyCase(a: string)
    ensures NameIs(a, RETRY_AFTER_NAME) <==>
            |a| == 11 && forall i :: 0 <= i < 11 ==> a[i] == "retry-after"[i] || a[i] == "RETRY-AFTER"[i]
  {
    assert |RETRY_AFTER_NAME| == 11 && |"RETRY-AFTER"| == 11;
    forall i | 0 <= i < |a| && |a| == 11
      ensures Lower(a[i]) == RETRY_AFTER_NAME[i] <==> a[i] == "retry-after"[i] || a[i] == "RETRY-AFTER"[i]
    {
      EitherCase(a[i], "retry-after"[i], "RETRY-AFTER"[i]);
    }
  }

  lemma {:induction false} EitherCase(c: char, lower: char, upper: char)
    requires ('a' <= lower <= 'z' && upper as int == lower as int - 32) || (lower == upper == '-')
    ensures Lower(c) == lower <==> c == lower || c == upper
  {
  }

  function Truncated(s: string): (r: string)
  {
    if |s| > RETRY_AFTER_ROOM then s[..RETRY_AFTER_ROOM] else s
  }

  /** The last Retry-After header, cut to the 63 characters the engine keeps. */
  function RetryAfterHeader(hs: seq<Header>): (r: Option<string>)
  {
    if hs == [] then None
    else
      var last := hs[|hs| - 1];
      if NameIs(last.name, RETRY_AFTER_NAME) then Some(Truncated(last.value))
      else RetryAfterHeader(hs[..|hs| - 1])
  }

  /** The wait the response asks for, UINT64_MAX for none. */
  function RetryAfterOf(hs: seq<Header>): (ms: U64)
  {
    var h := RetryAfterHeader(hs);
    if h.Some? then RetryAfterMs(h.value) else UINT64_MAX
  }

  predicate NoRetryAfter(hs: seq<Header>)
  {
    forall i :: 0 <= i < |hs| ==> !NameIs(hs[i].name, RETRY_AFTER_NAME)
  }

  /** Headers of other names do not matter. */
  lemma {:induction false} OthersDoNotMatter(hs: seq<Header>, post: seq<Header>)
    requires NoRetryAfter(post)
    ensures RetryAfterHeader(hs + post) == RetryAfterHeader(hs)
    decreases |post|
  {
    var n := |post| - 1;
    if post == [] {
      assert hs + post == hs;
    } else {
      assert (hs + post)[..|hs + post| - 1] == hs + post[..n];
      OthersDoNotMatter(hs, post[..n]);
    }
  }

  /** The last Retry-After header of a response, wherever it stands: if the engine
      can hold it, it is honoured exactly; a longer one is judged by its first 63
      characters; and a response without one asks for no wait. */
  lemma {:induction false} RetryAfterHonoured(pre: seq<Header>, name: string, value: string, post: seq<Header>,
                                              lead: string, digits: string, trail: string)
    requires NameIs(name, RETRY_AFTER_NAME) && NoRetryAfter(post)
    ensures RetryAfterOf(pre + [Header(name, value)] + post) == RetryAfterMs(value[..Min(|value|, 63)])
    ensures IsDelta(value, lead, digits, trail) && |value| <= 63 ==>
              RetryAfterOf(pre + [Header(name, value)] + post)
              == Min(1000 * Decimal.Value(digits), 1_000_000_000_000_000)
    ensures RetryAfterOf(post) == UINT64_MAX
  {
    var hs := pre + [Header(name, value)];
    assert value[..Min(|value|, 63)] == Truncated(value);
    assert hs[|hs| - 1] == Header(name, value);
    OthersDoNotMatter(hs, post);
    OthersDoNotMatter([], post);
    assert [] + post == post;
    if IsDelta(value, lead, digits, trail) {
      RetryAfterOfDelta(value, lead, digits, trail);
    }
  }

  function ChunksOf(w: Wire): (r: seq<seq<Byte>>)
  {
    if w.Response? then w.chunks else []
  }

  function HeadersOf(w: Wire): (r: seq<Header>)
  {
    if w.Response? then w.headers else []
  }

  function HttpOf(w: Wire): (r: int)
  {
    if w.Response? then w.httpStatus else 0
  }

  // ----- the streaming path -----

  /** Untangled end of a transfer. */
  datatype End = End(ts: Transport, body: BodyState, terminal: Status)

  function NoMemIsTerminal(e: End): (r: End)
  {
    if e.ts == TransportNoMem then e.(terminal := NoMem) else e
  }

  /** What a sink-driven abort of a stream really was. */
  function UntangleStream(ts: Transport, o: Sse.Out<Ctx>): (e: End)
  {
    if ts != AbortedBySink then NoMemIsTerminal(End(ts, BodyOk, Ok))
    else if o.ctx.done then End(TransportOk, BodyOk, Ok)
    else if o.rc == STREAM_CANCEL then End(TransportCancelled, BodyOk, Ok)
    else if o.ctx.err == NoMem || o.p.err == NoMem then End(AbortedBySink, BodyOk, NoMem)
    else End(TransportOk, BodyTooBig, Ok)
  }

  predicate Clean(e: End, http: int)
  {
    e == End(TransportOk, BodyOk, Ok) && Http2xx(http)
  }

  /** The lenient flush at the end of a clean stream, and the verdict on a stream
      that ended with neither [DONE] nor a finish reason. */
  function FinishStream(h: Hooks, o: Sse.Out<Ctx>, trip: nat): (r: (End, Ctx))
    requires Sse.Valid(o.p)
  {
    var f := if o.ctx.done then Sse.Out(o.p, o.ctx, 0) else Sse.Finish(ParserEnv(h, trip), o.p, o.ctx);
    var x := f.ctx;
    var e :=
      if f.rc == STREAM_CANCEL then End(TransportCancelled, BodyOk, Ok)
      else if f.rc == -1 then
        if x.err == NoMem || f.p.err == NoMem then End(TransportOk, BodyOk, NoMem)
        else End(TransportOk, BodyTooBig, Ok)
      else End(TransportOk, BodyOk, Ok);
    if e == End(TransportOk, BodyOk, Ok) && !x.done && x.r.finishRaw == None then
      (e.(body := if x.sawEvent then BodyMalformed else BodyEmpty), x)
    else (e, x)
  }

  function FeedStream(lim: Limits, h: Hooks, w: Wire, trip: nat, r: Content, log: seq<Call>,
                      allocs: nat): (o: Sse.Out<Ctx>)
    ensures Sse.Valid(o.p)
  {
    Sse.FeedAll(ParserEnv(h, trip), Sse.Init(lim.maxEvent), NewCtx(trip, r, log, allocs), ChunksOf(w))
  }

  /** From the end of the transfer to the outcome. */
  function ConcludeStream(h: Hooks, trip: nat, ts: Transport, http: int, hs: seq<Header>, fed: Sse.Out<Ctx>)
    : (o: Outcome)
    requires Sse.Valid(fed.p)
  {
    var e := UntangleStream(ts, fed);
    var (e', x) := if Clean(e, http) then FinishStream(h, fed, trip) else (e, fed.ctx);
    Outcome(e'.ts, http, e'.body, RetryAfterOf(hs), x.delivered, e'.terminal, x.r, x.log, x.allocs)
  }

  function StreamAttempt(lim: Limits, h: Hooks, w: Wire, trip: nat, r: Content, log: seq<Call>, allocs: nat)
    : (o: Outcome)
  {
    var fed := FeedStream(lim, h, w, trip, r, log, allocs);
    ConcludeStream(h, trip, if fed.rc != 0 then AbortedBySink else w.ts, HttpOf(w), HeadersOf(w), fed)
  }

  // ----- the non-streaming path -----

  /** The body buffer after the chunks, up to the first that does not fit; `n`
      counts the appends of this round trip. */
  function Accumulate(h: Hooks, trip: nat, b: BufV, chunks: seq<seq<Byte>>, n: nat): (r: BufV)
    decreases |chunks|
  {
    if chunks == [] || b.err != Ok then b
    else Accumulate(h, trip, b.Append(chunks[0], h.parserAlloc(trip, n)), chunks[1..], n + 1)
  }

  datatype Parsed = Parsed(x: Ctx, body: BodyState, status: Status)

  /** A string member appended to the text or the reasoning. */
  function Lift(h: Hooks, x: Ctx, target: Target, bytes: Option<seq<Byte>>): (p: Parsed)
  {
    if bytes == None then Parsed(x, BodyOk, Ok)
    else
      var b := Buffer(x, target).Append(bytes.value, h.alloc(x.allocs));
      var x1 := WithBuffer(x, target, b).(allocs := x.allocs + 1);
      if b.err == TooBig then Parsed(x1, BodyTooBig, Ok)
      else if b.err != Ok then Parsed(x1, BodyMalformed, NoMem)
      else Parsed(x1, BodyOk, Ok)
  }

  /** Its last steps: finish reason, usage and model. */
  function ParseTail(h: Hooks, x: Ctx, reply: Reply): (p: Parsed)
    requires reply.Reply?
  {
    var (x3, rc3) := SetFinish(h, x, reply.finish);
    if rc3 != 0 then Parsed(x3, BodyMalformed, NoMem)
    else
      var (x4, rc4) := LiftTail(h, x3, reply.usage, reply.model);
      if rc4 != 0 then Parsed(x4, BodyMalformed, NoMem) else Parsed(x4, BodyOk, Ok)
  }

  /** sicha_response_parse. */
  function ParseBody(h: Hooks, x: Ctx, body: seq<Byte>): (p: Parsed)
  {
    if body == [] then Parsed(x, BodyEmpty, Ok)
    else match h.parseBody(body)
      case BadReply => Parsed(x, BodyMalformed, Ok)
      case Reply(content, toolCalls, reasoning, _, _, _) =>
        if content == None && !toolCalls then Parsed(x, BodyMalformed, Ok)
        else
          var p1 := Lift(h, x, Text, content);
          if p1.body != BodyOk then p1
          else
            var p2 := Lift(h, p1.x, Reasoning, reasoning);
            if p2.body != BodyOk then p2
            else
              ParseTail(h, p2.x, h.parseBody(body))
  }

  function UntangleBody(ts: Transport, b: BufV): (e: End)
  {
    if ts != AbortedBySink then NoMemIsTerminal(End(ts, BodyOk, Ok))
    else if b.err == NoMem then End(AbortedBySink, BodyOk, NoMem)
    else End(TransportOk, BodyTooBig, Ok)
  }

  /** Parse, then keep the verbatim body; taking it needs memory only when the buffer
      never had storage (Buf.ByteBuf.Take), that is, when nothing, not even an empty
      chunk, was `stored` in it.  An answer of the allocator is set aside for every
      empty body. */
  function FinishBody(h: Hooks, x: Ctx, b: BufV, stored: bool): (r: (End, Ctx))
  {
    var p := ParseBody(h, x, b.bytes);
    if p.status != Ok then (End(TransportOk, p.body, p.status), p.x)
    else
      var (raw, _) := TakeSpec(b, stored || h.alloc(p.x.allocs));
      var x' := if b.bytes != [] then p.x else p.x.(allocs := p.x.allocs + 1);
      if raw == None then (End(TransportOk, p.body, NoMem), x')
      else (End(TransportOk, p.body, Ok), x'.(r := x'.r.(rawBody := raw)))
  }

  /** From the end of the transfer to the outcome. */
  function ConcludePlain(h: Hooks, ts: Transport, http: int, hs: seq<Header>, b: BufV, stored: bool, x: Ctx)
    : (o: Outcome)
  {
    var e := UntangleBody(ts, b);
    var (e', x') := if Clean(e, http) then FinishBody(h, x, b, stored) else (e, x);
    Outcome(e'.ts, http, e'.body, RetryAfterOf(hs), false, e'.terminal, x'.r, x'.log, x'.allocs)
  }

  function PlainAttempt(lim: Limits, h: Hooks, w: Wire, trip: nat, r: Content, log: seq<Call>, allocs: nat)
    : (o: Outcome)
  {
    var b := Accumulate(h, trip, Empty(lim.maxResponse), ChunksOf(w), 0);
    ConcludePlain(h, if b.err != Ok then AbortedBySink else w.ts, HttpOf(w), HeadersOf(w), b,
                  ChunksOf(w) != [], NewCtx(trip, r, log, allocs))
  }

  /** run_attempt. */
  function RunSpec(lim: Limits, h: Hooks, stream: bool, w: Wire, trip: nat, r: Content, log: seq<Call>, allocs: nat)
    : (o: Outcome)
  {
    if stream then StreamAttempt(lim, h, w, trip, r, log, allocs)
    else PlainAttempt(lim, h, w, trip, r, log, allocs)
  }

  // ----- laws -----

  /** Two wires that differ only in where the body is cut. */
  ghost predicate SameButFragmented(w: Wire, w': Wire)
  {
    && w.ts == w'.ts && w.Response? == w'.Response?
    && (w.Response? ==> w.httpStatus == w'.httpStatus && w.headers == w'.headers)
    && Concat(ChunksOf(w)) == Concat(ChunksOf(w'))
  }

  /** Streaming: transport status after untangling, body state, delivered flag,
      text, finish, the whole callback sequence and everything else is the same for
      every fragmentation, whatever callbacks and allocator do. */
  lemma {:induction false} StreamFragmentationIndependence(lim: Limits, h: Hooks, w: Wire, w': Wire, trip: nat,
                                                           r: Content, log: seq<Call>, allocs: nat)
    requires SameButFragmented(w, w')
    ensures StreamAttempt(lim, h, w, trip, r, log, allocs) == StreamAttempt(lim, h, w', trip, r, log, allocs)
  {
    var env, p, x := ParserEnv(h, trip), Sse.Init(lim.maxEvent), NewCtx(trip, r, log, allocs);
    Sse.PartitionIndependence(env, p, x, ChunksOf(w));
    Sse.PartitionIndependence(env, p, x, ChunksOf(w'));
  }

  /** The body as it accumulates: all of it, or too big exactly past the cap, or cut
      short by a refused append. */
  lemma {:induction false} AccumulateIsConcat(h: Hooks, trip: nat, b: BufV, chunks: seq<seq<Byte>>, n: nat)
    requires b.err == Ok && (b.max == 0 || |b.bytes| <= b.max)
    ensures var r := Accumulate(h, trip, b, chunks, n);
            var all := b.bytes + Concat(chunks);
            && r.max == b.max
            && (r.err == NoMem || (if b.max == 0 || |all| <= b.max then r == b.(bytes := all) else r.err == TooBig))
            && (r.err == NoMem ==> exists k :: n <= k < n + |chunks| && !h.parserAlloc(trip, k))
    decreases |chunks|
  {
    if chunks == [] {
      assert b.bytes + Concat(chunks) == b.bytes;
    } else {
      var b' := b.Append(chunks[0], h.parserAlloc(trip, n));
      assert b.bytes + chunks[0] + Concat(chunks[1..]) == b.bytes + Concat(chunks);
      if b'.err == Ok {
        AccumulateIsConcat(h, trip, b', chunks[1..], n + 1);
      } else {
        assert n <= n < n + |chunks|;
      }
    }
  }

  /** The body of a plain response runs out of memory. */
  predicate BodyStarves(lim: Limits, h: Hooks, w: Wire, trip: nat)
  {
    Accumulate(h, trip, Empty(lim.maxResponse), ChunksOf(w), 0).err == NoMem
  }

  /** An empty body arrives whole, without any chunk, and memory to take it is
      refused. */
  predicate TakeStarves(h: Hooks, w: Wire, allocs: nat)
  {
    ChunksOf(w) == [] && Clean(End(w.ts, BodyOk, Ok), HttpOf(w)) && !h.alloc(allocs)
  }

  lemma {:induction false} StarvedOutcome(lim: Limits, h: Hooks, w: Wire, trip: nat, r: Content, log: seq<Call>,
                                          allocs: nat)
    ensures var o := PlainAttempt(lim, h, w, trip, r, log, allocs);
            && (BodyStarves(lim, h, w, trip) <==> o.ts == AbortedBySink && o.terminal == NoMem)
            && (BodyStarves(lim, h, w, trip) ==>
                  o == Outcome(AbortedBySink, HttpOf(w), BodyOk, RetryAfterOf(HeadersOf(w)), false, NoMem,
                               r, log, allocs))
  {
  }

  lemma {:induction false} TakeOutcome(lim: Limits, h: Hooks, w: Wire, trip: nat, r: Content, log: seq<Call>,
                                       allocs: nat)
    ensures var o := PlainAttempt(lim, h, w, trip, r, log, allocs);
            TakeStarves(h, w, allocs) ==> o.terminal == NoMem && o.body == BodyEmpty && o.ts == TransportOk
  {
  }

  lemma {:induction false} FedOutcome(lim: Limits, h: Hooks, w: Wire, w': Wire, trip: nat, r: Content,
                                      log: seq<Call>, allocs: nat)
    requires SameButFragmented(w, w') && !BodyStarves(lim, h, w, trip) && !BodyStarves(lim, h, w', trip)
    requires TakeStarves(h, w, allocs) == TakeStarves(h, w', allocs)
    ensures PlainAttempt(lim, h, w, trip, r, log, allocs) == PlainAttempt(lim, h, w', trip, r, log, allocs)
  {
    AccumulateIsConcat(h, trip, Empty(lim.maxResponse), ChunksOf(w), 0);
    AccumulateIsConcat(h, trip, Empty(lim.maxResponse), ChunksOf(w'), 0);
    var b, x := Accumulate(h, trip, Empty(lim.maxResponse), ChunksOf(w), 0), NewCtx(trip, r, log, allocs);
    if b.err == Ok && b.bytes != [] {
      assert ChunksOf(w) != [] && ChunksOf(w') != [];
    }
  }

  lemma {:induction false} OneTakeStarves(lim: Limits, h: Hooks, w: Wire, w': Wire, trip: nat, r: Content,
                                          log: seq<Call>, allocs: nat)
    requires SameButFragmented(w, w') && !BodyStarves(lim, h, w, trip) && !BodyStarves(lim, h, w', trip)
    requires TakeStarves(h, w, allocs) && !TakeStarves(h, w', allocs)
    ensures PlainAttempt(lim, h, w', trip, r, log, allocs).terminal == Ok
  {
    AccumulateIsConcat(h, trip, Empty(lim.maxResponse), ChunksOf(w), 0);
    AccumulateIsConcat(h, trip, Empty(lim.maxResponse), ChunksOf(w'), 0);
  }

  /** Not streaming: the same, exactly if memory gives out under both fragmentations
      at the same point or under neither. */
  lemma {:induction false} PlainFragmentationIndependence(lim: Limits, h: Hooks, w: Wire, w': Wire, trip: nat,
                                                          r: Content, log: seq<Call>, allocs: nat)
    requires SameButFragmented(w, w')
    ensures PlainAttempt(lim, h, w, trip, r, log, allocs) == PlainAttempt(lim, h, w', trip, r, log, allocs)
            <==> StarveAlike(lim, h, w, w', trip, allocs)
  {
    StarvedOutcome(lim, h, w, trip, r, log, allocs);
    StarvedOutcome(lim, h, w', trip, r, log, allocs);
    if !BodyStarves(lim, h, w, trip) && !BodyStarves(lim, h, w', trip) {
      if TakeStarves(h, w, allocs) == TakeStarves(h, w', allocs) {
        FedOutcome(lim, h, w, w', trip, r, log, allocs);
      } else if TakeStarves(h, w, allocs) {
        TakeOutcome(lim, h, w, trip, r, log, allocs);
        OneTakeStarves(lim, h, w, w', trip, r, log, allocs);
      } else {
        TakeOutcome(lim, h, w', trip, r, log, allocs);
        OneTakeStarves(lim, h, w', w, trip, r, log, allocs);
      }
    }
  }

  predicate StarveAlike(lim: Limits, h: Hooks, w: Wire, w': Wire, trip: nat, allocs: nat)
  {
    && BodyStarves(lim, h, w, trip) == BodyStarves(lim, h, w', trip)
    && TakeStarves(h, w, allocs) == TakeStarves(h, w', allocs)
  }

  /** With memory for every append no body starves. */
  lemma {:induction false} AmpleBody(lim: Limits, h: Hooks, w: Wire, trip: nat)
    requires forall k :: h.parserAlloc(trip, k)
    ensures !BodyStarves(lim, h, w, trip)
  {
    AccumulateIsConcat(h, trip, Empty(lim.maxResponse), ChunksOf(w), 0);
  }

  /** What the event callback keeps, a streamed round trip keeps: its outcome is read
      off a context with the invariant. */
  lemma {:induction false} StreamAttemptKeeps(lim: Limits, h: Hooks, w: Wire, trip: nat, r: Content, log: seq<Call>,
                                              allocs: nat, inv: Ctx -> bool)
    returns (x: Ctx)
    requires Sse.KeptByCallback(ParserEnv(h, trip), inv) && inv(NewCtx(trip, r, log, allocs))
    ensures var o := StreamAttempt(lim, h, w, trip, r, log, allocs);
            inv(x) && o.r == x.r && o.log == x.log && o.delivered == x.delivered && o.allocs == x.allocs
  {
    var env := ParserEnv(h, trip);
    Sse.FeedAllKeeps(env, inv, Sse.Init(lim.maxEvent), NewCtx(trip, r, log, allocs), ChunksOf(w));
    var fed := FeedStream(lim, h, w, trip, r, log, allocs);
    x := fed.ctx;
    var e := UntangleStream(if fed.rc != 0 then AbortedBySink else w.ts, fed);
    if Clean(e, HttpOf(w)) {
      Sse.FinishKeeps(env, inv, fed.p, fed.ctx);
      x := FinishStream(h, fed, trip).1;
    }
  }

  lemma {:induction false} FaithfulIsKept(h: Hooks, trip: nat, log: seq<Call>)
    ensures Sse.KeptByCallback(ParserEnv(h, trip), (x: Ctx) => Faithful(h, log, trip, x))
  {
    var env := ParserEnv(h, trip);
    forall x: Ctx, d: seq<Byte> | Faithful(h, log, trip, x)
      ensures Faithful(h, log, trip, env.onEvent(x, d).0)
    {
      OnEventFaithful(h, log, trip, x, d);
    }
  }

  /** A streamed round trip keeps its context faithful to what the callbacks were
      told. */
  lemma {:induction false} StreamAttemptFaithful(lim: Limits, h: Hooks, w: Wire, trip: nat, r: Content,
                                                 log: seq<Call>, allocs: nat)
    requires r.text.bytes == [] && r.reasoning.bytes == []
    ensures var o := StreamAttempt(lim, h, w, trip, r, log, allocs);
            && log <= o.log
            && (forall i :: |log| <= i < |o.log| ==> o.log[i].trip == trip)
            && (o.delivered <==> AnyCommit(o.log, |log|))
            && Echoed(h, log, o.log, o.r)
  {
    FaithfulIsKept(h, trip, log);
    assert Heard(log, OnDelta) + [] == Heard(log, OnDelta);
    assert Heard(log, OnReasoning) + [] == Heard(log, OnReasoning);
    assert Faithful(h, log, trip, NewCtx(trip, r, log, allocs));
    var x := StreamAttemptKeeps(lim, h, w, trip, r, log, allocs, (x: Ctx) => Faithful(h, log, trip, x));
  }

  // ----- the imperative round trip -----

  /** The body callback for a streamed response, chunk after chunk. */
  method ReceiveStream(h: Hooks, parser: SseParser.SseParser, x: Ctx, chunks: seq<seq<Byte>>, trip: nat)
    returns (rc: int, x': Ctx)
    requires Sse.Valid(parser.View())
    modifies parser
    ensures Sse.Valid(parser.View())
    ensures Sse.Out(parser.View(), x', rc) == Sse.FeedAll(ParserEnv(h, trip), old(parser.View()), x, chunks)
  {
    rc, x' := 0, x;
    var i := 0;
    while i < |chunks|
      invariant 0 <= i <= |chunks| && rc == 0 && Sse.Valid(parser.View())
      invariant Sse.FeedAll(ParserEnv(h, trip), old(parser.View()), x, chunks)
                == Sse.FeedAll(ParserEnv(h, trip), parser.View(), x', chunks[i..])
    {
      rc, x' := parser.OnBytes(ParserEnv(h, trip), x', chunks[i]);
      if rc != 0 {
        return;
      }
      i := i + 1;
    }
  }

  /** The body callback for a plain response. */
  method ReceiveBody(h: Hooks, max: nat, chunks: seq<seq<Byte>>, trip: nat) returns (b: BufV)
    ensures b == Accumulate(h, trip, Empty(max), chunks, 0)
  {
    b := Empty(max);
    var i := 0;
    while i < |chunks| && b.err == Ok
      invariant 0 <= i <= |chunks|
      invariant Accumulate(h, trip, Empty(max), chunks, 0) == Accumulate(h, trip, b, chunks[i..], i)
    {
      b := b.Append(chunks[i], h.parserAlloc(trip, i));
      i := i + 1;
    }
  }

  /** attempt_on_status: every matching header overwrites the one before. */
  method ReceiveHeaders(hs: seq<Header>) returns (value: Option<string>)
    ensures value == RetryAfterHeader(hs)
  {
    value := None;
    var i := 0;
    while i < |hs|
      invariant 0 <= i <= |hs| && value == RetryAfterHeader(hs[..i])
    {
      assert hs[..i + 1][..i] == hs[..i];
      if NameIs(hs[i].name, RETRY_AFTER_NAME) {
        value := Some(Truncated(hs[i].value));
      }
      i := i + 1;
    }
    assert hs[..|hs|] == hs;
  }

  /** run_attempt, filling the outcome step by step. */
  method RunAttempt(lim: Limits, h: Hooks, stream: bool, w: Wire, trip: nat, r: Content, log: seq<Call>, allocs: nat)
    returns (o: Outcome)
    ensures o == RunSpec(lim, h, stream, w, trip, r, log, allocs)
  {
    var x := NewCtx(trip, r, log, allocs);
    var e: End;
    if stream {
      var parser := new SseParser.SseParser(lim.maxEvent);
      var rc: int;
      rc, x := ReceiveStream(h, parser, x, ChunksOf(w), trip);
      e := UntangleStream(if rc != 0 then AbortedBySink else w.ts,
                          Sse.Out(Snapshot(parser), x, rc));
      if Clean(e, HttpOf(w)) {
        e, x := CloseStream(h, parser, x, rc, trip);
      }
    } else {
      var b := ReceiveBody(h, lim.maxResponse, ChunksOf(w), trip);
      e := UntangleBody(if b.err != Ok then AbortedBySink else w.ts, b);
      if Clean(e, HttpOf(w)) {
        var (e', x') := FinishBody(h, x, b, ChunksOf(w) != []);
        e, x := e', x';
      }
    }
    var retryAfter: U64 := UINT64_MAX;
    var value := ReceiveHeaders(HeadersOf(w));
    if value.Some? {
      retryAfter := ParseRetryAfter(value.value);
    }
    o := Outcome(e.ts, HttpOf(w), e.body, retryAfter, stream && x.delivered, e.terminal, x.r, x.log, x.allocs);
  }

  function Snapshot(parser: SseParser.SseParser): (p: Sse.Parser)
    reads parser
    ensures p == parser.View()
  {
    Sse.Parser(parser.line, parser.data, parser.haveData, parser.lastWasCr, parser.bomSeen,
               parser.bomDecided, parser.err, parser.appends)
  }

  /** The lenient end of a clean stream. */
  method CloseStream(h: Hooks, parser: SseParser.SseParser, x: Ctx, rc: int, trip: nat) returns (e: End, x': Ctx)
    requires Sse.Valid(parser.View())
    modifies parser
    ensures (e, x') == FinishStream(h, Sse.Out(old(parser.View()), x, rc), trip)
  {
    e, x' := End(TransportOk, BodyOk, Ok), x;
    if !x.done {
      var code: int;
      code, x' := parser.OnEnd(ParserEnv(h, trip), x);
      if code == STREAM_CANCEL {
        e := e.(ts := TransportCancelled);
      } else if code == -1 {
        if x'.err == NoMem || parser.err == NoMem {
          e := e.(terminal := NoMem);
        } else {
          e := e.(body := BodyTooBig);
        }
      }
    }
    if e == End(TransportOk, BodyOk, Ok) && !x'.done && x'.r.finishRaw == None {
      e := e.(body := if x'.sawEvent then BodyMalformed else BodyEmpty);
    }
  }
}
