/** Virtual-time exactness: how a scripted response ends, as a closed form of its
    delays, the deadlines, the token and the sink. */
module ScriptClosedForm {
  import opened Bytes
  import opened Classify
  import opened Script

  /** The budgets of the body phase. */
  datatype Pace = Pace(per: U64, idle: U32, dlTotal: U64, cancelAt: nat)

  function Send<S>(sink: Sink<S>, c: S, t0: U64, chunks: seq<seq<Byte>>, b: Pace, n: nat): (e: Served<S>)
  {
    Transfer(sink, c, t0, chunks, b.per, b.idle, b.dlTotal, b.cancelAt, n)
  }

  function DeadlinesAt(t: U64, b: Pace): (d: Deadlines)
  {
    ChunkDeadlines(t, b.idle, b.dlTotal, b.cancelAt)
  }

  /** When the j-th chunk is due. */
  function DueAt(t0: nat, j: nat, b: Pace): (t: nat)
  {
    t0 + Times(j, b.per)
  }

  /** The j-th chunk, due j delays after t0, comes before the idle deadline, the
      total deadline and the token. */
  predicate InTime(t0: nat, j: nat, b: Pace)
  {
    && (b.idle == NO_LIMIT || b.per < b.idle)
    && DueAt(t0, j, b) < b.dlTotal && DueAt(t0, j, b) < b.cancelAt
  }

  /** What the sink has after some chunks. */
  function Swallow<S>(sink: Sink<S>, c: S, chunks: seq<seq<Byte>>): (r: S)
    decreases |chunks|
  {
    if chunks == [] then c else Swallow(sink, sink.onBody(c, chunks[0]).0, chunks[1..])
  }

  /** The sink takes the first k chunks. */
  predicate Takes<S>(sink: Sink<S>, c: S, chunks: seq<seq<Byte>>, k: nat)
    requires k <= |chunks|
    decreases k
  {
    k == 0 || (sink.onBody(c, chunks[0]).1 == 0 && Takes(sink, sink.onBody(c, chunks[0]).0, chunks[1..], k - 1))
  }

  /** How a body phase begun at t0 ends when exactly k chunks are delivered: the k-th
      (hence each: EarlierInTime) was in time, all were taken; and the next one, if any, is late, with the class and the
      instant of the deadline it misses, or refused by the sink when it is due. */
  ghost predicate EndsAfter<S(!new)>(sink: Sink<S>, c: S, t0: U64, chunks: seq<seq<Byte>>, b: Pace,
                                     e: Served<S>, k: nat)
  {
    && k <= |chunks| && Takes(sink, c, chunks, k)
    && (k > 0 ==> InTime(t0, k, b))
    && DueAt(t0, k, b) <= UINT64_MAX
    && Last(sink, Swallow(sink, c, chunks[..k]), DueAt(t0, k, b), chunks[k..], b, e)
  }

  /** The end of a phase that delivers nothing more from instant t on. */
  ghost predicate Last<S(!new)>(sink: Sink<S>, c: S, t: U64, chunks: seq<seq<Byte>>, b: Pace, e: Served<S>)
  {
    if chunks == [] then e.st == TransportOk && e.now == t && e.ctx == c
    else if InTime(t, 1, b) then
      && sink.onBody(c, chunks[0]).1 != 0
      && e.st == AbortedBySink && e.now == t + b.per && e.ctx == sink.onBody(c, chunks[0]).0
    else
      && e.st == EndStatus(t, b.per, DeadlinesAt(t, b)) != TransportOk
      && e.now == EndTime(t, b.per, DeadlinesAt(t, b)) && e.ctx == c
  }

  lemma {:induction false} TimesStep(j: nat, per: nat)
    ensures Times(j + 1, per) == Times(j, per) + per && Times(0, per) == 0
  {
  }

  /** One delay: in time, or cut short. */
  lemma {:induction false} OneDelay(t: U64, b: Pace)
    ensures var d := DeadlinesAt(t, b);
            && (EndStatus(t, b.per, d) == TransportOk <==> InTime(t, 1, b))
            && (InTime(t, 1, b) ==> EndTime(t, b.per, d) == t + b.per <= UINT64_MAX)
  {
    TimesStep(0, b.per);
  }

  /** The chunk loop's body. */
  lemma {:induction false} SendStep<S>(sink: Sink<S>, c: S, t0: U64, chunks: seq<seq<Byte>>, b: Pace, n: nat)
    requires chunks != []
    ensures var d := DeadlinesAt(t0, b);
            var (c1, rc) := sink.onBody(c, chunks[0]);
            && (InTime(t0, 1, b) ==> t0 + b.per <= UINT64_MAX)
            && Send(sink, c, t0, chunks, b, n)
               == if !InTime(t0, 1, b) then Served(EndStatus(t0, b.per, d), c, EndTime(t0, b.per, d), n)
                  else if rc != 0 then Served(AbortedBySink, c1, t0 + b.per, n)
                  else Send(sink, c1, t0 + b.per, chunks[1..], b, n + 1)
  {
    OneDelay(t0, b);
  }

  lemma {:induction false} LastEnds<S(!new)>(sink: Sink<S>, c: S, t0: U64, chunks: seq<seq<Byte>>, b: Pace,
                                             e: Served<S>)
    requires Last(sink, c, t0, chunks, b, e)
    ensures EndsAfter(sink, c, t0, chunks, b, e, 0)
  {
    NoneSwallowed(sink, c, t0, chunks, b);
  }

  lemma {:induction false} NoneSwallowed<S>(sink: Sink<S>, c: S, t0: U64, chunks: seq<seq<Byte>>, b: Pace)
    ensures Swallow(sink, c, chunks[..0]) == c && chunks[0..] == chunks && DueAt(t0, 0, b) == t0
    ensures Takes(sink, c, chunks, 0)
  {
    TimesStep(0, b.per);
    assert chunks[..0] == [] && chunks[0..] == chunks;
  }

  lemma {:induction false} EndsNow<S(!new)>(sink: Sink<S>, c: S, t0: U64, chunks: seq<seq<Byte>>, b: Pace, n: nat)
    requires chunks == [] || !InTime(t0, 1, b) || sink.onBody(c, chunks[0]).1 != 0
    ensures var e := Send(sink, c, t0, chunks, b, n); e.delivered == n && EndsAfter(sink, c, t0, chunks, b, e, 0)
  {
    if chunks != [] {
      SendStep(sink, c, t0, chunks, b, n);
      OneDelay(t0, b);
    }
    LastEnds(sink, c, t0, chunks, b, Send(sink, c, t0, chunks, b, n));
  }

  lemma {:induction false} EndsOneLater<S(!new)>(sink: Sink<S>, c: S, t0: U64, chunks: seq<seq<Byte>>, b: Pace,
                                                 e: Served<S>, k: nat)
    requires chunks != [] && InTime(t0, 1, b) && t0 + b.per <= UINT64_MAX && sink.onBody(c, chunks[0]).1 == 0
    requires EndsAfter(sink, sink.onBody(c, chunks[0]).0, t0 + b.per, chunks[1..], b, e, k)
    ensures EndsAfter(sink, c, t0, chunks, b, e, k + 1)
  {
    DueOneLater(t0, k, b);
    SwallowOneMore(sink, c, chunks, k);
  }

  lemma {:induction false} DueOneLater(t0: nat, k: nat, b: Pace)
    ensures DueAt(t0 + b.per, k, b) == DueAt(t0, k + 1, b)
    ensures (if k == 0 then InTime(t0, 1, b) else InTime(t0 + b.per, k, b)) ==> InTime(t0, k + 1, b)
  {
    TimesStep(k, b.per);
  }

  lemma {:induction false} SwallowOneMore<S>(sink: Sink<S>, c: S, chunks: seq<seq<Byte>>, k: nat)
    requires chunks != [] && k <= |chunks| - 1
    ensures Swallow(sink, c, chunks[..k + 1]) == Swallow(sink, sink.onBody(c, chunks[0]).0, chunks[1..][..k])
    ensures chunks[k + 1..] == chunks[1..][k..]
  {
    assert chunks[..k + 1][1..] == chunks[1..][..k];
  }

  /** Chunks before one that is in time are in time. */
  lemma {:induction false} EarlierInTime(t0: nat, j: nat, k: nat, b: Pace)
    requires j <= k && InTime(t0, k, b)
    ensures InTime(t0, j, b)
  {
    if j < k {
      TimesMonotone(j, k, b.per);
    }
  }

  /** The body phase from t0 on has the closed form. */
  ghost predicate Closed<S(!new)>(sink: Sink<S>, c: S, t0: U64, chunks: seq<seq<Byte>>, b: Pace, n: nat)
  {
    var e := Send(sink, c, t0, chunks, b, n);
    e.delivered >= n && EndsAfter(sink, c, t0, chunks, b, e, e.delivered - n)
  }

  lemma {:induction false} ClosedOneEarlier<S(!new)>(sink: Sink<S>, c: S, t0: U64, chunks: seq<seq<Byte>>, b: Pace,
                                                     n: nat)
    requires chunks != [] && InTime(t0, 1, b) && t0 + b.per <= UINT64_MAX && sink.onBody(c, chunks[0]).1 == 0
    requires Closed(sink, sink.onBody(c, chunks[0]).0, t0 + b.per, chunks[1..], b, n + 1)
    ensures Closed(sink, c, t0, chunks, b, n)
  {
    var e := Send(sink, c, t0, chunks, b, n);
    assert e == Send(sink, sink.onBody(c, chunks[0]).0, t0 + b.per, chunks[1..], b, n + 1) by {
      SendStep(sink, c, t0, chunks, b, n);
    }
    EndsOneLater(sink, c, t0, chunks, b, e, e.delivered - (n + 1));
  }

  /** The closed form of the body phase, for every pace, token and sink: the chunks
      delivered are the longest run that is in time and taken. */
  lemma {:induction false} TransferClosedForm<S(!new)>(sink: Sink<S>, c: S, t0: U64, chunks: seq<seq<Byte>>,
                                                       b: Pace, n: nat)
    ensures Closed(sink, c, t0, chunks, b, n)
    decreases |chunks|
  {
    if chunks != [] && InTime(t0, 1, b) && sink.onBody(c, chunks[0]).1 == 0 {
      OneDelay(t0, b);
      TransferClosedForm(sink, sink.onBody(c, chunks[0]).0, t0 + b.per, chunks[1..], b, n + 1);
      ClosedOneEarlier(sink, c, t0, chunks, b, n);
    } else {
      EndsNow(sink, c, t0, chunks, b, n);
    }
  }

  // ----- all three phases -----

  /** A delay from t ends before both deadlines and the token. */
  predicate Due(t: nat, delay: nat, d: Deadlines)
  {
    t + delay < d.a && t + delay < d.b && t + delay < d.cancelAt
  }

  lemma {:induction false} PhaseClosedForm(t: U64, delay: U64, d: Deadlines)
    requires d.stA != TransportOk && d.stB != TransportOk
    ensures EndStatus(t, delay, d) == TransportOk <==> Due(t, delay, d)
    ensures Due(t, delay, d) ==> EndTime(t, delay, d) == t + delay
  {
  }

  /** From the first byte on, at instant t: a sink that refuses the status, or a body
      phase, at whose complete end the scripted status stands. */
  ghost predicate Responds<S(!new)>(r: ScriptResponse, b: Pace, sink: Sink<S>, c: S, t: U64, e: Served<S>)
  {
    var (c2, rc) := sink.onStatus(c, r.httpStatus, r.headers);
    if rc != 0 then e == Served(AbortedBySink, c2, t, 0)
    else
      var chunks := Chunks(Sent(r), r.chunkSize);
      && e.delivered <= |chunks|
      && (e.delivered == |chunks| ==> e.st == r.status)
      && EndsAfter(sink, c2, t, chunks, b, if e.delivered == |chunks| then e.(st := TransportOk) else e, e.delivered)
  }

  lemma {:induction false} RespondClosedForm<S(!new)>(r: ScriptResponse, b: Pace, sink: Sink<S>, c: S, t: U64)
    returns (e: Served<S>)
    requires b.per == r.perChunkDelayMs
    ensures e == Respond(r, b.idle, b.dlTotal, b.cancelAt, sink, c, t)
    ensures Responds(r, b, sink, c, t, e)
  {
    BodyClosedForm(r, b, sink, sink.onStatus(c, r.httpStatus, r.headers).0, t);
    e := Respond(r, b.idle, b.dlTotal, b.cancelAt, sink, c, t);
  }

  lemma {:induction false} BodyClosedForm<S(!new)>(r: ScriptResponse, b: Pace, sink: Sink<S>, c: S, t: U64)
    ensures var chunks := Chunks(Sent(r), r.chunkSize);
            var e := Send(sink, c, t, chunks, b, 0);
            && e.delivered <= |chunks| && (e.st == TransportOk <==> e.delivered == |chunks|)
            && EndsAfter(sink, c, t, chunks, b, e, e.delivered)
  {
    TransferClosedForm(sink, c, t, Chunks(Sent(r), r.chunkSize), b, 0);
  }

  /** The first two phases as instants counted from `start`, under any deadlines that
      report failures: the sum of the two delays, or where one is cut short. */
  lemma {:induction false} ReachClosedForm(r: ScriptResponse, d1: Deadlines, d2: Deadlines, start: U64)
    requires d1.stA != TransportOk && d1.stB != TransportOk && d2.stA != TransportOk && d2.stB != TransportOk
    ensures var t1 := start + r.connectDelayMs;
            var t2 := t1 + r.firstByteDelayMs;
            Reach(r, d1, d2, start)
            == if !Due(start, r.connectDelayMs, d1) then
                 Reached(EndStatus(start, r.connectDelayMs, d1), EndTime(start, r.connectDelayMs, d1), false)
               else if r.status != TransportOk && r.failAfterBytes == 0 then Reached(r.status, t1, false)
               else if !Due(t1, r.firstByteDelayMs, d2) then
                 Reached(EndStatus(t1, r.firstByteDelayMs, d2), EndTime(t1, r.firstByteDelayMs, d2), false)
               else Reached(TransportOk, t2, true)
  {
    PhaseClosedForm(start, r.connectDelayMs, d1);
    if Due(start, r.connectDelayMs, d1) {
      PhaseClosedForm(start + r.connectDelayMs, r.firstByteDelayMs, d2);
    }
  }

  /** script_perform ends where its first two phases do (ReachClosedForm), or with the
      closed form of the response. */
  lemma {:induction false} PerformClosedForm<S(!new)>(r: ScriptResponse, to: Timeouts, start: U64, cancelAt: nat,
                                                      sink: Sink<S>, c: S)
    returns (e: Served<S>, p: Reached)
    ensures e == Perform(r, to, start, cancelAt, sink, c)
    ensures p == Reach(r, ConnectDeadlines(to, start, cancelAt), FirstByteDeadlines(to, start, cancelAt), start)
    ensures if p.go then Responds(r, PaceOf(r, to, start, cancelAt), sink, c, p.now, e)
            else e == Served(p.st, c, p.now, 0)
  {
    p := Reach(r, ConnectDeadlines(to, start, cancelAt), FirstByteDeadlines(to, start, cancelAt), start);
    if p.go {
      e := RespondClosedForm(r, PaceOf(r, to, start, cancelAt), sink, c, p.now);
    } else {
      e := Served(p.st, c, p.now, 0);
    }
  }

  function PaceOf(r: ScriptResponse, to: Timeouts, start: U64, cancelAt: nat): (b: Pace)
  {
    Pace(r.perChunkDelayMs, to.idle, AbsDeadline(start, to.total), cancelAt)
  }

  // ----- what an end means -----

  /** A delay ends at the first instant, not before it starts, at which it is over, a
      deadline has come or the token fires; and among those it names, in this order,
      the token, deadline a, deadline b. */
  lemma {:induction false} EndIsFirst(start: U64, delay: U64, d: Deadlines, t: nat)
    requires start + delay <= UINT64_MAX && d.stA != TransportOk && d.stB != TransportOk
    ensures var e := EndTime(start, delay, d);
            var over := (u: nat) => u >= start + delay || u >= d.a || u >= d.b || u >= d.cancelAt;
            && start <= e && over(e) && (start <= t < e ==> !over(t))
            && (EndStatus(start, delay, d) == TransportOk ==> e == start + delay)
            && (d.cancelAt <= e ==> EndStatus(start, delay, d) == TransportCancelled)
            && (d.a <= e < d.cancelAt ==> EndStatus(start, delay, d) == d.stA)
            && (d.b <= e < d.a && e < d.cancelAt ==> EndStatus(start, delay, d) == d.stB)
  {
  }

  /** Which timeout a response runs into, when one limit is enabled and the token does
      not fire: each phase has its own class. */
  lemma {:induction false} TimeoutClasses<S(!new)>(r: ScriptResponse, limit: U32, start: U64, sink: Sink<S>, c: S)
    requires 0 < limit < NO_LIMIT && start + limit < UINT64_MAX
    requires start + r.connectDelayMs + r.firstByteDelayMs + r.perChunkDelayMs < UINT64_MAX
    requires r.status == TransportOk
    ensures r.connectDelayMs >= limit ==>
              Perform(r, Timeouts(limit, NO_LIMIT, NO_LIMIT, NO_LIMIT), start, UINT64_MAX + 1, sink, c)
              == Served(TimeoutConnect, c, start + limit, 0)
    ensures r.connectDelayMs < limit <= r.connectDelayMs + r.firstByteDelayMs ==>
              Perform(r, Timeouts(NO_LIMIT, limit, NO_LIMIT, NO_LIMIT), start, UINT64_MAX + 1, sink, c)
              == Served(TimeoutFirstByte, c, start + limit, 0)
    ensures r.connectDelayMs >= limit ==>
              Perform(r, Timeouts(NO_LIMIT, NO_LIMIT, NO_LIMIT, limit), start, UINT64_MAX + 1, sink, c)
              == Served(TimeoutTotal, c, start + limit, 0)
  {
  }

  /** And a chunk that takes longer than the idle limit. */
  lemma {:induction false} IdleTimeout<S(!new)>(sink: Sink<S>, c: S, t0: U64, chunks: seq<seq<Byte>>, b: Pace, n: nat)
    requires chunks != [] && b.idle < NO_LIMIT && b.per >= b.idle && t0 + b.per < UINT64_MAX
    requires t0 + b.idle < b.dlTotal && b.cancelAt > UINT64_MAX
    ensures Send(sink, c, t0, chunks, b, n) == Served(TimeoutIdle, c, t0 + b.idle, n)
  {
    SendStep(sink, c, t0, chunks, b, n);
    assert DeadlinesAt(t0, b).a == t0 + b.idle;
  }

  // ----- the bytes -----

  /** A sink that keeps the body and never aborts. */
  function Recorder(): (sink: Sink<seq<Byte>>)
  {
    Sink((c, status, headers) => (c, 0), (c, xs) => (c + xs, 0))
  }

  lemma {:induction false} RecordsChunks(c: seq<Byte>, now: U64, chunks: seq<seq<Byte>>, cancelAt: nat, n: nat)
    requires now < UINT64_MAX && cancelAt > now
    ensures Transfer(Recorder(), c, now, chunks, 0, NO_LIMIT, UINT64_MAX, cancelAt, n)
            == Served(TransportOk, c + Concat(chunks), now, n + |chunks|)
    decreases |chunks|
  {
    if chunks == [] {
      assert c + [] == c;
    } else {
      RecordsChunks(c + chunks[0], now, chunks[1..], cancelAt, n + 1);
      assert c + chunks[0] + Concat(chunks[1..]) == c + (chunks[0] + Concat(chunks[1..]));
    }
  }

  /** Without limits, and with chunks that take no time, a response delivers its whole
      body, or as many bytes of it as its scripted failure allows, and ends with its own
      status. */
  lemma {:induction false} FailureCutsBody(r: ScriptResponse, start: U64, cancelAt: nat)
    requires r.perChunkDelayMs == 0 && start + r.connectDelayMs + r.firstByteDelayMs < Min(UINT64_MAX, cancelAt)
    ensures var e := Perform(r, Timeouts(NO_LIMIT, NO_LIMIT, NO_LIMIT, NO_LIMIT), start, cancelAt, Recorder(), []);
            && e.st == r.status
            && e.ctx == if r.status == TransportOk || r.failAfterBytes >= |r.body| then r.body
                        else r.body[..r.failAfterBytes]
  {
    var now := start + r.connectDelayMs + r.firstByteDelayMs;
    var sent := if r.status == TransportOk || r.failAfterBytes >= |r.body| then r.body else r.body[..r.failAfterBytes];
    assert Sent(r) == sent;
    ChunksConcat(sent, r.chunkSize);
    RecordsChunks([], now, Chunks(sent, r.chunkSize), cancelAt, 0);
    assert [] + sent == sent;
  }
}
