/** The budget of a call is tight: a client over real wires attains it. */
module EngineTight {
  import opened Bytes
  import Buf
  import opened StreamAssembly
  import opened Classify
  import opened Attempt
  import opened Engine
  import opened EngineBudget
  import opened EngineCall

  /** The place of ordinal k in its block of `per`. */
  function Slot(k: nat, per: nat): (r: nat)
    requires per > 0
    ensures r < per
    decreases k
  {
    if k < per then k else Slot(k - per, per)
  }

  lemma {:induction false} SlotOfBlock(b: nat, per: nat, t: nat)
    requires t < per
    ensures Slot(Times(b, per) + t, per) == t
    decreases b
  {
    if b > 0 {
      SlotOfBlock(b - 1, per, t);
    }
  }

  /** A body and the text its reply carries, for a caller with memory enough. */
  datatype Scene = Scene(policy: Policy, h: Hooks, body: seq<Byte>, text: seq<Byte>)

  /** The body reads as a reply with that text and nothing else. */
  ghost predicate Staged(e: Scene)
  {
    && Resolved(e.policy) && e.body != []
    && e.h.parseBody(e.body) == Reply(Some(e.text), false, None, None, None, None)
    && (forall n :: e.h.alloc(n)) && (forall trip, n :: e.h.parserAlloc(trip, n))
  }

  const LIMITS: Limits := Limits(0, 0)

  /** A backend first answers well, and then cannot be reached. */
  function Outage(e: Scene, k: nat): (w: Wire)
    requires PerBackend(e.policy) > 0
  {
    if Slot(k, PerBackend(e.policy)) < e.policy.validationRetries then Response(200, [], [e.body], TransportOk)
    else NoResponse(Connect)
  }

  function Outages(e: Scene): (wire: nat -> Wire)
    requires PerBackend(e.policy) > 0
  {
    (k: nat) => Outage(e, k)
  }

  /** Every good answer is rejected by the validator. */
  function Worst(e: Scene, n: nat): (w: World)
    requires PerBackend(e.policy) > 0
  {
    var wire := Outages(e);
    World(n, e.policy, 0,
          (k: nat, r: Content, log: seq<Call>, a: nat) => RunSpec(LIMITS, e.h, false, wire(k), k, r, log, a),
          (k: nat) => 0, (k: nat) => false, (i: nat) => Ok,
          (k: nat, r: Content) => true, (k: nat) => true, (k: nat) => false)
  }

  /** The text buffer has neither a cap nor an error. */
  predicate Sound(r: Content)
  {
    r.text.err == Ok && r.text.max == 0
  }

  /** What a round trip of this caller is. */
  predicate Plainly(o: Outcome, ts: Transport)
  {
    && o.ts == ts && o.body == BodyOk && o.terminal == Ok && !o.delivered && o.retryAfterMs == UINT64_MAX
    && o.httpStatus == (if ts == TransportOk then 200 else 0)
    && (ts == TransportOk ==> o.r.finish == FinishUnknown) && Sound(o.r)
  }

  lemma {:induction false} GoodAnswer(e: Scene, k: nat, r: Content, log: seq<Call>, a: nat)
    requires Staged(e) && Sound(r) && r.finish == FinishUnknown
    ensures Plainly(PlainAttempt(LIMITS, e.h, Response(200, [], [e.body], TransportOk), k, r, log, a), TransportOk)
  {
    var chunks := [e.body];
    var b := Accumulate(e.h, k, Buf.Empty(0), chunks, 0);
    var b1 := Buf.Empty(0).Append(e.body, true);
    assert [] + e.body == e.body && b1 == Buf.BufV(e.body, 0, Ok);
    assert chunks[1..] == [] && e.h.parserAlloc(k, 0);
    assert Accumulate(e.h, k, b1, chunks[1..], 1) == b1;
    assert b == b1;
    var p := ParseBody(e.h, NewCtx(k, r, log, a), e.body);
    assert e.h.alloc(a);
    assert p.body == BodyOk && p.status == Ok && Sound(p.x.r) && p.x.r.finish == FinishUnknown;
  }

  lemma {:induction false} NoAnswer(h: Hooks, k: nat, r: Content, log: seq<Call>, a: nat)
    requires Sound(r)
    ensures Plainly(PlainAttempt(LIMITS, h, NoResponse(Connect), k, r, log, a), Connect)
  {
  }

  ghost predicate OnSchedule(w: World, s: State)
  {
    && Running(w, s) && !s.anyDelivered && Sound(s.r)
    && (s.final == None ==>
          && s.trips == Times(s.backend, PerBackend(w.policy)) + s.tryOf
          && |s.waits| == Times(s.backend, w.policy.maxTries - 1) + s.retrySame
          && s.validations == Min(s.tryOf, w.policy.validationRetries))
    && (s.final.Some? ==>
          && s.final == Some(Exhausted)
          && s.trips == Times(w.n, PerBackend(w.policy))
          && |s.waits| == Times(w.n, w.policy.maxTries - 1))
  }

  lemma {:induction false} WorstIsWired(e: Scene, n: nat)
    requires PerBackend(e.policy) > 0
    ensures Wired(Worst(e, n), LIMITS, e.h, false, Outages(e))
  {
    var wire := Outages(e);
    forall k, r, log, a
      ensures Worst(e, n).attempt(k, r, log, a) == RunSpec(LIMITS, e.h, false, wire(k), k, r, log, a)
    {
    }
  }

  /** The two kinds of round trips, by their place in the block. */
  lemma {:induction false} OutageTrip(e: Scene, k: nat, t: nat, r: Content, log: seq<Call>, a: nat)
    requires Staged(e) && Slot(k, PerBackend(e.policy)) == t && Sound(r) && r.finish == FinishUnknown
    ensures Plainly(RunSpec(LIMITS, e.h, false, Outages(e)(k), k, r, log, a),
                    if t >= e.policy.validationRetries then Connect else TransportOk)
  {
    if t >= e.policy.validationRetries {
      NoAnswer(e.h, k, r, log, a);
    } else {
      GoodAnswer(e, k, r, log, a);
    }
  }

  lemma {:induction false} WorstTrip(e: Scene, n: nat, s: State)
    requires Staged(e)
    requires OnSchedule(Worst(e, n), s) && s.final == None
    ensures Plainly(Trip(Worst(e, n), s), if s.tryOf >= e.policy.validationRetries then Connect else TransportOk)
  {
    SlotOfBlock(s.backend, PerBackend(e.policy), s.tryOf);
    WorstIsWired(e, n);
    OutageTrip(e, s.trips, s.tryOf, ResetContent(s.r), s.log, s.allocs);
  }

  lemma {:induction false} WorstClass(e: Scene, n: nat, s: State, o: Outcome)
    requires PerBackend(e.policy) > 0
    requires Plainly(o, if s.tryOf >= e.policy.validationRetries then Connect else TransportOk)
    ensures ClassOf(Worst(e, n), s.trips, o) == if s.tryOf >= e.policy.validationRetries then RetrySame else Validation
  {
  }

  lemma {:induction false} StepOnSchedule(e: Scene, n: nat, s: State)
    requires Staged(e)
    requires OnSchedule(Worst(e, n), s) && s.final == None
    ensures OnSchedule(Worst(e, n), Step(Worst(e, n), s))
  {
    var w := Worst(e, n);
    var o := Trip(w, s);
    WorstTrip(e, n, s);
    WorstClass(e, n, s, o);
    SettleOnSchedule(w, s, o);
    assert Step(w, s) == Settle(w, s, o);
  }

  lemma {:induction false} SettleOnSchedule(w: World, s: State, o: Outcome)
    requires OnSchedule(w, s) && s.final == None && Resolved(w.policy)
    requires Plainly(o, if s.tryOf >= w.policy.validationRetries then Connect else TransportOk)
    requires ClassOf(w, s.trips, o) == if s.tryOf >= w.policy.validationRetries then RetrySame else Validation
    requires w.recordRoom(s.trips) && !w.waitCancelled(s.trips + 1)
    ensures OnSchedule(w, Settle(w, s, o))
  {
    SettleKeepsRunning(w, s, o);
  }

  /** A call whose turns keep to the schedule ends on it. */
  lemma {:induction false} EndsOnSchedule(w: World)
    requires Resolved(w.policy) && OnSchedule(w, Start(w))
    requires forall t {:trigger Step(w, t)} :: OnSchedule(w, t) && t.final == None ==> OnSchedule(w, Step(w, t))
    ensures OnSchedule(w, Run(w, Start(w)))
  {
    RunKeeps(w, Start(w), (s: State) => OnSchedule(w, s));
  }

  lemma {:induction false} WorstEndsOnSchedule(e: Scene, n: nat)
    requires Staged(e)
    ensures OnSchedule(Worst(e, n), Run(Worst(e, n), Start(Worst(e, n))))
  {
    var w := Worst(e, n);
    forall t: State | OnSchedule(w, t) && t.final == None
      ensures OnSchedule(w, Step(w, t))
    {
      StepOnSchedule(e, n, t);
    }
    WorstStarts(e, n);
    EndsOnSchedule(w);
  }

  lemma {:induction false} WorstStarts(e: Scene, n: nat)
    requires Staged(e)
    ensures OnSchedule(Worst(e, n), Start(Worst(e, n)))
  {
  }

  lemma {:induction false} ScheduleIsBudget(w: World, s: State)
    requires Resolved(w.policy) && OnSchedule(w, s) && s.final.Some?
    ensures s.final == Some(Exhausted)
    ensures s.trips == w.n * PerBackend(w.policy) && |s.waits| == w.n * (w.policy.maxTries - 1)
  {
    TimesIsProduct(w.n, PerBackend(w.policy));
    TimesIsProduct(w.n, w.policy.maxTries - 1);
  }

  /** The bound is tight: for every policy, chain length and well-read reply a client
      over wires that answer with it and then fail to connect, with a validator that
      rejects, attains it exactly. */
  lemma {:induction false} BudgetIsAttained(e: Scene, n: nat) returns (w: World)
    requires Staged(e)
    ensures w.policy == e.policy && w.n == n && Wired(w, LIMITS, e.h, false, Outages(e))
    ensures var s := Run(w, Start(w));
            && s.final == Some(Exhausted)
            && s.trips == n * PerBackend(e.policy)
            && |s.waits| == n * (e.policy.maxTries - 1)
  {
    w := WorstCall(e, n);
    ScheduleIsBudget(w, Run(w, Start(w)));
  }

  lemma {:induction false} WorstCall(e: Scene, n: nat) returns (w: World)
    requires Staged(e)
    ensures w.policy == e.policy && w.n == n && Wired(w, LIMITS, e.h, false, Outages(e))
    ensures OnSchedule(w, Run(w, Start(w)))
  {
    w := Worst(e, n);
    WorstIsWired(e, n);
    WorstEndsOnSchedule(e, n);
  }

  // ----- such a scene, with a body of a real service -----

  /** {"choices":[{"message":{"content":"hi"}}]} */
  const JSON_HI: seq<Byte> := [
    0x7B, 0x22, 0x63, 0x68, 0x6F, 0x69, 0x63, 0x65, 0x73, 0x22, 0x3A, 0x5B, 0x7B, 0x22, 0x6D, 0x65, 0x73, 0x73, 0x61,
    0x67, 0x65, 0x22, 0x3A, 0x7B, 0x22, 0x63, 0x6F, 0x6E, 0x74, 0x65, 0x6E, 0x74, 0x22, 0x3A, 0x22, 0x68, 0x69, 0x22,
    0x7D, 0x7D, 0x5D, 0x7D]

  /** A caller without callbacks, to whom this body reads as it does in JSON. */
  function JsonCaller(): (h: Hooks)
  {
    Hooks(false, false, false, (log: seq<Call>) => false, (d: seq<Byte>) => Unparseable,
          (b: seq<Byte>) => if b == JSON_HI then Reply(Some([0x68, 0x69]), false, None, None, None, None) else BadReply,
          true, (n: nat) => true, (trip: nat, n: nat) => true)
  }

  lemma {:induction false} JsonScene(p: Policy) returns (e: Scene)
    requires Resolved(p)
    ensures Staged(e) && e.policy == p && e.h == JsonCaller() && e.body == JSON_HI
  {
    e := Scene(p, JsonCaller(), JSON_HI, [0x68, 0x69]);
  }
}
