/** The retry and fallback engine (`chat_common` in src/client.c) as a machine
    whose step is one round trip. */
module Engine {
  import opened Bytes
  import opened StreamAssembly
  import opened Classify
  import opened Attempt

  /** Everything a call meets: client, caller, transport, token and clock.
      `attempt` is the round trip with a given ordinal, starting from reset
      content, the callback log and the allocation count; the validator, the
      record allocation, the token and the waits also answer per round trip, and
      building the request answers per backend.  All of them are arbitrary.
      `jitter` is the call's stream of raw random draws (module SplitMix). */
  datatype World = World(
    n: nat,
    policy: Policy,
    maxResponse: nat,
    attempt: (nat, Content, seq<Call>, nat) -> Outcome,
    jitter: nat -> U64,
    cancelled: nat -> bool,
    build: nat -> Status,
    rejects: (nat, Content) -> bool,
    recordRoom: nat -> bool,
    waitCancelled: nat -> bool)

  /** The fields of sicha_attempt that routing decides. */
  datatype Record = Record(attempt: nat, backend: nat, tryOf: nat, cls: Class, httpStatus: int, ts: Transport)

  /** One backoff sleep; `formula` unless a Retry-After header set it. */
  datatype Wait = Wait(ms: nat, formula: bool)

  datatype State = State(
    backend: nat,
    retrySame: nat,
    validations: nat,
    tryOf: nat,
    anyDelivered: bool,
    draws: nat,
    trips: nat,
    records: seq<Record>,
    r: Content,
    log: seq<Call>,
    allocs: nat,
    waits: seq<Wait>,
    final: Option<Status>)

  function Start(w: World): (s: State)
  {
    State(0, 0, 0, 0, false, 0, 0, [], FreshContent(w.maxResponse), [], 0, [],
          if w.n == 0 then Some(Exhausted) else None)
  }

  /** The round trip made from a state. */
  function Trip(w: World, s: State): (o: Outcome)
  {
    w.attempt(s.trips, ResetContent(s.r), s.log, s.allocs)
  }

  /** The class of a finished round trip, the validator's verdict included. */
  function ClassOf(w: World, trip: nat, o: Outcome): (c: Class)
  {
    var c := if o.terminal != Ok then Advance
             else ClassifyTrip(w.policy, o.ts, o.httpStatus, o.body, o.r.finish);
    if o.terminal == Ok && c == Success && w.rejects(trip, o.r) then Validation else c
  }

  predicate Committed(w: World, s: State)
  {
    s.anyDelivered && !w.policy.retryAfterDeltas
  }

  function Stop(s: State, f: Status): (r: State)
  {
    s.(final := Some(f))
  }

  /** On to the next backend; off the end of the chain the call is exhausted. */
  function NextBackend(w: World, s: State): (r: State)
  {
    s.(backend := s.backend + 1, retrySame := 0, validations := 0, tryOf := 0,
       final := if s.backend + 1 >= w.n then Some(Exhausted) else None)
  }

  /** The sleep before the same backend is tried again. */
  function Sleep(w: World, s: State, retryAfterMs: U64): (r: State)
  {
    var p := w.policy;
    var s' :=
      if retryAfterMs != UINT64_MAX && p.retryAfterCapMs != NO_LIMIT then
        s.(waits := s.waits + [Wait(Min(retryAfterMs, p.retryAfterCapMs), false)])
      else
        s.(draws := s.draws + 1,
           waits := s.waits + [Wait(BackoffMs(p, s.retrySame, w.jitter(s.draws)), true)]);
    if w.waitCancelled(s.trips) then Stop(s', Cancelled) else s'
  }

  /** The switch over the class of the round trip just recorded. */
  function Decide(w: World, s: State, cls: Class, retryAfterMs: U64): (r: State)
  {
    match cls
    case Success => Stop(s, Ok)
    case Abort => Stop(s, Aborted)
    case Cancel => Stop(s, Cancelled)
    case Validation =>
      if Committed(w, s) then Stop(s, StreamLost)
      else if s.validations < w.policy.validationRetries then s.(validations := s.validations + 1)
      else NextBackend(w, s)
    case RetrySame =>
      if Committed(w, s) then Stop(s, StreamLost)
      else
        var s' := s.(retrySame := s.retrySame + 1);
        if s'.retrySame >= w.policy.maxTries then NextBackend(w, s') else Sleep(w, s', retryAfterMs)
    case Advance =>
      if Committed(w, s) then Stop(s, StreamLost) else NextBackend(w, s)
  }

  /** Bookkeeping of a finished round trip: counters, flags, content, record. */
  function Note(w: World, s: State, o: Outcome, cls: Class): (r: State)
  {
    var record := Record(s.trips, s.backend, s.tryOf, cls, o.httpStatus, o.ts);
    s.(tryOf := s.tryOf + 1, trips := s.trips + 1,
       anyDelivered := s.anyDelivered || o.delivered,
       r := o.r, log := o.log, allocs := o.allocs,
       records := if w.recordRoom(s.trips) then s.records + [record] else s.records)
  }

  function Settle(w: World, s: State, o: Outcome): (r: State)
  {
    var cls := ClassOf(w, s.trips, o);
    var s1 := Note(w, s, o, cls);
    if !w.recordRoom(s.trips) || o.terminal != Ok then Stop(s1, NoMem)
    else Decide(w, s1, cls, o.retryAfterMs)
  }

  /** One turn of the inner loop. */
  function Step(w: World, s: State): (r: State)
  {
    if w.cancelled(s.trips) then Stop(s, Cancelled)
    else if s.tryOf == 0 && w.build(s.backend) != Ok then Stop(s, w.build(s.backend))
    else Settle(w, s, Trip(w, s))
  }

  /** The counters a running call keeps: every turn on a backend used up exactly
      one retry or one validation. */
  predicate Running(w: World, s: State)
  {
    && Resolved(w.policy)
    && (s.final == None ==>
          && s.backend < w.n
          && s.retrySame < w.policy.maxTries
          && s.validations <= w.policy.validationRetries
          && s.tryOf == s.retrySame + s.validations)
  }

  lemma {:induction false} SettleKeepsRunning(w: World, s: State, o: Outcome)
    requires Running(w, s) && s.final == None
    ensures var s' := Settle(w, s, o);
            && Running(w, s')
            && (s'.final == None ==>
                  s'.backend == s.backend + 1 ||
                  (s'.backend == s.backend
                   && s'.retrySame + s'.validations == s.retrySame + s.validations + 1))
  {
  }

  /** The whole call. */
  function Run(w: World, s: State): (r: State)
    requires Running(w, s)
    ensures Running(w, r) && r.final.Some?
    decreases w.n - s.backend,
              w.policy.maxTries + w.policy.validationRetries - s.retrySame - s.validations,
              s.final == None
  {
    if s.final.Some? then s
    else
      StepKeepsRunning(w, s);
      Run(w, Step(w, s))
  }

  lemma {:induction false} StepKeepsRunning(w: World, s: State)
    requires Running(w, s) && s.final == None
    ensures var s' := Step(w, s);
            && Running(w, s')
            && (s'.final == None ==>
                  s'.backend == s.backend + 1 ||
                  (s'.backend == s.backend
                   && s'.retrySame + s'.validations == s.retrySame + s.validations + 1))
  {
    SettleKeepsRunning(w, s, Trip(w, s));
  }

  ghost predicate KeptBySteps(w: World, inv: State -> bool)
  {
    forall t {:trigger Step(w, t)} :: inv(t) && Running(w, t) && t.final == None ==> inv(Step(w, t))
  }

  /** The induction principle for calls: what every turn keeps, a call keeps. */
  lemma {:induction false} RunKeeps(w: World, s: State, inv: State -> bool)
    requires Running(w, s) && inv(s) && KeptBySteps(w, inv)
    ensures inv(Run(w, s))
    decreases w.n - s.backend,
              w.policy.maxTries + w.policy.validationRetries - s.retrySame - s.validations,
              s.final == None
  {
    if s.final == None {
      StepKeepsRunning(w, s);
      RunKeeps(w, Step(w, s), inv);
    }
  }
}
