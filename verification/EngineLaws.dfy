/** What every call keeps: the grammar of its attempt records, the verdict, the
    budget of round trips and sleeps, and the streaming commit rule. */
module EngineLaws {
  import opened Bytes
  import opened Classify
  import opened Attempt
  import opened Engine

  // ----- the record grammar, independent of the engine's own counters -----

  /** Records of one class on one backend. */
  function Count(rs: seq<Record>, backend: nat, cls: Class): (n: nat)
  {
    if rs == [] then 0
    else
      var last := rs[|rs| - 1];
      Count(rs[..|rs| - 1], backend, cls) + if last.backend == backend && last.cls == cls then 1 else 0
  }

  datatype Place = Place(backend: nat, tryOf: nat)

  /** Does the last record end its backend's turn? */
  predicate EndsBlock(p: Policy, rs: seq<Record>)
    requires rs != []
  {
    var last := rs[|rs| - 1];
    match last.cls
    case Advance => true
    case RetrySame => Count(rs, last.backend, RetrySame) >= p.maxTries
    case Validation => Count(rs, last.backend, Validation) > p.validationRetries
    case Success => false
    case Abort => false
    case Cancel => false
  }

  /** Where the next round trip has to go, if there is one. */
  function NextPlace(p: Policy, rs: seq<Record>): (r: Option<Place>)
  {
    if rs == [] then Some(Place(0, 0))
    else
      var last := rs[|rs| - 1];
      if last.cls in {Success, Abort, Cancel} then None
      else if EndsBlock(p, rs) then Some(Place(last.backend + 1, 0))
      else Some(Place(last.backend, last.tryOf + 1))
  }

  /** The record lists a policy admits over a chain of n backends. */
  predicate Grammar(p: Policy, n: nat, rs: seq<Record>)
  {
    rs == [] ||
    (var k, last := |rs| - 1, rs[|rs| - 1];
     && Grammar(p, n, rs[..k])
     && NextPlace(p, rs[..k]) == Some(Place(last.backend, last.tryOf))
     && last.attempt == k && last.backend < n)
  }

  /** The status a finished call must report, out of its records and whether
      deltas were committed. */
  function Verdict(p: Policy, n: nat, rs: seq<Record>, committed: bool): (f: Status)
  {
    if rs == [] then if n == 0 then Exhausted else Cancelled
    else match rs[|rs| - 1].cls
      case Success => Ok
      case Abort => Aborted
      case Cancel => Cancelled
      case _ =>
        if committed then StreamLost
        else if EndsBlock(p, rs) && rs[|rs| - 1].backend + 1 >= n then Exhausted
        else Cancelled
  }

  /** The engine's counters are the grammar's counts. */
  ghost predicate Routed(w: World, s: State)
  {
    && Running(w, s)
    && Grammar(w.policy, w.n, s.records)
    && (s.final == None ==>
          && s.trips == |s.records|
          && !Committed(w, s)
          && NextPlace(w.policy, s.records) == Some(Place(s.backend, s.tryOf))
          && s.retrySame == Count(s.records, s.backend, RetrySame)
          && s.validations == Count(s.records, s.backend, Validation)
          && (forall i :: 0 <= i < |s.records| ==> s.records[i].backend <= s.backend))
  }

  lemma {:induction false} CountAbsent(rs: seq<Record>, backend: nat, cls: Class)
    requires forall i :: 0 <= i < |rs| ==> rs[i].backend < backend
    ensures Count(rs, backend, cls) == 0
  {
    if rs != [] {
      CountAbsent(rs[..|rs| - 1], backend, cls);
    }
  }

  /** A state whose last round trip is recorded but not yet decided upon. */
  ghost predicate Noted(w: World, s: State, cls: Class)
  {
    && Resolved(w.policy) && s.final == None
    && Grammar(w.policy, w.n, s.records) && s.records != [] && s.trips == |s.records|
    && (var last := s.records[|s.records| - 1];
        last.cls == cls && last.backend == s.backend < w.n && last.tryOf + 1 == s.tryOf)
    && s.tryOf == s.retrySame + s.validations + 1
    && s.retrySame < w.policy.maxTries && s.validations <= w.policy.validationRetries
    && Count(s.records, s.backend, RetrySame) == s.retrySame + (if cls == RetrySame then 1 else 0)
    && Count(s.records, s.backend, Validation) == s.validations + (if cls == Validation then 1 else 0)
    && (forall i :: 0 <= i < |s.records| ==> s.records[i].backend <= s.backend)
  }

  /** The record just made fits the grammar, and the counters follow it. */
  lemma {:induction false} NoteIsNoted(w: World, s: State, o: Outcome, cls: Class)
    requires Routed(w, s) && s.final == None && w.recordRoom(s.trips)
    ensures Noted(w, Note(w, s, o, cls), cls)
  {
    var s' := Note(w, s, o, cls);
    assert s'.records[..|s'.records| - 1] == s.records;
  }

  lemma {:induction false} NextBackendIsRouted(w: World, s: State, cls: Class)
    requires Noted(w, s, cls) && !Committed(w, s) && EndsBlock(w.policy, s.records)
    ensures Routed(w, NextBackend(w, s))
  {
    CountAbsent(s.records, s.backend + 1, RetrySame);
    CountAbsent(s.records, s.backend + 1, Validation);
  }

  /** Staying on the backend, with the budget counters moved up. */
  lemma {:induction false} StayIsRouted(w: World, s: State, cls: Class, s': State)
    requires Noted(w, s, cls) && !Committed(w, s) && !EndsBlock(w.policy, s.records)
    requires cls == RetrySame || cls == Validation
    requires s' == s.(retrySame := s'.retrySame, validations := s'.validations, waits := s'.waits, draws := s'.draws)
    requires s'.retrySame == Count(s.records, s.backend, RetrySame)
    requires s'.validations == Count(s.records, s.backend, Validation)
    ensures Routed(w, s')
  {
  }

  lemma {:induction false} DecideIsRouted(w: World, s: State, cls: Class, retryAfterMs: U64)
    requires Noted(w, s, cls)
    ensures Routed(w, Decide(w, s, cls, retryAfterMs))
  {
    if !(cls in {Success, Abort, Cancel} || Committed(w, s)) {
      if EndsBlock(w.policy, s.records) {
        NextBackendIsRouted(w, s, cls);
      } else if cls == Validation {
        StayIsRouted(w, s, cls, s.(validations := s.validations + 1));
      } else {
        RetryIsRouted(w, s, retryAfterMs);
      }
    }
  }

  lemma {:induction false} RetryIsRouted(w: World, s: State, retryAfterMs: U64)
    requires Noted(w, s, RetrySame) && !Committed(w, s) && !EndsBlock(w.policy, s.records)
    ensures Routed(w, Decide(w, s, RetrySame, retryAfterMs))
  {
    StayIsRouted(w, s, RetrySame, Decide(w, s, RetrySame, retryAfterMs).(final := None));
  }

  lemma {:induction false} StepIsRouted(w: World, s: State)
    requires Routed(w, s) && s.final == None
    ensures Routed(w, Step(w, s))
  {
    var o := Trip(w, s);
    if Judges(w, s) {
      var cls := ClassOf(w, s.trips, o);
      NoteIsNoted(w, s, o, cls);
      DecideIsRouted(w, Note(w, s, o, cls), cls, o.retryAfterMs);
    } else if Goes(w, s) && w.recordRoom(s.trips) {
      NoteIsNoted(w, s, o, ClassOf(w, s.trips, o));
    }
  }

  // ----- the status -----

  /** A turn gets as far as a round trip. */
  predicate Goes(w: World, t: State)
  {
    !w.cancelled(t.trips) && !(t.tryOf == 0 && w.build(t.backend) != Ok)
  }

  /** A turn gets as far as the decision about its round trip. */
  predicate Judges(w: World, t: State)
  {
    Goes(w, t) && w.recordRoom(t.trips) && Trip(w, t).terminal == Ok
  }

  /** The status a call ends with in its last turn, made from t, when it leaves the
      records of s'. */
  ghost predicate Concluded(w: World, t: State, s': State, f: Status)
  {
    if w.cancelled(t.trips) then f == Cancelled
    else if t.tryOf == 0 && w.build(t.backend) != Ok then f == w.build(t.backend)
    else if !w.recordRoom(t.trips) || Trip(w, t).terminal != Ok then f == NoMem
    else f == Verdict(w.policy, w.n, s'.records, Committed(w, s'))
  }

  /** What can have cancelled a call whose last turn was made from t. */
  ghost predicate HasCause(w: World, t: State, s': State)
  {
    || w.cancelled(t.trips)
    || (t.tryOf == 0 && w.build(t.backend) == Cancelled)
    || (Judges(w, t) && |s'.records| == |t.records| + 1 &&
        var last := s'.records[|t.records|];
        last.cls == Cancel || (last.cls == RetrySame && w.waitCancelled(t.trips + 1)))
  }

  /** A decision that ends the call ends it with the verdict on its records. */
  lemma {:induction false} DecideConcludes(w: World, s: State, cls: Class, retryAfterMs: U64)
    requires Noted(w, s, cls)
    ensures var s' := Decide(w, s, cls, retryAfterMs);
            && s'.records == s.records && s'.trips == s.trips && s'.anyDelivered == s.anyDelivered
            && (s'.final.Some? ==> s'.final.value == Verdict(w.policy, w.n, s.records, Committed(w, s)))
            && (s'.final == Some(Cancelled) ==> cls == Cancel || (cls == RetrySame && w.waitCancelled(s.trips)))
  {
  }

  lemma {:induction false} StepConcludes(w: World, t: State)
    requires Routed(w, t) && t.final == None && Step(w, t).final.Some?
    ensures var s' := Step(w, t);
            && Concluded(w, t, s', s'.final.value)
            && (s'.final == Some(Cancelled) ==> HasCause(w, t, s'))
  {
    if Judges(w, t) {
      var o := Trip(w, t);
      var cls := ClassOf(w, t.trips, o);
      NoteIsNoted(w, t, o, cls);
      DecideConcludes(w, Note(w, t, o, cls), cls, o.retryAfterMs);
    }
  }

  /** The last turn of a call. */
  lemma {:induction false} LastTurn(w: World, s: State) returns (t: State)
    requires Routed(w, s) && s.final == None
    ensures Routed(w, t) && t.final == None && Run(w, s) == Step(w, t)
    decreases w.n - s.backend,
              w.policy.maxTries + w.policy.validationRetries - s.retrySame - s.validations
  {
    StepKeepsRunning(w, s);
    StepIsRouted(w, s);
    var s' := Step(w, s);
    if s'.final == None {
      t := LastTurn(w, s');
    } else {
      t := s;
    }
  }

  /** Every call over a chain of backends yields a record list of the grammar, and
      its status is decided by its last turn, made from a routed state t: cancelled
      if the token is found set; else the status of the request build, if that
      fails; else NOMEM exactly if the record or the round trip ran out of memory;
      else what the record list prescribes.  A cancelled call has its cause. */
  lemma {:induction false} CallIsRouted(w: World) returns (t: State)
    requires Resolved(w.policy) && w.n > 0
    ensures Routed(w, t) && t.final == None && Run(w, Start(w)) == Step(w, t)
    ensures var s := Run(w, Start(w));
            && Grammar(w.policy, w.n, s.records)
            && Concluded(w, t, s, s.final.value)
            && (s.final == Some(Cancelled) ==> HasCause(w, t, s))
  {
    t := LastTurn(w, Start(w));
    StepIsRouted(w, t);
    StepConcludes(w, t);
  }

  // ----- what the grammar says -----

  /** Ordinals count up from 0, backends start at 0 and step by 0 or 1, tries
      restart with each backend, and only the last record may be a success, an
      abort or a cancellation. */
  lemma {:induction false} GrammarShape(p: Policy, n: nat, rs: seq<Record>, i: nat)
    requires Grammar(p, n, rs) && i < |rs|
    ensures rs[i].attempt == i && rs[i].backend < n
    ensures i == 0 ==> rs[i].backend == 0 && rs[i].tryOf == 0
    ensures i > 0 ==>
              || (rs[i].backend == rs[i - 1].backend && rs[i].tryOf == rs[i - 1].tryOf + 1)
              || (rs[i].backend == rs[i - 1].backend + 1 && rs[i].tryOf == 0)
    ensures i + 1 < |rs| ==> rs[i].cls in {RetrySame, Advance, Validation}
  {
    var k := |rs| - 1;
    if i < k {
      GrammarShape(p, n, rs[..k], i);
    }
  }

  /** Per backend the budgets hold exactly, and the next place is their sum. */
  lemma {:induction false} GrammarBudgets(p: Policy, n: nat, rs: seq<Record>, b: nat)
    requires Grammar(p, n, rs) && p.maxTries > 0
    ensures Count(rs, b, RetrySame) <= p.maxTries
    ensures Count(rs, b, Validation) <= p.validationRetries + 1
    ensures var next := NextPlace(p, rs);
            next.Some? && b >= next.value.backend ==>
              && Count(rs, b, RetrySame) < p.maxTries
              && Count(rs, b, Validation) <= p.validationRetries
              && (b == next.value.backend ==>
                    next.value.tryOf == Count(rs, b, RetrySame) + Count(rs, b, Validation))
              && (b > next.value.backend ==>
                    Count(rs, b, RetrySame) == Count(rs, b, Validation) == 0)
  {
    if rs != [] {
      GrammarBudgets(p, n, rs[..|rs| - 1], b);
    }
  }

  /** The index at which backend b's turn ended. */
  ghost predicate BlockEndsAt(p: Policy, rs: seq<Record>, b: nat, k: nat)
  {
    && k < |rs| && rs[k].backend == b
    && (k + 1 < |rs| ==> rs[k + 1].backend == b + 1)
    && (|| rs[k].cls == Advance
        || (rs[k].cls == RetrySame && Count(rs[..k + 1], b, RetrySame) == p.maxTries)
        || (rs[k].cls == Validation && Count(rs[..k + 1], b, Validation) == p.validationRetries + 1))
  }

  lemma {:induction false} BlockEnd(p: Policy, n: nat, rs: seq<Record>, b: nat) returns (k: nat)
    requires Grammar(p, n, rs) && p.maxTries > 0
    requires NextPlace(p, rs).Some? && b < NextPlace(p, rs).value.backend
    ensures BlockEndsAt(p, rs, b, k)
  {
    var m := |rs| - 1;
    if rs[m].backend == b {
      k := m;
      assert rs[..k + 1] == rs;
      GrammarBudgets(p, n, rs, b);
    } else {
      k := BlockEnd(p, n, rs[..m], b);
      assert rs[..m][..k + 1] == rs[..k + 1];
      GrammarShape(p, n, rs, k + 1);
    }
  }

  /** Exhaustion means every backend was tried and each gave up for a reason: an
      advance, an over-budget rejection, or its last same-backend retry. */
  lemma {:induction false} ExhaustedMeansAllTried(w: World, b: nat) returns (k: nat)
    requires Resolved(w.policy) && b < w.n
    requires forall i :: w.build(i) != Exhausted
    requires Run(w, Start(w)).final == Some(Exhausted)
    ensures BlockEndsAt(w.policy, Run(w, Start(w)).records, b, k)
  {
    var t := CallIsRouted(w);
    assert Routed(w, t);
    k := BlockEnd(w.policy, w.n, Run(w, Start(w)).records, b);
  }
}
