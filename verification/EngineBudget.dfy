/** Termination with the tight bound: how many round trips and sleeps a call can
    make, and how long a sleep can be. */
module EngineBudget {
  import opened Bytes
  import opened Classify
  import opened Engine

  function PerBackend(p: Policy): (k: nat)
  {
    p.maxTries + p.validationRetries
  }

  /** The longest sleep a policy allows. */
  function WaitCap(p: Policy): (ms: nat)
  {
    if p.retryAfterCapMs == NO_LIMIT then p.backoffCapMs else Max(p.backoffCapMs, p.retryAfterCapMs)
  }

  function FormulaWaits(ws: seq<Wait>): (n: nat)
    ensures n <= |ws|
  {
    if ws == [] then 0
    else FormulaWaits(ws[..|ws| - 1]) + if ws[|ws| - 1].formula then 1 else 0
  }

  /** Sleeps are bounded and the jitter stream advances exactly with the
      formula-based ones. */
  ghost predicate SleepsWell(w: World, s: State)
  {
    && (forall i :: 0 <= i < |s.waits| ==> s.waits[i].ms <= WaitCap(w.policy))
    && s.draws == FormulaWaits(s.waits)
  }

  ghost predicate Budgeted(w: World, s: State)
  {
    && Running(w, s) && SleepsWell(w, s)
    && (s.final == None ==>
          && s.trips <= Times(s.backend, PerBackend(w.policy)) + s.tryOf
          && |s.waits| <= Times(s.backend, w.policy.maxTries - 1) + s.retrySame)
    && (s.final.Some? ==>
          && s.trips <= Times(w.n, PerBackend(w.policy))
          && |s.waits| <= Times(w.n, w.policy.maxTries - 1))
  }

  lemma {:induction false} SleepKeeps(w: World, s: State, retryAfterMs: U64)
    requires SleepsWell(w, s)
    ensures var s' := Sleep(w, s, retryAfterMs);
            && SleepsWell(w, s') && |s'.waits| == |s.waits| + 1
            && s'.retrySame == s.retrySame && s'.validations == s.validations
            && s'.backend == s.backend && s'.trips == s.trips && s'.tryOf == s.tryOf
  {
    var s' := Sleep(w, s, retryAfterMs);
    assert s'.waits[..|s'.waits| - 1] == s.waits;
  }

  /** A round trip just noted, within the budget of its backend. */
  ghost predicate Spent(w: World, s: State)
  {
    && Resolved(w.policy) && SleepsWell(w, s) && s.backend < w.n
    && s.retrySame < w.policy.maxTries && s.validations <= w.policy.validationRetries
    && s.tryOf == s.retrySame + s.validations + 1
    && s.trips <= Times(s.backend, PerBackend(w.policy)) + s.tryOf
    && |s.waits| <= Times(s.backend, w.policy.maxTries - 1) + s.retrySame
  }

  lemma {:induction false} StopIsBudgeted(w: World, s: State, f: Status)
    requires Spent(w, s)
    ensures Budgeted(w, Stop(s, f))
  {
    TimesMonotone(s.backend, w.n, PerBackend(w.policy));
    TimesMonotone(s.backend, w.n, w.policy.maxTries - 1);
  }

  lemma {:induction false} DecideIsBudgeted(w: World, s: State, cls: Class, retryAfterMs: U64)
    requires Spent(w, s) && s.final == None
    ensures Budgeted(w, Decide(w, s, cls, retryAfterMs))
  {
    if cls == RetrySame {
      RetryIsBudgeted(w, s, retryAfterMs);
    } else {
      TimesMonotone(s.backend, w.n, PerBackend(w.policy));
      TimesMonotone(s.backend, w.n, w.policy.maxTries - 1);
    }
  }

  lemma {:induction false} RetryIsBudgeted(w: World, s: State, retryAfterMs: U64)
    requires Spent(w, s) && s.final == None
    ensures Budgeted(w, Decide(w, s, RetrySame, retryAfterMs))
  {
    var s1, r := s.(retrySame := s.retrySame + 1), Decide(w, s, RetrySame, retryAfterMs);
    if Committed(w, s) {
      assert r == Stop(s, StreamLost);
      StopIsBudgeted(w, s, StreamLost);
    } else if s1.retrySame >= w.policy.maxTries {
      assert r == NextBackend(w, s1);
      NextIsBudgeted(w, s, s1);
    } else {
      assert r == Sleep(w, s1, retryAfterMs);
      SleepIsBudgeted(w, s, s1, retryAfterMs);
    }
  }

  lemma {:induction false} SleepIsBudgeted(w: World, s: State, s1: State, retryAfterMs: U64)
    requires Spent(w, s) && s.final == None
    requires s1 == s.(retrySame := s.retrySame + 1) && s1.retrySame < w.policy.maxTries
    ensures Budgeted(w, Sleep(w, s1, retryAfterMs))
  {
    SleepKeeps(w, s1, retryAfterMs);
    SleptIsBudgeted(w, s, Sleep(w, s1, retryAfterMs));
  }

  lemma {:induction false} NextIsBudgeted(w: World, s: State, t: State)
    requires Spent(w, s) && s.final == None && t == s.(retrySame := s.retrySame + 1)
    ensures Budgeted(w, NextBackend(w, t))
  {
    TimesMonotone(s.backend, w.n, PerBackend(w.policy));
    TimesMonotone(s.backend, w.n, w.policy.maxTries - 1);
  }

  lemma {:induction false} SleptIsBudgeted(w: World, s: State, t: State)
    requires Spent(w, s) && SleepsWell(w, t)
    requires s.retrySame + 1 == t.retrySame < w.policy.maxTries && |t.waits| == |s.waits| + 1
    requires t.backend == s.backend && t.trips == s.trips && t.tryOf == s.tryOf && t.validations == s.validations
    ensures Budgeted(w, t)
  {
    TimesMonotone(s.backend, w.n, PerBackend(w.policy));
    TimesMonotone(s.backend, w.n, w.policy.maxTries - 1);
  }

  lemma {:induction false} StepIsBudgeted(w: World, s: State)
    requires Budgeted(w, s) && s.final == None
    ensures Budgeted(w, Step(w, s))
  {
    var o := Trip(w, s);
    var cls := ClassOf(w, s.trips, o);
    var s1 := Note(w, s, o, cls);
    assert Spent(w, s1);
    if w.cancelled(s.trips) || (s.tryOf == 0 && w.build(s.backend) != Ok) {
      TimesMonotone(s.backend, w.n, PerBackend(w.policy));
      TimesMonotone(s.backend, w.n, w.policy.maxTries - 1);
    } else if !w.recordRoom(s.trips) || o.terminal != Ok {
      StopIsBudgeted(w, s1, NoMem);
    } else {
      DecideIsBudgeted(w, s1, cls, o.retryAfterMs);
    }
  }

  /** A call over n backends makes at most n (max_tries + validation_retries)
      round trips and n (max_tries - 1) sleeps, none longer than the larger enabled
      cap, and draws from the jitter stream once per formula-based sleep. */
  lemma {:induction false} CallIsBudgeted(w: World)
    requires Resolved(w.policy)
    ensures var s := Run(w, Start(w));
            && s.trips <= w.n * PerBackend(w.policy)
            && |s.waits| <= w.n * (w.policy.maxTries - 1)
            && SleepsWell(w, s)
  {
    RunIsBudgeted(w);
    TimesIsProduct(w.n, PerBackend(w.policy));
    TimesIsProduct(w.n, w.policy.maxTries - 1);
  }

  lemma {:induction false} RunIsBudgeted(w: World)
    requires Resolved(w.policy)
    ensures Budgeted(w, Run(w, Start(w)))
  {
    var inv := (s: State) => Budgeted(w, s);
    forall t: State | inv(t) && Running(w, t) && t.final == None
      ensures inv(Step(w, t))
    {
      StepIsBudgeted(w, t);
    }
    RunKeeps(w, Start(w), inv);
  }
}
