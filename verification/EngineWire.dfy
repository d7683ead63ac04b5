/** Whole calls do not depend on how the wires cut their bodies into chunks. */
module EngineWire {
  import opened Bytes
  import opened StreamAssembly
  import opened Classify
  import opened Attempt
  import opened Engine
  import opened EngineCall

  /** Two worlds that differ at most in how their round trips are written down. */
  ghost predicate Agreeing(w: World, w': World)
  {
    && w' == w.(attempt := w'.attempt)
    && forall k, r, log, a :: w.attempt(k, r, log, a) == w'.attempt(k, r, log, a)
  }

  lemma {:induction false} StepsAgree(w: World, w': World, s: State)
    requires Agreeing(w, w')
    ensures Step(w, s) == Step(w', s)
  {
    assert Trip(w, s) == Trip(w', s);
    var o := Trip(w, s);
    SettlesAgree(w, w', s, o);
  }

  lemma {:induction false} SettlesAgree(w: World, w': World, s: State, o: Outcome)
    requires Agreeing(w, w')
    ensures Settle(w, s, o) == Settle(w', s, o)
  {
    var cls := ClassOf(w, s.trips, o);
    assert ClassOf(w', s.trips, o) == cls;
    var s1 := Note(w, s, o, cls);
    assert Note(w', s, o, cls) == s1;
    assert Decide(w', s1, cls, o.retryAfterMs) == Decide(w, s1, cls, o.retryAfterMs);
  }

  /** Every state the one call passes through lies on the way of the other. */
  lemma {:induction false} RunsAgree(w: World, w': World, s: State)
    requires Agreeing(w, w') && Running(w, s)
    ensures Running(w', s) && Run(w, s) == Run(w', s)
  {
    var inv := (t: State) => Running(w', t) && Run(w', t) == Run(w', s);
    forall t: State | inv(t) && Running(w, t) && t.final == None
      ensures inv(Step(w, t))
    {
      StepsAgree(w, w', t);
      OneStepOn(w', t);
    }
    RunKeeps(w, s, inv);
  }

  lemma {:induction false} OneStepOn(w: World, t: State)
    requires Running(w, t) && t.final == None
    ensures Running(w, Step(w, t)) && Run(w, t) == Run(w, Step(w, t))
  {
    StepKeepsRunning(w, t);
  }

  lemma {:induction false} WiresAgree(lim: Limits, h: Hooks, stream: bool, w: Wire, w': Wire, trip: nat, r: Content,
                                      log: seq<Call>, allocs: nat)
    requires SameButFragmented(w, w')
    requires stream || StarveAlike(lim, h, w, w', trip, allocs)
    ensures RunSpec(lim, h, stream, w, trip, r, log, allocs) == RunSpec(lim, h, stream, w', trip, r, log, allocs)
  {
    if stream {
      StreamFragmentationIndependence(lim, h, w, w', trip, r, log, allocs);
    } else {
      PlainFragmentationIndependence(lim, h, w, w', trip, r, log, allocs);
    }
  }

  /** Two calls that meet the same world, except that every response body may be cut
      differently, end in the same state: status, records, waits, text, every
      callback.  In a call that does not stream, memory gives out under both cuts of
      a body or under neither (never, if every allocation is granted:
      Attempt.AmpleBody). */
  lemma {:induction false} CallFragmentationIndependence(w: World, w': World, lim: Limits, h: Hooks, stream: bool,
                                                         wire: nat -> Wire, wire': nat -> Wire)
    requires Resolved(w.policy) && w' == w.(attempt := w'.attempt)
    requires Wired(w, lim, h, stream, wire) && Wired(w', lim, h, stream, wire')
    requires forall k :: SameButFragmented(wire(k), wire'(k))
    requires stream || forall k, a :: StarveAlike(lim, h, wire(k), wire'(k), k, a)
    ensures Run(w, Start(w)) == Run(w', Start(w'))
  {
    forall k, r, log, a
      ensures w.attempt(k, r, log, a) == w'.attempt(k, r, log, a)
    {
      assert SameButFragmented(wire(k), wire'(k));
      WiresAgree(lim, h, stream, wire(k), wire'(k), k, r, log, a);
    }
    RunsAgree(w, w', Start(w));
  }
}
