/** The streaming commit rule over whole calls: a caller never sees delta bytes of
    more than one attempt, and what it saw is what the result holds. */
module EngineCommit {
  import opened Bytes
  import opened StreamAssembly
  import opened Classify
  import opened Attempt
  import opened Engine

  /** The world's round trips are streamed attempts over some wires. */
  ghost predicate Streams(w: World, lim: Limits, h: Hooks, wire: nat -> Wire)
  {
    forall k, r, log, a :: w.attempt(k, r, log, a) == StreamAttempt(lim, h, wire(k), k, r, log, a)
  }

  /** Every committing call of the log belongs to the latest round trip. */
  ghost predicate OnlyLatestCommits(log: seq<Call>, trips: nat)
  {
    forall i :: 0 <= i < |log| && Commits(log[i]) ==> log[i].trip + 1 == trips
  }

  ghost predicate Loyal(w: World, h: Hooks, s: State)
  {
    && (forall i :: 0 <= i < |s.log| ==> s.log[i].trip < s.trips)
    && (s.anyDelivered <==> AnyCommit(s.log, 0))
    && (!w.policy.retryAfterDeltas ==> OnlyLatestCommits(s.log, s.trips))
    && (s.final == None ==> !Committed(w, s))
    && (!w.policy.retryAfterDeltas ==> Echoed(h, [], s.log, s.r))
  }

  lemma {:induction false} NoCommitNoDelta(log: seq<Call>)
    requires !AnyCommit(log, 0)
    ensures Heard(log, OnDelta) == [] && Heard(log, OnReasoning) == []
  {
    if log != [] {
      var front := log[..|log| - 1];
      assert forall i :: 0 <= i < |front| ==> front[i] == log[i];
      assert !Commits(log[|log| - 1]);
      NoCommitNoDelta(front);
    }
  }

  /** The facts a streamed round trip leaves about log and flag. */
  ghost predicate Extends(h: Hooks, s: State, o: Outcome)
  {
    && s.log <= o.log
    && (forall i :: |s.log| <= i < |o.log| ==> o.log[i].trip == s.trips)
    && (o.delivered <==> AnyCommit(o.log, |s.log|))
    && Echoed(h, s.log, o.log, o.r)
  }

  /** After the round trip is noted: loyal in all but the decision. */
  lemma {:induction false} NoteIsLoyal(w: World, h: Hooks, s: State, o: Outcome, cls: Class)
    requires Loyal(w, h, s) && s.final == None && Extends(h, s, o)
    ensures var s' := Note(w, s, o, cls);
            && (forall i :: 0 <= i < |s'.log| ==> s'.log[i].trip < s'.trips)
            && (s'.anyDelivered <==> AnyCommit(s'.log, 0))
            && (!w.policy.retryAfterDeltas ==> OnlyLatestCommits(s'.log, s'.trips))
            && (!w.policy.retryAfterDeltas ==> Echoed(h, [], s'.log, s'.r))
  {
    assert forall i :: 0 <= i < |s.log| ==> o.log[i] == s.log[i];
    if s.anyDelivered {
      var i :| 0 <= i < |s.log| && Commits(s.log[i]);
      assert Commits(o.log[i]);
    } else {
      NoCommitNoDelta(s.log);
      if AnyCommit(o.log, 0) {
        var i :| 0 <= i < |o.log| && Commits(o.log[i]);
        assert i >= |s.log|;
      }
    }
  }

  lemma {:induction false} SettleIsLoyal(w: World, h: Hooks, s: State, o: Outcome)
    requires Loyal(w, h, s) && s.final == None && Extends(h, s, o)
    ensures Loyal(w, h, Settle(w, s, o))
  {
    var cls := ClassOf(w, s.trips, o);
    NoteIsLoyal(w, h, s, o, cls);
    var s1, s' := Note(w, s, o, cls), Settle(w, s, o);
    assert s'.log == s1.log && s'.trips == s1.trips && s'.r == s1.r && s'.anyDelivered == s1.anyDelivered;
  }

  lemma {:induction false} TripExtends(w: World, lim: Limits, h: Hooks, wire: nat -> Wire, s: State)
    requires Streams(w, lim, h, wire)
    ensures Extends(h, s, Trip(w, s))
  {
    var r := ResetContent(s.r);
    StreamAttemptFaithful(lim, h, wire(s.trips), s.trips, r, s.log, s.allocs);
    assert w.attempt(s.trips, r, s.log, s.allocs) == StreamAttempt(lim, h, wire(s.trips), s.trips, r, s.log, s.allocs);
  }

  lemma {:induction false} StepIsLoyal(w: World, lim: Limits, h: Hooks, wire: nat -> Wire, s: State)
    requires Streams(w, lim, h, wire) && Loyal(w, h, s) && s.final == None
    ensures Loyal(w, h, Step(w, s))
  {
    TripExtends(w, lim, h, wire, s);
    SettleIsLoyal(w, h, s, Trip(w, s));
  }

  /** The commit rule.  Without SICHA_POLICY_RETRY_AFTER_DELTAS, whatever transport,
      validator, callbacks, token and allocator do, every delta or reasoning call
      of a whole call belongs to its last round trip; and with accumulation on, a
      call has handed to on_delta, if set, exactly the bytes of the result text and
      to on_reasoning exactly those of the reasoning, however it ends. */
  lemma {:induction false} CommitRule(w: World, lim: Limits, h: Hooks, wire: nat -> Wire)
    requires Resolved(w.policy) && !w.policy.retryAfterDeltas
    requires Streams(w, lim, h, wire)
    ensures var s := Run(w, Start(w));
            && OnlyLatestCommits(s.log, s.trips)
            && (h.accumulate && h.onDelta ==> Heard(s.log, OnDelta) == s.r.text.bytes)
            && (h.accumulate && h.onReasoning ==> Heard(s.log, OnReasoning) == s.r.reasoning.bytes)
  {
    var inv := (s: State) => Loyal(w, h, s);
    forall t: State | inv(t) && Running(w, t) && t.final == None
      ensures inv(Step(w, t))
    {
      StepIsLoyal(w, lim, h, wire, t);
    }
    RunKeeps(w, Start(w), inv);
    var s := Run(w, Start(w));
    assert [] + s.r.text.bytes == s.r.text.bytes && [] + s.r.reasoning.bytes == s.r.reasoning.bytes;
  }
}
