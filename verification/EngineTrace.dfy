/** A whole call read off its round trips: from their outcomes alone follow the class in
    every record, the content every round trip starts from, and every wait. */
module EngineTrace {
  import opened Bytes
  import opened StreamAssembly
  import opened Classify
  import opened Attempt
  import opened Engine
  import opened EngineLaws
  import opened EngineBudget

  // ----- classes -----

  /** The class round trip k must be given, by the tables of the documentation. */
  ghost predicate Prescribed(w: World, k: nat, o: Outcome, cls: Class)
  {
    var p := w.policy;
    if o.terminal != Ok then cls == Advance
    else if o.ts in {TransportCancelled, AbortedBySink} then cls == Cancel
    else if o.ts in {Connect, Tls, ConnReset, Other} || o.ts.Unknown? then cls == RetrySame
    else if o.ts != TransportOk then cls == Advance
    else if 200 <= o.httpStatus <= 299 then
      if o.body != BodyOk
         || (p.lengthIsAdvance && o.r.finish == FinishLength)
         || (p.contentFilterIsAdvance && o.r.finish == FinishContentFilter)
      then cls == Advance
      else cls == if w.rejects(k, o.r) then Validation else Success
    else if NotOverridden(p.overrides, o.httpStatus) then
      cls == if o.httpStatus in {400, 401, 402, 403, 404} then Abort
             else if o.httpStatus == 429 then Advance
             else RetrySame
    else exists i: nat :: OverriddenBy(p.overrides, o.httpStatus, i) && cls == p.overrides[i].cls
  }

  lemma {:induction false} FirstEntry(os: seq<Override>, httpStatus: int) returns (i: nat)
    requires !NotOverridden(os, httpStatus)
    ensures OverriddenBy(os, httpStatus, i)
    decreases |os|
  {
    var n := |os| - 1;
    if NotOverridden(os[..n], httpStatus) {
      i := n;
    } else {
      i := FirstEntry(os[..n], httpStatus);
      assert os[..n][..i] == os[..i];
    }
  }

  lemma {:induction false} ResponseIsPrescribed(w: World, k: nat, o: Outcome)
    requires Validated(w.policy) && o.terminal == Ok && o.ts == TransportOk && !(200 <= o.httpStatus <= 299)
    ensures Prescribed(w, k, o, ClassOf(w, k, o))
  {
    var p := w.policy;
    NoSuccessBeyond2xx(p, o.httpStatus, o.body, o.r.finish);
    if NotOverridden(p.overrides, o.httpStatus) {
      BuiltInClasses(p, o.httpStatus, o.body, o.r.finish);
    } else {
      var i := FirstEntry(p.overrides, o.httpStatus);
      OverriddenClasses(p, o.httpStatus, o.body, o.r.finish, i);
    }
  }

  lemma {:induction false} ClassIsPrescribed(w: World, k: nat, o: Outcome)
    requires Validated(w.policy)
    ensures Prescribed(w, k, o, ClassOf(w, k, o))
  {
    var p := w.policy;
    if o.terminal == Ok {
      if o.ts != TransportOk {
        TransportClasses(p, o.ts, o.httpStatus, o.body, o.r.finish);
      } else if 200 <= o.httpStatus <= 299 {
        GoodClasses(p, o.httpStatus, o.body, o.r.finish);
      } else {
        ResponseIsPrescribed(w, k, o);
      }
    }
  }

  lemma {:induction false} NoSuccessBeyond2xx(p: Policy, httpStatus: int, body: BodyState, finish: Finish)
    requires Validated(p) && !(200 <= httpStatus <= 299)
    ensures ClassifyTrip(p, TransportOk, httpStatus, body, finish) != Success
  {
    ClassesAreDisjoint(p, TransportOk, httpStatus, body, finish);
  }

  // ----- the round trips of a call -----

  function ContentBefore(w: World, os: seq<Outcome>, k: nat): (r: Content)
    requires k <= |os|
  {
    if k == 0 then FreshContent(w.maxResponse) else os[k - 1].r
  }

  function LogBefore(os: seq<Outcome>, k: nat): (log: seq<Call>)
    requires k <= |os|
  {
    if k == 0 then [] else os[k - 1].log
  }

  function AllocsBefore(os: seq<Outcome>, k: nat): (n: nat)
    requires k <= |os|
  {
    if k == 0 then 0 else os[k - 1].allocs
  }

  /** Each round trip starts from the reset content of the one before and carries on its
      callbacks and allocations. */
  ghost predicate Chained(w: World, os: seq<Outcome>)
  {
    forall k :: 0 <= k < |os| ==>
      os[k] == w.attempt(k, ResetContent(ContentBefore(w, os, k)), LogBefore(os, k), AllocsBefore(os, k))
  }

  predicate AnyDelivered(os: seq<Outcome>)
  {
    exists k :: 0 <= k < |os| && os[k].delivered
  }

  /** The records describe the round trips (the last one may be missing one). */
  ghost predicate Recorded(w: World, rs: seq<Record>, os: seq<Outcome>)
  {
    && |rs| <= |os| <= |rs| + 1
    && forall k :: 0 <= k < |rs| ==>
         && rs[k].attempt == k && rs[k].httpStatus == os[k].httpStatus && rs[k].ts == os[k].ts
         && Prescribed(w, k, os[k], rs[k].cls)
  }

  /** The wait before the n-th retry on a backend, behind a response that asked for `ra`:
      that, cut to its cap, if it asked at all and the cap is enabled; else the backoff
      for n with the next draw. */
  function Slept(w: World, n: nat, ra: U64, draws: nat): (x: Wait)
    requires n >= 1
  {
    var p := w.policy;
    if ra != UINT64_MAX && p.retryAfterCapMs != NO_LIMIT then Wait(Min(ra, p.retryAfterCapMs), false)
    else Wait(Schedule(p, n, w.jitter(draws)), true)
  }

  /** The wait behind the last of these records: none unless it is a same-backend retry
      with tries and permission left. */
  function SleepAt(w: World, rs: seq<Record>, os: seq<Outcome>): (r: Option<Wait>)
    requires rs != [] && |rs| <= |os|
    decreases |rs|, 0
  {
    var k := |rs| - 1;
    var n := Count(rs, rs[k].backend, RetrySame);
    if rs[k].cls != RetrySame || n >= w.policy.maxTries
       || (!w.policy.retryAfterDeltas && AnyDelivered(os[..k + 1])) then None
    else Some(Slept(w, n, os[k].retryAfterMs, FormulaWaits(WaitsOf(w, rs[..k], os))))
  }

  /** All waits of a call, in order. */
  function WaitsOf(w: World, rs: seq<Record>, os: seq<Outcome>): (ws: seq<Wait>)
    requires |rs| <= |os|
    decreases |rs|, 1
  {
    if rs == [] then []
    else
      var last := SleepAt(w, rs, os);
      WaitsOf(w, rs[..|rs| - 1], os) + if last.Some? then [last.value] else []
  }

  lemma {:induction false} WaitsExtend(w: World, rs: seq<Record>, os: seq<Outcome>, o: Outcome)
    requires |rs| <= |os|
    ensures WaitsOf(w, rs, os + [o]) == WaitsOf(w, rs, os)
    decreases |rs|
  {
    if rs != [] {
      var k := |rs| - 1;
      assert (os + [o])[..k + 1] == os[..k + 1];
      WaitsExtend(w, rs[..k], os, o);
      assert SleepAt(w, rs, os + [o]) == SleepAt(w, rs, os);
    }
  }

  lemma {:induction false} SleepExtends(w: World, rs: seq<Record>, os: seq<Outcome>, o: Outcome)
    requires rs != [] && |rs| <= |os|
    ensures SleepAt(w, rs, os + [o]) == SleepAt(w, rs, os)
  {
    var k := |rs| - 1;
    assert (os + [o])[..k + 1] == os[..k + 1];
    WaitsExtend(w, rs[..k], os, o);
  }

  /** The token fired during none of the waits behind these records; the one behind record
      k precedes round trip k + 1. */
  ghost predicate WaitedOut(w: World, rs: seq<Record>, os: seq<Outcome>)
    requires |rs| <= |os|
    decreases |rs|
  {
    rs == [] ||
    (WaitedOut(w, rs[..|rs| - 1], os) && (SleepAt(w, rs, os).Some? ==> !w.waitCancelled(|rs|)))
  }

  lemma {:induction false} WaitedOutExtends(w: World, rs: seq<Record>, os: seq<Outcome>, o: Outcome)
    requires |rs| <= |os| && WaitedOut(w, rs, os)
    ensures WaitedOut(w, rs, os + [o])
    decreases |rs|
  {
    if rs != [] {
      WaitedOutExtends(w, rs[..|rs| - 1], os, o);
      SleepExtends(w, rs, os, o);
    }
  }

  /** What the token does to a call: every round trip's turn found it clear, no wait but
      the last was cut short by it, and if that was, the call is cancelled. */
  ghost predicate Heeded(w: World, s: State, os: seq<Outcome>)
    requires |s.records| <= |os|
  {
    var rs := s.records;
    && (forall k :: 0 <= k < s.trips ==> !w.cancelled(k))
    && (rs != [] ==>
          && WaitedOut(w, rs[..|rs| - 1], os)
          && (SleepAt(w, rs, os).Some? && w.waitCancelled(|rs|) ==> s.final == Some(Cancelled)))
  }

  /** A state of the engine, read off the round trips so far: its outcomes... */
  ghost predicate TracedTrips(w: World, s: State, os: seq<Outcome>)
  {
    && Chained(w, os) && |os| == s.trips && (s.anyDelivered <==> AnyDelivered(os))
    && s.r == ContentBefore(w, os, |os|) && s.log == LogBefore(os, |os|) && s.allocs == AllocsBefore(os, |os|)
  }

  /** ... its records... */
  ghost predicate TracedRecords(w: World, s: State, os: seq<Outcome>)
  {
    Recorded(w, s.records, os) && (s.final == None ==> |s.records| == |os|)
  }

  /** ... and its waits. */
  ghost predicate TracedWaits(w: World, s: State, os: seq<Outcome>)
  {
    |s.records| <= |os| && s.waits == WaitsOf(w, s.records, os) && s.draws == FormulaWaits(s.waits)
  }

  ghost predicate Traced(w: World, s: State, os: seq<Outcome>)
  {
    TracedTrips(w, s, os) && TracedRecords(w, s, os) && TracedWaits(w, s, os) && Heeded(w, s, os)
  }

  /** What a turn that makes a round trip leaves, but for waits and routing. */
  lemma {:induction false} StepNotes(w: World, s: State)
    requires s.final == None && Goes(w, s)
    ensures var o := Trip(w, s);
            var s1, s' := Note(w, s, o, ClassOf(w, s.trips, o)), Step(w, s);
            && s'.records == s1.records && s'.trips == s.trips + 1
            && s'.anyDelivered == (s.anyDelivered || o.delivered)
            && s'.r == o.r && s'.log == o.log && s'.allocs == o.allocs
            && (s'.final == None ==> w.recordRoom(s.trips))
  {
  }

  lemma {:induction false} StepTracesTrips(w: World, s: State, os: seq<Outcome>)
    requires TracedTrips(w, s, os) && s.final == None && Goes(w, s)
    ensures TracedTrips(w, Step(w, s), os + [Trip(w, s)])
  {
    var o := Trip(w, s);
    StepNotes(w, s);
    ChainGrows(w, s, os, o);
    DeliveryGrows(os, o);
  }

  lemma {:induction false} ChainGrows(w: World, s: State, os: seq<Outcome>, o: Outcome)
    requires TracedTrips(w, s, os) && o == Trip(w, s)
    ensures Chained(w, os + [o])
  {
    var all := os + [o];
    forall k | 0 <= k < |all|
      ensures all[k] == w.attempt(k, ResetContent(ContentBefore(w, all, k)), LogBefore(all, k), AllocsBefore(all, k))
    {
      if k < |os| {
        assert all[k] == os[k] && (k > 0 ==> all[k - 1] == os[k - 1]);
      }
    }
  }

  lemma {:induction false} DeliveryGrows(os: seq<Outcome>, o: Outcome)
    ensures AnyDelivered(os + [o]) <==> AnyDelivered(os) || o.delivered
  {
    var all := os + [o];
    if AnyDelivered(os) {
      var k :| 0 <= k < |os| && os[k].delivered;
      assert all[k].delivered;
    }
    assert all[|os|] == o;
  }

  lemma {:induction false} StepTracesRecords(w: World, s: State, os: seq<Outcome>)
    requires TracedRecords(w, s, os) && |os| == s.trips && s.final == None && Goes(w, s) && Validated(w.policy)
    ensures TracedRecords(w, Step(w, s), os + [Trip(w, s)])
  {
    var o := Trip(w, s);
    StepNotes(w, s);
    ClassIsPrescribed(w, s.trips, o);
    RecordsGrow(w, s.records, os, o, Record(s.trips, s.backend, s.tryOf, ClassOf(w, s.trips, o), o.httpStatus, o.ts));
  }

  lemma {:induction false} RecordsGrow(w: World, rs: seq<Record>, os: seq<Outcome>, o: Outcome, record: Record)
    requires Recorded(w, rs, os) && |rs| == |os|
    requires record.attempt == |os| && record.httpStatus == o.httpStatus && record.ts == o.ts
    requires Prescribed(w, |os|, o, record.cls)
    ensures Recorded(w, rs + [record], os + [o]) && Recorded(w, rs, os + [o])
  {
    var all, more := os + [o], rs + [record];
    forall k | 0 <= k < |more|
      ensures more[k].attempt == k && more[k].httpStatus == all[k].httpStatus && more[k].ts == all[k].ts
      ensures Prescribed(w, k, all[k], more[k].cls)
    {
      if k < |rs| {
        assert more[k] == rs[k] && all[k] == os[k];
      }
    }
    assert forall k :: 0 <= k < |rs| ==> more[k] == rs[k];
  }

  /** Deciding on the noted round trip adds exactly the wait behind its record. */
  lemma {:induction false} DecideWaits(w: World, s1: State, cls: Class, os: seq<Outcome>)
    requires Noted(w, s1, cls) && |s1.records| == |os| && os != []
    requires s1.draws == FormulaWaits(s1.waits) && (s1.anyDelivered <==> AnyDelivered(os))
    requires s1.waits == WaitsOf(w, s1.records[..|os| - 1], os)
    ensures var s' := Decide(w, s1, cls, os[|os| - 1].retryAfterMs);
            s'.waits == WaitsOf(w, s1.records, os) && s'.draws == FormulaWaits(s'.waits)
  {
    var k := |os| - 1;
    assert os[..k + 1] == os;
    if cls == RetrySame && s1.retrySame + 1 < w.policy.maxTries && !Committed(w, s1) {
      var x := SleepIsScheduled(w, s1, os[k].retryAfterMs);
      assert SleepAt(w, s1.records, os) == Some(x);
    } else {
      DecideQuietly(w, s1, cls, os[k].retryAfterMs);
      assert SleepAt(w, s1.records, os) == None;
    }
  }

  lemma {:induction false} DecideHeeds(w: World, s1: State, cls: Class, os: seq<Outcome>)
    requires Noted(w, s1, cls) && |s1.records| == |os| && os != [] && (s1.anyDelivered <==> AnyDelivered(os))
    requires SleepAt(w, s1.records, os).Some? && w.waitCancelled(|os|)
    ensures Decide(w, s1, cls, os[|os| - 1].retryAfterMs).final == Some(Cancelled)
  {
    var k := |os| - 1;
    assert os[..k + 1] == os;
  }

  lemma {:induction false} DecideQuietly(w: World, s1: State, cls: Class, ra: U64)
    requires cls != RetrySame || s1.retrySame + 1 >= w.policy.maxTries || Committed(w, s1)
    ensures var s' := Decide(w, s1, cls, ra); s'.waits == s1.waits && s'.draws == s1.draws
  {
  }

  lemma {:induction false} DecideSleeps(w: World, s1: State, ra: U64)
    requires s1.retrySame + 1 < w.policy.maxTries && !Committed(w, s1)
    ensures Decide(w, s1, RetrySame, ra) == Sleep(w, s1.(retrySame := s1.retrySame + 1), ra)
  {
  }

  lemma {:induction false} FormulaWaitsGrow(ws: seq<Wait>, x: Wait)
    ensures FormulaWaits(ws + [x]) == FormulaWaits(ws) + (if x.formula then 1 else 0)
  {
    assert (ws + [x])[..|ws|] == ws;
  }

  lemma {:induction false} SleepIsScheduled(w: World, s1: State, ra: U64) returns (x: Wait)
    requires Resolved(w.policy) && s1.draws == FormulaWaits(s1.waits)
    requires s1.retrySame + 1 < w.policy.maxTries && !Committed(w, s1)
    ensures x == Slept(w, s1.retrySame + 1, ra, s1.draws)
    ensures var s' := Decide(w, s1, RetrySame, ra);
            s'.waits == s1.waits + [x] && s'.draws == FormulaWaits(s1.waits + [x])
  {
    x := Slept(w, s1.retrySame + 1, ra, s1.draws);
    var s2 := s1.(retrySame := s1.retrySame + 1);
    DecideSleeps(w, s1, ra);
    SleepAdds(w, s2, ra);
    FormulaWaitsGrow(s1.waits, x);
  }

  lemma {:induction false} SleepAdds(w: World, s: State, ra: U64)
    requires Resolved(w.policy) && s.retrySame >= 1
    ensures var s', x := Sleep(w, s, ra), Slept(w, s.retrySame, ra, s.draws);
            s'.waits == s.waits + [x] && s'.draws == s.draws + (if x.formula then 1 else 0)
  {
    BackoffClosedForm(w.policy, s.retrySame, w.jitter(s.draws));
  }

  lemma {:induction false} StepTracesWaits(w: World, s: State, os: seq<Outcome>)
    requires Routed(w, s) && TracedWaits(w, s, os) && |s.records| == |os| == s.trips && s.final == None && Goes(w, s)
    requires s.anyDelivered <==> AnyDelivered(os)
    ensures TracedWaits(w, Step(w, s), os + [Trip(w, s)])
  {
    var o := Trip(w, s);
    WaitsExtend(w, s.records, os, o);
    if Judges(w, s) {
      JudgedWaits(w, s, os, o);
    } else {
      UnjudgedWaits(w, s, os, o);
    }
  }

  lemma {:induction false} JudgedWaits(w: World, s: State, os: seq<Outcome>, o: Outcome)
    requires Routed(w, s) && |s.records| == |os| == s.trips && s.final == None && Judges(w, s) && o == Trip(w, s)
    requires s.waits == WaitsOf(w, s.records, os + [o]) && s.draws == FormulaWaits(s.waits)
    requires s.anyDelivered <==> AnyDelivered(os)
    ensures TracedWaits(w, Step(w, s), os + [o])
  {
    var cls := ClassOf(w, s.trips, o);
    var s1 := Note(w, s, o, cls);
    NoteIsNoted(w, s, o, cls);
    DeliveryGrows(os, o);
    assert s1.records[..|os|] == s.records;
    DecideWaits(w, s1, cls, os + [o]);
    DecideKeepsRecords(w, s1, cls, o.retryAfterMs);
    assert Step(w, s) == Decide(w, s1, cls, o.retryAfterMs);
  }

  lemma {:induction false} DecideKeepsRecords(w: World, s: State, cls: Class, retryAfterMs: U64)
    ensures Decide(w, s, cls, retryAfterMs).records == s.records
  {
  }

  /** A round trip that ran out of memory, or whose record did, is not followed by a
      wait. */
  lemma {:induction false} UnjudgedWaits(w: World, s: State, os: seq<Outcome>, o: Outcome)
    requires s.final == None && |s.records| == |os| && Goes(w, s) && !Judges(w, s) && o == Trip(w, s)
    requires s.waits == WaitsOf(w, s.records, os + [o]) && s.draws == FormulaWaits(s.waits)
    ensures TracedWaits(w, Step(w, s), os + [o])
  {
    var rs := Step(w, s).records;
    if w.recordRoom(s.trips) {
      assert rs[..|os|] == s.records && rs[|os|].cls == Advance;
    }
  }

  /** One more record, heeded... */
  lemma {:induction false} HeedsOneMore(w: World, s: State, rs: seq<Record>, os: seq<Outcome>)
    requires s.records != [] && |s.records| <= |os| && s.records[..|s.records| - 1] == rs
    requires WaitedOut(w, rs, os) && forall k :: 0 <= k < s.trips ==> !w.cancelled(k)
    requires SleepAt(w, s.records, os).Some? && w.waitCancelled(|s.records|) ==> s.final == Some(Cancelled)
    ensures Heeded(w, s, os) && (s.final == None ==> WaitedOut(w, s.records, os))
  {
  }

  /** ... or none. */
  lemma {:induction false} HeedsNoMore(w: World, s: State, os: seq<Outcome>)
    requires |s.records| <= |os| && WaitedOut(w, s.records, os)
    requires forall k :: 0 <= k < s.trips ==> !w.cancelled(k)
    ensures Heeded(w, s, os)
  {
  }

  lemma {:induction false} StepHeeds(w: World, s: State, os: seq<Outcome>)
    requires Routed(w, s) && |s.records| == |os| == s.trips && s.final == None && Goes(w, s)
    requires WaitedOut(w, s.records, os) && (s.anyDelivered <==> AnyDelivered(os))
    requires forall k :: 0 <= k < s.trips ==> !w.cancelled(k)
    ensures |Step(w, s).records| <= |os| + 1 && Heeded(w, Step(w, s), os + [Trip(w, s)])
    ensures Step(w, s).final == None ==> WaitedOut(w, Step(w, s).records, os + [Trip(w, s)])
  {
    var o, s' := Trip(w, s), Step(w, s);
    StepNotes(w, s);
    WaitedOutExtends(w, s.records, os, o);
    if w.recordRoom(s.trips) {
      StepAddsRecord(w, s, os, o);
      HeedsOneMore(w, s', s.records, os + [o]);
    } else {
      HeedsNoMore(w, s', os + [o]);
    }
  }

  lemma {:induction false} StepAddsRecord(w: World, s: State, os: seq<Outcome>, o: Outcome)
    requires Routed(w, s) && |s.records| == |os| == s.trips && s.final == None && Goes(w, s)
    requires w.recordRoom(s.trips) && o == Trip(w, s) && (s.anyDelivered <==> AnyDelivered(os))
    ensures var s', all := Step(w, s), os + [o];
            && |s'.records| == |all| && s'.records[..|os|] == s.records
            && (SleepAt(w, s'.records, all).Some? && w.waitCancelled(|all|) ==> s'.final == Some(Cancelled))
  {
    StepNotes(w, s);
    if Judges(w, s) {
      JudgedHeeds(w, s, os, o);
    } else {
      NoSleepOnAdvance(w, Step(w, s).records, os + [o]);
    }
  }

  lemma {:induction false} NoSleepOnAdvance(w: World, rs: seq<Record>, os: seq<Outcome>)
    requires rs != [] && |rs| <= |os| && rs[|rs| - 1].cls == Advance
    ensures SleepAt(w, rs, os) == None
  {
  }

  lemma {:induction false} JudgedHeeds(w: World, s: State, os: seq<Outcome>, o: Outcome)
    requires Routed(w, s) && |s.records| == |os| == s.trips && s.final == None && Judges(w, s) && o == Trip(w, s)
    requires s.anyDelivered <==> AnyDelivered(os)
    ensures var s', all := Step(w, s), os + [o];
            && |s'.records| == |all|
            && (SleepAt(w, s'.records, all).Some? && w.waitCancelled(|all|) ==> s'.final == Some(Cancelled))
  {
    var cls := ClassOf(w, s.trips, o);
    var s1 := Note(w, s, o, cls);
    NoteIsNoted(w, s, o, cls);
    DeliveryGrows(os, o);
    DecideKeepsRecords(w, s1, cls, o.retryAfterMs);
    assert Step(w, s) == Decide(w, s1, cls, o.retryAfterMs);
    if SleepAt(w, s1.records, os + [o]).Some? && w.waitCancelled(|os| + 1) {
      DecideHeeds(w, s1, cls, os + [o]);
    }
  }

  /** A turn that makes a round trip appends it. */
  lemma {:induction false} TripIsTraced(w: World, s: State, os: seq<Outcome>)
    requires Routed(w, s) && Traced(w, s, os) && s.final == None && Validated(w.policy) && Goes(w, s)
    ensures Traced(w, Step(w, s), os + [Trip(w, s)])
  {
    StepTracesTrips(w, s, os);
    StepTracesRecords(w, s, os);
    StepTracesWaits(w, s, os);
    assert WaitedOut(w, s.records, os);
    StepHeeds(w, s, os);
  }

  lemma {:induction false} StopIsTraced(w: World, s: State, os: seq<Outcome>)
    requires Traced(w, s, os) && s.final == None && !Goes(w, s)
    ensures Traced(w, Step(w, s), os)
  {
    var s' := Step(w, s);
    assert s' == s.(final := s'.final);
  }

  lemma {:induction false} TurnIsTraced(w: World, s: State, os: seq<Outcome>) returns (next: seq<Outcome>)
    requires Routed(w, s) && Traced(w, s, os) && s.final == None && Validated(w.policy)
    ensures Traced(w, Step(w, s), next)
  {
    if Goes(w, s) {
      next := os + [Trip(w, s)];
      TripIsTraced(w, s, os);
    } else {
      next := os;
      StopIsTraced(w, s, os);
    }
  }

  ghost predicate Traceable(w: World, s: State)
  {
    Routed(w, s) && exists os :: Traced(w, s, os)
  }

  lemma {:induction false} TurnIsTraceable(w: World, s: State)
    requires Traceable(w, s) && s.final == None && Validated(w.policy)
    ensures Traceable(w, Step(w, s))
  {
    var os :| Traced(w, s, os);
    StepIsRouted(w, s);
    var next := TurnIsTraced(w, s, os);
  }

  lemma {:induction false} RunIsTraceable(w: World)
    requires Resolved(w.policy) && Validated(w.policy)
    ensures Traceable(w, Run(w, Start(w)))
  {
    var inv := (s: State) => Traceable(w, s);
    forall t: State | inv(t) && Running(w, t) && t.final == None
      ensures inv(Step(w, t))
    {
      TurnIsTraceable(w, t);
    }
    assert Traced(w, Start(w), []);
    RunKeeps(w, Start(w), inv);
  }

  /** Every call is determined by its round trips: `os` are their outcomes, each started
      from the reset content of the one before; every record carries its round trip's
      status and the class the tables prescribe for it; the waits, in order, are those
      the records and outcomes call for; the result and the callbacks are the last round
      trip's; and the token is heeded at every turn and in every wait. */
  lemma {:induction false} CallIsTraced(w: World) returns (os: seq<Outcome>)
    requires Resolved(w.policy) && Validated(w.policy)
    ensures var s := Run(w, Start(w));
            && Chained(w, os) && |os| == s.trips && Recorded(w, s.records, os)
            && s.waits == WaitsOf(w, s.records, os)
            && s.r == ContentBefore(w, os, |os|) && s.log == LogBefore(os, |os|)
            && Heeded(w, s, os)
  {
    RunIsTraceable(w);
    os :| Traced(w, Run(w, Start(w)), os);
  }

  // ----- without jitter the waits on a backend never shrink -----

  lemma {:induction false} CountGrows(rs: seq<Record>, i: nat, j: nat, backend: nat, cls: Class)
    requires i <= j <= |rs|
    ensures Count(rs[..i], backend, cls) <= Count(rs[..j], backend, cls)
    decreases j - i
  {
    if i < j {
      assert rs[..j][..j - 1] == rs[..j - 1];
      CountGrows(rs, i, j - 1, backend, cls);
    }
  }

  /** Of two formula-based waits of a call on one backend the later is no shorter. */
  lemma {:induction false} WaitsNeverShrink(w: World, rs: seq<Record>, os: seq<Outcome>, i: nat, j: nat)
    requires Resolved(w.policy) && w.policy.backoffJitterMs == NO_LIMIT
    requires i < j < |rs| <= |os| && rs[i].backend == rs[j].backend
    requires SleepAt(w, rs[..i + 1], os).Some? && SleepAt(w, rs[..i + 1], os).value.formula
    requires SleepAt(w, rs[..j + 1], os).Some? && SleepAt(w, rs[..j + 1], os).value.formula
    ensures SleepAt(w, rs[..i + 1], os).value.ms <= SleepAt(w, rs[..j + 1], os).value.ms
  {
    var b := rs[i].backend;
    CountGrows(rs, i + 1, j + 1, b, RetrySame);
    assert rs[..i + 1][i] == rs[i] && rs[..j + 1][j] == rs[j];
    var m, n := Count(rs[..i + 1], b, RetrySame), Count(rs[..j + 1], b, RetrySame);
    var d, e := FormulaWaits(WaitsOf(w, rs[..i + 1][..i], os)), FormulaWaits(WaitsOf(w, rs[..j + 1][..j], os));
    ScheduleMonotone(w.policy, m, n, w.jitter(d), w.jitter(e));
  }

  // ----- over wires -----

  /** The status and the Retry-After of a round trip are those of its response. */
  lemma {:induction false} OutcomeOfWire(lim: Limits, h: Hooks, stream: bool, w: Wire, trip: nat, r: Content,
                                         log: seq<Call>, allocs: nat)
    ensures var o := RunSpec(lim, h, stream, w, trip, r, log, allocs);
            o.httpStatus == HttpOf(w) && o.retryAfterMs == RetryAfterOf(HeadersOf(w))
  {
  }
}
