/** What the answers of the cancel token mean over whole runs: the flag is the last
    store, "cancelled" needs a trigger, and "not cancelled" from a wait needs its
    deadline. */
module CancelAnswers {
  import opened Bytes
  import opened Cancel

  predicate Turns(s: Token, turns: seq<Turn>)
  {
    forall i :: 0 <= i < |turns| ==> turns[i].t < |s.calls|
  }

  // ----- the flag -----

  /** The last store of a run: true for a trigger's, false for a reset's, `known` if
      there is none. */
  function LastStore(s: Token, turns: seq<Turn>, known: bool): (b: bool)
    requires Turns(s, turns)
    decreases |turns|
  {
    if turns == [] then known
    else
      var pc := s.calls[turns[0].t];
      LastStore(Step(s, turns[0].t, turns[0].now), turns[1..],
                if pc == TriggerLocked then true else if pc == ResetLocked then false else known)
  }

  /** No turn is the store of a trigger. */
  ghost predicate NoStore(s: Token, turns: seq<Turn>)
    requires Turns(s, turns)
    decreases |turns|
  {
    turns == [] ||
    (s.calls[turns[0].t] != TriggerLocked && NoStore(Step(s, turns[0].t, turns[0].now), turns[1..]))
  }

  /** The flag is the last store. */
  lemma {:induction false} FlagIsLastStore(s: Token, turns: seq<Turn>)
    requires Turns(s, turns)
    ensures Run(s, turns).flag == LastStore(s, turns, s.flag)
    decreases |turns|
  {
    if turns != [] {
      FlagIsLastStore(Step(s, turns[0].t, turns[0].now), turns[1..]);
    }
  }

  lemma {:induction false} NoStoreStaysClear(s: Token, turns: seq<Turn>)
    requires Turns(s, turns) && NoStore(s, turns)
    ensures !LastStore(s, turns, false)
    decreases |turns|
  {
    if turns != [] {
      NoStoreStaysClear(Step(s, turns[0].t, turns[0].now), turns[1..]);
    }
  }

  /** The answer a call gives at its own turn, if it reads the flag there. */
  function Reading(before: Pc, after: Pc): (r: Option<bool>)
  {
    match after
    case WaitUnlock(r) => if before == WaitRead then Some(r) else None
    case PollDone(r) => if before == PollStart then Some(r) else None
    case _ => None
  }

  /** Every answer is the last store before the turn that reads it; so "cancelled" has
      a trigger's store before that turn. */
  lemma {:induction false} AnswersAreLastStores(s0: Token, turns: seq<Turn>, w: nat, now: bool)
    requires Fresh(s0) && Turns(s0, turns) && w < |s0.calls|
    ensures var s := Run(s0, turns);
            var answer := Reading(s.calls[w], Step(s, w, now).calls[w]);
            && (s.calls[w] in {WaitRead, PollStart} ==> answer == Some(LastStore(s0, turns, false)))
            && (answer == Some(true) ==> !NoStore(s0, turns))
  {
    FlagIsLastStore(s0, turns);
    if NoStore(s0, turns) {
      NoStoreStaysClear(s0, turns);
    }
  }

  /** The call has answered, or is about to answer, "cancelled". */
  predicate SaysYes(pc: Pc)
  {
    pc in {WaitUnlock(true), WaitDone(true), PollDone(true)}
  }

  /** Nobody says "cancelled" in a run without a trigger's store, whatever else
      happens. */
  lemma {:induction false} NoStoreNoYes(s: Token, turns: seq<Turn>)
    requires Turns(s, turns) && NoStore(s, turns) && !s.flag
    requires forall i :: 0 <= i < |s.calls| ==> !SaysYes(s.calls[i])
    ensures forall i :: 0 <= i < |s.calls| ==> !SaysYes(Run(s, turns).calls[i])
    decreases |turns|
  {
    if turns != [] {
      NoStoreNoYes(Step(s, turns[0].t, turns[0].now), turns[1..]);
    }
  }

  // ----- the deadline -----

  /** Some turn of w finds its deadline passed at the clock test. */
  ghost predicate TimedOut(s: Token, turns: seq<Turn>, w: nat)
    requires Turns(s, turns) && w < |s.calls|
    decreases |turns|
  {
    turns != [] &&
    (|| (turns[0].t == w && s.calls[w] == WaitClock && turns[0].now)
     || TimedOut(Step(s, turns[0].t, turns[0].now), turns[1..], w))
  }

  /** A wait that has not timed out leaves its loop only on a set flag. */
  ghost predicate Patient(s: Token, w: nat)
  {
    && Inv(s) && w < |s.calls|
    && (s.calls[w] == WaitRead ==> s.flag)
    && s.calls[w] != WaitUnlock(false) && s.calls[w] != WaitDone(false)
  }

  lemma {:induction false} StepKeepsPatient(s: Token, w: nat, t: nat, now: bool)
    requires Patient(s, w) && t < |s.calls| && !(t == w && s.calls[w] == WaitClock && now)
    ensures Patient(Step(s, t, now), w)
  {
    StepKeepsInv(s, t, now);
  }

  lemma {:induction false} RunKeepsPatient(s: Token, turns: seq<Turn>, w: nat)
    requires Patient(s, w) && Turns(s, turns) && !TimedOut(s, turns, w)
    ensures Patient(Run(s, turns), w)
    decreases |turns|
  {
    if turns != [] {
      StepKeepsPatient(s, w, turns[0].t, turns[0].now);
      RunKeepsPatient(Step(s, turns[0].t, turns[0].now), turns[1..], w);
    }
  }

  /** A wait answers "not cancelled" only behind a clock test that found its deadline
      passed, never before. */
  lemma {:induction false} NoNeedsDeadline(s0: Token, turns: seq<Turn>, w: nat)
    requires Fresh(s0) && Turns(s0, turns) && w < |s0.calls|
    requires Run(s0, turns).calls[w] == WaitDone(false)
    ensures TimedOut(s0, turns, w)
  {
    if !TimedOut(s0, turns, w) {
      RunKeepsPatient(s0, turns, w);
    }
  }

  /** The loop of a wait. */
  predicate InLoop(pc: Pc)
  {
    pc in {WaitStart, WaitTest, WaitClock, WaitParked, WaitWoken}
  }

  /** Without a trigger's store and before its deadline a wait does not return: over
      every run it stays in its loop. */
  lemma {:induction false} KeepsWaiting(s: Token, turns: seq<Turn>, w: nat)
    requires w < |s.calls| && InLoop(s.calls[w]) && !s.flag
    requires Turns(s, turns) && NoStore(s, turns) && !TimedOut(s, turns, w)
    ensures InLoop(Run(s, turns).calls[w])
    decreases |turns|
  {
    if turns != [] {
      KeepsWaiting(Step(s, turns[0].t, turns[0].now), turns[1..], w);
    }
  }

  /** With the mutex free, the flag clear and the deadline ahead, three turns of its own
      take a wait through both tests onto the condition variable, the mutex released;
      and from there it comes back to the test when woken. */
  lemma {:induction false} ThreeTurnsPark(s: Token, w: nat)
    requires w < |s.calls| && s.calls[w] in {WaitStart, WaitWoken} && s.owner == None && !s.flag
    ensures var s1 := Step(s, w, false);
            var s2 := Step(s1, w, false);
            var s3 := Step(s2, w, false);
            && s1.calls[w] == WaitTest && s1.owner == Some(w)
            && s2.calls[w] == WaitClock && s2.owner == Some(w)
            && s3.calls == s.calls[w := WaitParked] && s3.owner == None && !s3.flag
            && Step(s3, w, true).calls[w] == WaitWoken
  {
    var s1 := Step(s, w, false);
    var s2 := Step(s1, w, false);
    assert s2.calls == s.calls[w := WaitClock];
  }

  /** With the deadline passed, they take it out of the loop, and two more to the answer
      "not cancelled". */
  lemma {:induction false} FiveTurnsTimeOut(s: Token, w: nat)
    requires w < |s.calls| && s.calls[w] in {WaitStart, WaitWoken} && s.owner == None && !s.flag
    ensures var s3 := Step(Step(Step(s, w, true), w, true), w, true);
            var s5 := Step(Step(s3, w, true), w, true);
            s3.calls[w] == WaitRead && s5.calls == s.calls[w := WaitDone(false)] && s5.owner == None
  {
    var s2 := Step(Step(s, w, true), w, true);
    assert s2.calls == s.calls[w := WaitClock];
    var s4 := Step(Step(s2, w, true), w, true);
    assert s4.calls == s.calls[w := WaitUnlock(false)];
  }

  /** A trigger and a reset with the mutex to themselves. */
  lemma {:induction false} StoresAlone(s: Token, t: nat)
    requires t < |s.calls| && s.owner == None
    ensures s.calls[t] == TriggerStart ==>
              var s4 := Run(s, [Turn(t, false), Turn(t, false), Turn(t, false), Turn(t, false)]);
              s4.flag && s4.owner == None && s4.calls[t] == TriggerDone
    ensures s.calls[t] == ResetStart ==>
              var s3 := Run(s, [Turn(t, false), Turn(t, false), Turn(t, false)]);
              !s3.flag && s3.owner == None && s3.calls[t] == ResetDone
  {
    var a := Turn(t, false);
    assert [a, a, a, a][1..] == [a, a, a] && [a, a, a][1..] == [a, a] && [a, a][1..] == [a] && [a][1..] == [];
    var s1 := Step(s, t, false);
    var s2 := Step(s1, t, false);
    var s3 := Step(s2, t, false);
    assert Run(s, [a, a, a]) == Run(s1, [a, a]) == Run(s2, [a]) == Run(s3, []);
    assert Run(s, [a, a, a, a]) == Run(s1, [a, a, a]) == Run(s2, [a, a]) == Run(s3, [a]) == Run(Step(s3, t, false), []);
  }
}
