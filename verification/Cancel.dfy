/** The cancel token (src/cancel.c) as a step system: any number of concurrent
    calls of trigger, reset, wait and the lock-free test, under every interleaving,
    with timeouts and spurious wake-ups. */
module Cancel {
  import opened Bytes

  /** Where one call stands.  Each entry is a call in progress; the states marked
      (m) hold the mutex. */
  datatype Pc =
    | TriggerStart
    | TriggerLocked        // (m) about to store 1
    | TriggerStored        // (m) about to broadcast
    | TriggerBroadcast     // (m) about to unlock
    | TriggerDone
    | ResetStart
    | ResetLocked          // (m) about to store 0
    | ResetStored          // (m) about to unlock
    | ResetDone
    | WaitStart
    | WaitTest             // (m) loop test of the flag
    | WaitClock            // (m) flag was 0: deadline test, else wait on the condvar
    | WaitParked           // on the condvar, mutex released
    | WaitWoken            // woken, about to reacquire the mutex
    | WaitRead             // (m) loop left, about to read the result
    | WaitUnlock(r: bool)  // (m) result read, about to unlock
    | WaitDone(r: bool)
    | PollStart
    | PollDone(r: bool)

  datatype Token = Token(flag: bool, owner: Option<nat>, calls: seq<Pc>)

  predicate Holds(pc: Pc)
  {
    pc.TriggerLocked? || pc.TriggerStored? || pc.TriggerBroadcast? || pc.ResetLocked? || pc.ResetStored? ||
    pc.WaitTest? || pc.WaitClock? || pc.WaitRead? || pc.WaitUnlock?
  }

  function Move(s: Token, t: nat, pc: Pc): (r: Token)
    requires t < |s.calls|
  {
    s.(calls := s.calls[t := pc])
  }

  function Lock(s: Token, t: nat, pc: Pc): (r: Token)
    requires t < |s.calls|
  {
    if s.owner == None then Move(s, t, pc).(owner := Some(t)) else s
  }

  function Unlock(s: Token, t: nat, pc: Pc): (r: Token)
    requires t < |s.calls|
  {
    Move(s, t, pc).(owner := None)
  }

  function WakeAll(calls: seq<Pc>): (r: seq<Pc>)
    ensures |r| == |calls|
    ensures forall i :: 0 <= i < |r| ==> r[i] == if calls[i].WaitParked? then WaitWoken else calls[i]
  {
    seq(|calls|, i requires 0 <= i < |calls| => if calls[i].WaitParked? then WaitWoken else calls[i])
  }

  /** One atomic step of call t; a step that cannot happen changes nothing.  `now`
      is the environment's choice: whether the deadline has passed, or whether a
      parked waiter times out or wakes spuriously. */
  function Step(s: Token, t: nat, now: bool): (r: Token)
    requires t < |s.calls|
    ensures |r.calls| == |s.calls|
  {
    match s.calls[t]
    case TriggerStart => Lock(s, t, TriggerLocked)
    case TriggerLocked => Move(s, t, TriggerStored).(flag := true)
    case TriggerStored => Move(s.(calls := WakeAll(s.calls)), t, TriggerBroadcast)
    case TriggerBroadcast => Unlock(s, t, TriggerDone)
    case ResetStart => Lock(s, t, ResetLocked)
    case ResetLocked => Move(s, t, ResetStored).(flag := false)
    case ResetStored => Unlock(s, t, ResetDone)
    case WaitStart => Lock(s, t, WaitTest)
    case WaitTest => Move(s, t, if s.flag then WaitRead else WaitClock)
    case WaitClock => if now then Move(s, t, WaitRead) else Unlock(s, t, WaitParked)
    case WaitParked => if now then Move(s, t, WaitWoken) else s
    case WaitWoken => Lock(s, t, WaitTest)
    case WaitRead => Move(s, t, WaitUnlock(s.flag))
    case WaitUnlock(r) => Unlock(s, t, WaitDone(r))
    case PollStart => Move(s, t, PollDone(s.flag))
    case _ => s
  }

  datatype Turn = Turn(t: nat, now: bool)

  function Run(s: Token, turns: seq<Turn>): (r: Token)
    requires forall i :: 0 <= i < |turns| ==> turns[i].t < |s.calls|
    ensures |r.calls| == |s.calls|
    decreases |turns|
  {
    if turns == [] then s else Run(Step(s, turns[0].t, turns[0].now), turns[1..])
  }

  /** No call has begun. */
  predicate Fresh(s: Token)
  {
    && s.owner == None && !s.flag
    && forall i :: 0 <= i < |s.calls| ==> s.calls[i] in {TriggerStart, ResetStart, WaitStart, PollStart}
  }

  /** Mutual exclusion, and what the mutex protects: a set flag with a waiter parked
      means a broadcast is still to come; between the test and the park the flag is
      clear; a result read under the mutex is the flag. */
  ghost predicate Inv(s: Token)
  {
    && (forall i :: 0 <= i < |s.calls| ==> (Holds(s.calls[i]) <==> s.owner == Some(i)))
    && (s.owner.Some? ==> s.owner.value < |s.calls|)
    && (forall i :: 0 <= i < |s.calls| && s.calls[i].WaitParked? && s.flag ==>
          s.owner.Some? && s.calls[s.owner.value].TriggerStored?)
    && (forall i :: 0 <= i < |s.calls| && s.calls[i].WaitClock? ==> !s.flag)
    && (forall i :: 0 <= i < |s.calls| && s.calls[i].WaitUnlock? ==> s.calls[i].r == s.flag)
    && (forall i :: 0 <= i < |s.calls| && (s.calls[i].TriggerStored? || s.calls[i].TriggerBroadcast?) ==> s.flag)
  }

  lemma {:induction false} LockKeepsInv(s: Token, t: nat, pc: Pc)
    requires Inv(s) && t < |s.calls| && !Holds(s.calls[t])
    requires pc.TriggerLocked? || pc.ResetLocked? || pc.WaitTest?
    ensures Inv(Lock(s, t, pc))
  {
  }

  lemma {:induction false} UnlockKeepsInv(s: Token, t: nat, pc: Pc)
    requires Inv(s) && s.owner == Some(t) && !s.calls[t].TriggerStored?
    requires pc.TriggerDone? || pc.ResetDone? || pc.WaitDone? || (pc.WaitParked? && !s.flag)
    ensures Inv(Unlock(s, t, pc))
  {
  }

  /** A step of the mutex holder that keeps the mutex and the flag. */
  lemma {:induction false} HolderKeepsInv(s: Token, t: nat, pc: Pc)
    requires Inv(s) && s.owner == Some(t) && !s.calls[t].TriggerStored?
    requires pc.WaitRead? || (pc.WaitClock? && !s.flag) || pc == WaitUnlock(s.flag)
    ensures Inv(Move(s, t, pc))
  {
  }

  /** The stores and the broadcast. */
  lemma {:induction false} StoreKeepsInv(s: Token, t: nat, now: bool)
    requires Inv(s) && t < |s.calls|
    requires s.calls[t].TriggerLocked? || s.calls[t].TriggerStored? || s.calls[t].ResetLocked?
    ensures Inv(Step(s, t, now))
  {
  }

  lemma {:induction false} StepKeepsInv(s: Token, t: nat, now: bool)
    requires Inv(s) && t < |s.calls|
    ensures Inv(Step(s, t, now))
  {
    match s.calls[t]
    case TriggerStart => LockKeepsInv(s, t, TriggerLocked);
    case TriggerLocked => StoreKeepsInv(s, t, now);
    case TriggerStored => StoreKeepsInv(s, t, now);
    case TriggerBroadcast => UnlockKeepsInv(s, t, TriggerDone);
    case ResetStart => LockKeepsInv(s, t, ResetLocked);
    case ResetLocked => StoreKeepsInv(s, t, now);
    case ResetStored => UnlockKeepsInv(s, t, ResetDone);
    case WaitStart => LockKeepsInv(s, t, WaitTest);
    case WaitTest => HolderKeepsInv(s, t, if s.flag then WaitRead else WaitClock);
    case WaitClock =>
      if now {
        HolderKeepsInv(s, t, WaitRead);
      } else {
        UnlockKeepsInv(s, t, WaitParked);
      }
    case WaitWoken => LockKeepsInv(s, t, WaitTest);
    case WaitRead => HolderKeepsInv(s, t, WaitUnlock(s.flag));
    case WaitUnlock(r) => UnlockKeepsInv(s, t, WaitDone(r));
    case _ =>
  }

  lemma {:induction false} RunKeepsInv(s: Token, turns: seq<Turn>)
    requires Inv(s) && forall i :: 0 <= i < |turns| ==> turns[i].t < |s.calls|
    ensures Inv(Run(s, turns))
    decreases |turns|
  {
    if turns != [] {
      StepKeepsInv(s, turns[0].t, turns[0].now);
      RunKeepsInv(Step(s, turns[0].t, turns[0].now), turns[1..]);
    }
  }

  // ----- no lost wake-up -----

  /** No turn is the store of a reset. */
  ghost predicate NoReset(s: Token, turns: seq<Turn>)
    requires forall i :: 0 <= i < |turns| ==> turns[i].t < |s.calls|
    decreases |turns|
  {
    turns == [] ||
    (!s.calls[turns[0].t].ResetLocked? && NoReset(Step(s, turns[0].t, turns[0].now), turns[1..]))
  }

  predicate AnsweredNo(pc: Pc)
  {
    pc == WaitDone(false) || pc == PollDone(false)
  }

  /** From the store of trigger t on: the flag is set, and nobody is parked once t
      has broadcast. */
  ghost predicate Triggered(s: Token, t: nat)
  {
    && Inv(s) && t < |s.calls| && s.flag
    && (|| s.calls[t].TriggerStored?
        || ((s.calls[t].TriggerBroadcast? || s.calls[t].TriggerDone?)
            && forall i :: 0 <= i < |s.calls| ==> !s.calls[i].WaitParked?))
  }

  lemma {:induction false} StepKeepsTriggered(s: Token, t: nat, u: nat, now: bool)
    requires Triggered(s, t) && u < |s.calls| && !s.calls[u].ResetLocked?
    ensures Triggered(Step(s, u, now), t)
    ensures forall i :: 0 <= i < |s.calls| && AnsweredNo(Step(s, u, now).calls[i]) ==> AnsweredNo(s.calls[i])
  {
    StepKeepsInv(s, u, now);
  }

  lemma {:induction false} RunKeepsTriggered(s: Token, t: nat, turns: seq<Turn>)
    requires Triggered(s, t)
    requires forall i :: 0 <= i < |turns| ==> turns[i].t < |s.calls|
    requires NoReset(s, turns)
    ensures Triggered(Run(s, turns), t)
    ensures forall i :: 0 <= i < |s.calls| && AnsweredNo(Run(s, turns).calls[i]) ==> AnsweredNo(s.calls[i])
    decreases |turns|
  {
    if turns != [] {
      StepKeepsTriggered(s, t, turns[0].t, turns[0].now);
      RunKeepsTriggered(Step(s, turns[0].t, turns[0].now), t, turns[1..]);
    }
  }

  /** No lost wake-up.  Take any run from the start up to the store of trigger t,
      and any continuation without a reset: the flag stays set; once t has finished
      no waiter is parked; and no wait or test answers "not cancelled" that had not
      already done so when t stored. */
  lemma {:induction false} NoLostWakeup(s0: Token, before: seq<Turn>, t: nat, after: seq<Turn>)
    requires Fresh(s0) && t < |s0.calls|
    requires forall i :: 0 <= i < |before| ==> before[i].t < |s0.calls|
    requires forall i :: 0 <= i < |after| ==> after[i].t < |s0.calls|
    requires Run(s0, before).calls[t].TriggerStored?
    requires NoReset(Run(s0, before), after)
    ensures var s1 := Run(s0, before);
            var s2 := Run(s1, after);
            && s2.flag
            && (s2.calls[t].TriggerDone? ==> forall i :: 0 <= i < |s2.calls| ==> !s2.calls[i].WaitParked?)
            && (forall i :: 0 <= i < |s2.calls| && AnsweredNo(s2.calls[i]) ==> AnsweredNo(s1.calls[i]))
  {
    RunKeepsInv(s0, before);
    RunKeepsTriggered(Run(s0, before), t, after);
  }

  // ----- and every waiter gets out -----

  /** Own steps a waiter still needs once the token has fired. */
  function Remaining(pc: Pc): (n: nat)
  {
    match pc
    case WaitStart => 5
    case WaitWoken => 5
    case WaitParked => 6
    case WaitTest => 4
    case WaitClock => 7
    case WaitRead => 2
    case WaitUnlock(_) => 1
    case _ => 0
  }

  predicate IsWaiting(pc: Pc)
  {
    pc.WaitStart? || pc.WaitTest? || pc.WaitClock? || pc.WaitParked? || pc.WaitWoken? || pc.WaitRead? || pc.WaitUnlock?
  }

  /** After the trigger, every step of a waiter that has or can get the mutex brings
      it strictly closer to answering, nobody else's step sets it back, and its
      answer is "cancelled". */
  lemma {:induction false} WaiterGetsOut(s: Token, t: nat, w: nat, u: nat, now: bool)
    requires Triggered(s, t) && s.calls[t].TriggerDone?
    requires w < |s.calls| && u < |s.calls| && IsWaiting(s.calls[w]) && !s.calls[u].ResetLocked?
    ensures var s' := Step(s, u, now);
            && Remaining(s'.calls[w]) <= Remaining(s.calls[w])
            && (u == w && (s.owner == None || s.owner == Some(w)) ==> Remaining(s'.calls[w]) < Remaining(s.calls[w]))
            && (s'.calls[w].WaitDone? ==> s'.calls[w].r)
  {
    StepKeepsTriggered(s, t, u, now);
  }

  /** How often a schedule lets call w move: it is w's turn and the mutex is free or
      w's own. */
  ghost function Chances(s: Token, turns: seq<Turn>, w: nat): (n: nat)
    requires forall i :: 0 <= i < |turns| ==> turns[i].t < |s.calls|
    decreases |turns|
  {
    if turns == [] then 0
    else
      (if turns[0].t == w && (s.owner == None || s.owner == Some(w)) then 1 else 0)
      + Chances(Step(s, turns[0].t, turns[0].now), turns[1..], w)
  }

  /** Over every schedule after a trigger has returned, without a reset: a waiter
      that is given seven chances to move has answered, and answered "cancelled". */
  lemma {:induction false} WaiterAnswers(s: Token, t: nat, w: nat, turns: seq<Turn>)
    requires Triggered(s, t) && s.calls[t].TriggerDone? && w < |s.calls|
    requires IsWaiting(s.calls[w]) || s.calls[w] == WaitDone(true)
    requires forall i :: 0 <= i < |turns| ==> turns[i].t < |s.calls|
    requires NoReset(s, turns)
    ensures var pc := Run(s, turns).calls[w];
            && (|| pc == WaitDone(true)
                || (IsWaiting(pc) && Remaining(pc) + Chances(s, turns, w) <= Remaining(s.calls[w])))
            && (Chances(s, turns, w) >= 7 ==> pc == WaitDone(true))
    decreases |turns|
  {
    if turns != [] {
      var u, now := turns[0].t, turns[0].now;
      StepKeepsTriggered(s, t, u, now);
      WaiterMoves(s, t, w, u, now);
      if IsWaiting(s.calls[w]) {
        WaiterGetsOut(s, t, w, u, now);
      }
      WaiterAnswers(Step(s, u, now), t, w, turns[1..]);
    }
  }

  lemma {:induction false} WaiterMoves(s: Token, t: nat, w: nat, u: nat, now: bool)
    requires Triggered(s, t) && s.calls[t].TriggerDone? && w < |s.calls| && u < |s.calls|
    requires (IsWaiting(s.calls[w]) || s.calls[w] == WaitDone(true)) && !s.calls[u].ResetLocked?
    ensures var s' := Step(s, u, now);
            && s'.calls[t].TriggerDone?
            && (IsWaiting(s'.calls[w]) || s'.calls[w] == WaitDone(true))
            && (s.calls[w] == WaitDone(true) ==> s'.calls[w] == WaitDone(true))
  {
    if IsWaiting(s.calls[w]) {
      WaiterGetsOut(s, t, w, u, now);
    }
  }

  /** Own steps a mutex holder needs at most to release it. */
  function HoldTime(pc: Pc): (n: nat)
  {
    match pc
    case TriggerLocked => 3
    case TriggerStored => 2
    case TriggerBroadcast => 1
    case ResetLocked => 2
    case ResetStored => 1
    case WaitTest => 4
    case WaitClock => 3
    case WaitRead => 2
    case WaitUnlock(_) => 1
    case _ => 0
  }

  /** The mutex is never kept: whoever holds it can always step, and releases it
      within its hold time, so no waiter is blocked for good. */
  lemma {:induction false} MutexIsReleased(s: Token, u: nat, now: bool)
    requires Inv(s) && s.owner == Some(u)
    ensures var s' := Step(s, u, now);
            && s' != s
            && (s'.owner == None || (s'.owner == Some(u) && HoldTime(s'.calls[u]) < HoldTime(s.calls[u])))
  {
  }
}
