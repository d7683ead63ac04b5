/** `chat_common` as the loop nest it is: the engine's variables updated in place,
    each turn tied to the step of module Engine. */
module EngineCall {
  import opened Bytes
  import opened StreamAssembly
  import opened Classify
  import opened Attempt
  import opened Engine

  /** The world's round trips are those of a client over some wires. */
  ghost predicate Wired(w: World, lim: Limits, h: Hooks, stream: bool, wire: nat -> Wire)
  {
    forall k, r, log, a :: w.attempt(k, r, log, a) == RunSpec(lim, h, stream, wire(k), k, r, log, a)
  }

  class ChatCall {
    const w: World
    const lim: Limits
    const h: Hooks
    const stream: bool
    const wire: nat -> Wire

    var backend: nat
    var retrySame: nat
    var validations: nat
    var tryOf: nat
    var anyDelivered: bool
    var draws: nat
    var trips: nat
    var records: seq<Record>
    var r: Content
    var log: seq<Call>
    var allocs: nat
    var waits: seq<Wait>
    var final: Option<Status>

    ghost function View(): State
      reads this
    {
      State(backend, retrySame, validations, tryOf, anyDelivered, draws, trips, records, r, log, allocs, waits, final)
    }

    constructor (w: World, lim: Limits, h: Hooks, stream: bool, wire: nat -> Wire)
      ensures View() == Start(w)
      ensures this.w == w && this.lim == lim && this.h == h && this.stream == stream && this.wire == wire
    {
      this.w, this.lim, this.h, this.stream, this.wire := w, lim, h, stream, wire;
      backend, retrySame, validations, tryOf, anyDelivered := 0, 0, 0, 0, false;
      draws, trips, records, log, allocs, waits := 0, 0, [], [], 0, [];
      r := FreshContent(w.maxResponse);
      final := if w.n == 0 then Some(Exhausted) else None;
    }

    /** goto advance. */
    method Fallback()
      modifies this
      ensures View() == NextBackend(w, old(View()))
    {
      backend := backend + 1;
      retrySame, validations, tryOf := 0, 0, 0;
      final := if backend >= w.n then Some(Exhausted) else None;
    }

    /** The wait before another try on the same backend. */
    method BackOff(retryAfterMs: U64)
      modifies this
      ensures View() == Sleep(w, old(View()), retryAfterMs)
    {
      var p := w.policy;
      var ms: nat;
      if retryAfterMs != UINT64_MAX && p.retryAfterCapMs != NO_LIMIT {
        ms := retryAfterMs;
        if ms > p.retryAfterCapMs {
          ms := p.retryAfterCapMs;
        }
        waits := waits + [Wait(ms, false)];
      } else {
        ms := BackoffMs(p, retrySame, w.jitter(draws));
        draws := draws + 1;
        waits := waits + [Wait(ms, true)];
      }
      if w.waitCancelled(trips) {
        final := Some(Cancelled);
      }
    }

    /** The switch over the class. */
    method Route(cls: Class, retryAfterMs: U64)
      modifies this
      ensures View() == Decide(w, old(View()), cls, retryAfterMs)
    {
      match cls
      case Success => final := Some(Ok);
      case Abort => final := Some(Aborted);
      case Cancel => final := Some(Cancelled);
      case Validation =>
        if anyDelivered && !w.policy.retryAfterDeltas {
          final := Some(StreamLost);
        } else if validations < w.policy.validationRetries {
          validations := validations + 1;
        } else {
          Fallback();
        }
      case RetrySame =>
        if anyDelivered && !w.policy.retryAfterDeltas {
          final := Some(StreamLost);
        } else {
          retrySame := retrySame + 1;
          if retrySame >= w.policy.maxTries {
            Fallback();
          } else {
            BackOff(retryAfterMs);
          }
        }
      case Advance =>
        if anyDelivered && !w.policy.retryAfterDeltas {
          final := Some(StreamLost);
        } else {
          Fallback();
        }
    }

    /** Classification, then the validator on a classified success. */
    method Judge(o: Outcome) returns (cls: Class)
      ensures cls == ClassOf(w, trips, o)
    {
      if o.terminal != Ok {
        return Advance;
      }
      cls := ClassifyTrip(w.policy, o.ts, o.httpStatus, o.body, o.r.finish);
      if cls == Success && w.rejects(trips, o.r) {
        cls := Validation;
      }
    }

    /** The record and the flags of a round trip. */
    method Book(o: Outcome, cls: Class)
      modifies this`anyDelivered, this`r, this`log, this`allocs, this`records, this`trips, this`tryOf
      ensures View() == Note(w, old(View()), o, cls)
    {
      AddRecord(cls, o.httpStatus, o.ts);
      KeepContent(o);
      trips, tryOf := trips + 1, tryOf + 1;
    }

    method KeepContent(o: Outcome)
      modifies this`anyDelivered, this`r, this`log, this`allocs
      ensures anyDelivered == (old(anyDelivered) || o.delivered)
      ensures r == o.r && log == o.log && allocs == o.allocs
    {
      anyDelivered := anyDelivered || o.delivered;
      r, log, allocs := o.r, o.log, o.allocs;
    }

    /** sicha_result_add_attempt. */
    method AddRecord(cls: Class, httpStatus: int, ts: Transport)
      modifies this`records
      ensures records == if w.recordRoom(trips)
                         then old(records) + [Record(trips, backend, tryOf, cls, httpStatus, ts)]
                         else old(records)
    {
      if w.recordRoom(trips) {
        records := records + [Record(trips, backend, tryOf, cls, httpStatus, ts)];
      }
    }

    /** One turn of the inner loop. */
    method Turn()
      requires Wired(w, lim, h, stream, wire)
      modifies this
      ensures View() == Step(w, old(View()))
    {
      if w.cancelled(trips) {
        final := Some(Cancelled);
        return;
      }
      if tryOf == 0 && w.build(backend) != Ok {
        final := Some(w.build(backend));
        return;
      }
      var room := w.recordRoom(trips);
      var o := RunAttempt(lim, h, stream, wire(trips), trips, ResetContent(r), log, allocs);
      assert o == Trip(w, View());
      var cls := Judge(o);
      Book(o, cls);
      if !room || o.terminal != Ok {
        final := Some(NoMem);
        return;
      }
      Route(cls, o.retryAfterMs);
    }

    /** A turn, seen from the loops: whatever steps keep is kept, and the call moved
        to the next backend, spent budget on this one, or ended. */
    method Progress(ghost inv: State -> bool)
      requires Wired(w, lim, h, stream, wire) && Running(w, View()) && final == None
      requires KeptBySteps(w, inv) && inv(View())
      modifies this
      ensures Running(w, View()) && inv(View())
      ensures final == None ==>
                || backend == old(backend) + 1
                || (backend == old(backend) && retrySame + validations == old(retrySame + validations) + 1)
    {
      StepKeepsRunning(w, View());
      Turn();
    }

    /** The loop nest: for each backend, turns until it moves on or the call ends. */
    method Loop(ghost inv: State -> bool)
      requires Wired(w, lim, h, stream, wire) && Running(w, View())
      requires KeptBySteps(w, inv) && inv(View())
      modifies this
      ensures Running(w, View()) && inv(View()) && final.Some?
    {
      while final == None
        invariant Running(w, View()) && inv(View())
        decreases final == None, w.n - backend
      {
        var i := backend;
        while final == None && backend == i
          invariant Running(w, View()) && inv(View()) && (final == None ==> i <= backend)
          decreases final == None,
                    w.n - backend,
                    w.policy.maxTries + w.policy.validationRetries - retrySame - validations
        {
          Progress(inv);
        }
      }
    }

    /** chat_common. */
    method Chat() returns (status: Status)
      requires Wired(w, lim, h, stream, wire) && Resolved(w.policy) && View() == Start(w)
      modifies this
      ensures View() == Run(w, Start(w)) && final == Some(status)
    {
      ghost var inv := (s: State) => Running(w, s) && Run(w, s) == Run(w, Start(w));
      assert KeptBySteps(w, inv) by {
        forall t: State | inv(t) && Running(w, t) && t.final == None
          ensures inv(Step(w, t))
        {
          StepKeepsRunning(w, t);
        }
      }
      Loop(inv);
      status := final.value;
    }
  }
}
