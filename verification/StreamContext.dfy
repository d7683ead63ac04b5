/** The in-place stream context and result content of src/response.c: every method
    makes the step that `StreamAssembly` specifies. */
module StreamContext {
  import opened Bytes
  import opened Buf
  import opened StreamAssembly
  import SseReference

  /** sicha_stream_ctx together with the sicha_result it fills. */
  class StreamCtx {
    const trip: nat
    const hooks: Hooks
    var text: BufV
    var reasoning: BufV
    var finishRaw: Option<seq<Byte>>
    var finish: Finish
    var usage: Usage
    var model: Option<seq<Byte>>
    var rawBody: Option<seq<Byte>>
    var done: bool
    var delivered: bool
    var sawEvent: bool
    var err: Status
    var lastRaw: BufV
    var log: seq<Call>
    var allocs: nat

    ghost function View(): Ctx
      reads this
    {
      Ctx(trip, Content(text, reasoning, finishRaw, finish, usage, model, rawBody),
          done, delivered, sawEvent, err, lastRaw, log, allocs)
    }

    /** sicha_stream_ctx_init on a result with content `r`. */
    constructor (h: Hooks, trip: nat, r: Content, log: seq<Call>, allocs: nat)
      ensures hooks == h && View() == NewCtx(trip, r, log, allocs)
    {
      hooks, this.trip, this.log, this.allocs := h, trip, log, allocs;
      text, reasoning, finishRaw, finish := r.text, r.reasoning, r.finishRaw, r.finish;
      usage, model, rawBody := r.usage, r.model, r.rawBody;
      done, delivered, sawEvent, err, lastRaw := false, false, false, Ok, Empty(EXCERPT_MAX);
    }

    /** The allocator's next answer. */
    method Allocate() returns (room: bool)
      modifies this`allocs
      ensures room == hooks.alloc(old(allocs)) && allocs == old(allocs) + 1
    {
      room := hooks.alloc(allocs);
      allocs := allocs + 1;
    }

    /** A user callback and its answer. */
    method Tell(kind: Kind, bytes: seq<Byte>) returns (rc: int)
      modifies this`log
      ensures View() == Told(old(View()), kind, bytes)
      ensures rc == if hooks.stops(log) then STREAM_CANCEL else 0
    {
      log := log + [Call(trip, kind, bytes)];
      rc := if hooks.stops(log) then STREAM_CANCEL else 0;
    }

    /** sicha_result_reset_content: src/response.c:120-135. */
    method ResetResult()
      modifies this`text, this`reasoning, this`finishRaw, this`finish, this`usage, this`model, this`rawBody
      ensures View() == old(View()).(r := ResetContent(old(View()).r))
    {
      text, reasoning := text.Reset(), reasoning.Reset();
      ForgetReply();
    }

    /** What is not in a buffer. */
    method ForgetReply()
      modifies this`finishRaw, this`finish, this`usage, this`model, this`rawBody
      ensures finishRaw == model == rawBody == None && finish == FinishUnknown && usage == Usage(-1, -1, -1)
    {
      finishRaw, finish, model, rawBody := None, FinishUnknown, None, None;
      usage := Usage(-1, -1, -1);
    }

    /** raw_chunk: src/response.c:475-490. */
    method RawChunk(data: seq<Byte>) returns (rc: int)
      modifies this
      ensures (View(), rc) == StreamAssembly.RawChunk(hooks, old(View()), data)
    {
      lastRaw := lastRaw.Reset();
      var room := Allocate();
      lastRaw := lastRaw.Append(if |data| > EXCERPT_MAX then data[..EXCERPT_MAX] else data, room);
      if lastRaw.err == NoMem {
        err := NoMem;
        return -1;
      }
      rc := 0;
      if hooks.onRawChunk {
        rc := Tell(OnRawChunk, data);
      }
    }

    method Accumulate(target: Target, bytes: seq<Byte>) returns (status: Status)
      modifies this`text, this`reasoning, this`allocs
      ensures var was, b := old(View()), Buffer(old(View()), target).Append(bytes, hooks.alloc(old(allocs)));
        View() == WithBuffer(was, target, b).(allocs := was.allocs + 1) && status == b.err
    {
      var room := Allocate();
      match target
      case Text =>
        text := text.Append(bytes, room);
        status := text.err;
      case Reasoning =>
        reasoning := reasoning.Append(bytes, room);
        status := reasoning.err;
    }

    /** deliver: src/response.c:492-517. */
    method Deliver(target: Target, bytes: seq<Byte>) returns (rc: int)
      modifies this
      ensures (View(), rc) == StreamAssembly.Deliver(hooks, old(View()), target, bytes)
    {
      rc := 0;
      if |bytes| == 0 {
        return;
      }
      if hooks.accumulate {
        var status := Accumulate(target, bytes);
        if status != Ok {
          err := status;
          return -1;
        }
      }
      if (target == Text && hooks.onDelta) || (target == Reasoning && hooks.onReasoning) {
        delivered := true;
        rc := Tell(if target == Text then OnDelta else OnReasoning, bytes);
      }
    }

    /** The delta object of a chunk: src/response.c:551-600. */
    method OnDeltaObject(d: Delta, data: seq<Byte>) returns (rc: int)
      modifies this
      ensures (View(), rc) == StreamAssembly.OnDeltaObject(hooks, old(View()), d, data)
    {
      rc := 0;
      if d.content.Some? {
        rc := Deliver(Text, d.content.value);
        if rc != 0 {
          return;
        }
      }
      if d.reasoning.Some? {
        rc := Deliver(Reasoning, d.reasoning.value);
        if rc != 0 {
          return;
        }
      }
      if d.toolCalls {
        rc := RawChunk(data);
      }
    }

    method SetFinish(raw: Option<seq<Byte>>) returns (rc: int)
      modifies this
      ensures (View(), rc) == StreamAssembly.SetFinish(hooks, old(View()), raw)
    {
      rc := 0;
      if raw.Some? {
        var room := Allocate();
        if !room {
          err := NoMem;
          return -1;
        }
        finishRaw, finish := raw, MapFinish(raw.value);
      }
    }

    method LiftTail(seen: Option<Usage>, name: Option<seq<Byte>>) returns (rc: int)
      modifies this
      ensures (View(), rc) == StreamAssembly.LiftTail(hooks, old(View()), seen, name)
    {
      rc := 0;
      if seen.Some? {
        usage := Usage(LiftCount(usage.prompt, seen.value.prompt),
                       LiftCount(usage.completion, seen.value.completion),
                       LiftCount(usage.total, seen.value.total));
      }
      if model.None? && name.Some? {
        var room := Allocate();
        if !room {
          err := NoMem;
          return -1;
        }
        model := name;
      }
    }

    /** sicha_stream_on_event: src/response.c:519-623. */
    method OnEvent(data: seq<Byte>) returns (rc: int)
      modifies this
      ensures (View(), rc) == StreamAssembly.OnEvent(hooks, old(View()), data)
    {
      if data == DONE {
        done := true;
        return STREAM_STOP;
      }
      var payload := hooks.parse(data);
      if !payload.Chunk? {
        rc := RawChunk(data);
        return;
      }
      sawEvent := true;
      if payload.choice.BadChoice? {
        rc := RawChunk(data);
        return;
      }
      if payload.choice.Choice? {
        if payload.choice.delta.Some? {
          rc := OnDeltaObject(payload.choice.delta.value, data);
          if rc != 0 {
            return;
          }
        }
        rc := SetFinish(payload.choice.finish);
        if rc != 0 {
          return;
        }
      }
      rc := LiftTail(payload.usage, payload.model);
    }

    /** The events of a stream, one by one until one stops it.  Over a clean wire this
        is all a streamed round trip does (AttemptBatch.StreamAttemptIsBatch). */
    method OnEvents(events: seq<seq<Byte>>) returns (rc: int)
      modifies this
      ensures (View(), rc) == SseReference.Deliver(ParserEnv(hooks, trip).onEvent, old(View()), events)
    {
      rc := 0;
      var i := 0;
      while i < |events|
        invariant 0 <= i <= |events| && rc == 0
        invariant SseReference.Deliver(ParserEnv(hooks, trip).onEvent, old(View()), events)
               == SseReference.Deliver(ParserEnv(hooks, trip).onEvent, View(), events[i..])
      {
        assert events[i..][1..] == events[i + 1..];
        rc := OnEvent(events[i]);
        if rc != 0 {
          return;
        }
        i := i + 1;
      }
    }
  }
}
