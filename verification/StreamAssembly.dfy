/** Assembly of a streamed completion out of event payloads (src/response.c):
    what reaches the callbacks and what accumulates on the result. */
module StreamAssembly {
  import opened Bytes
  import opened Buf
  import Sse

  const EXCERPT_MAX: nat := 2048
  const STREAM_STOP: int := 1
  const STREAM_CANCEL: int := 2
  const DONE: seq<Byte> := [0x5B, 0x44, 0x4F, 0x4E, 0x45, 0x5D]

  const STOP: seq<Byte> := [0x73, 0x74, 0x6F, 0x70]
  const LENGTH: seq<Byte> := [0x6C, 0x65, 0x6E, 0x67, 0x74, 0x68]
  const TOOL_CALLS: seq<Byte> := [0x74, 0x6F, 0x6F, 0x6C, 0x5F, 0x63, 0x61, 0x6C, 0x6C, 0x73]
  const CONTENT_FILTER: seq<Byte> :=
    [0x63, 0x6F, 0x6E, 0x74, 0x65, 0x6E, 0x74, 0x5F, 0x66, 0x69, 0x6C, 0x74, 0x65, 0x72]

  datatype Finish = FinishUnknown | FinishStop | FinishLength | FinishToolCalls | FinishContentFilter

  /** map_finish. */
  function MapFinish(raw: seq<Byte>): (f: Finish)
  {
    if raw == STOP then FinishStop
    else if raw == LENGTH then FinishLength
    else if raw == TOOL_CALLS then FinishToolCalls
    else if raw == CONTENT_FILTER then FinishContentFilter
    else FinishUnknown
  }

  /** Token counts, -1 when unknown. */
  datatype Usage = Usage(prompt: int, completion: int, total: int)

  datatype Delta = Delta(content: Option<seq<Byte>>, reasoning: Option<seq<Byte>>, toolCalls: bool)

  /** choices[0] of a chunk: absent, not an object, or the members used. */
  datatype Choice = NoChoice | BadChoice | Choice(delta: Option<Delta>, finish: Option<seq<Byte>>)

  /** What JSON parsing makes of one payload. */
  datatype Payload =
    | Unparseable
    | Unmodeled
    | Chunk(choice: Choice, usage: Option<Usage>, model: Option<seq<Byte>>)

  /** What JSON parsing makes of a whole response body. */
  datatype Reply =
    | BadReply
    | Reply(content: Option<seq<Byte>>, toolCalls: bool, reasoning: Option<seq<Byte>>,
            finish: Option<seq<Byte>>, usage: Option<Usage>, model: Option<seq<Byte>>)

  datatype Kind = OnDelta | OnReasoning | OnRawChunk

  /** One user callback: during which round trip, which one, with which bytes. */
  datatype Call = Call(trip: nat, kind: Kind, bytes: seq<Byte>)

  /** The caller's side: which callbacks are set, which of them answer nonzero
      (a function of everything they were told so far), how payloads and bodies
      parse, and the allocator (the parser's appends by round trip). */
  datatype Hooks = Hooks(
    onDelta: bool,
    onReasoning: bool,
    onRawChunk: bool,
    stops: seq<Call> -> bool,
    parse: seq<Byte> -> Payload,
    parseBody: seq<Byte> -> Reply,
    accumulate: bool,
    alloc: nat -> bool,
    parserAlloc: (nat, nat) -> bool)

  /** The per-attempt content of sicha_result. */
  datatype Content = Content(
    text: BufV,
    reasoning: BufV,
    finishRaw: Option<seq<Byte>>,
    finish: Finish,
    usage: Usage,
    model: Option<seq<Byte>>,
    rawBody: Option<seq<Byte>>)

  function FreshContent(max: nat): (r: Content)
  {
    Content(Empty(max), Empty(max), None, FinishUnknown, Usage(-1, -1, -1), None, None)
  }

  /** sicha_result_reset_content: everything but the buffers' sticky errors. */
  function ResetContent(r: Content): (r': Content)
    ensures r'.text.bytes == [] && r'.reasoning.bytes == []
  {
    Content(r.text.Reset(), r.reasoning.Reset(), None, FinishUnknown, Usage(-1, -1, -1), None, None)
  }

  /** A later attempt starts from fresh content exactly if neither buffer failed. */
  lemma {:induction false} ResetIsFresh(r: Content)
    requires r.reasoning.max == r.text.max
    ensures ResetContent(r) == FreshContent(r.text.max) <==> r.text.err == Ok && r.reasoning.err == Ok
  {
    assert ResetContent(r).text.err == r.text.err && ResetContent(r).reasoning.err == r.reasoning.err;
  }

  /** sicha_stream_ctx, with the round trip it serves, the log of user callbacks
      and the number of allocations. */
  datatype Ctx = Ctx(
    trip: nat,
    r: Content,
    done: bool,
    delivered: bool,
    sawEvent: bool,
    err: Status,
    lastRaw: BufV,
    log: seq<Call>,
    allocs: nat)

  function NewCtx(trip: nat, r: Content, log: seq<Call>, allocs: nat): (x: Ctx)
  {
    Ctx(trip, r, false, false, false, Ok, Empty(EXCERPT_MAX), log, allocs)
  }

  function Told(x: Ctx, kind: Kind, bytes: seq<Byte>): (x': Ctx)
  {
    x.(log := x.log + [Call(x.trip, kind, bytes)])
  }

  /** raw_chunk. */
  function RawChunk(h: Hooks, x: Ctx, data: seq<Byte>): (r: (Ctx, int))
  {
    var kept := if |data| > EXCERPT_MAX then data[..EXCERPT_MAX] else data;
    var x1 := x.(lastRaw := x.lastRaw.Reset().Append(kept, h.alloc(x.allocs)), allocs := x.allocs + 1);
    if x1.lastRaw.err == NoMem then (x1.(err := NoMem), -1)
    else if !h.onRawChunk then (x1, 0)
    else
      var x2 := Told(x1, OnRawChunk, data);
      (x2, if h.stops(x2.log) then STREAM_CANCEL else 0)
  }

  datatype Target = Text | Reasoning

  function Buffer(x: Ctx, target: Target): (b: BufV)
  {
    match target
    case Text => x.r.text
    case Reasoning => x.r.reasoning
  }

  function WithBuffer(x: Ctx, target: Target, b: BufV): (x': Ctx)
  {
    match target
    case Text => x.(r := x.r.(text := b))
    case Reasoning => x.(r := x.r.(reasoning := b))
  }

  /** deliver: accumulate, then hand the bytes to the callback. */
  function Deliver(h: Hooks, x: Ctx, target: Target, bytes: seq<Byte>): (r: (Ctx, int))
  {
    if bytes == [] then (x, 0)
    else
      var x1 := if h.accumulate
                then WithBuffer(x, target, Buffer(x, target).Append(bytes, h.alloc(x.allocs))).(allocs := x.allocs + 1)
                else x;
      if h.accumulate && Buffer(x1, target).err != Ok then
        (x1.(err := Buffer(x1, target).err), -1)
      else if (target == Text && !h.onDelta) || (target == Reasoning && !h.onReasoning) then (x1, 0)
      else
        var x2 := Told(x1.(delivered := true), if target == Text then OnDelta else OnReasoning, bytes);
        (x2, if h.stops(x2.log) then STREAM_CANCEL else 0)
  }

  function DeliverSome(h: Hooks, x: Ctx, target: Target, bytes: Option<seq<Byte>>): (r: (Ctx, int))
  {
    if bytes.Some? then Deliver(h, x, target, bytes.value) else (x, 0)
  }

  /** The delta object of a chunk: content, then reasoning, then tool calls. */
  function OnDeltaObject(h: Hooks, x: Ctx, d: Delta, data: seq<Byte>): (r: (Ctx, int))
  {
    var (x1, rc1) := DeliverSome(h, x, Text, d.content);
    if rc1 != 0 then (x1, rc1)
    else
      var (x2, rc2) := DeliverSome(h, x1, Reasoning, d.reasoning);
      if rc2 != 0 then (x2, rc2)
      else if d.toolCalls then RawChunk(h, x2, data)
      else (x2, 0)
  }

  /** sicha_result_set_finish. */
  function SetFinish(h: Hooks, x: Ctx, raw: Option<seq<Byte>>): (r: (Ctx, int))
  {
    if raw == None then (x, 0)
    else if !h.alloc(x.allocs) then (x.(err := NoMem, allocs := x.allocs + 1), -1)
    else (x.(r := x.r.(finishRaw := raw, finish := MapFinish(raw.value)), allocs := x.allocs + 1), 0)
  }

  function LiftCount(known: int, seen: int): (n: int)
  {
    if seen >= 0 then seen else known
  }

  /** lift_usage, then lift_model (the first model name wins). */
  function LiftTail(h: Hooks, x: Ctx, usage: Option<Usage>, model: Option<seq<Byte>>): (r: (Ctx, int))
  {
    var u := x.r.usage;
    var x1 := if usage == None then x
              else x.(r := x.r.(usage := Usage(LiftCount(u.prompt, usage.value.prompt),
                                               LiftCount(u.completion, usage.value.completion),
                                               LiftCount(u.total, usage.value.total))));
    if x1.r.model.Some? || model == None then (x1, 0)
    else if !h.alloc(x1.allocs) then (x1.(err := NoMem, allocs := x1.allocs + 1), -1)
    else (x1.(r := x1.r.(model := model), allocs := x1.allocs + 1), 0)
  }

  function OnChoice(h: Hooks, x: Ctx, delta: Option<Delta>, finish: Option<seq<Byte>>, data: seq<Byte>): (r: (Ctx, int))
  {
    var (x1, rc) := if delta.Some? then OnDeltaObject(h, x, delta.value, data) else (x, 0);
    if rc != 0 then (x1, rc) else SetFinish(h, x1, finish)
  }

  /** sicha_stream_on_event. */
  function OnEvent(h: Hooks, x: Ctx, data: seq<Byte>): (r: (Ctx, int))
  {
    if data == DONE then (x.(done := true), STREAM_STOP)
    else match h.parse(data)
      case Unparseable => RawChunk(h, x, data)
      case Unmodeled => RawChunk(h, x, data)
      case Chunk(choice, usage, model) =>
        var x1 := x.(sawEvent := true);
        match choice
        case BadChoice => RawChunk(h, x1, data)
        case NoChoice => LiftTail(h, x1, usage, model)
        case Choice(delta, finish) =>
          var (x2, rc) := OnChoice(h, x1, delta, finish, data);
          if rc != 0 then (x2, rc) else LiftTail(h, x2, usage, model)
  }

  /** The event callback the client hands to the parser. */
  function ParserEnv(h: Hooks, trip: nat): (e: Sse.Env<Ctx>)
  {
    Sse.Env((x: Ctx, data: seq<Byte>) => OnEvent(h, x, data), (n: nat) => h.parserAlloc(trip, n))
  }

  /** Everything the log says callback `kind` received. */
  function Heard(log: seq<Call>, kind: Kind): (r: seq<Byte>)
  {
    if log == [] then []
    else
      var last := log[|log| - 1];
      Heard(log[..|log| - 1], kind) + if last.kind == kind then last.bytes else []
  }

  /** Since log0 was current, the callbacks received what `r` holds. */
  ghost predicate Echoed(h: Hooks, log0: seq<Call>, log: seq<Call>, r: Content)
  {
    h.accumulate ==>
      && (h.onDelta ==> Heard(log, OnDelta) == Heard(log0, OnDelta) + r.text.bytes)
      && (h.onReasoning ==> Heard(log, OnReasoning) == Heard(log0, OnReasoning) + r.reasoning.bytes)
  }

  /** A call that commits the stream. */
  predicate Commits(c: Call)
  {
    c.kind == OnDelta || c.kind == OnReasoning
  }

  /** Does some call from position `from` on commit the stream? */
  predicate AnyCommit(log: seq<Call>, from: nat)
  {
    exists i :: from <= i < |log| && Commits(log[i])
  }

  /** What holds of the context at every moment of a round trip that began with
      log `log0`: the log only grows, by calls of this trip; `delivered` says
      whether one of them commits; and with accumulation on and the callback set, the
      text is exactly what `on_delta` received, the reasoning what `on_reasoning`
      did. */
  ghost predicate Faithful(h: Hooks, log0: seq<Call>, trip: nat, x: Ctx)
  {
    && x.trip == trip
    && log0 <= x.log
    && (forall i :: |log0| <= i < |x.log| ==> x.log[i].trip == trip)
    && (x.delivered <==> AnyCommit(x.log, |log0|))
    && Echoed(h, log0, x.log, x.r)
  }

  /** What a call of `kind` adds to what `of` heard. */
  function Share(kind: Kind, of: Kind, bytes: seq<Byte>): (r: seq<Byte>)
  {
    if kind == of then bytes else []
  }

  lemma {:induction false} QuietStep(h: Hooks, log0: seq<Call>, trip: nat, x: Ctx, x': Ctx)
    requires Faithful(h, log0, trip, x)
    requires x'.trip == x.trip && x'.log == x.log && x'.delivered == x.delivered
    requires h.accumulate && h.onDelta ==> x'.r.text.bytes == x.r.text.bytes
    requires h.accumulate && h.onReasoning ==> x'.r.reasoning.bytes == x.r.reasoning.bytes
    ensures Faithful(h, log0, trip, x')
  {
  }

  lemma {:induction false} ToldStep(h: Hooks, log0: seq<Call>, trip: nat, x: Ctx, x': Ctx, kind: Kind, bytes: seq<Byte>)
    requires Faithful(h, log0, trip, x)
    requires x'.trip == x.trip && x'.log == x.log + [Call(x.trip, kind, bytes)]
    requires x'.delivered == (x.delivered || kind != OnRawChunk)
    requires h.accumulate ==>
               && x'.r.text.bytes == x.r.text.bytes + Share(kind, OnDelta, bytes)
               && x'.r.reasoning.bytes == x.r.reasoning.bytes + Share(kind, OnReasoning, bytes)
    ensures Faithful(h, log0, trip, x')
  {
    assert x'.log[..|x'.log| - 1] == x.log;
    assert x'.log[|x.log|] == Call(x.trip, kind, bytes);
    assert forall i :: 0 <= i < |x.log| ==> x'.log[i] == x.log[i];
    var base, text, more := Heard(log0, OnDelta), x.r.text.bytes, Share(kind, OnDelta, bytes);
    assert base + text + more == base + (text + more);
    var base', text', more' := Heard(log0, OnReasoning), x.r.reasoning.bytes, Share(kind, OnReasoning, bytes);
    assert base' + text' + more' == base' + (text' + more');
  }

  lemma {:induction false} RawChunkFaithful(h: Hooks, log0: seq<Call>, trip: nat, x: Ctx, data: seq<Byte>)
    requires Faithful(h, log0, trip, x)
    ensures Faithful(h, log0, trip, RawChunk(h, x, data).0)
  {
    var x' := RawChunk(h, x, data).0;
    if x'.log == x.log {
      QuietStep(h, log0, trip, x, x');
    } else {
      assert x.r.text.bytes + [] == x.r.text.bytes && x.r.reasoning.bytes + [] == x.r.reasoning.bytes;
      ToldStep(h, log0, trip, x, x', OnRawChunk, data);
    }
  }

  lemma {:induction false} DeliverFaithful(h: Hooks, log0: seq<Call>, trip: nat, x: Ctx, target: Target,
                                           bytes: Option<seq<Byte>>)
    requires Faithful(h, log0, trip, x)
    ensures Faithful(h, log0, trip, DeliverSome(h, x, target, bytes).0)
  {
    if bytes.Some? && bytes.value != [] {
      var x' := Deliver(h, x, target, bytes.value).0;
      var silent := if target == Text then !h.onDelta else !h.onReasoning;
      if silent || (h.accumulate && Buffer(x', target).err != Ok) {
        QuietStep(h, log0, trip, x, x');
      } else {
        assert x.r.text.bytes + [] == x.r.text.bytes && x.r.reasoning.bytes + [] == x.r.reasoning.bytes;
        ToldStep(h, log0, trip, x, x', if target == Text then OnDelta else OnReasoning, bytes.value);
      }
    }
  }

  lemma {:induction false} OnDeltaObjectFaithful(h: Hooks, log0: seq<Call>, trip: nat, x: Ctx, d: Delta,
                                                 data: seq<Byte>)
    requires Faithful(h, log0, trip, x)
    ensures Faithful(h, log0, trip, OnDeltaObject(h, x, d, data).0)
  {
    DeliverFaithful(h, log0, trip, x, Text, d.content);
    var (x1, rc1) := DeliverSome(h, x, Text, d.content);
    DeliverFaithful(h, log0, trip, x1, Reasoning, d.reasoning);
    var (x2, rc2) := DeliverSome(h, x1, Reasoning, d.reasoning);
    RawChunkFaithful(h, log0, trip, x2, data);
  }

  lemma {:induction false} OnChoiceFaithful(h: Hooks, log0: seq<Call>, trip: nat, x: Ctx, delta: Option<Delta>,
                                            finish: Option<seq<Byte>>, data: seq<Byte>)
    requires Faithful(h, log0, trip, x)
    ensures Faithful(h, log0, trip, OnChoice(h, x, delta, finish, data).0)
  {
    if delta.Some? {
      OnDeltaObjectFaithful(h, log0, trip, x, delta.value, data);
    }
    var (x1, rc) := if delta.Some? then OnDeltaObject(h, x, delta.value, data) else (x, 0);
    QuietStep(h, log0, trip, x1, SetFinish(h, x1, finish).0);
  }

  lemma {:induction false} LiftTailFaithful(h: Hooks, log0: seq<Call>, trip: nat, x: Ctx, usage: Option<Usage>,
                                            model: Option<seq<Byte>>)
    requires Faithful(h, log0, trip, x)
    ensures Faithful(h, log0, trip, LiftTail(h, x, usage, model).0)
  {
    QuietStep(h, log0, trip, x, LiftTail(h, x, usage, model).0);
  }

  /** One event keeps the context faithful, whatever it carries and whatever the
      callbacks and the allocator answer. */
  lemma {:induction false} OnEventFaithful(h: Hooks, log0: seq<Call>, trip: nat, x: Ctx, data: seq<Byte>)
    requires Faithful(h, log0, trip, x)
    ensures Faithful(h, log0, trip, OnEvent(h, x, data).0)
  {
    if data == DONE {
      QuietStep(h, log0, trip, x, x.(done := true));
    } else {
      var x1 := x.(sawEvent := true);
      QuietStep(h, log0, trip, x, x1);
      match h.parse(data)
      case Unparseable => RawChunkFaithful(h, log0, trip, x, data);
      case Unmodeled => RawChunkFaithful(h, log0, trip, x, data);
      case Chunk(choice, usage, model) =>
        match choice
        case BadChoice => RawChunkFaithful(h, log0, trip, x1, data);
        case NoChoice => LiftTailFaithful(h, log0, trip, x1, usage, model);
        case Choice(delta, finish) =>
          OnChoiceFaithful(h, log0, trip, x1, delta, finish, data);
          LiftTailFaithful(h, log0, trip, OnChoice(h, x1, delta, finish, data).0, usage, model);
    }
  }
}
