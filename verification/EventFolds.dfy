/** What a list of events makes of the stream context, as folds over what the payloads
    say: nothing here names the event handler but the theorems that tie it to them. */
module EventFolds {
  import opened Bytes
  import opened Buf
  import opened StreamAssembly
  import SseReference

  // ----- what one payload says -----

  predicate IsChunk(h: Hooks, d: seq<Byte>)
  {
    h.parse(d).Chunk?
  }

  /** A chunk whose choice, if it has one, is an object. */
  predicate IsModelled(h: Hooks, d: seq<Byte>)
  {
    IsChunk(h, d) && !h.parse(d).choice.BadChoice?
  }

  function DeltaOf(h: Hooks, d: seq<Byte>): (r: Option<Delta>)
  {
    if IsChunk(h, d) && h.parse(d).choice.Choice? then h.parse(d).choice.delta else None
  }

  function ContentOf(h: Hooks, d: seq<Byte>): (r: seq<Byte>)
  {
    var delta := DeltaOf(h, d);
    if delta.Some? && delta.value.content.Some? then delta.value.content.value else []
  }

  function ReasoningOf(h: Hooks, d: seq<Byte>): (r: seq<Byte>)
  {
    var delta := DeltaOf(h, d);
    if delta.Some? && delta.value.reasoning.Some? then delta.value.reasoning.value else []
  }

  function FinishOf(h: Hooks, d: seq<Byte>): (r: Option<seq<Byte>>)
  {
    if IsChunk(h, d) && h.parse(d).choice.Choice? then h.parse(d).choice.finish else None
  }

  function UsageOf(h: Hooks, d: seq<Byte>): (r: Option<Usage>)
  {
    if IsModelled(h, d) then h.parse(d).usage else None
  }

  function ModelOf(h: Hooks, d: seq<Byte>): (r: Option<seq<Byte>>)
  {
    if IsModelled(h, d) then h.parse(d).model else None
  }

  /** Payloads that are forwarded as they are: no JSON object of a chunk, a choice that
      is no object, or tool calls. */
  predicate IsRaw(h: Hooks, d: seq<Byte>)
  {
    !IsModelled(h, d) || (DeltaOf(h, d).Some? && DeltaOf(h, d).value.toolCalls)
  }

  // ----- what a list of them says -----

  function Texts(h: Hooks, ds: seq<seq<Byte>>): (r: seq<Byte>)
  {
    if ds == [] then [] else Texts(h, ds[..|ds| - 1]) + ContentOf(h, ds[|ds| - 1])
  }

  function Reasonings(h: Hooks, ds: seq<seq<Byte>>): (r: seq<Byte>)
  {
    if ds == [] then [] else Reasonings(h, ds[..|ds| - 1]) + ReasoningOf(h, ds[|ds| - 1])
  }

  /** The last finish reason. */
  function LastFinish(h: Hooks, known: Option<seq<Byte>>, ds: seq<seq<Byte>>): (r: Option<seq<Byte>>)
  {
    if ds == [] then known
    else if FinishOf(h, ds[|ds| - 1]).Some? then FinishOf(h, ds[|ds| - 1])
    else LastFinish(h, known, ds[..|ds| - 1])
  }

  /** The first model name. */
  function FirstModel(h: Hooks, known: Option<seq<Byte>>, ds: seq<seq<Byte>>): (r: Option<seq<Byte>>)
  {
    if known.Some? || ds == [] then known
    else
      var earlier := FirstModel(h, known, ds[..|ds| - 1]);
      if earlier.Some? then earlier else ModelOf(h, ds[|ds| - 1])
  }

  /** The last nonnegative count. */
  function LastCount(h: Hooks, known: int, pick: Usage -> int, ds: seq<seq<Byte>>): (n: int)
  {
    if ds == [] then known
    else
      var u := UsageOf(h, ds[|ds| - 1]);
      if u.Some? && pick(u.value) >= 0 then pick(u.value) else LastCount(h, known, pick, ds[..|ds| - 1])
  }

  function LastUsage(h: Hooks, known: Usage, ds: seq<seq<Byte>>): (u: Usage)
  {
    Usage(LastCount(h, known.prompt, (u: Usage) => u.prompt, ds),
          LastCount(h, known.completion, (u: Usage) => u.completion, ds),
          LastCount(h, known.total, (u: Usage) => u.total, ds))
  }

  /** The last forwarded payload, cut to the excerpt's length. */
  function LastRaw(h: Hooks, known: seq<Byte>, ds: seq<seq<Byte>>): (r: seq<Byte>)
  {
    if ds == [] then known
    else
      var d := ds[|ds| - 1];
      if IsRaw(h, d) then d[..Min(|d|, 2048)] else LastRaw(h, known, ds[..|ds| - 1])
  }

  predicate SomeChunk(h: Hooks, ds: seq<seq<Byte>>)
  {
    exists i :: 0 <= i < |ds| && IsChunk(h, ds[i])
  }

  /** The callbacks one payload leads to, in order: its content, its reasoning, itself. */
  function CallsOf(h: Hooks, trip: nat, d: seq<Byte>): (r: seq<Call>)
  {
    (if h.onDelta && ContentOf(h, d) != [] then [Call(trip, OnDelta, ContentOf(h, d))] else [])
    + (if h.onReasoning && ReasoningOf(h, d) != [] then [Call(trip, OnReasoning, ReasoningOf(h, d))] else [])
    + (if h.onRawChunk && IsRaw(h, d) then [Call(trip, OnRawChunk, d)] else [])
  }

  function AllCalls(h: Hooks, trip: nat, ds: seq<seq<Byte>>): (r: seq<Call>)
  {
    if ds == [] then [] else AllCalls(h, trip, ds[..|ds| - 1]) + CallsOf(h, trip, ds[|ds| - 1])
  }

  /** The finish reason and its class belong together: "stop", "length", "tool_calls"
      and "content_filter" have one of their own, everything else is unknown. */
  predicate FinishFits(raw: Option<seq<Byte>>, f: Finish)
  {
    && (f == FinishStop <==> raw == Some([0x73, 0x74, 0x6F, 0x70]))
    && (f == FinishLength <==> raw == Some([0x6C, 0x65, 0x6E, 0x67, 0x74, 0x68]))
    && (f == FinishToolCalls <==> raw == Some([0x74, 0x6F, 0x6F, 0x6C, 0x5F, 0x63, 0x61, 0x6C, 0x6C, 0x73]))
    && (f == FinishContentFilter <==>
          raw == Some([0x63, 0x6F, 0x6E, 0x74, 0x65, 0x6E, 0x74, 0x5F, 0x66, 0x69, 0x6C, 0x74, 0x65, 0x72]))
  }

  // ----- one event -----

  function Shared(on: bool, bytes: seq<Byte>): (r: seq<Byte>)
  {
    if on then bytes else []
  }

  /** A buffer with more in it, its cap and error as they were. */
  function Longer(b: BufV, more: seq<Byte>): (r: BufV)
  {
    b.(bytes := b.bytes + more)
  }

  /** The parts of a context, one payload later: what the callbacks heard... */
  ghost predicate Hears(h: Hooks, x: Ctx, d: seq<Byte>, x': Ctx)
  {
    && x'.trip == x.trip && x'.done == x.done && x'.err == x.err
    && x'.sawEvent == (x.sawEvent || IsChunk(h, d))
    && x'.log == x.log + CallsOf(h, x.trip, d)
  }

  /** ... what accumulated... */
  ghost predicate Gathers(h: Hooks, x: Ctx, d: seq<Byte>, x': Ctx)
  {
    && x'.r.text == Longer(x.r.text, Shared(h.accumulate, ContentOf(h, d)))
    && x'.r.reasoning == Longer(x.r.reasoning, Shared(h.accumulate, ReasoningOf(h, d)))
  }

  /** ... and what was learnt. */
  ghost predicate Learns(h: Hooks, x: Ctx, d: seq<Byte>, x': Ctx)
  {
    && x'.r.finishRaw == (if FinishOf(h, d).Some? then FinishOf(h, d) else x.r.finishRaw)
    && (FinishFits(x.r.finishRaw, x.r.finish) ==> FinishFits(x'.r.finishRaw, x'.r.finish))
    && x'.r.usage == LastUsage(h, x.r.usage, [d])
    && x'.r.model == FirstModel(h, x.r.model, [d])
    && x'.r.rawBody == x.r.rawBody
    && (x.lastRaw.err == Ok && x.lastRaw.max == 2048 ==>
          x'.lastRaw == BufV(LastRaw(h, x.lastRaw.bytes, [d]), 2048, Ok))
  }

  ghost predicate Absorbs(h: Hooks, x: Ctx, d: seq<Byte>, x': Ctx)
  {
    Hears(h, x, d, x') && Gathers(h, x, d, x') && Learns(h, x, d, x')
  }

  /** What forwarding a payload, or a part of one, leaves alone. */
  predicate SameHeader(x: Ctx, x': Ctx)
  {
    && x'.trip == x.trip && x'.done == x.done && x'.err == x.err && x'.sawEvent == x.sawEvent
    && x'.r.finishRaw == x.r.finishRaw && x'.r.finish == x.r.finish && x'.r.usage == x.r.usage
    && x'.r.model == x.r.model && x'.r.rawBody == x.r.rawBody
  }

  function CallIf(on: bool, trip: nat, kind: Kind, bytes: seq<Byte>): (r: seq<Call>)
  {
    if on then [Call(trip, kind, bytes)] else []
  }

  function BytesOf(bytes: Option<seq<Byte>>): (r: seq<Byte>)
  {
    if bytes.Some? then bytes.value else []
  }

  lemma {:induction false} QuietContent(h: Hooks, x: Ctx, bytes: Option<seq<Byte>>)
    requires DeliverSome(h, x, Text, bytes).1 == 0
    ensures var x' := DeliverSome(h, x, Text, bytes).0;
            && SameHeader(x, x') && x'.lastRaw == x.lastRaw && x'.r.reasoning == x.r.reasoning
            && x'.r.text == Longer(x.r.text, Shared(h.accumulate, BytesOf(bytes)))
            && x'.log == x.log + CallIf(h.onDelta && BytesOf(bytes) != [], x.trip, OnDelta, BytesOf(bytes))
  {
    assert x.r.text.bytes + [] == x.r.text.bytes && x.log + [] == x.log;
  }

  lemma {:induction false} QuietReasoning(h: Hooks, x: Ctx, bytes: Option<seq<Byte>>)
    requires DeliverSome(h, x, Reasoning, bytes).1 == 0
    ensures var x' := DeliverSome(h, x, Reasoning, bytes).0;
            && SameHeader(x, x') && x'.lastRaw == x.lastRaw && x'.r.text == x.r.text
            && x'.r.reasoning == Longer(x.r.reasoning, Shared(h.accumulate, BytesOf(bytes)))
            && x'.log == x.log + CallIf(h.onReasoning && BytesOf(bytes) != [], x.trip, OnReasoning, BytesOf(bytes))
  {
    assert x.r.reasoning.bytes + [] == x.r.reasoning.bytes && x.log + [] == x.log;
  }

  lemma {:induction false} QuietRaw(h: Hooks, x: Ctx, d: seq<Byte>)
    requires RawChunk(h, x, d).1 == 0
    ensures var x' := RawChunk(h, x, d).0;
            && SameHeader(x, x') && x'.r.text == x.r.text && x'.r.reasoning == x.r.reasoning
            && x'.log == x.log + CallIf(h.onRawChunk, x.trip, OnRawChunk, d)
            && (x.lastRaw.err == Ok && x.lastRaw.max == 2048 ==> x'.lastRaw == BufV(d[..Min(|d|, 2048)], 2048, Ok))
  {
    assert x.log + [] == x.log;
    var kept := d[..Min(|d|, 2048)];
    assert kept == if |d| > EXCERPT_MAX then d[..EXCERPT_MAX] else d;
    assert [] + kept == kept;
  }

  /** The content and the reasoning of a delta object. */
  lemma {:induction false} QuietMembers(h: Hooks, x: Ctx, delta: Delta) returns (x1: Ctx, x2: Ctx)
    requires DeliverSome(h, x, Text, delta.content).1 == 0
    requires DeliverSome(h, DeliverSome(h, x, Text, delta.content).0, Reasoning, delta.reasoning).1 == 0
    ensures x1 == DeliverSome(h, x, Text, delta.content).0
    ensures x2 == DeliverSome(h, x1, Reasoning, delta.reasoning).0
    ensures var c, t := BytesOf(delta.content), BytesOf(delta.reasoning);
            && SameHeader(x, x2) && x2.lastRaw == x.lastRaw
            && x2.r.text == Longer(x.r.text, Shared(h.accumulate, c))
            && x2.r.reasoning == Longer(x.r.reasoning, Shared(h.accumulate, t))
            && x2.log == x.log + (CallIf(h.onDelta && c != [], x.trip, OnDelta, c)
                                  + CallIf(h.onReasoning && t != [], x.trip, OnReasoning, t))
  {
    QuietContent(h, x, delta.content);
    x1 := DeliverSome(h, x, Text, delta.content).0;
    QuietReasoning(h, x1, delta.reasoning);
    x2 := DeliverSome(h, x1, Reasoning, delta.reasoning).0;
  }

  /** A delta object: content, reasoning, then the payload itself for tool calls. */
  lemma {:induction false} QuietDelta(h: Hooks, x: Ctx, delta: Delta, d: seq<Byte>)
    requires OnDeltaObject(h, x, delta, d).1 == 0
    ensures var x' := OnDeltaObject(h, x, delta, d).0;
            var c, t := BytesOf(delta.content), BytesOf(delta.reasoning);
            && SameHeader(x, x')
            && x'.r.text == Longer(x.r.text, Shared(h.accumulate, c))
            && x'.r.reasoning == Longer(x.r.reasoning, Shared(h.accumulate, t))
            && x'.log == x.log + (CallIf(h.onDelta && c != [], x.trip, OnDelta, c)
                                  + CallIf(h.onReasoning && t != [], x.trip, OnReasoning, t)
                                  + CallIf(h.onRawChunk && delta.toolCalls, x.trip, OnRawChunk, d))
            && (x.lastRaw.err == Ok && x.lastRaw.max == 2048 ==>
                  x'.lastRaw == if delta.toolCalls then BufV(d[..Min(|d|, 2048)], 2048, Ok) else x.lastRaw)
  {
    var x1, x2 := QuietMembers(h, x, delta);
    assert OnDeltaObject(h, x, delta, d) == if delta.toolCalls then RawChunk(h, x2, d) else (x2, 0);
    if delta.toolCalls {
      QuietRaw(h, x2, d);
    }
  }

  lemma {:induction false} QuietFinish(h: Hooks, x: Ctx, raw: Option<seq<Byte>>)
    requires SetFinish(h, x, raw).1 == 0
    ensures var x' := SetFinish(h, x, raw).0;
            && x'.r.finishRaw == (if raw.Some? then raw else x.r.finishRaw)
            && (FinishFits(x.r.finishRaw, x.r.finish) ==> FinishFits(x'.r.finishRaw, x'.r.finish))
            && x' == x.(r := x.r.(finishRaw := x'.r.finishRaw, finish := x'.r.finish), allocs := x'.allocs)
  {
    if raw.Some? {
      FinishNames(raw.value);
    }
  }

  lemma {:induction false} FinishNames(raw: seq<Byte>)
    ensures FinishFits(Some(raw), MapFinish(raw))
  {
    assert |STOP| == 4 && |LENGTH| == 6 && |TOOL_CALLS| == 10 && |CONTENT_FILTER| == 14;
  }

  lemma {:induction false} OneUsage(h: Hooks, known: Usage, d: seq<Byte>)
    ensures LastUsage(h, known, [d]) ==
            if UsageOf(h, d) == None then known
            else Usage(LiftCount(known.prompt, UsageOf(h, d).value.prompt),
                       LiftCount(known.completion, UsageOf(h, d).value.completion),
                       LiftCount(known.total, UsageOf(h, d).value.total))
  {
    OneCount(h, known.prompt, (u: Usage) => u.prompt, d);
    OneCount(h, known.completion, (u: Usage) => u.completion, d);
    OneCount(h, known.total, (u: Usage) => u.total, d);
  }

  lemma {:induction false} OneCount(h: Hooks, known: int, pick: Usage -> int, d: seq<Byte>)
    ensures LastCount(h, known, pick, [d]) ==
            if UsageOf(h, d).Some? then LiftCount(known, pick(UsageOf(h, d).value)) else known
  {
    assert [d][..0] == [] && LastCount(h, known, pick, [d][..0]) == known;
  }

  lemma {:induction false} OneModel(h: Hooks, known: Option<seq<Byte>>, d: seq<Byte>)
    ensures FirstModel(h, known, [d]) == if known.Some? then known else ModelOf(h, d)
  {
    assert [d][..0] == [];
    assert FirstModel(h, known, [d][..0]) == known;
  }

  lemma {:induction false} OneRaw(h: Hooks, known: seq<Byte>, d: seq<Byte>)
    ensures LastRaw(h, known, [d]) == if IsRaw(h, d) then d[..Min(|d|, 2048)] else known
  {
    assert [d][..0] == [];
  }

  lemma {:induction false} QuietTail(h: Hooks, x: Ctx, d: seq<Byte>)
    requires IsModelled(h, d) && LiftTail(h, x, h.parse(d).usage, h.parse(d).model).1 == 0
    ensures var x' := LiftTail(h, x, h.parse(d).usage, h.parse(d).model).0;
            && x'.r.usage == LastUsage(h, x.r.usage, [d]) && x'.r.model == FirstModel(h, x.r.model, [d])
            && x' == x.(r := x.r.(usage := x'.r.usage, model := x'.r.model), allocs := x'.allocs)
  {
    OneUsage(h, x.r.usage, d);
    OneModel(h, x.r.model, d);
  }

  lemma {:induction false} RawAbsorbs(h: Hooks, x: Ctx, d: seq<Byte>)
    requires !IsModelled(h, d) && RawChunk(h, x, d).1 == 0
    ensures var x' := RawChunk(h, x, d).0; Absorbs(h, x, d, x'.(sawEvent := x.sawEvent || IsChunk(h, d)))
  {
    QuietRaw(h, x, d);
    OneRaw(h, x.lastRaw.bytes, d);
    OneUsage(h, x.r.usage, d);
    OneModel(h, x.r.model, d);
    assert x.r.text.bytes + [] == x.r.text.bytes && x.r.reasoning.bytes + [] == x.r.reasoning.bytes;
  }

  /** A modelled chunk with its parts named. */
  lemma {:induction false} ChunkAbsorbs(h: Hooks, x: Ctx, d: seq<Byte>, x1: Ctx, x2: Ctx, x3: Ctx)
    requires IsModelled(h, d) && d != DONE
    requires x1 == (if DeltaOf(h, d).Some? then OnDeltaObject(h, x, DeltaOf(h, d).value, d).0 else x)
    requires DeltaOf(h, d).Some? ==> OnDeltaObject(h, x, DeltaOf(h, d).value, d).1 == 0
    requires (x2, 0) == SetFinish(h, x1, FinishOf(h, d))
    requires (x3, 0) == LiftTail(h, x2, h.parse(d).usage, h.parse(d).model)
    ensures x3.sawEvent == x.sawEvent && Absorbs(h, x, d, x3.(sawEvent := true))
  {
    if DeltaOf(h, d).Some? {
      QuietDelta(h, x, DeltaOf(h, d).value, d);
    }
    assert x.r.text.bytes + [] == x.r.text.bytes && x.r.reasoning.bytes + [] == x.r.reasoning.bytes;
    assert x.log + [] == x.log;
    QuietFinish(h, x1, FinishOf(h, d));
    QuietTail(h, x2, d);
    OneRaw(h, x.lastRaw.bytes, d);
  }

  /** One event that the handler answers with 0 does what its payload says. */
  lemma {:induction false} OnEventAbsorbs(h: Hooks, x: Ctx, d: seq<Byte>)
    requires OnEvent(h, x, d).1 == 0
    ensures Absorbs(h, x, d, OnEvent(h, x, d).0)
  {
    var y, x' := x.(sawEvent := true), OnEvent(h, x, d).0;
    if !IsChunk(h, d) {
      RawAbsorbs(h, x, d);
    } else if !IsModelled(h, d) {
      RawAbsorbs(h, y, d);
    } else {
      var x1 := if DeltaOf(h, d).Some? then OnDeltaObject(h, y, DeltaOf(h, d).value, d).0 else y;
      ChunkAbsorbs(h, y, d, x1, SetFinish(h, x1, FinishOf(h, d)).0, x');
    }
  }

  // ----- all events -----

  /** The parts of a context, a list of payloads later. */
  ghost predicate HearsAll(h: Hooks, x: Ctx, ds: seq<seq<Byte>>, x': Ctx)
  {
    && x'.trip == x.trip && x'.done == x.done && x'.err == x.err
    && x'.sawEvent == (x.sawEvent || SomeChunk(h, ds))
    && x'.log == x.log + AllCalls(h, x.trip, ds)
  }

  ghost predicate GathersAll(h: Hooks, x: Ctx, ds: seq<seq<Byte>>, x': Ctx)
  {
    && x'.r.text == Longer(x.r.text, Shared(h.accumulate, Texts(h, ds)))
    && x'.r.reasoning == Longer(x.r.reasoning, Shared(h.accumulate, Reasonings(h, ds)))
  }

  ghost predicate LearnsAll(h: Hooks, x: Ctx, ds: seq<seq<Byte>>, x': Ctx)
  {
    && x'.r.finishRaw == LastFinish(h, x.r.finishRaw, ds)
    && (FinishFits(x.r.finishRaw, x.r.finish) ==> FinishFits(x'.r.finishRaw, x'.r.finish))
    && x'.r.usage == LastUsage(h, x.r.usage, ds)
    && x'.r.model == FirstModel(h, x.r.model, ds)
    && x'.r.rawBody == x.r.rawBody
    && (x.lastRaw.err == Ok && x.lastRaw.max == 2048 ==>
          x'.lastRaw == BufV(LastRaw(h, x.lastRaw.bytes, ds), 2048, Ok))
  }

  ghost predicate AbsorbsAll(h: Hooks, x: Ctx, ds: seq<seq<Byte>>, x': Ctx)
  {
    HearsAll(h, x, ds, x') && GathersAll(h, x, ds, x') && LearnsAll(h, x, ds, x')
  }

  lemma {:induction false} NoneAbsorbed(h: Hooks, x: Ctx)
    ensures AbsorbsAll(h, x, [], x)
  {
    assert x.r.text.bytes + [] == x.r.text.bytes && x.r.reasoning.bytes + [] == x.r.reasoning.bytes;
    assert x.log + [] == x.log;
  }

  lemma {:induction false} CountSnoc(h: Hooks, known: int, pick: Usage -> int, ds: seq<seq<Byte>>, d: seq<Byte>)
    ensures LastCount(h, LastCount(h, known, pick, ds), pick, [d]) == LastCount(h, known, pick, ds + [d])
  {
    OneCount(h, LastCount(h, known, pick, ds), pick, d);
    assert (ds + [d])[..|ds|] == ds && (ds + [d])[|ds|] == d;
  }

  lemma {:induction false} UsageSnoc(h: Hooks, known: Usage, ds: seq<seq<Byte>>, d: seq<Byte>)
    ensures LastUsage(h, LastUsage(h, known, ds), [d]) == LastUsage(h, known, ds + [d])
  {
    CountSnoc(h, known.prompt, (u: Usage) => u.prompt, ds, d);
    CountSnoc(h, known.completion, (u: Usage) => u.completion, ds, d);
    CountSnoc(h, known.total, (u: Usage) => u.total, ds, d);
  }

  lemma {:induction false} ChunkSnoc(h: Hooks, ds: seq<seq<Byte>>, d: seq<Byte>)
    ensures SomeChunk(h, ds + [d]) <==> SomeChunk(h, ds) || IsChunk(h, d)
  {
    var all := ds + [d];
    if SomeChunk(h, ds) {
      var i :| 0 <= i < |ds| && IsChunk(h, ds[i]);
      assert all[i] == ds[i];
    }
    assert all[|ds|] == d;
  }

  lemma {:induction false} HearsSnoc(h: Hooks, x: Ctx, ds: seq<seq<Byte>>, x1: Ctx, d: seq<Byte>, x2: Ctx)
    requires HearsAll(h, x, ds, x1) && Hears(h, x1, d, x2)
    ensures HearsAll(h, x, ds + [d], x2)
  {
    ChunkSnoc(h, ds, d);
    assert (ds + [d])[..|ds|] == ds && (ds + [d])[|ds|] == d;
    var log, a, b := x.log, AllCalls(h, x.trip, ds), CallsOf(h, x.trip, d);
    assert log + a + b == log + (a + b);
  }

  lemma {:induction false} GathersSnoc(h: Hooks, x: Ctx, ds: seq<seq<Byte>>, x1: Ctx, d: seq<Byte>, x2: Ctx)
    requires GathersAll(h, x, ds, x1) && Gathers(h, x1, d, x2)
    ensures GathersAll(h, x, ds + [d], x2)
  {
    assert (ds + [d])[..|ds|] == ds && (ds + [d])[|ds|] == d;
    var t, u, v := x.r.text.bytes, Texts(h, ds), ContentOf(h, d);
    assert t + u + v == t + (u + v) && t + [] == t;
    var t', u', v' := x.r.reasoning.bytes, Reasonings(h, ds), ReasoningOf(h, d);
    assert t' + u' + v' == t' + (u' + v') && t' + [] == t';
  }

  lemma {:induction false} LearnsSnoc(h: Hooks, x: Ctx, ds: seq<seq<Byte>>, x1: Ctx, d: seq<Byte>, x2: Ctx)
    requires LearnsAll(h, x, ds, x1) && Learns(h, x1, d, x2)
    ensures LearnsAll(h, x, ds + [d], x2)
  {
    UsageSnoc(h, x.r.usage, ds, d);
    OneModel(h, FirstModel(h, x.r.model, ds), d);
    OneRaw(h, LastRaw(h, x.lastRaw.bytes, ds), d);
    assert (ds + [d])[..|ds|] == ds && (ds + [d])[|ds|] == d;
  }

  lemma {:induction false} AbsorbsSnoc(h: Hooks, x: Ctx, ds: seq<seq<Byte>>, x1: Ctx, d: seq<Byte>, x2: Ctx)
    requires AbsorbsAll(h, x, ds, x1) && Absorbs(h, x1, d, x2)
    ensures AbsorbsAll(h, x, ds + [d], x2)
  {
    HearsSnoc(h, x, ds, x1, d, x2);
    GathersSnoc(h, x, ds, x1, d, x2);
    LearnsSnoc(h, x, ds, x1, d, x2);
  }

  lemma {:induction false} DeliverSnoc<S>(cb: (S, seq<Byte>) -> (S, int), c: S, ds: seq<seq<Byte>>, d: seq<Byte>)
    ensures SseReference.Deliver(cb, c, ds + [d]) ==
            var (c1, rc) := SseReference.Deliver(cb, c, ds);
            if rc != 0 then (c1, rc) else cb(c1, d)
    decreases |ds|
  {
    var all := ds + [d];
    if ds == [] {
      assert all[0] == d && all[1..] == [];
    } else {
      assert all[0] == ds[0] && all[1..] == ds[1..] + [d];
      var (c1, rc) := cb(c, ds[0]);
      if rc == 0 {
        DeliverSnoc(cb, c1, ds[1..], d);
      }
    }
  }

  /** Closed form: a list of events that the handler answers with 0 throughout makes of
      the context what the folds over its payloads say: text and reasoning, finish,
      usage and model, the callbacks in order, the excerpt. */
  lemma {:induction false} EventsFold(h: Hooks, trip: nat, x: Ctx, ds: seq<seq<Byte>>)
    requires SseReference.Deliver(ParserEnv(h, trip).onEvent, x, ds).1 == 0
    ensures AbsorbsAll(h, x, ds, SseReference.Deliver(ParserEnv(h, trip).onEvent, x, ds).0)
    decreases |ds|
  {
    var cb := ParserEnv(h, trip).onEvent;
    if ds == [] {
      NoneAbsorbed(h, x);
    } else {
      var front, d := ds[..|ds| - 1], ds[|ds| - 1];
      assert ds == front + [d];
      DeliverSnoc(cb, x, front, d);
      EventsFold(h, trip, x, front);
      var x1 := SseReference.Deliver(cb, x, front).0;
      OnEventAbsorbs(h, x1, d);
      AbsorbsSnoc(h, x, front, x1, d, OnEvent(h, x1, d).0);
    }
  }

  // ----- stopping -----

  /** A step over the callbacks it makes: it answers STREAM_CANCEL exactly if its last
      one stops, and none before does. */
  ghost predicate Heeds(h: Hooks, x: Ctx, r: (Ctx, int))
  {
    && x.log <= r.0.log
    && (r.1 == STREAM_CANCEL <==> |x.log| < |r.0.log| && h.stops(r.0.log))
    && (forall n :: |x.log| < n < |r.0.log| ==> !h.stops(r.0.log[..n]))
  }

  lemma {:induction false} HeedsTwice(h: Hooks, x: Ctx, x1: Ctx, r: (Ctx, int))
    requires Heeds(h, x, (x1, 0)) && Heeds(h, x1, r)
    ensures Heeds(h, x, r)
  {
    forall n | |x.log| < n < |r.0.log|
      ensures !h.stops(r.0.log[..n])
    {
      if n < |x1.log| {
        assert r.0.log[..n] == x1.log[..n];
      } else if n == |x1.log| {
        assert r.0.log[..n] == x1.log;
      }
    }
    if r.1 == STREAM_CANCEL {
      assert |x.log| < |r.0.log|;
    } else if |x1.log| == |r.0.log| {
      assert r.0.log == x1.log;
    }
  }

  lemma {:induction false} DeliverHeeds(h: Hooks, x: Ctx, target: Target, bytes: Option<seq<Byte>>)
    ensures Heeds(h, x, DeliverSome(h, x, target, bytes))
  {
  }

  lemma {:induction false} RawHeeds(h: Hooks, x: Ctx, d: seq<Byte>)
    ensures Heeds(h, x, RawChunk(h, x, d))
  {
  }

  lemma {:induction false} DeltaHeeds(h: Hooks, x: Ctx, delta: Delta, d: seq<Byte>)
    ensures Heeds(h, x, OnDeltaObject(h, x, delta, d))
  {
    DeliverHeeds(h, x, Text, delta.content);
    var (x1, rc1) := DeliverSome(h, x, Text, delta.content);
    if rc1 == 0 {
      DeliverHeeds(h, x1, Reasoning, delta.reasoning);
      var (x2, rc2) := DeliverSome(h, x1, Reasoning, delta.reasoning);
      HeedsTwice(h, x, x1, (x2, rc2));
      if rc2 == 0 && delta.toolCalls {
        RawHeeds(h, x2, d);
        HeedsTwice(h, x, x2, RawChunk(h, x2, d));
      }
    }
  }

  /** A step without callbacks or a request to stop. */
  lemma {:induction false} SilentHeeds(h: Hooks, x: Ctx, x1: Ctx, r: (Ctx, int))
    requires Heeds(h, x, (x1, 0)) && r.0.log == x1.log && r.1 != STREAM_CANCEL
    ensures Heeds(h, x, r)
  {
  }

  lemma {:induction false} ChoiceHeeds(h: Hooks, x: Ctx, delta: Option<Delta>, finish: Option<seq<Byte>>, d: seq<Byte>)
    ensures Heeds(h, x, OnChoice(h, x, delta, finish, d))
  {
    if delta.Some? {
      DeltaHeeds(h, x, delta.value, d);
      var (x1, rc1) := OnDeltaObject(h, x, delta.value, d);
      if rc1 == 0 {
        SilentHeeds(h, x, x1, SetFinish(h, x1, finish));
      }
    }
  }

  lemma {:induction false} ChunkHeeds(h: Hooks, x: Ctx, d: seq<Byte>)
    requires IsModelled(h, d) && d != DONE
    ensures Heeds(h, x.(sawEvent := true), OnEvent(h, x, d))
  {
    var y, p := x.(sawEvent := true), h.parse(d);
    if p.choice.Choice? {
      ChoiceHeeds(h, y, p.choice.delta, p.choice.finish, d);
      var (x1, rc1) := OnChoice(h, y, p.choice.delta, p.choice.finish, d);
      if rc1 == 0 {
        SilentHeeds(h, y, x1, LiftTail(h, x1, p.usage, p.model));
      }
    }
  }

  /** The handler answers STREAM_CANCEL exactly if the last callback it made stops the
      stream, and makes none behind one that does. */
  lemma {:induction false} OnEventHeeds(h: Hooks, x: Ctx, d: seq<Byte>)
    ensures Heeds(h, x, OnEvent(h, x, d))
  {
    if d != DONE {
      if IsModelled(h, d) {
        ChunkHeeds(h, x, d);
      } else if IsChunk(h, d) {
        RawHeeds(h, x.(sawEvent := true), d);
      } else {
        RawHeeds(h, x, d);
      }
    }
  }

  // ----- going on -----

  /** No callback stops and every allocation is granted. */
  ghost predicate Willing(h: Hooks)
  {
    (forall log :: !h.stops(log)) && (forall n :: h.alloc(n))
  }

  /** A sound buffer with room for some more bytes, as far as it takes them. */
  predicate HasRoom(on: bool, b: BufV, more: seq<Byte>)
  {
    on ==> b.err == Ok && (b.max == 0 || |b.bytes| + |more| <= b.max)
  }

  lemma {:induction false} DeliverGoesOn(h: Hooks, x: Ctx, target: Target, bytes: Option<seq<Byte>>)
    requires Willing(h) && HasRoom(h.accumulate, Buffer(x, target), BytesOf(bytes))
    ensures var r := DeliverSome(h, x, target, bytes);
            && r.1 == 0 && (h.accumulate ==> Buffer(r.0, target).err == Ok) && r.0.lastRaw == x.lastRaw
            && Buffer(r.0, target).max == Buffer(x, target).max
  {
    assert h.alloc(x.allocs);
  }

  lemma {:induction false} RawGoesOn(h: Hooks, x: Ctx, d: seq<Byte>)
    requires Willing(h) && x.lastRaw.err == Ok
    ensures RawChunk(h, x, d).1 == 0
  {
    assert h.alloc(x.allocs);
  }

  lemma {:induction false} DeltaGoesOn(h: Hooks, x: Ctx, delta: Delta, d: seq<Byte>)
    requires Willing(h) && x.lastRaw.err == Ok
    requires HasRoom(h.accumulate, x.r.text, BytesOf(delta.content))
    requires HasRoom(h.accumulate, x.r.reasoning, BytesOf(delta.reasoning))
    ensures OnDeltaObject(h, x, delta, d).1 == 0
  {
    DeliverGoesOn(h, x, Text, delta.content);
    var x1 := DeliverSome(h, x, Text, delta.content).0;
    QuietContent(h, x, delta.content);
    DeliverGoesOn(h, x1, Reasoning, delta.reasoning);
    if delta.toolCalls {
      RawGoesOn(h, DeliverSome(h, x1, Reasoning, delta.reasoning).0, d);
    }
  }

  /** With willing callbacks, memory, and room in the buffers the handler answers 0 to
      every payload but [DONE]. */
  lemma {:induction false} EventGoesOn(h: Hooks, x: Ctx, d: seq<Byte>)
    requires Willing(h) && x.lastRaw.err == Ok && d != DONE
    requires HasRoom(h.accumulate, x.r.text, ContentOf(h, d)) && HasRoom(h.accumulate, x.r.reasoning, ReasoningOf(h, d))
    ensures OnEvent(h, x, d).1 == 0
  {
    var y := x.(sawEvent := true);
    if !IsChunk(h, d) {
      RawGoesOn(h, x, d);
    } else if !IsModelled(h, d) {
      RawGoesOn(h, y, d);
    } else {
      var p := h.parse(d);
      var x1 := if DeltaOf(h, d).Some? then OnDeltaObject(h, y, DeltaOf(h, d).value, d).0 else y;
      if DeltaOf(h, d).Some? {
        DeltaGoesOn(h, y, DeltaOf(h, d).value, d);
      }
      assert h.alloc(x1.allocs);
      var x2 := SetFinish(h, x1, FinishOf(h, d)).0;
      assert h.alloc(x2.allocs);
      assert SetFinish(h, x1, FinishOf(h, d)).1 == 0 && LiftTail(h, x2, p.usage, p.model).1 == 0;
    }
  }

  /** The same of a list of payloads without [DONE]. */
  lemma {:induction false} EventsGoOn(h: Hooks, trip: nat, x: Ctx, ds: seq<seq<Byte>>)
    requires Willing(h) && x.lastRaw.err == Ok && x.lastRaw.max == 2048 && DONE !in ds
    requires HasRoom(h.accumulate, x.r.text, Texts(h, ds)) && HasRoom(h.accumulate, x.r.reasoning, Reasonings(h, ds))
    ensures SseReference.Deliver(ParserEnv(h, trip).onEvent, x, ds).1 == 0
    decreases |ds|
  {
    if ds != [] {
      var front, d := ds[..|ds| - 1], ds[|ds| - 1];
      assert ds == front + [d];
      EventsGoOn(h, trip, x, front);
      EventsFold(h, trip, x, front);
      DeliverSnoc(ParserEnv(h, trip).onEvent, x, front, d);
      EventGoesOn(h, SseReference.Deliver(ParserEnv(h, trip).onEvent, x, front).0, d);
    }
  }
}
