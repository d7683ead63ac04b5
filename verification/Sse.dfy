/** The incremental Server-Sent-Events parser of src/sse.c as a byte-at-a-time
    state machine, and its independence of how the input is cut into feeds. */
module Sse {
  import opened Bytes
  import opened Buf

  const BOM: seq<Byte> := [0xEF, 0xBB, 0xBF]
  const DATA: seq<Byte> := [0x64, 0x61, 0x74, 0x61]

  /** The world around a parser: the event callback, which threads a context of
      any type and returns a code, and the allocator's answer to the n-th
      append. */
  datatype Env<!S> = Env(onEvent: (S, seq<Byte>) -> (S, int), alloc: nat -> bool)

  /** struct sicha_sse; `appends` counts buffer appends so far. */
  datatype Parser = Parser(
    line: BufV,
    data: BufV,
    haveData: bool,
    lastWasCr: bool,
    bomSeen: nat,
    bomDecided: bool,
    err: Status,
    appends: nat)

  datatype Out<S> = Out(p: Parser, ctx: S, rc: int)

  function Init(max: nat): (p: Parser)
  {
    Parser(Empty(max), Empty(max), false, false, 0, false, Ok, 0)
  }

  predicate Valid(p: Parser)
  {
    p.bomSeen <= 3 && (!p.bomDecided ==> p.bomSeen < 3)
  }

  /** sse_check_bufs, after an append: promote a buffer error. */
  function Promote(p: Parser): (r: Parser)
  {
    if p.err != Ok then p
    else if p.line.err != Ok then p.(err := p.line.err)
    else if p.data.err != Ok then p.(err := p.data.err)
    else p
  }

  function AppendLine<S>(env: Env<S>, p: Parser, xs: seq<Byte>): (r: Parser)
  {
    p.(line := p.line.Append(xs, env.alloc(p.appends)), appends := p.appends + 1)
  }

  function AppendData<S>(env: Env<S>, p: Parser, xs: seq<Byte>): (r: Parser)
  {
    p.(data := p.data.Append(xs, env.alloc(p.appends)), appends := p.appends + 1)
  }

  /** Position of the first colon, or the line's length. */
  function NameLen(line: seq<Byte>): (n: nat)
    ensures n <= |line|
    ensures n < |line| ==> line[n] == COLON
    ensures forall i :: 0 <= i < n ==> line[i] != COLON
  {
    if line == [] || line[0] == COLON then 0 else 1 + NameLen(line[1..])
  }

  /** The value of a field line, one leading space stripped. */
  function FieldValue(line: seq<Byte>): (v: seq<Byte>)
  {
    var n := NameLen(line);
    if n == |line| then []
    else if n + 1 < |line| && line[n + 1] == SPACE then line[n + 2..]
    else line[n + 1..]
  }

  predicate IsDataField(line: seq<Byte>)
  {
    NameLen(line) == 4 && line[..4] == DATA
  }

  /** sse_line: one complete line, terminator stripped. */
  function Line<S>(env: Env<S>, p: Parser, c: S, line: seq<Byte>): (o: Out<S>)
    ensures o.p.bomSeen == p.bomSeen && o.p.bomDecided == p.bomDecided
  {
    if line == [] then
      if p.haveData then
        var (c', rc) := env.onEvent(c, p.data.bytes);
        Out(p.(data := p.data.Reset(), haveData := false), c', rc)
      else Out(p, c, 0)
    else if line[0] == COLON then Out(p, c, 0)
    else if IsDataField(line) then
      var p1 := if p.haveData then AppendData(env, p, [LF]) else p;
      var p2 := Promote(AppendData(env, p1, FieldValue(line)).(haveData := true));
      Out(p2, c, if p2.err == Ok then 0 else -1)
    else Out(p, c, 0)
  }

  /** The end-of-line part of the main loop. */
  function EndLine<S>(env: Env<S>, p: Parser, c: S, cr: bool): (o: Out<S>)
    ensures o.p.bomSeen == p.bomSeen && o.p.bomDecided == p.bomDecided
  {
    var o := Line(env, p, c, p.line.bytes);
    var p' := o.p.(line := o.p.line.Reset(), lastWasCr := cr);
    Out(p', o.ctx, if o.rc == 0 && p'.err != Ok then -1 else o.rc)
  }

  /** One byte of the main loop. */
  function Main<S>(env: Env<S>, p: Parser, c: S, ch: Byte): (o: Out<S>)
    ensures o.p.bomSeen == p.bomSeen && o.p.bomDecided == p.bomDecided
  {
    if p.lastWasCr && ch == LF then Out(p.(lastWasCr := false), c, 0)
    else
      var p0 := p.(lastWasCr := false);
      if ch == CR || ch == LF then EndLine(env, p0, c, ch == CR)
      else
        var p1 := Promote(AppendLine(env, p0, [ch]));
        Out(p1, c, if p1.err == Ok then 0 else -1)
  }

  /** One byte, the byte-order-mark phase included. */
  function Step<S>(env: Env<S>, p: Parser, c: S, ch: Byte): (o: Out<S>)
    requires Valid(p)
    ensures Valid(o.p)
  {
    if p.bomDecided then Main(env, p, c, ch)
    else if ch == BOM[p.bomSeen] then
      Out(p.(bomSeen := p.bomSeen + 1, bomDecided := p.bomSeen == 2), c, 0)
    else
      var p1 := Promote(AppendLine(env, p, BOM[..p.bomSeen]).(bomSeen := 0, bomDecided := true));
      if p1.err != Ok then Out(p1, c, -1) else Main(env, p1, c, ch)
  }

  /** The bytes of one feed, until a callback or an error stops it. */
  function Bytewise<S>(env: Env<S>, p: Parser, c: S, s: seq<Byte>): (o: Out<S>)
    requires Valid(p)
    ensures Valid(o.p)
    decreases |s|
  {
    if s == [] then Out(p, c, 0)
    else
      var o := Step(env, p, c, s[0]);
      if o.rc != 0 then o else Bytewise(env, o.p, o.ctx, s[1..])
  }

  /** sicha_sse_feed. */
  function Feed<S>(env: Env<S>, p: Parser, c: S, s: seq<Byte>): (o: Out<S>)
    requires Valid(p)
    ensures Valid(o.p)
  {
    if p.err != Ok then Out(p, c, -1) else Bytewise(env, p, c, s)
  }

  /** Held-back bytes of a possible mark turn out to be payload. */
  function Decided<S>(env: Env<S>, p: Parser): (r: Parser)
    requires Valid(p)
    ensures Valid(r) && r.bomDecided && r.err == p.err
  {
    var p1 := if !p.bomDecided && p.bomSeen > 0
              then AppendLine(env, p, BOM[..p.bomSeen]).(bomSeen := 0) else p;
    p1.(bomDecided := true)
  }

  /** The unterminated last line. */
  function LastLine<S>(env: Env<S>, p: Parser, c: S): (o: Out<S>)
    requires Valid(p)
    ensures Valid(o.p)
  {
    if p.line.bytes == [] then Out(p, c, 0)
    else
      var o := Line(env, p, c, p.line.bytes);
      var p' := o.p.(line := o.p.line.Reset());
      Out(p', o.ctx, if o.rc == 0 && p'.err != Ok then -1 else o.rc)
  }

  /** sicha_sse_finish. */
  function Finish<S>(env: Env<S>, p: Parser, c: S): (o: Out<S>)
    requires Valid(p)
    ensures Valid(o.p)
  {
    if p.err != Ok then Out(p, c, -1)
    else
      var o := LastLine(env, Decided(env, p), c);
      if o.rc != 0 then o
      else
        var o2 := Line(env, o.p, o.ctx, []);
        if o2.rc != 0 then o2 else Out(o2.p, o2.ctx, if o2.p.err == Ok then 0 else -1)
  }

  /** Successive feeds of one stream, ending at the first nonzero code. */
  function FeedAll<S>(env: Env<S>, p: Parser, c: S, parts: seq<seq<Byte>>): (o: Out<S>)
    requires Valid(p)
    ensures Valid(o.p)
    decreases |parts|
  {
    if parts == [] then Out(p, c, 0)
    else
      var o := Feed(env, p, c, parts[0]);
      if o.rc != 0 then o else FeedAll(env, o.p, o.ctx, parts[1..])
  }

  /** A whole stream: the feeds and, unless one stopped it, the finish. */
  function Stream<S>(env: Env<S>, max: nat, c: S, parts: seq<seq<Byte>>): (o: Out<S>)
  {
    var o := FeedAll(env, Init(max), c, parts);
    if o.rc != 0 then o else Finish(env, o.p, o.ctx)
  }

  /** A step that returns 0 leaves the parser without an error. */
  lemma {:induction false} StepKeepsOk<S>(env: Env<S>, p: Parser, c: S, ch: Byte)
    requires Valid(p) && p.err == Ok
    ensures var o := Step(env, p, c, ch); o.rc == 0 ==> o.p.err == Ok
  {
  }

  lemma {:induction false} BytewiseKeepsOk<S>(env: Env<S>, p: Parser, c: S, s: seq<Byte>)
    requires Valid(p) && p.err == Ok
    ensures var o := Bytewise(env, p, c, s); o.rc == 0 ==> o.p.err == Ok
    decreases |s|
  {
    if s != [] {
      StepKeepsOk(env, p, c, s[0]);
      var o := Step(env, p, c, s[0]);
      if o.rc == 0 {
        BytewiseKeepsOk(env, o.p, o.ctx, s[1..]);
      }
    }
  }

  lemma {:induction false} BytewiseSplit<S>(env: Env<S>, p: Parser, c: S, a: seq<Byte>, b: seq<Byte>)
    requires Valid(p)
    ensures Bytewise(env, p, c, a + b) ==
            var o := Bytewise(env, p, c, a);
            if o.rc != 0 then o else Bytewise(env, o.p, o.ctx, b)
    decreases |a|
  {
    if a == [] {
      assert a + b == b;
    } else {
      var o := Step(env, p, c, a[0]);
      assert (a + b)[0] == a[0] && (a + b)[1..] == a[1..] + b;
      if o.rc == 0 {
        BytewiseSplit(env, o.p, o.ctx, a[1..], b);
      }
    }
  }

  /** Partition independence: however a stream is cut into feeds, callback
      context, return code, sticky status and final parser state are those of
      one whole feed — for every callback and every allocator behaviour. */
  lemma {:induction false} PartitionIndependence<S>(env: Env<S>, p: Parser, c: S, parts: seq<seq<Byte>>)
    requires Valid(p) && p.err == Ok
    ensures FeedAll(env, p, c, parts) == Feed(env, p, c, Concat(parts))
    decreases |parts|
  {
    if parts != [] {
      BytewiseSplit(env, p, c, parts[0], Concat(parts[1..]));
      BytewiseKeepsOk(env, p, c, parts[0]);
      var o := Feed(env, p, c, parts[0]);
      if o.rc == 0 {
        PartitionIndependence(env, o.p, o.ctx, parts[1..]);
      }
    }
  }

  // ----- What the callback keeps, the parser keeps -----

  ghost predicate KeptByCallback<S(!new)>(env: Env<S>, inv: S -> bool)
  {
    forall c, d :: inv(c) ==> inv(env.onEvent(c, d).0)
  }

  lemma {:induction false} BytewiseKeeps<S(!new)>(env: Env<S>, inv: S -> bool, p: Parser, c: S, s: seq<Byte>)
    requires Valid(p) && KeptByCallback(env, inv) && inv(c)
    ensures inv(Bytewise(env, p, c, s).ctx)
    decreases |s|
  {
    if s != [] {
      StepKeeps(env, inv, p, c, s[0]);
      var o := Step(env, p, c, s[0]);
      if o.rc == 0 {
        BytewiseKeeps(env, inv, o.p, o.ctx, s[1..]);
      }
    }
  }

  lemma {:induction false} StepKeeps<S(!new)>(env: Env<S>, inv: S -> bool, p: Parser, c: S, ch: Byte)
    requires Valid(p) && KeptByCallback(env, inv) && inv(c)
    ensures inv(Step(env, p, c, ch).ctx)
  {
    assert inv(env.onEvent(c, p.data.bytes).0);
  }

  lemma {:induction false} FeedAllKeeps<S(!new)>(env: Env<S>, inv: S -> bool, p: Parser, c: S, parts: seq<seq<Byte>>)
    requires Valid(p) && KeptByCallback(env, inv) && inv(c)
    ensures inv(FeedAll(env, p, c, parts).ctx)
    decreases |parts|
  {
    if parts != [] {
      BytewiseKeeps(env, inv, p, c, parts[0]);
      var o := Feed(env, p, c, parts[0]);
      if o.rc == 0 {
        FeedAllKeeps(env, inv, o.p, o.ctx, parts[1..]);
      }
    }
  }

  lemma {:induction false} FinishKeeps<S(!new)>(env: Env<S>, inv: S -> bool, p: Parser, c: S)
    requires Valid(p) && KeptByCallback(env, inv) && inv(c)
    ensures inv(Finish(env, p, c).ctx)
  {
    forall q: Parser, c1, line | inv(c1)
      ensures inv(Line(env, q, c1, line).ctx)
    {
      assert inv(env.onEvent(c1, q.data.bytes).0);
    }
  }

  // ----- What a callback that answers 0 keeps, a quiet feed keeps -----

  ghost predicate KeptQuietly<S(!new)>(env: Env<S>, inv: S -> bool)
  {
    forall c, d :: inv(c) && env.onEvent(c, d).1 == 0 ==> inv(env.onEvent(c, d).0)
  }

  lemma {:induction false} StepKeepsQuietly<S(!new)>(env: Env<S>, inv: S -> bool, p: Parser, c: S, ch: Byte)
    requires Valid(p) && KeptQuietly(env, inv) && inv(c)
    ensures var o := Step(env, p, c, ch); o.rc == 0 ==> inv(o.ctx)
  {
    assert env.onEvent(c, p.data.bytes).1 == 0 ==> inv(env.onEvent(c, p.data.bytes).0);
  }

  lemma {:induction false} BytewiseKeepsQuietly<S(!new)>(env: Env<S>, inv: S -> bool, p: Parser, c: S, s: seq<Byte>)
    requires Valid(p) && KeptQuietly(env, inv) && inv(c)
    ensures var o := Bytewise(env, p, c, s); o.rc == 0 ==> inv(o.ctx)
    decreases |s|
  {
    if s != [] {
      StepKeepsQuietly(env, inv, p, c, s[0]);
      var o := Step(env, p, c, s[0]);
      if o.rc == 0 {
        BytewiseKeepsQuietly(env, inv, o.p, o.ctx, s[1..]);
      }
    }
  }

  lemma {:induction false} FeedAllKeepsQuietly<S(!new)>(env: Env<S>, inv: S -> bool, p: Parser, c: S,
                                                        parts: seq<seq<Byte>>)
    requires Valid(p) && KeptQuietly(env, inv) && inv(c)
    ensures var o := FeedAll(env, p, c, parts); o.rc == 0 ==> inv(o.ctx)
    decreases |parts|
  {
    if parts != [] {
      BytewiseKeepsQuietly(env, inv, p, c, parts[0]);
      var o := Feed(env, p, c, parts[0]);
      if o.rc == 0 {
        FeedAllKeepsQuietly(env, inv, o.p, o.ctx, parts[1..]);
      }
    }
  }
}
