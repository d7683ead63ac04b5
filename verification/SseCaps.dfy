/** Caps on events, seen from the callback: a parser with a cap never hands out a
    payload over it, whatever the allocator does and however the stream is cut. */
module SseCaps {
  import opened Bytes
  import opened Buf
  import opened Sse
  import opened SseReference

  /** The callback keeps `inv` as long as it is given payloads within the cap. */
  ghost predicate KeptOnFitting<S(!new)>(env: Env<S>, max: nat, inv: S -> bool)
  {
    forall c, d :: inv(c) && Fits(max, d) ==> inv(env.onEvent(c, d).0)
  }

  /** The pending event is within the cap. */
  predicate Capped(p: Parser, max: nat)
  {
    Valid(p) && p.data.max == max && Fits(max, p.data.bytes)
  }

  lemma {:induction false} LineFits<S(!new)>(env: Env<S>, max: nat, inv: S -> bool, p: Parser, c: S, line: seq<Byte>)
    requires Capped(p, max) && KeptOnFitting(env, max, inv) && inv(c)
    ensures var o := Line(env, p, c, line); Capped(o.p, max) && inv(o.ctx)
  {
    assert inv(env.onEvent(c, p.data.bytes).0);
  }

  lemma {:induction false} MainFits<S(!new)>(env: Env<S>, max: nat, inv: S -> bool, p: Parser, c: S, ch: Byte)
    requires Capped(p, max) && KeptOnFitting(env, max, inv) && inv(c)
    ensures var o := Main(env, p, c, ch); Capped(o.p, max) && inv(o.ctx)
  {
    LineFits(env, max, inv, p.(lastWasCr := false), c, p.line.bytes);
  }

  lemma {:induction false} StepFits<S(!new)>(env: Env<S>, max: nat, inv: S -> bool, p: Parser, c: S, ch: Byte)
    requires Capped(p, max) && KeptOnFitting(env, max, inv) && inv(c)
    ensures var o := Step(env, p, c, ch); Capped(o.p, max) && inv(o.ctx)
  {
    if p.bomDecided {
      MainFits(env, max, inv, p, c, ch);
    } else if ch != BOM[p.bomSeen] {
      MainFits(env, max, inv, Promote(AppendLine(env, p, BOM[..p.bomSeen]).(bomSeen := 0, bomDecided := true)), c, ch);
    }
  }

  lemma {:induction false} BytewiseFits<S(!new)>(env: Env<S>, max: nat, inv: S -> bool, p: Parser, c: S, s: seq<Byte>)
    requires Capped(p, max) && KeptOnFitting(env, max, inv) && inv(c)
    ensures var o := Bytewise(env, p, c, s); Capped(o.p, max) && inv(o.ctx)
    decreases |s|
  {
    if s != [] {
      StepFits(env, max, inv, p, c, s[0]);
      var o := Step(env, p, c, s[0]);
      if o.rc == 0 {
        BytewiseFits(env, max, inv, o.p, o.ctx, s[1..]);
      }
    }
  }

  lemma {:induction false} FeedAllFits<S(!new)>(env: Env<S>, max: nat, inv: S -> bool, p: Parser, c: S,
                                                parts: seq<seq<Byte>>)
    requires Capped(p, max) && KeptOnFitting(env, max, inv) && inv(c)
    ensures var o := FeedAll(env, p, c, parts); Capped(o.p, max) && inv(o.ctx)
    decreases |parts|
  {
    if parts != [] {
      BytewiseFits(env, max, inv, p, c, parts[0]);
      var o := Feed(env, p, c, parts[0]);
      if o.rc == 0 {
        FeedAllFits(env, max, inv, o.p, o.ctx, parts[1..]);
      }
    }
  }

  lemma {:induction false} LastLineFits<S(!new)>(env: Env<S>, max: nat, inv: S -> bool, p: Parser, c: S)
    requires Capped(p, max) && KeptOnFitting(env, max, inv) && inv(c)
    ensures var o := LastLine(env, p, c); Capped(o.p, max) && inv(o.ctx)
  {
    LineFits(env, max, inv, p, c, p.line.bytes);
  }

  lemma {:induction false} FinishFits<S(!new)>(env: Env<S>, max: nat, inv: S -> bool, p: Parser, c: S)
    requires Capped(p, max) && KeptOnFitting(env, max, inv) && inv(c)
    ensures var o := Finish(env, p, c); Capped(o.p, max) && inv(o.ctx)
  {
    var q := Decided(env, p);
    LastLineFits(env, max, inv, q, c);
    var o := LastLine(env, q, c);
    LineFits(env, max, inv, o.p, o.ctx, []);
  }

  /** Every payload the callback of a whole stream sees is within the cap: what
      it keeps on such payloads, the stream keeps. */
  lemma {:induction false} HandedOutFits<S(!new)>(env: Env<S>, max: nat, inv: S -> bool, c: S, parts: seq<seq<Byte>>)
    requires KeptOnFitting(env, max, inv) && inv(c)
    ensures inv(Stream(env, max, c, parts).ctx)
  {
    FeedAllFits(env, max, inv, Init(max), c, parts);
    var o := FeedAll(env, Init(max), c, parts);
    FinishFits(env, max, inv, o.p, o.ctx);
  }

  /** A callback that writes down what it is given and answers as it likes. */
  function Recorder(answer: seq<seq<Byte>> -> int, alloc: nat -> bool): (env: Env<seq<seq<Byte>>>)
  {
    Env((seen: seq<seq<Byte>>, d: seq<Byte>) => (seen + [d], answer(seen + [d])), alloc)
  }

  /** The same, read off a callback's record. */
  lemma {:induction false} RecordedFits(answer: seq<seq<Byte>> -> int, alloc: nat -> bool, max: nat,
                                        parts: seq<seq<Byte>>)
    ensures forall e :: e in Stream(Recorder(answer, alloc), max, [], parts).ctx ==> Fits(max, e)
  {
    var inv := (seen: seq<seq<Byte>>) => forall e :: e in seen ==> Fits(max, e);
    HandedOutFits(Recorder(answer, alloc), max, inv, [], parts);
  }
}
