/** struct sicha_sse updated in place, each operation tied to the state machine
    of module Sse. */
module SseParser {
  import opened Bytes
  import opened Buf
  import opened Sse

  class SseParser {
    var line: BufV
    var data: BufV
    var haveData: bool
    var lastWasCr: bool
    var bomSeen: nat
    var bomDecided: bool
    var err: Status
    var appends: nat

    ghost function View(): Parser
      reads this
    {
      Parser(line, data, haveData, lastWasCr, bomSeen, bomDecided, err, appends)
    }

    /** sicha_sse_init. */
    constructor (maxEventBytes: nat)
      ensures View() == Init(maxEventBytes)
    {
      line, data := Empty(maxEventBytes), Empty(maxEventBytes);
      haveData, lastWasCr, bomSeen, bomDecided := false, false, 0, false;
      err, appends := Ok, 0;
    }

    /** sse_check_bufs. */
    method CheckBufs() returns (ok: bool)
      modifies this
      ensures View() == Promote(old(View())) && ok == (err == Ok)
    {
      if err != Ok {
        return false;
      }
      if line.err != Ok {
        err := line.err;
        return false;
      }
      if data.err != Ok {
        err := data.err;
        return false;
      }
      return true;
    }

    /** sicha_buf_append on the line or data buffer. */
    method AppendToLine<S>(env: Env<S>, xs: seq<Byte>)
      modifies this
      ensures View() == AppendLine(env, old(View()), xs)
    {
      line, appends := line.Append(xs, env.alloc(appends)), appends + 1;
    }

    method AppendToData<S>(env: Env<S>, xs: seq<Byte>)
      modifies this
      ensures View() == AppendData(env, old(View()), xs)
    {
      data, appends := data.Append(xs, env.alloc(appends)), appends + 1;
    }

    /** memchr for the colon. */
    static method FindColon(text: seq<Byte>) returns (n: nat)
      ensures n == NameLen(text)
    {
      n := 0;
      while n < |text| && text[n] != COLON
        invariant n <= |text|
        invariant NameLen(text) == n + NameLen(text[n..])
      {
        n := n + 1;
      }
    }

    /** sse_line. */
    method OnLine<S>(env: Env<S>, ctx: S, text: seq<Byte>) returns (rc: int, ctx': S)
      modifies this
      ensures Out(View(), ctx', rc) == Line(env, old(View()), ctx, text)
    {
      rc, ctx' := 0, ctx;
      if text == [] {
        if haveData {
          var (c, code) := env.onEvent(ctx, data.bytes);
          rc, ctx' := code, c;
          data := data.Reset();
          haveData := false;
        }
        return;
      }
      if text[0] == COLON {
        return;
      }
      var nameLen := FindColon(text);
      var value := [];
      if nameLen < |text| {
        value := text[nameLen + 1..];
        if value != [] && value[0] == SPACE {
          value := value[1..];
        }
      }
      assert value == FieldValue(text);
      if nameLen == 4 && text[..4] == DATA {
        if haveData {
          AppendToData(env, [LF]);
        }
        AppendToData(env, value);
        haveData := true;
        var ok := CheckBufs();
        if !ok {
          return -1, ctx';
        }
      }
    }

    /** The line-ending branch of the feed loop. */
    method OnEol<S>(env: Env<S>, ctx: S, cr: bool) returns (rc: int, ctx': S)
      modifies this
      ensures Out(View(), ctx', rc) == EndLine(env, old(View()), ctx, cr)
    {
      rc, ctx' := OnLine(env, ctx, line.bytes);
      line := line.Reset();
      lastWasCr := cr;
      if rc == 0 && err != Ok {
        rc := -1;
      }
    }

    /** sicha_sse_feed. */
    method OnBytes<S>(env: Env<S>, ctx: S, bytes: seq<Byte>) returns (rc: int, ctx': S)
      requires Valid(View())
      modifies this
      ensures Valid(View())
      ensures Out(View(), ctx', rc) == Feed(env, old(View()), ctx, bytes)
    {
      ctx' := ctx;
      if err != Ok {
        return -1, ctx';
      }
      var ok, i := HoldBom(env, ctx, bytes);
      if !ok {
        return -1, ctx';
      }
      rc, ctx' := MainLoop(env, ctx', bytes, i);
    }

    /** The loop over a possible byte-order mark: how far it gets, and whether the
        replay of held-back bytes found room. */
    method HoldBom<S>(env: Env<S>, ctx: S, bytes: seq<Byte>) returns (ok: bool, i: nat)
      requires Valid(View()) && err == Ok
      modifies this
      ensures Valid(View()) && i <= |bytes| && (ok ==> bomDecided || i == |bytes|)
      ensures Bytewise(env, old(View()), ctx, bytes)
              == if ok then Bytewise(env, View(), ctx, bytes[i..]) else Out(View(), ctx, -1)
    {
      i := 0;
      while !bomDecided && i < |bytes|
        invariant i <= |bytes| && Valid(View()) && err == Ok
        invariant Bytewise(env, old(View()), ctx, bytes) == Bytewise(env, View(), ctx, bytes[i..])
        decreases |bytes| - i, !bomDecided
      {
        BytewiseAt(env, View(), ctx, bytes, i);
        if bytes[i] == BOM[bomSeen] {
          bomSeen := bomSeen + 1;
          i := i + 1;
          if bomSeen == 3 {
            bomDecided := true;
          }
        } else {
          ok := Replay(env);
          if !ok {
            return;
          }
          BytewiseAt(env, View(), ctx, bytes, i);
        }
      }
      ok := true;
    }

    /** The held-back bytes are payload. */
    method Replay<S>(env: Env<S>) returns (ok: bool)
      requires Valid(View()) && !bomDecided && err == Ok
      modifies this
      ensures View() == Promote(AppendLine(env, old(View()), BOM[..old(bomSeen)]).(bomSeen := 0, bomDecided := true))
      ensures ok == (err == Ok)
    {
      AppendToLine(env, BOM[..bomSeen]);
      bomSeen := 0;
      bomDecided := true;
      ok := CheckBufs();
    }

    /** The main loop of the feed, from byte `from` on. */
    method MainLoop<S>(env: Env<S>, ctx: S, bytes: seq<Byte>, from: nat) returns (rc: int, ctx': S)
      requires from <= |bytes| && Valid(View()) && (bomDecided || from == |bytes|)
      modifies this
      ensures Valid(View())
      ensures Out(View(), ctx', rc) == Bytewise(env, old(View()), ctx, bytes[from..])
    {
      ctx' := ctx;
      var i := from;
      while i < |bytes|
        invariant from <= i <= |bytes| && Valid(View()) && (bomDecided || i == |bytes|)
        invariant Bytewise(env, old(View()), ctx, bytes[from..]) == Bytewise(env, View(), ctx', bytes[i..])
      {
        BytewiseAt(env, View(), ctx', bytes, i);
        rc, ctx' := OnByte(env, ctx', bytes[i]);
        if rc != 0 {
          return;
        }
        i := i + 1;
      }
      rc := 0;
    }

    /** The body of the main loop. */
    method OnByte<S>(env: Env<S>, ctx: S, ch: Byte) returns (rc: int, ctx': S)
      requires bomDecided && Valid(View())
      modifies this
      ensures Out(View(), ctx', rc) == Step(env, old(View()), ctx, ch)
    {
      rc, ctx' := 0, ctx;
      if lastWasCr {
        lastWasCr := false;
        if ch == LF {
          return;
        }
      }
      if ch == CR || ch == LF {
        rc, ctx' := OnEol(env, ctx, ch == CR);
        return;
      }
      AppendToLine(env, [ch]);
      var ok := CheckBufs();
      if !ok {
        rc := -1;
      }
    }

    /** sicha_sse_finish. */
    method OnEnd<S>(env: Env<S>, ctx: S) returns (rc: int, ctx': S)
      requires Valid(View())
      modifies this
      ensures Valid(View())
      ensures Out(View(), ctx', rc) == Finish(env, old(View()), ctx)
    {
      ctx' := ctx;
      if err != Ok {
        return -1, ctx';
      }
      if !bomDecided && bomSeen > 0 {
        AppendToLine(env, BOM[..bomSeen]);
        bomSeen := 0;
      }
      bomDecided := true;
      if line.bytes != [] {
        rc, ctx' := OnLine(env, ctx', line.bytes);
        line := line.Reset();
        if rc != 0 {
          return;
        }
        if err != Ok {
          return -1, ctx';
        }
      }
      rc, ctx' := OnLine(env, ctx', []);
      if rc == 0 && err != Ok {
        rc := -1;
      }
    }
  }

  lemma {:induction false} BytewiseAt<S>(env: Env<S>, p: Parser, c: S, bytes: seq<Byte>, i: nat)
    requires Valid(p) && i < |bytes|
    ensures Bytewise(env, p, c, bytes[i..]) ==
            var o := Step(env, p, c, bytes[i]);
            if o.rc != 0 then o else Bytewise(env, o.p, o.ctx, bytes[i + 1..])
  {
    assert bytes[i..][1..] == bytes[i + 1..];
  }
}
