/** A batch definition of an event stream (sections 9.2.5 and 9.2.6 of the WHATWG
    HTML Standard, with the pending event flushed at the end of the stream) and
    the proof that the incremental parser computes exactly it. */
module SseReference {
  import opened Bytes
  import opened Buf
  import opened Sse

  predicate IsEol(b: Byte)
  {
    b == CR || b == LF
  }

  predicate NoEol(s: seq<Byte>)
  {
    forall i :: 0 <= i < |s| ==> !IsEol(s[i])
  }

  function StripBom(s: seq<Byte>): (r: seq<Byte>)
  {
    if BOM <= s then s[3..] else s
  }

  /** Length of the first line, its terminator excluded. */
  function LineLen(s: seq<Byte>): (n: nat)
    ensures n <= |s| && NoEol(s[..n]) && (n < |s| ==> IsEol(s[n]))
  {
    if s == [] || IsEol(s[0]) then 0
    else
      var n := 1 + LineLen(s[1..]);
      assert forall i :: 1 <= i < n ==> s[..n][i] == s[1..][..n - 1][i - 1];
      n
  }

  /** Index of the line that follows: CRLF is one terminator, LF and CR are one
      each. */
  function NextLine(s: seq<Byte>, n: nat): (k: nat)
    requires n < |s|
    ensures n < k <= |s|
  {
    if s[n] == CR && n + 1 < |s| && s[n + 1] == LF then n + 2 else n + 1
  }

  /** All lines, the unterminated (possibly empty) last one included. */
  function Lines(s: seq<Byte>): (r: seq<seq<Byte>>)
    ensures |r| > 0
    decreases |s|
  {
    var n := LineLen(s);
    if n == |s| then [s] else [s[..n]] + Lines(s[NextLine(s, n)..])
  }

  predicate Fits(max: nat, s: seq<Byte>)
  {
    max == 0 || |s| <= max
  }

  /** The pending event after one more data line. */
  function Joined(pending: Option<seq<Byte>>, v: seq<Byte>): (r: seq<Byte>)
  {
    if pending.Some? then pending.value + [LF] + v else v
  }

  /** The value of a data line: behind "data:", one leading space stripped; a bare
      "data" has the empty value; every other line has none. */
  function DataOf(line: seq<Byte>): (v: Option<seq<Byte>>)
  {
    if line == DATA then Some([])
    else if DATA + [COLON] <= line then
      if |line| > 5 && line[5] == SPACE then Some(line[6..]) else Some(line[5..])
    else None
  }

  datatype Batch = Batch(events: seq<seq<Byte>>, status: Status)

  /** Interprets the lines: data values joined with LF, a blank line completes an
      event, everything else is ignored; a line or an event over the cap ends the
      stream. */
  function Dispatch(max: nat, lines: seq<seq<Byte>>, pending: Option<seq<Byte>>): (r: Batch)
    decreases |lines|
  {
    if lines == [] then Batch([], Ok)
    else if !Fits(max, lines[0]) then Batch([], TooBig)
    else if lines[0] == [] then
      var r := Dispatch(max, lines[1..], None);
      if pending.Some? then r.(events := [pending.value] + r.events) else r
    else if DataOf(lines[0]).Some? then
      var d := Joined(pending, DataOf(lines[0]).value);
      if Fits(max, d) then Dispatch(max, lines[1..], Some(d)) else Batch([], TooBig)
    else Dispatch(max, lines[1..], pending)
  }

  /** The batch meaning of a whole stream; the extra blank line is the flush at
      the end. */
  function BatchOf(max: nat, s: seq<Byte>): (r: Batch)
  {
    Dispatch(max, Lines(StripBom(s)) + [[]], None)
  }

  /** A callback over a list of events, stopping at its first nonzero code. */
  function Deliver<S>(cb: (S, seq<Byte>) -> (S, int), c: S, events: seq<seq<Byte>>): (r: (S, int))
    decreases |events|
  {
    if events == [] then (c, 0)
    else
      var (c', rc) := cb(c, events[0]);
      if rc != 0 then (c', rc) else Deliver(cb, c', events[1..])
  }

  /** What a caller observes of a stream. */
  datatype Seen<S> = Seen(ctx: S, rc: int, err: Status)

  function Observe<S>(o: Out<S>): (r: Seen<S>)
  {
    Seen(o.ctx, o.rc, o.p.err)
  }

  /** What the batch meaning says a caller observes. */
  function Expect<S>(env: Env<S>, c: S, b: Batch): (r: Seen<S>)
  {
    var (c', rc) := Deliver(env.onEvent, c, b.events);
    if rc != 0 then Seen(c', rc, Ok)
    else Seen(c', if b.status == Ok then 0 else -1, b.status)
  }

  /** The rest of a stream fed to a parser in the middle of it. */
  function Rest<S>(env: Env<S>, p: Parser, c: S, s: seq<Byte>): (o: Out<S>)
    requires Valid(p)
  {
    var o := Bytewise(env, p, c, s);
    if o.rc != 0 then o else Finish(env, o.p, o.ctx)
  }

  /** The parser holds an incomplete line and a pending event. */
  ghost predicate Holds(p: Parser, max: nat, line: seq<Byte>, pending: Option<seq<Byte>>)
  {
    && Valid(p) && p.bomDecided && p.err == Ok
    && p.line == BufV(line, max, Ok)
    && p.data == BufV(if pending.Some? then pending.value else [], max, Ok)
    && p.haveData == pending.Some?
    && NoEol(line) && Fits(max, line)
    && (pending.Some? ==> Fits(max, pending.value))
    && (p.lastWasCr ==> line == [])
  }

  ghost predicate AllGranted<S>(env: Env<S>)
  {
    forall k :: env.alloc(k)
  }

  /** A callback that answers 0 gets from `c` to `c'` along the first events. */
  ghost predicate Reaches<S>(cb: (S, seq<Byte>) -> (S, int), c: S, events: seq<seq<Byte>>, c': S)
    decreases |events|
  {
    c == c' || (events != [] && cb(c, events[0]).1 == 0 && Reaches(cb, cb(c, events[0]).0, events[1..], c'))
  }

  /** One of the appends from number `from` on, up to number `to`, is refused. */
  ghost predicate Refused<S>(env: Env<S>, from: nat, to: nat)
  {
    exists k :: from <= k < to && !env.alloc(k)
  }

  /** What is observed, from append number `from` on, is the batch meaning, or that of
      a stream cut short by the refusal of an append it made. */
  ghost predicate Meets<S>(o: Out<S>, from: nat, env: Env<S>, c: S, b: Batch)
  {
    || Observe(o) == Expect(env, c, b)
    || (Refused(env, from, o.p.appends) && o.rc == -1 && o.p.err == NoMem && Reaches(env.onEvent, c, b.events, o.ctx))
  }

  /** From context c' the batch b' is what remains of b. */
  ghost predicate Remains<S>(env: Env<S>, c: S, b: Batch, c': S, b': Batch)
  {
    || (c' == c && b' == b)
    || (b.events != [] && env.onEvent(c, b.events[0]) == (c', 0) && b' == Batch(b.events[1..], b.status))
  }

  lemma {:induction false} MeetsEarlier<S>(o: Out<S>, env: Env<S>, from: nat, c: S, b: Batch, from': nat, c': S,
                                           b': Batch)
    requires Remains(env, c, b, c', b') && Meets(o, from', env, c', b') && from <= from'
    ensures Meets(o, from, env, c, b)
  {
  }

  // ----- fields -----

  lemma {:induction false} NameEndsAtColon(name: seq<Byte>, rest: seq<Byte>)
    requires COLON !in name
    ensures NameLen(name + [COLON] + rest) == |name| && NameLen(name) == |name|
  {
    var line := name + [COLON] + rest;
    assert line[|name|] == COLON;
    assert forall i :: 0 <= i < |name| ==> line[i] == name[i] && name[i] in name;
  }

  /** The parser's field values, for every field name: behind the colon, one leading
      space stripped; without a colon, empty. */
  lemma {:induction false} FieldValues(name: seq<Byte>, v: seq<Byte>)
    requires COLON !in name
    ensures FieldValue(name + [COLON] + ([SPACE] + v)) == v
    ensures v == [] || v[0] != SPACE ==> FieldValue(name + [COLON] + v) == v
    ensures FieldValue(name) == []
  {
    NameEndsAtColon(name, [SPACE] + v);
    NameEndsAtColon(name, v);
    var a, b, n := name + [COLON] + ([SPACE] + v), name + [COLON] + v, |name|;
    assert a[n + 1] == SPACE && a[n + 2..] == v;
    assert b[n + 1..] == v && (v != [] ==> b[n + 1] == v[0]);
  }

  /** The parser's data lines and their values are those of the batch definition. */
  lemma {:induction false} FieldMatches(line: seq<Byte>)
    ensures IsDataField(line) <==> DataOf(line).Some?
    ensures IsDataField(line) ==> FieldValue(line) == DataOf(line).value && line[0] != COLON
  {
    assert DATA[0] == 0x64 && COLON !in DATA;
    if DATA + [COLON] <= line {
      var rest := line[5..];
      assert line == DATA + [COLON] + rest;
      NameEndsAtColon(DATA, rest);
      if rest != [] && rest[0] == SPACE {
        assert rest == [SPACE] + rest[1..] && rest[1..] == line[6..];
        FieldValues(DATA, rest[1..]);
      } else {
        FieldValues(DATA, rest);
      }
      assert line[..4] == DATA;
    } else if line == DATA {
      FieldValues(DATA, []);
      assert line[..4] == DATA;
    }
    if IsDataField(line) {
      assert line[..4][0] == line[0];
    }
  }

  /** One complete line, against the batch interpretation of that line; the
      result is the event then pending. */
  lemma {:induction false} LineMatches<S>(env: Env<S>, p: Parser, c: S, max: nat, line: seq<Byte>,
                                          pending: Option<seq<Byte>>, rest: seq<seq<Byte>>)
    returns (pending': Option<seq<Byte>>)
    requires Holds(p, max, line, pending)
    ensures var o := Line(env, p, c, line);
            var b := Dispatch(max, [line] + rest, pending);
            if o.rc != 0 then Meets(o, p.appends, env, c, b)
            else
              && Holds(o.p.(line := o.p.line.Reset()), max, [], pending')
              && (line == [] ==> pending' == None)
              && o.p.appends >= p.appends
              && Remains(env, c, b, o.ctx, Dispatch(max, rest, pending'))
  {
    assert ([line] + rest)[0] == line && ([line] + rest)[1..] == rest;
    pending' :=
      if line == [] then None
      else if IsDataField(line) then Some(Joined(pending, FieldValue(line)))
      else pending;
    FieldMatches(line);
    if line == [] {
      BlankLineMatches(env, p, c, max, pending, rest);
    } else if IsDataField(line) {
      DataLineMatches(env, p, c, max, line, pending, rest);
    }
  }

  lemma {:induction false} BlankLineMatches<S>(env: Env<S>, p: Parser, c: S, max: nat, pending: Option<seq<Byte>>,
                                               rest: seq<seq<Byte>>)
    requires Holds(p, max, [], pending)
    ensures var o := Line(env, p, c, []);
            var b := Dispatch(max, [[]] + rest, pending);
            if o.rc != 0 then Meets(o, p.appends, env, c, b)
            else
              && Holds(o.p.(line := o.p.line.Reset()), max, [], None)
              && o.p.appends >= p.appends
              && Remains(env, c, b, o.ctx, Dispatch(max, rest, None))
  {
    var blank: seq<seq<Byte>> := [[]];
    assert (blank + rest)[0] == [] && (blank + rest)[1..] == rest;
    if pending.Some? {
      var r := Dispatch(max, rest, None);
      assert ([pending.value] + r.events)[1..] == r.events;
    }
  }

  lemma {:induction false} DataLineMatches<S>(env: Env<S>, p: Parser, c: S, max: nat, line: seq<Byte>,
                                              pending: Option<seq<Byte>>, rest: seq<seq<Byte>>)
    requires Holds(p, max, line, pending) && line != [] && IsDataField(line) && line[0] != COLON
    ensures var o := Line(env, p, c, line);
            var b := Dispatch(max, [line] + rest, pending);
            var pending' := Some(Joined(pending, FieldValue(line)));
            if o.rc != 0 then Meets(o, p.appends, env, c, b)
            else
              && Holds(o.p.(line := o.p.line.Reset()), max, [], pending')
              && o.p.appends >= p.appends
              && Remains(env, c, b, o.ctx, Dispatch(max, rest, pending'))
  {
    assert ([line] + rest)[0] == line && ([line] + rest)[1..] == rest;
    FieldMatches(line);
    var p1 := if p.haveData then AppendData(env, p, [LF]) else p;
    var q := AppendData(env, p1, FieldValue(line)).data;
    DataAppends(env, p, max, pending, FieldValue(line));
    var o := Line(env, p, c, line);
    assert o.p.data == q && o.p.appends == p1.appends + 1;
  }

  /** The one or two appends of a data line. */
  lemma {:induction false} DataAppends<S>(env: Env<S>, p: Parser, max: nat, pending: Option<seq<Byte>>, v: seq<Byte>)
    requires p.data == BufV(if pending.Some? then pending.value else [], max, Ok)
    requires p.haveData == pending.Some?
    ensures var p1 := if p.haveData then AppendData(env, p, [LF]) else p;
            var q := AppendData(env, p1, v).data;
            var d := Joined(pending, v);
            || (q.err == NoMem && Refused(env, p.appends, p1.appends + 1))
            || (q == BufV(d, max, Ok) && Fits(max, d))
            || (q.err == TooBig && !Fits(max, d))
  {
    var p1 := if p.haveData then AppendData(env, p, [LF]) else p;
    assert (env.alloc(p.appends) && env.alloc(p1.appends)) || Refused(env, p.appends, p1.appends + 1);
  }

  lemma {:induction false} LinesAtEol(line: seq<Byte>, s: seq<Byte>)
    requires NoEol(line) && s != [] && IsEol(s[0])
    ensures Lines(line + s) == [line] + Lines(s[NextLine(s, 0)..])
  {
    var t := line + s;
    var n := LineLen(t);
    assert t[|line|] == s[0];
    assert forall i :: 0 <= i < |line| ==> t[i] == line[i];
    assert forall i :: 0 <= i < n ==> t[..n][i] == t[i];
    assert t[..n] == line;
    assert t[NextLine(t, n)..] == s[NextLine(s, 0)..];
  }

  lemma {:induction false} LinesWithoutEol(line: seq<Byte>)
    requires NoEol(line)
    ensures Lines(line) == [line]
  {
    var n := LineLen(line);
    assert n == |line|;
  }

  /** The end of the stream: an unterminated line, then the flush. */
  lemma {:induction false} FinishMatches<S>(env: Env<S>, p: Parser, c: S, max: nat, line: seq<Byte>,
                                            pending: Option<seq<Byte>>)
    requires Holds(p, max, line, pending)
    ensures Meets(Finish(env, p, c), p.appends, env, c, Dispatch(max, [line] + [[]], pending))
  {
    var b := Dispatch(max, [line] + [[]], pending);
    if line == [] {
      BlankAtEnd(env, p, c, max, pending);
    } else {
      var pending' := LineMatches(env, p, c, max, line, pending, [[]]);
      var o := Line(env, p, c, line);
      if o.rc == 0 {
        var p3 := o.p.(line := o.p.line.Reset());
        FlushMatches(env, p3, o.ctx, max, pending');
        MeetsEarlier(Finish(env, p3, o.ctx), env, p.appends, c, b, p3.appends, o.ctx, Dispatch(max, [[]], pending'));
        assert Finish(env, p, c) == Finish(env, p3, o.ctx);
      }
    }
  }

  /** The flush of a pending event, no line being held. */
  lemma {:induction false} FlushMatches<S>(env: Env<S>, p: Parser, c: S, max: nat, pending: Option<seq<Byte>>)
    requires Holds(p, max, [], pending)
    ensures Meets(Finish(env, p, c), p.appends, env, c, Dispatch(max, [[]], pending))
  {
    var blank: seq<seq<Byte>> := [[]];
    assert blank + [] == blank;
    BlankLineMatches(env, p, c, max, pending, []);
    var o := Line(env, p, c, []);
    assert Finish(env, p, c) == o;
    if o.rc == 0 {
      MeetsEarlier(o, env, p.appends, c, Dispatch(max, blank, pending), p.appends, o.ctx, Batch([], Ok));
    }
  }

  /** An empty unterminated line adds nothing to the flush. */
  lemma {:induction false} BlankAtEnd<S>(env: Env<S>, p: Parser, c: S, max: nat, pending: Option<seq<Byte>>)
    requires Holds(p, max, [], pending)
    ensures Meets(Finish(env, p, c), p.appends, env, c, Dispatch(max, [[]] + [[]], pending))
  {
    FlushMatches(env, p, c, max, pending);
    var one: seq<seq<Byte>> := [[]];
    var two: seq<seq<Byte>> := [[]] + [[]];
    assert two[1..] == one && one[1..] == [];
    assert Dispatch(max, one, None) == Batch([], Ok);
    assert Dispatch(max, two, pending) == Dispatch(max, one, pending);
  }

  /** From any point inside a stream the parser observes what the batch meaning
      of the remaining lines prescribes. */
  lemma {:induction false} RestMatches<S>(env: Env<S>, p: Parser, c: S, max: nat, line: seq<Byte>,
                                          pending: Option<seq<Byte>>, s: seq<Byte>)
    requires Holds(p, max, line, pending)
    requires p.lastWasCr ==> s == [] || s[0] != LF
    ensures Meets(Rest(env, p, c, s), p.appends, env, c, Dispatch(max, Lines(line + s) + [[]], pending))
    decreases |s|, 2
  {
    if s == [] {
      assert line + s == line;
      LinesWithoutEol(line);
      FinishMatches(env, p, c, max, line, pending);
    } else if IsEol(s[0]) {
      LinesAtEol(line, s);
      var tail := Lines(s[NextLine(s, 0)..]) + [[]];
      assert Lines(line + s) + [[]] == [line] + tail;
      RestAtEol(env, p, c, max, line, pending, s);
    } else {
      RestInLine(env, p, c, max, line, pending, s);
    }
  }

  lemma {:induction false} RestStep<S>(env: Env<S>, p: Parser, c: S, s: seq<Byte>)
    requires Valid(p) && s != []
    ensures Rest(env, p, c, s) ==
            var o := Step(env, p, c, s[0]);
            if o.rc != 0 then o else Rest(env, o.p, o.ctx, s[1..])
  {
  }

  /** A byte of a line. */
  lemma {:induction false} ByteMatches<S>(env: Env<S>, p: Parser, c: S, max: nat, line: seq<Byte>,
                                          pending: Option<seq<Byte>>, ch: Byte)
    requires Holds(p, max, line, pending) && !IsEol(ch)
    ensures var o := Step(env, p, c, ch);
            && o.ctx == c
            && (o.rc == 0 ==> Holds(o.p, max, line + [ch], pending))
            && (o.rc == 0 || o.rc == -1)
            && (o.rc == -1 ==>
                  || (o.p.err == NoMem && Refused(env, p.appends, o.p.appends))
                  || (o.p.err == TooBig && !Fits(max, line + [ch])))
            && o.p.appends >= p.appends
  {
    assert env.alloc(p.appends) || Refused(env, p.appends, p.appends + 1);
  }

  lemma {:induction false} RestInLine<S>(env: Env<S>, p: Parser, c: S, max: nat, line: seq<Byte>,
                                         pending: Option<seq<Byte>>, s: seq<Byte>)
    requires Holds(p, max, line, pending)
    requires s != [] && !IsEol(s[0])
    ensures Meets(Rest(env, p, c, s), p.appends, env, c, Dispatch(max, Lines(line + s) + [[]], pending))
    decreases |s|, 1
  {
    var line' := line + [s[0]];
    var o := Step(env, p, c, s[0]);
    RestStep(env, p, c, s);
    ByteMatches(env, p, c, max, line, pending, s[0]);
    if o.rc == 0 {
      assert line' + s[1..] == line + s;
      RestMatches(env, o.p, c, max, line', pending, s[1..]);
      var b := Dispatch(max, Lines(line + s) + [[]], pending);
      MeetsEarlier(Rest(env, p, c, s), env, p.appends, c, b, o.p.appends, c, b);
    } else if o.p.err == TooBig {
      LongLine(max, line', line + s, pending);
    }
  }

  /** A line over the cap ends the stream. */
  lemma {:induction false} LongLine(max: nat, line: seq<Byte>, s: seq<Byte>, pending: Option<seq<Byte>>)
    requires NoEol(line) && line <= s && !Fits(max, line)
    ensures Dispatch(max, Lines(s) + [[]], pending) == Batch([], TooBig)
  {
    var n := LineLen(s);
    assert forall i :: 0 <= i < |line| ==> s[i] == line[i];
    assert n >= |line|;
    assert (Lines(s) + [[]])[0] == s[..n];
  }

  /** The byte that ends a line. */
  lemma {:induction false} EolStepMatches<S>(env: Env<S>, p: Parser, c: S, max: nat, line: seq<Byte>,
                                             pending: Option<seq<Byte>>, ch: Byte, tail: seq<seq<Byte>>)
    returns (pending': Option<seq<Byte>>)
    requires Holds(p, max, line, pending)
    requires IsEol(ch) && (p.lastWasCr ==> ch != LF)
    ensures var o := Step(env, p, c, ch);
            var b := Dispatch(max, [line] + tail, pending);
            if o.rc != 0 then Meets(o, p.appends, env, c, b)
            else
              && Holds(o.p, max, [], pending') && o.p.lastWasCr == (ch == CR)
              && o.p.appends >= p.appends
              && Remains(env, c, b, o.ctx, Dispatch(max, tail, pending'))
  {
    var p0 := p.(lastWasCr := false);
    pending' := LineMatches(env, p0, c, max, line, pending, tail);
    var o := Line(env, p0, c, line);
    var p' := o.p.(line := o.p.line.Reset(), lastWasCr := ch == CR);
    assert Step(env, p, c, ch) == Out(p', o.ctx, if o.rc == 0 && p'.err != Ok then -1 else o.rc);
  }

  lemma {:induction false} RestAtEol<S>(env: Env<S>, p: Parser, c: S, max: nat, line: seq<Byte>,
                                        pending: Option<seq<Byte>>, s: seq<Byte>)
    requires Holds(p, max, line, pending)
    requires s != [] && IsEol(s[0])
    requires p.lastWasCr ==> s[0] != LF
    ensures Meets(Rest(env, p, c, s), p.appends, env, c,
                  Dispatch(max, [line] + (Lines(s[NextLine(s, 0)..]) + [[]]), pending))
    decreases |s|, 1
  {
    var tail := Lines(s[NextLine(s, 0)..]) + [[]];
    var pending' := EolStepMatches(env, p, c, max, line, pending, s[0], tail);
    var o := Step(env, p, c, s[0]);
    RestStep(env, p, c, s);
    if o.rc == 0 {
      AfterEol(env, o.p, o.ctx, max, pending', s);
      MeetsEarlier(Rest(env, p, c, s), env, p.appends, c, Dispatch(max, [line] + tail, pending),
                   o.p.appends, o.ctx, Dispatch(max, tail, pending'));
    }
  }

  /** Just behind a terminator, whose CR may still claim an LF. */
  lemma {:induction false} AfterEol<S>(env: Env<S>, p: Parser, c: S, max: nat, pending: Option<seq<Byte>>,
                                       s: seq<Byte>)
    requires s != [] && IsEol(s[0])
    requires Holds(p, max, [], pending) && p.lastWasCr == (s[0] == CR)
    ensures Meets(Rest(env, p, c, s[1..]), p.appends, env, c,
                  Dispatch(max, Lines(s[NextLine(s, 0)..]) + [[]], pending))
    decreases |s|, 0
  {
    var k := NextLine(s, 0);
    assert [] + s[k..] == s[k..];
    if k == 2 {
      var p' := p.(lastWasCr := false);
      assert s[1..][0] == LF && s[1..][1..] == s[2..];
      assert Step(env, p, c, LF) == Out(p', c, 0);
      RestStep(env, p, c, s[1..]);
      RestMatches(env, p', c, max, [], pending, s[2..]);
    } else {
      RestMatches(env, p, c, max, [], pending, s[1..]);
    }
  }

  /** The one stream the finish mishandles: under a cap of one byte, a held-back
      two-byte BOM prefix is dropped by the line buffer and nobody promotes that
      error. */
  predicate SilentlyDropped(max: nat, s: seq<Byte>)
  {
    max == 1 && s == BOM[..2]
  }

  /** A parser that holds back `n` bytes of a mark. */
  function Holding(max: nat, n: nat): (p: Parser)
  {
    Init(max).(bomSeen := n)
  }

  /** The byte-order-mark phase, `n` bytes of the mark held back. */
  lemma {:induction false} BomPhaseMatches<S>(env: Env<S>, max: nat, c: S, s: seq<Byte>, n: nat)
    requires !SilentlyDropped(max, s)
    requires n < 3 && n <= |s| && s[..n] == BOM[..n]
    ensures Meets(Rest(env, Holding(max, n), c, s[n..]), 0, env, c, BatchOf(max, s))
    decreases 3 - n
  {
    if n < |s| && s[n] == BOM[n] {
      NextBomByte(env, max, c, s, n);
      if n == 2 {
        WholeBomMatches(env, max, c, s);
      } else {
        BomPhaseMatches(env, max, c, s, n + 1);
      }
    } else {
      assert StripBom(s) == s;
      if n < |s| {
        ReplayMatches(env, c, max, s, n);
      } else {
        HeldAtEndMatches(env, c, max, s);
      }
    }
  }

  lemma {:induction false} NextBomByte<S>(env: Env<S>, max: nat, c: S, s: seq<Byte>, n: nat)
    requires n < 3 && n < |s| && s[..n] == BOM[..n] && s[n] == BOM[n]
    ensures s[..n + 1] == BOM[..n + 1]
    ensures Rest(env, Holding(max, n), c, s[n..])
            == Rest(env, Holding(max, n + 1).(bomDecided := n == 2), c, s[n + 1..])
  {
    assert s[n..][0] == s[n] && s[n..][1..] == s[n + 1..];
    RestStep(env, Holding(max, n), c, s[n..]);
    assert s[..n + 1] == s[..n] + [s[n]];
    assert BOM[..n + 1] == BOM[..n] + [BOM[n]];
  }

  /** A whole mark is stripped. */
  lemma {:induction false} WholeBomMatches<S>(env: Env<S>, max: nat, c: S, s: seq<Byte>)
    requires |s| >= 3 && s[..3] == BOM[..3]
    ensures Meets(Rest(env, Holding(max, 3).(bomDecided := true), c, s[3..]), 0, env, c, BatchOf(max, s))
  {
    assert BOM[..3] == BOM && BOM <= s && [] + s[3..] == s[3..];
    RestMatches(env, Holding(max, 3).(bomDecided := true), c, max, [], None, s[3..]);
  }

  /** A mark that does not complete is payload: its bytes are replayed. */
  lemma {:induction false} ReplayMatches<S>(env: Env<S>, c: S, max: nat, s: seq<Byte>, n: nat)
    requires n < 3 && n < |s| && s[..n] == BOM[..n] && s[n] != BOM[n]
    ensures Meets(Rest(env, Holding(max, n), c, s[n..]), 0, env, c, Dispatch(max, Lines(s) + [[]], None))
  {
    var held, rest := BOM[..n], s[n..];
    assert held + rest == s && rest[0] == s[n] && NoEol(held) && held <= s;
    RestStep(env, Holding(max, n), c, rest);
    ReplayStep(env, c, max, n, s[n]);
    if !Fits(max, held) {
      LongLine(max, held, s, None);
    } else if env.alloc(0) {
      RestStep(env, Replayed(max, n), c, rest);
      RestMatches(env, Replayed(max, n), c, max, held, None, rest);
      var b := Dispatch(max, Lines(s) + [[]], None);
      MeetsEarlier(Rest(env, Holding(max, n), c, rest), env, 0, c, b, 1, c, b);
    } else {
      assert Refused(env, 0, 1);
    }
  }

  /** The parser once the held-back bytes are in its line. */
  function Replayed(max: nat, n: nat): (p: Parser)
    requires n < 3
  {
    Init(max).(line := BufV(BOM[..n], max, Ok), bomDecided := true, appends := 1)
  }

  /** The byte at which a possible mark turns out to be payload. */
  lemma {:induction false} ReplayStep<S>(env: Env<S>, c: S, max: nat, n: nat, ch: Byte)
    requires n < 3 && ch != BOM[n]
    ensures var o := Step(env, Holding(max, n), c, ch);
            if env.alloc(0) && Fits(max, BOM[..n]) then o == Step(env, Replayed(max, n), c, ch)
            else
              && o.ctx == c && o.rc == -1 && o.p.appends == 1
              && o.p.err == if Fits(max, BOM[..n]) then NoMem else TooBig
  {
    assert [] + BOM[..n] == BOM[..n];
  }

  /** A line that is no data line and is not over the cap means nothing. */
  lemma {:induction false} MeaninglessLine(max: nat, line: seq<Byte>)
    requires NoEol(line) && line != [] && DataOf(line) == None && Fits(max, line)
    ensures Dispatch(max, Lines(line) + [[]], None) == Batch([], Ok)
  {
    LinesWithoutEol(line);
    var blank: seq<seq<Byte>> := [[]];
    assert ([line] + blank)[1..] == blank && blank[1..] == [];
    assert Dispatch(max, blank, None) == Batch([], Ok);
  }

  /** A parser that holds nothing but a line without meaning ends cleanly. */
  lemma {:induction false} IdleFinish<S>(env: Env<S>, p: Parser, c: S)
    requires Valid(p) && p.bomDecided && p.err == Ok && !p.haveData
    requires p.line.bytes != [] ==> p.line.err == Ok && !IsDataField(p.line.bytes)
    ensures Observe(Finish(env, p, c)) == Seen(c, 0, Ok)
  {
  }

  /** The stream ends inside a possible mark: whether or not the held-back bytes
      find room, nobody notices. */
  lemma {:induction false} HeldEndsCleanly<S>(env: Env<S>, c: S, max: nat, n: nat)
    requires 1 <= n < 3
    ensures Observe(Rest(env, Holding(max, n), c, [])) == Seen(c, 0, Ok)
  {
    var p := Holding(max, n);
    var q := Decided(env, p);
    assert [] + BOM[..n] == BOM[..n];
    assert q.line.bytes == [] || (q.line.bytes == BOM[..n] && q.line.err == Ok);
    assert !IsDataField(BOM[..n]);
    IdleFinish(env, q, c);
    assert Finish(env, p, c) == Finish(env, q, c);
  }

  lemma {:induction false} HeldAtEndMatches<S>(env: Env<S>, c: S, max: nat, s: seq<Byte>)
    requires !SilentlyDropped(max, s)
    requires |s| < 3 && s == BOM[..|s|]
    ensures Meets(Rest(env, Holding(max, |s|), c, []), 0, env, c, Dispatch(max, Lines(s) + [[]], None))
  {
    assert NoEol(s);
    if s == [] {
      LinesWithoutEol(s);
      BlankAtEnd(env, Init(max).(bomDecided := true), c, max, None);
      assert Finish(env, Init(max), c) == Finish(env, Init(max).(bomDecided := true), c);
    } else {
      FieldMatches(s);
      assert |s| < 4;
      MeaninglessLine(max, s);
      HeldEndsCleanly(env, c, max, |s|);
    }
  }

  /** A stream that is a proper prefix of the mark is reported clean under every cap
      and allocator: a failed append of its bytes is never promoted. */
  lemma {:induction false} HeldPrefixUnreported<S>(env: Env<S>, max: nat, c: S, n: nat)
    requires 1 <= n < 3
    ensures Observe(Rest(env, Init(max), c, BOM[..n])) == Seen(c, 0, Ok)
  {
    var s := BOM[..n];
    NextBomByte(env, max, c, s, 0);
    assert s[0..] == s;
    if n == 2 {
      NextBomByte(env, max, c, s, 1);
    }
    HeldEndsCleanly(env, c, max, n);
  }

  /** The exceptional stream is reported as a clean, empty one. */
  lemma {:induction false} TwoHeldBytesDropped<S>(env: Env<S>, c: S)
    ensures Observe(Rest(env, Init(1), c, BOM[..2])) == Seen(c, 0, Ok)
  {
    HeldPrefixUnreported(env, 1, c, 2);
  }

  /** Refinement: for every cap, stream, partition, callback and allocator, what the
      caller of the incremental parser observes is the batch meaning of the whole
      stream, or that of a stream cut short by a refused allocation — except for
      the one stream above. */
  lemma {:induction false} StreamRefinesBatch<S>(env: Env<S>, max: nat, c: S, parts: seq<seq<Byte>>)
    ensures !SilentlyDropped(max, Concat(parts)) ==>
              Meets(Stream(env, max, c, parts), 0, env, c, BatchOf(max, Concat(parts)))
    ensures SilentlyDropped(max, Concat(parts)) ==>
              && Observe(Stream(env, max, c, parts)) == Seen(c, 0, Ok)
              && Expect(env, c, BatchOf(max, Concat(parts))) == Seen(c, -1, TooBig)
  {
    var s := Concat(parts);
    PartitionIndependence(env, Init(max), c, parts);
    assert Stream(env, max, c, parts) == Rest(env, Init(max), c, s);
    assert Holding(max, 0) == Init(max) && s[0..] == s;
    if SilentlyDropped(max, s) {
      TwoHeldBytesDropped(env, c);
      LinesWithoutEol(s);
    } else {
      BomPhaseMatches(env, max, c, s, 0);
    }
  }

  /** A stream reported as clean is the batch meaning, whatever the allocator did;
      and so is every stream when no allocation is refused.  Both hold exactly off
      the exceptional stream.  And NOMEM is only reported when one of the appends the
      stream made was refused. */
  lemma {:induction false} CleanIsExact<S>(env: Env<S>, max: nat, c: S, parts: seq<seq<Byte>>)
    ensures var seen := Observe(Stream(env, max, c, parts));
            var want := Expect(env, c, BatchOf(max, Concat(parts)));
            && ((seen.rc == 0 && seen.err == Ok) || AllGranted(env) ==>
                  (seen == want <==> !SilentlyDropped(max, Concat(parts))))
            && (seen.err == NoMem ==> Refused(env, 0, Stream(env, max, c, parts).p.appends))
  {
    StreamRefinesBatch(env, max, c, parts);
    BatchNeverStarves(max, Lines(StripBom(Concat(parts))) + [[]], None);
  }

  lemma {:induction false} BatchNeverStarves(max: nat, lines: seq<seq<Byte>>, pending: Option<seq<Byte>>)
    ensures Dispatch(max, lines, pending).status in {Ok, TooBig}
    decreases |lines|
  {
    if lines != [] && Fits(max, lines[0]) {
      BatchNeverStarves(max, lines[1..], None);
      BatchNeverStarves(max, lines[1..], pending);
      if DataOf(lines[0]).Some? {
        BatchNeverStarves(max, lines[1..], Some(Joined(pending, DataOf(lines[0]).value)));
      }
    }
  }

  /** No dispatched event exceeds a nonzero cap. */
  lemma {:induction false} EventsFit(max: nat, lines: seq<seq<Byte>>, pending: Option<seq<Byte>>)
    requires pending.Some? ==> Fits(max, pending.value)
    ensures forall e :: e in Dispatch(max, lines, pending).events ==> Fits(max, e)
    decreases |lines|
  {
    if lines != [] && Fits(max, lines[0]) {
      if lines[0] == [] {
        EventsFit(max, lines[1..], None);
      } else if DataOf(lines[0]).Some? {
        var d := Joined(pending, DataOf(lines[0]).value);
        if Fits(max, d) {
          EventsFit(max, lines[1..], Some(d));
        }
      } else {
        EventsFit(max, lines[1..], pending);
      }
    }
  }
}
