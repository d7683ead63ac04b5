/** Printing an event stream, and the round trip through the parser. */
module SsePrint {
  import opened Bytes
  import opened Sse
  import opened SseReference

  datatype Eol = Lf | Cr | CrLf

  /** One printed line and the terminator chosen for it. */
  datatype Item = Item(text: seq<Byte>, eol: Eol)

  function EolBytes(e: Eol): (r: seq<Byte>)
  {
    match e
    case Lf => [LF]
    case Cr => [CR]
    case CrLf => [CR, LF]
  }

  function Print(items: seq<Item>): (r: seq<Byte>)
  {
    if items == [] then [] else items[0].text + EolBytes(items[0].eol) + Print(items[1..])
  }

  function Texts(items: seq<Item>): (r: seq<seq<Byte>>)
    ensures |r| == |items| && forall i :: 0 <= i < |r| ==> r[i] == items[i].text
  {
    if items == [] then [] else [items[0].text] + Texts(items[1..])
  }

  /** A bare CR directly followed by an empty LF-terminated line would read as one
      CRLF; any other mix of terminators is unambiguous. */
  predicate Unambiguous(items: seq<Item>)
  {
    items == [] ||
    (&& NoEol(items[0].text)
     && (|items| > 1 && items[0].eol == Cr && items[1].text == [] ==> items[1].eol != Lf)
     && Unambiguous(items[1..]))
  }

  lemma {:induction false} EolIsConsumed(e: Eol, rest: seq<Byte>)
    requires e == Cr ==> rest == [] || rest[0] != LF
    ensures var s := EolBytes(e) + rest;
            IsEol(s[0]) && s[NextLine(s, 0)..] == rest
  {
    var s := EolBytes(e) + rest;
    assert |s| > 1 && e != CrLf ==> s[1] == rest[0];
  }

  lemma {:induction false} NoLfAfterCr(items: seq<Item>)
    requires Unambiguous(items) && |items| > 1 && items[0].eol == Cr
    ensures Print(items[1..]) != [] && Print(items[1..])[0] != LF
  {
    var next := items[1];
    var tail := EolBytes(next.eol) + Print(items[1..][1..]);
    assert items[1..][0] == next;
    assert Print(items[1..]) == next.text + tail;
    assert tail[0] == EolBytes(next.eol)[0];
    if next.text != [] {
      assert Print(items[1..])[0] == next.text[0];
    }
  }

  lemma {:induction false} LinesOfFirst(item: Item, rest: seq<Byte>)
    requires NoEol(item.text) && (item.eol == Cr ==> rest == [] || rest[0] != LF)
    ensures Lines(item.text + EolBytes(item.eol) + rest) == [item.text] + Lines(rest)
  {
    var s := EolBytes(item.eol) + rest;
    assert item.text + EolBytes(item.eol) + rest == item.text + s;
    EolIsConsumed(item.eol, rest);
    LinesAtEol(item.text, s);
  }

  lemma {:induction false} LinesOfPrint(items: seq<Item>)
    requires Unambiguous(items)
    ensures Lines(Print(items)) == Texts(items) + [[]]
  {
    if items == [] {
      LinesWithoutEol([]);
    } else {
      var rest := Print(items[1..]);
      if |items| > 1 && items[0].eol == Cr {
        NoLfAfterCr(items);
      }
      LinesOfFirst(items[0], rest);
      LinesOfPrint(items[1..]);
      assert [items[0].text] + (Texts(items[1..]) + [[]]) == Texts(items) + [[]];
    }
  }

  /** A comment or a field other than data. */
  predicate IsNoise(line: seq<Byte>)
  {
    line != [] && line != DATA && !(DATA + [COLON] <= line)
  }

  function Denoise(lines: seq<seq<Byte>>): (r: seq<seq<Byte>>)
  {
    if lines == [] then []
    else if IsNoise(lines[0]) then Denoise(lines[1..])
    else [lines[0]] + Denoise(lines[1..])
  }

  function SplitLf(s: seq<Byte>): (r: seq<seq<Byte>>)
    ensures |r| > 0
  {
    if s == [] then [[]]
    else
      var r := SplitLf(s[1..]);
      if s[0] == LF then [[]] + r else [[s[0]] + r[0]] + r[1..]
  }

  function DataLine(v: seq<Byte>): (r: seq<Byte>)
    ensures r != []
  {
    DATA + [COLON, SPACE] + v
  }

  function DataLines(segments: seq<seq<Byte>>): (r: seq<seq<Byte>>)
    ensures |r| == |segments|
  {
    if segments == [] then [] else [DataLine(segments[0])] + DataLines(segments[1..])
  }

  /** The data lines of one payload and the blank line that dispatches it. */
  function EventLines(payload: seq<Byte>): (r: seq<seq<Byte>>)
  {
    DataLines(SplitLf(payload)) + [[]]
  }

  function Script(payloads: seq<seq<Byte>>): (r: seq<seq<Byte>>)
  {
    if payloads == [] then [] else EventLines(payloads[0]) + Script(payloads[1..])
  }

  function JoinAll(pending: Option<seq<Byte>>, segments: seq<seq<Byte>>): (r: Option<seq<Byte>>)
    decreases |segments|
  {
    if segments == [] then pending else JoinAll(Some(Joined(pending, segments[0])), segments[1..])
  }

  /** The lines that spell a data value: "data: v", "data:v" unless v begins with a
      space, and "data" for the empty value. */
  predicate Spells(line: seq<Byte>, v: seq<Byte>)
  {
    || line == DataLine(v)
    || (line == DATA + [COLON] + v && (v == [] || v[0] != SPACE))
    || (line == DATA && v == [])
  }

  /** Lines that spell the segments of a payload, one by one. */
  predicate SpellAll(lines: seq<seq<Byte>>, segments: seq<seq<Byte>>)
  {
    |lines| == |segments| && forall i :: 0 <= i < |lines| ==> Spells(lines[i], segments[i])
  }

  /** Lines that spell the payloads, a blank line behind each. */
  predicate SpellScript(lines: seq<seq<Byte>>, payloads: seq<seq<Byte>>)
    decreases |payloads|
  {
    if payloads == [] then lines == []
    else
      var n := |SplitLf(payloads[0])|;
      && n < |lines| && SpellAll(lines[..n], SplitLf(payloads[0])) && lines[n] == []
      && SpellScript(lines[n + 1..], payloads[1..])
  }

  lemma {:induction false} SpelledValue(line: seq<Byte>, v: seq<Byte>)
    requires Spells(line, v)
    ensures line != [] && DataOf(line) == Some(v)
  {
    if line == DataLine(v) {
      assert DATA + [COLON] <= line && line[5] == SPACE && line[6..] == v;
    } else if line != DATA {
      assert line[5..] == v && (v != [] ==> line[5] == v[0]);
    }
  }

  lemma {:induction false} DispatchDataLines(lines: seq<seq<Byte>>, segments: seq<seq<Byte>>, rest: seq<seq<Byte>>,
                                             pending: Option<seq<Byte>>)
    requires SpellAll(lines, segments)
    ensures Dispatch(0, lines + rest, pending) == Dispatch(0, rest, JoinAll(pending, segments))
    decreases |segments|
  {
    if segments == [] {
      assert lines + rest == rest;
    } else {
      var all := lines + rest;
      assert all[0] == lines[0] && all[1..] == lines[1..] + rest;
      SpelledValue(lines[0], segments[0]);
      DispatchDataLines(lines[1..], segments[1..], rest, Some(Joined(pending, segments[0])));
    }
  }

  lemma {:induction false} JoinAllPrefix(head: seq<Byte>, segments: seq<seq<Byte>>)
    requires |segments| > 0
    ensures JoinAll(Some(head), segments).Some?
    ensures JoinAll(None, segments).Some?
    ensures JoinAll(Some(head), segments).value == head + [LF] + JoinAll(None, segments).value
    decreases |segments|
  {
    if |segments| > 1 {
      var tail := segments[1..];
      JoinAllPrefix(head + [LF] + segments[0], tail);
      JoinAllPrefix(segments[0], tail);
      var v := JoinAll(None, tail).value;
      assert (head + [LF] + segments[0]) + [LF] + v == head + [LF] + (segments[0] + [LF] + v);
    }
  }

  lemma {:induction false} JoinAfterFirst(x: seq<Byte>, segments: seq<seq<Byte>>)
    requires |segments| > 0
    ensures JoinAll(None, segments).Some? && JoinAll(None, [x + segments[0]] + segments[1..]).Some?
    ensures JoinAll(None, [x + segments[0]] + segments[1..]).value == x + JoinAll(None, segments).value
  {
    var tail := segments[1..];
    assert ([x + segments[0]] + tail)[1..] == tail;
    if tail != [] {
      JoinAllPrefix(x + segments[0], tail);
      JoinAllPrefix(segments[0], tail);
      var v := JoinAll(None, tail).value;
      assert (x + segments[0]) + [LF] + v == x + (segments[0] + [LF] + v);
    }
  }

  lemma {:induction false} JoinInvertsSplit(s: seq<Byte>)
    ensures JoinAll(None, SplitLf(s)) == Some(s)
  {
    if s != [] {
      var r := SplitLf(s[1..]);
      JoinInvertsSplit(s[1..]);
      if s[0] == LF {
        assert ([[]] + r)[1..] == r;
        JoinAllPrefix([], r);
        assert [] + [LF] + s[1..] == s;
      } else {
        JoinAfterFirst([s[0]], r);
        assert [s[0]] + s[1..] == s;
      }
    }
  }

  lemma {:induction false} DispatchEvent(lines: seq<seq<Byte>>, payload: seq<Byte>, more: seq<seq<Byte>>)
    requires SpellAll(lines, SplitLf(payload))
    ensures Dispatch(0, lines + ([[]] + more), None)
            == Batch([payload] + Dispatch(0, more, None).events, Dispatch(0, more, None).status)
  {
    DispatchDataLines(lines, SplitLf(payload), [[]] + more, None);
    JoinInvertsSplit(payload);
    assert ([[]] + more)[1..] == more;
  }

  lemma {:induction false} DispatchScript(lines: seq<seq<Byte>>, payloads: seq<seq<Byte>>, rest: seq<seq<Byte>>)
    requires SpellScript(lines, payloads)
    ensures Dispatch(0, lines + rest, None)
            == Batch(payloads + Dispatch(0, rest, None).events, Dispatch(0, rest, None).status)
    decreases |payloads|
  {
    if payloads == [] {
      assert lines + rest == rest;
      assert payloads + Dispatch(0, rest, None).events == Dispatch(0, rest, None).events;
    } else {
      var more := FirstEventDispatched(lines, payloads, rest);
      DispatchScript(more, payloads[1..], rest);
      FrontEvent(payloads, Dispatch(0, rest, None).events);
    }
  }

  lemma {:induction false} FrontEvent(payloads: seq<seq<Byte>>, events: seq<seq<Byte>>)
    requires payloads != []
    ensures [payloads[0]] + (payloads[1..] + events) == payloads + events
  {
  }

  /** The first event of a spelled script, and the script of the others. */
  lemma {:induction false} FirstEventDispatched(lines: seq<seq<Byte>>, payloads: seq<seq<Byte>>, rest: seq<seq<Byte>>)
    returns (more: seq<seq<Byte>>)
    requires payloads != [] && SpellScript(lines, payloads)
    ensures SpellScript(more, payloads[1..])
    ensures Dispatch(0, lines + rest, None)
            == Batch([payloads[0]] + Dispatch(0, more + rest, None).events, Dispatch(0, more + rest, None).status)
  {
    var n := |SplitLf(payloads[0])|;
    more := lines[n + 1..];
    FirstEvent(lines, n, rest);
    DispatchEvent(lines[..n], payloads[0], more + rest);
  }

  lemma {:induction false} FirstEvent(lines: seq<seq<Byte>>, n: nat, rest: seq<seq<Byte>>)
    requires n < |lines| && lines[n] == []
    ensures lines + rest == lines[..n] + ([[]] + (lines[n + 1..] + rest))
  {
  }

  /** The plain script is one spelling. */
  lemma {:induction false} ScriptSpells(payloads: seq<seq<Byte>>)
    ensures SpellScript(Script(payloads), payloads)
  {
    if payloads != [] {
      var lines, segments := Script(payloads), SplitLf(payloads[0]);
      var n := |segments|;
      assert lines[..n] == DataLines(segments) && lines[n + 1..] == Script(payloads[1..]);
      DataLinesSpell(segments);
      ScriptSpells(payloads[1..]);
    }
  }

  lemma {:induction false} DataLinesSpell(segments: seq<seq<Byte>>)
    ensures SpellAll(DataLines(segments), segments)
  {
    if segments != [] {
      DataLinesSpell(segments[1..]);
    }
  }

  /** The event pending behind a line. */
  function Behind(line: seq<Byte>, pending: Option<seq<Byte>>): (r: Option<seq<Byte>>)
  {
    if line == [] then None
    else if DataOf(line).Some? then Some(Joined(pending, DataOf(line).value))
    else pending
  }

  lemma {:induction false} SameLine(line: seq<Byte>, a: seq<seq<Byte>>, b: seq<seq<Byte>>, pending: Option<seq<Byte>>)
    requires Dispatch(0, a, Behind(line, pending)) == Dispatch(0, b, Behind(line, pending))
    ensures Dispatch(0, [line] + a, pending) == Dispatch(0, [line] + b, pending)
  {
    assert ([line] + a)[1..] == a && ([line] + b)[1..] == b;
  }

  lemma {:induction false} NoiseMeansNothing(line: seq<Byte>, a: seq<seq<Byte>>, pending: Option<seq<Byte>>)
    requires IsNoise(line)
    ensures Behind(line, pending) == pending && Dispatch(0, [line] + a, pending) == Dispatch(0, a, pending)
  {
    assert ([line] + a)[1..] == a;
  }

  lemma {:induction false} DispatchIgnoresNoise(lines: seq<seq<Byte>>, rest: seq<seq<Byte>>, pending: Option<seq<Byte>>)
    ensures Dispatch(0, lines + rest, pending) == Dispatch(0, Denoise(lines) + rest, pending)
    decreases |lines|
  {
    if lines == [] {
      assert lines + rest == rest;
    } else {
      var l, more := lines[0], lines[1..] + rest;
      assert lines + rest == [l] + more;
      DispatchIgnoresNoise(lines[1..], rest, Behind(l, pending));
      if IsNoise(l) {
        NoiseMeansNothing(l, more, pending);
      } else {
        SameLine(l, more, Denoise(lines[1..]) + rest, pending);
        assert Denoise(lines) + rest == [l] + (Denoise(lines[1..]) + rest);
      }
    }
  }

  lemma {:induction false} PrintedBatch(payloads: seq<seq<Byte>>, items: seq<Item>)
    requires Unambiguous(items) && SpellScript(Denoise(Texts(items)), payloads)
    ensures Dispatch(0, Lines(Print(items)) + [[]], None) == Batch(payloads, Ok)
  {
    LinesOfPrint(items);
    var blanks: seq<seq<Byte>> := [[], []];
    assert Texts(items) + [[]] + [[]] == Texts(items) + blanks;
    DispatchIgnoresNoise(Texts(items), blanks, None);
    DispatchScript(Denoise(Texts(items)), payloads, blanks);
    assert Dispatch(0, blanks, None) == Batch([], Ok) by {
      assert blanks[1..] == [[]];
      assert Dispatch(0, blanks[1..], None) == Batch([], Ok);
    }
    assert payloads + [] == payloads;
  }

  /** Round trip: payloads printed as data lines, in any mix of their spellings, with a
      blank line after each, under any unambiguous mix of terminators, with comments and other fields
      anywhere in between and an optional byte-order mark, come back exactly —
      for every partition into feeds and every callback; with a refused allocation
      the first of them do. */
  lemma {:induction false} RoundTrip<S>(env: Env<S>, c: S, payloads: seq<seq<Byte>>, items: seq<Item>, bom: bool,
                                        parts: seq<seq<Byte>>)
    requires Unambiguous(items) && SpellScript(Denoise(Texts(items)), payloads)
    requires bom || !(BOM <= Print(items))
    requires Concat(parts) == (if bom then BOM else []) + Print(items)
    ensures Meets(Stream(env, 0, c, parts), 0, env, c, Batch(payloads, Ok))
    ensures AllGranted(env) ==>
              var (c', rc) := Deliver(env.onEvent, c, payloads);
              Observe(Stream(env, 0, c, parts)) == Seen(c', rc, Ok)
  {
    StreamRefinesBatch(env, 0, c, parts);
    assert StripBom(Concat(parts)) == Print(items);
    PrintedBatch(payloads, items);
  }

  /** The plainest printing: LF everywhere, nothing in between. */
  function Plain(lines: seq<seq<Byte>>): (r: seq<Item>)
    ensures |r| == |lines| && forall i :: 0 <= i < |r| ==> r[i] == Item(lines[i], Lf)
  {
    if lines == [] then [] else [Item(lines[0], Lf)] + Plain(lines[1..])
  }

  predicate CrFree(s: seq<Byte>)
  {
    forall i :: 0 <= i < |s| ==> s[i] != CR
  }

  lemma {:induction false} SegmentsHaveNoEol(s: seq<Byte>)
    requires CrFree(s)
    ensures forall i :: 0 <= i < |SplitLf(s)| ==> NoEol(SplitLf(s)[i])
  {
    if s != [] {
      assert CrFree(s[1..]);
      SegmentsHaveNoEol(s[1..]);
    }
  }

  lemma {:induction false} DataLinesAreClean(segments: seq<seq<Byte>>)
    requires forall i :: 0 <= i < |segments| ==> NoEol(segments[i])
    ensures forall i :: 0 <= i < |segments| ==> NoEol(DataLines(segments)[i]) && !IsNoise(DataLines(segments)[i])
  {
    if segments != [] {
      var line := DataLine(segments[0]);
      assert forall i :: 6 <= i < |line| ==> line[i] == segments[0][i - 6];
      assert NoEol(line);
      DataLinesAreClean(segments[1..]);
    }
  }

  lemma {:induction false} ScriptIsClean(payloads: seq<seq<Byte>>)
    requires forall i :: 0 <= i < |payloads| ==> CrFree(payloads[i])
    ensures forall i :: 0 <= i < |Script(payloads)| ==> NoEol(Script(payloads)[i]) && !IsNoise(Script(payloads)[i])
  {
    if payloads != [] {
      SegmentsHaveNoEol(payloads[0]);
      DataLinesAreClean(SplitLf(payloads[0]));
      ScriptIsClean(payloads[1..]);
    }
  }

  lemma {:induction false} DenoiseClean(lines: seq<seq<Byte>>)
    requires forall i :: 0 <= i < |lines| ==> !IsNoise(lines[i])
    ensures Denoise(lines) == lines
  {
    if lines != [] {
      DenoiseClean(lines[1..]);
    }
  }

  lemma {:induction false} PlainIsUnambiguous(lines: seq<seq<Byte>>)
    requires forall i :: 0 <= i < |lines| ==> NoEol(lines[i])
    ensures Unambiguous(Plain(lines))
  {
    if lines != [] {
      PlainIsUnambiguous(lines[1..]);
      assert Plain(lines)[1..] == Plain(lines[1..]);
    }
  }

  /** The plain printing of CR-free payloads. */
  function PlainText(payloads: seq<seq<Byte>>): (r: seq<Byte>)
  {
    Print(Plain(Script(payloads)))
  }

  lemma {:induction false} PlainPrints(payloads: seq<seq<Byte>>)
    requires forall i :: 0 <= i < |payloads| ==> CrFree(payloads[i])
    ensures var items := Plain(Script(payloads));
            Unambiguous(items) && Denoise(Texts(items)) == Script(payloads) && !(BOM <= Print(items))
  {
    var lines := Script(payloads);
    var items := Plain(lines);
    ScriptIsClean(payloads);
    DenoiseClean(lines);
    PlainIsUnambiguous(lines);
    assert Texts(items) == lines;
    BeginsWithData(payloads);
  }

  lemma {:induction false} BeginsWithData(payloads: seq<seq<Byte>>)
    ensures !(BOM <= PlainText(payloads))
  {
    if payloads != [] {
      var lines := Script(payloads);
      var segments := SplitLf(payloads[0]);
      assert lines[0] == DataLine(segments[0]);
      assert PlainText(payloads)[0] == 0x64;
    }
  }

  lemma {:induction false} PlainBatch(payloads: seq<seq<Byte>>)
    requires forall i :: 0 <= i < |payloads| ==> CrFree(payloads[i])
    ensures BatchOf(0, PlainText(payloads)) == Batch(payloads, Ok)
  {
    PlainPrints(payloads);
    ScriptSpells(payloads);
    PrintedBatch(payloads, Plain(Script(payloads)));
  }

  /** Every list of CR-free payloads has a printing the round trip covers. */
  lemma {:induction false} PlainRoundTrip<S>(env: Env<S>, c: S, payloads: seq<seq<Byte>>, parts: seq<seq<Byte>>)
    requires forall i :: 0 <= i < |payloads| ==> CrFree(payloads[i])
    requires Concat(parts) == PlainText(payloads)
    ensures Meets(Stream(env, 0, c, parts), 0, env, c, Batch(payloads, Ok))
    ensures AllGranted(env) ==>
              var (c', rc) := Deliver(env.onEvent, c, payloads);
              Observe(Stream(env, 0, c, parts)) == Seen(c', rc, Ok)
  {
    PlainPrints(payloads);
    ScriptSpells(payloads);
    assert [] + PlainText(payloads) == PlainText(payloads);
    RoundTrip(env, c, payloads, Plain(Script(payloads)), false, parts);
  }
}
