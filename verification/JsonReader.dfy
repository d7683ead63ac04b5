/** The in-place JSON string reader of src/yyjson.c: it skips what needs no change,
    then unescapes over its own input, the write cursor never ahead of the read
    cursor.  The mechanics do not depend on what one character looks like, so they
    are stated for any sane reader of one character. */
module JsonReader {
  import opened Bytes
  import opened JsonString

  type Unit = seq<Byte> -> Found

  /** A character is no longer than its encoding, which lies in the buffer, and
      without an escape it stands for itself. */
  ghost predicate Sane(unit: Unit)
  {
    forall s ::
      && (unit(s).Found? ==> 1 <= |unit(s).out| <= unit(s).n <= |s|)
      && (IsPlain(unit(s)) ==> unit(s).out == s[..unit(s).n])
      && (unit(s) == Close ==> s != [])
  }

  predicate IsPlain(f: Found)
  {
    f.Found? && !f.escaped
  }

  /** The reading of a text character by character. */
  ghost function ReadWith(unit: Unit, s: seq<Byte>): (r: Read)
    requires Sane(unit)
    decreases |s|
  {
    var f := unit(s);
    match f
    case Bad => ReadErr
    case Close => ReadOk([], 1, true)
    case Found(_, n, _) => Prepend(f, ReadWith(unit, s[n..]))
  }

  /** The reading of a buffer whose first `n` bytes gave `pre`. */
  function After(pre: seq<Byte>, n: nat, plain: bool, r: Read): (r': Read)
  {
    if r == ReadErr then ReadErr else ReadOk(pre + r.bytes, n + r.n, plain && r.noEsc)
  }

  lemma {:induction false} AfterStep(unit: Unit, pre: seq<Byte>, n: nat, plain: bool, s: seq<Byte>)
    requires Sane(unit) && unit(s).Found?
    ensures var f := unit(s);
            After(pre, n, plain, ReadWith(unit, s))
            == After(pre + f.out, n + f.n, plain && !f.escaped, ReadWith(unit, s[f.n..]))
  {
    var f := unit(s);
    var r := ReadWith(unit, s[f.n..]);
    if r.ReadOk? {
      assert pre + (f.out + r.bytes) == pre + f.out + r.bytes;
    }
  }

  /** The skipping phase: nothing moves. */
  method Skip(unit: Unit, a: array<Byte>, hdr: nat) returns (src: nat)
    requires Sane(unit) && hdr <= a.Length
    ensures hdr <= src <= a.Length && !IsPlain(unit(a[src..]))
    ensures ReadWith(unit, a[hdr..]) == After(a[hdr..src], src - hdr, true, ReadWith(unit, a[src..]))
  {
    src := hdr;
    assert a[hdr..src] == [];
    var f := unit(a[src..]);
    while IsPlain(f)
      invariant hdr <= src <= a.Length && f == unit(a[src..])
      invariant ReadWith(unit, a[hdr..]) == After(a[hdr..src], src - hdr, true, ReadWith(unit, a[src..]))
      decreases a.Length - src
    {
      AfterStep(unit, a[hdr..src], src - hdr, true, a[src..]);
      assert a[src..][f.n..] == a[src + f.n..];
      assert a[hdr..src] + a[src..][..f.n] == a[hdr..src + f.n];
      src := src + f.n;
      f := unit(a[src..]);
    }
  }

  /** Moves one character, read as `out` from `n` bytes at `src`, to the write
      cursor. */
  method Store(a: array<Byte>, hdr: nat, dst: nat, src: nat, out: seq<Byte>, n: nat)
    requires hdr <= dst <= src && |out| <= n && src + n <= a.Length
    modifies a
    ensures a[hdr..dst + |out|] == old(a[hdr..dst]) + out
    ensures a[src + n..] == old(a[src..])[n..]
  {
    forall i | 0 <= i < |out| {
      a[dst + i] := out[i];
    }
  }

  /** Unescapes the character at the read cursor; `goal` is the reading of the whole
      string. */
  method CopyUnit(unit: Unit, a: array<Byte>, hdr: nat, dst: nat, src: nat, plain: bool, ghost goal: Read)
    returns (dst': nat, src': nat, plain': bool)
    requires Sane(unit) && hdr <= dst <= src <= a.Length && unit(a[src..]).Found?
    requires goal == After(a[hdr..dst], src - hdr, plain, ReadWith(unit, a[src..]))
    modifies a
    ensures hdr <= dst' <= src' <= a.Length && src < src'
    ensures goal == After(a[hdr..dst'], src' - hdr, plain', ReadWith(unit, a[src'..]))
  {
    var f := unit(a[src..]);
    ghost var pre, s := a[hdr..dst], a[src..];
    AfterStep(unit, pre, src - hdr, plain, s);
    dst', src', plain' := dst + |f.out|, src + f.n, plain && !f.escaped;
    Store(a, hdr, dst, src, f.out, f.n);
    assert a[hdr..dst'] == pre + f.out && a[src'..] == s[f.n..];
  }

  /** The copying phase, from `from`: the text before it is already in place. */
  method Copy(unit: Unit, a: array<Byte>, hdr: nat, from: nat) returns (ok: bool, src: nat, dst: nat, plain: bool)
    requires Sane(unit) && hdr <= from <= a.Length
    modifies a
    ensures hdr <= dst <= src <= a.Length
    ensures ok ==> src < a.Length
    ensures var r := After(old(a[hdr..from]), from - hdr, true, ReadWith(unit, old(a[from..])));
            if ok then r == ReadOk(a[hdr..dst], src - hdr + 1, plain) else r == ReadErr
  {
    ok, src, dst, plain := false, from, from, true;
    ghost var goal := After(a[hdr..from], from - hdr, true, ReadWith(unit, a[from..]));
    var f := unit(a[src..]);
    while f.Found?
      invariant hdr <= dst <= src <= a.Length && f == unit(a[src..])
      invariant goal == After(a[hdr..dst], src - hdr, plain, ReadWith(unit, a[src..]))
      decreases a.Length - src
    {
      dst, src, plain := CopyUnit(unit, a, hdr, dst, src, plain, goal);
      f := unit(a[src..]);
    }
    if f == Close {
      ok := true;
      assert a[hdr..dst] + [] == a[hdr..dst];
    }
  }

  /** Both phases and the terminating NUL. */
  method Decode(unit: Unit, a: array<Byte>, hdr: nat) returns (ok: bool, end: nat, len: nat, noEsc: bool)
    requires Sane(unit) && hdr <= a.Length
    modifies a
    ensures var r := ReadWith(unit, old(a[hdr..]));
            && ok == r.ReadOk?
            && (ok ==>
                  && hdr + len < end <= a.Length
                  && r == ReadOk(a[hdr..hdr + len], end - hdr, noEsc)
                  && a[hdr + len] == 0)
  {
    ok, end, len, noEsc := false, hdr, 0, false;
    var from := Skip(unit, a, hdr);
    var src, dst: nat;
    ok, src, dst, noEsc := Copy(unit, a, hdr, from);
    if ok {
      ghost var text := a[hdr..dst];
      a[dst] := 0;
      assert a[hdr..dst] == text;
      end, len := src + 1, dst - hdr;
    }
  }

  // ----- JSON strings -----

  lemma {:induction false} PlainIsVerbatim(s: seq<Byte>)
    requires IsPlain(ReadUnit(s))
    ensures ReadUnit(s).out == s[..ReadUnit(s).n]
  {
  }

  lemma {:induction false} JsonIsSane()
    ensures Sane(ReadUnit)
  {
    forall s: seq<Byte> | IsPlain(ReadUnit(s))
      ensures ReadUnit(s).out == s[..ReadUnit(s).n]
    {
      PlainIsVerbatim(s);
    }
  }

  lemma {:induction false} ReadsJson(s: seq<Byte>)
    requires Sane(ReadUnit)
    ensures ReadWith(ReadUnit, s) == ReadFrom(s)
    decreases |s|
  {
    var f := ReadUnit(s);
    if f.Found? {
      ReadsJson(s[f.n..]);
    }
  }

  /** read_str: on success the decoded bytes stand at `hdr`, NUL-terminated. */
  method ReadStr(a: array<Byte>, hdr: nat) returns (ok: bool, end: nat, len: nat, noEsc: bool)
    requires hdr <= a.Length
    modifies a
    ensures var r := ReadFrom(old(a[hdr..]));
            && ok == r.ReadOk?
            && (ok ==>
                  && hdr + len < end <= a.Length
                  && r == ReadOk(a[hdr..hdr + len], end - hdr, noEsc)
                  && a[hdr + len] == 0)
  {
    JsonIsSane();
    ReadsJson(a[hdr..]);
    ok, end, len, noEsc := Decode(ReadUnit, a, hdr);
  }
}
