/** The growable byte buffer of src/buf.c: a value-level specification
    (`BufV`) and the in-place buffer (`ByteBuf`) that refines it. */
module Buf {
  import opened Bytes

  /** What a caller of the buffer can observe: its bytes, its cap (0 = none) and
      its sticky error. */
  datatype BufV = BufV(bytes: seq<Byte>, max: nat, err: Status) {

    /** Appending `xs`: the cap is tested first, then memory is asked for, if need
        be; `room` is the answer.  A failing append changes nothing but the sticky
        error. */
    function Append(xs: seq<Byte>, room: bool): (r: BufV)
      ensures r.max == max
      ensures err != Ok ==> r == this
      ensures r.bytes == if r.err == Ok then bytes + xs else bytes
    {
      if err != Ok then this
      else if max != 0 && |bytes| + |xs| > max then this.(err := TooBig)
      else if !room then this.(err := NoMem)
      else this.(bytes := bytes + xs)
    }

    /** Length back to zero; the sticky error stays. */
    function Reset(): (r: BufV)
    {
      this.(bytes := [])
    }
  }

  function Empty(max: nat): (r: BufV)
  {
    BufV([], max, Ok)
  }

  /** One call on a buffer, with the allocator's answer for that call. */
  datatype Op = OpAppend(xs: seq<Byte>, room: bool) | OpReset | OpTake(room: bool)

  /** What a caller receives from a take: the detached bytes, or nothing. */
  function TakeSpec(b: BufV, room: bool): (r: (Option<seq<Byte>>, BufV))
  {
    if b.err != Ok then (None, Empty(b.max))
    else if !room then (None, b.(err := NoMem))
    else (Some(b.bytes), Empty(b.max))
  }

  function Apply(b: BufV, op: Op): (r: BufV)
  {
    match op
    case OpAppend(xs, room) => b.Append(xs, room)
    case OpReset => b.Reset()
    case OpTake(room) => TakeSpec(b, room).1
  }

  function Run(b: BufV, ops: seq<Op>): (r: BufV)
    decreases |ops|
  {
    if ops == [] then b else Run(Apply(b, ops[0]), ops[1..])
  }

  /** The simple sequence model: no cap, no error, no allocator. */
  function Ideal(bytes: seq<Byte>, ops: seq<Op>): (r: seq<Byte>)
    decreases |ops|
  {
    if ops == [] then bytes
    else match ops[0]
      case OpAppend(xs, _) => Ideal(bytes + xs, ops[1..])
      case OpReset => Ideal([], ops[1..])
      case OpTake(_) => Ideal([], ops[1..])
  }

  /** The call at which the buffer first fails, or |ops|: over the cap or out
      of memory, said of the ideal contents only. */
  function FirstFailure(max: nat, bytes: seq<Byte>, ops: seq<Op>): (n: nat)
    ensures n <= |ops|
    decreases |ops|
  {
    if ops == [] then 0
    else match ops[0]
      case OpAppend(xs, room) =>
        if !room || (max != 0 && |bytes| + |xs| > max) then 0
        else 1 + FirstFailure(max, bytes + xs, ops[1..])
      case OpReset => 1 + FirstFailure(max, [], ops[1..])
      case OpTake(room) =>
        if !room then 0 else 1 + FirstFailure(max, [], ops[1..])
  }

  /** Why a call fails: an append over the cap is too big, whatever memory there is;
      every other failure is a want of memory. */
  function Reason(max: nat, bytes: seq<Byte>, op: Op): (e: Status)
  {
    if op.OpAppend? && max != 0 && |bytes| + |op.xs| > max then TooBig else NoMem
  }

  /** The first n calls are unharmed: the buffer follows the simple sequence model. */
  lemma {:induction false} FollowsIdeal(b: BufV, ops: seq<Op>, k: nat)
    requires b.err == Ok && k <= FirstFailure(b.max, b.bytes, ops)
    ensures Run(b, ops[..k]) == BufV(Ideal(b.bytes, ops[..k]), b.max, Ok)
    decreases |ops|
  {
    if k > 0 {
      FollowsIdeal(Apply(b, ops[0]), ops[1..], k - 1);
      PrefixStep(b, ops, k);
    }
  }

  lemma {:induction false} FailsInTheEnd(b: BufV, ops: seq<Op>, n: nat)
    requires b.err == Ok && n == FirstFailure(b.max, b.bytes, ops) < |ops|
    ensures var was := Ideal(b.bytes, ops[..n]);
            Run(b, ops[..n + 1]) == BufV(was, b.max, Reason(b.max, was, ops[n]))
    decreases |ops|
  {
    if n == 0 {
      FailsAtOnce(b, ops);
    } else {
      FailsInTheEnd(Apply(b, ops[0]), ops[1..], n - 1);
      PrefixStep(b, ops, n + 1);
      PrefixStep(b, ops, n);
    }
  }

  /** Over every sequence of calls, the contents are the simple sequence model's
      up to the first failing call; that call leaves the bytes alone, and its reason
      becomes the error. */
  lemma {:induction false} RunIsIdealUntilFirstFailure(b: BufV, ops: seq<Op>, k: nat)
    requires b.err == Ok && k <= |ops|
    ensures var n := FirstFailure(b.max, b.bytes, ops);
            && (k <= n ==> Run(b, ops[..k]) == BufV(Ideal(b.bytes, ops[..k]), b.max, Ok))
            && (n < |ops| ==> var was := Ideal(b.bytes, ops[..n]);
                  Run(b, ops[..n + 1]) == BufV(was, b.max, Reason(b.max, was, ops[n])))
  {
    var n := FirstFailure(b.max, b.bytes, ops);
    if k <= n {
      FollowsIdeal(b, ops, k);
    }
    if n < |ops| {
      FailsInTheEnd(b, ops, n);
    }
  }

  lemma {:induction false} FailsAtOnce(b: BufV, ops: seq<Op>)
    requires ops != [] && b.err == Ok && FirstFailure(b.max, b.bytes, ops) == 0
    ensures Run(b, ops[..1]) == BufV(b.bytes, b.max, Reason(b.max, b.bytes, ops[0]))
  {
    assert ops[..1] == [ops[0]];
    assert Run(b, ops[..1]) == Run(Apply(b, ops[0]), []);
  }

  /** A prefix of the calls begins with the first call. */
  lemma {:induction false} PrefixStep(b: BufV, ops: seq<Op>, k: nat)
    requires 0 < k <= |ops|
    ensures Run(b, ops[..k]) == Run(Apply(b, ops[0]), ops[1..][..k - 1])
    ensures Ideal(b.bytes, ops[..k]) == match ops[0]
              case OpAppend(xs, _) => Ideal(b.bytes + xs, ops[1..][..k - 1])
              case OpReset => Ideal([], ops[1..][..k - 1])
              case OpTake(_) => Ideal([], ops[1..][..k - 1])
  {
    assert ops[..k][1..] == ops[1..][..k - 1];
  }

  /** Taking after calls without a failure detaches the simple sequence model's bytes
      and leaves an empty buffer; after a failure it detaches nothing. */
  lemma {:induction false} TakeDetachesContents(b: BufV, ops: seq<Op>)
    requires b.err == Ok
    ensures FirstFailure(b.max, b.bytes, ops) == |ops| ==>
              TakeSpec(Run(b, ops), true) == (Some(Ideal(b.bytes, ops)), Empty(b.max))
    ensures forall room :: Run(b, ops).err != Ok ==> TakeSpec(Run(b, ops), room) == (None, Empty(Run(b, ops).max))
  {
    RunIsIdealUntilFirstFailure(b, ops, |ops|);
    assert ops[..|ops|] == ops;
  }

  /** Stickiness over whole runs: once failed, appends and resets never clear
      the error nor add a byte. */
  lemma {:induction false} ErrorIsSticky(b: BufV, ops: seq<Op>)
    requires b.err != Ok
    requires forall i :: 0 <= i < |ops| ==> !ops[i].OpTake?
    ensures Run(b, ops).err == b.err
    ensures Run(b, ops).bytes == b.bytes || Run(b, ops).bytes == []
    decreases |ops|
  {
    if ops != [] {
      ErrorIsSticky(Apply(b, ops[0]), ops[1..]);
    }
  }

  /** The cap is never exceeded, whatever is called. */
  lemma {:induction false} CapHolds(b: BufV, ops: seq<Op>)
    requires b.max != 0 ==> |b.bytes| <= b.max
    ensures b.max != 0 ==> |Run(b, ops).bytes| <= b.max
    ensures Run(b, ops).max == b.max
    decreases |ops|
  {
    if ops != [] {
      CapHolds(Apply(b, ops[0]), ops[1..]);
    }
  }

  /** struct sicha_buf.  `data` is null until the first allocation and has one
      slot more than `cap`, for the NUL. */
  class ByteBuf {
    var data: array?<Byte>
    var len: nat
    var cap: nat
    const maxLen: Size
    var err: Status

    ghost predicate Valid()
      reads this, data
    {
      && len <= cap < SIZE_MAX
      && (data == null ==> len == 0 && cap == 0)
      && (data != null ==> data.Length == cap + 1 && data[len] == 0)
      && (maxLen != 0 ==> len <= maxLen)
      && err in {Ok, NoMem, TooBig}
    }

    ghost function View(): BufV
      reads this, data
      requires Valid()
    {
      BufV(if data == null then [] else data[..len], maxLen, err)
    }

    constructor (max: Size)
      ensures Valid() && View() == Empty(max) && data == null
    {
      data, len, cap, maxLen, err := null, 0, 0, max, Ok;
    }

    /** buf_reserve: room for `need` more bytes and the NUL.  `granted` is
        realloc's answer, should it be asked. */
    method Reserve(need: Size, granted: bool) returns (ok: bool)
      requires Valid()
      modifies this, data
      ensures Valid() && (data == old(data) || fresh(data))
      ensures len == old(len) && (ok ==> err == Ok && old(err) == Ok)
      ensures data == null ==> old(data) == null
      ensures old(data) != null && data != null ==> data[..len] == old(data[..len])
      ensures ok ==> data != null && len + need <= cap
      ensures ok ==> (maxLen != 0 ==> len + need <= maxLen)
      ensures old(err) != Ok ==> !ok && err == old(err)
      ensures old(err) == Ok && !ok ==>
                err == if len + need > SIZE_MAX then NoMem
                       else if maxLen != 0 && len + need > maxLen then TooBig
                       else NoMem
      ensures old(err) == Ok && !ok && err == NoMem ==>
                len + need >= SIZE_MAX || !granted
      ensures (old(err) == Ok && granted && len + need < SIZE_MAX
               && (maxLen == 0 || len + need <= maxLen)) ==> ok
      ensures ok <==>
                && old(err) == Ok && len + need <= SIZE_MAX && (maxLen == 0 || len + need <= maxLen)
                && ((old(data) != null && len + need <= old(cap)) || (granted && len + need < SIZE_MAX))
    {
      if err != Ok {
        return false;
      }
      if need > SIZE_MAX - len {
        err := NoMem;
        return false;
      }
      var want := len + need;
      if maxLen != 0 && want > maxLen {
        err := TooBig;
        return false;
      }
      if data != null && want <= cap {
        return true;
      }
      var newCap := if cap == 0 then 64 else cap;
      while newCap < want
        invariant 0 < newCap <= SIZE_MAX
        invariant newCap == SIZE_MAX ==> want == SIZE_MAX
        invariant cap <= newCap
        decreases want - newCap
      {
        if newCap > SIZE_MAX / 2 {
          newCap := want;
          break;
        }
        newCap := newCap * 2;
      }
      if newCap == SIZE_MAX || !granted {
        err := NoMem;
        return false;
      }
      Realloc(newCap);
      return true;
    }

    /** realloc plus the NUL store. */
    method Realloc(newCap: nat)
      requires Valid() && cap <= newCap < SIZE_MAX
      modifies this, data
      ensures Valid() && fresh(data) && data != null && cap == newCap
      ensures len == old(len) && err == old(err)
      ensures old(data) != null ==> data[..len] == old(data[..len])
    {
      var p := new Byte[newCap + 1];
      if data != null {
        forall i | 0 <= i < len {
          p[i] := data[i];
        }
      }
      p[len] := 0;
      data := p;
      cap := newCap;
    }

    /** sicha_buf_append.  The result says whether memory sufficed. */
    method Append(bytes: seq<Byte>, granted: bool) returns (room: bool)
      requires Valid() && |bytes| <= SIZE_MAX
      modifies this, data
      ensures Valid() && (data == old(data) || fresh(data))
      ensures old(len) + |bytes| <= SIZE_MAX ==> View() == old(View()).Append(bytes, room)
      ensures old(len) + |bytes| > SIZE_MAX ==>
                View() == old(View()).(err := if old(err) == Ok then NoMem else old(err))
      ensures granted && old(len) + |bytes| < SIZE_MAX ==> room
    {
      room := true;
      var errBefore := err;
      var ok := Reserve(|bytes|, granted);
      if !ok {
        room := errBefore != Ok || err != NoMem;
        return;
      }
      Put(bytes);
    }

    /** memcpy plus the NUL store. */
    method Put(bytes: seq<Byte>)
      requires Valid() && data != null && len + |bytes| <= cap && (maxLen == 0 || len + |bytes| <= maxLen)
      modifies this`len, data
      ensures Valid()
      ensures data[..len] == old(data[..len]) + bytes
    {
      forall i | 0 <= i < |bytes| {
        data[len + i] := bytes[i];
      }
      len := len + |bytes|;
      data[len] := 0;
    }

    /** sicha_buf_reset. */
    method Reset()
      requires Valid()
      modifies this, data
      ensures Valid() && data == old(data) && cap == old(cap)
      ensures View() == old(View()).Reset()
    {
      len := 0;
      if data != null {
        data[0] := 0;
      }
    }

    /** sicha_buf_take: detaches the NUL-terminated bytes and starts over. */
    method Take(granted: bool) returns (out: array?<Byte>, n: nat, room: bool)
      requires Valid()
      modifies this, data
      ensures Valid() && View() == TakeSpec(old(View()), room).1
      ensures data == null || data == old(data) || fresh(data)
      ensures out != null ==> n < out.Length && out[n] == 0
      ensures (if out == null then None else Some(out[..n])) == TakeSpec(old(View()), room).0
      ensures room <==> old(err) != Ok || old(data) != null || granted
      ensures View() == Empty(maxLen) <==> room
    {
      out, n, room := null, 0, true;
      if err != Ok {
        data, len, cap, err := null, 0, 0, Ok;
        return;
      }
      if data == null {
        room := Reserve(0, granted);
        if !room {
          return;
        }
      }
      out, n := data, len;
      data, len, cap, err := null, 0, 0, Ok;
    }
  }

  /** The input on which a take does not re-initialise: a buffer that never had
      storage, when memory is refused.  It keeps the error, and a later append is
      lost. */
  method RefusedTake(max: Size, xs: seq<Byte>) returns (b: ByteBuf)
    requires |xs| <= SIZE_MAX
    ensures fresh(b) && b.Valid()
    ensures b.View() == BufV([], max, NoMem) != Empty(max)
  {
    b := new ByteBuf(max);
    var out, n, room := b.Take(false);
    var appended := b.Append(xs, true);
  }
}
