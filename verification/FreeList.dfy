/** How the headers in a pool's memory describe its row of chunks: every chunk's
    size is in its header and the free chunks are threaded, in address order,
    through their `next` fields (src/yyjson.c:2221-2233). */
module FreeList {
  import opened PoolTiles

  /** pool_chunk; the null pointer is address 0. */
  datatype Header = Header(size: nat, next: nat)

  type Memory = map<nat, Header>

  /** The first free chunk of a row, `tail` when there is none. */
  function First(ts: seq<Tile>, tail: nat): (p: nat)
  {
    if ts == [] then tail else if ts[0].free then ts[0].addr else First(ts[1..], tail)
  }

  /** The last free chunk of a row, null when there is none. */
  function Last(ts: seq<Tile>): (p: nat)
  {
    if ts == [] then 0 else if ts[|ts| - 1].free then ts[|ts| - 1].addr else Last(ts[..|ts| - 1])
  }

  predicate Linked(mem: Memory, ts: seq<Tile>, tail: nat)
  {
    ts == [] ||
    (HeaderOf(mem, ts[0], First(ts[1..], tail)) && Linked(mem, ts[1..], tail))
  }

  predicate HeaderOf(mem: Memory, t: Tile, next: nat)
  {
    t.addr in mem && mem[t.addr].size == t.size && (t.free ==> mem[t.addr].next == next)
  }

  // ----- rows put together and taken apart -----

  lemma {:induction false} FirstConcat(a: seq<Tile>, b: seq<Tile>, tail: nat)
    ensures First(a + b, tail) == First(a, First(b, tail))
  {
    if a == [] {
      assert a + b == b;
    } else {
      assert (a + b)[0] == a[0] && (a + b)[1..] == a[1..] + b;
      FirstConcat(a[1..], b, tail);
    }
  }

  lemma {:induction false} LinkedConcat(mem: Memory, a: seq<Tile>, b: seq<Tile>, tail: nat)
    ensures Linked(mem, a + b, tail) <==> Linked(mem, a, First(b, tail)) && Linked(mem, b, tail)
  {
    if a == [] {
      assert a + b == b;
    } else {
      assert (a + b)[0] == a[0] && (a + b)[1..] == a[1..] + b;
      FirstConcat(a[1..], b, tail);
      LinkedConcat(mem, a[1..], b, tail);
    }
  }

  // ----- memory writes -----

  /** The two memories agree on all headers in [x, y). */
  ghost predicate Agree(mem: Memory, mem': Memory, x: nat, y: nat)
  {
    forall p :: x <= p < y && p in mem ==> p in mem' && mem'[p] == mem[p]
  }

  lemma {:induction false} LinkedFrame(mem: Memory, mem': Memory, ts: seq<Tile>, x: nat, y: nat, tail: nat)
    requires Tiled(ts, x, y) && Linked(mem, ts, tail) && Agree(mem, mem', x, y)
    ensures Linked(mem', ts, tail)
  {
    if ts != [] {
      TiledBounds(ts, x, y);
      LinkedFrame(mem, mem', ts[1..], x + ts[0].size, y, tail);
    }
  }

  function SetNext(mem: Memory, p: nat, next: nat): (m: Memory)
    requires p in mem
  {
    mem[p := mem[p].(next := next)]
  }

  lemma {:induction false} LastIsIn(ts: seq<Tile>, x: nat, y: nat)
    requires Tiled(ts, x, y) && x > 0
    ensures Last(ts) == 0 ==> forall i :: 0 <= i < |ts| ==> !ts[i].free
    ensures Last(ts) != 0 ==> x <= Last(ts) < y
    ensures Last(ts) != 0 ==> exists i :: 0 <= i < |ts| && ts[i].free && ts[i].addr == Last(ts)
    decreases |ts|
  {
    if ts != [] {
      var n := |ts| - 1;
      TiledCut(ts, x, y, n);
      LastIsIn(ts[..n], x, ts[n].addr);
    }
  }

  lemma {:induction false} NoneFree(mem: Memory, ts: seq<Tile>, tail: nat, tail': nat)
    requires forall i :: 0 <= i < |ts| ==> !ts[i].free
    requires Linked(mem, ts, tail)
    ensures First(ts, tail') == tail' && Linked(mem, ts, tail')
  {
    if ts != [] {
      NoneFree(mem, ts[1..], tail, tail');
    }
  }

  /** Redirecting the last free chunk of a row redirects the row. */
  lemma {:induction false} Retarget(mem: Memory, ts: seq<Tile>, x: nat, y: nat, tail: nat, tail': nat)
    requires Tiled(ts, x, y) && x > 0 && Linked(mem, ts, tail) && Last(ts) != 0
    ensures Last(ts) in mem
    ensures Linked(SetNext(mem, Last(ts), tail'), ts, tail')
    ensures First(ts, tail') == First(ts, tail)
    decreases |ts|
  {
    var n := |ts| - 1;
    var a, t := ts[..n], ts[n];
    assert ts == a + [t];
    TiledCut(ts, x, y, n);
    LinkedConcat(mem, a, [t], tail);
    FirstConcat(a, [t], tail);
    FirstConcat(a, [t], tail');
    assert HeaderOf(mem, t, First([t][1..], tail)) && [t][1..] == [];
    if t.free {
      var mem' := SetNext(mem, t.addr, tail');
      LinkedFrame(mem, mem', a, x, t.addr, t.addr);
      LinkedConcat(mem', a, [t], tail');
      LinkedLive(mem', t, tail');
    } else {
      LastIsIn(a, x, t.addr);
      Retarget(mem, a, x, t.addr, tail, tail');
      var mem' := SetNext(mem, Last(a), tail');
      LinkedConcat(mem', a, [t], tail');
      LinkedLive(mem', t, tail');
    }
  }

  lemma {:induction false} LinkedLive(mem: Memory, t: Tile, tail: nat)
    requires HeaderOf(mem, t, tail)
    ensures Linked(mem, [t], tail)
  {
    assert [t][1..] == [];
  }

  // ----- replacing the middle of a row -----

  lemma {:induction false} LinkedMiddle(mem: Memory, a: seq<Tile>, m: seq<Tile>, c: seq<Tile>)
    ensures Linked(mem, a + m + c, 0) <==>
      Linked(mem, a, First(m, First(c, 0))) && Linked(mem, m, First(c, 0)) && Linked(mem, c, 0)
    ensures First(a + m + c, 0) == First(a, First(m, First(c, 0)))
  {
    LinkedConcat(mem, a, m + c, 0);
    LinkedConcat(mem, m, c, 0);
    FirstConcat(m, c, 0);
    FirstConcat(a, m + c, 0);
    assert a + m + c == a + (m + c);
  }

  /** The row before the middle, made to lead to `next`. */
  function Redirect(mem: Memory, prev: nat, next: nat): (m: Memory)
    requires prev != 0 ==> prev in mem
  {
    if prev != 0 then SetNext(mem, prev, next) else mem
  }

  /** A new middle `m` is linked in by redirecting the last free chunk before it. */
  lemma {:induction false} Splice(mem: Memory, mem1: Memory, a: seq<Tile>, m: seq<Tile>, c: seq<Tile>, lo: nat,
                                  x: nat, y: nat, hi: nat, was: nat)
    requires Tiled(a, lo, x) && Tiled(m, x, y) && Tiled(c, y, hi) && lo > 0
    requires Linked(mem, a, was) && Linked(mem, c, 0) && Linked(mem1, m, First(c, 0))
    requires Agree(mem, mem1, lo, x) && Agree(mem, mem1, y, hi)
    ensures Last(a) != 0 ==> Last(a) in mem && Last(a) in mem1 && lo <= Last(a) < x
    ensures var next := First(m, First(c, 0));
      Linked(Redirect(mem1, Last(a), next), a + m + c, 0) &&
      First(a + m + c, 0) == if Last(a) != 0 then First(a, was) else next
  {
    var next := First(m, First(c, 0));
    LinkedFrame(mem, mem1, a, lo, x, was);
    LinkedFrame(mem, mem1, c, y, hi, 0);
    LastIsIn(a, lo, x);
    TiledBounds(m, x, y);
    if Last(a) != 0 {
      Retarget(mem1, a, lo, x, was, next);
      Retarget(mem, a, lo, x, was, next);
      var mem2 := SetNext(mem1, Last(a), next);
      LinkedFrame(mem1, mem2, m, x, y, First(c, 0));
      LinkedFrame(mem1, mem2, c, y, hi, 0);
      LinkedMiddle(mem2, a, m, c);
    } else {
      NoneFree(mem1, a, was, next);
      LinkedMiddle(mem1, a, m, c);
    }
  }

  /** What a linked row says around its chunk k. */
  lemma {:induction false} Around(mem: Memory, ts: seq<Tile>, lo: nat, hi: nat, k: nat)
    requires Tiled(ts, lo, hi) && Linked(mem, ts, 0) && k < |ts|
    ensures HeaderOf(mem, ts[k], First(ts[k + 1..], 0)) && Linked(mem, ts[k + 1..], 0)
    ensures Linked(mem, ts[..k], First(ts[k..], 0)) && Linked(mem, ts[k..], 0)
    ensures First(ts, 0) == First(ts[..k], First(ts[k..], 0))
    ensures Tiled(ts[..k], lo, ts[k].addr) && Tiled(ts[k + 1..], ts[k].addr + ts[k].size, hi)
    ensures lo <= ts[k].addr && ts[k].size >= HDR && ts[k].addr + ts[k].size <= hi
  {
    TiledCut(ts, lo, hi, k);
    assert ts == ts[..k] + ts[k..];
    assert ts[k..][1..] == ts[k + 1..];
    LinkedConcat(mem, ts[..k], ts[k..], 0);
    FirstConcat(ts[..k], ts[k..], 0);
  }

  // ----- the three edits -----

  /** The header writes of a split (src/yyjson.c:2257-2260). */
  function Split(mem: Memory, cur: nat, need: nat): (m: Memory)
    requires cur in mem && need <= mem[cur].size
  {
    mem[cur + need := Header(mem[cur].size - need, mem[cur].next)][cur := Header(need, mem[cur].next)]
  }

  lemma {:induction false} SplitLinked(mem: Memory, t: Tile, need: nat, tail: nat)
    requires HeaderOf(mem, t, tail) && t.free && HDR <= need && need + 2 * HDR <= t.size
    ensures Linked(Split(mem, t.addr, need),
                   [Tile(t.addr, need, false), Tile(t.addr + need, t.size - need, true)], tail)
    ensures Tiled([Tile(t.addr, need, false), Tile(t.addr + need, t.size - need, true)], t.addr, t.addr + t.size)
    ensures First([Tile(t.addr, need, false), Tile(t.addr + need, t.size - need, true)], tail) == t.addr + need
  {
    var m := [Tile(t.addr, need, false), Tile(t.addr + need, t.size - need, true)];
    var mem' := Split(mem, t.addr, need);
    assert m[1..] == [m[1]] && m[1..][1..] == [];
    assert HeaderOf(mem', m[0], m[1].addr);
    LinkedLive(mem', m[1], tail);
  }

  /** Chunk k gives way to the row m, whose headers are in mem1. */
  lemma {:induction false} SpliceAt(mem: Memory, mem1: Memory, ts: seq<Tile>, lo: nat, hi: nat, k: nat, m: seq<Tile>)
    requires Tiled(ts, lo, hi) && lo > 0 && Linked(mem, ts, 0) && k < |ts|
    requires Tiled(m, ts[k].addr, ts[k].addr + ts[k].size) && Linked(mem1, m, First(ts[k + 1..], 0))
    requires Agree(mem, mem1, lo, ts[k].addr) && Agree(mem, mem1, ts[k].addr + ts[k].size, hi)
    ensures var next := First(m, First(ts[k + 1..], 0));
      var prev := Last(ts[..k]);
      var r := ts[..k] + m + ts[k + 1..];
      (prev != 0 ==> prev in mem && prev in mem1 && prev < ts[k].addr) &&
      Linked(Redirect(mem1, prev, next), r, 0) &&
      First(r, 0) == if prev != 0 then First(ts, 0) else next
  {
    var t := ts[k];
    Around(mem, ts, lo, hi, k);
    Splice(mem, mem1, ts[..k], m, ts[k + 1..], lo, t.addr, t.addr + t.size, hi, First(ts[k..], 0));
  }

  /** pool_malloc with a chunk to split: src/yyjson.c:2255-2266. */
  lemma {:induction false} TakeSplitLinked(mem: Memory, ts: seq<Tile>, lo: nat, hi: nat, k: nat, need: nat)
    requires Tiled(ts, lo, hi) && lo > 0 && Linked(mem, ts, 0)
    requires k < |ts| && ts[k].free && HDR <= need && need + 2 * HDR <= ts[k].size
    ensures HeaderOf(mem, ts[k], First(ts[k + 1..], 0))
    ensures var mem1 := Split(mem, ts[k].addr, need);
      var next := ts[k].addr + need;
      var prev := Last(ts[..k]);
      (prev != 0 ==> prev in mem1) && Linked(Redirect(mem1, prev, next), Take(ts, k, need), 0) &&
      First(Take(ts, k, need), 0) == if prev != 0 then First(ts, 0) else next
  {
    var t := ts[k];
    Around(mem, ts, lo, hi, k);
    var tail := First(ts[k + 1..], 0);
    var m := [Tile(t.addr, need, false), Tile(t.addr + need, t.size - need, true)];
    SplitLinked(mem, t, need, tail);
    SplitAgrees(mem, t, need, lo, hi);
    SpliceAt(mem, Split(mem, t.addr, need), ts, lo, hi, k, m);
  }

  lemma {:induction false} SplitAgrees(mem: Memory, t: Tile, need: nat, lo: nat, hi: nat)
    requires t.addr in mem && mem[t.addr].size == t.size && HDR <= need < t.size
    ensures Agree(mem, Split(mem, t.addr, need), lo, t.addr)
    ensures Agree(mem, Split(mem, t.addr, need), t.addr + t.size, hi)
  {
  }

  /** A chunk changes hands as it stands; its header may get a new `next`. */
  lemma {:induction false} RelabelLinked(mem: Memory, mem1: Memory, ts: seq<Tile>, lo: nat, hi: nat, k: nat, free: bool)
    requires Tiled(ts, lo, hi) && lo > 0 && Linked(mem, ts, 0) && k < |ts|
    requires HeaderOf(mem1, ts[k].(free := free), First(ts[k + 1..], 0))
    requires forall p :: p in mem && p != ts[k].addr ==> p in mem1 && mem1[p] == mem[p]
    ensures var next := if free then ts[k].addr else First(ts[k + 1..], 0);
      var prev := Last(ts[..k]);
      var r := ts[k := ts[k].(free := free)];
      (prev != 0 ==> prev in mem && prev in mem1 && prev < ts[k].addr) && Linked(Redirect(mem1, prev, next), r, 0) &&
      First(r, 0) == if prev != 0 then First(ts, 0) else next
  {
    var t := ts[k];
    Around(mem, ts, lo, hi, k);
    var m, tail := [t.(free := free)], First(ts[k + 1..], 0);
    LinkedLive(mem1, m[0], tail);
    assert m[1..] == [] && Tiled(m[1..], t.addr + t.size, t.addr + t.size);
    assert First(m, tail) == if free then t.addr else First(m[1..], tail);
    SpliceAt(mem, mem1, ts, lo, hi, k, m);
    assert ts[k := t.(free := free)] == ts[..k] + m + ts[k + 1..];
  }

  /** The header write that merges chunk `q` into the one before it, `p`. */
  function Absorb(mem: Memory, p: nat, q: nat): (m: Memory)
    requires p in mem && q in mem
  {
    mem[p := Header(mem[p].size + mem[q].size, mem[q].next)]
  }

  lemma {:induction false} MergeLinked(mem: Memory, ts: seq<Tile>, lo: nat, hi: nat, i: nat)
    requires Tiled(ts, lo, hi) && Linked(mem, ts, 0) && i + 1 < |ts| && ts[i].free && ts[i + 1].free
    ensures ts[i].addr in mem && ts[i + 1].addr in mem
    ensures Linked(Absorb(mem, ts[i].addr, ts[i + 1].addr), Merge(ts, i), 0)
    ensures First(Merge(ts, i), 0) == First(ts, 0)
  {
    Around(mem, ts, lo, hi, i);
    Around(mem, ts, lo, hi, i + 1);
    Adjacent(ts, lo, hi, i);
    var p := ts[i].addr;
    var mem1 := Absorb(mem, p, ts[i + 1].addr);
    var a, c := ts[..i], ts[i + 2..];
    var m := [Tile(p, ts[i].size + ts[i + 1].size, true)];
    LinkedFrame(mem, mem1, a, lo, p, p);
    LinkedFrame(mem, mem1, c, p + m[0].size, hi, 0);
    LinkedLive(mem1, m[0], First(c, 0));
    LinkedMiddle(mem1, a, m, c);
  }

  // ----- walking the list -----

  /** Following the list from position i arrives at chunk j, the next free one. */
  lemma {:induction false} NextFree(mem: Memory, ts: seq<Tile>, lo: nat, hi: nat, i: nat) returns (j: nat)
    requires Tiled(ts, lo, hi) && lo > 0 && Linked(mem, ts, 0) && i <= |ts| && First(ts[i..], 0) != 0
    ensures i <= j < |ts| && ts[j].free && ts[j].addr == First(ts[i..], 0)
    ensures forall n :: i <= n < j ==> !ts[n].free
    ensures HeaderOf(mem, ts[j], First(ts[j + 1..], 0))
    ensures Last(ts[..j + 1]) == ts[j].addr && Last(ts[..j]) == Last(ts[..i])
    decreases |ts| - i
  {
    if ts[i].free {
      j := i;
      Around(mem, ts, lo, hi, j);
    } else {
      assert ts[i..][1..] == ts[i + 1..];
      j := NextFree(mem, ts, lo, hi, i + 1);
      assert ts[..i + 1][..i] == ts[..i];
    }
    assert ts[..j + 1][j] == ts[j];
  }

  /** At the end of the list no free chunk is left. */
  lemma {:induction false} NoneLeft(ts: seq<Tile>, lo: nat, hi: nat, i: nat)
    requires Tiled(ts, lo, hi) && lo > 0 && i <= |ts| && First(ts[i..], 0) == 0
    ensures forall n :: i <= n < |ts| ==> !ts[n].free
    decreases |ts| - i
  {
    if i < |ts| {
      TiledCut(ts, lo, hi, i);
      assert ts[i..][1..] == ts[i + 1..];
      NoneLeft(ts, lo, hi, i + 1);
    }
  }

  // ----- are two free chunks neighbours? -----

  /** The address comparison of pool_free finds a free upper neighbour exactly when
      there is one. */
  lemma {:induction false} UpperNeighbour(ts: seq<Tile>, lo: nat, hi: nat, k: nat)
    requires Tiled(ts, lo, hi) && lo > 0 && k < |ts|
    ensures var next := First(ts[k + 1..], 0);
      (next != 0 && ts[k].addr + ts[k].size == next) <==> (k + 1 < |ts| && ts[k + 1].free)
  {
    TiledCut(ts, lo, hi, k);
    if k + 1 < |ts| {
      Adjacent(ts, lo, hi, k);
      assert ts[k + 1..][0] == ts[k + 1] && ts[k + 1..][1..] == ts[k + 2..];
      if !ts[k + 1].free {
        TiledCut(ts, lo, hi, k + 1);
        FirstAbove(ts[k + 2..], ts[k + 1].addr + ts[k + 1].size, hi);
      }
    }
  }

  lemma {:induction false} FirstAbove(ts: seq<Tile>, x: nat, y: nat)
    requires Tiled(ts, x, y)
    ensures First(ts, 0) == 0 || First(ts, 0) >= x
  {
    if ts != [] {
      FirstAbove(ts[1..], x + ts[0].size, y);
    }
  }

  lemma {:induction false} LowerNeighbour(mem: Memory, ts: seq<Tile>, lo: nat, hi: nat, k: nat)
    requires Tiled(ts, lo, hi) && lo > 0 && k < |ts| && Linked(mem, ts, 0)
    ensures var prev := Last(ts[..k]);
      (prev != 0 ==> prev in mem && prev < ts[k].addr) &&
      ((prev != 0 && prev + mem[prev].size == ts[k].addr) <==> (k > 0 && ts[k - 1].free)) &&
      (k > 0 && ts[k - 1].free ==> prev == ts[k - 1].addr)
  {
    var a, prev := ts[..k], Last(ts[..k]);
    TiledCut(ts, lo, hi, k);
    LastIsIn(a, lo, ts[k].addr);
    if prev != 0 {
      var i :| 0 <= i < k && a[i].free && a[i].addr == prev;
      Around(mem, ts, lo, hi, i);
      if i == k - 1 {
        Adjacent(ts, lo, hi, i);
      } else {
        assert !ts[k - 1].free by { BelowLast(ts, lo, hi, i, k); }
        TilesAscend(ts, lo, hi, i, k - 1);
        TiledCut(ts, lo, hi, k - 1);
        Adjacent(ts, lo, hi, k - 1);
      }
    }
  }

  lemma {:induction false} BelowLast(ts: seq<Tile>, lo: nat, hi: nat, i: nat, k: nat)
    requires Tiled(ts, lo, hi) && i + 1 < k <= |ts| && ts[i].addr == Last(ts[..k])
    ensures !ts[k - 1].free
  {
    DistinctTiles(ts, lo, hi, i, k - 1);
    assert ts[..k][k - 1] == ts[k - 1];
  }

  /** Where the walk of pool_free stops: the list position of chunk k. */
  lemma {:induction false} StopsAt(mem: Memory, ts: seq<Tile>, lo: nat, hi: nat, i: nat, k: nat)
    requires Tiled(ts, lo, hi) && lo > 0 && Linked(mem, ts, 0) && i <= k < |ts| && !ts[k].free
    requires First(ts[i..], 0) == 0 || First(ts[i..], 0) >= ts[k].addr
    ensures Last(ts[..k]) == Last(ts[..i]) && First(ts[k + 1..], 0) == First(ts[i..], 0)
    decreases k - i
  {
    assert ts[i..][1..] == ts[i + 1..];
    if i < k {
      TiledCut(ts, lo, hi, i);
      TilesAscend(ts, lo, hi, i, k);
      StopsAt(mem, ts, lo, hi, i + 1, k);
      assert ts[..i + 1][..i] == ts[..i];
    }
  }
}
