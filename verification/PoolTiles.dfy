/** The pool allocator of src/yyjson.c seen from above: the pool is a row of chunks,
    each free or live, that tile it exactly. */
module PoolTiles {

  /** sizeof(pool_chunk): the header every chunk begins with. */
  const HDR: nat := 16

  datatype Tile = Tile(addr: nat, size: nat, free: bool)

  /** The chunks lie end to end from `lo` to `hi`. */
  predicate Tiled(ts: seq<Tile>, lo: nat, hi: nat)
  {
    if ts == [] then lo == hi
    else ts[0].addr == lo && ts[0].size >= HDR && Tiled(ts[1..], lo + ts[0].size, hi)
  }

  /** No two neighbours are both free. */
  predicate Coalesced(ts: seq<Tile>)
  {
    forall i :: 0 < i < |ts| ==> !(ts[i - 1].free && ts[i].free)
  }

  ghost predicate Good(ts: seq<Tile>, lo: nat, hi: nat)
  {
    Tiled(ts, lo, hi) && Coalesced(ts)
  }

  /** pool_size_align: rounded up to the header size, plus a header. */
  function Need(size: nat): (n: nat)
    ensures n >= size + HDR && n % HDR == 0
    ensures n < size + 2 * HDR
  {
    (size + HDR - 1) / HDR * HDR + HDR
  }

  // ----- the two operations on rows -----

  /** First fit: the first free chunk large enough, |ts| for none. */
  function FirstFit(ts: seq<Tile>, need: nat): (k: nat)
    ensures k <= |ts|
    ensures k < |ts| ==> ts[k].free && ts[k].size >= need
    ensures forall i :: 0 <= i < k ==> !(ts[i].free && ts[i].size >= need)
  {
    if ts == [] then 0
    else if ts[0].free && ts[0].size >= need then 0
    else 1 + FirstFit(ts[1..], need)
  }

  /** Taking chunk k: split when at least two headers would be left over. */
  function Take(ts: seq<Tile>, k: nat, need: nat): (r: seq<Tile>)
    requires k < |ts| && ts[k].size >= need
  {
    var t := ts[k];
    if t.size >= need + 2 * HDR then
      ts[..k] + [Tile(t.addr, need, false), Tile(t.addr + need, t.size - need, true)] + ts[k + 1..]
    else ts[..k] + [t.(free := false)] + ts[k + 1..]
  }

  /** Chunks i and i + 1 become one. */
  function Merge(ts: seq<Tile>, i: nat): (r: seq<Tile>)
    requires i + 1 < |ts|
    ensures |r| == |ts| - 1
  {
    ts[..i] + [Tile(ts[i].addr, ts[i].size + ts[i + 1].size, ts[i].free)] + ts[i + 2..]
  }

  /** Releasing chunk k: mark it, merge it upwards, then downwards. */
  function Release(ts: seq<Tile>, k: nat): (r: seq<Tile>)
    requires k < |ts|
  {
    var t1 := ts[k := ts[k].(free := true)];
    var t2 := if k + 1 < |ts| && ts[k + 1].free then Merge(t1, k) else t1;
    if k > 0 && ts[k - 1].free then Merge(t2, k - 1) else t2
  }

  // ----- tiling -----

  lemma {:induction false} TiledConcat(a: seq<Tile>, b: seq<Tile>, lo: nat, mid: nat, hi: nat)
    requires Tiled(a, lo, mid) && Tiled(b, mid, hi)
    ensures Tiled(a + b, lo, hi)
  {
    if a == [] {
      assert a + b == b;
    } else {
      assert (a + b)[0] == a[0] && (a + b)[1..] == a[1..] + b;
      TiledConcat(a[1..], b, lo + a[0].size, mid, hi);
    }
  }

  /** A tiling cut at chunk k. */
  lemma {:induction false} TiledCut(ts: seq<Tile>, lo: nat, hi: nat, k: nat)
    requires Tiled(ts, lo, hi) && k < |ts|
    ensures Tiled(ts[..k], lo, ts[k].addr) && Tiled(ts[k..], ts[k].addr, hi)
    ensures Tiled(ts[k + 1..], ts[k].addr + ts[k].size, hi)
    ensures lo <= ts[k].addr && ts[k].addr + ts[k].size <= hi && ts[k].size >= HDR
  {
    TiledBounds(ts, lo, hi);
    if k > 0 {
      TiledCut(ts[1..], lo + ts[0].size, hi, k - 1);
      assert ts[..k][0] == ts[0] && ts[..k][1..] == ts[1..][..k - 1];
    } else {
      TiledBounds(ts[1..], lo + ts[0].size, hi);
      assert ts[..0] == [] && ts[0..] == ts;
    }
  }

  lemma {:induction false} TiledBounds(ts: seq<Tile>, lo: nat, hi: nat)
    requires Tiled(ts, lo, hi)
    ensures lo <= hi && (ts != [] ==> lo + HDR <= hi)
  {
    if ts != [] {
      TiledBounds(ts[1..], lo + ts[0].size, hi);
    }
  }

  /** Chunks are disjoint and their order is their address order. */
  lemma {:induction false} TilesAscend(ts: seq<Tile>, lo: nat, hi: nat, i: nat, j: nat)
    requires Tiled(ts, lo, hi) && i < j < |ts|
    ensures ts[i].addr + ts[i].size <= ts[j].addr
  {
    TiledCut(ts, lo, hi, i);
    TiledCut(ts[i + 1..], ts[i].addr + ts[i].size, hi, j - i - 1);
  }

  lemma {:induction false} Adjacent(ts: seq<Tile>, lo: nat, hi: nat, i: nat)
    requires Tiled(ts, lo, hi) && i + 1 < |ts|
    ensures ts[i].addr + ts[i].size == ts[i + 1].addr
  {
    TiledCut(ts, lo, hi, i);
    assert ts[i + 1..][0] == ts[i + 1];
  }

  // ----- what the operations keep -----

  lemma {:induction false} MiddleTiled(a: seq<Tile>, m: seq<Tile>, c: seq<Tile>, lo: nat, x: nat, y: nat, hi: nat)
    requires Tiled(a, lo, x) && Tiled(m, x, y) && Tiled(c, y, hi)
    ensures Tiled(a + m + c, lo, hi)
  {
    TiledConcat(a, m, lo, x, y);
    TiledConcat(a + m, c, lo, y, hi);
  }

  lemma {:induction false} TakeIsGood(ts: seq<Tile>, lo: nat, hi: nat, k: nat, need: nat)
    requires Good(ts, lo, hi) && k < |ts| && ts[k].free && ts[k].size >= need >= HDR
    ensures Good(Take(ts, k, need), lo, hi)
  {
    var t := ts[k];
    TiledCut(ts, lo, hi, k);
    var r := Take(ts, k, need);
    if t.size >= need + 2 * HDR {
      var m := [Tile(t.addr, need, false), Tile(t.addr + need, t.size - need, true)];
      assert m[1..] == [Tile(t.addr + need, t.size - need, true)] && m[1..][1..] == [];
      MiddleTiled(ts[..k], m, ts[k + 1..], lo, t.addr, t.addr + t.size, hi);
      forall i | 0 < i < |r|
        ensures !(r[i - 1].free && r[i].free)
      {
        if i < k {
          assert r[i - 1] == ts[i - 1] && r[i] == ts[i];
        } else if i == k + 2 {
          assert r[i] == ts[k + 1] && !(ts[k + 1 - 1].free && ts[k + 1].free);
        } else if i > k + 2 {
          assert r[i - 1] == ts[i - 2] && r[i] == ts[i - 1] && !(ts[i - 1 - 1].free && ts[i - 1].free);
        }
      }
    } else {
      var m := [t.(free := false)];
      assert m[1..] == [];
      MiddleTiled(ts[..k], m, ts[k + 1..], lo, t.addr, t.addr + t.size, hi);
      forall i | 0 < i < |r|
        ensures !(r[i - 1].free && r[i].free)
      {
        if i != k && i != k + 1 {
          assert r[i - 1] == ts[i - 1] && r[i] == ts[i];
        }
      }
    }
  }

  lemma {:induction false} MergeTiled(ts: seq<Tile>, lo: nat, hi: nat, i: nat)
    requires Tiled(ts, lo, hi) && i + 1 < |ts|
    ensures Tiled(Merge(ts, i), lo, hi)
  {
    TiledCut(ts, lo, hi, i);
    TiledCut(ts, lo, hi, i + 1);
    Adjacent(ts, lo, hi, i);
    var m := [Tile(ts[i].addr, ts[i].size + ts[i + 1].size, ts[i].free)];
    assert m[1..] == [];
    MiddleTiled(ts[..i], m, ts[i + 2..], lo, ts[i].addr, ts[i].addr + m[0].size, hi);
  }

  lemma {:induction false} RelabelTiled(ts: seq<Tile>, lo: nat, hi: nat, k: nat, free: bool)
    requires Tiled(ts, lo, hi) && k < |ts|
    ensures Tiled(ts[k := ts[k].(free := free)], lo, hi)
  {
    var r := ts[k := ts[k].(free := free)];
    if k == 0 {
      assert r[1..] == ts[1..];
    } else {
      RelabelTiled(ts[1..], lo + ts[0].size, hi, k - 1, free);
      assert r[1..] == ts[1..][k - 1 := ts[k].(free := free)];
    }
  }

  lemma {:induction false} ReleaseIsGood(ts: seq<Tile>, lo: nat, hi: nat, k: nat)
    requires Good(ts, lo, hi) && k < |ts| && !ts[k].free
    ensures Good(Release(ts, k), lo, hi)
  {
    RelabelTiled(ts, lo, hi, k, true);
    var t1 := ts[k := ts[k].(free := true)];
    var up := k + 1 < |ts| && ts[k + 1].free;
    var t2 := if up then Merge(t1, k) else t1;
    if up {
      MergeTiled(t1, lo, hi, k);
    }
    if k > 0 && ts[k - 1].free {
      MergeTiled(t2, lo, hi, k - 1);
    }
    ReleaseIsCoalesced(ts, k);
  }

  /** The neighbours of a merged chunk were neighbours of free chunks, so they are
      live. */
  lemma {:induction false} ReleaseIsCoalesced(ts: seq<Tile>, k: nat)
    requires Coalesced(ts) && k < |ts| && !ts[k].free
    ensures Coalesced(Release(ts, k))
  {
    var up := k + 1 < |ts| && ts[k + 1].free;
    var down := k > 0 && ts[k - 1].free;
    var r := Release(ts, k);
    var m := if down then k - 1 else k;
    var d := (if up then 1 else 0) + (if down then 1 else 0);
    assert |r| == |ts| - d;
    forall i | 0 < i < |r|
      ensures !(r[i - 1].free && r[i].free)
    {
      if i < m {
        assert r[i - 1] == ts[i - 1] && r[i] == ts[i];
      } else if i == m {
        assert r[i - 1] == ts[i - 1];
        assert down ==> ts[i].free;
      } else if i == m + 1 {
        assert r[i] == ts[i + d];
        assert up ==> !(ts[i + d - 1].free && ts[i + d].free);
      } else {
        assert r[i - 1] == ts[i + d - 1] && r[i] == ts[i + d];
      }
    }
  }

  // ----- what becomes of the live chunks -----

  /** The chunk handed out for a request of `need` bytes, header included. */
  function Taken(ts: seq<Tile>, k: nat, need: nat): (t: Tile)
    requires k < |ts| && ts[k].size >= need
    ensures t.size >= need && !t.free
  {
    if ts[k].size >= need + 2 * HDR then Tile(ts[k].addr, need, false) else ts[k].(free := false)
  }

  /** A chunk is cut exactly if two headers would be left over: so the chunk handed out
      wastes less than that, and what is cut off can hold a request. */
  lemma {:induction false} TakeIsTight(ts: seq<Tile>, k: nat, need: nat)
    requires k < |ts| && ts[k].size >= need
    ensures Taken(ts, k, need).addr == ts[k].addr && Taken(ts, k, need).size < need + 2 * HDR
    ensures Taken(ts, k, need).size == need || (Taken(ts, k, need).size == ts[k].size && |Take(ts, k, need)| == |ts|)
    ensures |Take(ts, k, need)| == |ts| + 1 ==>
              var rest := Take(ts, k, need)[k + 1];
              rest.free && rest.size == ts[k].size - need >= 2 * HDR && rest.addr == ts[k].addr + need
  {
  }

  /** Exactly one live chunk more; the others are where they were. */
  lemma {:induction false} TakeLive(ts: seq<Tile>, k: nat, need: nat, t: Tile)
    requires k < |ts| && ts[k].free && ts[k].size >= need && !t.free
    ensures t in Take(ts, k, need) <==> t in ts || t == Taken(ts, k, need)
  {
    var r := Take(ts, k, need);
    assert ts == ts[..k] + [ts[k]] + ts[k + 1..];
    assert t in ts <==> t in ts[..k] || t in ts[k + 1..];
    assert r[k] == Taken(ts, k, need);
  }

  /** Exactly one live chunk fewer. */
  lemma {:induction false} ReleaseLive(ts: seq<Tile>, lo: nat, hi: nat, k: nat, t: Tile)
    requires Good(ts, lo, hi) && k < |ts| && !ts[k].free && !t.free
    ensures t in Release(ts, k) <==> t in ts && t != ts[k]
  {
    var t1 := ts[k := ts[k].(free := true)];
    RelabelLive(ts, lo, hi, k, t);
    var up := k + 1 < |ts| && ts[k + 1].free;
    if up {
      MergeLive(t1, k, t);
    }
    if k > 0 && ts[k - 1].free {
      MergeLive(if up then Merge(t1, k) else t1, k - 1, t);
    }
  }

  lemma {:induction false} RelabelLive(ts: seq<Tile>, lo: nat, hi: nat, k: nat, t: Tile)
    requires Tiled(ts, lo, hi) && k < |ts| && !t.free
    ensures t in ts[k := ts[k].(free := true)] <==> t in ts && t != ts[k]
  {
    var r := ts[k := ts[k].(free := true)];
    if t in r {
      var i :| 0 <= i < |r| && r[i] == t;
      assert ts[i] == t;
      DistinctTiles(ts, lo, hi, i, k);
    }
    if t in ts && t != ts[k] {
      var i :| 0 <= i < |ts| && ts[i] == t;
      assert r[i] == t;
    }
  }

  lemma {:induction false} DistinctTiles(ts: seq<Tile>, lo: nat, hi: nat, i: nat, j: nat)
    requires Tiled(ts, lo, hi) && i < |ts| && j < |ts| && i != j
    ensures ts[i].addr != ts[j].addr
  {
    TiledCut(ts, lo, hi, i);
    TiledCut(ts, lo, hi, j);
    if i < j {
      TilesAscend(ts, lo, hi, i, j);
    } else {
      TilesAscend(ts, lo, hi, j, i);
    }
  }

  lemma {:induction false} MergeLive(ts: seq<Tile>, i: nat, t: Tile)
    requires i + 1 < |ts| && ts[i].free && ts[i + 1].free && !t.free
    ensures t in Merge(ts, i) <==> t in ts
  {
    assert ts == ts[..i] + [ts[i], ts[i + 1]] + ts[i + 2..];
  }

  // ----- freeing everything -----

  lemma {:induction false} FrontNotBothFree(ts: seq<Tile>)
    requires Coalesced(ts)
    ensures |ts| <= 1 || !ts[0].free || !ts[1].free
  {
    assert |ts| > 1 ==> !(ts[1 - 1].free && ts[1].free);
  }

  /** When no chunk is live, coalescing has restored the single initial chunk. */
  lemma {:induction false} AllFreeIsInitial(ts: seq<Tile>, lo: nat, hi: nat)
    requires Good(ts, lo, hi) && lo < hi
    requires forall i :: 0 <= i < |ts| ==> ts[i].free
    ensures ts == [Tile(lo, hi - lo, true)]
  {
    FrontNotBothFree(ts);
    assert ts != [] && ts[1..] == [];
    assert Tiled(ts[1..], lo + ts[0].size, hi);
    assert ts[0].free;
    assert ts[0] == Tile(lo, hi - lo, true);
  }
}
