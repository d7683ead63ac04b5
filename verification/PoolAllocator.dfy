/** The pool allocator of src/yyjson.c as it stands: a first-fit free list threaded
    through chunk headers and edited in place. */
module PoolAllocator {
  import opened PoolTiles
  import opened FreeList
  import PoolRuns

  class Pool {
    var ctxSize: nat
    var freeList: nat
    var mem: Memory
    ghost var tiles: seq<Tile>
    ghost const lo: nat

    ghost predicate Valid()
      reads this
    {
      Threaded() && Coalesced(tiles)
    }

    /** The chunks tile the pool and the list threads its free chunks in order. */
    ghost predicate Threaded()
      reads this
    {
      lo > 0 && ctxSize >= HDR && Tiled(tiles, lo, lo + ctxSize - HDR) &&
      Linked(mem, tiles, 0) && freeList == First(tiles, 0)
    }

    /** Where the walk along the free list stands: `prev` is the last free chunk
        before position i, `cur` the first one from there on. */
    ghost predicate At(i: nat, prev: nat, cur: nat)
      reads this
    {
      i <= |tiles| && prev == Last(tiles[..i]) && cur == First(tiles[i..], 0)
    }

    /** yyjson_alc_pool_init (src/yyjson.c:2346-2369) on a buffer it accepts: the
        pool is the aligned part of the buffer and one free chunk fills it. */
    constructor (buf: nat, size: nat)
      requires buf > 0 && size >= 4 * HDR
      ensures Valid() && tiles == [Tile(lo, ctxSize - HDR, true)]
      ensures lo % HDR == 0 && ctxSize % HDR == 0
      ensures buf + HDR <= lo && lo + ctxSize - HDR <= buf + size < lo + ctxSize
    {
      var ctx := (buf + HDR - 1) / HDR * HDR;
      var usable := (size - (ctx - buf)) / HDR * HDR;
      ctxSize := usable;
      freeList := ctx + HDR;
      mem := map[ctx + HDR := Header(usable - HDR, 0)];
      tiles := [Tile(ctx + HDR, usable - HDR, true)];
      lo := ctx + HDR;
      new;
      assert tiles[1..] == [] && Tiled(tiles[1..], lo + usable - HDR, lo + usable - HDR);
      LinkedLive(mem, tiles[0], 0);
    }

    /** One step along the list. */
    ghost method Advance(i: nat, prev: nat, cur: nat) returns (j: nat)
      requires Valid() && At(i, prev, cur) && cur != 0
      ensures i <= j < |tiles| && tiles[j].free && tiles[j].addr == cur
      ensures forall n :: i <= n < j ==> !tiles[n].free
      ensures HeaderOf(mem, tiles[j], First(tiles[j + 1..], 0))
      ensures At(j + 1, cur, mem[cur].next) && prev == Last(tiles[..j])
    {
      j := NextFree(mem, tiles, lo, lo + ctxSize - HDR, i);
    }

    /** First fit: src/yyjson.c:2241-2271. */
    method Malloc(size: nat) returns (p: nat)
      requires Valid()
      modifies this`freeList, this`mem, this`tiles
      ensures Valid()
      ensures p == PoolRuns.MallocResult(old(tiles), ctxSize, size)
      ensures tiles == PoolRuns.Apply(old(tiles), ctxSize, PoolRuns.Malloc(size))
    {
      if size >= ctxSize {
        return 0;
      }
      var need := Need(size);
      var prev: nat, cur: nat := 0, freeList;
      ghost var i: nat := 0;
      assert tiles[..0] == [] && tiles[0..] == tiles;
      while cur != 0
        invariant Valid() && At(i, prev, cur) && tiles == old(tiles)
        invariant forall n :: 0 <= n < i ==> !(tiles[n].free && tiles[n].size >= need)
        decreases |tiles| - i
      {
        ghost var j := Advance(i, prev, cur);
        if mem[cur].size < need {
          prev, cur := cur, mem[cur].next;
          i := j + 1;
          continue;
        }
        FirstFitIs(tiles, need, j);
        CutOut(prev, cur, need, j);
        return cur + HDR;
      }
      NoneLeft(tiles, lo, lo + ctxSize - HDR, i);
      FirstFitIs(tiles, need, |tiles|);
      return 0;
    }

    /** The list edits of a successful allocation: src/yyjson.c:2255-2267. */
    method CutOut(prev: nat, cur: nat, need: nat, ghost k: nat)
      requires Valid() && k < |tiles| && tiles[k].free && HDR <= need <= tiles[k].size
      requires cur == tiles[k].addr && prev == Last(tiles[..k])
      modifies this`freeList, this`mem, this`tiles
      ensures Valid() && tiles == Take(old(tiles), k, need)
    {
      ghost var hi := lo + ctxSize - HDR;
      Around(mem, tiles, lo, hi, k);
      TakeIsGood(tiles, lo, hi, k, need);
      var next := mem[cur].next;
      if mem[cur].size >= need + 2 * HDR {
        TakeSplitLinked(mem, tiles, lo, hi, k, need);
        next := cur + need;
        mem := Split(mem, cur, need);
      } else {
        RelabelLinked(mem, mem, tiles, lo, hi, k, false);
        assert Take(tiles, k, need) == tiles[k := tiles[k].(free := false)];
      }
      tiles := Take(tiles, k, need);
      if prev != 0 {
        mem := SetNext(mem, prev, next);
      } else {
        freeList := next;
      }
    }

    /** src/yyjson.c:2273-2297; the pointer is one this pool handed out and has not
        taken back. */
    method Free(ptr: nat)
      requires Valid() && PoolRuns.Locate(tiles, ptr) < |tiles|
      modifies this`freeList, this`mem, this`tiles
      ensures Valid()
      ensures tiles == PoolRuns.Apply(old(tiles), ctxSize, PoolRuns.Free(ptr))
    {
      ghost var k := PoolRuns.Locate(tiles, ptr);
      ReleaseIsGood(tiles, lo, lo + ctxSize - HDR, k);
      var cur := ptr - HDR;
      var prev, next := Position(cur, k);
      Link(prev, cur, next, k);
      JoinUp(cur, next, k);
      JoinDown(prev, cur, k);
    }

    /** The walk to the place of `cur` in the list. */
    method Position(cur: nat, ghost k: nat) returns (prev: nat, next: nat)
      requires Valid() && k < |tiles| && !tiles[k].free && tiles[k].addr == cur
      ensures prev == Last(tiles[..k]) && next == First(tiles[k + 1..], 0)
    {
      ghost var hi := lo + ctxSize - HDR;
      prev, next := 0, freeList;
      ghost var i: nat := 0;
      assert tiles[..0] == [] && tiles[0..] == tiles;
      while next != 0 && next < cur
        invariant At(i, prev, next) && i <= k
        decreases |tiles| - i
      {
        ghost var j := Advance(i, prev, next);
        assert j < k by {
          if j >= k {
            StaysAbove(tiles, lo, hi, k, j);
          }
        }
        prev, next := next, mem[next].next;
        i := j + 1;
      }
      StopsAt(mem, tiles, lo, hi, i, k);
    }

    method Link(prev: nat, cur: nat, next: nat, ghost k: nat)
      requires Threaded() && k < |tiles| && !tiles[k].free && tiles[k].addr == cur
      requires prev == Last(tiles[..k]) && next == First(tiles[k + 1..], 0)
      modifies this`freeList, this`mem, this`tiles
      ensures Threaded() && tiles == old(tiles)[k := old(tiles)[k].(free := true)]
      ensures tiles[..k] == old(tiles)[..k] && tiles[k + 1..] == old(tiles)[k + 1..]
    {
      ghost var hi := lo + ctxSize - HDR;
      Around(mem, tiles, lo, hi, k);
      RelabelLinked(mem, SetNext(mem, cur, next), tiles, lo, hi, k, true);
      RelabelTiled(tiles, lo, hi, k, true);
      ghost var was := mem;
      if prev != 0 {
        mem := SetNext(mem, prev, cur);
      } else {
        freeList := cur;
      }
      mem := SetNext(mem, cur, next);
      assert mem == Redirect(SetNext(was, cur, next), prev, cur);
      tiles := tiles[k := tiles[k].(free := true)];
    }

    /** Merging with the higher neighbour: src/yyjson.c:2287-2291. */
    method JoinUp(cur: nat, next: nat, ghost k: nat)
      requires Threaded() && k < |tiles| && tiles[k].free && tiles[k].addr == cur
      requires next == First(tiles[k + 1..], 0)
      modifies this`mem, this`tiles
      ensures Threaded()
      ensures tiles == var was := old(tiles);
        if k + 1 < |was| && was[k + 1].free then Merge(was, k) else was
      ensures k < |tiles| && tiles[k].free && tiles[k].addr == cur && tiles[..k] == old(tiles)[..k]
    {
      ghost var hi := lo + ctxSize - HDR;
      Around(mem, tiles, lo, hi, k);
      UpperNeighbour(tiles, lo, hi, k);
      if next != 0 && cur + mem[cur].size == next {
        Adjacent(tiles, lo, hi, k);
        MergeLinked(mem, tiles, lo, hi, k);
        MergeTiled(tiles, lo, hi, k);
        mem := Absorb(mem, cur, next);
        tiles := Merge(tiles, k);
      }
    }

    /** Merging with the lower neighbour: src/yyjson.c:2292-2296. */
    method JoinDown(prev: nat, cur: nat, ghost k: nat)
      requires Threaded() && k < |tiles| && tiles[k].free && tiles[k].addr == cur
      requires prev == Last(tiles[..k])
      modifies this`mem, this`tiles
      ensures Threaded()
      ensures tiles == var was := old(tiles);
        if k > 0 && was[k - 1].free then Merge(was, k - 1) else was
    {
      ghost var hi := lo + ctxSize - HDR;
      Around(mem, tiles, lo, hi, k);
      LowerNeighbour(mem, tiles, lo, hi, k);
      if prev != 0 && prev + mem[prev].size == cur {
        MergeLinked(mem, tiles, lo, hi, k - 1);
        MergeTiled(tiles, lo, hi, k - 1);
        mem := Absorb(mem, prev, cur);
        tiles := Merge(tiles, k - 1);
      }
    }
  }

  lemma {:induction false} FirstFitIs(ts: seq<Tile>, need: nat, k: nat)
    requires k <= |ts| && (k < |ts| ==> ts[k].free && ts[k].size >= need)
    requires forall n :: 0 <= n < k ==> !(ts[n].free && ts[n].size >= need)
    ensures FirstFit(ts, need) == k
  {
  }

  lemma {:induction false} StaysAbove(ts: seq<Tile>, lo: nat, hi: nat, k: nat, j: nat)
    requires Tiled(ts, lo, hi) && k <= j < |ts|
    ensures ts[k].addr <= ts[j].addr
  {
    if k < j {
      TilesAscend(ts, lo, hi, k, j);
    }
  }
}
