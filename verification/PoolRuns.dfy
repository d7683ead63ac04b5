/** Whole runs of the pool allocator of src/yyjson.c, as its client sees them: a
    client holds the pointers it was given and has not yet freed. */
module PoolRuns {
  import opened PoolTiles

  datatype Op = Malloc(size: nat) | Free(ptr: nat)

  /** Which live chunk a pointer stands for, |ts| for none. */
  function Locate(ts: seq<Tile>, p: nat): (k: nat)
    ensures k <= |ts|
    ensures k < |ts| ==> !ts[k].free && ts[k].addr + HDR == p
    ensures forall i :: 0 <= i < k ==> ts[i].free || ts[i].addr + HDR != p
  {
    if ts == [] then 0
    else if !ts[0].free && ts[0].addr + HDR == p then 0
    else 1 + Locate(ts[1..], p)
  }

  /** The chunk pool_malloc serves a request from, |ts| when it returns NULL. */
  function Chosen(ts: seq<Tile>, ctxSize: nat, size: nat): (k: nat)
    ensures k <= |ts|
    ensures k < |ts| <==> size < ctxSize && exists i :: 0 <= i < |ts| && ts[i].free && ts[i].size >= Need(size)
    ensures k < |ts| ==> ts[k].free && ts[k].size >= Need(size)
  {
    if size >= ctxSize then |ts| else FirstFit(ts, Need(size))
  }

  function MallocResult(ts: seq<Tile>, ctxSize: nat, size: nat): (p: nat)
  {
    var k := Chosen(ts, ctxSize, size);
    if k == |ts| then 0 else ts[k].addr + HDR
  }

  function Apply(ts: seq<Tile>, ctxSize: nat, op: Op): (r: seq<Tile>)
  {
    match op
    case Malloc(size) =>
      var k := Chosen(ts, ctxSize, size);
      if k == |ts| then ts else Take(ts, k, Need(size))
    case Free(p) =>
      var k := Locate(ts, p);
      if k == |ts| then ts else Release(ts, k)
  }

  /** The client's own account of what it holds. */
  function Held(ts: seq<Tile>, ctxSize: nat, held: set<nat>, op: Op): (r: set<nat>)
  {
    match op
    case Malloc(size) =>
      var p := MallocResult(ts, ctxSize, size);
      if p == 0 then held else held + {p}
    case Free(p) => held - {p}
  }

  /** A client that frees only what it holds. */
  predicate Legal(ts: seq<Tile>, ctxSize: nat, held: set<nat>, ops: seq<Op>)
    decreases |ops|
  {
    ops == [] ||
    ((ops[0].Free? ==> ops[0].ptr in held) &&
     Legal(Apply(ts, ctxSize, ops[0]), ctxSize, Held(ts, ctxSize, held, ops[0]), ops[1..]))
  }

  function Run(ts: seq<Tile>, ctxSize: nat, ops: seq<Op>): (r: seq<Tile>)
    decreases |ops|
  {
    if ops == [] then ts else Run(Apply(ts, ctxSize, ops[0]), ctxSize, ops[1..])
  }

  function HeldAfter(ts: seq<Tile>, ctxSize: nat, held: set<nat>, ops: seq<Op>): (r: set<nat>)
    decreases |ops|
  {
    if ops == [] then held
    else HeldAfter(Apply(ts, ctxSize, ops[0]), ctxSize, Held(ts, ctxSize, held, ops[0]), ops[1..])
  }

  /** The live chunks are exactly the ones the client holds. */
  ghost predicate Accounted(ts: seq<Tile>, held: set<nat>)
  {
    forall p :: p in held <==> LiveAt(ts, p)
  }

  ghost predicate LiveAt(ts: seq<Tile>, p: nat)
  {
    exists t :: t in ts && !t.free && t.addr + HDR == p
  }

  ghost predicate Sound(ts: seq<Tile>, lo: nat, hi: nat, held: set<nat>)
  {
    Good(ts, lo, hi) && Accounted(ts, held)
  }

  // ----- one call -----

  /** What pool_malloc hands out lies inside the pool, holds `size` bytes and is
      aligned to the header size. */
  lemma {:induction false} MallocLands(ts: seq<Tile>, lo: nat, hi: nat, ctxSize: nat, size: nat)
    requires Good(ts, lo, hi) && MallocResult(ts, ctxSize, size) != 0
    ensures var p := MallocResult(ts, ctxSize, size);
      lo + HDR <= p && p + size <= hi && (Aligned(ts) ==> p % HDR == 0)
  {
    TiledCut(ts, lo, hi, Chosen(ts, ctxSize, size));
  }

  /** It overlaps no live chunk, header included, and leaves every live chunk in
      place. */
  lemma {:induction false} MallocIsSafe(ts: seq<Tile>, lo: nat, hi: nat, ctxSize: nat, size: nat, t: Tile)
    requires Good(ts, lo, hi) && t in ts && !t.free
    requires MallocResult(ts, ctxSize, size) != 0
    ensures var p := MallocResult(ts, ctxSize, size);
      lo + HDR <= p && p + size <= hi && (p + size <= t.addr || t.addr + t.size + HDR <= p)
    ensures t in Apply(ts, ctxSize, Malloc(size))
  {
    MallocLands(ts, lo, hi, ctxSize, size);
    var k := Chosen(ts, ctxSize, size);
    var i :| 0 <= i < |ts| && ts[i] == t;
    TiledCut(ts, lo, hi, k);
    if i < k {
      TilesAscend(ts, lo, hi, i, k);
    } else {
      TilesAscend(ts, lo, hi, k, i);
    }
    TakeLive(ts, k, Need(size), t);
  }

  /** Every chunk begins and ends at a multiple of the header size. */
  predicate Aligned(ts: seq<Tile>)
  {
    forall i :: 0 <= i < |ts| ==> ts[i].addr % HDR == 0 && ts[i].size % HDR == 0
  }

  lemma {:induction false} MergeIsAligned(ts: seq<Tile>, i: nat)
    requires Aligned(ts) && i + 1 < |ts|
    ensures Aligned(Merge(ts, i))
  {
  }

  lemma {:induction false} TakeIsAligned(ts: seq<Tile>, k: nat, size: nat)
    requires Aligned(ts) && k < |ts| && ts[k].size >= Need(size)
    ensures Aligned(Take(ts, k, Need(size)))
  {
  }

  lemma {:induction false} RelabelIsAligned(ts: seq<Tile>, k: nat)
    requires Aligned(ts) && k < |ts|
    ensures Aligned(ts[k := ts[k].(free := true)])
  {
  }

  lemma {:induction false} ReleaseIsAligned(ts: seq<Tile>, k: nat)
    requires Aligned(ts) && k < |ts|
    ensures Aligned(Release(ts, k))
  {
    RelabelIsAligned(ts, k);
    var t1 := ts[k := ts[k].(free := true)];
    var up := k + 1 < |ts| && ts[k + 1].free;
    if up {
      MergeIsAligned(t1, k);
    }
    if k > 0 && ts[k - 1].free {
      MergeIsAligned(if up then Merge(t1, k) else t1, k - 1);
    }
  }

  lemma {:induction false} ApplyIsAligned(ts: seq<Tile>, ctxSize: nat, op: Op)
    requires Aligned(ts)
    ensures Aligned(Apply(ts, ctxSize, op))
  {
    match op
    case Malloc(size) =>
      var k := Chosen(ts, ctxSize, size);
      if k < |ts| {
        TakeIsAligned(ts, k, size);
      }
    case Free(p) =>
      var k := Locate(ts, p);
      if k < |ts| {
        ReleaseIsAligned(ts, k);
      }
  }

  lemma {:induction false} RunIsAligned(ts: seq<Tile>, ctxSize: nat, ops: seq<Op>)
    requires Aligned(ts)
    ensures Aligned(Run(ts, ctxSize, ops))
    decreases |ops|
  {
    if ops != [] {
      ApplyIsAligned(ts, ctxSize, ops[0]);
      RunIsAligned(Apply(ts, ctxSize, ops[0]), ctxSize, ops[1..]);
    }
  }

  lemma {:induction false} ApplyIsGood(ts: seq<Tile>, lo: nat, hi: nat, ctxSize: nat, op: Op)
    requires Good(ts, lo, hi)
    ensures Good(Apply(ts, ctxSize, op), lo, hi)
  {
    match op
    case Malloc(size) =>
      var k := Chosen(ts, ctxSize, size);
      if k < |ts| {
        TakeIsGood(ts, lo, hi, k, Need(size));
      }
    case Free(p) =>
      var k := Locate(ts, p);
      if k < |ts| {
        ReleaseIsGood(ts, lo, hi, k);
      }
  }

  lemma {:induction false} MallocIsAccounted(ts: seq<Tile>, ctxSize: nat, held: set<nat>, size: nat)
    requires Accounted(ts, held)
    ensures Accounted(Apply(ts, ctxSize, Malloc(size)), Held(ts, ctxSize, held, Malloc(size)))
  {
    var k := Chosen(ts, ctxSize, size);
    if k < |ts| {
      var need := Need(size);
      var r := Take(ts, k, need);
      var n := Taken(ts, k, need);
      forall t: Tile | !t.free
        ensures t in r <==> t in ts || t == n
      {
        TakeLive(ts, k, need, t);
      }
      assert n in r;
    }
  }

  lemma {:induction false} FreeIsAccounted(ts: seq<Tile>, lo: nat, hi: nat, ctxSize: nat, held: set<nat>, p: nat)
    requires Good(ts, lo, hi) && Accounted(ts, held) && p in held
    ensures Accounted(Apply(ts, ctxSize, Free(p)), held - {p})
  {
    assert LiveAt(ts, p);
    var k := Locate(ts, p);
    forall q: nat
      ensures LiveAt(Release(ts, k), q) <==> LiveAt(ts, q) && q != p
    {
      FreeAccounts(ts, lo, hi, k, q);
    }
  }

  lemma {:induction false} FreeAccounts(ts: seq<Tile>, lo: nat, hi: nat, k: nat, q: nat)
    requires Good(ts, lo, hi) && k < |ts| && !ts[k].free
    ensures LiveAt(Release(ts, k), q) <==> LiveAt(ts, q) && q != ts[k].addr + HDR
  {
    if LiveAt(ts, q) {
      var t :| t in ts && !t.free && t.addr + HDR == q;
      FreeRemoves(ts, lo, hi, k, t);
    }
    if LiveAt(Release(ts, k), q) {
      var t :| t in Release(ts, k) && !t.free && t.addr + HDR == q;
      FreeRemoves(ts, lo, hi, k, t);
    }
  }

  lemma {:induction false} FreeRemoves(ts: seq<Tile>, lo: nat, hi: nat, k: nat, t: Tile)
    requires Good(ts, lo, hi) && k < |ts| && !ts[k].free && !t.free
    ensures t in Release(ts, k) <==> t in ts && t.addr != ts[k].addr
  {
    ReleaseLive(ts, lo, hi, k, t);
    if t in ts && t != ts[k] {
      var i :| 0 <= i < |ts| && ts[i] == t;
      DistinctTiles(ts, lo, hi, i, k);
    }
  }

  lemma {:induction false} ApplyIsSound(ts: seq<Tile>, lo: nat, hi: nat, ctxSize: nat, held: set<nat>, op: Op)
    requires Sound(ts, lo, hi, held) && (op.Free? ==> op.ptr in held)
    ensures Sound(Apply(ts, ctxSize, op), lo, hi, Held(ts, ctxSize, held, op))
  {
    ApplyIsGood(ts, lo, hi, ctxSize, op);
    match op
    case Malloc(size) => MallocIsAccounted(ts, ctxSize, held, size);
    case Free(p) => FreeIsAccounted(ts, lo, hi, ctxSize, held, p);
  }

  // ----- every run -----

  lemma {:induction false} RunIsSound(ts: seq<Tile>, lo: nat, hi: nat, ctxSize: nat, held: set<nat>, ops: seq<Op>)
    requires Sound(ts, lo, hi, held) && Legal(ts, ctxSize, held, ops)
    ensures Sound(Run(ts, ctxSize, ops), lo, hi, HeldAfter(ts, ctxSize, held, ops))
    decreases |ops|
  {
    if ops != [] {
      ApplyIsSound(ts, lo, hi, ctxSize, held, ops[0]);
      RunIsSound(Apply(ts, ctxSize, ops[0]), lo, hi, ctxSize, Held(ts, ctxSize, held, ops[0]), ops[1..]);
    }
  }

  lemma {:induction false} NothingHeld(r: seq<Tile>, lo: nat, hi: nat)
    requires Sound(r, lo, hi, {}) && lo < hi
    ensures r == [Tile(lo, hi - lo, true)]
  {
    forall i | 0 <= i < |r|
      ensures r[i].free
    {
      assert r[i] in r;
      assert !LiveAt(r, r[i].addr + HDR);
    }
    AllFreeIsInitial(r, lo, hi);
  }

  /** From a fresh pool: every run leaves a tiled, coalesced pool whose live chunks
      are the blocks held; when none is held the pool is fresh again; and in an
      aligned pool every chunk stays aligned. */
  lemma {:induction false} EveryRun(lo: nat, hi: nat, ctxSize: nat, ops: seq<Op>)
    requires lo + HDR <= hi
    requires Legal([Tile(lo, hi - lo, true)], ctxSize, {}, ops)
    ensures var start := [Tile(lo, hi - lo, true)];
      var r := Run(start, ctxSize, ops);
      var held := HeldAfter(start, ctxSize, {}, ops);
      && Sound(r, lo, hi, held) && (held == {} ==> r == start)
      && (lo % HDR == 0 && hi % HDR == 0 ==> Aligned(r))
  {
    var start := [Tile(lo, hi - lo, true)];
    assert start[1..] == [] && Tiled(start[1..], hi, hi);
    assert Good(start, lo, hi) && Accounted(start, {});
    RunIsSound(start, lo, hi, ctxSize, {}, ops);
    if lo % HDR == 0 && hi % HDR == 0 {
      RunIsAligned(start, ctxSize, ops);
    }
    var r := Run(start, ctxSize, ops);
    if HeldAfter(start, ctxSize, {}, ops) == {} {
      NothingHeld(r, lo, hi);
    }
  }
}
