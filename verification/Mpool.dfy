/**
 The parser's memory: a list of pools, each handing out memory by moving a pointer, shared with
 the process that parses.  That process dies on its first failed allocation; the daemon then gives
 back what the attempt had taken, adds a pool and starts the file over.
 */
module Mpool {
  import opened Options

  const PAGE_SIZE: nat := 4096
  const POOL_SIZE: nat := PAGE_SIZE * 64
  const HEADER: nat := 40
  const CAPACITY: nat := POOL_SIZE - HEADER

  datatype Mperr = NoError | OutOfPools | TooLarge

  /** `struct mpool`; addresses are numbers, and `end` is `base + POOL_SIZE`. */
  datatype Pool = Pool(base: nat, used: nat, lastUsed: nat, error: Mperr)

  datatype Block = Block(start: nat, size: nat)

  function End(p: Pool): nat {
    p.base + POOL_SIZE
  }

  ghost predicate PoolOk(p: Pool) {
    && p.base % PAGE_SIZE == 0
    && p.base + HEADER <= p.lastUsed <= p.used <= End(p)
    && p.used % 8 == 0 && p.lastUsed % 8 == 0
  }

  ghost predicate Apart(p: Pool, q: Pool) {
    End(p) <= q.base || End(q) <= p.base
  }

  ghost predicate Ok(ps: seq<Pool>) {
    && ps != []
    && (forall i :: 0 <= i < |ps| ==> PoolOk(ps[i]))
    && (forall i, j :: 0 <= i < j < |ps| ==> Apart(ps[i], ps[j]))
  }

  /** What `mmap` hands to `mpool_expand`: a region of its own. */
  function NewPool(base: nat): Pool {
    Pool(base, base + HEADER, base + HEADER, NoError)
  }

  ghost predicate Mappable(ps: seq<Pool>, base: nat) {
    base % PAGE_SIZE == 0 && forall p <- ps :: Apart(p, NewPool(base))
  }

  // --------------------------------------------------------------- allocation

  function RoundUp(n: nat): (r: nat)
    ensures n <= r < n + 8 && r % 8 == 0
  {
    (n + 7) / 8 * 8
  }

  predicate Fits(p: Pool, sz: nat) {
    p.used + sz <= End(p)
  }

  /** The first pool with room, or the number of pools. */
  function FirstFit(ps: seq<Pool>, sz: nat): (k: nat)
    ensures k <= |ps|
    ensures k < |ps| ==> Fits(ps[k], sz)
    ensures forall i :: 0 <= i < k ==> !Fits(ps[i], sz)
  {
    if ps == [] || Fits(ps[0], sz) then 0 else 1 + FirstFit(ps[1..], sz)
  }

  function Take(ps: seq<Pool>, k: nat, sz: nat): seq<Pool>
    requires k < |ps|
  {
    ps[k := ps[k].(used := ps[k].used + sz)]
  }

  function Alloc(ps: seq<Pool>, n: nat): (seq<Pool>, Option<Block>)
    requires ps != []
  {
    var sz := RoundUp(n);
    if sz > CAPACITY then (ps[0 := ps[0].(error := TooLarge)], None)
    else
      var k := FirstFit(ps, sz);
      if k == |ps| then (ps[0 := ps[0].(error := OutOfPools)], None)
      else (Take(ps, k, sz), Some(Block(ps[k].used, sz)))
  }

  /** The allocations of one attempt: they are served one by one up to the first that fails. */
  function Serve(ps: seq<Pool>, sizes: seq<nat>): (seq<Pool>, seq<Block>)
    requires ps != []
    decreases |sizes|
  {
    if sizes == [] then (ps, [])
    else
      var (ps', b) := Alloc(ps, sizes[0]);
      if b.None? then (ps', [])
      else
        var (ps'', bs) := Serve(ps', sizes[1..]);
        (ps'', [b.value] + bs)
  }

  /** The pools of `ps'` are those of `ps`, with memory taken from them. */
  ghost predicate TakenFrom(ps: seq<Pool>, ps': seq<Pool>) {
    && |ps'| == |ps|
    && forall i :: 0 <= i < |ps| ==>
      ps'[i].base == ps[i].base && ps'[i].lastUsed == ps[i].lastUsed && ps[i].used <= ps'[i].used
  }

  /** The block was free in `ps` and is in use in `ps'`. */
  ghost predicate Carved(ps: seq<Pool>, ps': seq<Pool>, b: Block) {
    exists k :: 0 <= k < |ps| && k < |ps'| && ps[k].used <= b.start && b.start + b.size <= ps'[k].used
  }

  ghost predicate Disjoint(b: Block, c: Block) {
    b.start + b.size <= c.start || c.start + c.size <= b.start
  }

  lemma AllocOk(ps: seq<Pool>, n: nat)
    requires Ok(ps)
    ensures var (ps', b) := Alloc(ps, n);
      && Ok(ps') && TakenFrom(ps, ps')
      && (b.Some? ==> b.value.size == RoundUp(n) && b.value.start % 8 == 0 && Carved(ps, ps', b.value))
  {
    var sz := RoundUp(n);
    var k := FirstFit(ps, sz);
    if sz <= CAPACITY && k < |ps| {
      TakeOk(ps, k, sz);
    } else {
      ReplaceOk(ps, 0, Alloc(ps, n).0[0]);
    }
  }

  lemma TakeOk(ps: seq<Pool>, k: nat, sz: nat)
    requires Ok(ps) && k < |ps| && sz % 8 == 0 && Fits(ps[k], sz)
    ensures Ok(Take(ps, k, sz)) && TakenFrom(ps, Take(ps, k, sz))
    ensures ps[k].used % 8 == 0 && Carved(ps, Take(ps, k, sz), Block(ps[k].used, sz))
  {
    SumAligned(ps[k].used, sz);
    ReplaceOk(ps, k, ps[k].(used := ps[k].used + sz));
    assert ps[k].used <= ps[k].used && ps[k].used + sz <= Take(ps, k, sz)[k].used;
  }

  lemma SumAligned(a: nat, b: nat)
    requires a % 8 == 0 && b % 8 == 0
    ensures (a + b) % 8 == 0
  {
  }

  lemma ReplaceOk(ps: seq<Pool>, k: nat, p: Pool)
    requires Ok(ps) && k < |ps| && PoolOk(p) && p.base == ps[k].base && p.lastUsed == ps[k].lastUsed
    requires ps[k].used <= p.used
    ensures Ok(ps[k := p]) && TakenFrom(ps, ps[k := p])
  {
    var ps' := ps[k := p];
    forall i, j | 0 <= i < j < |ps'| ensures Apart(ps'[i], ps'[j]) {
      assert Apart(ps[i], ps[j]);
    }
  }

  lemma CarvedApart(ps: seq<Pool>, ps': seq<Pool>, ps'': seq<Pool>, b: Block, c: Block)
    requires Ok(ps) && Ok(ps') && Ok(ps'') && TakenFrom(ps, ps') && TakenFrom(ps', ps'')
    requires Carved(ps, ps', b) && Carved(ps', ps'', c)
    ensures Disjoint(b, c) && Carved(ps, ps'', b) && Carved(ps, ps'', c)
  {
    var k :| 0 <= k < |ps| && ps[k].used <= b.start && b.start + b.size <= ps'[k].used;
    var m :| 0 <= m < |ps| && ps'[m].used <= c.start && c.start + c.size <= ps''[m].used;
    assert PoolOk(ps[k]) && PoolOk(ps[m]) && PoolOk(ps'[k]) && PoolOk(ps''[m]);
    assert ps[k].used <= b.start && b.start + b.size <= ps''[k].used;
    assert ps[m].used <= c.start && c.start + c.size <= ps''[m].used;
    if k < m {
      assert Apart(ps[k], ps[m]);
    } else if m < k {
      assert Apart(ps[m], ps[k]);
    }
  }

  lemma {:induction false} ServeKeeps(ps: seq<Pool>, sizes: seq<nat>)
    requires Ok(ps)
    ensures var (ps', bs) := Serve(ps, sizes); Ok(ps') && TakenFrom(ps, ps') && |bs| <= |sizes|
    decreases |sizes|
  {
    if sizes != [] {
      AllocOk(ps, sizes[0]);
      var (ps', b) := Alloc(ps, sizes[0]);
      if b.Some? { ServeKeeps(ps', sizes[1..]); }
    }
  }

  /** As large as asked for, aligned, and in memory that was free before. */
  ghost predicate Granted(ps: seq<Pool>, ps': seq<Pool>, n: nat, b: Block) {
    b.size == RoundUp(n) && b.start % 8 == 0 && Carved(ps, ps', b)
  }

  ghost predicate AllGranted(ps: seq<Pool>, ps': seq<Pool>, sizes: seq<nat>, bs: seq<Block>) {
    && |bs| <= |sizes|
    && (forall i :: 0 <= i < |bs| ==> Granted(ps, ps', sizes[i], bs[i]))
    && (forall i, j :: 0 <= i < j < |bs| ==> Disjoint(bs[i], bs[j]))
  }

  /**
   Whatever is asked for, in whatever order: every block handed out is as large as asked for,
   aligned, inside a pool, in memory that was free before, and apart from every other block.
   */
  lemma {:induction false} ServeOk(ps: seq<Pool>, sizes: seq<nat>)
    requires Ok(ps)
    ensures AllGranted(ps, Serve(ps, sizes).0, sizes, Serve(ps, sizes).1)
    decreases |sizes|
  {
    if sizes != [] {
      AllocOk(ps, sizes[0]);
      var (ps', b) := Alloc(ps, sizes[0]);
      if b.Some? {
        ServeKeeps(ps', sizes[1..]);
        ServeOk(ps', sizes[1..]);
        var (ps'', bs) := Serve(ps', sizes[1..]);
        StillCarved(ps, ps', ps'', b.value);
        GrantFirst(ps, ps', ps'', sizes, b.value, bs);
      }
    }
  }

  lemma GrantFirst(ps: seq<Pool>, ps': seq<Pool>, ps'': seq<Pool>, sizes: seq<nat>, b: Block, bs: seq<Block>)
    requires Ok(ps) && Ok(ps') && Ok(ps'') && TakenFrom(ps, ps') && TakenFrom(ps', ps'')
    requires sizes != [] && Granted(ps, ps', sizes[0], b) && AllGranted(ps', ps'', sizes[1..], bs)
    ensures AllGranted(ps, ps'', sizes, [b] + bs)
  {
    StillCarved(ps, ps', ps'', b);
    forall i | 0 <= i < |bs|
      ensures Disjoint(b, bs[i]) && Granted(ps, ps'', sizes[i + 1], bs[i])
    {
      assert Granted(ps', ps'', sizes[1..][i], bs[i]);
      CarvedApart(ps, ps', ps'', b, bs[i]);
    }
  }

  lemma StillCarved(ps: seq<Pool>, ps': seq<Pool>, ps'': seq<Pool>, b: Block)
    requires TakenFrom(ps, ps') && TakenFrom(ps', ps'') && Carved(ps, ps', b)
    ensures Carved(ps, ps'', b)
  {
    var k :| 0 <= k < |ps| && ps[k].used <= b.start && b.start + b.size <= ps'[k].used;
    assert ps[k].used <= b.start && b.start + b.size <= ps''[k].used;
  }

  // -------------------------------------------------- snapshot, rollback, errors

  function SnapshotOf(p: Pool): Pool {
    p.(lastUsed := p.used, error := NoError)
  }

  function RolledBack(p: Pool): Pool {
    p.(used := p.lastUsed)
  }

  function Snapshot(ps: seq<Pool>): seq<Pool> {
    seq(|ps|, i requires 0 <= i < |ps| => SnapshotOf(ps[i]))
  }

  function Rollback(ps: seq<Pool>): seq<Pool> {
    seq(|ps|, i requires 0 <= i < |ps| => RolledBack(ps[i]))
  }

  /** The worst error of the list: `NoError`, then `OutOfPools`, then `TooLarge`. */
  function Rank(e: Mperr): nat {
    match e case NoError => 0 case OutOfPools => 1 case TooLarge => 2
  }

  lemma SnapshotOk(ps: seq<Pool>)
    requires Ok(ps)
    ensures Ok(Snapshot(ps)) && Snapshot(Snapshot(ps)) == Snapshot(ps)
  {
    var s := Snapshot(ps);
    forall i, j | 0 <= i < j < |s| ensures Apart(s[i], s[j]) {
      assert Apart(ps[i], ps[j]);
    }
  }

  /** Whatever an attempt took is given back. */
  lemma RollbackUndoes(ps: seq<Pool>, sizes: seq<nat>)
    requires Ok(ps)
    ensures Snapshot(Rollback(Serve(Snapshot(ps), sizes).0)) == Snapshot(ps)
  {
    SnapshotOk(ps);
    ServeKeeps(Snapshot(ps), sizes);
  }

  /** How an attempt ends is read off the error marks. */
  ghost predicate Marked(ps: seq<Pool>, e: Mperr) {
    ps != [] && ps[0].error == e && forall i :: 1 <= i < |ps| ==> ps[i].error == NoError
  }

  lemma {:induction false} ServeMarks(ps: seq<Pool>, sizes: seq<nat>)
    requires Marked(ps, NoError)
    ensures var (ps', bs) := Serve(ps, sizes);
      |bs| <= |sizes| && Marked(ps', if |bs| == |sizes| then NoError
                                     else if RoundUp(sizes[|bs|]) > CAPACITY then TooLarge else OutOfPools)
    decreases |sizes|
  {
    if sizes != [] {
      var (ps', b) := Alloc(ps, sizes[0]);
      if b.Some? {
        ServeMarks(ps', sizes[1..]);
        var bs := Serve(ps', sizes[1..]).1;
        if |bs| < |sizes| - 1 { assert sizes[1..][|bs|] == sizes[|bs| + 1]; }
      }
    }
  }

  // --------------------------------------------------------- every sequence of calls

  /** The calls that change the pools. */
  datatype Op = Request(n: nat) | TakeSnapshot | RollBack | Grow(base: nat)

  /** The pools and the blocks in use, oldest first; the first `saved` of them existed at the snapshot. */
  datatype Heap = Heap(pools: seq<Pool>, live: seq<Block>, saved: nat)

  ghost predicate Legal(h: Heap, op: Op) {
    h.pools != [] && h.saved <= |h.live| && (op.Grow? ==> Mappable(h.pools, op.base))
  }

  function Do(h: Heap, op: Op): Heap
    requires h.pools != [] && h.saved <= |h.live|
  {
    match op
    case Request(n) =>
      var (ps, b) := Alloc(h.pools, n);
      Heap(ps, if b.Some? then h.live + [b.value] else h.live, h.saved)
    case TakeSnapshot => Heap(Snapshot(h.pools), h.live, |h.live|)
    case RollBack => Heap(Rollback(h.pools), h.live[..h.saved], h.saved)
    case Grow(base) => Heap(h.pools + [NewPool(base)], h.live, h.saved)
  }

  /** Where a block lies: in the used part of pool `k`, and before or after its snapshot mark. */
  ghost predicate PlacedIn(p: Pool, b: Block, old_: bool) {
    && b.start % 8 == 0 && p.base + HEADER <= b.start && b.start + b.size <= p.used
    && (if old_ then b.start + b.size <= p.lastUsed else p.lastUsed <= b.start)
  }

  ghost predicate Placed(ps: seq<Pool>, b: Block, old_: bool) {
    exists k :: 0 <= k < |ps| && PlacedIn(ps[k], b, old_)
  }

  /** Every live block is aligned and inside a pool, and no two overlap. */
  ghost predicate Held(h: Heap) {
    && Ok(h.pools) && h.saved <= |h.live|
    && (forall i :: 0 <= i < |h.live| ==> Placed(h.pools, h.live[i], i < h.saved))
    && (forall i, j :: 0 <= i < j < |h.live| ==> Disjoint(h.live[i], h.live[j]))
  }

  /** The pools of `ps'` start with those of `ps`, and each placed block stays placed. */
  ghost predicate KeepsPlace(p: Pool, p': Pool) {
    p'.base == p.base && p'.lastUsed == p.lastUsed && p.used <= p'.used
  }

  lemma PlacedKept(ps: seq<Pool>, ps': seq<Pool>, b: Block, old_: bool)
    requires Placed(ps, b, old_) && |ps| <= |ps'| && forall k :: 0 <= k < |ps| ==> KeepsPlace(ps[k], ps'[k])
    ensures Placed(ps', b, old_)
  {
    var k :| 0 <= k < |ps| && PlacedIn(ps[k], b, old_);
    assert KeepsPlace(ps[k], ps'[k]) && PlacedIn(ps'[k], b, old_);
  }

  lemma PlacedApart(ps: seq<Pool>, b: Block, old_: bool, k: nat, sz: nat)
    requires Ok(ps) && Placed(ps, b, old_) && k < |ps| && Fits(ps[k], sz)
    ensures Disjoint(b, Block(ps[k].used, sz))
  {
    var m :| 0 <= m < |ps| && PlacedIn(ps[m], b, old_);
    assert PoolOk(ps[m]) && PoolOk(ps[k]);
    if m < k { assert Apart(ps[m], ps[k]); } else if k < m { assert Apart(ps[k], ps[m]); }
  }

  lemma RequestHeld(h: Heap, n: nat)
    requires Held(h)
    ensures Held(Do(h, Request(n)))
  {
    var (ps, b) := Alloc(h.pools, n);
    AllocOk(h.pools, n);
    forall k | 0 <= k < |h.pools| ensures KeepsPlace(h.pools[k], ps[k]) {}
    forall i | 0 <= i < |h.live| ensures Placed(ps, h.live[i], i < h.saved) {
      PlacedKept(h.pools, ps, h.live[i], i < h.saved);
    }
    if b.Some? {
      var k, sz := FirstFit(h.pools, RoundUp(n)), RoundUp(n);
      assert PoolOk(h.pools[k]) && PlacedIn(ps[k], b.value, false);
      forall i | 0 <= i < |h.live| ensures Disjoint(h.live[i], b.value) {
        PlacedApart(h.pools, h.live[i], i < h.saved, k, sz);
      }
    }
  }

  lemma SnapshotHeld(h: Heap)
    requires Held(h)
    ensures Held(Do(h, TakeSnapshot))
  {
    SnapshotOk(h.pools);
    forall i | 0 <= i < |h.live| ensures Placed(Snapshot(h.pools), h.live[i], true) {
      var k :| 0 <= k < |h.pools| && PlacedIn(h.pools[k], h.live[i], i < h.saved);
      assert PlacedIn(Snapshot(h.pools)[k], h.live[i], true);
    }
  }

  lemma RollbackOk(ps: seq<Pool>)
    requires Ok(ps)
    ensures Ok(Rollback(ps))
  {
    var r := Rollback(ps);
    forall i | 0 <= i < |r| ensures PoolOk(r[i]) {
      assert PoolOk(ps[i]);
    }
    forall i, j | 0 <= i < j < |r| ensures Apart(r[i], r[j]) {
      assert Apart(ps[i], ps[j]);
    }
  }

  lemma RollbackHeld(h: Heap)
    requires Held(h)
    ensures Held(Do(h, RollBack))
  {
    RollbackOk(h.pools);
    forall i | 0 <= i < h.saved ensures Placed(Rollback(h.pools), h.live[i], true) {
      var k :| 0 <= k < |h.pools| && PlacedIn(h.pools[k], h.live[i], true);
      assert PlacedIn(Rollback(h.pools)[k], h.live[i], true);
    }
  }

  lemma GrowHeld(h: Heap, base: nat)
    requires Held(h) && Mappable(h.pools, base)
    ensures Held(Do(h, Grow(base)))
  {
    AppendOk(h.pools, base);
    var ps := h.pools + [NewPool(base)];
    forall k | 0 <= k < |h.pools| ensures KeepsPlace(h.pools[k], ps[k]) {}
    forall i | 0 <= i < |h.live| ensures Placed(ps, h.live[i], i < h.saved) {
      PlacedKept(h.pools, ps, h.live[i], i < h.saved);
    }
  }

  lemma DoHeld(h: Heap, op: Op)
    requires Held(h) && Legal(h, op)
    ensures Held(Do(h, op))
  {
    match op
    case Request(n) => RequestHeld(h, n);
    case TakeSnapshot => SnapshotHeld(h);
    case RollBack => RollbackHeld(h);
    case Grow(base) => GrowHeld(h, base);
  }

  /** A history: each state follows from the one before by one call. */
  ghost predicate History(hs: seq<Heap>, ops: seq<Op>) {
    && |hs| == |ops| + 1
    && forall i :: 0 <= i < |ops| ==> Legal(hs[i], ops[i]) && hs[i + 1] == Do(hs[i], ops[i])
  }

  /**
   Over every sequence of allocations, snapshots, rollbacks and expansions, the blocks in use are
   aligned, inside their pool and pairwise disjoint.
   */
  lemma {:induction false} EveryHistoryHeld(hs: seq<Heap>, ops: seq<Op>, base: nat, n: nat)
    requires History(hs, ops) && base % PAGE_SIZE == 0 && hs[0] == Heap([NewPool(base)], [], 0) && n < |hs|
    ensures Held(hs[n])
  {
    if n == 0 {
      NewPoolOk(base);
    } else {
      EveryHistoryHeld(hs, ops, base, n - 1);
      DoHeld(hs[n - 1], ops[n - 1]);
    }
  }

  /** Between two snapshots the saved blocks and the snapshot marks of the pools do not change. */
  ghost predicate SameMarks(h: Heap, h': Heap) {
    && h'.saved == h.saved <= |h.live| && h.saved <= |h'.live| && h'.live[..h.saved] == h.live[..h.saved]
    && |h.pools| <= |h'.pools|
    && forall k :: 0 <= k < |h.pools| ==>
      h'.pools[k].base == h.pools[k].base && h'.pools[k].lastUsed == h.pools[k].lastUsed
  }

  lemma DoSameMarks(h: Heap, op: Op)
    requires h.pools != [] && h.saved <= |h.live| && op != TakeSnapshot
    ensures SameMarks(h, Do(h, op))
  {
  }

  lemma {:induction false} HistorySameMarks(hs: seq<Heap>, ops: seq<Op>, n: nat)
    requires History(hs, ops) && hs[0].saved <= |hs[0].live| && n < |hs|
    requires forall i :: 0 <= i < n ==> ops[i] != TakeSnapshot
    ensures SameMarks(hs[0], hs[n])
  {
    if n > 0 {
      HistorySameMarks(hs, ops, n - 1);
      DoSameMarks(hs[n - 1], ops[n - 1]);
    }
  }

  /**
   A rollback restores exactly the blocks of the last snapshot, whatever was allocated, rolled back
   and added since, and every pool of then is used as far as it was then.
   */
  lemma RollbackRestores(hs: seq<Heap>, ops: seq<Op>, n: nat)
    requires History(hs, ops) && 1 <= n < |ops| && ops[0] == TakeSnapshot && ops[n] == RollBack
    requires forall i :: 1 <= i < n ==> ops[i] != TakeSnapshot
    ensures hs[n + 1].live == hs[0].live && |hs[0].pools| <= |hs[n + 1].pools|
    ensures forall k :: 0 <= k < |hs[0].pools| ==>
      hs[n + 1].pools[k].base == hs[0].pools[k].base && hs[n + 1].pools[k].used == hs[0].pools[k].used
  {
    assert hs[1] == Do(hs[0], TakeSnapshot);
    assert forall i :: 0 <= i < |hs[1..]| ==> hs[1..][i] == hs[i + 1];
    assert forall i :: 0 <= i < |ops[1..]| ==> ops[1..][i] == ops[i + 1];
    assert History(hs[1..], ops[1..]);
    HistorySameMarks(hs[1..], ops[1..], n - 1);
    assert SameMarks(hs[1], hs[n]);
    assert hs[n + 1] == Do(hs[n], RollBack);
  }

  // -------------------------------------------------------------------- retry

  predicate Small(n: nat) {
    RoundUp(n) <= CAPACITY
  }

  lemma FirstFitMore(ps: seq<Pool>, p: Pool, sz: nat)
    ensures FirstFit(ps + [p], sz) == if FirstFit(ps, sz) < |ps| || Fits(p, sz) then FirstFit(ps, sz) else |ps| + 1
  {
    var k := FirstFit(ps + [p], sz);
    var all := ps + [p];
    assert forall i :: 0 <= i < |ps| ==> all[i] == ps[i];
    if k < |ps| { assert Fits(ps[k], sz); }
    var m := FirstFit(ps, sz);
    if m < |ps| { assert Fits(all[m], sz); } else if Fits(p, sz) { assert Fits(all[|ps|], sz); }
  }

  /**
   With one more empty pool, the same requests get the same blocks as before, and the one that
   failed is served, unless it is larger than a pool.
   */
  lemma {:induction false} OneMorePool(ps: seq<Pool>, base: nat, sizes: seq<nat>)
    requires Ok(ps)
    ensures var bs, more := Serve(ps, sizes).1, Serve(ps + [NewPool(base)], sizes).1;
      && |bs| <= |sizes| && bs <= more
      && (|bs| < |sizes| && Small(sizes[|bs|]) ==> |bs| < |more|)
    decreases |sizes|
  {
    if sizes != [] {
      var p, sz := NewPool(base), RoundUp(sizes[0]);
      FirstFitMore(ps, p, sz);
      AllocOk(ps, sizes[0]);
      var (ps', b) := Alloc(ps, sizes[0]);
      if b.Some? {
        assert Take(ps + [p], FirstFit(ps, sz), sz) == ps' + [p];
        assert Alloc(ps + [p], sizes[0]) == (ps' + [p], b);
        OneMorePool(ps', base, sizes[1..]);
        var bs := Serve(ps', sizes[1..]).1;
        if |bs| < |sizes| - 1 { assert sizes[1..][|bs|] == sizes[|bs| + 1]; }
      }
    }
  }

  /** The pools as they stand after `k` expansions. */
  function Grown(ps: seq<Pool>, bases: seq<nat>, k: nat): seq<Pool>
    requires k <= |bases|
  {
    if k == 0 then ps else Grown(ps, bases, k - 1) + [NewPool(bases[k - 1])]
  }

  /** Every region that `mmap` will hand out lies apart from the pools and from the others. */
  ghost predicate Regions(ps: seq<Pool>, bases: seq<nat>) {
    && (forall i :: 0 <= i < |bases| ==> Mappable(ps, bases[i]))
    && (forall i, j :: 0 <= i < j < |bases| ==> Apart(NewPool(bases[i]), NewPool(bases[j])))
  }

  lemma NewPoolOk(base: nat)
    requires base % PAGE_SIZE == 0
    ensures PoolOk(NewPool(base)) && Ok([NewPool(base)])
  {
    var q := base / PAGE_SIZE;
    assert base == 8 * (512 * q);
    SumAligned(base, HEADER);
  }

  lemma AppendOk(ps: seq<Pool>, base: nat)
    requires Ok(ps) && Mappable(ps, base)
    ensures Ok(ps + [NewPool(base)])
  {
    var all := ps + [NewPool(base)];
    NewPoolOk(base);
    forall i, j | 0 <= i < j < |all| ensures Apart(all[i], all[j]) {
      if j == |ps| { assert ps[i] in ps; } else { assert Apart(ps[i], ps[j]); }
    }
  }

  lemma {:induction false} GrownOk(ps: seq<Pool>, bases: seq<nat>, k: nat)
    requires Ok(ps) && Regions(ps, bases) && k <= |bases|
    ensures Ok(Grown(ps, bases, k))
    ensures forall i :: k <= i < |bases| ==> Mappable(Grown(ps, bases, k), bases[i])
    decreases k
  {
    if k > 0 {
      GrownOk(ps, bases, k - 1);
      var g, p := Grown(ps, bases, k - 1), NewPool(bases[k - 1]);
      AppendOk(g, bases[k - 1]);
      forall i | k <= i < |bases| ensures Mappable(g + [p], bases[i]) {
        assert Mappable(g, bases[i]) && Apart(NewPool(bases[k - 1]), NewPool(bases[i]));
      }
    }
  }

  predicate Served(ps: seq<Pool>, sizes: seq<nat>)
    requires ps != []
  {
    |Serve(ps, sizes).1| == |sizes|
  }

  lemma {:induction false} ServedAreSmall(ps: seq<Pool>, sizes: seq<nat>)
    requires ps != [] && Served(ps, sizes)
    ensures forall n <- sizes :: Small(n)
    decreases |sizes|
  {
    if sizes != [] {
      ServedAreSmall(Alloc(ps, sizes[0]).0, sizes[1..]);
      assert sizes == [sizes[0]] + sizes[1..];
    }
  }

  /** Every expansion serves at least one request more, so there are never more of them than requests. */
  lemma {:induction false} EachPoolHelps(ps: seq<Pool>, bases: seq<nat>, k: nat, sizes: seq<nat>)
    requires Ok(ps) && Regions(ps, bases) && k <= |bases|
    requires forall n <- sizes :: Small(n)
    ensures Grown(ps, bases, k) != []
    ensures Served(Grown(ps, bases, k), sizes) || |Serve(Grown(ps, bases, k), sizes).1| >= k
    decreases k
  {
    GrownOk(ps, bases, k);
    if k > 0 {
      EachPoolHelps(ps, bases, k - 1, sizes);
      GrownOk(ps, bases, k - 1);
      OnePoolHelps(Grown(ps, bases, k - 1), bases[k - 1], k - 1, sizes);
    }
  }

  lemma OnePoolHelps(ps: seq<Pool>, base: nat, k: nat, sizes: seq<nat>)
    requires Ok(ps) && Ok(ps + [NewPool(base)]) && forall n <- sizes :: Small(n)
    requires Served(ps, sizes) || |Serve(ps, sizes).1| >= k
    ensures Served(ps + [NewPool(base)], sizes) || |Serve(ps + [NewPool(base)], sizes).1| >= k + 1
  {
    OneMorePool(ps, base, sizes);
    var bs := Serve(ps, sizes).1;
    if |bs| < |sizes| { assert sizes[|bs|] in sizes; }
    ServeKeeps(ps + [NewPool(base)], sizes);
  }

  function Ending(sizes: seq<nat>, served: nat): Mperr {
    if served >= |sizes| then NoError else if Small(sizes[served]) then OutOfPools else TooLarge
  }

  lemma AttemptEnds(ps: seq<Pool>, sizes: seq<nat>)
    requires Ok(ps) && Snapshot(ps) == ps
    ensures var (ps', bs) := Serve(ps, sizes);
      |bs| <= |sizes| && Marked(ps', Ending(sizes, |bs|)) && Snapshot(Rollback(ps')) == ps
  {
    assert forall i :: 0 <= i < |ps| ==> ps[i] == SnapshotOf(ps[i]);
    ServeMarks(ps, sizes);
    RollbackUndoes(ps, sizes);
  }

  lemma ExpandLater(ps: seq<Pool>, base: nat)
    ensures Snapshot(ps + [NewPool(base)]) == Snapshot(ps) + [NewPool(base)]
  {
  }

  /** The memory pools of the daemon. */
  class Pools {
    var pools: seq<Pool>

    /** `mpool_init`, once its first region is mapped. */
    constructor (base: nat)
      requires base % PAGE_SIZE == 0
      ensures pools == [NewPool(base)] && Ok(pools)
    {
      pools := [NewPool(base)];
      NewPoolOk(base);
    }

    method Expand(base: nat)
      modifies this
      ensures pools == old(pools) + [NewPool(base)]
    {
      pools := pools + [NewPool(base)];
    }

    method TakeSnapshot()
      modifies this
      ensures pools == Snapshot(old(pools))
    {
      var i := 0;
      while i < |pools|
        invariant 0 <= i <= |pools| == |old(pools)|
        invariant forall j :: 0 <= j < |pools| ==>
          pools[j] == if j < i then SnapshotOf(old(pools)[j]) else old(pools)[j]
      {
        pools := pools[i := pools[i].(lastUsed := pools[i].used, error := NoError)];
        i := i + 1;
      }
    }

    method RollBack()
      modifies this
      ensures pools == Rollback(old(pools))
    {
      var i := 0;
      while i < |pools|
        invariant 0 <= i <= |pools| == |old(pools)|
        invariant forall j :: 0 <= j < |pools| ==>
          pools[j] == if j < i then RolledBack(old(pools)[j]) else old(pools)[j]
      {
        pools := pools[i := pools[i].(used := pools[i].lastUsed)];
        i := i + 1;
      }
    }

    /** `mpool_get_error`: the worst mark. */
    method GetError() returns (e: Mperr)
      ensures forall p <- pools :: Rank(p.error) <= Rank(e)
      ensures e == NoError || exists p <- pools :: p.error == e
      ensures forall m :: Marked(pools, m) ==> e == m
    {
      e := NoError;
      for i := 0 to |pools|
        invariant forall p <- pools[..i] :: Rank(p.error) <= Rank(e)
        invariant e == NoError || exists p <- pools :: p.error == e
      {
        if Rank(e) < Rank(pools[i].error) {
          e := pools[i].error;
        }
        assert pools[..i + 1] == pools[..i] + [pools[i]];
      }
    }

    /** `mpool_alloc`. */
    method Allocate(n: nat) returns (b: Option<Block>)
      requires pools != []
      modifies this
      ensures (pools, b) == Alloc(old(pools), n)
    {
      var sz := RoundUp(n);
      if sz > CAPACITY {
        pools := pools[0 := pools[0].(error := TooLarge)];
        return None;
      }
      var k := 0;
      while k < |pools| && pools[k].used + sz > pools[k].base + POOL_SIZE
        invariant 0 <= k <= |pools|
        invariant forall i :: 0 <= i < k ==> !Fits(pools[i], sz)
      {
        k := k + 1;
      }
      assert k == FirstFit(pools, sz);
      if k == |pools| {
        pools := pools[0 := pools[0].(error := OutOfPools)];
        return None;
      }
      b := Some(Block(pools[k].used, sz));
      pools := pools[k := pools[k].(used := pools[k].used + sz)];
    }

    /** The parsing process: it takes what the file needs and gives up when refused. */
    method Attempt(sizes: seq<nat>) returns (blocks: seq<Block>)
      requires pools != []
      modifies this
      ensures (pools, blocks) == Serve(old(pools), sizes)
    {
      blocks := [];
      var i := 0;
      assert sizes[0..] == sizes;
      while i < |sizes|
        invariant 0 <= i <= |sizes| && pools != []
        invariant Serve(old(pools), sizes).0 == Serve(pools, sizes[i..]).0
        invariant Serve(old(pools), sizes).1 == blocks + Serve(pools, sizes[i..]).1
      {
        assert sizes[i..][0] == sizes[i] && sizes[i..][1..] == sizes[i + 1..];
        var b := Allocate(sizes[i]);
        if b.None? {
          assert blocks + [] == blocks;
          return;
        }
        blocks := blocks + [b.value];
        i := i + 1;
      }
      assert sizes[i..] == [] && blocks + [] == blocks;
    }
  }
}
