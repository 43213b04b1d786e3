/**
 `parse`: one configuration file is read by a process that shares the pools and the queues.  When
 it runs out of memory its work is thrown away, a pool is added, and the file is read again.
 */
module ParseRetry {
  import opened Mpool
  import Q = Queues

  /** An element of the file: the block of this request goes to the end of this queue. */
  datatype Insertion = Insertion(queue: nat, request: nat)

  ghost predicate PlanOk(plan: seq<Insertion>, sizes: seq<nat>, queues: nat) {
    && (forall i :: 0 <= i < |plan| ==>
          plan[i].queue < queues && plan[i].request < |sizes| && sizes[plan[i].request] > 0)
    && (forall i, j :: 0 <= i < j < |plan| ==> plan[i].request != plan[j].request)
  }

  /** What an attempt that got these blocks has put into the queues. */
  function AddsOf(plan: seq<Insertion>, blocks: seq<Block>): seq<Q.Addition> {
    if plan == [] then []
    else
      var before, last := AddsOf(plan[..|plan| - 1], blocks), plan[|plan| - 1];
      if last.request < |blocks| then before + [Q.Addition(last.queue, blocks[last.request].start)] else before
  }

  /** The address belongs to memory that is in use. */
  ghost predicate InUse(ps: seq<Pool>, x: nat) {
    exists k :: 0 <= k < |ps| && ps[k].base + HEADER <= x < ps[k].used
  }

  ghost predicate AllInUse(ps: seq<Pool>, contents: seq<seq<nat>>) {
    forall c <- contents :: forall x <- c :: InUse(ps, x)
  }

  // ----------------------------------------------- new elements are new

  lemma {:induction false} AddsFrom(plan: seq<Insertion>, blocks: seq<Block>, k: nat) returns (i: nat)
    requires k < |AddsOf(plan, blocks)|
    ensures i < |plan| && plan[i].request < |blocks|
    ensures AddsOf(plan, blocks)[k] == Q.Addition(plan[i].queue, blocks[plan[i].request].start)
    decreases |plan|
  {
    var front := plan[..|plan| - 1];
    if k < |AddsOf(front, blocks)| {
      i := AddsFrom(front, blocks, k);
      assert front[i] == plan[i];
    } else {
      i := |plan| - 1;
    }
  }

  lemma NewBlock(ps: seq<Pool>, ps': seq<Pool>, b: Block, x: nat)
    requires Ok(ps) && Ok(ps') && TakenFrom(ps, ps') && Carved(ps, ps', b) && b.size > 0 && InUse(ps, x)
    ensures x != b.start && b.start != 0 && InUse(ps', b.start)
  {
    var k :| 0 <= k < |ps| && ps[k].used <= b.start && b.start + b.size <= ps'[k].used;
    var m :| 0 <= m < |ps| && ps[m].base + HEADER <= x < ps[m].used;
    assert PoolOk(ps[k]) && PoolOk(ps[m]) && PoolOk(ps'[k]);
    if m < k { assert Apart(ps[m], ps[k]); } else if k < m { assert Apart(ps[k], ps[m]); }
    assert ps'[k].base + HEADER <= b.start < ps'[k].used;
  }

  lemma BlockInUse(ps: seq<Pool>, ps': seq<Pool>, b: Block)
    requires Ok(ps) && Ok(ps') && TakenFrom(ps, ps') && Carved(ps, ps', b) && b.size > 0
    ensures b.start != 0 && InUse(ps', b.start)
  {
    var k :| 0 <= k < |ps| && ps[k].used <= b.start && b.start + b.size <= ps'[k].used;
    assert PoolOk(ps[k]);
    assert ps'[k].base + HEADER <= b.start < ps'[k].used;
  }

  lemma GrantedBlock(ps: seq<Pool>, sizes: seq<nat>, r: nat)
    requires Ok(ps) && r < |Serve(ps, sizes).1| && r < |sizes| && sizes[r] > 0
    ensures var (ps', bs) := Serve(ps, sizes);
      Ok(ps') && TakenFrom(ps, ps') && Carved(ps, ps', bs[r]) && bs[r].size > 0
  {
    ServeKeeps(ps, sizes);
    ServeOk(ps, sizes);
    assert Granted(ps, Serve(ps, sizes).0, sizes[r], Serve(ps, sizes).1[r]);
  }

  /** The elements that an attempt adds are in none of the queues, and no two are the same. */
  lemma AddsAreNew(ps: seq<Pool>, sizes: seq<nat>, plan: seq<Insertion>, contents: seq<seq<nat>>)
    requires Ok(ps) && AllInUse(ps, contents) && PlanOk(plan, sizes, |contents|)
    ensures Q.Additions(contents, AddsOf(plan, Serve(ps, sizes).1))
  {
    var bs := Serve(ps, sizes).1;
    ServeKeeps(ps, sizes);
    var adds := AddsOf(plan, bs);
    forall k | 0 <= k < |adds| ensures adds[k].queue < |contents| && Q.New(contents, adds[k].node) {
      var i := AddsFrom(plan, bs, k);
      NewNode(ps, sizes, contents, plan[i].request);
    }
    AddsDiffer(ps, sizes, plan, |contents|);
  }

  lemma NewNode(ps: seq<Pool>, sizes: seq<nat>, contents: seq<seq<nat>>, r: nat)
    requires Ok(ps) && AllInUse(ps, contents) && r < |Serve(ps, sizes).1| && r < |sizes| && sizes[r] > 0
    ensures Q.New(contents, Serve(ps, sizes).1[r].start)
  {
    GrantedBlock(ps, sizes, r);
    var (ps', bs) := Serve(ps, sizes);
    BlockInUse(ps, ps', bs[r]);
    forall c | c in contents ensures bs[r].start !in c {
      forall x | x in c ensures x != bs[r].start {
        NewBlock(ps, ps', bs[r], x);
      }
    }
  }

  lemma {:induction false} AddsDiffer(ps: seq<Pool>, sizes: seq<nat>, plan: seq<Insertion>, n: nat)
    requires Ok(ps) && PlanOk(plan, sizes, n)
    ensures var adds := AddsOf(plan, Serve(ps, sizes).1);
      forall i, j :: 0 <= i < j < |adds| ==> adds[i].node != adds[j].node
    decreases |plan|
  {
    if plan != [] {
      var bs := Serve(ps, sizes).1;
      var front, last := plan[..|plan| - 1], plan[|plan| - 1];
      AddsDiffer(ps, sizes, front, n);
      var before := AddsOf(front, bs);
      if last.request < |bs| {
        forall i | 0 <= i < |before| ensures before[i].node != bs[last.request].start {
          var m := AddsFrom(front, bs, i);
          assert front[m] == plan[m];
          StartsDiffer(ps, sizes, plan[m].request, last.request);
        }
        var adds := before + [Q.Addition(last.queue, bs[last.request].start)];
        assert AddsOf(plan, bs) == adds;
        forall i, j | 0 <= i < j < |adds| ensures adds[i].node != adds[j].node {
          if j < |before| { assert before[i].node != before[j].node; }
        }
      } else {
        assert AddsOf(plan, bs) == before;
      }
    }
  }

  lemma StartsDiffer(ps: seq<Pool>, sizes: seq<nat>, r: nat, s: nat)
    requires Ok(ps) && r < |Serve(ps, sizes).1| && s < |Serve(ps, sizes).1| && r != s
    requires r < |sizes| && s < |sizes| && sizes[r] > 0 && sizes[s] > 0
    ensures Serve(ps, sizes).1[r].start != Serve(ps, sizes).1[s].start
  {
    ServeOk(ps, sizes);
    GrantedBlock(ps, sizes, r);
    GrantedBlock(ps, sizes, s);
    var bs := Serve(ps, sizes).1;
    if r < s { assert Disjoint(bs[r], bs[s]); } else { assert Disjoint(bs[s], bs[r]); }
  }

  // --------------------------------------------------- what stays in use

  lemma InUseLater(ps: seq<Pool>, ps': seq<Pool>, contents: seq<seq<nat>>)
    requires AllInUse(ps, contents) && |ps| <= |ps'|
    requires forall k :: 0 <= k < |ps| ==> ps'[k].base == ps[k].base && ps[k].used <= ps'[k].used
    ensures AllInUse(ps', contents)
  {
    forall c, x | c in contents && x in c ensures InUse(ps', x) {
      assert InUse(ps, x);
      var k :| 0 <= k < |ps| && ps[k].base + HEADER <= x < ps[k].used;
      assert ps'[k].base + HEADER <= x < ps'[k].used;
    }
  }

  lemma {:induction false} ExtendedInUse(ps: seq<Pool>, contents: seq<seq<nat>>, adds: seq<Q.Addition>)
    requires AllInUse(ps, contents) && forall a <- adds :: a.queue < |contents| && InUse(ps, a.node)
    ensures AllInUse(ps, Q.Extended(contents, adds))
    decreases |adds|
  {
    if adds != [] {
      var a := adds[0];
      assert a in adds;
      var contents' := contents[a.queue := contents[a.queue] + [a.node]];
      forall c, x | c in contents' && x in c ensures InUse(ps, x) {
        if x != a.node {
          assert contents[a.queue] in contents;
          assert c in contents || c == contents[a.queue] + [a.node];
        }
      }
      ExtendedInUse(ps, contents', adds[1..]);
    }
  }

  lemma ServedInUse(ps: seq<Pool>, sizes: seq<nat>, plan: seq<Insertion>, contents: seq<seq<nat>>)
    requires Ok(ps) && AllInUse(ps, contents) && PlanOk(plan, sizes, |contents|)
    ensures var (ps', bs) := Serve(ps, sizes);
      (forall a <- AddsOf(plan, bs) :: a.queue < |contents|) && AllInUse(ps', Q.Extended(contents, AddsOf(plan, bs)))
  {
    var (ps', bs) := Serve(ps, sizes);
    ServeKeeps(ps, sizes);
    InUseLater(ps, ps', contents);
    var adds := AddsOf(plan, bs);
    forall k | 0 <= k < |adds| ensures adds[k].queue < |contents| && InUse(ps', adds[k].node) {
      var i := AddsFrom(plan, bs, k);
      GrantedBlock(ps, sizes, plan[i].request);
      BlockInUse(ps, ps', bs[plan[i].request]);
    }
    ExtendedInUse(ps', contents, adds);
  }

  // ----------------------------------------------------------- the loop

  datatype Verdict = Loaded | Refused | Dead | Again

  function EndOfRound(e: Mperr, accepted: bool, nonEmpty: bool): Verdict {
    match e
    case NoError => if accepted then Loaded else Refused
    case TooLarge => Refused
    case OutOfPools => if nonEmpty then Again else Dead
  }

  lemma SnapshotTwice(ps: seq<Pool>)
    ensures Snapshot(Snapshot(ps)) == Snapshot(ps)
  {
  }

  lemma ServedOrNot(ps: seq<Pool>, sizes: seq<nat>)
    requires Ok(ps)
    ensures |Serve(ps, sizes).1| <= |sizes|
    ensures Served(ps, sizes) ==> AllSmall(sizes)
  {
    ServeKeeps(ps, sizes);
    if Served(ps, sizes) { ServedAreSmall(ps, sizes); }
  }

  /** How a round can end: out of pools only after fewer expansions than requests. */
  lemma RoundKnown(start: seq<Pool>, bases: seq<nat>, k: nat, sizes: seq<nat>, ps: seq<Pool>)
    requires Ok(start) && Regions(start, bases) && k <= |bases|
    requires Snapshot(ps) == Grown(start, bases, k) && Ok(Snapshot(ps))
    ensures AllSmall(sizes) && FirstEnding(ps, sizes) == OutOfPools ==> k < |sizes|
    ensures FirstEnding(ps, sizes) == NoError ==> AllSmall(sizes)
    ensures AllSmall(sizes) ==> FirstEnding(ps, sizes) != TooLarge
  {
    if AllSmall(sizes) { EachPoolHelps(start, bases, k, sizes); }
    ServedOrNot(Snapshot(ps), sizes);
  }

  lemma GrownConsistent(ps: seq<Pool>, bases: seq<nat>, k: nat, links: Q.Links, queues: seq<Q.Queue>,
                        contents: seq<seq<nat>>)
    requires Ok(ps) && Regions(ps, bases) && k < |bases| && AllInUse(Grown(ps, bases, k), contents)
    requires Q.AllHold(links, queues, contents)
    ensures Consistent(Grown(ps, bases, k + 1), links, queues, contents)
  {
    GrownOk(ps, bases, k + 1);
    InUseLater(Grown(ps, bases, k), Grown(ps, bases, k + 1), contents);
  }

  /** How the first attempt ends. */
  function FirstEnding(ps: seq<Pool>, sizes: seq<nat>): Mperr
    requires ps != []
  {
    Ending(sizes, |Serve(Snapshot(ps), sizes).1|)
  }

  /** The pools and the queues fit together. */
  ghost predicate Consistent(ps: seq<Pool>, links: Q.Links, queues: seq<Q.Queue>, contents: seq<seq<nat>>) {
    Ok(ps) && Q.AllHold(links, queues, contents) && AllInUse(ps, contents)
  }

  /** Every request fits a pool. */
  ghost predicate AllSmall(sizes: seq<nat>) {
    forall n <- sizes :: Small(n)
  }

  class Parser {
    const memory: Pools
    const context: Q.Context

    constructor (memory: Pools, context: Q.Context)
      ensures this.memory == memory && this.context == context
    {
      this.memory, this.context := memory, context;
    }

    /** One attempt at the file, from the snapshots on. */
    method Attempt(sizes: seq<nat>, plan: seq<Insertion>, ghost contents: seq<seq<nat>>) returns (blocks: seq<Block>)
      requires Consistent(Snapshot(memory.pools), context.links, context.queues, contents)
      requires PlanOk(plan, sizes, |contents|)
      modifies memory, context
      ensures context.snapshot == old(context.queues)
      ensures (memory.pools, blocks) == old(Serve(Snapshot(memory.pools), sizes))
      ensures forall a <- AddsOf(plan, blocks) :: a.queue < |contents|
      ensures (context.links, context.queues) == old(Q.AddAll(context.links, context.queues, AddsOf(plan, blocks)))
      ensures Q.Additions(contents, AddsOf(plan, blocks))
      ensures Consistent(memory.pools, context.links, context.queues, Q.Extended(contents, AddsOf(plan, blocks)))
    {
      ghost var s := Snapshot(memory.pools);
      memory.TakeSnapshot();
      context.TakeSnapshot();
      AddsAreNew(s, sizes, plan, contents);
      ServedInUse(s, sizes, plan, contents);
      ServeKeeps(s, sizes);
      blocks := memory.Attempt(sizes);
      Q.AddAllHold(context.links, context.queues, contents, AddsOf(plan, blocks));
      context.InsertAll(AddsOf(plan, blocks));
    }

    /** Undoes an attempt; `ok` is false where the daemon dies of an empty queue. */
    method Undo(ghost contents: seq<seq<nat>>, ghost links: Q.Links, ghost queues: seq<Q.Queue>,
                ghost adds: seq<Q.Addition>)
        returns (ok: bool)
      requires Q.AllHold(links, queues, contents) && Q.Additions(contents, adds)
      requires (context.links, context.queues) == Q.AddAll(links, queues, adds) && context.snapshot == queues
      modifies memory, context
      ensures memory.pools == Rollback(old(memory.pools))
      ensures ok <==> Q.AllNonEmpty(contents)
      ensures ok ==> context.queues == queues && Q.AllHold(context.links, context.queues, contents)
    {
      Q.RollbackRestores(links, queues, contents, adds);
      memory.RollBack();
      ok := context.Restore();
    }

    /** One round: an attempt, and what its end leads to. */
    method Round(sizes: seq<nat>, accepted: bool, plan: seq<Insertion>, ghost contents: seq<seq<nat>>)
        returns (verdict: Verdict)
      requires Consistent(Snapshot(memory.pools), context.links, context.queues, contents)
      requires PlanOk(plan, sizes, |contents|)
      modifies memory, context
      ensures verdict == EndOfRound(old(FirstEnding(memory.pools, sizes)), accepted, Q.AllNonEmpty(contents))
      ensures verdict == Loaded ==> DoneWith(old(Snapshot(memory.pools)), sizes, plan, contents)
      ensures verdict == Again ==>
        Snapshot(memory.pools) == old(Snapshot(memory.pools)) && Q.AllHold(context.links, context.queues, contents)
    {
      ghost var links, queues := context.links, context.queues;
      SnapshotTwice(memory.pools);
      AttemptEnds(Snapshot(memory.pools), sizes);
      var blocks := Attempt(sizes, plan, contents);
      if |blocks| == |sizes| && accepted {
        return Loaded;
      }
      var e := memory.GetError();
      if e != OutOfPools {
        return Refused;
      }
      var ok := Undo(contents, links, queues, AddsOf(plan, blocks));
      verdict := if ok then Again else Dead;
    }

    /**
     `parse`: the file needs the allocations `sizes`, in that order, and puts its elements into the
     queues as `plan` says; `accepted` says whether it is well formed, and `bases` are the regions
     that `mmap` can still hand out.  The result is `Dead` exactly when the first attempt runs out of
     memory and some queue was empty before it.
     */
    method Parse(sizes: seq<nat>, accepted: bool, plan: seq<Insertion>, bases: seq<nat>, ghost contents: seq<seq<nat>>)
        returns (verdict: Verdict, k: nat)
      requires Consistent(Snapshot(memory.pools), context.links, context.queues, contents)
      requires PlanOk(plan, sizes, |contents|) && Regions(Snapshot(memory.pools), bases)
      modifies memory, context
      ensures k <= |bases| && verdict != Again
      ensures verdict == Dead <==> old(FirstEnding(memory.pools, sizes)) == OutOfPools && !Q.AllNonEmpty(contents)
      ensures verdict == Loaded ==> accepted && AllSmall(sizes)
      ensures verdict == Loaded ==> DoneWith(old(Grown(Snapshot(memory.pools), bases, k)), sizes, plan, contents)
      ensures AllSmall(sizes) ==> k <= |sizes|
      ensures accepted && AllSmall(sizes) && |bases| >= |sizes| ==> verdict != Refused
    {
      ghost var start := Snapshot(memory.pools);
      k := 0;
      while true
        invariant k <= |bases| && Snapshot(memory.pools) == Grown(start, bases, k)
        invariant k > 0 ==> Q.AllNonEmpty(contents)
        invariant k == 0 ==> FirstEnding(memory.pools, sizes) == old(FirstEnding(memory.pools, sizes))
        invariant Consistent(Snapshot(memory.pools), context.links, context.queues, contents)
        invariant AllSmall(sizes) ==> k <= |sizes|
        decreases |bases| - k
      {
        RoundKnown(start, bases, k, sizes, memory.pools);
        verdict := Round(sizes, accepted, plan, contents);
        if verdict != Again {
          return;
        }
        if k == |bases| {
          verdict := Refused;
          return;
        }
        GrownConsistent(start, bases, k, context.links, context.queues, contents);
        ExpandLater(memory.pools, bases[k]);
        memory.Expand(bases[k]);
        k := k + 1;
      }
    }

    /** All requests served, and the queues hold the elements of the file after those they held. */
    ghost predicate DoneWith(ps: seq<Pool>, sizes: seq<nat>, plan: seq<Insertion>, contents: seq<seq<nat>>)
      reads memory, context
    {
      && ps != [] && Served(ps, sizes) && memory.pools == Serve(ps, sizes).0
      && (forall a <- AddsOf(plan, Serve(ps, sizes).1) :: a.queue < |contents|)
      && Consistent(memory.pools, context.links, context.queues,
                    Q.Extended(contents, AddsOf(plan, Serve(ps, sizes).1)))
    }
  }
}
