/**
 The section lists of the parser: tail queues whose heads live in the parser context and whose
 links live in the memory shared with the parsing process.  When an attempt is thrown away the
 heads are copied back from a snapshot and the link that leaves the last element is cut.
 */
module Queues {
  import opened Options

  type Address = nat

  const NULL: Address := 0

  /** `STAILQ_HEAD`; `last` is `NULL` while it points at the head itself. */
  datatype Queue = Queue(first: Address, last: Address)

  const EMPTY: Queue := Queue(NULL, NULL)

  /** The `next` field of every element. */
  type Links = map<Address, Address>

  function Next(nodes: seq<Address>, i: nat): Address {
    if i + 1 < |nodes| then nodes[i + 1] else NULL
  }

  /** The queue holds exactly these elements, in this order. */
  ghost predicate Holds(links: Links, q: Queue, nodes: seq<Address>) {
    && (nodes == [] ==> q == EMPTY)
    && (nodes != [] ==> q == Queue(nodes[0], nodes[|nodes| - 1]))
    && (forall i :: 0 <= i < |nodes| ==> nodes[i] != NULL && nodes[i] in links && links[nodes[i]] == Next(nodes, i))
    && (forall i, j :: 0 <= i < j < |nodes| ==> nodes[i] != nodes[j])
  }

  ghost predicate Apart(a: seq<Address>, b: seq<Address>) {
    forall x <- a :: x !in b
  }

  /** Several queues in one memory. */
  ghost predicate AllHold(links: Links, qs: seq<Queue>, contents: seq<seq<Address>>) {
    && |qs| == |contents|
    && (forall i :: 0 <= i < |qs| ==> Holds(links, qs[i], contents[i]))
    && (forall i, j :: 0 <= i < |qs| && 0 <= j < |qs| && i != j ==> Apart(contents[i], contents[j]))
  }

  /** `STAILQ_INSERT_TAIL`. */
  function Insert(links: Links, q: Queue, x: Address): (Links, Queue) {
    var added := links[x := NULL];
    if q.last == NULL then (added, Queue(x, x)) else (added[q.last := x], Queue(q.first, x))
  }

  /** An element added to one of the queues. */
  datatype Addition = Addition(queue: nat, node: Address)

  function AddAll(links: Links, qs: seq<Queue>, adds: seq<Addition>): (Links, seq<Queue>)
    requires forall a <- adds :: a.queue < |qs|
    decreases |adds|
  {
    if adds == [] then (links, qs)
    else
      var a := adds[0];
      var (links', q) := Insert(links, qs[a.queue], a.node);
      AddAll(links', qs[a.queue := q], adds[1..])
  }

  /** `END_UP` of one queue; on an empty one it writes through a null pointer. */
  function EndUp(links: Links, q: Queue): Option<Links> {
    if q.first == NULL then None else Some(links[q.last := NULL])
  }

  function EndUpAll(links: Links, qs: seq<Queue>): Option<Links>
    decreases |qs|
  {
    if qs == [] then Some(links)
    else
      var l := EndUp(links, qs[0]);
      if l.None? then None else EndUpAll(l.value, qs[1..])
  }

  lemma InsertHolds(links: Links, q: Queue, nodes: seq<Address>, x: Address)
    requires Holds(links, q, nodes) && x != NULL && x !in nodes
    ensures var (links', q') := Insert(links, q, x); Holds(links', q', nodes + [x])
  {
    var (links', q') := Insert(links, q, x);
    var all := nodes + [x];
    forall i | 0 <= i < |all| ensures all[i] != NULL && all[i] in links' && links'[all[i]] == Next(all, i) {
      if i < |nodes| { assert links[nodes[i]] == Next(nodes, i); }
    }
  }

  lemma InsertSpares(links: Links, q: Queue, nodes: seq<Address>, x: Address, p: Queue, others: seq<Address>)
    requires Holds(links, q, nodes) && Holds(links, p, others) && x != NULL && x !in others && Apart(others, nodes)
    ensures Holds(Insert(links, q, x).0, p, others)
  {
    if nodes != [] { assert nodes[|nodes| - 1] in nodes; }
    forall i | 0 <= i < |others|
      ensures others[i] in Insert(links, q, x).0 && Insert(links, q, x).0[others[i]] == links[others[i]]
    {
      assert others[i] in others;
    }
  }

  ghost predicate New(contents: seq<seq<Address>>, x: Address) {
    x != NULL && forall c <- contents :: x !in c
  }

  lemma InsertAllHold(links: Links, qs: seq<Queue>, contents: seq<seq<Address>>, a: Addition)
    requires AllHold(links, qs, contents) && a.queue < |qs| && New(contents, a.node)
    ensures var (links', q) := Insert(links, qs[a.queue], a.node);
      AllHold(links', qs[a.queue := q], contents[a.queue := contents[a.queue] + [a.node]])
  {
    var k, x := a.queue, a.node;
    var (links', q) := Insert(links, qs[k], x);
    forall i | 0 <= i < |contents| ensures x !in contents[i] {
      assert contents[i] in contents;
    }
    InsertHolds(links, qs[k], contents[k], x);
    forall i | 0 <= i < |qs| && i != k ensures Holds(links', qs[i], contents[i]) {
      InsertSpares(links, qs[k], contents[k], x, qs[i], contents[i]);
    }
    var contents' := contents[k := contents[k] + [x]];
    forall i, j | 0 <= i < |qs| && 0 <= j < |qs| && i != j ensures Apart(contents'[i], contents'[j]) {
      assert Apart(contents[i], contents[j]) && Apart(contents[j], contents[i]);
    }
  }

  /** The new elements are new and differ from each other. */
  ghost predicate Additions(contents: seq<seq<Address>>, adds: seq<Addition>) {
    && (forall a <- adds :: a.queue < |contents| && New(contents, a.node))
    && (forall i, j :: 0 <= i < j < |adds| ==> adds[i].node != adds[j].node)
  }

  /** Longer, queue by queue, and by additions at the end only. */
  ghost predicate Extends(contents: seq<seq<Address>>, longer: seq<seq<Address>>) {
    |contents| == |longer| && forall i :: 0 <= i < |contents| ==> contents[i] <= longer[i]
  }

  /** What the queues hold after the additions. */
  function Extended(contents: seq<seq<Address>>, adds: seq<Addition>): seq<seq<Address>>
    requires forall a <- adds :: a.queue < |contents|
    decreases |adds|
  {
    if adds == [] then contents
    else Extended(contents[adds[0].queue := contents[adds[0].queue] + [adds[0].node]], adds[1..])
  }

  lemma AdditionsRest(contents: seq<seq<Address>>, adds: seq<Addition>)
    requires Additions(contents, adds) && adds != []
    ensures var a := adds[0];
      Additions(contents[a.queue := contents[a.queue] + [a.node]], adds[1..])
  {
    var a, rest := adds[0], adds[1..];
    assert a in adds;
    var contents' := contents[a.queue := contents[a.queue] + [a.node]];
    forall b | b in rest ensures New(contents', b.node) {
      var i :| 0 <= i < |rest| && rest[i] == b;
      assert adds[i + 1] == b && b in adds;
      assert contents[a.queue] in contents;
      forall c | c in contents' ensures b.node !in c {
        assert c in contents || c == contents[a.queue] + [a.node];
      }
    }
  }

  lemma {:induction false} AddAllHold(links: Links, qs: seq<Queue>, contents: seq<seq<Address>>, adds: seq<Addition>)
    requires AllHold(links, qs, contents) && Additions(contents, adds)
    ensures AllHold(AddAll(links, qs, adds).0, AddAll(links, qs, adds).1, Extended(contents, adds))
    ensures Extends(contents, Extended(contents, adds))
    decreases |adds|
  {
    if adds != [] {
      var a := adds[0];
      assert a in adds;
      InsertAllHold(links, qs, contents, a);
      AdditionsRest(contents, adds);
      var (links', q) := Insert(links, qs[a.queue], a.node);
      AddAllHold(links', qs[a.queue := q], contents[a.queue := contents[a.queue] + [a.node]], adds[1..]);
    }
  }

  /** Cutting the link after a prefix leaves a queue that holds the prefix. */
  lemma CutHolds(links: Links, q: Queue, nodes: seq<Address>, prefix: seq<Address>)
    requires Holds(links, q, nodes) && prefix <= nodes && prefix != []
    ensures Holds(links[prefix[|prefix| - 1] := NULL], Queue(prefix[0], prefix[|prefix| - 1]), prefix)
  {
    var cut := links[prefix[|prefix| - 1] := NULL];
    forall i | 0 <= i < |prefix| ensures prefix[i] != NULL && prefix[i] in cut && cut[prefix[i]] == Next(prefix, i) {
      assert prefix[i] == nodes[i] && links[nodes[i]] == Next(nodes, i);
    }
  }

  /** What holds of the queues while the first `k` of them have been put back. */
  ghost predicate PutBack(links: Links, qs: seq<Queue>, contents: seq<seq<Address>>, qs': seq<Queue>,
                          longer: seq<seq<Address>>, k: nat) {
    && |qs| == |contents| == |qs'| == |longer| && k <= |qs|
    && (forall i :: 0 <= i < k ==> Holds(links, qs[i], contents[i]))
    && (forall i :: k <= i < |qs| ==> Holds(links, qs'[i], longer[i]))
    && (forall i, j :: 0 <= i < |qs| && 0 <= j < |qs| && i != j ==> Apart(longer[i], longer[j]))
    && Extends(contents, longer)
    && forall i :: 0 <= i < |qs| && contents[i] != [] ==> qs[i] == Queue(contents[i][0], contents[i][|contents[i]| - 1])
  }

  lemma CutElsewhere(links: Links, q: Queue, nodes: seq<Address>, x: Address)
    requires Holds(links, q, nodes) && x !in nodes
    ensures Holds(links[x := NULL], q, nodes)
  {
    forall i | 0 <= i < |nodes| ensures links[x := NULL][nodes[i]] == links[nodes[i]] {
      assert nodes[i] in nodes;
    }
  }

  lemma PutBackNext(links: Links, qs: seq<Queue>, contents: seq<seq<Address>>, qs': seq<Queue>,
                    longer: seq<seq<Address>>, k: nat)
    requires PutBack(links, qs, contents, qs', longer, k) && k < |qs| && contents[k] != []
    ensures PutBack(links[qs[k].last := NULL], qs, contents, qs', longer, k + 1)
  {
    var x := qs[k].last;
    assert x == contents[k][|contents[k]| - 1] == longer[k][|contents[k]| - 1];
    assert x in longer[k];
    CutHolds(links, qs'[k], longer[k], contents[k]);
    forall i | 0 <= i < |qs| && i != k ensures x !in longer[i] && x !in contents[i] {
      assert Apart(longer[k], longer[i]);
      assert forall y <- contents[i] :: y in longer[i];
    }
    forall i | 0 <= i < k ensures Holds(links[x := NULL], qs[i], contents[i]) {
      CutElsewhere(links, qs[i], contents[i], x);
    }
    forall i | k < i < |qs| ensures Holds(links[x := NULL], qs'[i], longer[i]) {
      CutElsewhere(links, qs'[i], longer[i], x);
    }
  }

  lemma {:induction false} EndUpFrom(links: Links, qs: seq<Queue>, contents: seq<seq<Address>>, qs': seq<Queue>,
                                     longer: seq<seq<Address>>, k: nat)
    requires PutBack(links, qs, contents, qs', longer, k)
    requires forall i :: k <= i < |qs| ==> contents[i] != []
    ensures EndUpAll(links, qs[k..]).Some?
    ensures PutBack(EndUpAll(links, qs[k..]).value, qs, contents, qs', longer, |qs|)
    decreases |qs| - k
  {
    if k < |qs| {
      PutBackNext(links, qs, contents, qs', longer, k);
      assert qs[k].first == contents[k][0] == longer[k][0];
      assert Holds(links, qs'[k], longer[k]);
      assert qs[k..][0] == qs[k] && qs[k..][1..] == qs[k + 1..];
      EndUpFrom(links[qs[k].last := NULL], qs, contents, qs', longer, k + 1);
    }
  }

  lemma {:induction false} EndUpStops(links: Links, qs: seq<Queue>, k: nat)
    requires k < |qs| && qs[k].first == NULL
    ensures EndUpAll(links, qs).None?
    decreases k
  {
    if qs[0].first != NULL {
      assert qs[1..][k - 1] == qs[k];
      EndUpStops(links[qs[0].last := NULL], qs[1..], k - 1);
    }
  }

  ghost predicate AllNonEmpty(contents: seq<seq<Address>>) {
    forall i :: 0 <= i < |contents| ==> contents[i] != []
  }

  /**
   Throwing an attempt away restores every queue, whatever the attempt added to which queue,
   exactly when none of the queues was empty at the snapshot; otherwise the daemon dies.
   */
  lemma RollbackRestores(links: Links, qs: seq<Queue>, contents: seq<seq<Address>>, adds: seq<Addition>)
    requires AllHold(links, qs, contents) && Additions(contents, adds)
    ensures var ended := EndUpAll(AddAll(links, qs, adds).0, qs);
      if AllNonEmpty(contents) then ended.Some? && AllHold(ended.value, qs, contents) else ended.None?
  {
    var added := AddAll(links, qs, adds);
    AddAllHold(links, qs, contents, adds);
    var longer := Extended(contents, adds);
    if AllNonEmpty(contents) {
      assert forall i :: 0 <= i < |qs| ==> Holds(links, qs[i], contents[i]);
      assert PutBack(added.0, qs, contents, added.1, longer, 0);
      EndUpFrom(added.0, qs, contents, added.1, longer, 0);
      assert qs[0..] == qs;
    } else {
      var k :| 0 <= k < |contents| && contents[k] == [];
      assert Holds(links, qs[k], contents[k]);
      EndUpStops(added.0, qs, k);
    }
  }

  /** The first file is parsed with only the list of files filled, so its first retry ends the daemon. */
  lemma FirstFileCannotRetry(links: Links, file: Address, adds: seq<Addition>)
    requires AllHold(links, [EMPTY, EMPTY, EMPTY, Queue(file, file)], [[], [], [], [file]])
    requires Additions([[], [], [], [file]], adds)
    ensures EndUpAll(AddAll(links, [EMPTY, EMPTY, EMPTY, Queue(file, file)], adds).0,
                     [EMPTY, EMPTY, EMPTY, Queue(file, file)]).None?
  {
    var contents: seq<seq<Address>> := [[], [], [], [file]];
    assert contents[0] == [];
    RollbackRestores(links, [EMPTY, EMPTY, EMPTY, Queue(file, file)], contents, adds);
  }

  lemma OneAddition(links: Links, qs: seq<Queue>, a: Addition)
    requires a.queue < |qs|
    ensures AddAll(links, qs, [a]) ==
            var (links', q) := Insert(links, qs[a.queue], a.node); (links', qs[a.queue := q])
  {
    assert [a][1..] == [];
  }

  /** The parser context and its snapshot. */
  class Context {
    var links: Links
    var queues: seq<Queue>
    var snapshot: seq<Queue>

    constructor (n: nat)
      ensures links == map[] && queues == seq(n, _ => EMPTY) && snapshot == []
    {
      links, queues, snapshot := map[], seq(n, _ => EMPTY), [];
    }

    method TakeSnapshot()
      modifies this`snapshot
      ensures snapshot == queues
    {
      snapshot := queues;
    }

    method InsertTail(k: nat, x: Address)
      requires k < |queues|
      modifies this`links, this`queues
      ensures (links, queues) == AddAll(old(links), old(queues), [Addition(k, x)])
    {
      var q := queues[k];
      links := links[x := NULL];
      if q.last == NULL {
        queues := queues[k := Queue(x, x)];
      } else {
        links := links[q.last := x];
        queues := queues[k := Queue(q.first, x)];
      }
      assert [Addition(k, x)][1..] == [];
    }

    method InsertAll(adds: seq<Addition>)
      requires forall a <- adds :: a.queue < |queues|
      modifies this`links, this`queues
      ensures (links, queues) == AddAll(old(links), old(queues), adds) && |queues| == |old(queues)|
    {
      var i := 0;
      assert adds[0..] == adds;
      while i < |adds|
        invariant 0 <= i <= |adds| && |queues| == |old(queues)|
        invariant AddAll(old(links), old(queues), adds) == AddAll(links, queues, adds[i..])
      {
        assert adds[i..][0] == adds[i] && adds[i..][1..] == adds[i + 1..];
        assert adds[i] in adds;
        OneAddition(links, queues, adds[i]);
        InsertTail(adds[i].queue, adds[i].node);
        i := i + 1;
      }
    }

    /** The four `END_UP`s after the heads are copied back; `ok` is false where the daemon dies. */
    method Restore() returns (ok: bool)
      modifies this`links, this`queues
      ensures queues == snapshot
      ensures ok == EndUpAll(old(links), snapshot).Some?
      ensures ok ==> links == EndUpAll(old(links), snapshot).value
    {
      queues := snapshot;
      var i := 0;
      assert queues[0..] == queues;
      while i < |queues|
        invariant 0 <= i <= |queues| && queues == snapshot
        invariant EndUpAll(old(links), snapshot) == EndUpAll(links, queues[i..])
      {
        assert queues[i..][0] == queues[i] && queues[i..][1..] == queues[i + 1..];
        if queues[i].first == NULL {
          return false;
        }
        links := links[queues[i].last := NULL];
        i := i + 1;
      }
      ok := true;
    }
  }
}
