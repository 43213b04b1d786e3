/**
 The events the daemon waits for, twice over: its own list, and what the kernel has been told.
 The kernel takes changes in batches, and stops at the first it refuses.
 */
module Registry {
  import opened Options

  /** What the kernel knows an event by: identifier and filter. */
  datatype Key = Key(ident: int, filter: int)

  /** `struct event`; `id` is its address. */
  datatype Event = Event(id: nat, key: Key, owner: nat)

  /** The keys the kernel watches, and the event it reports for each. */
  type Kernel = map<Key, nat>

  type Choice = Event -> bool

  const EVFILT_READ := -1
  const EVFILT_PROC := -5
  const EVFILT_TIMER := -7

  const BATCH: nat := 5

  function Chosen(list: seq<Event>, fn: Choice): seq<Event> {
    if list == [] then []
    else
      var before := Chosen(list[..|list| - 1], fn);
      if fn(list[|list| - 1]) then before + [list[|list| - 1]] else before
  }

  function Kept(list: seq<Event>, fn: Choice): seq<Event> {
    if list == [] then []
    else
      var before := Kept(list[..|list| - 1], fn);
      if fn(list[|list| - 1]) then before else before + [list[|list| - 1]]
  }

  function Concat(batches: seq<seq<Event>>): seq<Event> {
    if batches == [] then [] else Concat(batches[..|batches| - 1]) + batches[|batches| - 1]
  }

  /** A batch of deletions: those after the first key that is not there are not made. */
  function Delete(kernel: Kernel, batch: seq<Event>): Kernel {
    if batch == [] || batch[0].key !in kernel then kernel
    else Delete(kernel - {batch[0].key}, batch[1..])
  }

  function DeleteBatches(kernel: Kernel, batches: seq<seq<Event>>): Kernel {
    if batches == [] then kernel
    else Delete(DeleteBatches(kernel, batches[..|batches| - 1]), batches[|batches| - 1])
  }

  ghost predicate DistinctKeys(list: seq<Event>) {
    forall i, j :: 0 <= i < j < |list| ==> list[i].key != list[j].key
  }

  /** List and kernel agree: one entry per key, and the kernel reports that entry. */
  ghost predicate Synced(list: seq<Event>, kernel: Kernel) {
    && DistinctKeys(list)
    && (forall e <- list :: e.key in kernel && kernel[e.key] == e.id)
    && (forall k :: k in kernel ==> exists e <- list :: e.key == k)
  }

  function Keys(list: seq<Event>): set<Key> {
    set e <- list :: e.key
  }

  lemma {:induction false} DeleteExact(kernel: Kernel, batch: seq<Event>)
    requires DistinctKeys(batch) && Keys(batch) <= kernel.Keys
    ensures Delete(kernel, batch) == kernel - Keys(batch)
    decreases |batch|
  {
    if batch != [] {
      var rest := batch[1..];
      assert batch == [batch[0]] + rest;
      assert Keys(batch) == {batch[0].key} + Keys(rest);
      forall e | e in rest ensures e.key != batch[0].key {
        var i :| 0 <= i < |rest| && rest[i] == e;
        assert batch[i + 1] == e;
      }
      DeleteExact(kernel - {batch[0].key}, rest);
    } else {
      assert kernel - Keys(batch) == kernel;
    }
  }

  lemma {:induction false} BatchesExact(kernel: Kernel, batches: seq<seq<Event>>)
    requires DistinctKeys(Concat(batches)) && Keys(Concat(batches)) <= kernel.Keys
    ensures DeleteBatches(kernel, batches) == kernel - Keys(Concat(batches))
    decreases |batches|
  {
    if batches != [] {
      var front, last := batches[..|batches| - 1], batches[|batches| - 1];
      var a := Concat(front);
      assert Concat(batches) == a + last;
      assert forall i :: 0 <= i < |a| ==> (a + last)[i] == a[i];
      assert forall i :: 0 <= i < |last| ==> (a + last)[|a| + i] == last[i];
      assert Keys(a + last) == Keys(a) + Keys(last);
      BatchesExact(kernel, front);
      forall e | e in last ensures e.key !in Keys(a) {
        var i :| 0 <= i < |last| && last[i] == e;
        assert (a + last)[|a| + i].key == e.key;
        forall f | f in a ensures f.key != e.key {
          var j :| 0 <= j < |a| && a[j] == f;
          assert (a + last)[j].key == f.key;
        }
      }
      DeleteExact(kernel - Keys(a), last);
    } else {
      assert kernel - Keys([]) == kernel;
    }
  }

  /** Both go along the list, so the order is kept. */
  lemma {:induction false} ChosenConcat(a: seq<Event>, b: seq<Event>, fn: Choice)
    ensures Chosen(a + b, fn) == Chosen(a, fn) + Chosen(b, fn) && Kept(a + b, fn) == Kept(a, fn) + Kept(b, fn)
    decreases |b|
  {
    if b == [] {
      assert a + b == a;
    } else {
      var front, last := b[..|b| - 1], b[|b| - 1];
      ChosenConcat(a, front, fn);
      assert (a + b)[..|a + b| - 1] == a + front && (a + b)[|a + b| - 1] == last;
    }
  }

  lemma {:induction false} ChosenOrKept(list: seq<Event>, fn: Choice)
    ensures forall e :: e in Chosen(list, fn) <==> e in list && fn(e)
    ensures forall e :: e in Kept(list, fn) <==> e in list && !fn(e)
    ensures DistinctKeys(list) ==> DistinctKeys(Chosen(list, fn)) && DistinctKeys(Kept(list, fn))
  {
    if list != [] {
      var front, last := list[..|list| - 1], list[|list| - 1];
      ChosenOrKept(front, fn);
      assert list == front + [last];
      if DistinctKeys(list) {
        forall e | e in front ensures e.key != last.key {
          var i :| 0 <= i < |front| && front[i] == e;
          assert list[i] == e;
        }
      }
    }
  }

  /** Deleting the chosen events, in whatever batches, keeps list and kernel in step. */
  lemma StopKeepsSync(list: seq<Event>, kernel: Kernel, fn: Choice, batches: seq<seq<Event>>)
    requires Synced(list, kernel) && Concat(batches) == Chosen(list, fn)
    ensures Synced(Kept(list, fn), DeleteBatches(kernel, batches))
  {
    ChosenOrKept(list, fn);
    var chosen, kept := Chosen(list, fn), Kept(list, fn);
    BatchesExact(kernel, batches);
    var kernel' := kernel - Keys(chosen);
    forall e | e in kept ensures e.key in kernel' && kernel'[e.key] == e.id {
      forall f | f in chosen ensures f.key != e.key {
        if f.key == e.key { SameKey(list, e, f); }
      }
    }
    forall k | k in kernel' ensures exists e <- kept :: e.key == k {
      var e :| e in list && e.key == k;
      assert e !in chosen;
      assert e in kept;
    }
  }

  lemma SameKey(list: seq<Event>, e: Event, f: Event)
    requires DistinctKeys(list) && e in list && f in list && e.key == f.key
    ensures e == f
  {
    var i :| 0 <= i < |list| && list[i] == e;
    var j :| 0 <= j < |list| && list[j] == f;
    assert list[i].key == list[j].key;
  }

  // ------------------------------------------------------- an event in flight

  /**
   The kernel has reported `e`, a one-shot event, and dropped it; the daemon still has it on its
   list while the callback runs.  Everything else is in step.
   */
  ghost predicate InFlight(list: seq<Event>, kernel: Kernel, e: Event) {
    && e in list && e.key !in kernel && DistinctKeys(list)
    && (forall f <- list :: f != e ==> f.key in kernel && kernel[f.key] == f.id)
    && (forall k :: k in kernel ==> exists f <- list :: f.key == k)
  }

  /** A deletion that meets the event in flight: what comes before it in its batch is deleted, the rest is not. */
  lemma {:induction false} DeleteUpTo(kernel: Kernel, batch: seq<Event>, n: nat)
    requires DistinctKeys(batch) && n < |batch| && batch[n].key !in kernel
    requires forall i :: 0 <= i < n ==> batch[i].key in kernel
    ensures Delete(kernel, batch) == kernel - Keys(batch[..n])
    decreases n
  {
    if n > 0 {
      var rest := batch[1..];
      var less := kernel - {batch[0].key};
      assert forall i :: 0 <= i < |rest| ==> rest[i] == batch[i + 1];
      DeleteUpTo(less, rest, n - 1);
      assert batch[..n] == [batch[0]] + rest[..n - 1];
      assert Keys(batch[..n]) == {batch[0].key} + Keys(rest[..n - 1]);
    } else {
      assert Keys(batch[..0]) == {};
    }
  }

  lemma {:induction false} ConcatParts(front: seq<seq<Event>>, back: seq<seq<Event>>)
    ensures Concat(front + back) == Concat(front) + Concat(back)
    decreases |back|
  {
    if back == [] {
      assert front + back == front;
    } else {
      var less := back[..|back| - 1];
      assert (front + back)[..|front + back| - 1] == front + less;
      ConcatParts(front, less);
    }
  }

  lemma {:induction false} DeleteParts(kernel: Kernel, front: seq<seq<Event>>, back: seq<seq<Event>>)
    ensures DeleteBatches(kernel, front + back) == DeleteBatches(DeleteBatches(kernel, front), back)
    decreases |back|
  {
    if back == [] {
      assert front + back == front;
    } else {
      var less := back[..|back| - 1];
      assert (front + back)[..|front + back| - 1] == front + less;
      DeleteParts(kernel, front, less);
    }
  }

  lemma {:induction false} BatchOf(batches: seq<seq<Event>>, e: Event) returns (b: nat, n: nat)
    requires e in Concat(batches)
    ensures b < |batches| && n < |batches[b]| && batches[b][n] == e
    decreases |batches|
  {
    var m := |batches| - 1;
    if e in batches[m] {
      b := m;
      n :| 0 <= n < |batches[m]| && batches[m][n] == e;
    } else {
      b, n := BatchOf(batches[..m], e);
    }
  }

  lemma Around(batches: seq<seq<Event>>, b: nat)
    requires b < |batches|
    ensures batches == batches[..b] + [batches[b]] + batches[b + 1..]
  {
  }

  lemma ConcatMiddle(front: seq<seq<Event>>, batch: seq<Event>, back: seq<seq<Event>>)
    ensures Concat(front + [batch] + back) == Concat(front) + batch + Concat(back)
  {
    ConcatParts(front + [batch], back);
    ConcatParts(front, [batch]);
    assert [batch][..0] == [];
    assert Concat([batch]) == batch;
  }

  lemma DeleteMiddle(kernel: Kernel, front: seq<seq<Event>>, batch: seq<Event>, back: seq<seq<Event>>)
    ensures DeleteBatches(kernel, front + [batch] + back) ==
            DeleteBatches(Delete(DeleteBatches(kernel, front), batch), back)
  {
    DeleteParts(kernel, front + [batch], back);
    DeleteParts(kernel, front, [batch]);
    assert [batch][..0] == [];
  }

  /** `a`, then `e`, then `c`: the batch is cut at the event in flight. */
  lemma CutBatch(kernel: Kernel, a: seq<Event>, e: Event, c: seq<Event>)
    requires DistinctKeys(a + [e] + c) && e.key !in kernel && Keys(a) <= kernel.Keys
    ensures Delete(kernel, a + [e] + c) == kernel - Keys(a)
  {
    var batch := a + [e] + c;
    forall i | 0 <= i < |a| ensures batch[i].key in kernel {
      assert a[i] in a;
    }
    DeleteUpTo(kernel, batch, |a|);
    assert batch[..|a|] == a;
  }

  /** And every other batch is deleted in full. */
  lemma SplitDelete(kernel: Kernel, front: seq<seq<Event>>, a: seq<Event>, e: Event, c: seq<Event>,
                    back: seq<seq<Event>>)
    requires DistinctKeys(Concat(front) + (a + [e] + c) + Concat(back)) && e.key !in kernel
    requires Keys(Concat(front)) <= kernel.Keys && Keys(a) <= kernel.Keys && Keys(Concat(back)) <= kernel.Keys
    ensures DeleteBatches(kernel, front + [a + [e] + c] + back) ==
            kernel - Keys(Concat(front)) - Keys(a) - Keys(Concat(back))
  {
    var x, y, batch := Concat(front), Concat(back), a + [e] + c;
    DistinctParts(x, batch, y);
    BatchesExact(kernel, front);
    var k1 := kernel - Keys(x);
    KeysLeft(kernel, x, a, batch);
    CutBatch(k1, a, e, c);
    var k2 := k1 - Keys(a);
    KeysLeft(kernel, x, y, y);
    KeysApart(a, batch, y);
    BatchesExact(k2, back);
    DeleteMiddle(kernel, front, batch, back);
  }

  lemma KeysLeft(kernel: Kernel, x: seq<Event>, a: seq<Event>, batch: seq<Event>)
    requires Keys(a) <= kernel.Keys && (forall f <- a :: f in batch)
    requires forall f, g :: f in x && g in batch ==> f.key != g.key
    ensures Keys(a) <= (kernel - Keys(x)).Keys
  {
  }

  lemma KeysApart(a: seq<Event>, batch: seq<Event>, y: seq<Event>)
    requires (forall f <- a :: f in batch) && forall f, g :: f in batch && g in y ==> f.key != g.key
    ensures Keys(a) !! Keys(y)
  {
  }

  lemma DistinctParts(a: seq<Event>, b: seq<Event>, c: seq<Event>)
    requires DistinctKeys(a + b + c)
    ensures DistinctKeys(a) && DistinctKeys(b) && DistinctKeys(c)
    ensures forall f, g :: (f in a && g in b) || (f in a && g in c) || (f in b && g in c) ==> f.key != g.key
  {
    var all := a + b + c;
    assert forall i :: 0 <= i < |a| ==> all[i] == a[i];
    assert forall i :: 0 <= i < |b| ==> all[|a| + i] == b[i];
    assert forall i :: 0 <= i < |c| ==> all[|a| + |b| + i] == c[i];
    forall f, g | f in a && g in b ensures f.key != g.key {
      var i :| 0 <= i < |a| && a[i] == f;
      var j :| 0 <= j < |b| && b[j] == g;
      assert all[i].key != all[|a| + j].key;
    }
    forall f, g | f in a && g in c ensures f.key != g.key {
      var i :| 0 <= i < |a| && a[i] == f;
      var j :| 0 <= j < |c| && c[j] == g;
      assert all[i].key != all[|a| + |b| + j].key;
    }
    forall f, g | f in b && g in c ensures f.key != g.key {
      var i :| 0 <= i < |b| && b[i] == f;
      var j :| 0 <= j < |c| && c[j] == g;
      assert all[|a| + i].key != all[|a| + |b| + j].key;
    }
  }

  /** The event is the last of its batch. */
  ghost predicate EndsBatch(batches: seq<seq<Event>>, e: Event) {
    exists b :: 0 <= b < |batches| && batches[b] != [] && batches[b][|batches[b]| - 1] == e
  }

  /**
   A stop that chooses the event in flight takes it off the list; list and kernel are in step
   afterwards exactly when nothing that was chosen follows it in its batch.
   */
  lemma StopInFlightIff(list: seq<Event>, kernel: Kernel, e: Event, fn: Choice, batches: seq<seq<Event>>)
    requires InFlight(list, kernel, e) && fn(e) && Concat(batches) == Chosen(list, fn)
    ensures Synced(Kept(list, fn), DeleteBatches(kernel, batches)) <==> EndsBatch(batches, e)
  {
    ChosenOrKept(list, fn);
    var b, n := BatchOf(batches, e);
    var batch := batches[b];
    var front, back, a, c := batches[..b], batches[b + 1..], batch[..n], batch[n + 1..];
    assert batch == a + [e] + c;
    Around(batches, b);
    ConcatMiddle(front, batch, back);
    CutStop(list, kernel, e, fn, front, a, c, back);
    if c == [] {
      assert batch[|batch| - 1] == e;
    } else {
      NotLast(batches, e, b, n);
    }
  }

  lemma CutStop(list: seq<Event>, kernel: Kernel, e: Event, fn: Choice,
                front: seq<seq<Event>>, a: seq<Event>, c: seq<Event>, back: seq<seq<Event>>)
    requires InFlight(list, kernel, e) && fn(e)
    requires Concat(front) + (a + [e] + c) + Concat(back) == Chosen(list, fn)
    ensures Synced(Kept(list, fn), DeleteBatches(kernel, front + [a + [e] + c] + back)) <==> c == []
  {
    ChosenOrKept(list, fn);
    var x, y := Concat(front), Concat(back);
    ChosenAround(list, kernel, e, fn, x, a, c, y);
    SplitDelete(kernel, front, a, e, c, back);
    var gone := Keys(x) + Keys(a) + Keys(y);
    MinusAll(kernel, Keys(x), Keys(a), Keys(y));
    if c == [] {
      StoppedInStep(list, kernel, e, fn, gone);
    } else {
      assert c[0] in c;
      StaleKey(list, kernel, fn, c[0], gone);
    }
  }

  lemma MinusAll(kernel: Kernel, x: set<Key>, a: set<Key>, y: set<Key>)
    ensures kernel - x - a - y == kernel - (x + a + y)
  {
  }

  /** What was chosen around the event in flight is known to the kernel, each under a key of its own. */
  lemma ChosenAround(list: seq<Event>, kernel: Kernel, e: Event, fn: Choice,
                     x: seq<Event>, a: seq<Event>, c: seq<Event>, y: seq<Event>)
    requires InFlight(list, kernel, e) && fn(e) && x + (a + [e] + c) + y == Chosen(list, fn)
    ensures Keys(x) <= kernel.Keys && Keys(a) <= kernel.Keys && Keys(y) <= kernel.Keys
    ensures forall f <- c :: f in list && fn(f) && f.key in kernel && f.key !in Keys(x) + Keys(a) + Keys(y)
    ensures c == [] ==> forall k :: k in Keys(x) + Keys(a) + Keys(y) <==> k in Keys(Chosen(list, fn)) && k != e.key
  {
    ChosenOrKept(list, fn);
    var batch := a + [e] + c;
    DistinctParts(x, batch, y);
    DistinctParts(a, [e], c);
    assert e in batch;
    forall f | f in x || f in a || f in c || f in y ensures f.key in kernel && f in Chosen(list, fn) {
      assert f in x + batch + y;
    }
    if c == [] {
      assert forall f :: f in x + batch + y <==> f in x || f in a || f == e || f in y;
    }
  }

  lemma StoppedInStep(list: seq<Event>, kernel: Kernel, e: Event, fn: Choice, gone: set<Key>)
    requires InFlight(list, kernel, e) && fn(e) && forall k :: k in gone <==> k in Keys(Chosen(list, fn)) && k != e.key
    ensures Synced(Kept(list, fn), kernel - gone)
  {
    ChosenOrKept(list, fn);
    var kept := Kept(list, fn);
    forall f | f in kept ensures f.key in kernel - gone {
      forall g | g in Chosen(list, fn) ensures g.key != f.key {
        if g.key == f.key { SameKey(list, f, g); }
      }
    }
    forall k | k in kernel - gone ensures exists f <- kept :: f.key == k {
      var f :| f in list && f.key == k;
      assert f in kept;
    }
  }

  lemma StaleKey(list: seq<Event>, kernel: Kernel, fn: Choice, f: Event, gone: set<Key>)
    requires DistinctKeys(list) && f in list && fn(f) && f.key in kernel && f.key !in gone
    ensures !Synced(Kept(list, fn), kernel - gone)
  {
    ChosenOrKept(list, fn);
    forall g | g in Kept(list, fn) ensures g.key != f.key {
      if g.key == f.key { SameKey(list, f, g); }
    }
    assert f.key in kernel - gone;
  }

  lemma NotLast(batches: seq<seq<Event>>, e: Event, b: nat, n: nat)
    requires DistinctKeys(Concat(batches)) && b < |batches| && n < |batches[b]| - 1 && batches[b][n] == e
    ensures !EndsBatch(batches, e)
  {
    forall m | 0 <= m < |batches| && batches[m] != [] ensures batches[m][|batches[m]| - 1] != e {
      var batch := batches[m];
      if m == b {
        SubDistinct(batches, b);
        assert batch[n].key != batch[|batch| - 1].key;
      } else {
        Elsewhere(batches, b, n, m, |batch| - 1);
      }
    }
  }

  lemma SubDistinct(batches: seq<seq<Event>>, b: nat)
    requires DistinctKeys(Concat(batches)) && b < |batches|
    ensures DistinctKeys(batches[b])
  {
    var front, back := batches[..b], batches[b + 1..];
    Around(batches, b);
    ConcatMiddle(front, batches[b], back);
    DistinctParts(Concat(front), batches[b], Concat(back));
  }

  lemma Elsewhere(batches: seq<seq<Event>>, b: nat, n: nat, m: nat, l: nat)
    requires DistinctKeys(Concat(batches)) && b < |batches| && n < |batches[b]|
    requires m < |batches| && m != b && l < |batches[m]|
    ensures batches[b][n] != batches[m][l]
  {
    var front, back := batches[..b], batches[b + 1..];
    Around(batches, b);
    ConcatMiddle(front, batches[b], back);
    DistinctParts(Concat(front), batches[b], Concat(back));
    if m < b {
      assert front[m] == batches[m];
      InConcat(front, m, l);
    } else {
      assert back[m - b - 1] == batches[m];
      InConcat(back, m - b - 1, l);
    }
  }

  lemma {:induction false} InConcat(batches: seq<seq<Event>>, m: nat, l: nat)
    requires m < |batches| && l < |batches[m]|
    ensures batches[m][l] in Concat(batches)
    decreases |batches|
  {
    var k := |batches| - 1;
    if m < k {
      assert batches[..k][m] == batches[m];
      InConcat(batches[..k], m, l);
    }
  }

  // ---------------------------------------------------------------- registration

  /** The kernel takes the first `taken` of the additions. */
  function Added(kernel: Kernel, events: seq<Event>, taken: nat): Kernel
    requires taken <= |events|
  {
    if taken == 0 then kernel else Added(kernel, events, taken - 1)[events[taken - 1].key := events[taken - 1].id]
  }

  function Reversed(events: seq<Event>): seq<Event> {
    if events == [] then [] else [events[|events| - 1]] + Reversed(events[..|events| - 1])
  }

  /** `register_events`: the list gets all of the events or none. */
  function Registered(list: seq<Event>, events: seq<Event>, taken: nat): seq<Event> {
    if taken == |events| then Reversed(events) + list else list
  }

  lemma {:induction false} AddedMeans(kernel: Kernel, events: seq<Event>, taken: nat)
    requires taken <= |events| && DistinctKeys(events)
    ensures forall i :: 0 <= i < taken ==>
      events[i].key in Added(kernel, events, taken) && Added(kernel, events, taken)[events[i].key] == events[i].id
    ensures forall k :: k in kernel && (forall i :: 0 <= i < taken ==> events[i].key != k)
                        ==> k in Added(kernel, events, taken) && Added(kernel, events, taken)[k] == kernel[k]
    ensures forall k :: k in Added(kernel, events, taken) ==>
      k in kernel || exists i :: 0 <= i < taken && events[i].key == k
    decreases taken
  {
    if taken > 0 {
      AddedMeans(kernel, events, taken - 1);
      assert forall i :: 0 <= i < taken - 1 ==> events[i].key != events[taken - 1].key;
    }
  }

  lemma {:induction false} ReversedMeans(events: seq<Event>)
    ensures |Reversed(events)| == |events|
    ensures forall i :: 0 <= i < |events| ==> Reversed(events)[i] == events[|events| - 1 - i]
    ensures forall e :: e in Reversed(events) <==> e in events
  {
    if events != [] {
      ReversedMeans(events[..|events| - 1]);
      assert events == events[..|events| - 1] + [events[|events| - 1]];
    }
  }

  ghost predicate NewEvents(list: seq<Event>, events: seq<Event>) {
    DistinctKeys(events) && forall e <- events :: forall f <- list :: e.key != f.key
  }

  /**
   Registering several events keeps list and kernel in step exactly when the kernel takes all of
   them or refuses the first; otherwise it goes on reporting events that have been released.
   */
  lemma RegisterKeepsSync(list: seq<Event>, kernel: Kernel, events: seq<Event>, taken: nat)
    requires Synced(list, kernel) && NewEvents(list, events) && taken <= |events|
    ensures Synced(Registered(list, events, taken), Added(kernel, events, taken)) <==>
            taken == |events| || taken == 0
  {
    AddedMeans(kernel, events, taken);
    ReversedMeans(events);
    if taken == |events| {
      AllRegistered(list, kernel, events);
    } else if taken > 0 {
      var k := events[0].key;
      assert events[0] in events;
      assert k in Added(kernel, events, taken);
      assert forall f <- list :: f.key != k;
    }
  }

  lemma AllRegistered(list: seq<Event>, kernel: Kernel, events: seq<Event>)
    requires Synced(list, kernel) && NewEvents(list, events)
    ensures Synced(Reversed(events) + list, Added(kernel, events, |events|))
  {
    AllDistinct(list, events);
    ReversedMeans(events);
    var all, kernel' := Reversed(events) + list, Added(kernel, events, |events|);
    forall e | e in all ensures e.key in kernel' && kernel'[e.key] == e.id {
      AllReported(list, kernel, events, e);
    }
    forall k | k in kernel' ensures exists e <- all :: e.key == k {
      AllListed(list, kernel, events, k);
    }
  }

  lemma AllReported(list: seq<Event>, kernel: Kernel, events: seq<Event>, e: Event)
    requires Synced(list, kernel) && NewEvents(list, events) && (e in events || e in list)
    ensures var kernel' := Added(kernel, events, |events|); e.key in kernel' && kernel'[e.key] == e.id
  {
    AddedMeans(kernel, events, |events|);
    if e in events {
      var i :| 0 <= i < |events| && events[i] == e;
    } else {
      assert forall i :: 0 <= i < |events| ==> events[i] in events && events[i].key != e.key;
    }
  }

  lemma AllListed(list: seq<Event>, kernel: Kernel, events: seq<Event>, k: Key)
    requires Synced(list, kernel) && NewEvents(list, events) && k in Added(kernel, events, |events|)
    ensures exists e <- Reversed(events) + list :: e.key == k
  {
    AddedMeans(kernel, events, |events|);
    ReversedMeans(events);
    if k in kernel {
      var e :| e in list && e.key == k;
      assert e in Reversed(events) + list;
    } else {
      var i :| 0 <= i < |events| && events[i].key == k;
      assert events[i] in Reversed(events) + list;
    }
  }

  // -------------------------------------------------------------------- one shot

  function Removed(list: seq<Event>, e: Event): seq<Event> {
    if list == [] then [] else if list[0] == e then list[1..] else [list[0]] + Removed(list[1..], e)
  }

  lemma {:induction false} RemovedMeans(list: seq<Event>, e: Event)
    requires DistinctKeys(list)
    ensures forall f :: f in Removed(list, e) <==> f in list && f != e
    ensures DistinctKeys(Removed(list, e))
  {
    if list != [] {
      assert list == [list[0]] + list[1..];
      assert forall i :: 0 <= i < |list| - 1 ==> list[1..][i] == list[i + 1];
      forall f | f in list[1..] ensures f.key != list[0].key {
        var i :| 0 <= i < |list| - 1 && list[1..][i] == f;
        assert list[i + 1] == f;
      }
      RemovedMeans(list[1..], e);
    }
  }

  /** Once the callback is through, the event leaves the list, and all is in step. */
  lemma ReleaseInStep(list: seq<Event>, kernel: Kernel, e: Event)
    requires InFlight(list, kernel, e)
    ensures Synced(Removed(list, e), kernel)
  {
    RemovedMeans(list, e);
    forall k | k in kernel ensures exists f <- Removed(list, e) :: f.key == k {
      var f :| f in list && f.key == k;
      assert f in Removed(list, e);
    }
  }

  lemma ReportInFlight(list: seq<Event>, kernel: Kernel, e: Event)
    requires Synced(list, kernel) && e in list
    ensures InFlight(list, kernel - {e.key}, e)
  {
    forall f | f in list && f != e ensures f.key in kernel - {e.key} {
      if f.key == e.key { SameKey(list, e, f); }
    }
  }

  // ------------------------------------------------------------------------ runs

  /**
   The registry over time: the list, the kernel, the event whose callback is running, and how
   often an event has been released a second time.
   */
  datatype State = State(list: seq<Event>, kernel: Kernel, flying: Option<Event>, twice: nat)

  /**
   What happens to it: an event is reported, events are registered or no longer waited for, the
   descriptor of an output event is read to its end and closed, which the kernel notices by itself,
   and the event whose callback returned is released.
   */
  datatype Act =
    | Report(e: Event)
    | Register(events: seq<Event>, taken: nat)
    | Stop(fn: Choice, batches: seq<seq<Event>>)
    | Close(e: Event)
    | Release

  ghost predicate Possible(r: State, act: Act) {
    match act
    case Report(e) => r.flying.None? && e in r.list && e.key in r.kernel && r.kernel[e.key] == e.id
    case Register(events, taken) =>
      NewEvents(r.list, events) && taken <= |events| && (r.flying.Some? ==> r.flying.value !in events)
    case Stop(fn, batches) => Concat(batches) == Chosen(r.list, fn)
    case Close(e) => r.flying.None? && e in r.list && e.key.filter == EVFILT_READ
    case Release => r.flying.Some?
  }

  ghost function After(r: State, act: Act): State
    requires Possible(r, act)
  {
    match act
    case Report(e) => r.(kernel := r.kernel - {e.key}, flying := Some(e))
    case Register(events, taken) =>
      r.(list := Registered(r.list, events, taken), kernel := Added(r.kernel, events, taken))
    case Stop(fn, batches) => r.(list := Kept(r.list, fn), kernel := DeleteBatches(r.kernel, batches))
    case Close(e) => r.(list := Removed(r.list, e), kernel := r.kernel - {e.key})
    case Release =>
      if r.flying.value in r.list then r.(list := Removed(r.list, r.flying.value), flying := None)
      else r.(flying := None, twice := r.twice + 1)
  }

  /** The list and the kernel are in step, up to the event in flight while that is on the list. */
  ghost predicate InStep(r: State) {
    if r.flying.Some? && r.flying.value in r.list then InFlight(r.list, r.kernel, r.flying.value)
    else Synced(r.list, r.kernel)
  }

  /** The stop chooses the event in flight. */
  ghost predicate TakesFlying(r: State, act: Act) {
    act.Stop? && r.flying.Some? && r.flying.value in r.list && act.fn(r.flying.value)
  }

  ghost predicate Harmless(r: State, act: Act) {
    && (act.Register? ==> act.taken == |act.events| || act.taken == 0)
    && (TakesFlying(r, act) ==> EndsBatch(act.batches, r.flying.value))
  }

  /** The events without the one in flight are in step, and with it they are in flight. */
  lemma FlightIsSync(list: seq<Event>, kernel: Kernel, e: Event)
    requires e in list && DistinctKeys(list)
    ensures InFlight(list, kernel, e) <==> Synced(Removed(list, e), kernel) && e.key !in kernel
  {
    RemovedMeans(list, e);
    if Synced(Removed(list, e), kernel) && e.key !in kernel {
      forall k | k in kernel ensures exists f <- list :: f.key == k {
        var f :| f in Removed(list, e) && f.key == k;
        assert f in list;
      }
    }
    if InFlight(list, kernel, e) { ReleaseInStep(list, kernel, e); }
  }

  lemma StopInStep(r: State, fn: Choice, batches: seq<seq<Event>>)
    requires InStep(r) && Possible(r, Stop(fn, batches))
    ensures InStep(After(r, Stop(fn, batches))) <==> Harmless(r, Stop(fn, batches))
  {
    ChosenOrKept(r.list, fn);
    if TakesFlying(r, Stop(fn, batches)) {
      StopInFlightIff(r.list, r.kernel, r.flying.value, fn, batches);
    } else if r.flying.Some? && r.flying.value in r.list {
      StopBesideFlight(r.list, r.kernel, r.flying.value, fn, batches);
    } else {
      StopKeepsSync(r.list, r.kernel, fn, batches);
    }
  }

  lemma StopBesideFlight(list: seq<Event>, kernel: Kernel, e: Event, fn: Choice, batches: seq<seq<Event>>)
    requires InFlight(list, kernel, e) && !fn(e) && Concat(batches) == Chosen(list, fn)
    ensures InFlight(Kept(list, fn), DeleteBatches(kernel, batches), e)
  {
    ChosenOrKept(list, fn);
    var chosen, kept := Chosen(list, fn), Kept(list, fn);
    BatchesExact(kernel, batches);
    var kernel' := kernel - Keys(chosen);
    forall f | f in kept && f != e ensures f.key in kernel' && kernel'[f.key] == f.id {
      forall g | g in chosen ensures g.key != f.key {
        if g.key == f.key { SameKey(list, f, g); }
      }
    }
    forall k | k in kernel' ensures exists f <- kept :: f.key == k {
      var f :| f in list && f.key == k;
      assert f in kept;
    }
  }

  lemma RegisterInStep(r: State, events: seq<Event>, taken: nat)
    requires InStep(r) && Possible(r, Register(events, taken))
    ensures InStep(After(r, Register(events, taken))) <==> Harmless(r, Register(events, taken))
  {
    ReversedMeans(events);
    if r.flying.Some? && r.flying.value in r.list {
      RegisterBesideFlight(r.list, r.kernel, r.flying.value, events, taken);
    } else {
      RegisterKeepsSync(r.list, r.kernel, events, taken);
    }
  }

  lemma RegisterBesideFlight(list: seq<Event>, kernel: Kernel, e: Event, events: seq<Event>, taken: nat)
    requires InFlight(list, kernel, e) && NewEvents(list, events) && taken <= |events| && e !in events
    ensures InFlight(Registered(list, events, taken), Added(kernel, events, taken), e) <==>
            taken == |events| || taken == 0
  {
    FlightIsSync(list, kernel, e);
    RemovedMeans(list, e);
    var less := Removed(list, e);
    assert NewEvents(less, events);
    RegisterKeepsSync(less, kernel, events, taken);
    AddedMeans(kernel, events, taken);
    ReversedMeans(events);
    forall i | 0 <= i < |events| ensures events[i].key != e.key {
      assert events[i] in events;
    }
    if taken == |events| {
      AllDistinct(list, events);
      RemovedBehind(Reversed(events), list, e);
      FlightIsSync(Reversed(events) + list, Added(kernel, events, taken), e);
    } else {
      FlightIsSync(list, Added(kernel, events, taken), e);
    }
  }

  lemma AllDistinct(list: seq<Event>, events: seq<Event>)
    requires DistinctKeys(list) && NewEvents(list, events)
    ensures DistinctKeys(Reversed(events) + list)
  {
    ReversedMeans(events);
    var all, n := Reversed(events) + list, |events|;
    forall i, j | 0 <= i < j < |all| ensures all[i].key != all[j].key {
      if j < n {
        assert events[n - 1 - j].key != events[n - 1 - i].key;
      } else if i < n {
        assert events[n - 1 - i] in events && list[j - n] in list;
      } else {
        assert list[i - n].key != list[j - n].key;
      }
    }
  }

  lemma {:induction false} RemovedBehind(front: seq<Event>, list: seq<Event>, e: Event)
    requires e !in front
    ensures Removed(front + list, e) == front + Removed(list, e)
  {
    if front == [] {
      assert front + list == list;
    } else {
      assert (front + list)[1..] == front[1..] + list;
      RemovedBehind(front[1..], list, e);
    }
  }

  /** Each act keeps the registry in step exactly when it is harmless. */
  lemma ActInStep(r: State, act: Act)
    requires InStep(r) && Possible(r, act)
    ensures InStep(After(r, act)) <==> Harmless(r, act)
  {
    match act
    case Report(e) => ReportInFlight(r.list, r.kernel, e);
    case Register(events, taken) => RegisterInStep(r, events, taken);
    case Stop(fn, batches) => StopInStep(r, fn, batches);
    case Close(e) =>
      ReportInFlight(r.list, r.kernel, e);
      ReleaseInStep(r.list, r.kernel - {e.key}, e);
    case Release =>
      if r.flying.value in r.list {
        ReleaseInStep(r.list, r.kernel, r.flying.value);
        RemovedMeans(r.list, r.flying.value);
      }
  }

  ghost predicate History(rs: seq<State>, acts: seq<Act>) {
    && |rs| == |acts| + 1
    && forall i :: 0 <= i < |acts| ==> Possible(rs[i], acts[i]) && rs[i + 1] == After(rs[i], acts[i])
  }

  ghost predicate AllHarmless(rs: seq<State>, acts: seq<Act>)
    requires |rs| == |acts| + 1
  {
    forall i :: 0 <= i < |acts| ==> Harmless(rs[i], acts[i])
  }

  /** Along every run of harmless acts, list and kernel are in step, and the same whenever no callback is running. */
  lemma {:induction false} EveryRunInStep(rs: seq<State>, acts: seq<Act>, n: nat)
    requires History(rs, acts) && AllHarmless(rs, acts) && rs[0] == State([], map[], None, 0) && n < |rs|
    ensures InStep(rs[n]) && (rs[n].flying.None? ==> Synced(rs[n].list, rs[n].kernel))
  {
    if n > 0 {
      EveryRunInStep(rs, acts, n - 1);
      ActInStep(rs[n - 1], acts[n - 1]);
    }
  }

  /** How many of the first `n` acts were stops that took the event in flight. */
  ghost function Taken(rs: seq<State>, acts: seq<Act>, n: nat): nat
    requires n <= |acts| && n <= |rs|
  {
    if n == 0 then 0 else Taken(rs, acts, n - 1) + if TakesFlying(rs[n - 1], acts[n - 1]) then 1 else 0
  }

  /** An event is released twice for each stop that takes the event in flight, and for nothing else. */
  lemma {:induction false} ReleasedTwice(rs: seq<State>, acts: seq<Act>, n: nat)
    requires History(rs, acts) && rs[0] == State([], map[], None, 0) && n < |rs|
    ensures Taken(rs, acts, n) ==
            rs[n].twice + if rs[n].flying.Some? && rs[n].flying.value !in rs[n].list then 1 else 0
  {
    if n > 0 {
      ReleasedTwice(rs, acts, n - 1);
      var r, act := rs[n - 1], acts[n - 1];
      assert Possible(r, act) && rs[n] == After(r, act);
      if act.Stop? { ChosenOrKept(r.list, act.fn); }
      if act.Register? { ReversedMeans(act.events); }
    }
  }

  // ------------------------------------------------------------ the exit of a removed machine

  /** `vm_output_and_timers`, where `out` and `err` are the descriptors that the machine has now. */
  function OutputAndTimers(owner: nat, out: int, err: int): Choice {
    (e: Event) => e.owner == owner && (
      e.key.filter == EVFILT_TIMER ||
      (e.key.filter == EVFILT_READ && (e.key.ident == out || e.key.ident == err)))
  }

  /** `vm_entry`. */
  function OfEntry(owner: nat): Choice {
    (e: Event) => e.owner == owner
  }

  /** What the machine still waits for after its output and its timers: the exit, and perhaps older events. */
  function Left(list: seq<Event>, owner: nat, out: int, err: int): seq<Event> {
    Chosen(Kept(list, OutputAndTimers(owner, out, err)), OfEntry(owner))
  }

  /** The batches of `stop_waiting_for`: all are full but the last. */
  ghost predicate InFives(batches: seq<seq<Event>>) {
    forall b :: 0 <= b < |batches| ==> 1 <= |batches[b]| <= BATCH && (b < |batches| - 1 ==> |batches[b]| == BATCH)
  }

  ghost predicate AllFull(batches: seq<seq<Event>>) {
    forall b :: 0 <= b < |batches| ==> |batches[b]| == BATCH
  }

  lemma {:induction false} FivesLength(batches: seq<seq<Event>>)
    requires AllFull(batches)
    ensures |Concat(batches)| == BATCH * |batches|
  {
    if batches != [] { FivesLength(batches[..|batches| - 1]); }
  }

  /** In such batches an event is the last of one exactly when its place is that of a fifth, or the last of all. */
  lemma FivesEnd(batches: seq<seq<Event>>, e: Event, i: nat)
    requires InFives(batches) && DistinctKeys(Concat(batches)) && i < |Concat(batches)| && Concat(batches)[i] == e
    ensures EndsBatch(batches, e) <==> i % BATCH == BATCH - 1 || i == |Concat(batches)| - 1
  {
    var b, n := BatchOf(batches, e);
    FivesPlace(batches, b, n, i);
    if n < |batches[b]| - 1 {
      NotLast(batches, e, b, n);
    } else {
      assert batches[b][|batches[b]| - 1] == e;
    }
  }

  lemma FivesPlace(batches: seq<seq<Event>>, b: nat, n: nat, i: nat)
    requires InFives(batches) && DistinctKeys(Concat(batches)) && b < |batches| && n < |batches[b]|
    requires i < |Concat(batches)| && Concat(batches)[i] == batches[b][n]
    ensures i == BATCH * b + n && BATCH * b + |batches[b]| <= |Concat(batches)|
    ensures b == |batches| - 1 ==> |Concat(batches)| == BATCH * b + |batches[b]|
  {
    var front, batch, back := batches[..b], batches[b], batches[b + 1..];
    Around(batches, b);
    ConcatMiddle(front, batch, back);
    FivesLength(front);
    PlaceIn(Concat(front), batch, Concat(back), n, i);
  }

  lemma PlaceIn(x: seq<Event>, batch: seq<Event>, y: seq<Event>, n: nat, i: nat)
    requires DistinctKeys(x + batch + y) && n < |batch| && i < |x + batch + y| && (x + batch + y)[i] == batch[n]
    ensures i == |x| + n
  {
    var all := x + batch + y;
    assert all[|x| + n] == batch[n];
  }

  /** The first of these stops leaves neither timers nor current output of the machine, and all else. */
  lemma OutputStopped(list: seq<Event>, owner: nat, out: int, err: int, e: Event)
    ensures var fd, k := e.key.ident, e.key.filter;
      e in Kept(list, OutputAndTimers(owner, out, err)) <==>
      && e in list
      && !(e.owner == owner && (k == EVFILT_TIMER || (k == EVFILT_READ && fd in {out, err})))
  {
    ChosenOrKept(list, OutputAndTimers(owner, out, err));
  }

  /**
   The exit of a machine being removed first stops the output and the timers of the machine, and
   then everything it still waits for, the exit event in flight among it.  List and kernel are in
   step afterwards exactly when that is the fifth of a batch, or the last of all.
   */
  lemma RemovalExact(r: State, e: Event, out: int, err: int, first: seq<seq<Event>>, second: seq<seq<Event>>, i: nat)
    requires InStep(r) && r.flying == Some(e) && e in r.list && e.key.filter == EVFILT_PROC
    requires Possible(r, Stop(OutputAndTimers(e.owner, out, err), first))
    requires Possible(After(r, Stop(OutputAndTimers(e.owner, out, err), first)), Stop(OfEntry(e.owner), second))
    requires InFives(second) && i < |Left(r.list, e.owner, out, err)| && Left(r.list, e.owner, out, err)[i] == e
    ensures var r1 := After(r, Stop(OutputAndTimers(e.owner, out, err), first));
      && InStep(r1) && TakesFlying(r1, Stop(OfEntry(e.owner), second))
      && (InStep(After(r1, Stop(OfEntry(e.owner), second))) <==>
          i % BATCH == BATCH - 1 || i == |Left(r.list, e.owner, out, err)| - 1)
  {
    var stop, then_ := Stop(OutputAndTimers(e.owner, out, err), first), Stop(OfEntry(e.owner), second);
    var r1 := After(r, stop);
    ActInStep(r, stop);
    ChosenOrKept(r.list, OutputAndTimers(e.owner, out, err));
    ActInStep(r1, then_);
    ChosenOrKept(r1.list, OfEntry(e.owner));
    FivesEnd(second, e, i);
  }

  /** With nothing left but the exit itself, a removal leaves them in step. */
  lemma RemovalIsHarmless(r: State, e: Event, out: int, err: int, first: seq<seq<Event>>, second: seq<seq<Event>>)
    requires InStep(r) && r.flying == Some(e) && e in r.list && e.key.filter == EVFILT_PROC
    requires Possible(r, Stop(OutputAndTimers(e.owner, out, err), first))
    requires Possible(After(r, Stop(OutputAndTimers(e.owner, out, err), first)), Stop(OfEntry(e.owner), second))
    requires InFives(second)
    requires forall f <- r.list :: f.owner == e.owner && f != e ==> OutputAndTimers(e.owner, out, err)(f)
    ensures var r1 := After(r, Stop(OutputAndTimers(e.owner, out, err), first));
      InStep(After(r1, Stop(OfEntry(e.owner), second)))
  {
    var left, kept := Left(r.list, e.owner, out, err), Kept(r.list, OutputAndTimers(e.owner, out, err));
    ChosenOrKept(r.list, OutputAndTimers(e.owner, out, err));
    ChosenOrKept(kept, OfEntry(e.owner));
    assert e in left && DistinctKeys(left);
    forall i | 0 <= i < |left| ensures left[i] == e {
      assert left[i] in left;
    }
    assert |left| > 1 ==> left[0].key != left[1].key;
    RemovalExact(r, e, out, err, first, second, 0);
  }

  // a guest that rebooted: the output of its first run is still waited for

  const OLD_OUTPUT := Event(1, Key(20, EVFILT_READ), 7)
  const NEW_EXIT := Event(2, Key(100, EVFILT_PROC), 7)

  const REBOOTED := State([NEW_EXIT, OLD_OUTPUT], map[OLD_OUTPUT.key := 1], Some(NEW_EXIT), 0)

  /** It comes to this without any failure. */
  lemma RebootedReached()
    ensures var s1 := State([OLD_OUTPUT], map[OLD_OUTPUT.key := 1], None, 0);
      var s2 := State([NEW_EXIT, OLD_OUTPUT], map[OLD_OUTPUT.key := 1, NEW_EXIT.key := 2], None, 0);
      var rs, acts := [State([], map[], None, 0), s1, s2, REBOOTED],
                      [Register([OLD_OUTPUT], 1), Register([NEW_EXIT], 1), Report(NEW_EXIT)];
      History(rs, acts) && AllHarmless(rs, acts) && InStep(REBOOTED)
  {
    RegisterOne(State([], map[], None, 0), OLD_OUTPUT);
    RegisterOne(State([OLD_OUTPUT], map[OLD_OUTPUT.key := 1], None, 0), NEW_EXIT);
    var kernel: Kernel := map[OLD_OUTPUT.key := 1, NEW_EXIT.key := 2];
    assert kernel - {NEW_EXIT.key} == map[OLD_OUTPUT.key := 1];
  }

  lemma RegisterOne(r: State, e: Event)
    requires forall f <- r.list :: f.key != e.key
    requires r.flying.None?
    ensures Possible(r, Register([e], 1))
    ensures After(r, Register([e], 1)) == State([e] + r.list, r.kernel[e.key := e.id], None, r.twice)
  {
    var es := [e];
    assert es[..|es| - 1] == [];
    assert Reversed(es) == [e] + Reversed([]) == [e];
    assert Added(r.kernel, es, 1) == Added(r.kernel, es, 0)[e.key := e.id];
  }

  lemma TwoEvents(e: Event, f: Event, fn: Choice)
    ensures Chosen([e, f], fn) == (if fn(e) then [e] else []) + (if fn(f) then [f] else [])
    ensures Kept([e, f], fn) == (if fn(e) then [] else [e]) + (if fn(f) then [] else [f])
  {
    var list := [e, f];
    SplitNext(list, 0, fn);
    SplitNext(list, 1, fn);
    assert list[..0] == [] && list[..2] == list;
  }

  /** Its removal then leaves the kernel with an event that has been released. */
  lemma RemovalExample()
    ensures var stop, then_ := Stop(OutputAndTimers(7, 30, 31), []), Stop(OfEntry(7), [[NEW_EXIT, OLD_OUTPUT]]);
      && Possible(REBOOTED, stop) && Possible(After(REBOOTED, stop), then_)
      && var r := After(After(REBOOTED, stop), then_); r.list == [] && OLD_OUTPUT.key in r.kernel
  {
    var fn := OutputAndTimers(7, 30, 31);
    assert !fn(NEW_EXIT) && !fn(OLD_OUTPUT);
    TwoEvents(NEW_EXIT, OLD_OUTPUT, fn);
    assert After(REBOOTED, Stop(fn, [])) == REBOOTED;
    TwoEvents(NEW_EXIT, OLD_OUTPUT, OfEntry(7));
    OneBatch(REBOOTED.kernel, [NEW_EXIT, OLD_OUTPUT]);
  }

  lemma OneBatch(kernel: Kernel, batch: seq<Event>)
    ensures Concat([batch]) == batch && DeleteBatches(kernel, [batch]) == Delete(kernel, batch)
  {
    assert [batch][..0] == [];
  }

  // ---------------------------------------------------------------- as a program

  lemma SplitNext(list: seq<Event>, i: nat, fn: Choice)
    requires i < |list|
    ensures Chosen(list[..i + 1], fn) == Chosen(list[..i], fn) + if fn(list[i]) then [list[i]] else []
    ensures Kept(list[..i + 1], fn) == Kept(list[..i], fn) + if fn(list[i]) then [] else [list[i]]
  {
    assert list[..i + 1][..i] == list[..i];
  }

  lemma OneMoreBatch(kernel: Kernel, batches: seq<seq<Event>>, batch: seq<Event>)
    ensures Concat(batches + [batch]) == Concat(batches) + batch
    ensures DeleteBatches(kernel, batches + [batch]) == Delete(DeleteBatches(kernel, batches), batch)
  {
    assert (batches + [batch])[..|batches|] == batches;
  }

  lemma Regroup(a: seq<Event>, b: seq<Event>, e: Event)
    ensures (a + b) + [e] == a + (b + [e])
  {
  }

  class EventList {
    var list: seq<Event>
    var kernel: Kernel
    /** The batches handed to the kernel, oldest first. */
    var issued: seq<seq<Event>>

    constructor ()
      ensures list == [] && kernel == map[] && issued == []
    {
      list, kernel, issued := [], map[], [];
    }

    method KeventSet(batch: seq<Event>)
      modifies this`kernel, this`issued
      ensures kernel == Delete(old(kernel), batch) && issued == old(issued) + [batch]
    {
      kernel, issued := Delete(kernel, batch), issued + [batch];
    }

    /** `stop_waiting_for`: one deletion for every chosen event, at most five at a time. */
    method StopWaitingFor(fn: Choice) returns (batches: seq<seq<Event>>)
      modifies this
      ensures list == Kept(old(list), fn)
      ensures Concat(batches) == Chosen(old(list), fn)
      ensures InFives(batches)
      ensures issued == old(issued) + batches && kernel == DeleteBatches(old(kernel), batches)
    {
      var all, kept, kev := list, [], [];
      batches := [];
      for i := 0 to |all|
        invariant list == old(list) && kept == Kept(all[..i], fn) && |kev| < BATCH
        invariant Concat(batches) + kev == Chosen(all[..i], fn)
        invariant AllFull(batches)
        invariant issued == old(issued) + batches && kernel == DeleteBatches(old(kernel), batches)
      {
        SplitNext(all, i, fn);
        if fn(all[i]) {
          Regroup(Concat(batches), kev, all[i]);
          kev := kev + [all[i]];
          if |kev| >= BATCH {
            KeventSet(kev);
            OneMoreBatch(old(kernel), batches, kev);
            batches, kev := batches + [kev], [];
          }
        } else {
          kept := kept + [all[i]];
        }
      }
      assert all[..|all|] == all;
      list := kept;
      if |kev| > 0 {
        KeventSet(kev);
        OneMoreBatch(old(kernel), batches, kev);
        batches := batches + [kev];
      }
    }

    /** `register_events`; `register_event0` is the case of one event. */
    method RegisterEvents(events: seq<Event>, taken: nat) returns (ok: bool)
      requires taken <= |events|
      modifies this`list, this`kernel
      ensures ok == (taken == |events|)
      ensures list == Registered(old(list), events, taken) && kernel == Added(old(kernel), events, taken)
    {
      kernel := Added(kernel, events, taken);
      if taken < |events| {
        return false;
      }
      for i := 0 to |events|
        invariant list == Reversed(events[..i]) + old(list) && kernel == Added(old(kernel), events, taken)
      {
        assert events[..i + 1][..i] == events[..i];
        list := [events[i]] + list;
      }
      assert events[..|events|] == events;
      ok := true;
    }
  }
}
