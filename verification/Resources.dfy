/**
 The invariant that ties a machine's state to its child process, its exit event and its taps,
 and the proof that every small step of the daemon keeps it.

 A handler that runs because of an exit works on a world in which one child has just been
 reaped and one event is still on the list although it has fired.  The parameters of `Local`
 say so: the machines in `gone` have lost their child, and `fired` holds the events that are
 being dispatched.
 */
module Resources {
  import opened Options
  import opened DaemonState

  ghost predicate HasChild(w: World, v: VmId, gone: set<VmId>) {
    v in w.vms && w.vms[v].state != TERMINATE && v !in gone
  }

  /** The un-reaped children are exactly the recorded pids of the machines that are not down. */
  ghost predicate Procs(w: World, gone: set<VmId>) {
    && (forall p :: p in w.children ==>
          HasChild(w, w.children[p].vm, gone) && w.vms[w.children[p].vm].pid == p)
    && (forall v :: v in w.vms && HasChild(w, v, gone) ==> OwnsChild(w, v))
  }

  /** A machine that is not down has exactly one pending exit event, for its pid; nothing else has one. */
  ghost predicate Exits(w: World, gone: set<VmId>, fired: multiset<Event>) {
    forall v, p :: multiset(w.events)[Exit(v, p)] ==
      (if HasChild(w, v, gone) && w.vms[v].pid == p then 1 else 0) + fired[Exit(v, p)]
  }

  ghost predicate Timers(w: World) {
    && (forall e :: e in w.events ==> e.vm in w.vms)
    && (forall e :: e in w.events && e.Timer? ==> e.id <= w.lastTimer)
    && (forall e: Event :: e.Timer? ==> multiset(w.events)[e] <= 1)
  }

  ghost predicate TapsOf(w: World, v: VmId)
    requires v in w.vms
  {
    var taps := w.vms[v].taps;
    && (forall i :: 0 <= i < |taps| && taps[i].Some? ==>
          taps[i].value in w.taps && w.taps[taps[i].value] == v)
    && (forall i, j :: 0 <= i < j < |taps| && taps[i].Some? ==> taps[i] != taps[j])
  }

  /** The interfaces that exist are held by exactly one machine each, and nothing else is held. */
  ghost predicate Taps(w: World) {
    && (forall t :: t in w.taps ==> w.taps[t] in w.vms && Some(t) in w.vms[w.taps[t]].taps)
    && (forall v :: v in w.vms ==> TapsOf(w, v))
  }

  ghost predicate Idle(w: World) {
    forall v :: v in w.vms && w.vms[v].state == TERMINATE ==> w.vms[v].taps == []
  }

  ghost predicate IdleBut(w: World, v: VmId) {
    forall u :: u in w.vms && u != v && w.vms[u].state == TERMINATE ==> w.vms[u].taps == []
  }

  ghost predicate NoDup<T>(s: seq<T>) {
    forall i, j :: 0 <= i < j < |s| ==> s[i] != s[j]
  }

  ghost predicate Listed(w: World) {
    && NoDup(w.vmList)
    && (forall v :: v in w.vmList <==> v in w.vms)
    && (forall v :: v in w.vms ==> v < w.nextVm)
  }

  /** The part of the invariant that says nothing about timers. */
  ghost predicate Core(w: World, gone: set<VmId>, fired: multiset<Event>) {
    && Listed(w) && Procs(w, gone) && Exits(w, gone, fired) && Taps(w) && Idle(w)
    && StraySignal !in w.faults
  }

  ghost predicate Local(w: World, gone: set<VmId>, fired: multiset<Event>) {
    Core(w, gone, fired) && Timers(w)
  }

  /** `Lost` means more than not kept: it is the part without timers that fails. */
  datatype Fate = Kept | Lost | Neither

  ghost function FateOf(w: World, fired: multiset<Event>): Fate {
    if Local(w, {}, fired) then Kept else if !Core(w, {}, fired) then Lost else Neither
  }

  /** Either the whole invariant holds, or its core is broken: `keeps` says which. */
  ghost predicate KeptIff(keeps: bool, w: World, fired: multiset<Event>) {
    FateOf(w, fired) == if keeps then Kept else Lost
  }

  /** `v` has no child; everything else is as it should be. */
  ghost predicate Ready(w: World, v: VmId, fired: multiset<Event>) {
    && v in w.vms
    && Listed(w) && Procs(w, {v}) && Exits(w, {v}, fired) && Timers(w) && Taps(w) && IdleBut(w, v)
    && StraySignal !in w.faults
  }

  // ---------------------------------------------------------------- what the kernel promises

  /** New pids and interface names are not in use. */
  ghost predicate Fresh(w: World, o: Outcome) {
    && (o.spawn.Some? ==> o.spawn.value !in w.children)
    && (forall t :: Some(t) in TapsAttempted(o.taps) ==> t !in w.taps)
    && var taps := TapsAttempted(o.taps);
       forall i, j :: 0 <= i < j < |taps| && taps[i].Some? ==> taps[i] != taps[j]
  }

  /** A start attempt gets as far as the start method. */
  predicate Prepared(w: World, v: VmId, o: Outcome)
    requires v in w.vms
  {
    && o.found
    && (w.vms[v].state == TERMINATE ==>
          o.activateOk && (w.vms[v].taps == [] ==> o.netsOk && TapsSucceed(o.taps)))
  }

  predicate Launched(w: World, v: VmId, o: Outcome)
    requires v in w.vms && w.vms[v].conf in w.confs
  {
    && Prepared(w, v, o) && o.spawn.Some?
    && StartTarget(w.vms[v].state, w.confs[w.vms[v].conf].loader).Some?
  }

  /** The taps a failing start has to take down. */
  function TapsInHand(w: World, v: VmId, o: Outcome): seq<Option<Tap>>
    requires v in w.vms
  {
    if w.vms[v].taps != [] then w.vms[v].taps
    else if w.vms[v].state == TERMINATE && o.netsOk then TapsAttempted(o.taps)
    else []
  }

  /** The three ways in which a start attempt ends in a state that breaks the invariant. */
  predicate StartLeavesStuck(w: World, v: VmId, o: Outcome)
    requires v in w.vms
  {
    !o.found && w.vms[v].state != TERMINATE
  }

  predicate StartLeavesStaleExit(w: World, v: VmId, o: Outcome)
    requires v in w.vms && w.vms[v].conf in w.confs
  {
    Launched(w, v, o) && o.exitOk && !o.outputOk
  }

  predicate StartLeavesTaps(w: World, v: VmId, o: Outcome)
    requires v in w.vms && w.vms[v].conf in w.confs
  {
    && o.found && !o.sockOk && TapsInHand(w, v, o) != []
    && !(Launched(w, v, o) && o.exitOk && o.outputOk)
  }

  predicate StartClean(w: World, v: VmId, o: Outcome)
    requires v in w.vms && w.vms[v].conf in w.confs
  {
    && !StartLeavesStuck(w, v, o)
    && !StartLeavesStaleExit(w, v, o)
    && !StartLeavesTaps(w, v, o)
  }

  // ---------------------------------------------------------------- frames

  ghost predicate SamePids(w: World, w': World) {
    && w'.vms.Keys == w.vms.Keys
    && (forall u :: u in w.vms ==> w'.vms[u].pid == w.vms[u].pid)
  }

  ghost predicate SameTaps(w: World, w': World) {
    && w'.vms.Keys == w.vms.Keys && w'.taps == w.taps
    && (forall u :: u in w.vms ==> w'.vms[u].taps == w.vms[u].taps)
  }

  ghost predicate SameLiving(w: World, gone: set<VmId>, w': World, gone': set<VmId>) {
    forall u :: u in w.vms ==> (HasChild(w', u, gone') <==> HasChild(w, u, gone))
  }

  lemma FrameProcs(w: World, gone: set<VmId>, w': World, gone': set<VmId>)
    requires Procs(w, gone) && SamePids(w, w') && SameLiving(w, gone, w', gone')
    requires w'.children.Keys == w.children.Keys
    requires forall p :: p in w.children ==> w'.children[p].vm == w.children[p].vm
    ensures Procs(w', gone')
  {
  }

  lemma FrameExits(w: World, gone: set<VmId>, w': World, gone': set<VmId>, fired: multiset<Event>)
    requires Exits(w, gone, fired) && SamePids(w, w') && SameLiving(w, gone, w', gone')
    requires forall v, p :: multiset(w'.events)[Exit(v, p)] == multiset(w.events)[Exit(v, p)]
    ensures Exits(w', gone', fired)
  {
    assert forall u :: HasChild(w', u, gone') <==> HasChild(w, u, gone);
  }

  lemma FrameTaps(w: World, w': World)
    requires Taps(w) && SameTaps(w, w')
    ensures Taps(w')
  {
    forall v | v in w'.vms ensures TapsOf(w', v) {
      assert TapsOf(w, v);
    }
  }

  /** The worlds differ at most in configurations, timers and faults other than stray signals. */
  ghost predicate SameCore(w: World, w': World) {
    && w'.vmList == w.vmList && w'.nextVm == w.nextVm && w'.children == w.children
    && (StraySignal in w'.faults <==> StraySignal in w.faults)
    && SamePids(w, w') && SameTaps(w, w')
    && (forall v :: v in w.vms ==> w'.vms[v].state == w.vms[v].state)
    && (forall v, p :: multiset(w'.events)[Exit(v, p)] == multiset(w.events)[Exit(v, p)])
  }

  lemma FrameCore(w: World, w': World, gone: set<VmId>, fired: multiset<Event>)
    requires Core(w, gone, fired) && SameCore(w, w')
    ensures Core(w', gone, fired)
  {
    FrameProcs(w, gone, w', gone);
    FrameExits(w, gone, w', gone, fired);
    FrameTaps(w, w');
  }

  lemma CoreIff(w: World, w': World, fired: multiset<Event>)
    requires SameCore(w, w')
    ensures Core(w, {}, fired) <==> Core(w', {}, fired)
  {
    if Core(w, {}, fired) { FrameCore(w, w', {}, fired); }
    if Core(w', {}, fired) { FrameCore(w', w, {}, fired); }
  }

  ghost predicate SameMachines(w: World, w': World) {
    && w'.vmList == w.vmList && w'.nextVm == w.nextVm && w'.events == w.events && w'.lastTimer == w.lastTimer
    && w'.children == w.children && SamePids(w, w') && SameTaps(w, w')
    && (forall v :: v in w.vms ==> w'.vms[v].state == w.vms[v].state)
  }

  /** `Local` reads the states, pids and taps of the machines, and nothing of the configurations. */
  lemma FrameLocal(w: World, w': World, gone: set<VmId>, fired: multiset<Event>)
    requires Local(w, gone, fired)
    requires SameMachines(w, w') && StraySignal !in w'.faults
    ensures Local(w', gone, fired)
  {
    FrameProcs(w, gone, w', gone);
    FrameExits(w, gone, w', gone, fired);
    FrameTaps(w, w');
  }

  // ---------------------------------------------------------------- small steps keep the invariant

  lemma AddTimerKeeps(w: World, v: VmId, secs: int, ok: bool, gone: set<VmId>, fired: multiset<Event>)
    requires Local(w, gone, fired) && v in w.vms
    ensures Local(AddTimer(w, v, secs, ok), gone, fired)
  {
    var w' := AddTimer(w, v, secs, ok);
    AddTimerCounts(w, v, secs, ok);
    FrameProcs(w, gone, w', gone);
    FrameExits(w, gone, w', gone, fired);
    FrameTaps(w, w');
  }

  lemma AddTimerCounts(w: World, v: VmId, secs: int, ok: bool)
    requires Timers(w) && v in w.vms
    ensures var w' := AddTimer(w, v, secs, ok);
      Timers(w') && forall u, p :: multiset(w'.events)[Exit(u, p)] == multiset(w.events)[Exit(u, p)]
  {
    var w' := AddTimer(w, v, secs, ok);
    var e := Timer(v, w.lastTimer + 1, secs);
    if ok {
      assert multiset(w'.events) == multiset{e} + multiset(w.events);
      assert e !in w.events;
    }
  }

  lemma SignalKeeps(w: World, v: VmId, gone: set<VmId>, fired: multiset<Event>)
    requires Local(w, gone, fired) && HasChild(w, v, gone)
    ensures Local(Term(w, v), gone, fired) && Local(Kill(w, v), gone, fired)
  {
    assert OwnsChild(w, v);
    FrameSignal(w, Term(w, v), gone, fired);
    FrameSignal(w, Kill(w, v), gone, fired);
  }

  lemma FrameSignal(w: World, w': World, gone: set<VmId>, fired: multiset<Event>)
    requires Local(w, gone, fired) && w'.(children := w.children) == w
    requires w'.children.Keys == w.children.Keys
    requires forall p :: p in w.children ==> w'.children[p].vm == w.children[p].vm
    ensures Local(w', gone, fired)
  {
    FrameProcs(w, gone, w', gone);
    FrameExits(w, gone, w', gone, fired);
    FrameTaps(w, w');
  }

  lemma SetStateKeeps(w: World, v: VmId, s: State, gone: set<VmId>, fired: multiset<Event>)
    requires Local(w, gone, fired) && v in w.vms
    requires s != TERMINATE && w.vms[v].state != TERMINATE
    ensures Local(SetState(w, v, s), gone, fired)
  {
    var w' := SetState(w, v, s);
    FrameProcs(w, gone, w', gone);
    FrameExits(w, gone, w', gone, fired);
    FrameTaps(w, w');
  }

  lemma ReapKeeps(w: World, v: VmId)
    requires Local(w, {}, multiset{}) && v in w.vms && w.vms[v].state != TERMINATE
    ensures Local(Reap(w, v), {v}, multiset{Exit(v, w.vms[v].pid)})
  {
  }

  lemma RemoveTapsKeeps(w: World, v: VmId, sockOk: bool, gone: set<VmId>, fired: multiset<Event>)
    requires Listed(w) && Procs(w, gone) && Exits(w, gone, fired) && Timers(w) && Taps(w) && v in w.vms
    ensures var w' := RemoveTaps(w, v, sockOk);
      Listed(w') && Procs(w', gone) && Exits(w', gone, fired) && Timers(w') && Taps(w')
  {
    var w' := RemoveTaps(w, v, sockOk);
    FrameProcs(w, gone, w', gone);
    FrameExits(w, gone, w', gone, fired);
    RemoveTapsApart(w, v, sockOk);
  }

  lemma RemoveTapsApart(w: World, v: VmId, sockOk: bool)
    requires Taps(w) && v in w.vms
    ensures Taps(RemoveTaps(w, v, sockOk))
  {
    var w' := RemoveTaps(w, v, sockOk);
    assert forall u :: u in w.vms ==> TapsOf(w, u);
    if sockOk {
      forall u | u in w'.vms ensures TapsOf(w', u) {
        if u != v {
          forall i | 0 <= i < |w.vms[u].taps| && w.vms[u].taps[i].Some?
            ensures w.vms[u].taps[i].value in w'.taps
          {
            assert forall j :: 0 <= j < |w.vms[v].taps| ==> w.vms[v].taps[j] != w.vms[u].taps[i];
          }
        }
      }
    }
  }

  /** Taking down what a failed attempt put up restores the interfaces that existed before it. */
  lemma RemoveUndoesGive(w: World, v: VmId, taps: seq<Option<Tap>>)
    requires v in w.vms && w.vms[v].taps == []
    requires forall t :: Some(t) in taps ==> t !in w.taps
    ensures RemoveTaps(GiveTaps(w, v, taps), v, true) == w
  {
    var w' := RemoveTaps(GiveTaps(w, v, taps), v, true);
    assert w'.vms == w.vms;
    assert w'.taps == w.taps;
  }

  lemma MarkDownKeeps(w: World, v: VmId, fired: multiset<Event>)
    requires Ready(w, v, fired)
    ensures KeptIff(w.vms[v].taps == [], SetState(w, v, TERMINATE), fired)
  {
    var w' := SetState(w, v, TERMINATE);
    FrameProcs(w, {v}, w', {});
    FrameExits(w, {v}, w', {}, fired);
    FrameTaps(w, w');
    assert w'.vms[v].state == TERMINATE && w'.vms[v].taps == w.vms[v].taps;
  }

  lemma CleanupKeeps(w: World, v: VmId, sockOk: bool, fired: multiset<Event>)
    requires Ready(w, v, fired)
    ensures KeptIff(sockOk || w.vms[v].taps == [], Cleanup(w, v, sockOk), fired)
  {
    RemoveTapsKeeps(w, v, sockOk, {v}, fired);
    MarkDownKeeps(RemoveTaps(w, v, sockOk), v, fired);
  }

  lemma DropTimersReady(w: World, v: VmId, fired: multiset<Event>)
    requires Ready(w, v, fired)
    ensures Ready(w.(events := Drop(w.events, TimersOf(v))), v, fired)
  {
    DropCounts(w.events, TimersOf(v));
    var w1 := w.(events := Drop(w.events, TimersOf(v)));
    FrameProcs(w, {v}, w1, {v});
    FrameExits(w, {v}, w1, {v}, fired);
    FrameTaps(w, w1);
  }

  lemma CleanupReady(w: World, v: VmId, sockOk: bool, fired: multiset<Event>)
    requires Ready(w, v, fired)
    ensures Ready(Cleanup(w, v, sockOk), v, fired)
  {
    RemoveTapsKeeps(w, v, sockOk, {v}, fired);
    DownReady(RemoveTaps(w, v, sockOk), v, fired);
  }

  lemma DownReady(w: World, v: VmId, fired: multiset<Event>)
    requires Ready(w, v, fired)
    ensures Ready(SetState(w, v, TERMINATE), v, fired)
  {
    var w' := SetState(w, v, TERMINATE);
    FrameProcs(w, {v}, w', {v});
    FrameExits(w, {v}, w', {v}, fired);
    FrameTaps(w, w');
  }

  lemma StopReady(w: World, v: VmId, sockOk: bool, fired: multiset<Event>)
    requires Ready(w, v, fired)
    ensures Ready(Stop(w, v, sockOk), v, fired)
  {
    DropTimersReady(w, v, fired);
    CleanupReady(w.(events := Drop(w.events, TimersOf(v))), v, sockOk, fired);
  }

  lemma StopKeeps(w: World, v: VmId, sockOk: bool, fired: multiset<Event>)
    requires Local(w, {v}, fired) && v in w.vms
    ensures KeptIff(sockOk || w.vms[v].taps == [], Stop(w, v, sockOk), fired)
  {
    DropTimersReady(w, v, fired);
    CleanupKeeps(w.(events := Drop(w.events, TimersOf(v))), v, sockOk, fired);
  }

  ghost function Fired(e: Event): multiset<Event> {
    if e.Exit? then multiset{e} else multiset{}
  }

  lemma ReleaseExits(w: World, w': World, e: Event)
    requires w'.vms == w.vms && e in w.events && multiset(w'.events) == multiset(w.events) - multiset{e}
    ensures Exits(w, {}, Fired(e)) <==> Exits(w', {}, multiset{})
  {
    assert forall u :: HasChild(w', u, {}) <==> HasChild(w, u, {});
    forall v, p
      ensures multiset(w.events)[Exit(v, p)] == multiset(w'.events)[Exit(v, p)] + Fired(e)[Exit(v, p)]
    {
    }
  }

  lemma ReleaseCore(w: World, e: Event)
    requires e in w.events
    ensures Core(w, {}, Fired(e)) <==> Core(Release(w, e), {}, multiset{})
  {
    var w' := Release(w, e);
    ReleaseExits(w, w', e);
    if Procs(w, {}) { FrameProcs(w, {}, w', {}); }
    if Procs(w', {}) { FrameProcs(w', {}, w, {}); }
    if Taps(w) { FrameTaps(w, w'); }
    if Taps(w') { FrameTaps(w', w); }
  }

  lemma ReleaseTimers(w: World, e: Event)
    requires e in w.events && Timers(w)
    ensures Timers(Release(w, e))
  {
    var w' := Release(w, e);
    forall f | f in w'.events ensures f in w.events {
      assert multiset(w'.events)[f] > 0;
    }
  }

  lemma ReleaseKeeps(w: World, e: Event)
    requires e in w.events
    ensures Local(w, {}, Fired(e)) ==> Local(Release(w, e), {}, multiset{})
    ensures Core(w, {}, Fired(e)) <==> Core(Release(w, e), {}, multiset{})
  {
    ReleaseCore(w, e);
    if Timers(w) { ReleaseTimers(w, e); }
  }

  // ---------------------------------------------------------------- starting

  lemma GivenTaps(w: World, v: VmId, taps: seq<Option<Tap>>)
    requires Taps(w) && v in w.vms && w.vms[v].taps == []
    requires forall t :: Some(t) in taps ==> t !in w.taps
    requires forall i, j :: 0 <= i < j < |taps| && taps[i].Some? ==> taps[i] != taps[j]
    ensures Taps(GiveTaps(w, v, taps))
  {
    var w' := GiveTaps(w, v, taps);
    forall u | u in w'.vms ensures TapsOf(w', u) {
      if u != v {
        assert TapsOf(w, u);
        assert forall i :: 0 <= i < |w.vms[u].taps| && w.vms[u].taps[i].Some? ==>
          Some(w.vms[u].taps[i].value) !in taps;
      } else {
        assert forall i :: 0 <= i < |taps| && taps[i].Some? ==> Some(taps[i].value) in taps;
      }
    }
  }

  lemma GiveTapsKeeps(w: World, v: VmId, taps: seq<Option<Tap>>, fired: multiset<Event>)
    requires Ready(w, v, fired) && w.vms[v].taps == []
    requires forall t :: Some(t) in taps ==> t !in w.taps
    requires forall i, j :: 0 <= i < j < |taps| && taps[i].Some? ==> taps[i] != taps[j]
    ensures Ready(GiveTaps(w, v, taps), v, fired)
  {
    var w' := GiveTaps(w, v, taps);
    FrameProcs(w, {v}, w', {v});
    FrameExits(w, {v}, w', {v}, fired);
    GivenTaps(w, v, taps);
  }

  lemma GiveNothing(w: World, v: VmId)
    requires v in w.vms && w.vms[v].taps == []
    ensures GiveTaps(w, v, []) == w
  {
    assert w.vms[v := w.vms[v].(taps := [])] == w.vms;
    assert Granted(w.taps, TapSet([]), v) == w.taps;
  }

  /** Whatever goes wrong, a failed assignment destroys exactly the interfaces it created. */
  lemma PrepareTapsResult(w: World, v: VmId, o: Outcome)
    requires v in w.vms && w.vms[v].taps == [] && Fresh(w, o)
    ensures var (w', ok) := PrepareTaps(w, v, o);
      && (ok ==> o.netsOk && w' == GiveTaps(w, v, TapsAttempted(o.taps)))
      && (!ok && (o.sockOk || TapsAttempted(o.taps) == [] || !o.netsOk) ==> w' == w)
      && (!ok && o.netsOk && !o.sockOk ==> w' == GiveTaps(w, v, TapsAttempted(o.taps)))
  {
    RemoveUndoesGive(w, v, TapsAttempted(o.taps));
    if TapsAttempted(o.taps) == [] { GiveNothing(w, v); }
  }

  lemma SpawnProcs(w: World, v: VmId, p: Pid, s: State)
    requires Procs(w, {v}) && v in w.vms && p !in w.children && s != TERMINATE
    ensures Procs(Spawn(w, v, p, s), {})
  {
    var w' := Spawn(w, v, p, s);
    assert forall u :: HasChild(w', u, {}) <==> HasChild(w, u, {v}) || u == v;
  }

  lemma SpawnExits(w: World, v: VmId, p: Pid, s: State, fired: multiset<Event>)
    requires Exits(w, {v}, fired) && v in w.vms && s != TERMINATE
    ensures Exits(Watch(Spawn(w, v, p, s), v, p), {}, fired)
  {
    var w' := Watch(Spawn(w, v, p, s), v, p);
    assert forall u :: HasChild(w', u, {}) <==> HasChild(w, u, {v}) || u == v;
    assert multiset(w'.events) == multiset{Exit(v, p)} + multiset(w.events);
  }

  lemma SpawnKeeps(w: World, v: VmId, p: Pid, s: State, fired: multiset<Event>)
    requires Ready(w, v, fired) && p !in w.children && s != TERMINATE
    ensures Local(Watch(Spawn(w, v, p, s), v, p), {}, fired)
  {
    var w1 := Spawn(w, v, p, s);
    var w' := Watch(w1, v, p);
    SpawnProcs(w, v, p, s);
    FrameProcs(w1, {}, w', {});
    SpawnExits(w, v, p, s, fired);
    FrameTaps(w, w');
    WatchTimers(w1, v, p);
  }

  lemma WatchTimers(w: World, v: VmId, p: Pid)
    requires Timers(w) && v in w.vms
    ensures Timers(Watch(w, v, p))
  {
    var w' := Watch(w, v, p);
    assert multiset(w'.events) == multiset{Exit(v, p)} + multiset(w.events);
  }

  lemma UnwatchedProcs(w: World, v: VmId, p: Pid, s: State)
    requires Procs(w, {v}) && v in w.vms && p !in w.children
    ensures Procs(Reap(Kill(Spawn(w, v, p, s), v), v), {v})
  {
    var w' := Reap(Kill(Spawn(w, v, p, s), v), v);
    assert w'.children == w.children;
    assert forall u :: HasChild(w', u, {v}) <==> HasChild(w, u, {v});
  }

  /** A child that cannot be watched is killed and reaped at once. */
  lemma UnwatchedKeeps(w: World, v: VmId, p: Pid, s: State, fired: multiset<Event>)
    requires Ready(w, v, fired) && p !in w.children && s != TERMINATE
    ensures Ready(Reap(Kill(Spawn(w, v, p, s), v), v), v, fired)
  {
    var w' := Reap(Kill(Spawn(w, v, p, s), v), v);
    UnwatchedProcs(w, v, p, s);
    UnwatchedExits(w, v, p, s, fired);
    FrameTaps(w, w');
  }

  lemma UnwatchedExits(w: World, v: VmId, p: Pid, s: State, fired: multiset<Event>)
    requires Exits(w, {v}, fired) && v in w.vms && p !in w.children
    ensures Exits(Reap(Kill(Spawn(w, v, p, s), v), v), {v}, fired)
  {
    var w' := Reap(Kill(Spawn(w, v, p, s), v), v);
    assert forall u :: HasChild(w', u, {v}) <==> HasChild(w, u, {v});
  }

  lemma StaleExitBreaks(w: World, v: VmId, p: Pid, s: State, sockOk: bool, fired: multiset<Event>)
    requires Ready(w, v, fired)
    ensures !Core(Cleanup(Reap(Kill(Watch(Spawn(w, v, p, s), v, p), v), v), v, sockOk), {}, fired)
  {
    var w' := Cleanup(Reap(Kill(Watch(Spawn(w, v, p, s), v, p), v), v), v, sockOk);
    assert multiset(w'.events) == multiset{Exit(v, p)} + multiset(w.events);
    assert !HasChild(w', v, {});
    assert !HasChild(w, v, {v});
  }

  lemma LaunchKeeps(w: World, v: VmId, o: Outcome, fired: multiset<Event>)
    requires Ready(w, v, fired) && w.vms[v].conf in w.confs
    requires o.spawn.Some? ==> o.spawn.value !in w.children
    ensures var target := StartTarget(w.vms[v].state, w.confs[w.vms[v].conf].loader);
      KeptIff(if target.Some? && o.spawn.Some? && o.exitOk then o.outputOk else o.sockOk || w.vms[v].taps == [],
              Launch(w, v, o).0, fired)
  {
    var conf := w.confs[w.vms[v].conf];
    var target := StartTarget(w.vms[v].state, conf.loader);
    if target.None? || o.spawn.None? {
      CleanupKeeps(w, v, o.sockOk, fired);
    } else if o.exitOk && o.outputOk {
      SpawnKeeps(w, v, o.spawn.value, target.value, fired);
      AddTimerKeeps(Watch(Spawn(w, v, o.spawn.value, target.value), v, o.spawn.value),
                    v, conf.loaderTimeout, o.timerOk, {}, fired);
    } else if o.exitOk {
      StaleExitBreaks(w, v, o.spawn.value, target.value, o.sockOk, fired);
    } else {
      UnwatchedKeeps(w, v, o.spawn.value, target.value, fired);
      CleanupKeeps(Reap(Kill(Spawn(w, v, o.spawn.value, target.value), v), v), v, o.sockOk, fired);
    }
  }

  lemma GoneIfDown(w: World, v: VmId, fired: multiset<Event>)
    requires v in w.vms && w.vms[v].state == TERMINATE
    ensures Local(w, {}, fired) <==> Local(w, {v}, fired)
  {
    assert forall u :: HasChild(w, u, {}) <==> HasChild(w, u, {v});
  }

  /** A machine whose child is gone but which is not marked down breaks the invariant. */
  lemma StuckBreaks(w: World, v: VmId, fired: multiset<Event>)
    requires Ready(w, v, fired) && w.vms[v].state != TERMINATE
    ensures !Core(w, {}, fired)
  {
    assert HasChild(w, v, {});
    assert !HasChild(w, v, {v});
  }

  lemma PreparedKeeps(w: World, v: VmId, o: Outcome, fired: multiset<Event>)
    requires Ready(w, v, fired) && w.vms[v].conf in w.confs && Fresh(w, o) && w.vms[v].taps == []
    requires o.found && w.vms[v].state == TERMINATE && PrepareTaps(w, v, o).1
    ensures KeptIff(StartClean(w, v, o), Start(w, v, o).0, fired)
  {
    PrepareTapsResult(w, v, o);
    var w1 := PrepareTaps(w, v, o).0;
    var taps := TapsAttempted(o.taps);
    GiveTapsKeeps(w, v, taps, fired);
    assert w1.vms[v] == w.vms[v].(taps := taps) && w1.confs == w.confs && w1.children == w.children;
    LaunchKeeps(w1, v, o, fired);
  }

  lemma StartFromDownKeeps(w: World, v: VmId, o: Outcome, fired: multiset<Event>)
    requires Local(w, {v}, fired) && v in w.vms && w.vms[v].conf in w.confs && Fresh(w, o)
    requires o.found && w.vms[v].state == TERMINATE
    ensures KeptIff(StartClean(w, v, o), Start(w, v, o).0, fired)
  {
    PrepareTapsResult(w, v, o);
    var (w1, ok) := PrepareTaps(w, v, o);
    if ok {
      PreparedKeeps(w, v, o, fired);
    } else if o.netsOk && !o.sockOk && TapsAttempted(o.taps) != [] {
      assert w1.vms[v].taps != [] && w1.vms[v].state == TERMINATE;
    } else {
      GoneIfDown(w, v, fired);
    }
  }

  /**
   `start_virtual_machine` for a machine without a child: whatever fails on the way, the
   result satisfies the invariant exactly when none of the three bad endings is reached.
   */
  lemma StartKeeps(w: World, v: VmId, o: Outcome, fired: multiset<Event>)
    requires Local(w, {v}, fired) && v in w.vms && w.vms[v].conf in w.confs && Fresh(w, o)
    ensures KeptIff(StartClean(w, v, o), Start(w, v, o).0, fired)
  {
    if !o.found {
      if w.vms[v].state == TERMINATE { GoneIfDown(w, v, fired); } else { StuckBreaks(w, v, fired); }
    } else if w.vms[v].state != TERMINATE {
      LaunchKeeps(w, v, o, fired);
    } else {
      StartFromDownKeeps(w, v, o, fired);
    }
  }
}
