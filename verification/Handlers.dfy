/** Each handler keeps the daemon's invariant, exactly when its start and its clean-up end well. */
module Handlers {
  import opened Options
  import opened DaemonState
  import opened Resources
  import opened Lifecycle

  // ---------------------------------------------------------------- exits

  /** The exit leads to another start of the same machine. */
  predicate Restarts(w: World, v: VmId, status: Status)
    requires v in w.vms && w.vms[v].conf in w.confs
  {
    || (w.vms[v].state == LOAD && status == Exited(0))
    || (w.vms[v].state == RUN && ShouldRestart(w.confs[w.vms[v].conf], status))
  }

  predicate ExitClean(w: World, v: VmId, status: Status, o: Outcome)
    requires v in w.vms && w.vms[v].conf in w.confs
  {
    if Restarts(w, v, status) then StartClean(Reap(w, v), v, o)
    else if w.vms[v].state == REMOVE then o.sockOk || TapSet(w.vms[v].taps) == {}
    else o.sockOk || w.vms[v].taps == []
  }

  /** Under the invariant a fired exit event belongs to a live machine and names its pid. */
  lemma FiredExit(w: World, v: VmId, p: Pid)
    requires Inv(w) && Exit(v, p) in w.events
    ensures v in w.vms && w.vms[v].pid == p && w.vms[v].state != TERMINATE
  {
    assert multiset(w.events)[Exit(v, p)] > 0;
  }

  lemma StartOwned(w: World, v: VmId, o: Outcome)
    requires Owned(w) && v in w.vms && w.vms[v].state != REMOVE
    ensures Owned(Start(w, v, o).0) && Start(w, v, o).0.faults == w.faults
  {
    StartFrame(w, v, o);
    OwnedFrame(w, Start(w, v, o).0);
  }

  lemma ReapOwned(w: World, v: VmId)
    requires Owned(w) && v in w.vms
    ensures Owned(Reap(w, v)) && Reap(w, v).faults == w.faults
  {
    OwnedFrame(w, Reap(w, v));
  }

  lemma StopOwned(w: World, v: VmId, sockOk: bool)
    requires Owned(w) && v in w.vms && w.vms[v].state != REMOVE
    ensures Owned(Stop(Reap(w, v), v, sockOk)) && Stop(Reap(w, v), v, sockOk).faults == w.faults
  {
    StopFrame(Reap(w, v), v, sockOk);
    OwnedFrame(w, Stop(Reap(w, v), v, sockOk));
  }

  lemma DeleteStoppedOwned(w: World, v: VmId, sockOk: bool)
    requires Owned(w) && v in w.vms && w.vms[v].state == REMOVE
    ensures var w1 := DeleteEntry(Stop(Reap(w, v), v, sockOk), v); Owned(w1) && w1.faults == w.faults
  {
    StopFrame(Reap(w, v), v, sockOk);
    DeleteOwned(w, v);
    OwnedFrame(DeleteEntry(w, v), DeleteEntry(Stop(Reap(w, v), v, sockOk), v));
  }

  lemma RestartJudged(w: World, v: VmId, o: Outcome)
    requires Inv(w) && v in w.vms && w.vms[v].state in {LOAD, RUN} && Fresh(Reap(w, v), o)
    ensures Judge(Start(Reap(w, v), v, o).0, multiset{Exit(v, w.vms[v].pid)}) == SoundIff(StartClean(Reap(w, v), v, o))
  {
    ReapKeeps(w, v);
    StartKeeps(Reap(w, v), v, o, multiset{Exit(v, w.vms[v].pid)});
    ReapOwned(w, v);
    StartOwned(Reap(w, v), v, o);
  }

  lemma ReleaseJudged(w: World, e: Event)
    requires e in w.events
    ensures Judge(w, Fired(e)) != Other ==> Judge(Release(w, e), multiset{}) == Judge(w, Fired(e))
    ensures Release(w, e).faults == w.faults
  {
    ReleaseKeeps(w, e);
    if Owned(w) { OwnedFrame(w, Release(w, e)); }
  }

  /** Starting only adds events. */
  lemma StartKeepsEvents(w: World, v: VmId, o: Outcome, e: Event)
    requires v in w.vms && w.vms[v].conf in w.confs
    ensures e in w.events ==> e in Start(w, v, o).0.events
  {
    if o.found && w.vms[v].state == TERMINATE {
      var w1 := PrepareTaps(w, v, o).0;
      assert w1.events == w.events;
      LaunchKeepsEvents(w1, v, o, e);
    } else if o.found {
      LaunchKeepsEvents(w, v, o, e);
    }
  }

  lemma LaunchKeepsEvents(w: World, v: VmId, o: Outcome, e: Event)
    requires v in w.vms && w.vms[v].conf in w.confs
    ensures e in w.events ==> e in Launch(w, v, o).0.events
  {
  }

  /** The machine ends up down: everything but a removal and a restarting exit. */
  lemma StopExitJudged(w: World, v: VmId, p: Pid, sockOk: bool)
    requires Inv(w) && Exit(v, p) in w.events && v in w.vms && w.vms[v].state != REMOVE
    ensures var w1 := Stop(Reap(w, v), v, sockOk);
      && Judge(w1, multiset{Exit(v, p)}) == SoundIff(sockOk || w.vms[v].taps == [])
      && Exit(v, p) in w1.events && w1.faults == w.faults
  {
    FiredExit(w, v, p);
    ReapKeeps(w, v);
    StopKeeps(Reap(w, v), v, sockOk, multiset{Exit(v, p)});
    StopOwned(w, v, sockOk);
    DropKeepsExit(w.events, v, Exit(v, p));
  }

  lemma DropKeepsExit(s: seq<Event>, v: VmId, e: Event)
    requires e in s && e.Exit?
    ensures e in Drop(s, TimersOf(v))
  {
  }

  lemma NewConfsJudged(w: World, w': World, fired: multiset<Event>)
    requires SameButConfs(w, w')
    ensures Judge(w', fired) == Judge(w, fired)
  {
    CoreIff(w, w', fired);
    if Owned(w) { OwnedFrame(w, w'); }
    if Owned(w') { OwnedFrame(w', w); }
    JudgedAlike(w, w', fired);
  }

  lemma JudgedAlike(w: World, w': World, fired: multiset<Event>)
    requires (Core(w, {}, fired) <==> Core(w', {}, fired)) && (Timers(w) <==> Timers(w')) && (Owned(w) <==> Owned(w'))
    ensures Judge(w', fired) == Judge(w, fired)
  {
  }

  lemma FinishJudged(w: World, v: VmId, p: Pid, sockOk: bool)
    requires Inv(w) && Exit(v, p) in w.events && v in w.vms && w.vms[v].state != REMOVE
    ensures var w1 := Finish(Reap(w, v), v, sockOk);
      && Judge(w1, multiset{Exit(v, p)}) == SoundIff(sockOk || w.vms[v].taps == [])
      && Exit(v, p) in w1.events && w1.faults == w.faults
  {
    StopExitJudged(w, v, p, sockOk);
    FinishOnlyConfs(Reap(w, v), v, sockOk);
    NewConfsJudged(Stop(Reap(w, v), v, sockOk), Finish(Reap(w, v), v, sockOk), multiset{Exit(v, p)});
  }

  ghost predicate SameButConfs(w: World, w': World) {
    && w' == w.(confs := w'.confs) && w'.confs.Keys == w.confs.Keys
    && (forall c :: c in w.confs ==> w'.confs[c].name == w.confs[c].name)
  }

  lemma FinishOnlyConfs(w: World, v: VmId, sockOk: bool)
    requires v in w.vms && w.vms[v].conf in w.confs
    ensures SameButConfs(Stop(w, v, sockOk), Finish(w, v, sockOk))
  {
  }

  lemma AddTimerSameCore(w: World, v: VmId, secs: int, ok: bool)
    ensures SameCore(w, AddTimer(w, v, secs, ok))
  {
    var e := Timer(v, w.lastTimer + 1, secs);
    assert multiset([e] + w.events) == multiset{e} + multiset(w.events);
  }

  lemma AddTimerJudged(w: World, v: VmId, secs: int, ok: bool, fired: multiset<Event>)
    requires v in w.vms && Judge(w, fired) != Other
    ensures Judge(AddTimer(w, v, secs, ok), fired) == Judge(w, fired)
    ensures AddTimer(w, v, secs, ok).faults == w.faults
  {
    var w' := AddTimer(w, v, secs, ok);
    AddTimerSameCore(w, v, secs, ok);
    CoreIff(w, w', fired);
    if Judge(w, fired) == Sound {
      AddTimerKeeps(w, v, secs, ok, {}, fired);
      OwnedFrame(w, w');
    }
  }

  lemma RemoveExitLocal(w: World, v: VmId, sockOk: bool)
    requires Inv(w) && v in w.vms && w.vms[v].state == REMOVE
    ensures var w1 := DeleteEntry(Stop(Reap(w, v), v, sockOk), v);
      && KeptIff(sockOk || TapSet(w.vms[v].taps) == {}, w1, multiset{})
      && (forall e :: e in w1.events ==> e.vm != v)
  {
    ReapKeeps(w, v);
    StopReady(Reap(w, v), v, sockOk, multiset{Exit(v, w.vms[v].pid)});
    DeleteLocal(Stop(Reap(w, v), v, sockOk), v, multiset{Exit(v, w.vms[v].pid)});
  }

  lemma RemoveExitJudged(w: World, v: VmId, p: Pid, sockOk: bool)
    requires Inv(w) && v in w.vms && w.vms[v].state == REMOVE
    ensures var w1 := DeleteEntry(Stop(Reap(w, v), v, sockOk), v);
      && Judge(w1, multiset{}) == SoundIff(sockOk || TapSet(w.vms[v].taps) == {})
      && w1.faults == w.faults && Exit(v, p) !in w1.events
  {
    RemoveExitLocal(w, v, sockOk);
    DeleteStoppedOwned(w, v, sockOk);
  }

  lemma ReleasedTwiceJudged(w: World, e: Event)
    requires e !in w.events
    ensures Judge(Release(w, e), multiset{}) == Judge(w, multiset{})
    ensures Release(w, e).faults == w.faults + {EventReleasedTwice}
  {
    CoreIff(w, Release(w, e), multiset{});
    if Owned(w) { OwnedFrame(w, Release(w, e)); }
    if Owned(Release(w, e)) { OwnedFrame(Release(w, e), w); }
  }

  lemma DownExitJudged(w: World, v: VmId, p: Pid, status: Status, o: Outcome)
    requires Inv(w) && Exit(v, p) in w.events && v in w.vms
    requires !Restarts(w, v, status) && w.vms[v].state != REMOVE
    ensures var w1 := OnVmExit(w, v, status, o);
      && Judge(w1, multiset{Exit(v, p)}) == SoundIff(o.sockOk || w.vms[v].taps == [])
      && Exit(v, p) in w1.events && w1.faults == w.faults
  {
    FiredExit(w, v, p);
    match w.vms[v].state
    case LOAD => StopExitJudged(w, v, p, o.sockOk);
    case RESTART =>
      StopExitJudged(w, v, p, o.sockOk);
      AddTimerJudged(Stop(Reap(w, v), v, o.sockOk), v, Max(w.confs[w.vms[v].conf].bootDelay, 3), o.timerOk,
                     multiset{Exit(v, p)});
    case RUN => FinishJudged(w, v, p, o.sockOk);
    case STOP => FinishJudged(w, v, p, o.sockOk);
  }

  lemma RemoveExitKeeps(w: World, v: VmId, p: Pid, sockOk: bool)
    requires Inv(w) && Exit(v, p) in w.events && v in w.vms && w.vms[v].state == REMOVE
    ensures var w' := Release(DeleteEntry(Stop(Reap(w, v), v, sockOk), v), Exit(v, p));
      && Judge(w', multiset{}) == SoundIff(sockOk || TapSet(w.vms[v].taps) == {})
      && w'.faults == w.faults + {EventReleasedTwice}
  {
    FiredExit(w, v, p);
    RemoveExitJudged(w, v, p, sockOk);
    ReleasedTwiceJudged(DeleteEntry(Stop(Reap(w, v), v, sockOk), v), Exit(v, p));
  }

  lemma DownExitKeeps(w: World, v: VmId, p: Pid, status: Status, o: Outcome)
    requires Inv(w) && Exit(v, p) in w.events && v in w.vms
    requires !Restarts(w, v, status) && w.vms[v].state != REMOVE
    ensures var w' := Release(OnVmExit(w, v, status, o), Exit(v, p));
      Judge(w', multiset{}) == SoundIff(o.sockOk || w.vms[v].taps == []) && w'.faults == w.faults
  {
    DownExitJudged(w, v, p, status, o);
    ReleaseJudged(OnVmExit(w, v, status, o), Exit(v, p));
  }

  lemma RestartExitKeeps(w: World, v: VmId, p: Pid, o: Outcome)
    requires Inv(w) && Exit(v, p) in w.events && v in w.vms && Fresh(Reap(w, v), o)
    requires w.vms[v].pid == p && w.vms[v].conf in w.confs && (w.vms[v].state == LOAD || w.vms[v].state == RUN)
    ensures var w' := Release(Start(Reap(w, v), v, o).0, Exit(v, p));
      Judge(w', multiset{}) == SoundIff(StartClean(Reap(w, v), v, o)) && w'.faults == w.faults
  {
    RestartJudged(w, v, o);
    ReapOwned(w, v);
    StartOwned(Reap(w, v), v, o);
    StartKeepsEvents(Reap(w, v), v, o, Exit(v, p));
    ReleaseJudged(Start(Reap(w, v), v, o).0, Exit(v, p));
  }

  /**
   `on_vm_exit` as `event_loop` runs it.  The dispatched event is released twice exactly when
   the exit completes a removal.
   */
  lemma ExitKeeps(w: World, v: VmId, p: Pid, status: Status, o: Outcome)
    requires Inv(w) && Exit(v, p) in w.events && v in w.vms && Fresh(Reap(w, v), o)
    ensures var w' := Release(OnVmExit(w, v, status, o), Exit(v, p));
      && Judge(w', multiset{}) == SoundIff(ExitClean(w, v, status, o))
      && w'.faults == w.faults + if w.vms[v].state == REMOVE then {EventReleasedTwice} else {}
  {
    FiredExit(w, v, p);
    ExitMeans(w, v, status, o);
    if Restarts(w, v, status) {
      RestartExitKeeps(w, v, p, o);
    } else if w.vms[v].state == REMOVE {
      RemoveExitKeeps(w, v, p, o.sockOk);
    } else {
      DownExitKeeps(w, v, p, status, o);
    }
  }

  // ---------------------------------------------------------------- timers

  predicate TimerClean(w: World, v: VmId, o: Outcome)
    requires v in w.vms && w.vms[v].conf in w.confs
  {
    w.vms[v].state == TERMINATE ==> StartClean(w, v, o)
  }

  lemma StartDownJudged(w: World, v: VmId, o: Outcome)
    requires Local(w, {}, multiset{}) && Owned(w) && v in w.vms && w.vms[v].state == TERMINATE && Fresh(w, o)
    ensures Judge(Start(w, v, o).0, multiset{}) == SoundIff(StartClean(w, v, o))
  {
    GoneIfDown(w, v, multiset{});
    StartKeeps(w, v, o, multiset{});
    StartOwned(w, v, o);
  }

  lemma SignalJudged(w: World, v: VmId)
    requires Local(w, {}, multiset{}) && Owned(w) && v in w.vms && w.vms[v].state != TERMINATE
    ensures Judge(Kill(w, v), multiset{}) == Judge(Term(w, v), multiset{}) == Sound
    ensures Kill(w, v).faults == Term(w, v).faults == w.faults
  {
    assert HasChild(w, v, {});
    SignalKeeps(w, v, {}, multiset{});
    OwnedFrame(w, Kill(w, v));
    OwnedFrame(w, Term(w, v));
  }

  lemma OnTimerJudged(w: World, v: VmId, o: Outcome)
    requires Inv(w) && v in w.vms && Fresh(w, o)
    ensures Judge(OnTimer(w, v, o), multiset{}) == SoundIff(TimerClean(w, v, o))
    ensures OnTimer(w, v, o).faults == w.faults
  {
    match w.vms[v].state
    case TERMINATE =>
      StartDownJudged(w, v, o);
      StartOwned(w, v, o);
    case RUN =>
    case _ => SignalJudged(w, v);
  }

  lemma OnTimerKeepsEvent(w: World, v: VmId, o: Outcome, e: Event)
    requires v in w.vms && w.vms[v].conf in w.confs && e in w.events
    ensures e in OnTimer(w, v, o).events
  {
    StartKeepsEvents(w, v, o, e);
  }

  /** `on_timer` as `event_loop` runs it. */
  lemma TimerKeeps(w: World, e: Event, o: Outcome)
    requires Inv(w) && e in w.events && e.Timer? && Fresh(w, o)
    ensures e.vm in w.vms
    ensures var w' := Release(OnTimer(w, e.vm, o), e);
      && Judge(w', multiset{}) == SoundIff(TimerClean(w, e.vm, o))
      && w'.faults == w.faults
  {
    OnTimerJudged(w, e.vm, o);
    OnTimerKeepsEvent(w, e.vm, o, e);
    ReleaseJudged(OnTimer(w, e.vm, o), e);
  }

  // ---------------------------------------------------------------- commands

  lemma ReplaceConfNames(w: World, v: VmId, conf: Conf)
    requires Owned(w) && v in w.vms && conf.name == VmName(w, v)
    ensures var w' := ReplaceConf(w, v, conf, true);
      forall u :: u in w.vms ==> w'.vms[u].conf in w'.confs && VmName(w', u) == VmName(w, u)
  {
    var w' := ReplaceConf(w, v, conf, true);
    forall u | u in w.vms && u != v ensures w'.vms[u].conf != w.vms[v].conf && VmName(w', u) == VmName(w, u) {
      assert VmName(w, u) != VmName(w, v);
    }
  }

  lemma ReplaceConfOwned(w: World, v: VmId, conf: Conf, differs: bool)
    requires Owned(w) && v in w.vms && w.vms[v].state != REMOVE && conf.name == VmName(w, v)
    ensures var w' := ReplaceConf(w, v, conf, differs);
      && Owned(w') && w'.faults == w.faults
  {
    var w' := ReplaceConf(w, v, conf, differs);
    if differs {
      ReplaceConfNames(w, v, conf);
      ReplaceConfLists(w, v, conf);
    }
  }

  lemma ReplaceConfLists(w: World, v: VmId, conf: Conf)
    requires Owned(w) && v in w.vms && w.vms[v].state != REMOVE
    ensures var w' := ReplaceConf(w, v, conf, true);
      && NoDup(w'.confList) && |w'.confs| == |w'.vms| && w'.faults == w.faults
      && (forall c :: c in w'.confList <==> c == w.nextConf || (c in w.confList && c != w.vms[v].conf))
  {
    var w' := ReplaceConf(w, v, conf, true);
    WithoutNoDup(w.confList, w.vms[v].conf);
    assert w'.confs.Keys == w.confs.Keys - {w.vms[v].conf} + {w.nextConf};
    assert w'.vms.Keys == w.vms.Keys;
  }

  lemma PrepareBootJudged(w: World, v: VmId, conf: Conf, differs: bool, install: bool)
    requires Inv(w) && v in w.vms && w.vms[v].state == TERMINATE && conf.name == VmName(w, v)
    ensures var w' := PrepareBoot(w, v, conf, differs, install);
      Judge(w', multiset{}) == Sound && w'.faults == w.faults && w'.vms[v].state == TERMINATE
  {
    var w1 := ReplaceConf(w, v, conf, differs);
    ReplaceConfOwned(w, v, conf, differs);
    ReplaceConfLocal(w, v, conf, differs);
    PrepareBootOnlyConfs(w, v, conf, differs, install);
    NewConfsJudged(w1, PrepareBoot(w, v, conf, differs, install), multiset{});
  }

  lemma ReplaceConfLocal(w: World, v: VmId, conf: Conf, differs: bool)
    requires Local(w, {}, multiset{}) && v in w.vms
    ensures Local(ReplaceConf(w, v, conf, differs), {}, multiset{})
  {
    ReplaceConfSame(w, v, conf, differs);
    FrameLocal(w, ReplaceConf(w, v, conf, differs), {}, multiset{});
  }

  lemma ReplaceConfSame(w: World, v: VmId, conf: Conf, differs: bool)
    requires v in w.vms
    ensures var w' := ReplaceConf(w, v, conf, differs);
      && SameMachines(w, w') && (StraySignal in w'.faults <==> StraySignal in w.faults)
  {
  }

  lemma PrepareBootOnlyConfs(w: World, v: VmId, conf: Conf, differs: bool, install: bool)
    requires v in w.vms && w.vms[v].conf in w.confs && w.nextConf !in w.confs
    ensures var w' := PrepareBoot(w, v, conf, differs, install);
      && SameButConfs(ReplaceConf(w, v, conf, differs), w')
      && w'.vms[v].state == w.vms[v].state && w'.children == w.children && w'.taps == w.taps
  {
  }

  /** The command gets as far as starting the machine. */
  predicate BootStarts(w: World, name: string, allowed: bool, loaded: Option<Conf>)
  {
    var r := Lookup(w, w.vmList, name);
    r.Some? && allowed && w.vms[r.value].state == TERMINATE && loaded.Some?
  }

  predicate BootClean(w: World, name: string, allowed: bool, install: bool,
                      loaded: Option<Conf>, differs: bool, o: Outcome)
    requires loaded.Some? ==> w.nextConf !in w.confs
  {
    BootStarts(w, name, allowed, loaded) ==>
      var v := Lookup(w, w.vmList, name).value;
      StartClean(PrepareBoot(w, v, loaded.value, differs, install), v, o)
  }

  lemma BootKeeps(w: World, name: string, allowed: bool, install: bool,
                  loaded: Option<Conf>, differs: bool, o: Outcome)
    requires Inv(w) && (loaded.Some? ==> loaded.value.name == name) && Fresh(w, o)
    ensures var w' := BootCommand(w, name, allowed, install, loaded, differs, o).0;
      && Judge(w', multiset{}) == SoundIff(BootClean(w, name, allowed, install, loaded, differs, o))
      && w'.faults == w.faults
  {
    assert Judge(w, multiset{}) == Sound;
    if BootStarts(w, name, allowed, loaded) {
      BootStartKeeps(w, Lookup(w, w.vmList, name).value, install, loaded.value, differs, o);
    }
  }

  lemma BootStartKeeps(w: World, v: VmId, install: bool, conf: Conf, differs: bool, o: Outcome)
    requires Inv(w) && v in w.vms && w.vms[v].state == TERMINATE && conf.name == VmName(w, v) && Fresh(w, o)
    ensures var w1 := PrepareBoot(w, v, conf, differs, install);
      && Judge(Start(w1, v, o).0, multiset{}) == SoundIff(StartClean(w1, v, o))
      && Start(w1, v, o).0.faults == w.faults
  {
    var w1 := PrepareBoot(w, v, conf, differs, install);
    PrepareBootJudged(w, v, conf, differs, install);
    PrepareBootOnlyConfs(w, v, conf, differs, install);
    StartDownJudged(w1, v, o);
    StartOwned(w1, v, o);
  }

  lemma SetStateJudged(w: World, v: VmId, s: State)
    requires Local(w, {}, multiset{}) && Owned(w) && v in w.vms
    requires s !in {TERMINATE, REMOVE} && w.vms[v].state !in {TERMINATE, REMOVE}
    ensures Judge(SetState(w, v, s), multiset{}) == Sound && SetState(w, v, s).faults == w.faults
  {
    SetStateKeeps(w, v, s, {}, multiset{});
    SetStateOwned(w, v, s);
  }

  lemma SetStateOwned(w: World, v: VmId, s: State)
    requires Owned(w) && v in w.vms && s != REMOVE && w.vms[v].state != REMOVE
    ensures Owned(SetState(w, v, s))
  {
    OwnedFrame(w, SetState(w, v, s));
  }

  /** The shutdown commands keep the invariant whatever fails. */
  lemma DownKeeps(w: World, name: string, allowed: bool, how: int, timerOk: bool)
    requires Inv(w)
    ensures var w' := DownCommand(w, name, allowed, how, timerOk).0;
      Judge(w', multiset{}) == Sound && w'.faults == w.faults
  {
    var r := Lookup(w, w.vmList, name);
    assert Judge(w, multiset{}) == Sound;
    if r.Some? && allowed && w.vms[r.value].state in {LOAD, RUN} {
      var v := r.value;
      DownMeans(w, name, how, timerOk, v);
      if how == 0 {
        TermKeeps(w, v, w.confs[w.vms[v].conf].stopTimeout, timerOk, STOP);
      } else if how == 2 {
        KillKeeps(w, v);
      }
    }
  }

  lemma ExitMeans(w: World, v: VmId, status: Status, o: Outcome)
    requires v in w.vms && w.vms[v].conf in w.confs
    ensures Restarts(w, v, status) ==> OnVmExit(w, v, status, o) == Start(Reap(w, v), v, o).0
    ensures w.vms[v].state == REMOVE ==> OnVmExit(w, v, status, o) == DeleteEntry(Stop(Reap(w, v), v, o.sockOk), v)
  {
  }

  lemma DownMeans(w: World, name: string, how: int, timerOk: bool, v: VmId)
    requires Lookup(w, w.vmList, name) == Some(v) && w.vms[v].state in {LOAD, RUN}
    ensures var w' := DownCommand(w, name, true, how, timerOk).0;
      && (how == 0 ==>
          w' == SetState(AddTimer(Term(w, v), v, w.confs[w.vms[v].conf].stopTimeout, timerOk), v, STOP))
      && (how == 2 ==> w' == SetState(Kill(w, v), v, STOP)) && (how != 0 && how != 2 ==> w' == w)
  {
  }

  lemma KillKeeps(w: World, v: VmId)
    requires Local(w, {}, multiset{}) && Owned(w) && v in w.vms && w.vms[v].state in {LOAD, RUN}
    ensures var w' := SetState(Kill(w, v), v, STOP);
      Judge(w', multiset{}) == Sound && w'.faults == w.faults
  {
    SignalJudged(w, v);
    SetStateJudged(Kill(w, v), v, STOP);
  }

  /** Asking a running machine to stop, for good or for a restart. */
  lemma TermKeeps(w: World, v: VmId, secs: int, timerOk: bool, s: State)
    requires Local(w, {}, multiset{}) && Owned(w) && v in w.vms && w.vms[v].state in {LOAD, RUN}
    requires s in {STOP, RESTART}
    ensures var w' := SetState(AddTimer(Term(w, v), v, secs, timerOk), v, s);
      Judge(w', multiset{}) == Sound && w'.faults == w.faults
  {
    SignalJudged(w, v);
    AddTimerJudged(Term(w, v), v, secs, timerOk, multiset{});
    SetStateJudged(AddTimer(Term(w, v), v, secs, timerOk), v, s);
  }
}
