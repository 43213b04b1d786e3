/**
 Stopping always escalates: a machine that was asked to stop has either been sent a power-off
 or has been sent SIGTERM and has a timer pending, which will send the power-off.
 */
module Escalation {
  import opened Options
  import opened DaemonState
  import opened Resources
  import opened Lifecycle
  import opened Handlers
  import opened Reload
  import opened ReloadProof
  import opened ReloadTheorems
  import opened Runs
  import opened Steps

  predicate PowerOffSent(c: Child) { c.killed || c.suspended }

  predicate Stopping(s: State) { s == STOP || s == REMOVE || s == RESTART }

  ghost predicate EscOf(w: World, v: VmId)
    requires v in w.vms
  {
    Stopping(w.vms[v].state) ==>
      && OwnsChild(w, v)
      && var c := w.children[w.vms[v].pid]; PowerOffSent(c) || (c.termed && HasTimer(w, v))
  }

  ghost predicate Escalates(w: World) {
    forall v :: v in w.vms ==> EscOf(w, v)
  }

  // ---------------------------------------------------------------- what one machine's step leaves to the others

  ghost predicate OthersKeep(w: World, w': World, u: VmId) {
    forall v :: v in w'.vms && v != u ==>
      && v in w.vms && w'.vms[v].state == w.vms[v].state && w'.vms[v].pid == w.vms[v].pid
      && (HasTimer(w, v) ==> HasTimer(w', v))
      && (OwnsChild(w, v) ==> OwnsChild(w', v) && w'.children[w.vms[v].pid] == w.children[w.vms[v].pid])
  }

  lemma EscStep(w: World, w': World, u: VmId)
    requires Escalates(w) && OthersKeep(w, w', u) && (u in w'.vms ==> EscOf(w', u))
    ensures Escalates(w')
  {
    forall v | v in w'.vms ensures EscOf(w', v) {
      if v != u { assert EscOf(w, v); }
    }
  }

  lemma TimersOfOthers(w: World, w': World, u: VmId, v: VmId)
    requires u != v && HasTimer(w, v)
    requires forall e: Event :: e.vm != u ==> multiset(w'.events)[e] == multiset(w.events)[e]
    ensures HasTimer(w', v)
  {
    var e :| e in w.events && IsTimerOf(e, v);
    assert multiset(w'.events)[e] > 0;
    assert e in w'.events;
  }

  lemma StartChildren(w: World, u: VmId, o: Outcome)
    requires u in w.vms && w.vms[u].conf in w.confs && (o.spawn.Some? ==> o.spawn.value !in w.children)
    ensures forall q :: q in w.children ==>
      q in Start(w, u, o).0.children && Start(w, u, o).0.children[q] == w.children[q]
  {
    if o.found && w.vms[u].state == TERMINATE {
      PrepareChildren(w, u, o);
      PrepareFrame(w, u, o);
      var (w1, ok) := PrepareTaps(w, u, o);
      if ok { LaunchChildren(w1, u, o); }
    } else if o.found {
      LaunchChildren(w, u, o);
    }
  }

  lemma PrepareChildren(w: World, u: VmId, o: Outcome)
    requires u in w.vms
    ensures PrepareTaps(w, u, o).0.children == w.children
  {
  }

  lemma LaunchChildren(w: World, u: VmId, o: Outcome)
    requires u in w.vms && w.vms[u].conf in w.confs && (o.spawn.Some? ==> o.spawn.value !in w.children)
    ensures forall q :: q in w.children ==>
      q in Launch(w, u, o).0.children && Launch(w, u, o).0.children[q] == w.children[q]
  {
  }

  lemma StartOthers(w: World, u: VmId, o: Outcome)
    requires u in w.vms && w.vms[u].conf in w.confs && Fresh(w, o)
    ensures OthersKeep(w, Start(w, u, o).0, u)
  {
    var w' := Start(w, u, o).0;
    StartFrame(w, u, o);
    StartChildren(w, u, o);
    forall v | v in w'.vms && v != u && HasTimer(w, v) ensures HasTimer(w', v) {
      TimersOfOthers(w, w', u, v);
    }
  }

  lemma StopOthers(w: World, u: VmId, sockOk: bool)
    requires u in w.vms
    ensures OthersKeep(w, Stop(w, u, sockOk), u)
  {
    var w' := Stop(w, u, sockOk);
    StopFrame(w, u, sockOk);
    forall v | v in w'.vms && v != u && HasTimer(w, v) ensures HasTimer(w', v) {
      TimersOfOthers(w, w', u, v);
    }
  }

  lemma AddTimerOthers(w: World, u: VmId, secs: int, ok: bool)
    ensures OthersKeep(w, AddTimer(w, u, secs, ok), u)
    ensures ok ==> HasTimer(AddTimer(w, u, secs, ok), u)
    ensures HasTimer(w, u) ==> HasTimer(AddTimer(w, u, secs, ok), u)
  {
    var w' := AddTimer(w, u, secs, ok);
    if ok {
      var t := Timer(u, w.lastTimer + 1, secs);
      assert w'.events == [t] + w.events;
      assert t in w'.events && IsTimerOf(t, u);
      assert forall e :: e in w.events ==> e in w'.events;
    }
  }

  lemma SignalOthers(w: World, u: VmId)
    requires u in w.vms
    ensures OthersKeep(w, Kill(w, u), u) && OthersKeep(w, Term(w, u), u)
  {
  }

  lemma OthersTrans(w: World, w1: World, w2: World, u: VmId)
    requires OthersKeep(w, w1, u) && OthersKeep(w1, w2, u)
    ensures OthersKeep(w, w2, u)
  {
  }

  /** Releasing an exit event disarms nothing; releasing a timer only concerns its own machine. */
  lemma ReleaseOthers(w: World, e: Event)
    ensures OthersKeep(w, Release(w, e), e.vm)
    ensures e.Exit? && HasTimer(w, e.vm) ==> HasTimer(Release(w, e), e.vm)
  {
    var w' := Release(w, e);
    forall v | HasTimer(w, v) && (v != e.vm || e.Exit?) ensures HasTimer(w', v) {
      var t :| t in w.events && IsTimerOf(t, v);
      assert t != e;
      if e in w.events {
        assert multiset(w'.events)[t] == multiset(w.events)[t] > 0;
      }
      assert t in w'.events;
    }
  }

  // ---------------------------------------------------------------- handlers

  lemma ReapOthers(w: World, u: VmId)
    requires Local(w, {}, multiset{}) && u in w.vms && w.vms[u].state != TERMINATE
    ensures OthersKeep(w, Reap(w, u), u)
  {
    assert HasChild(w, u, {}) && OwnsChild(w, u);
  }

  lemma ExitOthers(w: World, u: VmId, status: Status, o: Outcome)
    requires Local(w, {}, multiset{}) && Readable(w, u) && w.vms[u].state != TERMINATE && Fresh(Reap(w, u), o)
    ensures OthersKeep(w, OnVmExit(w, u, status, o), u)
  {
    var w0 := Reap(w, u);
    ReapOthers(w, u);
    if Restarts(w, u, status) {
      StartOthers(w0, u, o);
      OthersTrans(w, w0, Start(w0, u, o).0, u);
    } else {
      StopOthers(w0, u, o.sockOk);
      OthersTrans(w, w0, Stop(w0, u, o.sockOk), u);
      StoppedOthers(w, w0, u, status, o);
    }
  }

  /** What follows a stop: a restart is put off, the entry is deleted, or the section is no longer installing. */
  lemma StoppedOthers(w: World, w0: World, u: VmId, status: Status, o: Outcome)
    requires Readable(w, u) && w.vms[u].state != TERMINATE && !Restarts(w, u, status)
    requires w0 == Reap(w, u) && OthersKeep(w, Stop(w0, u, o.sockOk), u)
    ensures OthersKeep(w, OnVmExit(w, u, status, o), u)
  {
    var w1 := Stop(w0, u, o.sockOk);
    match w.vms[u].state
    case RESTART =>
      var secs := Max(w.confs[w.vms[u].conf].bootDelay, 3);
      AddTimerOthers(w1, u, secs, o.timerOk);
      OthersTrans(w, w1, AddTimer(w1, u, secs, o.timerOk), u);
    case REMOVE =>
      DeleteOthers(w1, u);
      OthersTrans(w, w1, DeleteEntry(w1, u), u);
    case LOAD =>
    case TERMINATE =>
    case RUN => AlikeOthers(w, w1, Finish(w0, u, o.sockOk), u);
    case STOP => AlikeOthers(w, w1, Finish(w0, u, o.sockOk), u);
  }

  lemma AlikeOthers(w: World, w1: World, w2: World, u: VmId)
    requires OthersKeep(w, w1, u) && w2.vms == w1.vms && w2.events == w1.events && w2.children == w1.children
    ensures OthersKeep(w, w2, u)
  {
  }

  lemma DeleteOthers(w: World, u: VmId)
    requires u in w.vms
    ensures OthersKeep(w, DeleteEntry(w, u), u)
  {
    var w' := DeleteEntry(w, u);
    forall v | v != u && HasTimer(w, v) ensures HasTimer(w', v) {
      var t :| t in w.events && IsTimerOf(t, v);
      assert t in w'.events;
    }
  }

  /** After an exit the machine is not being stopped any more. */
  lemma ExitNotStopping(w: World, u: VmId, status: Status, o: Outcome)
    requires Readable(w, u) && w.vms[u].state != TERMINATE
    ensures var w' := OnVmExit(w, u, status, o); u in w'.vms ==> !Stopping(w'.vms[u].state)
  {
    StartFrame(Reap(w, u), u, o);
    StopFrame(Reap(w, u), u, o.sockOk);
  }

  lemma ExitEscalates(w: World, u: VmId, p: Pid, status: Status, o: Outcome)
    requires Inv(w) && Escalates(w) && Readable(w, u) && Exit(u, p) in w.events && Fresh(Reap(w, u), o)
    ensures Escalates(Release(OnVmExit(w, u, status, o), Exit(u, p)))
  {
    FiredExit(w, u, p);
    var w1 := OnVmExit(w, u, status, o);
    ExitOthers(w, u, status, o);
    ExitNotStopping(w, u, status, o);
    ReleaseOthers(w1, Exit(u, p));
    OthersTrans(w, w1, Release(w1, Exit(u, p)), u);
    EscStep(w, Release(w1, Exit(u, p)), u);
  }

  lemma TimerEscalates(w: World, e: Event, o: Outcome)
    requires Inv(w) && Escalates(w) && e in w.events && e.Timer? && Readable(w, e.vm) && Fresh(w, o)
    ensures Escalates(Release(OnTimer(w, e.vm, o), e))
  {
    var w1 := OnTimer(w, e.vm, o);
    OnTimerOthers(w, e.vm, o);
    OnTimerKills(w, e.vm, o);
    ReleaseOthers(w1, e);
    OthersTrans(w, w1, Release(w1, e), e.vm);
    EscStep(w, Release(w1, e), e.vm);
  }

  lemma OnTimerOthers(w: World, u: VmId, o: Outcome)
    requires Readable(w, u) && Fresh(w, o)
    ensures OthersKeep(w, OnTimer(w, u, o), u)
  {
    if w.vms[u].state == TERMINATE {
      StartOthers(w, u, o);
    } else {
      SignalOthers(w, u);
    }
  }

  /** The timer of a machine that is being stopped sends the power-off. */
  lemma OnTimerKills(w: World, u: VmId, o: Outcome)
    requires Local(w, {}, multiset{}) && Readable(w, u)
    ensures var w' := OnTimer(w, u, o);
      u in w'.vms && (Stopping(w'.vms[u].state) ==> OwnsChild(w', u) && PowerOffSent(w'.children[w'.vms[u].pid]))
  {
    if w.vms[u].state == TERMINATE {
      StartFrame(w, u, o);
    } else {
      assert HasChild(w, u, {}) && OwnsChild(w, u);
    }
  }

  lemma StartEscalates(w: World, u: VmId, o: Outcome)
    requires Escalates(w) && Readable(w, u) && Fresh(w, o) && w.vms[u].state == TERMINATE
    ensures Escalates(Start(w, u, o).0)
  {
    StartOthers(w, u, o);
    StartFrame(w, u, o);
    EscStep(w, Start(w, u, o).0, u);
  }

  /** The entry's configuration pointers are no matter. */
  lemma EscFrame(w: World, w': World)
    requires Escalates(w) && w'.events == w.events && w'.children == w.children && w'.vms.Keys == w.vms.Keys
    requires forall v :: v in w.vms ==> w'.vms[v].state == w.vms[v].state && w'.vms[v].pid == w.vms[v].pid
    ensures Escalates(w')
  {
    forall v | v in w'.vms ensures EscOf(w', v) {
      assert EscOf(w, v);
    }
  }

  lemma BootEscalates(w: World, u: VmId, conf: Conf, differs: bool, install: bool, o: Outcome)
    requires Escalates(w) && Readable(w, u) && w.nextConf !in w.confs && w.vms[u].state == TERMINATE && Fresh(w, o)
    ensures Escalates(Start(PrepareBoot(w, u, conf, differs, install), u, o).0)
  {
    var w1 := PrepareBoot(w, u, conf, differs, install);
    EscFrame(w, w1);
    StartEscalates(w1, u, o);
  }

  lemma AskToStopOthers(w: World, u: VmId, secs: int, timerOk: bool, s: State)
    requires u in w.vms
    ensures OthersKeep(w, AskToStop(w, u, secs, timerOk, s), u)
  {
    SignalOthers(w, u);
    var w1 := Term(w, u);
    AddTimerOthers(w1, u, secs, timerOk);
    OthersTrans(w, w1, AddTimer(w1, u, secs, timerOk), u);
    var w2 := AddTimer(w1, u, secs, timerOk);
    OthersTrans(w, w2, SetState(w2, u, s), u);
  }

  lemma AskToStopEscalates(w: World, u: VmId, secs: int, s: State)
    requires Escalates(w) && u in w.vms && OwnsChild(w, u)
    ensures Escalates(AskToStop(w, u, secs, true, s))
  {
    var w' := AskToStop(w, u, secs, true, s);
    AskToStopOthers(w, u, secs, true, s);
    AddTimerOthers(Term(w, u), u, secs, true);
    EscStep(w, w', u);
  }

  /**
   A request to stop, wherever it comes from, escalates exactly when its timer is registered, an
   older timer is pending, or a power-off was sent before.
   */
  lemma AskToStopIff(w: World, u: VmId, secs: int, timerOk: bool, s: State)
    requires Escalates(w) && u in w.vms && OwnsChild(w, u) && Stopping(s)
    ensures Escalates(AskToStop(w, u, secs, timerOk, s)) <==>
            timerOk || HasTimer(w, u) || PowerOffSent(w.children[w.vms[u].pid])
  {
    var w' := AskToStop(w, u, secs, timerOk, s);
    AskToStopOthers(w, u, secs, timerOk, s);
    if timerOk {
      AskToStopEscalates(w, u, secs, s);
    } else {
      assert w'.events == w.events;
      if HasTimer(w, u) || PowerOffSent(w.children[w.vms[u].pid]) {
        EscStep(w, w', u);
      } else {
        assert !EscOf(w', u);
      }
    }
  }

  /**
   The timeout of a machine that was asked to stop is a suspend request and never SIGKILL, also
   when its child is a loader, which has no virtual machine to suspend.
   */
  lemma TimeoutSendsNoKill(w: World, u: VmId, o: Outcome)
    requires Readable(w, u) && OwnsChild(w, u) && Stopping(w.vms[u].state)
    ensures var p := w.vms[u].pid;
      OnTimer(w, u, o) == w.(children := w.children[p := w.children[p].(suspended := true)])
  {
  }

  /** A machine that is being stopped for one purpose may be re-purposed. */
  lemma SetStateEscalates(w: World, u: VmId, s: State)
    requires Escalates(w) && u in w.vms && Stopping(w.vms[u].state)
    ensures Escalates(SetState(w, u, s))
  {
    var w' := SetState(w, u, s);
    assert EscOf(w, u);
    forall v | v in w'.vms ensures EscOf(w', v) {
      assert EscOf(w, v);
    }
  }

  lemma KillEscalates(w: World, u: VmId)
    requires Escalates(w) && u in w.vms && OwnsChild(w, u)
    ensures Escalates(SetState(Kill(w, u), u, STOP))
  {
    SignalOthers(w, u);
    var w' := SetState(Kill(w, u), u, STOP);
    assert OthersKeep(w, w', u);
    EscStep(w, w', u);
  }

  lemma DownEscalates(w: World, name: string, allowed: bool, how: int, timerOk: bool)
    requires Local(w, {}, multiset{}) && Escalates(w) && (how == 0 ==> timerOk)
    ensures Escalates(DownCommand(w, name, allowed, how, timerOk).0)
  {
    var r := Lookup(w, w.vmList, name);
    if r.Some? && allowed && w.vms[r.value].state in {LOAD, RUN} {
      assert HasChild(w, r.value, {}) && OwnsChild(w, r.value);
      if how == 0 {
        AskToStopEscalates(w, r.value, w.confs[w.vms[r.value].conf].stopTimeout, STOP);
      } else if how == 2 {
        KillEscalates(w, r.value);
      }
    }
  }

  // ---------------------------------------------------------------- reload

  lemma LivingOwns(w: World, u: VmId)
    requires HealthOf(w) == Well && u in w.vms && w.vms[u].state != TERMINATE
    ensures OwnsChild(w, u)
  {
    assert HasChild(w, u, {});
  }

  lemma CreateEscalates(w: World, c: ConfId)
    requires Escalates(w)
    ensures Escalates(SetNewConf(CreateEntry(w, c), w.nextVm, c))
  {
    var w' := SetNewConf(CreateEntry(w, c), w.nextVm, c);
    forall v | v in w'.vms ensures EscOf(w', v) {
      if v != w.nextVm { assert EscOf(w, v); }
    }
  }

  lemma AddTimerEscalates(w: World, u: VmId, secs: int, ok: bool)
    requires Escalates(w)
    ensures Escalates(AddTimer(w, u, secs, ok))
  {
    AddTimerOthers(w, u, secs, ok);
    if u in w.vms { assert EscOf(w, u); }
    EscStep(w, AddTimer(w, u, secs, ok), u);
  }

  lemma AddEntryEscalates(w: World, c: ConfId, o: Outcome)
    requires Escalates(w) && c in w.confs && Fresh(w, o)
    ensures Escalates(AddEntry(w, c, o))
  {
    CreateEscalates(w, c);
    var w1 := SetNewConf(CreateEntry(w, c), w.nextVm, c);
    if w.confs[c].bootDelay > 0 {
      AddTimerEscalates(w1, w.nextVm, w.confs[c].bootDelay, o.timerOk);
    } else {
      StartEscalates(w1, w.nextVm, o);
    }
  }

  lemma RebootEscalates(w: World, u: VmId, conf: Conf)
    requires Escalates(w) && u in w.vms && HealthOf(w) == Well
    ensures Escalates(RebootEntry(w, u, conf, true))
  {
    match w.vms[u].state
    case TERMINATE => AddTimerEscalates(w, u, Max(conf.bootDelay, 1), true);
    case STOP => SetStateEscalates(w, u, RESTART);
    case REMOVE =>
    case RESTART =>
    case _ =>
      LivingOwns(w, u);
      AskToStopEscalates(w, u, conf.stopTimeout, RESTART);
  }

  lemma FollowEscalates(w: World, u: VmId, c: ConfId, o: Outcome)
    requires Escalates(w) && u in w.vms && c in w.confs && HealthOf(w) == Well && Fresh(w, o) && o.timerOk
    ensures Escalates(FollowBoot(w, u, c, o))
  {
    var s := w.vms[u].state;
    if w.confs[c].boot == NO {
      if s == LOAD || s == RUN {
        LivingOwns(w, u);
        AskToStopEscalates(w, u, w.confs[c].stopTimeout, STOP);
      } else if s == RESTART {
        SetStateEscalates(w, u, STOP);
      }
    } else if w.confs[c].boot != ONESHOT {
      if s == TERMINATE {
        var w1 := SetVm(w, u, w.vms[u].(conf := c));
        EscFrame(w, w1);
        StartEscalates(w1, u, o);
      } else if s == STOP {
        SetStateEscalates(w, u, RESTART);
      }
    }
  }

  lemma MatchOneEscalates(w: World, c: ConfId, differs: bool, o: Outcome)
    requires Escalates(w) && c in w.confs && HealthOf(w) == Well && Fresh(w, o) && o.timerOk
    ensures Escalates(MatchOne(w, c, differs, o))
  {
    var conf := w.confs[c];
    var found := Lookup(w, w.vmList, conf.name);
    if found.None? {
      AddEntryEscalates(w, c, o);
    } else {
      var u := found.value;
      var w1 := SetNewConf(w, u, c);
      PointersLocal(w, u, w.vms[u].(newConf := Some(c)));
      EscFrame(w, w1);
      RebootEscalates(w1, u, conf);
      FollowEscalates(w1, u, c, o);
    }
  }

  ghost predicate TimersRegister(loaded: seq<Loaded>) {
    forall i :: 0 <= i < |loaded| ==> loaded[i].o.timerOk
  }

  lemma {:induction false} MatchAllEscalates(w: World, cs: seq<ConfId>, loaded: seq<Loaded>)
    requires |cs| == |loaded| && (forall c :: c in cs ==> c in w.confs) && TimersRegister(loaded)
    requires Escalates(w) && HealthOf(w) == Well && MatchesFresh(w, cs, loaded) && MatchesClean(w, cs, loaded)
    ensures Escalates(MatchAll(w, cs, loaded))
  {
    if cs != [] {
      var n := |cs| - 1;
      assert cs[n] in cs && forall c :: c in cs[..n] ==> c in cs;
      MatchAllEscalates(w, cs[..n], loaded[..n]);
      MatchAllLocal(w, cs[..n], loaded[..n]);
      MatchOneEscalates(MatchAll(w, cs[..n], loaded[..n]), cs[n], loaded[n].differs, loaded[n].o);
    }
  }

  lemma UnlinkEscalates(w: World, c: ConfId)
    requires Escalates(w)
    ensures Escalates(UnlinkConf(w, c))
  {
    EscFrame(w, UnlinkConf(w, c));
  }

  lemma SettleOneEscalates(w: World, u: VmId)
    requires Escalates(w) && u in w.vms && HealthOf(w) == Well
    ensures Escalates(SettleOne(w, u, true))
  {
    var vm := w.vms[u];
    if vm.newConf.Some? {
      EscFrame(w, SettleOne(w, u, true));
    } else if vm.state == TERMINATE {
      UnlinkEscalates(w, vm.conf);
      DeleteOthers(UnlinkConf(w, vm.conf), u);
      EscStep(UnlinkConf(w, vm.conf), SettleOne(w, u, true), u);
    } else if vm.state in {LOAD, RUN} {
      LivingOwns(w, u);
      AskToStopEscalates(w, u, StopTimeout(w, u), REMOVE);
      UnlinkEscalates(AskToStop(w, u, StopTimeout(w, u), true, REMOVE), vm.conf);
    } else {
      SetStateEscalates(w, u, REMOVE);
      UnlinkEscalates(SetState(w, u, REMOVE), vm.conf);
    }
  }

  lemma {:induction false} SettleAllEscalates(w: World, vs: seq<VmId>)
    requires Escalates(w) && HealthOf(w) == Well
    ensures Escalates(SettleAll(w, vs, {})) && HealthOf(SettleAll(w, vs, {})) == Well
  {
    if vs != [] {
      var n := |vs| - 1;
      SettleAllEscalates(w, vs[..n]);
      var w1 := SettleAll(w, vs[..n], {});
      if vs[n] in w1.vms {
        SettleOneEscalates(w1, vs[n]);
        SettleOneLocal(w1, vs[n], true);
      }
    }
  }

  lemma {:induction false} FreeAllSame(w: World, cs: seq<ConfId>)
    ensures FreeAll(w, cs).events == w.events && FreeAll(w, cs).children == w.children
    ensures FreeAll(w, cs).vms == w.vms
  {
    if cs != [] { FreeAllSame(w, cs[..|cs| - 1]); }
  }

  lemma ReconcileEscalates(b: World, ids: seq<ConfId>, loaded: seq<Loaded>)
    requires |ids| == |loaded| && (forall c :: c in ids ==> c in b.confs) && TimersRegister(loaded)
    requires Escalates(b) && HealthOf(b) == Well && MatchesFresh(b, ids, loaded) && MatchesClean(b, ids, loaded)
    ensures Escalates(Reconcile(b, ids, loaded, {}))
  {
    MatchAllEscalates(b, ids, loaded);
    MatchAllLocal(b, ids, loaded);
    var w1 := MatchAll(b, ids, loaded);
    SettleAllEscalates(w1, w1.vmList);
    var w2 := SettleAll(w1, w1.vmList, {});
    FreeAllSame(w2, w2.confList);
    EscFrame(w2, Reconcile(b, ids, loaded, {}));
  }

  lemma BeginEscalates(w: World, loaded: seq<Loaded>)
    requires Escalates(w)
    ensures Escalates(Begin(w, loaded))
  {
    EscFrame(w, Begin(w, loaded));
  }

  // ---------------------------------------------------------------- runs

  /** The stop timers of the step can be registered. */
  ghost predicate ArmsTimers(s: Step) {
    match s
    case Down(_, _, how, timerOk) => how == 0 ==> timerOk
    case Reloads(sections, noTimer) => TimersRegister(sections) && noTimer == {}
    case _ => true
  }

  lemma StepEscalates(w: World, s: Step)
    requires Inv(w) && Enabled(w, s) && Clean(w, s) && ArmsTimers(s) && Escalates(w)
    ensures Escalates(Next(w, s))
  {
    match s
    case ChildExits(v, p, status, o) => ExitEscalates(w, v, p, status, o);
    case TimerFires(e, o) => TimerEscalates(w, e, o);
    case Boot(name, allowed, install, loaded, differs, o) =>
      BootStepEscalates(w, name, allowed, install, loaded, differs, o);
    case Down(name, allowed, how, timerOk) => DownEscalates(w, name, allowed, how, timerOk);
    case Reloads(sections, noTimer) => ReloadEscalates(w, sections);
  }

  lemma BootStepEscalates(w: World, name: string, allowed: bool, install: bool, loaded: Option<Conf>, differs: bool,
                          o: Outcome)
    requires Inv(w) && Enabled(w, Boot(name, allowed, install, loaded, differs, o)) && Escalates(w)
    ensures Escalates(BootCommand(w, name, allowed, install, loaded, differs, o).0)
  {
    if BootStarts(w, name, allowed, loaded) {
      BootEscalates(w, Lookup(w, w.vmList, name).value, loaded.value, differs, install, o);
    }
  }

  lemma ReloadEscalates(w: World, sections: seq<Loaded>)
    requires Inv(w) && ReloadFresh(w, sections) && ReloadClean(w, sections) && TimersRegister(sections) && Escalates(w)
    ensures Escalates(ReloadAll(w, sections, {}))
  {
    BeginLocal(w, sections);
    BeginEscalates(w, sections);
    ReconcileEscalates(Begin(w, sections), Ids(w.nextConf, |sections|), sections);
  }

  /** Along every clean run whose stop timers can be registered, stopping always escalates. */
  lemma {:induction false} RunEscalates(ws: seq<World>, ss: seq<Step>, n: nat)
    requires Run(ws, ss) && CleanRun(ws, ss) && Inv(ws[0]) && Escalates(ws[0]) && n < |ws|
    requires forall i :: 0 <= i < |ss| ==> ArmsTimers(ss[i])
    ensures Escalates(ws[n])
  {
    if n > 0 {
      RunEscalates(ws, ss, n - 1);
      NextEscalates(ws, ss, n - 1);
    }
  }

  lemma NextEscalates(ws: seq<World>, ss: seq<Step>, i: nat)
    requires Run(ws, ss) && CleanRun(ws, ss) && Inv(ws[0]) && i < |ss| && ArmsTimers(ss[i]) && Escalates(ws[i])
    ensures Escalates(ws[i + 1])
  {
    RunSafe(ws, ss, i);
    var w, s := ws[i], ss[i];
    assert Enabled(w, s) && Clean(w, s) && ws[i + 1] == Next(w, s);
    StepEscalates(w, s);
  }

  // ---------------------------------------------------------------- from start-up on

  lemma NewEntryEscalates(w: World, c: ConfId)
    requires Escalates(w)
    ensures Escalates(CreateEntry(w, c))
  {
    var w' := CreateEntry(w, c);
    forall v | v in w'.vms ensures EscOf(w', v) {
      if v != w.nextVm { assert EscOf(w, v); }
    }
  }

  lemma BootOneEscalates(w: World, c: ConfId, o: Outcome)
    requires Escalates(w) && c in w.confs && Fresh(w, o)
    ensures Escalates(BootOne(w, c, o))
  {
    NewEntryEscalates(w, c);
    var w1 := CreateEntry(w, c);
    if w.confs[c].boot != NO && w.confs[c].bootDelay > 0 {
      AddTimerEscalates(w1, w.nextVm, w.confs[c].bootDelay, o.timerOk);
    } else if w.confs[c].boot != NO {
      StartEscalates(w1, w.nextVm, o);
    }
  }

  lemma {:induction false} BootAllEscalates(w: World, cs: seq<ConfId>, os: seq<Outcome>)
    requires |cs| == |os| && (forall c :: c in cs ==> c in w.confs)
    requires w.vms == map[] && BootsFresh(w, cs, os)
    ensures Escalates(BootAll(w, cs, os))
    decreases |cs|
  {
    if cs != [] {
      var n := |cs| - 1;
      assert cs[n] in cs && forall c :: c in cs[..n] ==> c in cs;
      BootAllEscalates(w, cs[..n], os[..n]);
      BootOneEscalates(BootAll(w, cs[..n], os[..n]), cs[n], os[n]);
    }
  }

  /** From start-up on, along every clean run whose stop timers can be registered, stopping always escalates. */
  lemma EveryRunEscalates(w: World, os: seq<Outcome>, ws: seq<World>, ss: seq<Step>)
    requires Fresh0(w) && |os| == |w.confList| && NamesDiffer(w.confs, w.confList)
    requires BootsFresh(w, w.confList, os) && BootsClean(w, w.confList, os)
    requires Run(ws, ss) && ws[0] == BootAll(w, w.confList, os) && CleanRun(ws, ss)
    requires forall i :: 0 <= i < |ss| ==> ArmsTimers(ss[i])
    ensures forall n :: 0 <= n < |ws| ==> Escalates(ws[n])
  {
    StartUpKeeps(w, os);
    BootAllEscalates(w, w.confList, os);
    forall n | 0 <= n < |ws| ensures Escalates(ws[n]) {
      RunEscalates(ws, ss, n);
    }
  }
}
