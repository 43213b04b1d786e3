/**
 Where the children come from, along runs: a guest that has to be loaded follows a loader that
 succeeded, a loader that is timed is killed, and an installation runs its guest once.
 */
module Origins {
  import opened Options
  import opened DaemonState
  import opened Resources
  import opened Lifecycle
  import opened Handlers
  import opened Reload
  import opened ReloadProof
  import opened ReloadTheorems
  import opened Steps
  import opened NoRestart
  import opened Answers
  import opened ReloadAnswers

  // ------------------------------------------------------------- steps of other machines

  /** The machine is as it was, except that a child that is not its own any more may be gone. */
  ghost predicate Apart(w: World, w': World, v: VmId) {
    && v in w.vms && v in w'.vms && w'.vms[v] == w.vms[v]
    && ChildFrom(w, w', v) && EventsGain(w, w', v, None, None)
  }

  lemma ApartTrans(w: World, w1: World, w2: World, v: VmId)
    requires Apart(w, w1, v) && Apart(w1, w2, v)
    ensures Apart(w, w2, v)
  {
    GainTrans(w, w1, w2, v, None, None);
  }

  lemma UnmovedApart(w: World, w': World, v: VmId)
    requires Unmoved(w, w', v)
    ensures Apart(w, w', v)
  {
  }

  lemma ReapApart(w: World, u: VmId, v: VmId)
    requires u in w.vms && v in w.vms && u != v
    ensures Apart(w, Reap(w, u), v)
  {
  }

  lemma StopUnmoved(w: World, u: VmId, sockOk: bool, v: VmId)
    requires u in w.vms && v in w.vms && u != v
    ensures Unmoved(w, Stop(w, u, sockOk), v)
  {
    StopFrame(w, u, sockOk);
    StopAnswers(w, u, sockOk);
    assert Stop(w, u, sockOk).children == w.children;
  }

  lemma ReleaseApart(w: World, e: Event, v: VmId)
    requires v in w.vms && e.vm != v
    ensures Apart(w, Release(w, e), v)
  {
    if e in w.events {
      OthersStay(w.events, e, v);
      EventsApart(w, w.(events := RemoveOldest(w.events, e)), v);
    } else {
      EventsApart(w, w.(faults := w.faults + {EventReleasedTwice}), v);
    }
  }

  lemma EventsApart(w: World, w': World, v: VmId)
    requires v in w.vms && w'.vms == w.vms && w'.children == w.children && w'.lastTimer == w.lastTimer
    requires forall x: Event :: x.vm == v ==> multiset(w'.events)[x] == multiset(w.events)[x]
    ensures Apart(w, w', v)
  {
  }

  lemma OthersStay(s: seq<Event>, e: Event, v: VmId)
    requires e in s && e.vm != v
    ensures forall x: Event :: x.vm == v ==> multiset(RemoveOldest(s, e))[x] == multiset(s)[x]
  {
  }

  lemma FinishUnmoved(w: World, u: VmId, sockOk: bool, v: VmId)
    requires u in w.vms && w.vms[u].conf in w.confs && v in w.vms && u != v
    ensures Unmoved(w, Finish(w, u, sockOk), v)
  {
    StopUnmoved(w, u, sockOk, v);
    QuietStill(Stop(w, u, sockOk), Finish(w, u, sockOk), v);
    UnmovedTrans(w, Stop(w, u, sockOk), Finish(w, u, sockOk), v);
  }

  lemma RestartUnmoved(w: World, u: VmId, sockOk: bool, secs: int, timerOk: bool, v: VmId)
    requires u in w.vms && v in w.vms && u != v
    ensures Unmoved(w, AddTimer(Stop(w, u, sockOk), u, secs, timerOk), v)
  {
    StopUnmoved(w, u, sockOk, v);
    AddTimerStill(Stop(w, u, sockOk), u, secs, timerOk, v);
    UnmovedTrans(w, Stop(w, u, sockOk), AddTimer(Stop(w, u, sockOk), u, secs, timerOk), v);
  }

  lemma RemoveUnmoved(w: World, u: VmId, sockOk: bool, v: VmId)
    requires u in w.vms && v in w.vms && u != v
    ensures Unmoved(w, DeleteEntry(Stop(w, u, sockOk), u), v)
  {
    StopUnmoved(w, u, sockOk, v);
    DeleteStill(Stop(w, u, sockOk), u, v);
    UnmovedTrans(w, Stop(w, u, sockOk), DeleteEntry(Stop(w, u, sockOk), u), v);
  }

  lemma ExitUnmoved(w: World, u: VmId, status: Status, o: Outcome, v: VmId)
    requires u in w.vms && w.vms[u].conf in w.confs && v in w.vms && u != v && Fresh(Reap(w, u), o)
    ensures Unmoved(Reap(w, u), OnVmExit(w, u, status, o), v)
  {
    var w0 := Reap(w, u);
    match w.vms[u].state
    case TERMINATE => QuietStill(w0, w0, v);
    case LOAD => OtherStarts(w0, u, status == Exited(0), o, v);
    case RUN =>
      if ShouldRestart(w.confs[w.vms[u].conf], status) {
        StartStill(w0, u, o, v);
      } else {
        FinishUnmoved(w0, u, o.sockOk, v);
      }
    case STOP => FinishUnmoved(w0, u, o.sockOk, v);
    case RESTART => RestartUnmoved(w0, u, o.sockOk, Max(w.confs[w.vms[u].conf].bootDelay, 3), o.timerOk, v);
    case REMOVE => RemoveUnmoved(w0, u, o.sockOk, v);
  }

  lemma OtherStarts(w0: World, u: VmId, again: bool, o: Outcome, v: VmId)
    requires u in w0.vms && w0.vms[u].conf in w0.confs && v in w0.vms && u != v && Fresh(w0, o)
    ensures Unmoved(w0, if again then Start(w0, u, o).0 else Stop(w0, u, o.sockOk), v)
  {
    if again { StartStill(w0, u, o, v); } else { StopUnmoved(w0, u, o.sockOk, v); }
  }

  /** The step is about the machine. */
  ghost predicate About(w: World, s: Step, v: VmId) {
    match s
    case ChildExits(u, _, _, _) => u == v
    case TimerFires(e, _) => e.vm == v
    case Boot(name, _, _, _, _, _) => Lookup(w, w.vmList, name) == Some(v)
    case Down(name, _, _, _) => Lookup(w, w.vmList, name) == Some(v)
    case Reloads(_, _) => true
  }

  lemma ExitApart(w: World, u: VmId, p: Pid, status: Status, o: Outcome, v: VmId)
    requires Enabled(w, ChildExits(u, p, status, o)) && v in w.vms && u != v
    ensures Apart(w, Next(w, ChildExits(u, p, status, o)), v)
  {
    var w0, w1 := Reap(w, u), OnVmExit(w, u, status, o);
    ReapApart(w, u, v);
    ExitUnmoved(w, u, status, o, v);
    UnmovedApart(w0, w1, v);
    ApartTrans(w, w0, w1, v);
    ReleaseApart(w1, Exit(u, p), v);
    ApartTrans(w, w1, Release(w1, Exit(u, p)), v);
  }

  lemma KillApart(w: World, u: VmId, v: VmId)
    requires u in w.vms && v in w.vms && u != v
    ensures Apart(w, Kill(w, u), v)
  {
  }

  lemma TimerApart(w: World, e: Event, o: Outcome, v: VmId)
    requires Enabled(w, TimerFires(e, o)) && v in w.vms && e.vm != v
    ensures Apart(w, Next(w, TimerFires(e, o)), v)
  {
    var w1 := OnTimer(w, e.vm, o);
    OnTimerApart(w, e.vm, o, v);
    ReleaseApart(w1, e, v);
    ApartTrans(w, w1, Release(w1, e), v);
  }

  lemma OnTimerApart(w: World, u: VmId, o: Outcome, v: VmId)
    requires u in w.vms && w.vms[u].conf in w.confs && Fresh(w, o) && v in w.vms && u != v
    ensures Apart(w, OnTimer(w, u, o), v)
  {
    if w.vms[u].state == TERMINATE {
      StartStill(w, u, o, v);
    } else if w.vms[u].state == RUN {
      QuietStill(w, w, v);
    } else {
      KillApart(w, u, v);
    }
  }

  lemma BootApart(w: World, name: string, allowed: bool, install: bool, loaded: Option<Conf>, differs: bool, o: Outcome,
                  v: VmId)
    requires Enabled(w, Boot(name, allowed, install, loaded, differs, o)) && v in w.vms
    requires Lookup(w, w.vmList, name) != Some(v)
    ensures Apart(w, BootCommand(w, name, allowed, install, loaded, differs, o).0, v)
  {
    var r := Lookup(w, w.vmList, name);
    QuietStill(w, w, v);
    if r.Some? && allowed && w.vms[r.value].state == TERMINATE && loaded.Some? {
      BootUnmoved(w, r.value, loaded.value, differs, install, o, v);
    }
  }

  lemma BootUnmoved(w: World, u: VmId, conf: Conf, differs: bool, install: bool, o: Outcome, v: VmId)
    requires u in w.vms && w.vms[u].conf in w.confs && w.nextConf !in w.confs && Fresh(w, o) && v in w.vms && u != v
    ensures Unmoved(w, Start(PrepareBoot(w, u, conf, differs, install), u, o).0, v)
  {
    var w1 := PrepareBoot(w, u, conf, differs, install);
    QuietStill(w, w1, v);
    StartStill(w1, u, o, v);
    UnmovedTrans(w, w1, Start(w1, u, o).0, v);
  }

  lemma DownApart(w: World, name: string, allowed: bool, how: int, timerOk: bool, v: VmId)
    requires v in w.vms && Lookup(w, w.vmList, name) != Some(v)
    ensures Apart(w, DownCommand(w, name, allowed, how, timerOk).0, v)
  {
    var r := Lookup(w, w.vmList, name);
    QuietStill(w, w, v);
    if r.Some? && allowed && w.vms[r.value].state in {LOAD, RUN} {
      var u := r.value;
      if how == 0 {
        AskStill(w, u, w.confs[w.vms[u].conf].stopTimeout, timerOk, STOP, v);
      } else if how == 2 {
        KillApart(w, u, v);
        QuietStill(Kill(w, u), SetState(Kill(w, u), u, STOP), v);
        UnmovedApart(Kill(w, u), SetState(Kill(w, u), u, STOP), v);
        ApartTrans(w, Kill(w, u), SetState(Kill(w, u), u, STOP), v);
      }
    }
  }

  /** A step that is not about a machine leaves it alone. */
  lemma OtherStep(w: World, s: Step, v: VmId)
    requires Enabled(w, s) && v in w.vms && !About(w, s, v)
    ensures Apart(w, Next(w, s), v)
  {
    match s
    case ChildExits(u, p, status, o) => ExitApart(w, u, p, status, o, v);
    case TimerFires(e, o) => TimerApart(w, e, o, v);
    case Boot(name, allowed, install, loaded, differs, o) =>
      BootApart(w, name, allowed, install, loaded, differs, o, v);
    case Down(name, allowed, how, timerOk) => DownApart(w, name, allowed, how, timerOk, v);
  }

  // ------------------------------------------------------------- where a child comes from

  /** The configuration that a step may start the machine with. */
  ghost predicate Uses(w: World, s: Step, v: VmId, conf: Conf) {
    match s
    case ChildExits(u, _, _, _) => u == v && Readable(w, v) && conf == w.confs[w.vms[v].conf]
    case TimerFires(e, _) => e.vm == v && Readable(w, v) && conf == w.confs[w.vms[v].conf]
    case Boot(name, _, install, loaded, differs, _) =>
      && HasName(w, v, name) && loaded.Some?
      && conf == BootConf(w.confs[w.vms[v].conf], loaded.value, differs, install)
    case Down(_, _, _, _) => false
    case Reloads(sections, _) => exists i :: 0 <= i < |sections| && sections[i].conf == conf
  }

  /** The step is the exit of a loader that succeeded. */
  ghost predicate LoaderDone(w: World, s: Step, v: VmId) {
    s.ChildExits? && s.v == v && s.status == Exited(0) && v in w.vms && w.vms[v].state == LOAD
  }

  /**
   A child that the step has forked: a loader, in the state LOAD, for a configuration that loads with
   bhyveload or grub, and the guest, in the state RUN, after its loader or for uefi or csm.
   */
  ghost predicate ForkedBy(w: World, s: Step, v: VmId, conf: Conf, w': World)
    requires v in w'.vms && OwnsChild(w', v)
  {
    && Uses(w, s, v, conf)
    && if w'.children[w'.vms[v].pid].loader then
         w'.vms[v].state == LOAD && conf.loader in {BhyveLoad, Grub} && !LoaderDone(w, s, v)
       else w'.vms[v].state == RUN && (LoaderDone(w, s, v) || conf.loader in {Uefi, Csm})
  }

  ghost predicate Origin(w: World, s: Step, v: VmId, w': World) {
    v in w'.vms && OwnsChild(w', v) ==>
      (!ExitOf(s, v) && ChildFrom(w, w', v)) || exists conf :: ForkedBy(w, s, v, conf, w')
  }

  /** From one start. */
  lemma StartedOrigin(w: World, v: VmId, o: Outcome, w': World)
    requires v in w.vms && w.vms[v].conf in w.confs && Started(w, v, o, w')
    requires o.spawn.Some? ==> o.spawn.value !in w.children
    ensures v in w'.vms
    ensures OwnsChild(w', v) ==>
      ChildFrom(w, w', v) ||
      var loads := LoadsFirst(w, v);
      && w'.children[w'.vms[v].pid] == Child(v, loads, false, false, false)
      && w'.vms[v].state == (if loads then LOAD else RUN)
      && (loads || w.vms[v].state == LOAD || w.confs[w.vms[v].conf].loader in {Uefi, Csm})
  {
  }

  lemma ExitChild(w: World, v: VmId, status: Status, o: Outcome)
    requires v in w.vms && w.vms[v].conf in w.confs && Fresh(Reap(w, v), o)
    ensures var vm, conf, w1 := w.vms[v], w.confs[w.vms[v].conf], OnVmExit(w, v, status, o);
      v in w1.vms && OwnsChild(w1, v) ==>
        var loads := vm.state != LOAD && conf.loader in {BhyveLoad, Grub};
        && w1.children[w1.vms[v].pid] == Child(v, loads, false, false, false)
        && w1.vms[v].state == (if loads then LOAD else RUN)
        && ((vm.state == RUN && !conf.install) || (vm.state == LOAD && status == Exited(0)))
        && (loads || vm.state == LOAD || conf.loader in {Uefi, Csm})
  {
    var w0, w1 := w.(children := w.children - {w.vms[v].pid}), OnVmExit(w, v, status, o);
    ExitAnswers(w, v, status, o);
    if v in w1.vms && OwnsChild(w1, v) {
      ExitStarted(w, v, status, o, w0, w1);
      StartedOrigin(w0, v, o, w1);
    }
  }

  lemma ExitStarted(w: World, v: VmId, status: Status, o: Outcome, w0: World, w1: World)
    requires v in w.vms && w.vms[v].conf in w.confs && Fresh(Reap(w, v), o)
    requires w0 == w.(children := w.children - {w.vms[v].pid}) && w1 == OnVmExit(w, v, status, o)
    requires v in w1.vms && OwnsChild(w1, v)
    ensures Started(w0, v, o, w1)
    ensures || (w.vms[v].state == RUN && !w.confs[w.vms[v].conf].install)
            || (w.vms[v].state == LOAD && status == Exited(0))
  {
    ExitAnswers(w, v, status, o);
  }

  lemma ExitOrigin(w: World, v: VmId, p: Pid, status: Status, o: Outcome)
    requires Enabled(w, ChildExits(v, p, status, o))
    ensures Origin(w, ChildExits(v, p, status, o), v, Next(w, ChildExits(v, p, status, o)))
  {
    var s, w1 := ChildExits(v, p, status, o), OnVmExit(w, v, status, o);
    var w' := Next(w, s);
    assert w'.vms == w1.vms && w'.children == w1.children;
    if v in w'.vms && OwnsChild(w', v) {
      ExitChild(w, v, status, o);
      assert ForkedBy(w, s, v, w.confs[w.vms[v].conf], w');
    }
  }

  lemma TimerOrigin(w: World, e: Event, o: Outcome)
    requires Enabled(w, TimerFires(e, o))
    ensures Origin(w, TimerFires(e, o), e.vm, Next(w, TimerFires(e, o)))
  {
    var v, s, w1 := e.vm, TimerFires(e, o), OnTimer(w, e.vm, o);
    var w' := Next(w, s);
    TimerAnswers(w, v, o);
    assert w'.vms == w1.vms && w'.children == w1.children;
    if w.vms[v].state == TERMINATE {
      StartedOrigin(w, v, o, w1);
      if OwnsChild(w', v) && !ChildFrom(w, w', v) { assert ForkedBy(w, s, v, w.confs[w.vms[v].conf], w'); }
    }
  }

  lemma BootOrigin(w: World, name: string, allowed: bool, install: bool, loaded: Option<Conf>, differs: bool,
                   o: Outcome, v: VmId)
    requires Enabled(w, Boot(name, allowed, install, loaded, differs, o)) && Lookup(w, w.vmList, name) == Some(v)
    ensures var s := Boot(name, allowed, install, loaded, differs, o); Origin(w, s, v, Next(w, s))
  {
    var s := Boot(name, allowed, install, loaded, differs, o);
    var w' := Next(w, s);
    BootAnswers(w, name, allowed, install, loaded, differs, o);
    if allowed && w.vms[v].state == TERMINATE && loaded.Some? {
      var w1 := PrepareBoot(w, v, loaded.value, differs, install);
      BootReadied(w, v, loaded.value, differs, install);
      BootForked(w, s, v, w1, w');
    }
  }

  lemma BootForked(w: World, s: Step, v: VmId, w1: World, w': World)
    requires Enabled(w, s) && s.Boot? && s.loaded.Some? && Lookup(w, w.vmList, s.name) == Some(v)
    requires w.vms[v].state == TERMINATE && BootReady(w, v, s.loaded.value, s.differs, s.install, w1)
    requires Started(w1, v, s.o, w')
    ensures Origin(w, s, v, w')
  {
    StartedOrigin(w1, v, s.o, w');
    if OwnsChild(w', v) && !ChildFrom(w1, w', v) {
      assert ForkedBy(w, s, v, w1.confs[w1.vms[v].conf], w');
    }
  }

  lemma DownOrigin(w: World, name: string, allowed: bool, how: int, timerOk: bool, v: VmId)
    requires Lookup(w, w.vmList, name) == Some(v)
    ensures var w' := DownCommand(w, name, allowed, how, timerOk).0; v in w'.vms && ChildFrom(w, w', v)
  {
    DownAnswers(w, name, allowed, how, timerOk);
    if !OwnsChild(w, v) { NoOwnChild(w, name, allowed, how, timerOk, v); }
  }

  lemma NoOwnChild(w: World, name: string, allowed: bool, how: int, timerOk: bool, v: VmId)
    requires Lookup(w, w.vmList, name) == Some(v) && !OwnsChild(w, v)
    ensures var w' := DownCommand(w, name, allowed, how, timerOk).0; v in w'.vms && !OwnsChild(w', v)
  {
  }

  /** A reload is looked at in a state that is in order, and with a file that names no machine twice. */
  ghost predicate Orderly(w: World, s: Step) {
    s.Reloads? ==> Inv(w) && DistinctSections(s.sections)
  }

  lemma InvKnown(w: World)
    requires Inv(w)
    ensures Listed(w) && Owned(w) && Known(w)
  {
  }

  lemma HereOrigin(w: World, sections: seq<Loaded>, noTimer: set<VmId>, v: VmId, i: nat, bare: bool, w': World)
    requires i < |sections| && StartedHere(w, v, bare, sections[i].conf, sections[i].o, w')
    ensures Origin(w, Reloads(sections, noTimer), v, w')
  {
    if OwnsChild(w', v) && !ChildFrom(w, w', v) {
      assert ForkedBy(w, Reloads(sections, noTimer), v, sections[i].conf, w');
    }
  }

  lemma ReloadOrigin(w: World, sections: seq<Loaded>, noTimer: set<VmId>, v: VmId)
    requires Enabled(w, Reloads(sections, noTimer)) && Orderly(w, Reloads(sections, noTimer))
    ensures Origin(w, Reloads(sections, noTimer), v, ReloadAll(w, sections, noTimer))
  {
    var w' := ReloadAll(w, sections, noTimer);
    InvKnown(w);
    if v in w'.vms {
      if v !in w.vms {
        var i := ReloadNewborn(w, sections, noTimer, v);
        var conf := sections[i].conf;
        if conf.boot != NO && conf.bootDelay <= 0 { HereOrigin(w, sections, noTimer, v, i, true, w'); }
      } else if i :| 0 <= i < |sections| && sections[i].conf.name == VmName(w, v) {
        ReloadAnswer(w, sections, noTimer, v, VmName(w, v), i);
        AnsweredOrigin(w, sections, noTimer, v, i, w');
      } else {
        ReloadDismisses(w, sections, noTimer, v);
      }
    }
  }

  lemma AnsweredOrigin(w: World, sections: seq<Loaded>, noTimer: set<VmId>, v: VmId, i: nat, w': World)
    requires i < |sections| && v in w.vms && w.vms[v].conf in w.confs
    requires Answered(w, v, sections[i].conf, sections[i].differs, sections[i].o, w')
    ensures Origin(w, Reloads(sections, noTimer), v, w')
  {
    if w'.vms[v].pid != w.vms[v].pid || (!SameChild(w, w', v, false) && !SameChild(w, w', v, true)) {
      HereOrigin(w, sections, noTimer, v, i, w.vms[v].taps == [], w');
    }
  }

  /** Every step: a child was there before, or the step has forked it as its configuration asks. */
  lemma StepOrigin(w: World, s: Step, v: VmId)
    requires Enabled(w, s) && Orderly(w, s)
    ensures Origin(w, s, v, Next(w, s))
  {
    if s.Reloads? {
      ReloadOrigin(w, s.sections, s.noTimer, v);
    } else if About(w, s, v) {
      match s
      case ChildExits(_, p, status, o) => ExitOrigin(w, v, p, status, o);
      case TimerFires(e, o) => TimerOrigin(w, e, o);
      case Boot(name, allowed, install, loaded, differs, o) =>
        BootOrigin(w, name, allowed, install, loaded, differs, o, v);
      case Down(name, allowed, how, timerOk) => DownOrigin(w, name, allowed, how, timerOk, v);
    } else if v in w.vms {
      OtherStep(w, s, v);
    } else {
      NobodyElse(w, s, v);
    }
  }

  /** Only a reload makes entries. */
  lemma NobodyElse(w: World, s: Step, v: VmId)
    requires Enabled(w, s) && !s.Reloads? && v !in w.vms
    ensures v !in Next(w, s).vms
  {
    match s
    case ChildExits(u, _, status, o) => ExitEntries(w, u, status, o);
    case TimerFires(e, o) => TimerEntries(w, e.vm, o);
    case Boot(name, allowed, install, loaded, differs, o) =>
      BootEntries(w, name, allowed, install, loaded, differs, o);
    case Down(_, _, _, _) =>
  }

  lemma ExitEntries(w: World, u: VmId, status: Status, o: Outcome)
    requires u in w.vms && w.vms[u].conf in w.confs
    ensures OnVmExit(w, u, status, o).vms.Keys <= w.vms.Keys
  {
    var w0 := Reap(w, u);
    if Restarts(w, u, status) {
      StartFrame(w0, u, o);
    } else {
      StopEntries(w0, u, o.sockOk);
    }
  }

  lemma StopEntries(w: World, u: VmId, sockOk: bool)
    requires u in w.vms && w.vms[u].conf in w.confs
    ensures Stop(w, u, sockOk).vms.Keys == w.vms.Keys && Finish(w, u, sockOk).vms.Keys == w.vms.Keys
    ensures DeleteEntry(Stop(w, u, sockOk), u).vms.Keys <= w.vms.Keys
  {
    StopFrame(w, u, sockOk);
  }

  lemma TimerEntries(w: World, u: VmId, o: Outcome)
    requires u in w.vms && w.vms[u].conf in w.confs
    ensures OnTimer(w, u, o).vms.Keys == w.vms.Keys
  {
    StartFrame(w, u, o);
  }

  lemma BootEntries(w: World, name: string, allowed: bool, install: bool, loaded: Option<Conf>, differs: bool,
                    o: Outcome)
    requires loaded.Some? ==> w.nextConf !in w.confs
    ensures BootCommand(w, name, allowed, install, loaded, differs, o).0.vms.Keys == w.vms.Keys
  {
    var r := Lookup(w, w.vmList, name);
    if r.Some? && allowed && w.vms[r.value].state == TERMINATE && loaded.Some? {
      StartFrame(PrepareBoot(w, r.value, loaded.value, differs, install), r.value, o);
    }
  }

  ghost predicate OrderlyRun(ws: seq<World>, ss: seq<Step>)
    requires |ws| == |ss| + 1
  {
    forall i :: 0 <= i < |ss| ==> Orderly(ws[i], ss[i])
  }

  /** An orderly run, as one value. */
  ghost function RunOf(ws: seq<World>, ss: seq<Step>): Health {
    if Run(ws, ss) && OrderlyRun(ws, ss) then Well else Ill
  }

  ghost predicate HasOwn(w: World, v: VmId) {
    v in w.vms && OwnsChild(w, v)
  }

  /** From `w` to `w'` the machine has one and the same child. */
  ghost predicate OneChild(w: World, w': World, v: VmId) {
    && HasOwn(w, v) && HasOwn(w', v) && w.vms[v].pid == w'.vms[v].pid
    && w.children[w.vms[v].pid].loader == w'.children[w.vms[v].pid].loader
  }

  lemma FromBefore(w: World, w': World, v: VmId)
    requires HasOwn(w', v) && ChildFrom(w, w', v)
    ensures OneChild(w, w', v) && OneChild(w', w', v)
  {
  }

  lemma OneChildTrans(w: World, w1: World, w2: World, v: VmId)
    requires OneChild(w, w1, v) && OneChild(w1, w2, v)
    ensures OneChild(w, w2, v)
  {
  }

  /**
   Along every run, each child that was not there at the beginning was forked by a step of the run:
   a loader for a machine that loads with bhyveload or grub, and a guest for one that starts from
   uefi or csm or whose loader has exited with 0 just then.
   */
  lemma EveryOrigin(ws: seq<World>, ss: seq<Step>, v: VmId, n: nat) returns (i: nat, conf: Conf)
    requires Run(ws, ss) && OrderlyRun(ws, ss) && n < |ws| && !HasOwn(ws[0], v) && HasOwn(ws[n], v)
    ensures i < n && HasOwn(ws[i + 1], v) && ForkedBy(ws[i], ss[i], v, conf, ws[i + 1])
    ensures forall j :: i < j <= n ==> OneChild(ws[j], ws[n], v)
  {
    i, conf := OriginOf(ws, ss, v, n);
  }

  ghost function ForkOf(w: World, s: Step, v: VmId, conf: Conf, w': World): Health {
    if HasOwn(w', v) && ForkedBy(w, s, v, conf, w') then Well else Ill
  }

  lemma {:induction false} OriginOf(ws: seq<World>, ss: seq<Step>, v: VmId, n: nat) returns (i: nat, conf: Conf)
    requires |ws| == |ss| + 1 && RunOf(ws, ss) == Well && n < |ws| && !HasOwn(ws[0], v) && HasOwn(ws[n], v)
    ensures i < n && ForkOf(ws[i], ss[i], v, conf, ws[i + 1]) == Well
    ensures forall j :: i < j <= n ==> OneChild(ws[j], ws[n], v)
  {
    var m := n - 1;
    var c := NextOrigin(ws, ss, m, v);
    if c.Some? {
      i, conf := m, c.value;
    } else {
      i, conf := OriginOf(ws, ss, v, m);
      forall j | i < j <= n ensures OneChild(ws[j], ws[n], v) {
        if j < n { OneChildTrans(ws[j], ws[m], ws[n], v); }
      }
    }
  }

  lemma NextOrigin(ws: seq<World>, ss: seq<Step>, i: nat, v: VmId) returns (c: Option<Conf>)
    requires |ws| == |ss| + 1 && RunOf(ws, ss) == Well && i < |ss| && HasOwn(ws[i + 1], v)
    ensures OneChild(ws[i + 1], ws[i + 1], v)
    ensures if c.Some? then ForkOf(ws[i], ss[i], v, c.value, ws[i + 1]) == Well else OneChild(ws[i], ws[i + 1], v)
  {
    var w, s, w' := ws[i], ss[i], ws[i + 1];
    assert Enabled(w, s) && Orderly(w, s) && w' == Next(w, s);
    StepOrigin(w, s, v);
    c := Forked(w, s, v, w');
  }

  lemma Forked(w: World, s: Step, v: VmId, w': World) returns (c: Option<Conf>)
    requires HasOwn(w', v) && Origin(w, s, v, w')
    ensures if c.Some? then ForkOf(w, s, v, c.value, w') == Well else OneChild(w, w', v)
  {
    if conf :| ForkedBy(w, s, v, conf, w') {
      c := Some(conf);
    } else {
      c := None;
      FromBefore(w, w', v);
    }
  }

  // ------------------------------------------------------------- loaders that are timed

  /** The loader will be killed, or has been. */
  ghost predicate Guarded(w: World, v: VmId) {
    HasOwn(w, v) && (HasTimer(w, v) || w.children[w.vms[v].pid].killed)
  }

  /** A loader whose timeout could be registered is guarded from the start. */
  lemma StartGuards(w: World, v: VmId, o: Outcome)
    requires v in w.vms && w.vms[v].conf in w.confs && Fresh(w, o) && StartDone(w, v, o)
    requires LoadsFirst(w, v) && w.confs[w.vms[v].conf].loaderTimeout > 0
    ensures var w' := Start(w, v, o).0; HasOwn(w', v) && w'.vms[v].state == LOAD && Guarded(w', v)
  {
    StartAnswers(w, v, o);
    var w' := Start(w, v, o).0;
    var e := Timer(v, w.lastTimer + 1, w.confs[w.vms[v].conf].loaderTimeout);
    assert e in w'.events && IsTimerOf(e, v);
  }

  lemma GainKeepsTimer(w: World, w': World, v: VmId, exit: Option<Pid>, timer: Option<int>)
    requires HasTimer(w, v) && EventsGain(w, w', v, exit, timer)
    ensures HasTimer(w', v)
  {
    var e :| e in w.events && IsTimerOf(e, v);
    assert multiset(w.events)[e] > 0;
    if timer.Some? {
      var id :| w.lastTimer < id <= w'.lastTimer && EventsAre(w, w', v, exit, timer, id);
      assert multiset(w'.events)[e] > 0;
    } else {
      assert EventsAre(w, w', v, exit, timer, 0);
      assert multiset(w'.events)[e] > 0;
    }
    assert e in w'.events;
  }

  /** The machine stays in LOAD with its child. */
  ghost predicate Loading(w: World, v: VmId, p: Pid) {
    HasOwn(w, v) && w.vms[v].state == LOAD && w.vms[v].pid == p
  }

  lemma StepGuards(w: World, s: Step, v: VmId, p: Pid)
    requires Enabled(w, s) && Orderly(w, s) && !ExitOf(s, v)
    requires Loading(w, v, p) && Guarded(w, v) && Loading(Next(w, s), v, p)
    ensures Guarded(Next(w, s), v)
  {
    var w' := Next(w, s);
    if s.Reloads? {
      ReloadGuards(w, s.sections, s.noTimer, v, p);
    } else if !About(w, s, v) {
      OtherStep(w, s, v);
      if HasTimer(w, v) { GainKeepsTimer(w, w', v, None, None); }
    } else if s.TimerFires? {
      TimerAnswers(w, v, s.o);
    } else if s.Boot? {
      BootAnswers(w, s.name, s.allowed, s.install, s.loaded, s.differs, s.o);
    } else {
      DownAnswers(w, s.name, s.allowed, s.how, s.timerOk);
    }
  }

  lemma ReloadGuards(w: World, sections: seq<Loaded>, noTimer: set<VmId>, v: VmId, p: Pid)
    requires Enabled(w, Reloads(sections, noTimer)) && Orderly(w, Reloads(sections, noTimer))
    requires Loading(w, v, p) && Guarded(w, v) && Loading(ReloadAll(w, sections, noTimer), v, p)
    ensures Guarded(ReloadAll(w, sections, noTimer), v)
  {
    InvKnown(w);
    var w' := ReloadAll(w, sections, noTimer);
    if i :| 0 <= i < |sections| && sections[i].conf.name == VmName(w, v) {
      ReloadAnswer(w, sections, noTimer, v, VmName(w, v), i);
      AnsweredGuards(w, v, sections[i].conf, sections[i].differs, sections[i].o, w');
    } else {
      ReloadDismisses(w, sections, noTimer, v);
    }
  }

  lemma AnsweredGuards(w: World, v: VmId, conf: Conf, differs: bool, o: Outcome, w': World)
    requires HasOwn(w, v) && w.vms[v].state == LOAD && w.vms[v].conf in w.confs && Guarded(w, v)
    requires Answered(w, v, conf, differs, o, w')
    ensures HasOwn(w', v) && Guarded(w', v)
  {
    if HasTimer(w, v) {
      var timer :| EventsGain(w, w', v, None, timer);
      GainKeepsTimer(w, w', v, None, timer);
    }
  }

  /** As long as a machine stays in LOAD with its loader, the loader's timer is pending or has killed it. */
  lemma LoaderGuarded(ws: seq<World>, ss: seq<Step>, v: VmId, p: Pid, i: nat, n: nat)
    requires Run(ws, ss) && OrderlyRun(ws, ss) && i <= n < |ws|
    requires forall j :: i <= j <= n ==> Loading(ws[j], v, p)
    requires forall j :: i <= j < n ==> !ExitOf(ss[j], v)
    requires Guarded(ws[i], v)
    ensures Guarded(ws[n], v)
  {
    forall j | i <= j < n ensures GuardOf(ws[j], v, ws[j + 1]) == Well {
      assert Loading(ws[j], v, p) && Loading(ws[j + 1], v, p);
      if Guarded(ws[j], v) { StepGuards(ws[j], ss[j], v, p); }
    }
    GuardedAlong(ws, v, i, n);
  }

  ghost function GuardOf(w: World, v: VmId, w': World): Health {
    if Guarded(w, v) ==> Guarded(w', v) then Well else Ill
  }

  lemma {:induction false} GuardedAlong(ws: seq<World>, v: VmId, i: nat, n: nat)
    requires i <= n < |ws| && Guarded(ws[i], v)
    requires forall j :: i <= j < n ==> GuardOf(ws[j], v, ws[j + 1]) == Well
    ensures Guarded(ws[n], v)
    decreases n
  {
    if i < n {
      GuardedAlong(ws, v, i, n - 1);
      assert GuardOf(ws[n - 1], v, ws[n - 1 + 1]) == Well;
    }
  }

  // ------------------------------------------------------------- installations

  /** The entry has a configuration that no other entry has. */
  ghost predicate OwnConf(w: World, v: VmId) {
    Readable(w, v) && forall u :: u in w.vms && u != v ==> w.vms[u].conf != w.vms[v].conf
  }

  ghost predicate Installing(w: World, v: VmId) {
    OwnConf(w, v) && w.confs[w.vms[v].conf].install && w.vms[v].state in {LOAD, RUN, STOP}
  }

  /** Configuration `c` is what it was, and nobody has come to have it. */
  ghost predicate ConfKept(w: World, w': World, c: ConfId) {
    && (c in w.confs ==> c in w'.confs && w'.confs[c] == w.confs[c])
    && forall u :: u in w'.vms && w'.vms[u].conf == c ==> u in w.vms && w.vms[u].conf == c
  }

  lemma FrameConfs(w: World, w': World, u: VmId, c: ConfId)
    requires OnlyVm(w, w', u)
    ensures ConfKept(w, w', c)
  {
  }

  lemma StopConfs(w: World, u: VmId, sockOk: bool, c: ConfId)
    requires u in w.vms && w.vms[u].conf in w.confs && w.vms[u].conf != c
    ensures KeptOf(w, Stop(w, u, sockOk), c) == Well && KeptOf(w, Finish(w, u, sockOk), c) == Well
    ensures KeptOf(w, DeleteEntry(Stop(w, u, sockOk), u), c) == Well
  {
    StopFrame(w, u, sockOk);
    FrameConfs(w, Stop(w, u, sockOk), u, c);
  }

  lemma ExitConfs(w: World, u: VmId, status: Status, o: Outcome, c: ConfId)
    requires u in w.vms && w.vms[u].conf in w.confs && w.vms[u].conf != c
    ensures ConfKept(w, OnVmExit(w, u, status, o), c)
  {
    var w0 := Reap(w, u);
    if Restarts(w, u, status) {
      StartConfs(w0, u, o, c);
    } else {
      StopConfs(w0, u, o.sockOk, c);
    }
    assert KeptOf(w0, OnVmExit(w, u, status, o), c) == Well;
  }

  ghost function KeptOf(w: World, w': World, c: ConfId): Health {
    if ConfKept(w, w', c) then Well else Ill
  }

  lemma StartConfs(w: World, u: VmId, o: Outcome, c: ConfId)
    requires u in w.vms && w.vms[u].conf in w.confs
    ensures KeptOf(w, Start(w, u, o).0, c) == Well
  {
    StartFrame(w, u, o);
    FrameConfs(w, Start(w, u, o).0, u, c);
  }

  lemma TimerConfs(w: World, u: VmId, o: Outcome, c: ConfId)
    requires u in w.vms && w.vms[u].conf in w.confs
    ensures ConfKept(w, OnTimer(w, u, o), c)
  {
    StartFrame(w, u, o);
  }

  lemma BootConfs(w: World, name: string, allowed: bool, install: bool, loaded: Option<Conf>, differs: bool, o: Outcome,
                  c: ConfId)
    requires (loaded.Some? ==> w.nextConf !in w.confs) && c in w.confs
    requires var r := Lookup(w, w.vmList, name); r.Some? ==> w.vms[r.value].conf != c
    ensures ConfKept(w, BootCommand(w, name, allowed, install, loaded, differs, o).0, c)
  {
    var r := Lookup(w, w.vmList, name);
    if r.Some? && allowed && w.vms[r.value].state == TERMINATE && loaded.Some? {
      var v, w1 := r.value, PrepareBoot(w, r.value, loaded.value, differs, install);
      PrepareConfs(w, v, loaded.value, differs, install, c);
      StartFrame(w1, v, o);
      FrameConfs(w1, Start(w1, v, o).0, v, c);
      ConfsTrans(w, w1, Start(w1, v, o).0, c);
    }
  }

  lemma OthersConfs(w: World, s: Step, v: VmId)
    requires Enabled(w, s) && OwnConf(w, v) && !About(w, s, v)
    ensures ConfKept(w, Next(w, s), w.vms[v].conf)
  {
    var c := w.vms[v].conf;
    match s
    case ChildExits(u, p, status, o) =>
      ExitConfs(w, u, status, o, c);
      ReleaseConfs(w, OnVmExit(w, u, status, o), Exit(u, p), c);
    case TimerFires(e, o) =>
      TimerConfs(w, e.vm, o, c);
      ReleaseConfs(w, OnTimer(w, e.vm, o), e, c);
    case Boot(name, allowed, install, loaded, differs, o) =>
      BootConfs(w, name, allowed, install, loaded, differs, o, c);
    case Down(name, allowed, how, timerOk) => DownConfs(w, name, allowed, how, timerOk, c);
  }

  lemma ReleaseConfs(w: World, w1: World, e: Event, c: ConfId)
    requires ConfKept(w, w1, c)
    ensures ConfKept(w, Release(w1, e), c)
  {
  }

  lemma DownConfs(w: World, name: string, allowed: bool, how: int, timerOk: bool, c: ConfId)
    ensures ConfKept(w, DownCommand(w, name, allowed, how, timerOk).0, c)
  {
    DownAnswers(w, name, allowed, how, timerOk);
  }

  lemma PrepareConfs(w: World, v: VmId, conf: Conf, differs: bool, install: bool, c: ConfId)
    requires v in w.vms && w.vms[v].conf in w.confs && w.nextConf !in w.confs && c in w.confs && w.vms[v].conf != c
    ensures ConfKept(w, PrepareBoot(w, v, conf, differs, install), c)
  {
  }

  lemma ConfsTrans(w: World, w1: World, w2: World, c: ConfId)
    requires c in w.confs && ConfKept(w, w1, c) && ConfKept(w1, w2, c)
    ensures ConfKept(w, w2, c)
  {
  }

  /** The step has forked a guest for the machine. */
  ghost predicate NewGuest(w: World, s: Step, v: VmId, w': World) {
    && HasOwn(w', v) && !w'.children[w'.vms[v].pid].loader
    && (ExitOf(s, v) || !ChildFrom(w, w', v))
  }

  /** A step of an installation: it goes on or the machine is down, and a guest is forked only after the loader. */
  ghost predicate InstallGoes(w: World, s: Step, v: VmId, w': World)
    requires v in w.vms
  {
    && v in w'.vms && (w'.vms[v].state == TERMINATE || Installing(w', v))
    && (w'.vms[v].state == LOAD ==> w.vms[v].state == LOAD)
    && (NewGuest(w, s, v, w') ==> w.vms[v].state == LOAD && w'.vms[v].state != LOAD)
  }

  lemma ExitInstall(w: World, v: VmId, p: Pid, status: Status, o: Outcome)
    requires Enabled(w, ChildExits(v, p, status, o)) && Installing(w, v)
    ensures InstallGoes(w, ChildExits(v, p, status, o), v, Next(w, ChildExits(v, p, status, o)))
  {
    var w1 := OnVmExit(w, v, status, o);
    ExitInstalling(w, v, status, o);
    ExitChild(w, v, status, o);
    ReleasedGoes(w, ChildExits(v, p, status, o), v, w1, Exit(v, p));
  }

  lemma ReleasedGoes(w: World, s: Step, v: VmId, w1: World, e: Event)
    requires v in w.vms && ExitOf(s, v) && InstallGoes(w, s, v, w1)
    ensures InstallGoes(w, s, v, Release(w1, e))
  {
  }

  lemma ExitInstalling(w: World, v: VmId, status: Status, o: Outcome)
    requires Readable(w, v) && Fresh(Reap(w, v), o) && Installing(w, v)
    ensures var w1 := OnVmExit(w, v, status, o); v in w1.vms && (w1.vms[v].state == TERMINATE || Installing(w1, v))
    ensures OnVmExit(w, v, status, o).vms[v].state == LOAD ==> w.vms[v].state == LOAD
  {
    ExitAnswers(w, v, status, o);
    if w.vms[v].state == LOAD && status == Exited(0) { StartFrame(Reap(w, v), v, o); }
  }

  lemma OwnInstall(w: World, s: Step, v: VmId)
    requires Enabled(w, s) && !s.Reloads? && !s.ChildExits? && About(w, s, v) && Installing(w, v)
    ensures InstallGoes(w, s, v, Next(w, s))
  {
    match s
    case TimerFires(e, o) => TimerAnswers(w, v, o); KillKeepsChild(w, v);
    case Boot(name, allowed, install, loaded, differs, o) =>
      BootAnswers(w, name, allowed, install, loaded, differs, o);
    case Down(name, allowed, how, timerOk) =>
      DownAnswers(w, name, allowed, how, timerOk);
      DownOrigin(w, name, allowed, how, timerOk, v);
  }

  lemma KillKeepsChild(w: World, v: VmId)
    requires v in w.vms
    ensures Kill(w, v).vms == w.vms && Kill(w, v).confs == w.confs && ChildFrom(w, Kill(w, v), v)
  {
  }

  lemma StepInstalls(w: World, s: Step, v: VmId)
    requires Enabled(w, s) && !s.Reloads? && Installing(w, v)
    ensures InstallGoes(w, s, v, Next(w, s))
  {
    if !About(w, s, v) {
      OtherStep(w, s, v);
      OthersConfs(w, s, v);
    } else if s.ChildExits? {
      ExitInstall(w, v, s.p, s.status, s.o);
    } else {
      OwnInstall(w, s, v);
    }
  }

  /** How many of the steps from `m` to `n` have forked a guest for the machine. */
  ghost function Guests(ws: seq<World>, ss: seq<Step>, v: VmId, m: nat, n: nat): nat
    requires |ws| == |ss| + 1 && m <= n <= |ss|
    decreases n
  {
    if n == m then 0
    else Guests(ws, ss, v, m, n - 1) + if NewGuest(ws[n - 1], ss[n - 1], v, ws[n]) then 1 else 0
  }

  ghost predicate Up(w: World, v: VmId) {
    v in w.vms && w.vms[v].state != TERMINATE
  }

  /** From an installation that is under way, at most one guest more, and none once the guest runs. */
  lemma InstallGuests(ws: seq<World>, ss: seq<Step>, v: VmId, m: nat, n: nat)
    requires Run(ws, ss) && m <= n <= |ss| && Installing(ws[m], v)
    requires forall i :: m <= i < n ==> !ss[i].Reloads? && Up(ws[i], v)
    ensures v in ws[n].vms && (Up(ws[n], v) ==> Installing(ws[n], v))
    ensures Guests(ws, ss, v, m, n) <= if ws[m].vms[v].state == LOAD then 1 else 0
  {
    forall i | m <= i < n ensures GoesOf(ws[i], ss[i], v, ws[i + 1]) == Well {
      assert Up(ws[i], v);
      if Installing(ws[i], v) { StepInstalls(ws[i], ss[i], v); }
    }
    GuestsAlong(ws, ss, v, m, n);
  }

  /** The step is one of an installation, if there is one. */
  ghost function GoesOf(w: World, s: Step, v: VmId, w': World): Health {
    if Up(w, v) && (Installing(w, v) ==> InstallGoes(w, s, v, w')) then Well else Ill
  }

  /** Since `w` there have been `g` guests, and with `w'` that is as it should be. */
  ghost function StageOf(w: World, v: VmId, g: nat, w': World): Health {
    if && v in w.vms && v in w'.vms && (Up(w', v) ==> Installing(w', v))
       && g <= (if w.vms[v].state == LOAD then 1 else 0)
       && (w'.vms[v].state == LOAD ==> w.vms[v].state == LOAD && g == 0)
    then Well else Ill
  }

  lemma NextStage(w0: World, w: World, s: Step, v: VmId, g: nat, w': World)
    requires StageOf(w0, v, g, w) == Well && GoesOf(w, s, v, w') == Well
    ensures StageOf(w0, v, g + if NewGuest(w, s, v, w') then 1 else 0, w') == Well
  {
  }

  lemma {:induction false} GuestsAlong(ws: seq<World>, ss: seq<Step>, v: VmId, m: nat, n: nat)
    requires |ws| == |ss| + 1 && m <= n <= |ss| && StageOf(ws[m], v, 0, ws[m]) == Well
    requires forall i :: m <= i < n ==> GoesOf(ws[i], ss[i], v, ws[i + 1]) == Well
    ensures StageOf(ws[m], v, Guests(ws, ss, v, m, n), ws[n]) == Well
    decreases n
  {
    if n > m {
      var k := n - 1;
      GuestsAlong(ws, ss, v, m, k);
      NextStage(ws[m], ws[k], ss[k], v, Guests(ws, ss, v, m, k), ws[k + 1]);
    }
  }

  /**
   An install command and all that follows, up to and including the step that takes the machine down,
   fork at most one guest for it, if no reload comes in between.
   */
  lemma InstallOnce(ws: seq<World>, ss: seq<Step>, v: VmId, n: nat)
    requires Run(ws, ss) && 1 <= n <= |ss| && ss[0].Boot? && ss[0].install && ss[0].allowed && ss[0].loaded.Some?
    requires Lookup(ws[0], ws[0].vmList, ss[0].name) == Some(v) && ws[0].vms[v].state == TERMINATE
    requires Owned(ws[0]) && !HasOwn(ws[0], v)
    requires forall i :: 1 <= i < n ==> !ss[i].Reloads? && Up(ws[i], v)
    ensures Guests(ws, ss, v, 0, n) <= 1
  {
    InstallBegins(ws[0], ss[0], v, ws[1]);
    if n > 1 {
      assert Up(ws[1], v);
      InstallGuests(ws, ss, v, 1, n);
    }
    GuestsSplit(ws, ss, v, n);
  }

  lemma {:induction false} GuestsSplit(ws: seq<World>, ss: seq<Step>, v: VmId, n: nat)
    requires |ws| == |ss| + 1 && 1 <= n <= |ss|
    ensures Guests(ws, ss, v, 0, n) ==
            (if NewGuest(ws[0], ss[0], v, ws[1]) then 1 else 0) + Guests(ws, ss, v, 1, n)
  {
    if n > 1 { GuestsSplit(ws, ss, v, n - 1); }
  }

  lemma InstallBegins(w: World, s: Step, v: VmId, w': World)
    requires Enabled(w, s) && s.Boot? && s.install && s.allowed && s.loaded.Some? && w' == Next(w, s)
    requires Lookup(w, w.vmList, s.name) == Some(v) && w.vms[v].state == TERMINATE && Owned(w) && !HasOwn(w, v)
    ensures v in w'.vms && (Up(w', v) ==> Installing(w', v))
    ensures NewGuest(w, s, v, w') ==> w'.vms[v].state == RUN
  {
    BootAnswers(w, s.name, s.allowed, s.install, s.loaded, s.differs, s.o);
    var w1 := PrepareBoot(w, v, s.loaded.value, s.differs, true);
    InstallReady(w, v, s.loaded.value, s.differs);
    StartFrame(w1, v, s.o);
    InstallStarted(w1, v, s.o, w');
  }

  lemma InstallReady(w: World, v: VmId, loaded: Conf, differs: bool)
    requires Owned(w) && v in w.vms && w.nextConf !in w.confs
    ensures var w1 := PrepareBoot(w, v, loaded, differs, true);
      OwnConf(w1, v) && w1.confs[w1.vms[v].conf].install
  {
    forall u | u in w.vms && u != v ensures w.vms[u].conf != w.vms[v].conf && w.vms[u].conf != w.nextConf {
      assert VmName(w, u) != VmName(w, v);
    }
  }

  lemma InstallStarted(w1: World, v: VmId, o: Outcome, w': World)
    requires OwnConf(w1, v) && w1.confs[w1.vms[v].conf].install && w1.vms[v].state == TERMINATE
    requires Started(w1, v, o, w') && OnlyVm(w1, w', v) && (o.spawn.Some? ==> o.spawn.value !in w1.children)
    ensures v in w'.vms && (Up(w', v) ==> Installing(w', v))
    ensures HasOwn(w', v) && !HasOwn(w1, v) && !w'.children[w'.vms[v].pid].loader ==> w'.vms[v].state == RUN
  {
  }

  /**
   A reload in between is what the law above leaves out: it replaces the configuration of a guest that
   is being installed by that of the file, which is not installing, and leaves the guest running.
   */
  lemma ReloadForgetsInstall(w: World, loaded: seq<Loaded>, noTimer: set<VmId>, v: VmId, i: nat)
    requires Inv(w) && NoRemoval(w) && ReloadFresh(w, loaded) && DistinctSections(loaded) && i < |loaded|
    requires v in w.vms && w.vms[v].state == RUN && VmName(w, v) == loaded[i].conf.name
    requires !loaded[i].differs && loaded[i].conf.boot == w.confs[w.vms[v].conf].boot
    ensures var w' := ReloadAll(w, loaded, noTimer);
      Readable(w', v) && w'.vms[v].state == RUN && w'.confs[w'.vms[v].conf] == loaded[i].conf
  {
    InvKnown(w);
    ReloadAnswer(w, loaded, noTimer, v, VmName(w, v), i);
    ReloadBijection(w, loaded, noTimer);
    var w', c := ReloadAll(w, loaded, noTimer), Ids(w.nextConf, |loaded|)[i];
    assert HasEntry(w', c, loaded[i].conf);
  }

  /** So when that guest shuts down after the installation, a second one is forked in its place. */
  lemma InstallsAgain(w: World, v: VmId, p: Pid, o: Outcome)
    requires Enabled(w, ChildExits(v, p, Exited(0), o)) && w.vms[v].state == RUN && w.vms[v].pid == p
    requires var conf := w.confs[w.vms[v].conf]; !conf.install && conf.bhyve && conf.loader in {Uefi, Csm}
    requires o.found && StartDone(Reap(w, v), v, o)
    ensures var s := ChildExits(v, p, Exited(0), o); NewGuest(w, s, v, Next(w, s))
  {
    ExitAnswers(w, v, Exited(0), o);
    var w1 := OnVmExit(w, v, Exited(0), o);
    assert HasOwn(w1, v) && !w1.children[w1.vms[v].pid].loader;
  }
}
