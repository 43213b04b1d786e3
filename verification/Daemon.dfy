/**
 The daemon as the program it is: one object whose fields are the process-wide variables, and
 methods that update them in place, with the loops of the source.  Each method is proved to do
 what its specification function over `World` says; the theorems are about those functions.
 */
module DaemonProgram {
  import opened Options
  import opened DaemonState
  import opened Lifecycle
  import opened Reload
  import opened ReloadProof
  import opened Runs
  import opened Steps
  import opened Answers

  /** The step of the event loop that dispatches `e`. */
  ghost function Fired(e: Event, status: Status, o: Outcome): Step {
    match e case Exit(v, p) => ChildExits(v, p, status, o) case Timer(_, _, _) => TimerFires(e, o)
  }

  class Daemon {
    var vmList: seq<VmId>
    var vms: map<VmId, Vm>
    var nextVm: VmId
    var confList: seq<ConfId>
    var confs: map<ConfId, Conf>
    var nextConf: ConfId
    var events: seq<Event>
    var lastTimer: nat
    var children: map<Pid, Child>
    var taps: map<Tap, VmId>
    var faults: set<Fault>

    ghost function View(): World
      reads this
    {
      World(vmList, vms, nextVm, confList, confs, nextConf, events, lastTimer, children, taps, faults)
    }

    // -------------------------------------------------------------- events and signals

    method StopWaitingFor(k: Selection)
      modifies this`events
      ensures events == Drop(old(events), k)
    {
      var i := 0;
      while i < |events|
        invariant 0 <= i <= |events|
        invariant events[..i] + Drop(events[i..], k) == Drop(old(events), k)
        decreases |events| - i
      {
        if Selects(k, events[i]) {
          DropChosen(events, i, k);
          events := events[..i] + events[i + 1..];
        } else {
          DropKept(events, i, k);
          i := i + 1;
        }
      }
      DropDone(events, i, k);
    }

    method SetTimer(v: VmId, secs: int, ok: bool)
      modifies this
      ensures View() == AddTimer(old(View()), v, secs, ok)
    {
      lastTimer := lastTimer + 1;
      if ok {
        events := [Timer(v, lastTimer, secs)] + events;
      }
    }

    method SendTerm(v: VmId)
      requires v in vms
      modifies this
      ensures View() == Term(old(View()), v)
    {
      var p := vms[v].pid;
      if p in children && children[p].vm == v {
        children := children[p := children[p].(termed := true)];
      } else {
        faults := faults + {StraySignal};
      }
    }

    method SendPowerOff(v: VmId)
      requires v in vms
      modifies this
      ensures View() == Kill(old(View()), v)
    {
      var p := vms[v].pid;
      if vms[v].state == LOAD {
        if p in children && children[p].vm == v {
          children := children[p := children[p].(killed := true)];
        } else {
          faults := faults + {StraySignal};
        }
      } else if p in children && children[p].vm == v {
        children := children[p := children[p].(suspended := true)];
      }
    }

    // -------------------------------------------------------------- taps

    method RemoveTaps(v: VmId, sockOk: bool)
      requires v in vms
      modifies this
      ensures View() == DaemonState.RemoveTaps(old(View()), v, sockOk)
    {
      if !sockOk {
        return;
      }
      var list := vms[v].taps;
      var i := 0;
      while i < |list|
        invariant 0 <= i <= |list|
        invariant View() == old(View()).(taps := taps)
        invariant taps == old(taps) - TapSet(list[..i])
      {
        OneTapLess(old(taps), list, i);
        if list[i].Some? {
          taps := taps - {list[i].value};
        }
        i := i + 1;
      }
      assert list[..i] == list;
      vms := vms[v := vms[v].(taps := [])];
    }

    method AssignTaps(v: VmId, o: Outcome) returns (ok: bool)
      requires v in vms
      modifies this
      ensures (View(), ok) == DaemonState.AssignTaps(old(View()), v, o)
    {
      if vms[v].taps != [] {
        return true;
      }
      if !o.netsOk {
        return false;
      }
      var list;
      list, ok := CreateTaps(v, o.taps);
      vms := vms[v := vms[v].(taps := list)];
      assert View() == GiveTaps(old(View()), v, TapsAttempted(o.taps));
      if !ok {
        RemoveTaps(v, o.sockOk);
      }
    }

    /** The loop of `assign_taps`: it stops at the first interface that cannot be set up. */
    method CreateTaps(v: VmId, results: seq<TapResult>) returns (list: seq<Option<Tap>>, ok: bool)
      modifies this`taps
      ensures list == TapsAttempted(results) && (ok <==> TapsSucceed(results))
      ensures taps == Granted(old(taps), TapSet(list), v)
    {
      list := NoTaps(|results|);
      ok := true;
      var i := 0;
      assert TapSet(list) == {};
      while i < |results| && ok
        invariant 0 <= i <= |results| == |list|
        invariant Attempting(results, i, list, ok)
        invariant taps == Granted(old(taps), TapSet(list), v)
      {
        var made := results[i].Created? || results[i].SetupFailed?;
        AttemptStep(results, i, list);
        if made {
          GrantOne(old(taps), TapSet(list), results[i].tap, v);
          list := list[i := Some(results[i].tap)];
          taps := taps[results[i].tap := v];
        }
        ok := results[i].Created? || results[i].Skipped?;
        i := i + 1;
      }
      AttemptDone(results, list, ok);
    }

    // -------------------------------------------------------------- starting and stopping

    method Cleanup(v: VmId, sockOk: bool)
      requires v in vms
      modifies this
      ensures View() == DaemonState.Cleanup(old(View()), v, sockOk)
    {
      RemoveTaps(v, sockOk);
      vms := vms[v := vms[v].(state := TERMINATE)];
    }

    method Launch(v: VmId, o: Outcome) returns (ok: bool)
      requires v in vms && vms[v].conf in confs
      modifies this
      ensures (View(), ok) == DaemonState.Launch(old(View()), v, o)
    {
      var conf := confs[vms[v].conf];
      var target := StartTarget(vms[v].state, conf.loader);
      if target.None? || o.spawn.None? {
        Cleanup(v, o.sockOk);
        return false;
      }
      var p := o.spawn.value;
      vms := vms[v := vms[v].(state := target.value, pid := p)];
      children := children[p := Child(v, vms[v].state == LOAD, false, false, false)];
      if o.exitOk {
        events := [Exit(v, p)] + events;
      }
      if !o.exitOk || !o.outputOk {
        SendPowerOff(v);
        children := children - {vms[v].pid};
        Cleanup(v, o.sockOk);
        return false;
      }
      ok := true;
      if vms[v].state == LOAD && conf.loaderTimeout > 0 {
        SetTimer(v, conf.loaderTimeout, o.timerOk);
        ok := o.timerOk;
      }
    }

    method StartVirtualMachine(v: VmId, o: Outcome) returns (ok: bool)
      requires v in vms && vms[v].conf in confs
      modifies this
      ensures (View(), ok) == Start(old(View()), v, o)
      ensures Resources.Fresh(old(View()), o) ==> StartVerdict(old(View()), v, o, View(), ok) == Well
    {
      if Resources.Fresh(View(), o) { StartJudged(View(), v, o); }
      if !o.found {
        return false;
      }
      if vms[v].state == TERMINATE {
        ok := AssignTaps(v, o);
        if !ok {
          return;
        }
        if !o.activateOk {
          RemoveTaps(v, o.sockOk);
          return false;
        }
      }
      ok := Launch(v, o);
    }

    method StopVirtualMachine(v: VmId, sockOk: bool)
      requires v in vms
      modifies this
      ensures View() == Stop(old(View()), v, sockOk)
    {
      StopWaitingFor(TimersOf(v));
      Cleanup(v, sockOk);
    }

    // -------------------------------------------------------------- entries

    method FreeVmConfEntry(c: ConfId)
      modifies this
      ensures View() == FreeConf(old(View()), c)
    {
      if c !in confs {
        faults := faults + {ConfReleasedTwice};
      }
      confs := confs - {c};
    }

    method UnlinkConf(c: ConfId)
      modifies this
      ensures View() == DaemonState.UnlinkConf(old(View()), c)
    {
      if c !in confList {
        faults := faults + {ConfUnlinkedTwice};
      }
      confList := Without(confList, c);
    }

    method CreateVmEntry(c: ConfId) returns (v: VmId)
      modifies this
      ensures View() == CreateEntry(old(View()), c) && v == old(nextVm)
    {
      v := nextVm;
      nextVm := nextVm + 1;
      vms := vms[v := Vm(TERMINATE, -1, [], c, None)];
      vmList := [v] + vmList;
    }

    method DeleteVmEntry(v: VmId)
      requires v in vms
      modifies this
      ensures View() == DeleteEntry(old(View()), v)
    {
      var c := vms[v].conf;
      vmList := Without(vmList, v);
      StopWaitingFor(AllOf(v));
      vms := vms - {v};
      FreeVmConfEntry(c);
    }

    // -------------------------------------------------------------- event handlers

    method OnVmExit(v: VmId, status: Status, o: Outcome)
      requires v in vms && vms[v].conf in confs
      modifies this
      ensures View() == DaemonState.OnVmExit(old(View()), v, status, o)
      ensures Resources.Fresh(Reap(old(View()), v), o) ==> ExitVerdict(old(View()), v, status, o, View()) == Well
    {
      ghost var before := View();
      var c := vms[v].conf;
      children := children - {vms[v].pid};
      match vms[v].state {
        case LOAD =>
          if status == Exited(0) {
            var _ := StartVirtualMachine(v, o);
          } else {
            StopVirtualMachine(v, o.sockOk);
          }
        case RESTART =>
          StopVirtualMachine(v, o.sockOk);
          SetTimer(v, Max(confs[c].bootDelay, 3), o.timerOk);
        case RUN =>
          if ShouldRestart(confs[c], status) {
            var _ := StartVirtualMachine(v, o);
          } else {
            StopVirtualMachine(v, o.sockOk);
            confs := confs[c := confs[c].(install := false)];
          }
        case STOP =>
          StopVirtualMachine(v, o.sockOk);
          confs := confs[c := confs[c].(install := false)];
        case REMOVE =>
          StopVirtualMachine(v, o.sockOk);
          DeleteVmEntry(v);
        case TERMINATE =>
      }
      assert View() == DaemonState.OnVmExit(before, v, status, o);
      if Resources.Fresh(Reap(before, v), o) { ExitJudged(before, v, status, o); }
    }

    method OnTimer(v: VmId, o: Outcome)
      requires v in vms && vms[v].conf in confs
      modifies this
      ensures View() == DaemonState.OnTimer(old(View()), v, o)
      ensures Resources.Fresh(old(View()), o) ==> TimerTable(old(View()), v, o, View())
    {
      if Resources.Fresh(View(), o) { TimerAnswers(View(), v, o); }
      match vms[v].state
      case TERMINATE => var _ := StartVirtualMachine(v, o);
      case RUN =>
      case _ => SendPowerOff(v);
    }

    /** One round of `event_loop` for a one-shot event: the callback, then the event itself. */
    method Dispatch(e: Event, status: Status, o: Outcome)
      requires e in events && e.vm in vms && vms[e.vm].conf in confs
      modifies this
      ensures View() == Release(if e.Exit? then DaemonState.OnVmExit(old(View()), e.vm, status, o)
                                else DaemonState.OnTimer(old(View()), e.vm, o), e)
      ensures KeptIfClean(old(View()), Fired(e, status, o), View())
    {
      ghost var before := View();
      match e {
        case Exit(v, p) => OnVmExit(v, status, o);
        case Timer(v, id, secs) => OnTimer(v, o);
      }
      if e in events {
        events := RemoveOldest(events, e);
      } else {
        faults := faults + {EventReleasedTwice};
      }
      if Enabled(before, Fired(e, status, o)) { NextKeptIfClean(before, Fired(e, status, o)); }
    }

    // -------------------------------------------------------------- commands

    method LookupVmByName(name: string) returns (r: Option<VmId>)
      ensures r == Lookup(View(), vmList, name)
    {
      var i := 0;
      while i < |vmList|
        invariant 0 <= i <= |vmList|
        invariant Lookup(View(), vmList, name) == Lookup(View(), vmList[i..], name)
      {
        LookupNext(View(), vmList, i, name);
        if vmList[i] in vms && vms[vmList[i]].conf in confs && confs[vms[vmList[i]].conf].name == name {
          return Some(vmList[i]);
        }
        i := i + 1;
      }
      return None;
    }

    method ReplaceConf(v: VmId, conf: Conf, differs: bool)
      requires v in vms
      modifies this
      ensures View() == DaemonState.ReplaceConf(old(View()), v, conf, differs)
    {
      var c := nextConf;
      nextConf := nextConf + 1;
      if differs {
        var prev := vms[v].conf;
        UnlinkConf(prev);
        confList := [c] + confList;
        confs := confs[c := conf];
        FreeVmConfEntry(prev);
        vms := vms[v := vms[v].(conf := c)];
      }
    }

    method Boot0Command(name: string, allowed: bool, install: bool, loaded: Option<Conf>, differs: bool, o: Outcome)
        returns (reply: Reply)
      requires loaded.Some? ==> nextConf !in confs
      modifies this
      ensures (View(), reply) == BootCommand(old(View()), name, allowed, install, loaded, differs, o)
    {
      var r := LookupVmByName(name);
      if r.None? || !allowed {
        return NotFound;
      }
      var v := r.value;
      if vms[v].state != TERMINATE {
        return AlreadyRunning;
      }
      if loaded.None? {
        return LoadFailed;
      }
      ReplaceConf(v, loaded.value, differs);
      if install {
        var c := vms[v].conf;
        confs := confs[c := confs[c].(install := true)];
      }
      assert View() == PrepareBoot(old(View()), v, loaded.value, differs, install);
      var ok := StartVirtualMachine(v, o);
      reply := if ok then Done else StartFailed;
    }

    /** `boot_command` and `install_command`. */
    method BootOrInstallCommand(name: string, allowed: bool, install: bool, loaded: Option<Conf>, differs: bool,
                                o: Outcome)
        returns (reply: Reply)
      requires loaded.Some? ==> nextConf !in confs
      modifies this
      ensures (View(), reply) == BootCommand(old(View()), name, allowed, install, loaded, differs, o)
      ensures KeptIfClean(old(View()), Boot(name, allowed, install, loaded, differs, o), View())
    {
      ghost var step := Boot(name, allowed, install, loaded, differs, o);
      if Enabled(View(), step) { NextKeptIfClean(View(), step); }
      reply := Boot0Command(name, allowed, install, loaded, differs, o);
    }

    method VmDownCommand(name: string, allowed: bool, how: int, timerOk: bool) returns (reply: Reply)
      modifies this
      ensures (View(), reply) == DownCommand(old(View()), name, allowed, how, timerOk)
      ensures KeptIfClean(old(View()), Down(name, allowed, how, timerOk), View())
    {
      NextKeptIfClean(View(), Down(name, allowed, how, timerOk));
      var r := LookupVmByName(name);
      if r.None? || !allowed {
        return NotFound;
      }
      var v := r.value;
      if vms[v].state != LOAD && vms[v].state != RUN {
        return Done;
      }
      reply := Done;
      match how {
        case 0 =>
          AskToStop(v, confs[vms[v].conf].stopTimeout, timerOk, STOP);
        case 1 =>
        case 2 =>
          SendPowerOff(v);
          vms := vms[v := vms[v].(state := STOP)];
        case _ =>
          reply := UnknownCommand;
      }
    }

    method AskToStop(v: VmId, secs: int, timerOk: bool, s: State)
      requires v in vms
      modifies this
      ensures View() == Reload.AskToStop(old(View()), v, secs, timerOk, s)
    {
      SendTerm(v);
      SetTimer(v, secs, timerOk);
      vms := vms[v := vms[v].(state := s)];
    }

    // -------------------------------------------------------------- reload

    /** An entry for a section that has none. */
    method AddEntry(c: ConfId, o: Outcome)
      requires c in confs
      modifies this
      ensures View() == Reload.AddEntry(old(View()), c, o)
    {
      var conf := confs[c];
      var v := CreateVmEntry(c);
      vms := vms[v := vms[v].(newConf := Some(c))];
      if conf.boot == NO {
        return;
      }
      if conf.bootDelay > 0 {
        SetTimer(v, conf.bootDelay, o.timerOk);
        return;
      }
      var _ := StartVirtualMachine(v, o);
    }

    method RebootEntry(v: VmId, conf: Conf, timerOk: bool)
      requires v in vms
      modifies this
      ensures View() == Reload.RebootEntry(old(View()), v, conf, timerOk)
    {
      match vms[v].state
      case TERMINATE => SetTimer(v, Max(conf.bootDelay, 1), timerOk);
      case LOAD => AskToStop(v, conf.stopTimeout, timerOk, RESTART);
      case RUN => AskToStop(v, conf.stopTimeout, timerOk, RESTART);
      case STOP => vms := vms[v := vms[v].(state := RESTART)];
      case _ =>
    }

    method FollowBoot(v: VmId, c: ConfId, o: Outcome)
      requires v in vms && c in confs
      modifies this
      ensures View() == Reload.FollowBoot(old(View()), v, c, o)
    {
      var s := vms[v].state;
      match confs[c].boot
      case NO =>
        if s == LOAD || s == RUN {
          AskToStop(v, confs[c].stopTimeout, o.timerOk, STOP);
        } else if s == RESTART {
          vms := vms[v := vms[v].(state := STOP)];
        }
      case ONESHOT =>
      case _ =>
        if s == TERMINATE {
          vms := vms[v := vms[v].(conf := c)];
          var _ := StartVirtualMachine(v, o);
        } else if s == STOP {
          vms := vms[v := vms[v].(state := RESTART)];
        }
    }

    method MatchSection(c: ConfId, differs: bool, o: Outcome)
      requires c in confs
      modifies this
      ensures View() == MatchOne(old(View()), c, differs, o)
    {
      var conf := confs[c];
      var found := LookupVmByName(conf.name);
      if found.None? {
        AddEntry(c, o);
        return;
      }
      var v := found.value;
      var boot := confs[vms[v].conf].boot;
      vms := vms[v := vms[v].(newConf := Some(c))];
      if conf.boot != NO && conf.rebootOnChange && differs {
        RebootEntry(v, conf, o.timerOk);
      } else if conf.boot != boot {
        FollowBoot(v, c, o);
      }
    }

    method SettleEntry(v: VmId, timerOk: bool)
      requires v in vms
      modifies this
      ensures View() == SettleOne(old(View()), v, timerOk)
    {
      var vm := vms[v];
      if vm.newConf.Some? {
        vms := vms[v := vm.(conf := vm.newConf.value, newConf := None)];
        return;
      }
      if vm.state == TERMINATE {
        UnlinkConf(vm.conf);
        DeleteVmEntry(v);
        return;
      }
      if vm.state == LOAD || vm.state == RUN {
        var secs := if vm.conf in confs then confs[vm.conf].stopTimeout else 0;
        AskToStop(v, secs, timerOk, REMOVE);
      } else {
        vms := vms[v := vm.(state := REMOVE)];
      }
      UnlinkConf(vm.conf);
    }

    method MatchSections(ids: seq<ConfId>, loaded: seq<Loaded>)
      requires |ids| == |loaded| && forall c :: c in ids ==> c in confs
      modifies this
      ensures View() == MatchAll(old(View()), ids, loaded)
    {
      var i := 0;
      while i < |ids|
        invariant 0 <= i <= |ids|
        invariant confs == old(confs)
        invariant View() == MatchAll(old(View()), ids[..i], loaded[..i])
      {
        MatchNext(old(View()), ids, loaded, i);
        MatchSection(ids[i], loaded[i].differs, loaded[i].o);
        i := i + 1;
      }
      assert ids[..i] == ids && loaded[..i] == loaded;
    }

    method SettleEntries(vs: seq<VmId>, noTimer: set<VmId>)
      modifies this
      ensures View() == SettleAll(old(View()), vs, noTimer)
    {
      var i := 0;
      while i < |vs|
        invariant 0 <= i <= |vs|
        invariant View() == SettleAll(old(View()), vs[..i], noTimer)
      {
        assert vs[..i + 1][..i] == vs[..i];
        if vs[i] in vms {
          SettleEntry(vs[i], vs[i] !in noTimer);
        }
        i := i + 1;
      }
      assert vs[..i] == vs;
    }

    method FreeConfs(cs: seq<ConfId>)
      modifies this
      ensures View() == FreeAll(old(View()), cs)
    {
      var i := 0;
      while i < |cs|
        invariant 0 <= i <= |cs|
        invariant View() == FreeAll(old(View()), cs[..i])
      {
        assert cs[..i + 1][..i] == cs[..i];
        FreeVmConfEntry(cs[i]);
        i := i + 1;
      }
      assert cs[..i] == cs;
    }

    method ReloadVirtualMachines(loaded: seq<Loaded>, noTimer: set<VmId>)
      modifies this
      ensures View() == ReloadAll(old(View()), loaded, noTimer)
    {
      var ids := Ids(nextConf, |loaded|);
      confs := AddConfs(confs, nextConf, loaded);
      nextConf := nextConf + |loaded|;
      vms := map v | v in vms :: vms[v].(newConf := None);
      assert View() == Begin(old(View()), loaded);
      MatchSections(ids, loaded);
      SettleEntries(vmList, noTimer);
      FreeConfs(confList);
      confList := ids;
    }

    /** `on_sighup`, once the file has been read. */
    method OnSighup(loaded: seq<Loaded>, noTimer: set<VmId>)
      modifies this
      ensures View() == ReloadAll(old(View()), loaded, noTimer)
      ensures KeptIfClean(old(View()), Reloads(loaded, noTimer), View())
    {
      if Enabled(View(), Reloads(loaded, noTimer)) { NextKeptIfClean(View(), Reloads(loaded, noTimer)); }
      ReloadVirtualMachines(loaded, noTimer);
    }

    /** One round of `event_loop`, whatever it is that happens. */
    method Serve(s: Step)
      requires Enabled(View(), s)
      modifies this
      ensures View() == old(Next(View(), s))
      ensures KeptIfClean(old(View()), s, View())
    {
      match s {
        case ChildExits(v, p, status, o) =>
          Dispatch(Exit(v, p), status, o);
        case TimerFires(e, o) =>
          Dispatch(e, Exited(0), o);
        case Boot(name, allowed, install, loaded, differs, o) =>
          var _ := BootOrInstallCommand(name, allowed, install, loaded, differs, o);
        case Down(name, allowed, how, timerOk) =>
          var _ := VmDownCommand(name, allowed, how, timerOk);
        case Reloads(sections, noTimer) =>
          OnSighup(sections, noTimer);
      }
    }

    /** `event_loop`: whatever happens and however often, the invariant holds as long as the steps are clean. */
    method EventLoop(ss: seq<Step>)
      requires EnabledAlong(View(), ss)
      modifies this
      ensures View() == old(After(View(), ss))
      ensures old(Inv(View()) && CleanAlong(View(), ss)) ==> Inv(View())
    {
      var i := 0;
      assert ss[0..] == ss;
      ghost var clean := Inv(View()) && CleanAlong(View(), ss);
      while i < |ss|
        invariant 0 <= i <= |ss| && EnabledAlong(View(), ss[i..])
        invariant After(View(), ss[i..]) == old(After(View(), ss))
        invariant clean ==> Inv(View()) && CleanAlong(View(), ss[i..])
      {
        assert ss[i..][0] == ss[i] && ss[i..][1..] == ss[i + 1..];
        Serve(ss[i]);
        i := i + 1;
      }
    }

    method StartVirtualMachines(os: seq<Outcome>)
      requires |os| == |confList| && forall c :: c in confList ==> c in confs
      modifies this
      ensures View() == BootAll(old(View()), old(confList), os)
      ensures old(Fresh0(View()) && BootsFresh(View(), confList, os)) ==>
        (Inv(View()) <==> old(NamesDiffer(confs, confList) && BootsClean(View(), confList, os)))
    {
      if Fresh0(View()) && BootsFresh(View(), confList, os) { StartUpExact(View(), os); }
      BootSections(confList, os);
    }

    method BootSections(cs: seq<ConfId>, os: seq<Outcome>)
      requires |os| == |cs| && forall c :: c in cs ==> c in confs
      modifies this
      ensures View() == BootAll(old(View()), cs, os)
    {
      var i := 0;
      while i < |cs|
        invariant 0 <= i <= |cs|
        invariant confs == old(confs)
        invariant View() == BootAll(old(View()), cs[..i], os[..i])
      {
        BootNext(old(View()), cs, os, i);
        BootSection(cs[i], os[i]);
        i := i + 1;
      }
      assert cs[..i] == cs && os[..i] == os;
    }

    method BootSection(c: ConfId, o: Outcome)
      requires c in confs
      modifies this
      ensures View() == BootOne(old(View()), c, o)
    {
      var conf := confs[c];
      var v := CreateVmEntry(c);
      if conf.boot == NO {
        return;
      }
      if conf.bootDelay > 0 {
        SetTimer(v, conf.bootDelay, o.timerOk);
        return;
      }
      var _ := StartVirtualMachine(v, o);
    }
  }

  /** One step through the list of events. */
  lemma DropDone(events: seq<Event>, i: nat, k: Selection)
    requires i == |events|
    ensures events[..i] + Drop(events[i..], k) == events
  {
  }

  lemma DropChosen(events: seq<Event>, i: nat, k: Selection)
    requires i < |events| && Selects(k, events[i])
    ensures var less := events[..i] + events[i + 1..];
      i <= |less| && less[..i] + Drop(less[i..], k) == events[..i] + Drop(events[i..], k)
  {
    var less := events[..i] + events[i + 1..];
    assert events[i..][1..] == events[i + 1..];
    assert less[..i] == events[..i] && less[i..] == events[i + 1..];
  }

  lemma DropKept(events: seq<Event>, i: nat, k: Selection)
    requires i < |events| && !Selects(k, events[i])
    ensures events[..i + 1] + Drop(events[i + 1..], k) == events[..i] + Drop(events[i..], k)
  {
    assert events[i..][1..] == events[i + 1..];
    assert events[..i + 1] == events[..i] + [events[i]];
  }

  lemma OneTapLess(taps: map<Tap, VmId>, list: seq<Option<Tap>>, i: nat)
    requires i < |list|
    ensures taps - TapSet(list[..i + 1]) ==
            (taps - TapSet(list[..i])) - if list[i].Some? then {list[i].value} else {}
  {
    assert list[..i + 1] == list[..i] + [list[i]];
    assert TapSet(list[..i + 1]) == TapSet(list[..i]) + if list[i].Some? then {list[i].value} else {};
  }

  lemma TapSetUpdate(list: seq<Option<Tap>>, i: nat, t: Tap)
    requires i < |list| && list[i] == None
    ensures TapSet(list[i := Some(t)]) == TapSet(list) + {t}
  {
    var next := list[i := Some(t)];
    forall s ensures Some(s) in next <==> Some(s) in list || s == t {
      if Some(s) in list {
        var j :| 0 <= j < |list| && list[j] == Some(s);
        assert next[j] == Some(s);
      }
      assert next[i] == Some(t);
    }
  }

  lemma GrantOne(m: map<Tap, VmId>, s: set<Tap>, t: Tap, v: VmId)
    ensures Granted(m, s + {t}, v) == Granted(m, s, v)[t := v]
  {
  }

  lemma MatchNext(w: World, ids: seq<ConfId>, loaded: seq<Loaded>, i: nat)
    requires i < |ids| == |loaded| && forall c :: c in ids ==> c in w.confs
    ensures MatchAll(w, ids[..i + 1], loaded[..i + 1]) ==
            MatchOne(MatchAll(w, ids[..i], loaded[..i]), ids[i], loaded[i].differs, loaded[i].o)
  {
    assert ids[..i + 1][..i] == ids[..i] && loaded[..i + 1][..i] == loaded[..i];
  }

  lemma LookupNext(w: World, list: seq<VmId>, i: nat, name: string)
    requires i < |list|
    ensures Lookup(w, list[i..], name) ==
            if HasName(w, list[i], name) then Some(list[i]) else Lookup(w, list[i + 1..], name)
  {
    assert list[i..][1..] == list[i + 1..];
  }

  /** How far the creation of taps has come after `i` answers. */
  ghost predicate Attempting(results: seq<TapResult>, i: nat, list: seq<Option<Tap>>, ok: bool)
    requires i <= |results|
  {
    if ok then list == TapsAttempted(results[..i]) + NoTaps(|results| - i) && TapsSucceed(results[..i])
    else list == TapsAttempted(results) && !TapsSucceed(results)
  }

  lemma AttemptDone(results: seq<TapResult>, list: seq<Option<Tap>>, ok: bool)
    requires Attempting(results, |results|, list, ok)
    ensures list == TapsAttempted(results) && (ok <==> TapsSucceed(results))
  {
    assert results[..|results|] == results;
  }

  lemma AttemptStep(results: seq<TapResult>, i: nat, list: seq<Option<Tap>>)
    requires i < |results| == |list| && Attempting(results, i, list, true)
    ensures var made := results[i].Created? || results[i].SetupFailed?;
      var next := if made then list[i := Some(results[i].tap)] else list;
      && TapSet(next) == (if made then TapSet(list) + {results[i].tap} else TapSet(list))
      && Attempting(results, i + 1, next, results[i].Created? || results[i].Skipped?)
  {
    SuccessGrows(results, i);
    AttemptGrows(results, i);
    var before, after := TapsAttempted(results[..i]), NoTaps(|results| - i - 1);
    assert NoTaps(|results| - i) == [None] + after;
    Placed(before, after, list);
    if results[i].Created? || results[i].SetupFailed? {
      TapSetUpdate(list, i, results[i].tap);
      assert list[i := Some(results[i].tap)] == before + [Some(results[i].tap)] + after;
    }
  }

  lemma Placed(before: seq<Option<Tap>>, after: seq<Option<Tap>>, list: seq<Option<Tap>>)
    requires list == before + ([None] + after)
    ensures list == before + [None] + after
  {
  }

  lemma {:induction false} SuccessGrows(results: seq<TapResult>, i: nat)
    requires i < |results|
    ensures TapsSucceed(results[..i + 1]) <==> TapsSucceed(results[..i]) && (results[i].Created? || results[i].Skipped?)
  {
    assert results[..i + 1] == results[..i] + [results[i]];
    if i > 0 {
      var rest := results[1..];
      assert rest[i - 1] == results[i];
      assert rest[..i - 1] == results[..i][1..];
      assert rest[..i] == results[..i + 1][1..];
      SuccessGrows(rest, i - 1);
    }
  }

  /** One more answer: how the attempt so far continues. */
  lemma {:induction false} AttemptGrows(results: seq<TapResult>, i: nat)
    requires i < |results| && TapsSucceed(results[..i])
    ensures var before, after := TapsAttempted(results[..i]), |results| - i - 1;
      match results[i]
      case Created(t) => TapsAttempted(results[..i + 1]) == before + [Some(t)]
      case Skipped => TapsAttempted(results[..i + 1]) == before + [None]
      case CreateFailed => TapsAttempted(results) == before + [None] + NoTaps(after) && !TapsSucceed(results)
      case SetupFailed(t) => TapsAttempted(results) == before + [Some(t)] + NoTaps(after) && !TapsSucceed(results)
  {
    assert results[..i + 1] == results[..i] + [results[i]];
    if i > 0 {
      var rest := results[1..];
      assert rest[i - 1] == results[i];
      assert rest[..i - 1] == results[..i][1..];
      assert rest[..i] == results[..i + 1][1..];
      AttemptGrows(rest, i - 1);
    }
  }
}
