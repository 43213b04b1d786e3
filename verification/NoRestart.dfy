/**
 A machine that is down and has no timer stays down until somebody boots it or the file is
 reloaded; what an exit leaves behind decides whether that is its situation.  And a machine
 that is being removed stays so until its child exits.
 */
module NoRestart {
  import opened DaemonState
  import opened Lifecycle
  import opened Handlers
  import opened Reload
  import opened ReloadProof
  import opened ReloadTheorems
  import opened Steps

  ghost predicate Quiet(w: World, v: VmId) {
    v in w.vms && w.vms[v].state == TERMINATE && !HasTimer(w, v)
  }

  /** What `u` does to its own events and entry is no matter to `v`. */
  lemma QuietFrame(w: World, w': World, u: VmId, v: VmId)
    requires Quiet(w, v) && u != v && OnlyVm(w, w', u)
    ensures Quiet(w', v)
  {
    forall e | IsTimerOf(e, v) ensures e !in w'.events {
      assert e !in w.events;
      assert multiset(w'.events)[e] == multiset(w.events)[e] == 0;
    }
  }

  lemma QuietRelease(w: World, e: Event, v: VmId)
    requires Quiet(w, v)
    ensures Quiet(Release(w, e), v)
  {
    var w' := Release(w, e);
    forall f | f in w'.events ensures f in w.events {
      assert multiset(w'.events)[f] > 0;
    }
  }

  lemma DeleteQuiet(w: World, u: VmId, v: VmId)
    requires Quiet(w, v) && u != v && u in w.vms
    ensures Quiet(DeleteEntry(w, u), v)
  {
  }

  lemma ExitQuiet(w: World, u: VmId, status: Status, o: Outcome, v: VmId)
    requires Quiet(w, v) && u != v && u in w.vms && w.vms[u].conf in w.confs
    ensures Quiet(OnVmExit(w, u, status, o), v)
  {
    var w0 := Reap(w, u);
    assert Quiet(w0, v);
    StartFrame(w0, u, o);
    QuietFrame(w0, Start(w0, u, o).0, u, v);
    StopFrame(w0, u, o.sockOk);
    var w1 := Stop(w0, u, o.sockOk);
    QuietFrame(w0, w1, u, v);
    match w.vms[u].state
    case RESTART =>
      var secs := Max(w.confs[w.vms[u].conf].bootDelay, 3);
      AddTimerFrame(w1, u, secs, o.timerOk);
      QuietFrame(w1, AddTimer(w1, u, secs, o.timerOk), u, v);
    case REMOVE => DeleteQuiet(w1, u, v);
    case _ =>
  }

  lemma TimerQuiet(w: World, u: VmId, o: Outcome, v: VmId)
    requires Quiet(w, v) && u != v && u in w.vms && w.vms[u].conf in w.confs
    ensures Quiet(OnTimer(w, u, o), v)
  {
    StartFrame(w, u, o);
    QuietFrame(w, Start(w, u, o).0, u, v);
  }

  lemma BootQuiet(w: World, u: VmId, conf: Conf, differs: bool, install: bool, o: Outcome, v: VmId)
    requires Quiet(w, v) && u != v && u in w.vms && w.vms[u].conf in w.confs && w.nextConf !in w.confs
    ensures Quiet(Start(PrepareBoot(w, u, conf, differs, install), u, o).0, v)
  {
    var w1 := PrepareBoot(w, u, conf, differs, install);
    assert Quiet(w1, v);
    StartFrame(w1, u, o);
    QuietFrame(w1, Start(w1, u, o).0, u, v);
  }

  lemma DownQuiet(w: World, name: string, allowed: bool, how: int, timerOk: bool, v: VmId)
    requires Quiet(w, v)
    ensures Quiet(DownCommand(w, name, allowed, how, timerOk).0, v)
  {
    var r := Lookup(w, w.vmList, name);
    if r.Some? && r.value != v {
      var u := r.value;
      AddTimerFrame(Term(w, u), u, w.confs[w.vms[u].conf].stopTimeout, timerOk);
      QuietFrame(Term(w, u), AddTimer(Term(w, u), u, w.confs[w.vms[u].conf].stopTimeout, timerOk), u, v);
    }
  }

  /** The two kinds of step that may start a machine which is down and has no timer. */
  ghost predicate MayStart(w: World, s: Step, v: VmId) {
    s.Reloads? || (s.Boot? && HasName(w, v, s.name))
  }

  lemma StaysQuiet(w: World, s: Step, v: VmId)
    requires Enabled(w, s) && Quiet(w, v) && !MayStart(w, s, v)
    ensures Quiet(Next(w, s), v)
  {
    match s
    case ChildExits(u, p, status, o) =>
      if u == v {
        assert OnVmExit(w, u, status, o) == Reap(w, u);
      } else {
        ExitQuiet(w, u, status, o, v);
      }
      QuietRelease(OnVmExit(w, u, status, o), Exit(u, p), v);
    case TimerFires(e, o) =>
      assert e.vm != v;
      TimerQuiet(w, e.vm, o, v);
      QuietRelease(OnTimer(w, e.vm, o), e, v);
    case Boot(name, allowed, install, loaded, differs, o) =>
      if BootStarts(w, name, allowed, loaded) {
        BootQuiet(w, Lookup(w, w.vmList, name).value, loaded.value, differs, install, o, v);
      }
    case Down(name, allowed, how, timerOk) => DownQuiet(w, name, allowed, how, timerOk, v);
  }

  /** Along every run, whatever fails in it, a quiet machine stays down until it is booted or a reload happens. */
  lemma {:induction false} NoSpontaneousRestart(ws: seq<World>, ss: seq<Step>, v: VmId, n: nat)
    requires Run(ws, ss) && Quiet(ws[0], v) && n < |ws|
    requires forall i :: 0 <= i < n ==> !MayStart(ws[i], ss[i], v)
    ensures Quiet(ws[n], v)
  {
    if n > 0 {
      NoSpontaneousRestart(ws, ss, v, n - 1);
      StaysQuiet(ws[n - 1], ss[n - 1], v);
    }
  }

  // ---------------------------------------------------------------- what an exit leaves behind

  /** A stop that was asked for, a failed load and a run that is not to be repeated leave no timer. */
  lemma ExitLeavesQuiet(w: World, v: VmId, p: Pid, status: Status, o: Outcome)
    requires Enabled(w, ChildExits(v, p, status, o)) && !Restarts(w, v, status)
    requires w.vms[v].state in {LOAD, RUN, STOP}
    ensures Quiet(Next(w, ChildExits(v, p, status, o)), v)
  {
    StopFrame(Reap(w, v), v, o.sockOk);
    QuietRelease(OnVmExit(w, v, status, o), Exit(v, p), v);
  }

  /** After the exit of a machine to be restarted exactly one timer is pending for it, of at least three seconds. */
  lemma RestartArmsOneTimer(w: World, v: VmId, p: Pid, status: Status, o: Outcome)
    requires Readable(w, v) && Exit(v, p) in w.events && w.vms[v].state == RESTART && o.timerOk
    ensures var w' := Release(OnVmExit(w, v, status, o), Exit(v, p));
      && v in w'.vms && w'.vms[v].state == TERMINATE
      && OnlyTimer(w'.events, Timer(v, w.lastTimer + 1, Max(w.confs[w.vms[v].conf].bootDelay, 3)))
  {
    var secs := Max(w.confs[w.vms[v].conf].bootDelay, 3);
    StopTimers(Reap(w, v), v, o.sockOk);
    DropKeepsExit(w.events, v, Exit(v, p));
    var w1 := Stop(Reap(w, v), v, o.sockOk);
    var t := Timer(v, w.lastTimer + 1, secs);
    AddThenRelease(w1.events, t, Exit(v, p));
    assert OnVmExit(w, v, status, o).events == [t] + w1.events;
  }

  lemma StopTimers(w: World, v: VmId, sockOk: bool)
    requires v in w.vms
    ensures var w1 := Stop(w, v, sockOk);
      && w1.events == Drop(w.events, TimersOf(v)) && w1.lastTimer == w.lastTimer
      && v in w1.vms && w1.vms[v].state == TERMINATE
  {
  }

  /** `t` is pending once, and no other timer of its machine is. */
  ghost predicate OnlyTimer(events: seq<Event>, t: Event) {
    forall e: Event :: IsTimerOf(e, t.vm) ==> (multiset(events)[e] == if e == t then 1 else 0)
  }

  lemma AddThenRelease(s: seq<Event>, t: Event, e: Event)
    requires t.Timer? && e.Exit? && e in s && forall f :: f in s ==> !IsTimerOf(f, t.vm)
    ensures e in [t] + s && OnlyTimer(RemoveOldest([t] + s, e), t)
  {
    assert multiset([t] + s) == multiset{t} + multiset(s);
    forall f: Event | IsTimerOf(f, t.vm) ensures multiset(s)[f] == 0 {
      assert f !in s;
    }
  }

  /**
   When an exit is to be followed by another start, and the start method fails or the new child or
   its output cannot be watched, the machine ends up down with the timers it had: it is quiet exactly
   if it had none.
   */
  lemma FailedRestartKeepsTimers(w: World, v: VmId, p: Pid, status: Status, o: Outcome)
    requires Enabled(w, ChildExits(v, p, status, o)) && Restarts(w, v, status)
    requires o.found && (o.spawn.None? || !o.exitOk || !o.outputOk)
    ensures var w' := Next(w, ChildExits(v, p, status, o));
      && v in w'.vms && w'.vms[v].state == TERMINATE
      && (Quiet(w', v) <==> !HasTimer(w, v))
  {
    var w1 := OnVmExit(w, v, status, o);
    FailedStartEvents(w, v, status, o);
    ReleaseKeepsTimers(w1, Exit(v, p), v);
  }

  lemma FailedStartEvents(w: World, v: VmId, status: Status, o: Outcome)
    requires Readable(w, v) && Restarts(w, v, status)
    requires o.found && (o.spawn.None? || !o.exitOk || !o.outputOk)
    ensures var w1 := OnVmExit(w, v, status, o);
      && v in w1.vms && w1.vms[v].state == TERMINATE
      && (w1.events == w.events || (o.spawn.Some? && w1.events == [Exit(v, o.spawn.value)] + w.events))
  {
    var w0 := Reap(w, v);
    assert OnVmExit(w, v, status, o) == Launch(w0, v, o).0;
    FailedLaunchEvents(w0, v, o);
  }

  lemma FailedLaunchEvents(w: World, v: VmId, o: Outcome)
    requires Readable(w, v) && (o.spawn.None? || !o.exitOk || !o.outputOk)
    ensures var w1 := Launch(w, v, o).0;
      && v in w1.vms && w1.vms[v].state == TERMINATE
      && (w1.events == w.events || (o.spawn.Some? && w1.events == [Exit(v, o.spawn.value)] + w.events))
  {
    var target := StartTarget(w.vms[v].state, w.confs[w.vms[v].conf].loader);
    if target.None? || o.spawn.None? {
      CleanupEvents(w, v, o.sockOk);
    } else {
      var p := o.spawn.value;
      var w1 := Spawn(w, v, p, target.value);
      CleanupEvents(Reap(Kill(if o.exitOk then Watch(w1, v, p) else w1, v), v), v, o.sockOk);
    }
  }

  lemma CleanupEvents(w: World, v: VmId, sockOk: bool)
    requires v in w.vms
    ensures var w1 := Cleanup(w, v, sockOk); v in w1.vms && w1.vms[v].state == TERMINATE && w1.events == w.events
  {
  }

  lemma ReleaseKeepsTimers(w: World, e: Event, v: VmId)
    requires e.Exit?
    ensures HasTimer(Release(w, e), v) <==> HasTimer(w, v)
  {
    var w' := Release(w, e);
    forall f | IsTimerOf(f, v) ensures f in w.events <==> f in w'.events {
      if e in w.events { assert multiset(w'.events)[f] == multiset(w.events)[f]; }
    }
  }

  // ---------------------------------------------------------------- removal

  ghost predicate Removing(w: World, v: VmId, p: Pid) {
    v in w.vms && v < w.nextVm && w.vms[v].state == REMOVE && w.vms[v].pid == p
  }

  predicate ExitOf(s: Step, v: VmId) { s.ChildExits? && s.v == v }

  lemma RemovingFrame(w: World, w': World, u: VmId, v: VmId, p: Pid)
    requires Removing(w, v, p) && u != v && OnlyVm(w, w', u)
    ensures Removing(w', v, p)
  {
  }

  lemma MatchOneRemoving(w: World, c: ConfId, differs: bool, o: Outcome, v: VmId, p: Pid)
    requires c in w.confs && Removing(w, v, p)
    ensures Removing(MatchOne(w, c, differs, o), v, p)
  {
    var found := Lookup(w, w.vmList, w.confs[c].name);
    if found.None? {
      StartFrame(SetNewConf(CreateEntry(w, c), w.nextVm, c), w.nextVm, o);
    } else if found.value != v {
      OtherUntouched(SetNewConf(w, found.value, c), found.value, c, o, v);
    }
  }

  lemma {:induction false} MatchAllRemoving(w: World, cs: seq<ConfId>, loaded: seq<Loaded>, v: VmId, p: Pid)
    requires |cs| == |loaded| && (forall c :: c in cs ==> c in w.confs) && Removing(w, v, p)
    ensures Removing(MatchAll(w, cs, loaded), v, p)
  {
    if cs != [] {
      var n := |cs| - 1;
      assert cs[n] in cs && forall c :: c in cs[..n] ==> c in cs;
      MatchAllRemoving(w, cs[..n], loaded[..n], v, p);
      MatchOneRemoving(MatchAll(w, cs[..n], loaded[..n]), cs[n], loaded[n].differs, loaded[n].o, v, p);
    }
  }

  lemma {:induction false} SettleAllRemoving(w: World, vs: seq<VmId>, noTimer: set<VmId>, v: VmId, p: Pid)
    requires Removing(w, v, p)
    ensures Removing(SettleAll(w, vs, noTimer), v, p)
  {
    if vs != [] {
      var n := |vs| - 1;
      SettleAllRemoving(w, vs[..n], noTimer, v, p);
      var w1 := SettleAll(w, vs[..n], noTimer);
      if vs[n] in w1.vms { SettleOneFrame(w1, vs[n], vs[n] !in noTimer); }
    }
  }

  lemma ReloadRemoving(b: World, ids: seq<ConfId>, loaded: seq<Loaded>, noTimer: set<VmId>, v: VmId, p: Pid)
    requires |ids| == |loaded| && (forall c :: c in ids ==> c in b.confs) && Removing(b, v, p)
    ensures Removing(Reconcile(b, ids, loaded, noTimer), v, p)
  {
    MatchAllRemoving(b, ids, loaded, v, p);
    var w1 := MatchAll(b, ids, loaded);
    SettleAllRemoving(w1, w1.vmList, noTimer, v, p);
    var w2 := SettleAll(w1, w1.vmList, noTimer);
    FreeAllFaults(w2, w2.confList);
  }

  lemma ExitRemoving(w: World, u: VmId, status: Status, o: Outcome, v: VmId, p: Pid)
    requires Removing(w, v, p) && u != v && u in w.vms && w.vms[u].conf in w.confs
    ensures Removing(OnVmExit(w, u, status, o), v, p)
  {
    var w0 := Reap(w, u);
    if Restarts(w, u, status) {
      StartFrame(w0, u, o);
      RemovingFrame(w0, Start(w0, u, o).0, u, v, p);
    } else {
      StopRemoving(w0, u, o.sockOk, v, p);
    }
  }

  lemma StopRemoving(w: World, u: VmId, sockOk: bool, v: VmId, p: Pid)
    requires Removing(w, v, p) && u != v && u in w.vms
    ensures Removing(Stop(w, u, sockOk), v, p)
  {
  }

  lemma TimerRemoving(w: World, u: VmId, o: Outcome, v: VmId, p: Pid)
    requires Removing(w, v, p) && u in w.vms && w.vms[u].conf in w.confs
    ensures Removing(OnTimer(w, u, o), v, p)
  {
    if u != v && w.vms[u].state == TERMINATE {
      StartFrame(w, u, o);
      RemovingFrame(w, Start(w, u, o).0, u, v, p);
    }
  }

  lemma BootRemoving(w: World, u: VmId, conf: Conf, differs: bool, install: bool, o: Outcome, v: VmId, p: Pid)
    requires Removing(w, v, p) && u != v && u in w.vms && w.vms[u].conf in w.confs && w.nextConf !in w.confs
    ensures Removing(Start(PrepareBoot(w, u, conf, differs, install), u, o).0, v, p)
  {
    var w1 := PrepareBoot(w, u, conf, differs, install);
    StartFrame(w1, u, o);
    RemovingFrame(w1, Start(w1, u, o).0, u, v, p);
  }

  lemma DownRemoving(w: World, name: string, allowed: bool, how: int, timerOk: bool, v: VmId, p: Pid)
    requires Removing(w, v, p)
    ensures Removing(DownCommand(w, name, allowed, how, timerOk).0, v, p)
  {
  }

  /**
   Removal is absorbing: whatever happens, clean or not, a machine that is being removed stays so
   with the same child until that child exits.
   */
  lemma RemovalAbsorbs(w: World, s: Step, v: VmId, p: Pid)
    requires Enabled(w, s) && Removing(w, v, p) && !ExitOf(s, v)
    ensures Removing(Next(w, s), v, p)
  {
    match s
    case ChildExits(u, q, status, o) => ExitRemoving(w, u, status, o, v, p);
    case TimerFires(e, o) => TimerRemoving(w, e.vm, o, v, p);
    case Boot(name, allowed, install, loaded, differs, o) =>
      if BootStarts(w, name, allowed, loaded) {
        BootRemoving(w, Lookup(w, w.vmList, name).value, loaded.value, differs, install, o, v, p);
      }
    case Down(name, allowed, how, timerOk) => DownRemoving(w, name, allowed, how, timerOk, v, p);
    case Reloads(sections, noTimer) =>
      ReloadRemoving(Begin(w, sections), Ids(w.nextConf, |sections|), sections, noTimer, v, p);
  }

  /** Along every run, clean or not, up to the exit of that child. */
  lemma {:induction false} RemovalPersists(ws: seq<World>, ss: seq<Step>, v: VmId, p: Pid, n: nat)
    requires Run(ws, ss) && Removing(ws[0], v, p) && n < |ws|
    requires forall i :: 0 <= i < n ==> !ExitOf(ss[i], v)
    ensures Removing(ws[n], v, p)
  {
    if n > 0 {
      RemovalPersists(ws, ss, v, p, n - 1);
      RemovalAbsorbs(ws[n - 1], ss[n - 1], v, p);
    }
  }

  /** And that exit deletes the entry. */
  lemma ExitRemoves(w: World, v: VmId, p: Pid, status: Status, o: Outcome)
    requires Inv(w) && Enabled(w, ChildExits(v, p, status, o)) && w.vms[v].state == REMOVE
    ensures var w' := Next(w, ChildExits(v, p, status, o));
      && v !in w'.vms && v !in w'.vmList && w.vms[v].conf !in w'.confs && p !in w'.children
      && (forall e :: e in w'.events ==> e.vm != v)
  {
    FiredExit(w, v, p);
    RemoveExitLocal(w, v, o.sockOk);
    ExitDeletes(w, v, p, status, o);
  }

  lemma ExitDeletes(w: World, v: VmId, p: Pid, status: Status, o: Outcome)
    requires Readable(w, v) && w.vms[v].state == REMOVE && w.vms[v].pid == p
    requires forall e :: e in DeleteEntry(Stop(Reap(w, v), v, o.sockOk), v).events ==> e.vm != v
    ensures var w' := Release(OnVmExit(w, v, status, o), Exit(v, p));
      && v !in w'.vms && v !in w'.vmList && w.vms[v].conf !in w'.confs && p !in w'.children
      && (forall e :: e in w'.events ==> e.vm != v)
  {
    assert Exit(v, p) !in OnVmExit(w, v, status, o).events;
  }
}
