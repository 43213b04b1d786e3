/**
 What each callback and each command does to the machine it is about: which child is forked, which
 signal is sent, which timer is armed, and in which state the machine ends.
 */
module Answers {
  import opened Options
  import opened DaemonState
  import opened Resources
  import opened Lifecycle
  import opened ReloadProof

  // ------------------------------------------------------------------- starting

  /** The machine is to be loaded before its guest can run. */
  predicate LoadsFirst(w: World, v: VmId)
    requires v in w.vms && w.vms[v].conf in w.confs
  {
    w.vms[v].state != LOAD && w.confs[w.vms[v].conf].loader in {BhyveLoad, Grub}
  }

  /** A child is forked, and stays if it can be watched. */
  predicate Forks(w: World, v: VmId, o: Outcome)
    requires v in w.vms && w.vms[v].conf in w.confs
  {
    Prepared(w, v, o) && o.spawn.Some? && (w.vms[v].state == LOAD || w.confs[w.vms[v].conf].loader != Unknown)
  }

  /** The new timer, if there is to be one and it can be registered. */
  function NewTimer(w: World, v: VmId, wanted: bool, secs: int, ok: bool): seq<Event> {
    if wanted && ok then [Timer(v, w.lastTimer + 1, secs)] else []
  }

  /**
   From the start method on.  A child that is forked and can be watched is a loader, in the state LOAD
   and with the loader's timeout, if there is something to load first, and the guest, in the state
   RUN, if not.  In every other case no child is left and the machine is down.
   */
  ghost predicate Brought(w: World, v: VmId, o: Outcome, forks: bool, w': World)
    requires v in w.vms && w.vms[v].conf in w.confs && (forks ==> o.spawn.Some?)
  {
    var conf, loads := w.confs[w.vms[v].conf], LoadsFirst(w, v);
    && v in w'.vms && w'.confs == w.confs
    && if forks && o.exitOk && o.outputOk then
         var p, timed := o.spawn.value, loads && conf.loaderTimeout > 0;
         && w'.vms[v].state == (if loads then LOAD else RUN) && w'.vms[v].pid == p
         && w'.children == w.children[p := Child(v, loads, false, false, false)]
         && w'.events == NewTimer(w, v, timed, conf.loaderTimeout, o.timerOk) + ([Exit(v, p)] + w.events)
         && w'.lastTimer == w.lastTimer + (if timed then 1 else 0)
       else
         && w'.vms[v].state == TERMINATE && w'.vms[v].pid == (if forks then o.spawn.value else w.vms[v].pid)
         && w'.children == w.children
         && w'.events == (if forks && o.exitOk then [Exit(v, o.spawn.value)] else []) + w.events
         && w'.lastTimer == w.lastTimer
  }

  /** A start of `v`; a failed lookup leaves everything as it is. */
  ghost predicate Started(w: World, v: VmId, o: Outcome, w': World)
    requires v in w.vms && w.vms[v].conf in w.confs
  {
    if o.found then Brought(w, v, o, Forks(w, v, o), w') else w' == w
  }

  /** It is reported as done if the child can be watched and a timeout that is wanted can be registered. */
  predicate StartDone(w: World, v: VmId, o: Outcome)
    requires v in w.vms && w.vms[v].conf in w.confs
  {
    && Forks(w, v, o) && o.exitOk && o.outputOk
    && (LoadsFirst(w, v) && w.confs[w.vms[v].conf].loaderTimeout > 0 ==> o.timerOk)
  }

  lemma StartAnswers(w: World, v: VmId, o: Outcome)
    requires v in w.vms && w.vms[v].conf in w.confs && Fresh(w, o)
    ensures Started(w, v, o, Start(w, v, o).0) && (Start(w, v, o).1 <==> StartDone(w, v, o))
  {
    if o.found {
      if w.vms[v].state == TERMINATE {
        PrepareAnswers(w, v, o);
        PrepareFrame(w, v, o);
        var (w1, ok) := PrepareTaps(w, v, o);
        if ok { LaunchAnswers(w1, v, o); }
      } else {
        LaunchAnswers(w, v, o);
      }
    }
  }

  ghost function StartVerdict(w: World, v: VmId, o: Outcome, w': World, ok: bool): Health
    requires v in w.vms && w.vms[v].conf in w.confs
  {
    if Started(w, v, o, w') && (ok <==> StartDone(w, v, o)) then Well else Ill
  }

  lemma StartJudged(w: World, v: VmId, o: Outcome)
    requires v in w.vms && w.vms[v].conf in w.confs && Fresh(w, o)
    ensures StartVerdict(w, v, o, Start(w, v, o).0, Start(w, v, o).1) == Well
  {
    StartAnswers(w, v, o);
  }

  /** Nothing but the entry of `v` and the interfaces changes, and the entry keeps its state. */
  ghost predicate OnlyTaps(w: World, w': World, v: VmId) {
    && v in w.vms && v in w'.vms && w'.vms[v].state == w.vms[v].state && w'.vms[v].conf == w.vms[v].conf
    && w'.vms[v].pid == w.vms[v].pid && w'.children == w.children && w'.events == w.events
    && w'.lastTimer == w.lastTimer && w'.confs == w.confs
  }

  lemma RemoveOnlyTaps(w: World, v: VmId, sockOk: bool)
    requires v in w.vms
    ensures OnlyTaps(w, RemoveTaps(w, v, sockOk), v)
  {
  }

  lemma AssignAnswers(w: World, v: VmId, o: Outcome)
    requires v in w.vms
    ensures var (w1, ok) := AssignTaps(w, v, o);
      OnlyTaps(w, w1, v) && ok == (w.vms[v].taps == [] ==> o.netsOk && TapsSucceed(o.taps))
  {
    if w.vms[v].taps == [] && o.netsOk {
      var w1 := GiveTaps(w, v, TapsAttempted(o.taps));
      assert OnlyTaps(w, w1, v);
      RemoveOnlyTaps(w1, v, o.sockOk);
    }
  }

  lemma PrepareAnswers(w: World, v: VmId, o: Outcome)
    requires v in w.vms && w.vms[v].state == TERMINATE && o.found
    ensures var (w1, ok) := PrepareTaps(w, v, o); OnlyTaps(w, w1, v) && ok == Prepared(w, v, o)
  {
    AssignAnswers(w, v, o);
    RemoveOnlyTaps(AssignTaps(w, v, o).0, v, o.sockOk);
  }

  lemma CleanupAnswers(w: World, v: VmId, sockOk: bool)
    requires v in w.vms
    ensures var w' := Cleanup(w, v, sockOk);
      && v in w'.vms && w'.vms[v].state == TERMINATE && w'.vms[v].pid == w.vms[v].pid
      && w'.children == w.children && w'.events == w.events && w'.lastTimer == w.lastTimer && w'.confs == w.confs
  {
  }

  lemma UndoSpawn(w: World, v: VmId, p: Pid, s: State, watched: bool)
    requires v in w.vms && p !in w.children
    ensures var w1 := Spawn(w, v, p, s);
      var w2 := Reap(Kill(if watched then Watch(w1, v, p) else w1, v), v);
      && v in w2.vms && w2.vms[v].pid == p && w2.children == w.children
      && w2.lastTimer == w.lastTimer && w2.confs == w.confs
      && w2.events == (if watched then [Exit(v, p)] else []) + w.events
  {
  }

  lemma LaunchAnswers(w: World, v: VmId, o: Outcome)
    requires v in w.vms && w.vms[v].conf in w.confs && (o.spawn.Some? ==> o.spawn.value !in w.children)
    ensures var forks := o.spawn.Some? && (w.vms[v].state == LOAD || w.confs[w.vms[v].conf].loader != Unknown);
      && Brought(w, v, o, forks, Launch(w, v, o).0)
      && (Launch(w, v, o).1 <==>
          && forks && o.exitOk && o.outputOk
          && (LoadsFirst(w, v) && w.confs[w.vms[v].conf].loaderTimeout > 0 ==> o.timerOk))
  {
    var target := StartTarget(w.vms[v].state, w.confs[w.vms[v].conf].loader);
    assert target.Some? <==> w.vms[v].state == LOAD || w.confs[w.vms[v].conf].loader != Unknown;
    if target.None? || o.spawn.None? {
      CleanupAnswers(w, v, o.sockOk);
      assert [] + w.events == w.events;
    } else if !o.exitOk || !o.outputOk {
      FailedLaunch(w, v, o, target.value);
    } else {
      WatchedLaunch(w, v, o, target.value);
    }
  }

  lemma FailedLaunch(w: World, v: VmId, o: Outcome, s: State)
    requires v in w.vms && w.vms[v].conf in w.confs && o.spawn.Some? && o.spawn.value !in w.children
    requires StartTarget(w.vms[v].state, w.confs[w.vms[v].conf].loader) == Some(s) && (!o.exitOk || !o.outputOk)
    ensures Brought(w, v, o, true, Launch(w, v, o).0) && !Launch(w, v, o).1
  {
    var p := o.spawn.value;
    UndoSpawn(w, v, p, s, o.exitOk);
    var w1 := Spawn(w, v, p, s);
    CleanupAnswers(Reap(Kill(if o.exitOk then Watch(w1, v, p) else w1, v), v), v, o.sockOk);
  }

  lemma WatchedLaunch(w: World, v: VmId, o: Outcome, s: State)
    requires v in w.vms && w.vms[v].conf in w.confs && o.spawn.Some? && o.exitOk && o.outputOk
    requires StartTarget(w.vms[v].state, w.confs[w.vms[v].conf].loader) == Some(s)
    ensures Brought(w, v, o, true, Launch(w, v, o).0)
    ensures Launch(w, v, o).1 <==> (LoadsFirst(w, v) && w.confs[w.vms[v].conf].loaderTimeout > 0 ==> o.timerOk)
  {
    assert (s == LOAD) == LoadsFirst(w, v) && s in {LOAD, RUN};
    assert [] + ([Exit(v, o.spawn.value)] + w.events) == [Exit(v, o.spawn.value)] + w.events;
  }

  // ------------------------------------------------------------------- exits

  /** The larger of the two. */
  predicate IsMax(m: int, a: int, b: int) {
    a <= m && b <= m && (m == a || m == b)
  }

  /** The machine is down, its child is reaped and its timers are dropped, but for a new one. */
  ghost predicate PutDown(w: World, v: VmId, timer: seq<Event>, w': World)
    requires v in w.vms
  {
    && v in w'.vms && w'.vms[v].state == TERMINATE && w'.vms[v].pid == w.vms[v].pid
    && w'.children == w.children - {w.vms[v].pid} && w'.events == timer + Drop(w.events, TimersOf(v))
  }

  /**
   The exit of a child, before its event is released.  A loaded machine goes on to its guest.  A guest
   is started again exactly if it was not being installed and its process exited, with any code where
   `boot` is "always", and with 0 where the backend is bhyve.  After any other exit the machine is
   down, without a timer unless it is to be restarted, and no longer installing if a guest has ended.
   */
  ghost predicate ExitTable(w: World, v: VmId, status: Status, o: Outcome, w': World)
    requires v in w.vms && w.vms[v].conf in w.confs
  {
    var vm, conf := w.vms[v], w.confs[w.vms[v].conf];
    var w0 := w.(children := w.children - {vm.pid});
    match vm.state
    case TERMINATE => w' == w0
    case LOAD =>
      if status == Exited(0) then Started(w0, v, o, w')
      else PutDown(w, v, [], w') && w'.confs == w.confs
    case RUN =>
      if !conf.install && status.Exited? && (conf.boot == ALWAYS || (conf.bhyve && status.code == 0))
      then Started(w0, v, o, w')
      else PutDown(w, v, [], w') && w'.confs == w.confs[vm.conf := conf.(install := false)]
    case STOP => PutDown(w, v, [], w') && w'.confs == w.confs[vm.conf := conf.(install := false)]
    case RESTART =>
      && w'.confs == w.confs
      && exists secs :: IsMax(secs, conf.bootDelay, 3) &&
           PutDown(w, v, NewTimer(w, v, true, secs, o.timerOk), w')
    case REMOVE => v !in w'.vms && vm.conf !in w'.confs && w'.children == w.children - {vm.pid}
  }

  lemma ExitAnswers(w: World, v: VmId, status: Status, o: Outcome)
    requires v in w.vms && w.vms[v].conf in w.confs && Fresh(Reap(w, v), o)
    ensures ExitTable(w, v, status, o, OnVmExit(w, v, status, o))
  {
    match w.vms[v].state
    case TERMINATE =>
    case LOAD => GoOnOrStop(w, v, status == Exited(0), o);
    case RUN => GoOnOrStop(w, v, ShouldRestart(w.confs[w.vms[v].conf], status), o);
    case STOP => StopAnswers(w, v, o.sockOk);
    case RESTART => RestartAnswers(w, v, status, o);
    case REMOVE => RemoveAnswers(w, v, o.sockOk);
  }

  lemma GoOnOrStop(w: World, v: VmId, again: bool, o: Outcome)
    requires v in w.vms && w.vms[v].conf in w.confs && Fresh(Reap(w, v), o)
    ensures again ==> Started(w.(children := w.children - {w.vms[v].pid}), v, o, Start(Reap(w, v), v, o).0)
    ensures !again ==> PutDown(w, v, [], Stop(Reap(w, v), v, o.sockOk))
    ensures Stop(Reap(w, v), v, o.sockOk).confs == w.confs
  {
    StartAnswers(Reap(w, v), v, o);
    StopAnswers(w, v, o.sockOk);
  }

  lemma RestartAnswers(w: World, v: VmId, status: Status, o: Outcome)
    requires v in w.vms && w.vms[v].conf in w.confs && w.vms[v].state == RESTART
    ensures var w' := OnVmExit(w, v, status, o);
      && w'.confs == w.confs
      && exists secs :: IsMax(secs, w.confs[w.vms[v].conf].bootDelay, 3) &&
           PutDown(w, v, NewTimer(w, v, true, secs, o.timerOk), w')
  {
    StopAnswers(w, v, o.sockOk);
    var secs := Max(w.confs[w.vms[v].conf].bootDelay, 3);
    assert IsMax(secs, w.confs[w.vms[v].conf].bootDelay, 3);
    assert PutDown(w, v, NewTimer(w, v, true, secs, o.timerOk), OnVmExit(w, v, status, o));
  }

  lemma RemoveAnswers(w: World, v: VmId, sockOk: bool)
    requires v in w.vms
    ensures var w' := DeleteEntry(Stop(Reap(w, v), v, sockOk), v);
      v !in w'.vms && w.vms[v].conf !in w'.confs && w'.children == w.children - {w.vms[v].pid}
  {
    StopAnswers(w, v, sockOk);
  }

  lemma StopAnswers(w: World, v: VmId, sockOk: bool)
    requires v in w.vms
    ensures var w' := Stop(Reap(w, v), v, sockOk);
      && PutDown(w, v, [], w') && w'.vms[v].conf == w.vms[v].conf && w'.confs == w.confs && w'.lastTimer == w.lastTimer
  {
    assert [] + Drop(w.events, TimersOf(v)) == Drop(w.events, TimersOf(v));
  }

  /** The table as a value, to be carried through the methods of the daemon as a whole. */
  ghost function ExitVerdict(w: World, v: VmId, status: Status, o: Outcome, w': World): Health
    requires v in w.vms && w.vms[v].conf in w.confs
  {
    if ExitTable(w, v, status, o, w') then Well else Ill
  }

  lemma ExitJudged(w: World, v: VmId, status: Status, o: Outcome)
    requires v in w.vms && w.vms[v].conf in w.confs && Fresh(Reap(w, v), o)
    ensures ExitVerdict(w, v, status, o, OnVmExit(w, v, status, o)) == Well
  {
    ExitAnswers(w, v, status, o);
  }

  // ------------------------------------------------------------------- signals

  /** A signal goes astray exactly if the machine has no child of its own; a suspend request goes by name. */
  lemma SignalStray(w: World, v: VmId)
    requires v in w.vms && StraySignal !in w.faults
    ensures StraySignal in Term(w, v).faults <==> !OwnsChild(w, v)
    ensures StraySignal in Kill(w, v).faults <==> !OwnsChild(w, v) && w.vms[v].state == LOAD
    ensures OwnsChild(w, v) ==> Term(w, v).children[w.vms[v].pid].termed && Term(w, v).children.Keys == w.children.Keys
  {
    assert OwnsChild(w, v) ==> Term(w, v).children.Keys == w.children.Keys;
  }

  // ------------------------------------------------------------------- timers

  /**
   A timer, before it is released: a machine that is down is started, a loader is killed, a guest that
   runs is left alone, and a machine that was asked to stop is asked to suspend.
   */
  ghost predicate TimerTable(w: World, v: VmId, o: Outcome, w': World)
    requires v in w.vms && w.vms[v].conf in w.confs
  {
    var vm := w.vms[v];
    match vm.state
    case TERMINATE => Started(w, v, o, w')
    case RUN => w' == w
    case LOAD =>
      OwnsChild(w, v) ==> w' == w.(children := w.children[vm.pid := w.children[vm.pid].(killed := true)])
    case _ =>
      OwnsChild(w, v) ==> w' == w.(children := w.children[vm.pid := w.children[vm.pid].(suspended := true)])
  }

  lemma TimerAnswers(w: World, v: VmId, o: Outcome)
    requires v in w.vms && w.vms[v].conf in w.confs && Fresh(w, o)
    ensures TimerTable(w, v, o, OnTimer(w, v, o))
  {
    StartAnswers(w, v, o);
  }

  // ------------------------------------------------------------------- commands

  /** The configuration that a boot or install command starts a machine with. */
  function BootConf(old_: Conf, loaded: Conf, differs: bool, install: bool): Conf {
    var conf := if differs then loaded else old_;
    if install then conf.(install := true) else conf
  }

  /**
   A boot or install command.  The machine must be there, be the caller's and be down, and the file
   must have it; then it is started with the section of the file if that has changed, and marked as
   installing exactly if that is asked for or was so before.
   */
  lemma BootAnswers(w: World, name: string, allowed: bool, install: bool, loaded: Option<Conf>, differs: bool,
                    o: Outcome)
    requires (loaded.Some? ==> w.nextConf !in w.confs) && Fresh(w, o)
    ensures var r := Lookup(w, w.vmList, name);
      var (w', reply) := BootCommand(w, name, allowed, install, loaded, differs, o);
      if r.None? || !allowed then w' == w && reply == NotFound
      else if w.vms[r.value].state != TERMINATE then w' == w && reply == AlreadyRunning
      else if loaded.None? then w' == w && reply == LoadFailed
      else
        var v, w1 := r.value, PrepareBoot(w, r.value, loaded.value, differs, install);
        && BootReady(w, v, loaded.value, differs, install, w1)
        && Started(w1, v, o, w') && reply == (if StartDone(w1, v, o) then Done else StartFailed)
  {
    var r := Lookup(w, w.vmList, name);
    if r.Some? && allowed && w.vms[r.value].state == TERMINATE && loaded.Some? {
      var v := r.value;
      var w1 := PrepareBoot(w, v, loaded.value, differs, install);
      BootReadied(w, v, loaded.value, differs, install);
      StartAnswers(w1, v, o);
    }
  }

  /** Only the configuration of `v` has changed. */
  ghost predicate BootReady(w: World, v: VmId, loaded: Conf, differs: bool, install: bool, w1: World)
    requires v in w.vms && w.vms[v].conf in w.confs
  {
    && v in w1.vms && w1.vms[v] == w.vms[v].(conf := w1.vms[v].conf) && w1.vms[v].conf in w1.confs
    && w1.confs[w1.vms[v].conf] == BootConf(w.confs[w.vms[v].conf], loaded, differs, install)
    && w1.children == w.children && w1.events == w.events && w1.lastTimer == w.lastTimer && w1.taps == w.taps
  }

  lemma BootReadied(w: World, v: VmId, loaded: Conf, differs: bool, install: bool)
    requires v in w.vms && w.vms[v].conf in w.confs && w.nextConf !in w.confs
    ensures BootReady(w, v, loaded, differs, install, PrepareBoot(w, v, loaded, differs, install))
  {
  }

  /** A shutdown, reset or power-off command; only a machine in LOAD or RUN is acted upon. */
  lemma DownAnswers(w: World, name: string, allowed: bool, how: int, timerOk: bool)
    ensures var r := Lookup(w, w.vmList, name);
      var (w', reply) := DownCommand(w, name, allowed, how, timerOk);
      if r.None? || !allowed then w' == w && reply == NotFound
      else
        var v, vm := r.value, w.vms[r.value];
        if vm.state !in {LOAD, RUN} then w' == w && reply == Done
        else if how !in {0, 2} then w' == w && reply == (if how == 1 then Done else UnknownCommand)
        else
          && reply == Done && w'.vms == w.vms[v := vm.(state := STOP)] && w'.confs == w.confs
          && w'.events ==
             NewTimer(w, v, how == 0, w.confs[vm.conf].stopTimeout, timerOk) + w.events
          && (OwnsChild(w, v) ==>
                var c := w.children[vm.pid];
                w'.children == w.children[vm.pid :=
                  if how == 0 then c.(termed := true)
                  else if vm.state == LOAD then c.(killed := true)
                  else c.(suspended := true)])
  {
    var r := Lookup(w, w.vmList, name);
    if r.Some? && allowed && w.vms[r.value].state in {LOAD, RUN} {
      if how == 0 {
        ShutdownAnswers(w, r.value, w.confs[w.vms[r.value].conf].stopTimeout, timerOk);
      } else if how == 2 {
        PowerOffAnswers(w, r.value);
      }
    }
  }

  lemma ShutdownAnswers(w: World, v: VmId, secs: int, timerOk: bool)
    requires v in w.vms
    ensures var w' := SetState(AddTimer(Term(w, v), v, secs, timerOk), v, STOP);
      && w'.vms == w.vms[v := w.vms[v].(state := STOP)] && w'.confs == w.confs
      && w'.events == NewTimer(w, v, true, secs, timerOk) + w.events
      && (OwnsChild(w, v) ==>
            w'.children == w.children[w.vms[v].pid := w.children[w.vms[v].pid].(termed := true)])
  {
    assert [] + w.events == w.events;
  }

  lemma PowerOffAnswers(w: World, v: VmId)
    requires v in w.vms && w.vms[v].state in {LOAD, RUN}
    ensures var w' := SetState(Kill(w, v), v, STOP);
      && w'.vms == w.vms[v := w.vms[v].(state := STOP)] && w'.confs == w.confs && w'.events == [] + w.events
      && (OwnsChild(w, v) ==>
            var c := w.children[w.vms[v].pid];
            w'.children == w.children[w.vms[v].pid :=
              if w.vms[v].state == LOAD then c.(killed := true) else c.(suspended := true)])
  {
    assert [] + w.events == w.events;
  }
}
