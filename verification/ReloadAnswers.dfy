/**
 What a reload does to each machine: which are asked to stop, restarted, started, delayed or removed,
 and which are left alone.
 */
module ReloadAnswers {
  import opened Options
  import opened DaemonState
  import opened Resources
  import opened Lifecycle
  import opened Reload
  import opened ReloadProof
  import opened ReloadTheorems
  import opened Runs
  import opened Answers

  // ------------------------------------------------------------- what concerns one machine

  /** State, process and interfaces of the entry. */
  ghost predicate SameEntry(w: World, w': World, v: VmId) {
    && v in w.vms && v in w'.vms && w'.vms[v].state == w.vms[v].state
    && w'.vms[v].pid == w.vms[v].pid && w'.vms[v].taps == w.vms[v].taps
  }

  /** The child of the machine, if it has one, is the same, and if `asked` it was also sent SIGTERM. */
  ghost predicate SameChild(w: World, w': World, v: VmId, asked: bool)
    requires v in w.vms && v in w'.vms
  {
    && (OwnsChild(w', v) <==> OwnsChild(w, v))
    && (OwnsChild(w, v) ==>
          var c := w.children[w.vms[v].pid];
          w'.children[w'.vms[v].pid] == if asked then c.(termed := true) else c)
  }

  /** What child the machine has it had before, of the same kind, and no signal is taken back. */
  ghost predicate ChildFrom(w: World, w': World, v: VmId)
    requires v in w'.vms
  {
    OwnsChild(w', v) ==>
      && v in w.vms && w'.vms[v].pid == w.vms[v].pid && OwnsChild(w, v)
      && var c, c' := w.children[w.vms[v].pid], w'.children[w.vms[v].pid];
         && c'.loader == c.loader && (c.termed ==> c'.termed)
         && (c.killed ==> c'.killed) && (c.suspended ==> c'.suspended)
  }

  ghost predicate EventsAre(w: World, w': World, v: VmId, exit: Option<Pid>, timer: Option<int>, id: nat) {
    forall e: Event :: e.vm == v ==>
      multiset(w'.events)[e] == multiset(w.events)[e]
                                + (if exit.Some? && e == Exit(v, exit.value) then 1 else 0)
                                + (if timer.Some? && e == Timer(v, id, timer.value) then 1 else 0)
  }

  /** The events of the machine are what they were, and an exit and a new timer if given. */
  ghost predicate EventsGain(w: World, w': World, v: VmId, exit: Option<Pid>, timer: Option<int>) {
    && w.lastTimer <= w'.lastTimer
    && (timer.None? ==> EventsAre(w, w', v, exit, timer, 0))
    && (timer.Some? ==> exists id :: w.lastTimer < id <= w'.lastTimer && EventsAre(w, w', v, exit, timer, id))
  }

  ghost predicate Still(w: World, w': World, v: VmId) {
    SameEntry(w, w', v) && SameChild(w, w', v, false) && EventsGain(w, w', v, None, None)
  }

  lemma GainTrans(w: World, w1: World, w2: World, v: VmId, exit: Option<Pid>, timer: Option<int>)
    ensures EventsGain(w, w1, v, None, None) && EventsGain(w1, w2, v, exit, timer) ==> EventsGain(w, w2, v, exit, timer)
    ensures EventsGain(w, w1, v, exit, timer) && EventsGain(w1, w2, v, None, None) ==> EventsGain(w, w2, v, exit, timer)
  {
    if timer.Some? && EventsGain(w, w1, v, None, None) && EventsGain(w1, w2, v, exit, timer) {
      var id :| w1.lastTimer < id <= w2.lastTimer && EventsAre(w1, w2, v, exit, timer, id);
      assert EventsAre(w, w2, v, exit, timer, id);
    }
    if timer.Some? && EventsGain(w, w1, v, exit, timer) && EventsGain(w1, w2, v, None, None) {
      var id :| w.lastTimer < id <= w1.lastTimer && EventsAre(w, w1, v, exit, timer, id);
      assert EventsAre(w, w2, v, exit, timer, id);
    }
  }

  lemma StillTrans(w: World, w1: World, w2: World, v: VmId)
    requires Still(w, w1, v) && Still(w1, w2, v)
    ensures Still(w, w2, v)
  {
    GainTrans(w, w1, w2, v, None, None);
  }

  /** Nothing about the machine has changed. */
  ghost predicate Unmoved(w: World, w': World, v: VmId) {
    Still(w, w', v) && w'.vms[v] == w.vms[v]
  }

  lemma UnmovedTrans(w: World, w1: World, w2: World, v: VmId)
    requires Unmoved(w, w1, v) && Unmoved(w1, w2, v)
    ensures Unmoved(w, w2, v)
  {
    StillTrans(w, w1, w2, v);
  }

  /** Other entries and the configurations are no matter. */
  lemma QuietStill(w: World, w': World, v: VmId)
    requires v in w.vms && v in w'.vms && w'.vms[v] == w.vms[v]
    requires w'.children == w.children && w'.events == w.events && w'.lastTimer == w.lastTimer
    ensures Unmoved(w, w', v)
  {
  }

  // ------------------------------------------------------------- a start, seen from one machine

  /** As `Started`, for a machine that is down, and whatever happens to the others in the meantime. */
  ghost predicate StartedHere(w: World, v: VmId, bare: bool, conf: Conf, o: Outcome, w': World) {
    var loads := conf.loader in {BhyveLoad, Grub};
    var prepared := o.found && o.activateOk && (bare ==> o.netsOk && TapsSucceed(o.taps));
    var forks := prepared && o.spawn.Some? && conf.loader != Unknown;
    && v in w'.vms
    && if forks && o.exitOk && o.outputOk then
         var p, timed := o.spawn.value, loads && conf.loaderTimeout > 0 && o.timerOk;
         && w'.vms[v].state == (if loads then LOAD else RUN) && w'.vms[v].pid == p
         && OwnsChild(w', v) && w'.children[p] == Child(v, loads, false, false, false)
         && EventsGain(w, w', v, Some(p), if timed then Some(conf.loaderTimeout) else None)
       else
         && w'.vms[v].state == TERMINATE && ChildFrom(w, w', v)
         && EventsGain(w, w', v, if forks && o.exitOk then o.spawn else None, None)
  }

  // ------------------------------------------------------------- the answer to a section

  /**
   What a reload does to the machine `v` that has the section `conf`.  With a reboot wanted and a
   change found, a machine that is up is asked to stop and will be restarted, one that is stopping
   will be restarted, and one that is down gets a timer.  Otherwise only a change of `boot` matters:
   without boot a machine that is up is asked to stop and one to be restarted stays down; with boot
   one that is down is started and one that is stopping will be restarted.
   */
  ghost predicate Answered(w: World, v: VmId, conf: Conf, differs: bool, o: Outcome, w': World)
    requires v in w.vms && w.vms[v].conf in w.confs
  {
    var s, reboot := w.vms[v].state, conf.boot != NO && conf.rebootOnChange && differs;
    var follows := !reboot && conf.boot != w.confs[w.vms[v].conf].boot;
    var halts, boots := follows && conf.boot == NO, follows && conf.boot in {YES, ALWAYS};
    && v in w'.vms
    && if boots && s == TERMINATE then StartedHere(w, v, w.vms[v].taps == [], conf, o, w')
       else
         var asked := (reboot || halts) && s in {LOAD, RUN};
         && w'.vms[v].state == (if reboot && s in {LOAD, RUN, STOP} then RESTART
                                else if halts && s in {LOAD, RUN, RESTART} then STOP
                                else if boots && s == STOP then RESTART
                                else s)
         && w'.vms[v].pid == w.vms[v].pid && w'.vms[v].taps == w.vms[v].taps && SameChild(w, w', v, asked)
         && exists secs :: IsMax(secs, conf.bootDelay, 1) &&
              EventsGain(w, w', v, None, if !o.timerOk then None
                                         else if asked then Some(conf.stopTimeout)
                                         else if reboot && s == TERMINATE then Some(secs)
                                         else None)
  }

  /** It depends on nothing but the machine. */
  lemma AnsweredFrame(w: World, w1: World, w2: World, w3: World, v: VmId, conf: Conf, differs: bool, o: Outcome)
    requires v in w.vms && w.vms[v].conf in w.confs && v in w1.vms && w1.vms[v].conf in w1.confs
    requires w1.confs[w1.vms[v].conf].boot == w.confs[w.vms[v].conf].boot
    requires Still(w, w1, v) && Answered(w1, v, conf, differs, o, w2) && Still(w2, w3, v)
    ensures Answered(w, v, conf, differs, o, w3)
  {
    forall exit, timer | EventsGain(w1, w2, v, exit, timer) ensures EventsGain(w, w3, v, exit, timer) {
      GainTrans(w, w1, w2, v, exit, timer);
      GainTrans(w, w2, w3, v, exit, timer);
    }
    assert w.vms[v].state == w1.vms[v].state && w.vms[v].taps == w1.vms[v].taps && w.vms[v].pid == w1.vms[v].pid;
  }

  // ------------------------------------------------------------- other machines

  lemma SpawnedStill(w: World, w': World, u: VmId, p: Pid, c: Child, v: VmId)
    requires OnlyVm(w, w', u) && v in w.vms && u != v
    requires w'.children == w.children || (p !in w.children && c.vm == u && w'.children == w.children[p := c])
    ensures Unmoved(w, w', v)
  {
  }

  lemma StartStill(w: World, u: VmId, o: Outcome, v: VmId)
    requires u in w.vms && w.vms[u].conf in w.confs && Fresh(w, o) && v in w.vms && u != v
    ensures Unmoved(w, Start(w, u, o).0, v)
  {
    StartFrame(w, u, o);
    StartAnswers(w, u, o);
    var w' := Start(w, u, o).0;
    var p := if o.spawn.Some? then o.spawn.value else 0;
    SpawnedStill(w, w', u, p, Child(u, LoadsFirst(w, u), false, false, false), v);
  }

  lemma TermStill(w: World, u: VmId, v: VmId)
    requires u in w.vms && v in w.vms && u != v
    ensures Unmoved(w, Term(w, u), v) && Term(w, u).vms == w.vms
  {
  }

  lemma AskStill(w: World, u: VmId, secs: int, timerOk: bool, s: State, v: VmId)
    requires u in w.vms && v in w.vms && u != v
    ensures Unmoved(w, AskToStop(w, u, secs, timerOk, s), v)
  {
    var w1 := Term(w, u);
    var w2 := AddTimer(w1, u, secs, timerOk);
    TermStill(w, u, v);
    AddTimerStill(w1, u, secs, timerOk, v);
    UnmovedTrans(w, w1, w2, v);
    QuietStill(w2, AskToStop(w, u, secs, timerOk, s), v);
    UnmovedTrans(w, w2, AskToStop(w, u, secs, timerOk, s), v);
  }

  lemma AddTimerStill(w: World, u: VmId, secs: int, timerOk: bool, v: VmId)
    requires v in w.vms && u != v
    ensures Unmoved(w, AddTimer(w, u, secs, timerOk), v)
  {
    AddTimerFrame(w, u, secs, timerOk);
  }

  lemma RebootStill(w: World, u: VmId, conf: Conf, timerOk: bool, v: VmId)
    requires u in w.vms && v in w.vms && u != v
    ensures Unmoved(w, RebootEntry(w, u, conf, timerOk), v)
  {
    var w' := RebootEntry(w, u, conf, timerOk);
    match w.vms[u].state
    case TERMINATE => AddTimerStill(w, u, Max(conf.bootDelay, 1), timerOk, v);
    case LOAD => AskStill(w, u, conf.stopTimeout, timerOk, RESTART, v);
    case RUN => AskStill(w, u, conf.stopTimeout, timerOk, RESTART, v);
    case _ => QuietStill(w, w', v);
  }

  lemma FollowStill(w: World, u: VmId, c: ConfId, o: Outcome, v: VmId)
    requires u in w.vms && v in w.vms && u != v && c in w.confs && Fresh(w, o)
    ensures Unmoved(w, FollowBoot(w, u, c, o), v)
  {
    var conf, s, w' := w.confs[c], w.vms[u].state, FollowBoot(w, u, c, o);
    if conf.boot == NO && s in {LOAD, RUN} {
      AskStill(w, u, conf.stopTimeout, o.timerOk, STOP, v);
    } else if conf.boot in {YES, ALWAYS} && s == TERMINATE {
      AdoptStill(w, u, c, o, v);
    } else {
      QuietStill(w, w', v);
    }
  }

  lemma AdoptStill(w: World, u: VmId, c: ConfId, o: Outcome, v: VmId)
    requires u in w.vms && v in w.vms && u != v && c in w.confs && Fresh(w, o)
    ensures Unmoved(w, Start(SetVm(w, u, w.vms[u].(conf := c)), u, o).0, v)
  {
    var w1 := SetVm(w, u, w.vms[u].(conf := c));
    QuietStill(w, w1, v);
    StartStill(w1, u, o, v);
    UnmovedTrans(w, w1, Start(w1, u, o).0, v);
  }

  lemma AddEntryStill(w: World, c: ConfId, o: Outcome, v: VmId)
    requires c in w.confs && Fresh(w, o) && v in w.vms && w.nextVm != v
    ensures Unmoved(w, AddEntry(w, c, o), v)
  {
    var u, w1 := w.nextVm, SetNewConf(CreateEntry(w, c), w.nextVm, c);
    QuietStill(w, w1, v);
    if w.confs[c].boot != NO {
      if w.confs[c].bootDelay > 0 {
        AddTimerStill(w1, u, w.confs[c].bootDelay, o.timerOk, v);
      } else {
        StartStill(w1, u, o, v);
      }
      UnmovedTrans(w, w1, AddEntry(w, c, o), v);
    }
  }

  lemma MatchOther(w: World, c: ConfId, differs: bool, o: Outcome, v: VmId)
    requires c in w.confs && Fresh(w, o) && v in w.vms && w.nextVm != v && !HasName(w, v, w.confs[c].name)
    ensures Unmoved(w, MatchOne(w, c, differs, o), v)
  {
    var conf, found, w' := w.confs[c], Lookup(w, w.vmList, w.confs[c].name), MatchOne(w, c, differs, o);
    if found.None? {
      AddEntryStill(w, c, o, v);
    } else {
      var u, w1 := found.value, SetNewConf(w, found.value, c);
      QuietStill(w, w1, v);
      if conf.boot != NO && conf.rebootOnChange && differs {
        RebootStill(w1, u, conf, o.timerOk, v);
        UnmovedTrans(w, w1, w', v);
      } else if conf.boot != w.confs[w.vms[u].conf].boot {
        FollowStill(w1, u, c, o, v);
        UnmovedTrans(w, w1, w', v);
      }
    }
  }

  // ------------------------------------------------------------- the machine of the section

  lemma AskAnswers(w: World, v: VmId, secs: int, timerOk: bool, s: State)
    requires v in w.vms
    ensures var w' := AskToStop(w, v, secs, timerOk, s);
      && w'.vms == w.vms[v := w.vms[v].(state := s)] && SameChild(w, w', v, true)
      && EventsGain(w, w', v, None, if timerOk then Some(secs) else None)
  {
    var w1 := Term(w, v);
    var w2 := AddTimer(w1, v, secs, timerOk);
    AddTimerGains(w1, v, secs, timerOk);
    GainFrame(w, w1, w2, AskToStop(w, v, secs, timerOk, s), v, None, if timerOk then Some(secs) else None);
  }

  /** The events matter, and nothing else. */
  lemma GainFrame(w: World, w1: World, w2: World, w': World, v: VmId, exit: Option<Pid>, timer: Option<int>)
    requires w1.events == w.events && w1.lastTimer == w.lastTimer
    requires w'.events == w2.events && w'.lastTimer == w2.lastTimer && EventsGain(w1, w2, v, exit, timer)
    ensures EventsGain(w, w', v, exit, timer)
  {
    if timer.Some? {
      var id :| w1.lastTimer < id <= w2.lastTimer && EventsAre(w1, w2, v, exit, timer, id);
      assert EventsAre(w, w', v, exit, timer, id);
    }
  }

  lemma AddTimerGains(w: World, v: VmId, secs: int, timerOk: bool)
    ensures var w' := AddTimer(w, v, secs, timerOk);
      w'.vms == w.vms && w'.children == w.children && EventsGain(w, w', v, None, if timerOk then Some(secs) else None)
  {
    var w', id := AddTimer(w, v, secs, timerOk), w.lastTimer + 1;
    if timerOk {
      assert multiset(w'.events) == multiset{Timer(v, id, secs)} + multiset(w.events);
      assert EventsAre(w, w', v, None, Some(secs), id);
    }
  }

  /** No child was forked for it. */
  ghost predicate Childless(w: World, v: VmId) {
    forall p :: p in w.children ==> w.children[p].vm != v
  }

  lemma StartHere(w: World, v: VmId, c: ConfId, o: Outcome)
    requires v in w.vms && c in w.confs && w.vms[v].state == TERMINATE && Fresh(w, o)
    ensures var w1 := SetVm(w, v, w.vms[v].(conf := c));
      StartedHere(w, v, w.vms[v].taps == [], w.confs[c], o, Start(w1, v, o).0)
  {
    var w1 := SetVm(w, v, w.vms[v].(conf := c));
    StartAnswers(w1, v, o);
    HereToo(w, w1, v, w.confs[c], o, Start(w1, v, o).0);
  }

  lemma HereToo(w: World, w1: World, v: VmId, conf: Conf, o: Outcome, w': World)
    requires v in w1.vms && w1.vms[v].state == TERMINATE && w1.vms[v].conf in w1.confs
    requires w1.confs[w1.vms[v].conf] == conf
    requires w1.events == w.events && w1.lastTimer == w.lastTimer && w1.children == w.children
    requires if v in w.vms then w1.vms[v].pid == w.vms[v].pid else Childless(w, v)
    requires (o.spawn.Some? ==> o.spawn.value !in w.children) && Started(w1, v, o, w')
    ensures StartedHere(w, v, w1.vms[v].taps == [], conf, o, w')
  {
    if Forks(w1, v, o) && o.exitOk && o.outputOk {
      var timed := LoadsFirst(w1, v) && conf.loaderTimeout > 0 && o.timerOk;
      StartGains(w, w', v, true, o.spawn.value, timed, conf.loaderTimeout);
    } else {
      FailedHere(w, w1, v, o, w');
    }
  }

  lemma FailedHere(w: World, w1: World, v: VmId, o: Outcome, w': World)
    requires v in w1.vms && w1.vms[v].state == TERMINATE && w1.vms[v].conf in w1.confs
    requires w1.events == w.events && w1.lastTimer == w.lastTimer && w1.children == w.children
    requires if v in w.vms then w1.vms[v].pid == w.vms[v].pid else Childless(w, v)
    requires (o.spawn.Some? ==> o.spawn.value !in w.children) && Started(w1, v, o, w')
    requires !(Forks(w1, v, o) && o.exitOk && o.outputOk)
    ensures v in w'.vms && w'.vms[v].state == TERMINATE && ChildFrom(w, w', v)
    ensures EventsGain(w, w', v, if Forks(w1, v, o) && o.exitOk then o.spawn else None, None)
  {
    if Forks(w1, v, o) {
      StartGains(w, w', v, o.exitOk, o.spawn.value, false, 0);
    }
  }

  lemma StartGains(w: World, w': World, v: VmId, watched: bool, p: Pid, timed: bool, secs: int)
    requires w'.events == NewTimer(w, v, timed, secs, true) + ((if watched then [Exit(v, p)] else []) + w.events)
    requires w.lastTimer <= w'.lastTimer && (timed ==> w.lastTimer < w'.lastTimer)
    ensures EventsGain(w, w', v, if watched then Some(p) else None, if timed then Some(secs) else None)
  {
    var id := w.lastTimer + 1;
    var timer, exit := NewTimer(w, v, timed, secs, true), if watched then [Exit(v, p)] else [];
    assert multiset(timer + (exit + w.events)) == multiset(timer) + (multiset(exit) + multiset(w.events));
    if timed { assert EventsAre(w, w', v, if watched then Some(p) else None, Some(secs), id); }
  }

  /** A mark alone. */
  lemma MarkAnswers(w: World, v: VmId, s: State)
    requires v in w.vms
    ensures var w' := SetState(w, v, s);
      && w'.vms[v].pid == w.vms[v].pid && w'.vms[v].taps == w.vms[v].taps
      && SameChild(w, w', v, false) && EventsGain(w, w', v, None, None)
  {
  }

  lemma RebootAnswers(w: World, v: VmId, conf: Conf, differs: bool, o: Outcome)
    requires v in w.vms && w.vms[v].conf in w.confs && conf.boot != NO && conf.rebootOnChange && differs
    ensures Answered(w, v, conf, differs, o, RebootEntry(w, v, conf, o.timerOk))
  {
    assert IsMax(Max(conf.bootDelay, 1), conf.bootDelay, 1);
    match w.vms[v].state
    case TERMINATE => AddTimerGains(w, v, Max(conf.bootDelay, 1), o.timerOk);
    case LOAD => AskAnswers(w, v, conf.stopTimeout, o.timerOk, RESTART);
    case RUN => AskAnswers(w, v, conf.stopTimeout, o.timerOk, RESTART);
    case STOP => MarkAnswers(w, v, RESTART);
    case _ => StillSelf(w, v);
  }

  lemma FollowAnswers(w: World, v: VmId, c: ConfId, differs: bool, o: Outcome)
    requires v in w.vms && w.vms[v].conf in w.confs && c in w.confs && Fresh(w, o)
    requires !(w.confs[c].boot != NO && w.confs[c].rebootOnChange && differs)
    requires w.confs[c].boot != w.confs[w.vms[v].conf].boot
    ensures Answered(w, v, w.confs[c], differs, o, FollowBoot(w, v, c, o))
  {
    var conf, st := w.confs[c], w.vms[v].state;
    assert IsMax(Max(conf.bootDelay, 1), conf.bootDelay, 1);
    if conf.boot == NO && st in {LOAD, RUN} {
      AskAnswers(w, v, conf.stopTimeout, o.timerOk, STOP);
    } else if conf.boot in {YES, ALWAYS} && st == TERMINATE {
      StartHere(w, v, c, o);
    } else {
      FollowQuietly(w, v, c, differs, o);
    }
  }

  /** The cases in which at most the mark of the machine changes. */
  lemma FollowQuietly(w: World, v: VmId, c: ConfId, differs: bool, o: Outcome)
    requires v in w.vms && w.vms[v].conf in w.confs && c in w.confs
    requires !(w.confs[c].boot != NO && w.confs[c].rebootOnChange && differs)
    requires w.confs[c].boot != w.confs[w.vms[v].conf].boot
    requires !(w.confs[c].boot == NO && w.vms[v].state in {LOAD, RUN})
    requires !(w.confs[c].boot in {YES, ALWAYS} && w.vms[v].state == TERMINATE)
    ensures Answered(w, v, w.confs[c], differs, o, FollowBoot(w, v, c, o))
  {
    assert IsMax(Max(w.confs[c].bootDelay, 1), w.confs[c].bootDelay, 1);
    StillSelf(w, v);
    if w.confs[c].boot == NO { MarkAnswers(w, v, STOP); } else { MarkAnswers(w, v, RESTART); }
  }

  lemma MatchMine(w: World, c: ConfId, differs: bool, o: Outcome, v: VmId)
    requires c in w.confs && Fresh(w, o) && Lookup(w, w.vmList, w.confs[c].name) == Some(v)
    ensures Answered(w, v, w.confs[c], differs, o, MatchOne(w, c, differs, o))
    ensures MatchOne(w, c, differs, o).vms[v].newConf == Some(c)
  {
    var w1, conf := SetNewConf(w, v, c), w.confs[c];
    assert Still(w, w1, v);
    if conf.boot != NO && conf.rebootOnChange && differs {
      RebootAnswers(w1, v, conf, differs, o);
    } else if conf.boot != w.confs[w.vms[v].conf].boot {
      FollowAnswers(w1, v, c, differs, o);
    } else {
      assert IsMax(Max(conf.bootDelay, 1), conf.bootDelay, 1);
    }
    var w2 := MatchOne(w, c, differs, o);
    assert Answered(w1, v, conf, differs, o, w2);
    MatchKeepsNewConf(w1, v, c, differs, o);
    StillSelf(w2, v);
    AnsweredFrame(w, w1, w2, w2, v, conf, differs, o);
  }

  lemma StillSelf(w: World, v: VmId)
    requires v in w.vms
    ensures Still(w, w, v)
  {
  }

  lemma MatchKeepsNewConf(w: World, v: VmId, c: ConfId, differs: bool, o: Outcome)
    requires v in w.vms && c in w.confs && w.vms[v].newConf == Some(c)
    ensures var w' := RebootEntry(w, v, w.confs[c], o.timerOk); v in w'.vms && w'.vms[v].newConf == Some(c)
    ensures var w' := FollowBoot(w, v, c, o); v in w'.vms && w'.vms[v].newConf == Some(c)
  {
    RebootSame(w, v, w.confs[c], o.timerOk);
    FollowSame(w, v, c, o);
  }

  // ------------------------------------------------------------- all rounds

  /** `v` is the one entry of that name. */
  ghost predicate OnlyEntry(w: World, v: VmId, name: string) {
    HasName(w, v, name) && forall u :: HasName(w, u, name) ==> u == v
  }

  lemma LookupOnly(w: World, v: VmId, name: string)
    requires Listed(w) && OnlyEntry(w, v, name)
    ensures Lookup(w, w.vmList, name) == Some(v)
  {
  }

  /** A round gives nobody another name, and a new entry that of its section. */
  lemma MatchKeepsOnly(w: World, c: ConfId, differs: bool, o: Outcome, v: VmId, name: string)
    requires c in w.confs && Listed(w) && OnlyEntry(w, v, name)
    ensures OnlyEntry(MatchOne(w, c, differs, o), v, name)
  {
    var w' := MatchOne(w, c, differs, o);
    var found := Lookup(w, w.vmList, w.confs[c].name);
    if found.None? {
      NewEntryNamed(w, c, o);
    } else {
      var u := found.value;
      FoundNamed(w, c, u, differs, o);
    }
    forall x | HasName(w', x, name) ensures x == v {
      if x in w.vms { assert HasName(w, x, name); }
    }
  }

  lemma NewEntryNamed(w: World, c: ConfId, o: Outcome)
    requires c in w.confs && w.nextVm !in w.vms
    ensures var w' := AddEntry(w, c, o);
      && w'.vms.Keys == w.vms.Keys + {w.nextVm}
      && w'.vms[w.nextVm].conf == c && w'.vms[w.nextVm].newConf == Some(c)
      && forall x :: x in w.vms ==> w'.vms[x] == w.vms[x]
  {
    var v, w1 := w.nextVm, SetNewConf(CreateEntry(w, c), w.nextVm, c);
    assert OnlyVm(w1, AddEntry(w, c, o), v) by {
      if w.confs[c].boot != NO && w.confs[c].bootDelay <= 0 { StartFrame(w1, v, o); }
    }
  }

  lemma FoundNamed(w: World, c: ConfId, u: VmId, differs: bool, o: Outcome)
    requires c in w.confs && Lookup(w, w.vmList, w.confs[c].name) == Some(u)
    ensures var w' := MatchOne(w, c, differs, o);
      && w'.vms.Keys == w.vms.Keys && w'.vms[u].newConf == Some(c)
      && (w'.vms[u].conf == w.vms[u].conf || w'.vms[u].conf == c)
      && forall x :: x in w.vms && x != u ==> w'.vms[x] == w.vms[x]
  {
    FoundMine(w, c, u, differs, o);
    forall x | x in w.vms && x != u ensures MatchOne(w, c, differs, o).vms[x] == w.vms[x] {
      FoundOther(w, c, u, differs, o, x);
    }
  }

  lemma FoundMine(w: World, c: ConfId, u: VmId, differs: bool, o: Outcome)
    requires c in w.confs && Lookup(w, w.vmList, w.confs[c].name) == Some(u)
    ensures var w' := MatchOne(w, c, differs, o);
      && w'.vms.Keys == w.vms.Keys && w'.vms[u].newConf == Some(c)
      && (w'.vms[u].conf == w.vms[u].conf || w'.vms[u].conf == c)
  {
    var w1, conf := SetNewConf(w, u, c), w.confs[c];
    assert SameBook(w1, MatchOne(w, c, differs, o)) by {
      if conf.boot != NO && conf.rebootOnChange && differs {
        RebootSame(w1, u, conf, o.timerOk);
      } else if conf.boot != w.confs[w.vms[u].conf].boot {
        FollowSame(w1, u, c, o);
      }
    }
  }

  lemma FoundOther(w: World, c: ConfId, u: VmId, differs: bool, o: Outcome, x: VmId)
    requires c in w.confs && Lookup(w, w.vmList, w.confs[c].name) == Some(u) && x in w.vms && x != u
    ensures var w' := MatchOne(w, c, differs, o); x in w'.vms && w'.vms[x] == w.vms[x]
  {
    OtherUntouched(SetNewConf(w, u, c), u, c, o, x);
  }

  /** One round, with a list that is in order and a kernel that keeps its promises. */
  ghost predicate Round(w: World, c: ConfId, l: Loaded, w': World) {
    && Listed(w) && c in w.confs && w.confs[c] == l.conf && Fresh(w, l.o)
    && w' == MatchOne(w, c, l.differs, l.o)
  }

  ghost predicate Rounds(ws: seq<World>, ids: seq<ConfId>, loaded: seq<Loaded>) {
    && |ids| == |loaded| && |ws| == |ids| + 1
    && forall k :: 0 <= k < |ids| ==> Round(ws[k], ids[k], loaded[k], ws[k + 1])
  }

  lemma {:induction false} MakeRounds(b: World, ids: seq<ConfId>, loaded: seq<Loaded>) returns (ws: seq<World>)
    requires |ids| == |loaded|
    requires forall k :: 0 <= k < |ids| ==> ids[k] in b.confs && b.confs[ids[k]] == loaded[k].conf
    requires (forall c :: c in ids ==> c in b.confs) && MatchesFresh(b, ids, loaded) && Listed(b)
    ensures Rounds(ws, ids, loaded) && ws[0] == b && ws[|ids|] == MatchAll(b, ids, loaded)
    decreases |ids|
  {
    if ids == [] {
      ws := [b];
    } else {
      var n := |ids| - 1;
      assert ids[n] in ids && forall c :: c in ids[..n] ==> c in ids;
      var before := MakeRounds(b, ids[..n], loaded[..n]);
      var w := MatchAll(b, ids[..n], loaded[..n]);
      MatchAllListed(b, ids[..n], loaded[..n]);
      var w' := MatchOne(w, ids[n], loaded[n].differs, loaded[n].o);
      assert Round(w, ids[n], loaded[n], w');
      ExtendRounds(before, ids, loaded, w');
      ws := before + [w'];
    }
  }

  lemma ExtendRounds(before: seq<World>, ids: seq<ConfId>, loaded: seq<Loaded>, w': World)
    requires |ids| == |loaded| == |before| > 0
    requires var n := |ids| - 1; Rounds(before, ids[..n], loaded[..n]) && Round(before[n], ids[n], loaded[n], w')
    ensures Rounds(before + [w'], ids, loaded)
  {
    var n, ws := |ids| - 1, before + [w'];
    forall k | 0 <= k < |ids| ensures Round(ws[k], ids[k], loaded[k], ws[k + 1]) {
      if k < n { assert Round(before[k], ids[..n][k], loaded[..n][k], before[k + 1]); }
    }
  }

  lemma RoundOnly(w: World, c: ConfId, l: Loaded, w': World, v: VmId, name: string)
    requires Round(w, c, l, w') && OnlyEntry(w, v, name)
    ensures OnlyEntry(w', v, name)
  {
    MatchKeepsOnly(w, c, l.differs, l.o, v, name);
  }

  lemma {:induction false} RoundsOnly(ws: seq<World>, ids: seq<ConfId>, loaded: seq<Loaded>, v: VmId, name: string,
                                      j: nat, k: nat)
    requires Rounds(ws, ids, loaded) && j <= k <= |ids| && OnlyEntry(ws[j], v, name)
    ensures OnlyEntry(ws[k], v, name)
    decreases k
  {
    if j < k {
      RoundsOnly(ws, ids, loaded, v, name, j, k - 1);
      RoundOnly(ws[k - 1], ids[k - 1], loaded[k - 1], ws[k], v, name);
    }
  }

  lemma OtherRound(w: World, c: ConfId, l: Loaded, w': World, v: VmId, name: string)
    requires Round(w, c, l, w') && HasName(w, v, name) && l.conf.name != name
    ensures Unmoved(w, w', v)
  {
    MatchOther(w, c, l.differs, l.o, v);
  }

  /** Rounds of other sections are no matter to a machine. */
  lemma {:induction false} OtherRounds(ws: seq<World>, ids: seq<ConfId>, loaded: seq<Loaded>, v: VmId, name: string,
                                       j: nat, k: nat)
    requires Rounds(ws, ids, loaded) && j <= k <= |ids| && OnlyEntry(ws[j], v, name)
    requires forall i :: j <= i < k ==> loaded[i].conf.name != name
    ensures Unmoved(ws[j], ws[k], v)
    decreases k
  {
    if j == k {
      StillSelf(ws[j], v);
    } else {
      OtherRounds(ws, ids, loaded, v, name, j, k - 1);
      RoundsOnly(ws, ids, loaded, v, name, j, k - 1);
      OtherRound(ws[k - 1], ids[k - 1], loaded[k - 1], ws[k], v, name);
      UnmovedTrans(ws[j], ws[k - 1], ws[k], v);
    }
  }

  /** `i` is the one section of that name. */
  ghost predicate OnlySection(loaded: seq<Loaded>, i: nat, name: string) {
    && i < |loaded| && loaded[i].conf.name == name
    && forall j :: 0 <= j < |loaded| && loaded[j].conf.name == name ==> j == i
  }

  lemma MyRound(w: World, c: ConfId, l: Loaded, w': World, v: VmId, name: string)
    requires Round(w, c, l, w') && OnlyEntry(w, v, name) && l.conf.name == name
    ensures Answered(w, v, l.conf, l.differs, l.o, w') && w'.vms[v].newConf == Some(c)
  {
    LookupOnly(w, v, name);
    MatchMine(w, c, l.differs, l.o, v);
  }

  lemma RoundsAnswer(ws: seq<World>, ids: seq<ConfId>, loaded: seq<Loaded>, v: VmId, name: string, i: nat)
    requires Rounds(ws, ids, loaded) && OnlyEntry(ws[0], v, name) && OnlySection(loaded, i, name)
    requires ws[i].confs == ws[0].confs
    ensures Answered(ws[0], v, loaded[i].conf, loaded[i].differs, loaded[i].o, ws[|ids|])
    ensures ws[|ids|].vms[v].newConf == Some(ids[i])
  {
    OtherRounds(ws, ids, loaded, v, name, 0, i);
    RoundsOnly(ws, ids, loaded, v, name, 0, i);
    MyRound(ws[i], ids[i], loaded[i], ws[i + 1], v, name);
    RoundOnly(ws[i], ids[i], loaded[i], ws[i + 1], v, name);
    OtherRounds(ws, ids, loaded, v, name, i + 1, |ids|);
    AnsweredFrame(ws[0], ws[i], ws[i + 1], ws[|ids|], v, loaded[i].conf, loaded[i].differs, loaded[i].o);
  }

  lemma {:induction false} RoundsConfs(ws: seq<World>, ids: seq<ConfId>, loaded: seq<Loaded>, k: nat)
    requires Rounds(ws, ids, loaded) && k < |ws|
    ensures ws[k].confs == ws[0].confs
  {
    if k > 0 {
      RoundsConfs(ws, ids, loaded, k - 1);
      assert Round(ws[k - 1], ids[k - 1], loaded[k - 1], ws[k]);
    }
  }

  // ------------------------------------------------------------- settling

  /** A machine without a section: one that is down goes, any other is being removed, asked to stop if it is up. */
  ghost predicate Dismissed(w: World, v: VmId, secs: int, timerOk: bool, w': World)
    requires v in w.vms
  {
    var s, asked := w.vms[v].state, w.vms[v].state in {LOAD, RUN};
    if s == TERMINATE then v !in w'.vms
    else
      && v in w'.vms && w'.vms[v].state == REMOVE
      && w'.vms[v].pid == w.vms[v].pid && w'.vms[v].taps == w.vms[v].taps && SameChild(w, w', v, asked)
      && EventsGain(w, w', v, None, if asked && timerOk then Some(secs) else None)
  }

  lemma DeleteStill(w: World, u: VmId, v: VmId)
    requires u in w.vms && v in w.vms && u != v
    ensures Unmoved(w, DeleteEntry(w, u), v)
  {
    DropCounts(w.events, AllOf(u));
  }

  lemma SettleOther(w: World, u: VmId, timerOk: bool, v: VmId)
    requires u in w.vms && v in w.vms && u != v
    ensures Unmoved(w, SettleOne(w, u, timerOk), v)
  {
    var vm, w' := w.vms[u], SettleOne(w, u, timerOk);
    if vm.newConf.None? && vm.state in {LOAD, RUN} {
      AskStill(w, u, StopTimeout(w, u), timerOk, REMOVE, v);
      var w1 := AskToStop(w, u, StopTimeout(w, u), timerOk, REMOVE);
      QuietStill(w1, w', v);
      UnmovedTrans(w, w1, w', v);
    } else if vm.newConf.None? && vm.state == TERMINATE {
      var w1 := UnlinkConf(w, vm.conf);
      QuietStill(w, w1, v);
      DeleteStill(w1, u, v);
      UnmovedTrans(w, w1, w', v);
    } else {
      QuietStill(w, w', v);
    }
  }

  lemma SettleMine(w: World, v: VmId, timerOk: bool)
    requires v in w.vms
    ensures var w' := SettleOne(w, v, timerOk);
      if w.vms[v].newConf.Some? then Still(w, w', v) && w'.vms[v].conf == w.vms[v].newConf.value
      else Dismissed(w, v, StopTimeout(w, v), timerOk, w')
  {
    if w.vms[v].newConf.None? && w.vms[v].state in {LOAD, RUN} {
      SettleAsked(w, v, timerOk);
    }
  }

  lemma SettleAsked(w: World, v: VmId, timerOk: bool)
    requires v in w.vms && w.vms[v].newConf.None? && w.vms[v].state in {LOAD, RUN}
    ensures Dismissed(w, v, StopTimeout(w, v), timerOk, SettleOne(w, v, timerOk))
  {
    var secs := StopTimeout(w, v);
    AskAnswers(w, v, secs, timerOk, REMOVE);
    var w1 := AskToStop(w, v, secs, timerOk, REMOVE);
    assert SettleOne(w, v, timerOk) == UnlinkConf(w1, w.vms[v].conf);
    GainFrame(w, w, w1, UnlinkConf(w1, w.vms[v].conf), v, None, if timerOk then Some(secs) else None);
  }

  lemma {:induction false} SettleAllOther(w: World, vs: seq<VmId>, noTimer: set<VmId>, v: VmId)
    requires v in w.vms && v !in vs
    ensures Unmoved(w, SettleAll(w, vs, noTimer), v)
  {
    if vs == [] {
      QuietStill(w, w, v);
    } else {
      var n := |vs| - 1;
      SettleAllOther(w, vs[..n], noTimer, v);
      var w1 := SettleAll(w, vs[..n], noTimer);
      assert vs[n] in vs;
      if vs[n] in w1.vms {
        SettleOther(w1, vs[n], vs[n] !in noTimer, v);
        UnmovedTrans(w, w1, SettleOne(w1, vs[n], vs[n] !in noTimer), v);
      }
    }
  }

  /** A machine that has a section is left as it is, and points at the section afterwards. */
  lemma {:induction false} SettleAllMatched(w: World, vs: seq<VmId>, noTimer: set<VmId>, v: VmId)
    requires v in w.vms && w.vms[v].newConf.Some? && NoDup(vs) && v in vs
    ensures var w' := SettleAll(w, vs, noTimer); Still(w, w', v) && w'.vms[v].conf == w.vms[v].newConf.value
  {
    var n := |vs| - 1;
    var w1 := SettleAll(w, vs[..n], noTimer);
    LastIsNoOther(vs);
    assert vs == vs[..n] + [vs[n]];
    if vs[n] == v {
      SettleAllOther(w, vs[..n], noTimer, v);
      SettleMine(w1, v, v !in noTimer);
      StillTrans(w, w1, SettleOne(w1, v, v !in noTimer), v);
    } else {
      SettleAllMatched(w, vs[..n], noTimer, v);
      if vs[n] in w1.vms {
        SettleOther(w1, vs[n], vs[n] !in noTimer, v);
        StillTrans(w, w1, SettleOne(w1, vs[n], vs[n] !in noTimer), v);
      }
    }
  }

  lemma {:induction false} FreeAllStill(w: World, cs: seq<ConfId>)
    ensures var w' := FreeAll(w, cs);
      w'.vms == w.vms && w'.children == w.children && w'.events == w.events && w'.lastTimer == w.lastTimer
  {
    if cs != [] { FreeAllStill(w, cs[..|cs| - 1]); }
  }

  // ------------------------------------------------------------- the whole reload

  lemma BeginStill(w: World, loaded: seq<Loaded>, v: VmId)
    requires v in w.vms && w.vms[v].conf in w.confs && w.vms[v].conf < w.nextConf
    ensures var b := Begin(w, loaded);
      && Still(w, b, v) && b.vms[v] == w.vms[v].(newConf := None)
      && b.vms[v].conf in b.confs && b.confs[b.vms[v].conf] == w.confs[w.vms[v].conf]
  {
  }

  lemma BeginRounds(w: World, loaded: seq<Loaded>) returns (ws: seq<World>)
    requires Listed(w) && ReloadFresh(w, loaded)
    ensures var b, ids := Begin(w, loaded), Ids(w.nextConf, |loaded|);
      && Rounds(ws, ids, loaded) && ws[0] == b && (forall c :: c in ids ==> c in b.confs)
      && ws[|ids|] == MatchAll(b, ids, loaded) && Listed(ws[|ids|])
  {
    var b, ids := Begin(w, loaded), Ids(w.nextConf, |loaded|);
    ListedFrame(w, b);
    BeginNames(w, loaded);
    ws := MakeRounds(b, ids, loaded);
    MatchAllListed(b, ids, loaded);
  }

  lemma BeginOnly(w: World, loaded: seq<Loaded>, v: VmId, name: string)
    requires OnlyEntry(w, v, name) && (forall u :: u in w.vms ==> w.vms[u].conf in w.confs)
    requires forall c :: c in w.confs ==> c < w.nextConf
    ensures OnlyEntry(Begin(w, loaded), v, name)
  {
    var b := Begin(w, loaded);
    forall u | u in w.vms ensures HasName(b, u, name) <==> HasName(w, u, name) {
      BeginStill(w, loaded, u);
    }
  }

  /**
   What a reload does to a machine that has a section of its own, whatever else is in the file and
   whatever becomes of the other machines.
   */
  lemma ReloadAnswer(w: World, loaded: seq<Loaded>, noTimer: set<VmId>, v: VmId, name: string, i: nat)
    requires Listed(w) && Owned(w) && ReloadFresh(w, loaded)
    requires HasName(w, v, name) && OnlySection(loaded, i, name)
    ensures var w' := ReloadAll(w, loaded, noTimer);
      && Answered(w, v, loaded[i].conf, loaded[i].differs, loaded[i].o, w')
      && w'.vms[v].conf == w.nextConf + i
  {
    var ws := BeginRounds(w, loaded);
    var n, ids := |loaded|, Ids(w.nextConf, |loaded|);
    BeginOnly(w, loaded, v, name);
    BeginStill(w, loaded, v);
    RoundsConfs(ws, ids, loaded, i);
    RoundsAnswer(ws, ids, loaded, v, name, i);
    SettledStill(ws[n], ids, noTimer, v);
    AnsweredFrame(w, ws[0], ws[n], ReloadAll(w, loaded, noTimer), v, loaded[i].conf, loaded[i].differs, loaded[i].o);
  }

  lemma SettledStill(w1: World, ids: seq<ConfId>, noTimer: set<VmId>, v: VmId)
    requires Listed(w1) && v in w1.vms && w1.vms[v].newConf.Some?
    ensures var w2 := SettleAll(w1, w1.vmList, noTimer);
      var w' := FreeAll(w2, w2.confList).(confList := ids);
      Still(w1, w', v) && w'.vms[v].conf == w1.vms[v].newConf.value
  {
    SettleAllMatched(w1, w1.vmList, noTimer, v);
    var w2 := SettleAll(w1, w1.vmList, noTimer);
    FreeAllStill(w2, w2.confList);
    var w' := FreeAll(w2, w2.confList).(confList := ids);
    assert Still(w2, w', v);
    StillTrans(w1, w2, w', v);
  }

  // ------------------------------------------------------------- machines without a section

  /** The configuration is there, and no other entry has it or will have it. */
  ghost predicate Sole(w: World, v: VmId, c: ConfId) {
    && v in w.vms && w.vms[v].conf == c && c in w.confs
    && forall u :: u in w.vms && u != v ==> w.vms[u].conf != c && w.vms[u].newConf != Some(c)
  }

  lemma RoundSole(w: World, c: ConfId, l: Loaded, w': World, v: VmId, mine: ConfId)
    requires Round(w, c, l, w') && Unmoved(w, w', v) && Sole(w, v, mine) && c != mine
    ensures Sole(w', v, mine)
  {
    var found := Lookup(w, w.vmList, w.confs[c].name);
    if found.None? {
      NewEntryNamed(w, c, l.o);
    } else {
      FoundNamed(w, c, found.value, l.differs, l.o);
    }
  }

  lemma {:induction false} RoundsSole(ws: seq<World>, ids: seq<ConfId>, loaded: seq<Loaded>, v: VmId, name: string,
                                      mine: ConfId, k: nat)
    requires Rounds(ws, ids, loaded) && k < |ws| && OnlyEntry(ws[0], v, name) && Sole(ws[0], v, mine) && mine !in ids
    requires forall i :: 0 <= i < |loaded| ==> loaded[i].conf.name != name
    ensures Sole(ws[k], v, mine)
  {
    if k > 0 {
      RoundsSole(ws, ids, loaded, v, name, mine, k - 1);
      RoundsOnly(ws, ids, loaded, v, name, 0, k - 1);
      OtherRound(ws[k - 1], ids[k - 1], loaded[k - 1], ws[k], v, name);
      RoundSole(ws[k - 1], ids[k - 1], loaded[k - 1], ws[k], v, mine);
    }
  }

  lemma SettleConf(w: World, u: VmId, timerOk: bool, c: ConfId)
    requires u in w.vms && c in w.confs && w.vms[u].conf != c && w.vms[u].newConf != Some(c)
    ensures var w' := SettleOne(w, u, timerOk);
      && c in w'.confs && w'.confs[c] == w.confs[c]
      && (u in w'.vms ==> w'.vms[u].conf != c && w'.vms[u].newConf != Some(c))
  {
    if w.vms[u].newConf.None? && w.vms[u].state in {LOAD, RUN} {
      AskToStopShape(w, u, StopTimeout(w, u), timerOk, REMOVE);
    }
  }

  lemma SettleSole(w: World, u: VmId, timerOk: bool, v: VmId, c: ConfId)
    requires Sole(w, v, c) && u in w.vms && u != v
    ensures var w' := SettleOne(w, u, timerOk); Sole(w', v, c) && w'.confs[c] == w.confs[c]
  {
    SettleOther(w, u, timerOk, v);
    SettleOneFrame(w, u, timerOk);
    SettleConf(w, u, timerOk, c);
  }

  lemma {:induction false} SettleAllSole(w: World, vs: seq<VmId>, noTimer: set<VmId>, v: VmId, c: ConfId)
    requires Sole(w, v, c) && v !in vs
    ensures var w' := SettleAll(w, vs, noTimer); Sole(w', v, c) && w'.confs[c] == w.confs[c]
  {
    if vs != [] {
      var n := |vs| - 1;
      SettleAllSole(w, vs[..n], noTimer, v, c);
      var w1 := SettleAll(w, vs[..n], noTimer);
      assert vs[n] in vs;
      if vs[n] in w1.vms { SettleSole(w1, vs[n], vs[n] !in noTimer, v, c); }
    }
  }

  lemma DismissedFrame(w: World, w1: World, w2: World, w3: World, v: VmId, secs: int, timerOk: bool)
    requires Still(w, w1, v) && Dismissed(w1, v, secs, timerOk, w2)
    requires if v in w2.vms then Still(w2, w3, v) else v !in w3.vms
    ensures Dismissed(w, v, secs, timerOk, w3)
  {
    forall timer | EventsGain(w1, w2, v, None, timer) && v in w2.vms ensures EventsGain(w, w3, v, None, timer) {
      GainTrans(w, w1, w2, v, None, timer);
      GainTrans(w, w2, w3, v, None, timer);
    }
  }

  lemma {:induction false} SettleAllDismissed(w: World, vs: seq<VmId>, noTimer: set<VmId>, v: VmId, c: ConfId)
    requires Sole(w, v, c) && w.vms[v].newConf.None? && NoDup(vs) && v in vs
    ensures Dismissed(w, v, w.confs[c].stopTimeout, v !in noTimer, SettleAll(w, vs, noTimer))
  {
    var n := |vs| - 1;
    var w1 := SettleAll(w, vs[..n], noTimer);
    LastIsNoOther(vs);
    assert vs == vs[..n] + [vs[n]];
    if vs[n] == v {
      SettleAllOther(w, vs[..n], noTimer, v);
      SettleAllSole(w, vs[..n], noTimer, v, c);
      SettleMine(w1, v, v !in noTimer);
      var w2 := SettleOne(w1, v, v !in noTimer);
      if v in w2.vms { StillSelf(w2, v); }
      DismissedFrame(w, w1, w2, w2, v, w.confs[c].stopTimeout, v !in noTimer);
    } else {
      SettleAllDismissed(w, vs[..n], noTimer, v, c);
      if vs[n] in w1.vms {
        var w2 := SettleOne(w1, vs[n], vs[n] !in noTimer);
        SettleOneFrame(w1, vs[n], vs[n] !in noTimer);
        if v in w1.vms { SettleOther(w1, vs[n], vs[n] !in noTimer, v); }
        StillSelf(w, v);
        DismissedFrame(w, w, w1, w2, v, w.confs[c].stopTimeout, v !in noTimer);
      }
    }
  }

  lemma BeginSole(w: World, loaded: seq<Loaded>, v: VmId)
    requires Owned(w) && v in w.vms
    ensures Sole(Begin(w, loaded), v, w.vms[v].conf)
    ensures Begin(w, loaded).confs[w.vms[v].conf] == w.confs[w.vms[v].conf]
  {
    BeginStill(w, loaded, v);
    forall u | u in w.vms && u != v ensures w.vms[u].conf != w.vms[v].conf {
      assert VmName(w, u) != VmName(w, v);
    }
  }

  /** What a reload does to a machine that the file has no section for. */
  lemma ReloadDismisses(w: World, loaded: seq<Loaded>, noTimer: set<VmId>, v: VmId)
    requires Listed(w) && Owned(w) && ReloadFresh(w, loaded) && v in w.vms
    requires forall i :: 0 <= i < |loaded| ==> loaded[i].conf.name != VmName(w, v)
    ensures Dismissed(w, v, w.confs[w.vms[v].conf].stopTimeout, v !in noTimer, ReloadAll(w, loaded, noTimer))
  {
    var ws := BeginRounds(w, loaded);
    var n, ids, name, c := |loaded|, Ids(w.nextConf, |loaded|), VmName(w, v), w.vms[v].conf;
    BeginOnly(w, loaded, v, name);
    BeginStill(w, loaded, v);
    BeginSole(w, loaded, v);
    OtherRounds(ws, ids, loaded, v, name, 0, n);
    RoundsSole(ws, ids, loaded, v, name, c, n);
    RoundsConfs(ws, ids, loaded, n);
    var w1 := ws[n];
    SettleAllDismissed(w1, w1.vmList, noTimer, v, c);
    var w2 := SettleAll(w1, w1.vmList, noTimer);
    FreeAllStill(w2, w2.confList);
    StillTrans(w, ws[0], w1, v);
    var w' := ReloadAll(w, loaded, noTimer);
    if v in w2.vms { assert Still(w2, w', v); }
    DismissedFrame(w, w1, w2, w', v, w.confs[c].stopTimeout, v !in noTimer);
  }

  // ------------------------------------------------------------- sections without a machine

  /** A new machine stays down without boot, waits if there is a delay, and is started otherwise. */
  ghost predicate BootedAs(w: World, v: VmId, conf: Conf, o: Outcome, w': World) {
    && v in w'.vms
    && if conf.boot == NO then
         w'.vms[v].state == TERMINATE && ChildFrom(w, w', v) && EventsGain(w, w', v, None, None)
       else if conf.bootDelay > 0 then
         && w'.vms[v].state == TERMINATE && ChildFrom(w, w', v)
         && EventsGain(w, w', v, None, if o.timerOk then Some(conf.bootDelay) else None)
       else StartedHere(w, v, true, conf, o, w')
  }

  lemma AddEntryBoots(w: World, c: ConfId, o: Outcome)
    requires c in w.confs && Fresh(w, o) && w.nextVm !in w.vms && Childless(w, w.nextVm)
    ensures var w' := AddEntry(w, c, o); BootedAs(w, w.nextVm, w.confs[c], o, w') && w'.vms[w.nextVm].newConf == Some(c)
  {
    var v, conf := w.nextVm, w.confs[c];
    var w1 := SetNewConf(CreateEntry(w, c), v, c);
    if conf.boot != NO && conf.bootDelay > 0 {
      AddTimerGains(w1, v, conf.bootDelay, o.timerOk);
      GainFrame(w, w1, AddEntry(w, c, o), AddEntry(w, c, o), v, None, if o.timerOk then Some(conf.bootDelay) else None);
    } else if conf.boot != NO {
      StartAnswers(w1, v, o);
      StartFrame(w1, v, o);
      HereToo(w, w1, v, conf, o, Start(w1, v, o).0);
    }
  }

  lemma BootedStays(w: World, w1: World, w2: World, v: VmId, conf: Conf, o: Outcome)
    requires BootedAs(w, v, conf, o, w1) && Still(w1, w2, v)
    ensures BootedAs(w, v, conf, o, w2)
  {
    forall exit, timer | EventsGain(w, w1, v, exit, timer) ensures EventsGain(w, w2, v, exit, timer) {
      GainTrans(w, w1, w2, v, exit, timer);
    }
  }

  ghost predicate NoEntry(w: World, name: string) {
    forall u :: !HasName(w, u, name)
  }

  /** Events and children belong to entries that there are or were. */
  ghost predicate Known(w: World) {
    && (forall e :: e in w.events ==> e.vm < w.nextVm)
    && (forall p :: p in w.children ==> w.children[p].vm < w.nextVm)
  }

  /** Only events and children of `u` may have changed. */
  ghost predicate EventsOf(w: World, w': World, u: VmId) {
    && w.lastTimer <= w'.lastTimer && w.nextVm <= w'.nextVm && u < w'.nextVm
    && (forall e: Event :: e.vm != u ==> multiset(w'.events)[e] == multiset(w.events)[e])
    && (forall p :: p in w'.children ==>
          w'.children[p].vm == u || (p in w.children && w.children[p].vm == w'.children[p].vm))
  }

  lemma KnownStays(w: World, w': World, u: VmId)
    requires Known(w) && EventsOf(w, w', u)
    ensures Known(w')
  {
    forall e | e in w'.events ensures e.vm < w'.nextVm {
      if e.vm != u {
        assert multiset(w'.events)[e] > 0;
        assert e in w.events;
      }
    }
  }

  lemma AskEvents(w: World, u: VmId, secs: int, timerOk: bool, s: State)
    requires u in w.vms && u < w.nextVm
    ensures EventsOf(w, AskToStop(w, u, secs, timerOk, s), u)
  {
    AddTimerFrame(Term(w, u), u, secs, timerOk);
  }

  lemma FollowEvents(w: World, u: VmId, c: ConfId, o: Outcome)
    requires u in w.vms && u < w.nextVm && c in w.confs && Fresh(w, o)
    ensures EventsOf(w, FollowBoot(w, u, c, o), u)
  {
    if w.confs[c].boot == NO {
      AskEvents(w, u, w.confs[c].stopTimeout, o.timerOk, STOP);
    } else if w.vms[u].state == TERMINATE {
      StartEvents(SetVm(w, u, w.vms[u].(conf := c)), u, o);
    }
  }

  lemma StartEvents(w: World, u: VmId, o: Outcome)
    requires u in w.vms && u < w.nextVm && w.vms[u].conf in w.confs && Fresh(w, o)
    ensures EventsOf(w, Start(w, u, o).0, u)
  {
    StartFrame(w, u, o);
    StartAnswers(w, u, o);
  }

  lemma RebootEvents(w: World, u: VmId, conf: Conf, timerOk: bool)
    requires u in w.vms && u < w.nextVm
    ensures EventsOf(w, RebootEntry(w, u, conf, timerOk), u)
  {
    AddTimerFrame(w, u, Max(conf.bootDelay, 1), timerOk);
    AskEvents(w, u, conf.stopTimeout, timerOk, RESTART);
  }

  lemma AddEntryEvents(w: World, c: ConfId, o: Outcome)
    requires c in w.confs && Fresh(w, o)
    ensures EventsOf(w, AddEntry(w, c, o), w.nextVm)
  {
    var w1 := SetNewConf(CreateEntry(w, c), w.nextVm, c);
    AddTimerFrame(w1, w.nextVm, w.confs[c].bootDelay, o.timerOk);
    StartEvents(w1, w.nextVm, o);
  }

  lemma RoundEvents(w: World, c: ConfId, l: Loaded, w': World)
    requires Round(w, c, l, w') && Known(w)
    ensures Known(w') && w.lastTimer <= w'.lastTimer && w.nextVm <= w'.nextVm
  {
    var found := Lookup(w, w.vmList, w.confs[c].name);
    if found.None? {
      AddEntryEvents(w, c, l.o);
      KnownStays(w, w', w.nextVm);
    } else {
      var u, w1 := found.value, SetNewConf(w, found.value, c);
      RebootEvents(w1, u, w.confs[c], l.o.timerOk);
      FollowEvents(w1, u, c, l.o);
      KnownStays(w, w', u);
    }
  }

  lemma {:induction false} RoundsEvents(ws: seq<World>, ids: seq<ConfId>, loaded: seq<Loaded>, k: nat)
    requires Rounds(ws, ids, loaded) && Known(ws[0]) && k < |ws|
    ensures Known(ws[k]) && ws[0].lastTimer <= ws[k].lastTimer && ws[0].nextVm <= ws[k].nextVm
  {
    if k > 0 {
      RoundsEvents(ws, ids, loaded, k - 1);
      RoundEvents(ws[k - 1], ids[k - 1], loaded[k - 1], ws[k]);
    }
  }

  /** A machine that is not there yet has no events. */
  lemma UnbornGains(w: World, w': World, v: VmId)
    requires Known(w) && Known(w') && w.lastTimer <= w'.lastTimer && w.nextVm <= w'.nextVm <= v
    ensures EventsGain(w, w', v, None, None)
  {
    forall e: Event | e.vm == v ensures multiset(w.events)[e] == 0 == multiset(w'.events)[e] {
      assert e !in w.events && e !in w'.events;
    }
  }

  lemma OtherRoundNoEntry(w: World, c: ConfId, l: Loaded, w': World, name: string)
    requires Round(w, c, l, w') && NoEntry(w, name) && l.conf.name != name
    ensures NoEntry(w', name)
  {
    var found := Lookup(w, w.vmList, w.confs[c].name);
    if found.None? {
      NewEntryNamed(w, c, l.o);
    } else {
      FoundNamed(w, c, found.value, l.differs, l.o);
      assert w.confs[c].name == VmName(w, found.value);
    }
    forall u | u in w'.vms ensures !HasName(w', u, name) {
      if u in w.vms { assert !HasName(w, u, name); }
    }
  }

  lemma {:induction false} RoundsNoEntry(ws: seq<World>, ids: seq<ConfId>, loaded: seq<Loaded>, name: string, k: nat)
    requires Rounds(ws, ids, loaded) && k < |ws| && NoEntry(ws[0], name)
    requires forall i :: 0 <= i < k ==> loaded[i].conf.name != name
    ensures NoEntry(ws[k], name)
  {
    if k > 0 {
      RoundsNoEntry(ws, ids, loaded, name, k - 1);
      OtherRoundNoEntry(ws[k - 1], ids[k - 1], loaded[k - 1], ws[k], name);
    }
  }

  lemma NewRound(w: World, c: ConfId, l: Loaded, w': World, name: string)
    requires Round(w, c, l, w') && NoEntry(w, name) && l.conf.name == name && Known(w)
    ensures BootedAs(w, w.nextVm, l.conf, l.o, w') && OnlyEntry(w', w.nextVm, name)
    ensures w.nextVm !in w.vms && w'.vms[w.nextVm].newConf == Some(c)
  {
    assert Lookup(w, w.vmList, w.confs[c].name).None?;
    AddEntryBoots(w, c, l.o);
    NewEntryNamed(w, c, l.o);
    forall u | u in w.vms ensures !HasName(w', u, name) {
      assert !HasName(w, u, name);
    }
  }

  lemma BootedBefore(w: World, w1: World, w2: World, v: VmId, conf: Conf, o: Outcome)
    requires EventsGain(w, w1, v, None, None) && v !in w1.vms && BootedAs(w1, v, conf, o, w2)
    ensures BootedAs(w, v, conf, o, w2)
  {
    forall exit, timer | EventsGain(w1, w2, v, exit, timer) ensures EventsGain(w, w2, v, exit, timer) {
      GainTrans(w, w1, w2, v, exit, timer);
    }
  }

  /** Every entry that is new after the rounds was made in one of them. */
  lemma {:induction false} Newborn(ws: seq<World>, ids: seq<ConfId>, loaded: seq<Loaded>, v: VmId, k: nat)
      returns (i: nat)
    requires Rounds(ws, ids, loaded) && k < |ws| && v in ws[k].vms && v !in ws[0].vms
    ensures i < k && v == ws[i].nextVm && NoEntry(ws[i], loaded[i].conf.name)
  {
    var n := k - 1;
    var w, c, l := ws[n], ids[n], loaded[n];
    assert Round(w, c, l, ws[k]);
    if v in w.vms {
      i := Newborn(ws, ids, loaded, v, n);
    } else {
      i := n;
      var found := Lookup(w, w.vmList, w.confs[c].name);
      if found.None? {
        NewEntryNamed(w, c, l.o);
      } else {
        FoundNamed(w, c, found.value, l.differs, l.o);
      }
    }
  }

  lemma RoundsBoot(ws: seq<World>, ids: seq<ConfId>, loaded: seq<Loaded>, i: nat)
    requires Rounds(ws, ids, loaded) && i < |ids| && NoEntry(ws[i], loaded[i].conf.name) && Known(ws[0])
    requires OnlySection(loaded, i, loaded[i].conf.name)
    ensures var v, w' := ws[i].nextVm, ws[|ids|];
      && ws[0].nextVm <= v && v in w'.vms && w'.vms[v].newConf == Some(ids[i])
      && BootedAs(ws[0], v, loaded[i].conf, loaded[i].o, w')
  {
    var v, name := ws[i].nextVm, loaded[i].conf.name;
    RoundsEvents(ws, ids, loaded, i);
    UnbornGains(ws[0], ws[i], v);
    NewRound(ws[i], ids[i], loaded[i], ws[i + 1], name);
    OtherRounds(ws, ids, loaded, v, name, i + 1, |ids|);
    BootedBefore(ws[0], ws[i], ws[i + 1], v, loaded[i].conf, loaded[i].o);
    BootedStays(ws[0], ws[i + 1], ws[|ids|], v, loaded[i].conf, loaded[i].o);
  }

  lemma BootedThrough(w: World, b: World, w1: World, w': World, v: VmId, conf: Conf, o: Outcome)
    requires b.events == w.events && b.lastTimer == w.lastTimer && v !in b.vms
    requires BootedAs(b, v, conf, o, w1) && Still(w1, w', v)
    ensures BootedAs(w, v, conf, o, w')
  {
    BootedStays(b, w1, w', v, conf, o);
    BootedBefore(w, b, w', v, conf, o);
  }

  /** What a reload does with a section that no machine has the name of. */
  lemma ReloadBoots(w: World, loaded: seq<Loaded>, noTimer: set<VmId>, name: string, i: nat) returns (v: VmId)
    requires Listed(w) && Owned(w) && Known(w) && ReloadFresh(w, loaded)
    requires NoEntry(w, name) && OnlySection(loaded, i, name)
    ensures var w' := ReloadAll(w, loaded, noTimer);
      && v !in w.vms && BootedAs(w, v, loaded[i].conf, loaded[i].o, w') && w'.vms[v].conf == w.nextConf + i
  {
    var ws := BeginRounds(w, loaded);
    var n, ids, b := |loaded|, Ids(w.nextConf, |loaded|), Begin(w, loaded);
    BeginNoEntry(w, loaded, name);
    RoundsNoEntry(ws, ids, loaded, name, i);
    RoundsBoot(ws, ids, loaded, i);
    v := ws[i].nextVm;
    SettledStill(ws[n], ids, noTimer, v);
    BootedThrough(w, b, ws[n], ReloadAll(w, loaded, noTimer), v, loaded[i].conf, loaded[i].o);
  }

  lemma BeginNoEntry(w: World, loaded: seq<Loaded>, name: string)
    requires Owned(w) && NoEntry(w, name)
    ensures NoEntry(Begin(w, loaded), name)
  {
    var b := Begin(w, loaded);
    forall u | u in w.vms ensures !HasName(b, u, name) {
      BeginStill(w, loaded, u);
      assert !HasName(w, u, name);
    }
  }

  /** And there are no other new machines. */
  lemma ReloadNewborn(w: World, loaded: seq<Loaded>, noTimer: set<VmId>, v: VmId) returns (i: nat)
    requires Listed(w) && Owned(w) && Known(w) && ReloadFresh(w, loaded) && DistinctSections(loaded)
    requires v !in w.vms && v in ReloadAll(w, loaded, noTimer).vms
    ensures i < |loaded| && BootedAs(w, v, loaded[i].conf, loaded[i].o, ReloadAll(w, loaded, noTimer))
  {
    var ws := BeginRounds(w, loaded);
    var n, ids, b := |loaded|, Ids(w.nextConf, |loaded|), Begin(w, loaded);
    SettledEntries(ws[n], ids, noTimer, v);
    i := Newborn(ws, ids, loaded, v, n);
    RoundsBoot(ws, ids, loaded, i);
    SettledStill(ws[n], ids, noTimer, v);
    BootedThrough(w, b, ws[n], ReloadAll(w, loaded, noTimer), v, loaded[i].conf, loaded[i].o);
  }

  lemma SettledEntries(w1: World, ids: seq<ConfId>, noTimer: set<VmId>, v: VmId)
    ensures var w2 := SettleAll(w1, w1.vmList, noTimer);
      v in FreeAll(w2, w2.confList).(confList := ids).vms ==> v in w1.vms
  {
    SettleAllEntries(w1, w1.vmList, noTimer, v);
    var w2 := SettleAll(w1, w1.vmList, noTimer);
    FreeAllStill(w2, w2.confList);
  }

  lemma {:induction false} SettleAllEntries(w: World, vs: seq<VmId>, noTimer: set<VmId>, v: VmId)
    ensures v in SettleAll(w, vs, noTimer).vms ==> v in w.vms
  {
    if vs != [] {
      var n := |vs| - 1;
      SettleAllEntries(w, vs[..n], noTimer, v);
      var w1 := SettleAll(w, vs[..n], noTimer);
      if vs[n] in w1.vms { SettleOneFrame(w1, vs[n], vs[n] !in noTimer); }
    }
  }

  // ------------------------------------------------------------- start-up

  lemma BootOneBoots(w: World, c: ConfId, o: Outcome)
    requires c in w.confs && Fresh(w, o) && w.nextVm !in w.vms && Known(w)
    ensures BootedAs(w, w.nextVm, w.confs[c], o, BootOne(w, c, o)) && BootOne(w, c, o).nextVm == w.nextVm + 1
  {
    var v, conf := w.nextVm, w.confs[c];
    var w1 := CreateEntry(w, c);
    if conf.boot != NO && conf.bootDelay > 0 {
      AddTimerGains(w1, v, conf.bootDelay, o.timerOk);
      GainFrame(w, w1, BootOne(w, c, o), BootOne(w, c, o), v, None, if o.timerOk then Some(conf.bootDelay) else None);
    } else if conf.boot != NO {
      StartAnswers(w1, v, o);
      StartFrame(w1, v, o);
      HereToo(w, w1, v, conf, o, Start(w1, v, o).0);
    }
  }

  lemma BootOneUnmoved(w: World, c: ConfId, o: Outcome, v: VmId)
    requires c in w.confs && Fresh(w, o) && v in w.vms && v < w.nextVm
    ensures Unmoved(w, BootOne(w, c, o), v)
  {
    var u, w1 := w.nextVm, CreateEntry(w, c);
    QuietStill(w, w1, v);
    if w.confs[c].boot != NO {
      if w.confs[c].bootDelay > 0 {
        AddTimerStill(w1, u, w.confs[c].bootDelay, o.timerOk, v);
      } else {
        StartStill(w1, u, o, v);
      }
      UnmovedTrans(w, w1, BootOne(w, c, o), v);
    }
  }

  lemma BootOneKnown(w: World, c: ConfId, o: Outcome)
    requires c in w.confs && Known(w) && Below(w) && Fresh(w, o)
    ensures var w' := BootOne(w, c, o);
      Known(w') && Below(w') && w.lastTimer <= w'.lastTimer && w'.nextVm == w.nextVm + 1
  {
    BootOneEvents(w, c, o);
    KnownStays(w, BootOne(w, c, o), w.nextVm);
  }

  lemma BootOneEvents(w: World, c: ConfId, o: Outcome)
    requires c in w.confs && Below(w) && Fresh(w, o)
    ensures var w' := BootOne(w, c, o);
      EventsOf(w, w', w.nextVm) && Below(w') && w'.nextVm == w.nextVm + 1
  {
    var v, w1, conf := w.nextVm, CreateEntry(w, c), w.confs[c];
    if conf.boot != NO {
      if conf.bootDelay > 0 {
        AddTimerFrame(w1, v, conf.bootDelay, o.timerOk);
      } else {
        StartEvents(w1, v, o);
        StartFrame(w1, v, o);
      }
    }
  }

  ghost predicate Below(w: World) {
    forall v :: v in w.vms ==> v < w.nextVm
  }

  /** The rounds of the start-up loop. */
  ghost predicate BootRounds(ws: seq<World>, cs: seq<ConfId>, os: seq<Outcome>) {
    && |cs| == |os| && |ws| == |cs| + 1
    && forall k :: 0 <= k < |cs| ==> BootRound(ws[k], cs[k], os[k], ws[k + 1])
  }

  ghost predicate BootRound(w: World, c: ConfId, o: Outcome, w': World) {
    c in w.confs && Fresh(w, o) && w' == BootOne(w, c, o)
  }

  lemma {:induction false} MakeBootRounds(w: World, cs: seq<ConfId>, os: seq<Outcome>) returns (ws: seq<World>)
    requires |cs| == |os| && (forall c :: c in cs ==> c in w.confs) && BootsFresh(w, cs, os)
    ensures BootRounds(ws, cs, os) && ws[0] == w && ws[|cs|] == BootAll(w, cs, os)
    decreases |cs|
  {
    if cs == [] {
      ws := [w];
    } else {
      var n := |cs| - 1;
      assert cs[n] in cs && forall c :: c in cs[..n] ==> c in cs;
      var before := MakeBootRounds(w, cs[..n], os[..n]);
      var w1 := BootAll(w, cs[..n], os[..n]);
      assert BootRound(w1, cs[n], os[n], BootOne(w1, cs[n], os[n]));
      ws := before + [BootOne(w1, cs[n], os[n])];
      forall k | 0 <= k < |cs| ensures BootRound(ws[k], cs[k], os[k], ws[k + 1]) {
        if k < n { assert BootRound(before[k], cs[..n][k], os[..n][k], before[k + 1]); }
      }
    }
  }

  lemma {:induction false} BootsCount(ws: seq<World>, cs: seq<ConfId>, os: seq<Outcome>, k: nat)
    requires BootRounds(ws, cs, os) && k < |ws| && Known(ws[0]) && Below(ws[0])
    ensures ws[k].nextVm == ws[0].nextVm + k && Known(ws[k]) && Below(ws[k]) && ws[0].lastTimer <= ws[k].lastTimer
    ensures ws[k].confs == ws[0].confs
  {
    CountOfAll(ws, cs, os, k);
  }

  /** After `k` rounds of the loop. */
  ghost function CountOf(w: World, k: nat, w': World): Health {
    if w'.nextVm == w.nextVm + k && Known(w') && Below(w') && w.lastTimer <= w'.lastTimer && w'.confs == w.confs
    then Well else Ill
  }

  lemma {:induction false} CountOfAll(ws: seq<World>, cs: seq<ConfId>, os: seq<Outcome>, k: nat)
    requires BootRounds(ws, cs, os) && k < |ws| && CountOf(ws[0], 0, ws[0]) == Well
    ensures CountOf(ws[0], k, ws[k]) == Well
  {
    if k > 0 {
      var n := k - 1;
      CountOfAll(ws, cs, os, n);
      CountOfNext(ws[0], n, ws[n], cs[n], os[n], ws[n + 1]);
    }
  }

  lemma CountOfNext(w0: World, k: nat, w: World, c: ConfId, o: Outcome, w': World)
    requires CountOf(w0, k, w) == Well && BootRound(w, c, o, w')
    ensures CountOf(w0, k + 1, w') == Well
  {
    BootOneKnown(w, c, o);
  }

  lemma {:induction false} BootsBoot(ws: seq<World>, cs: seq<ConfId>, os: seq<Outcome>, i: nat, k: nat)
    requires BootRounds(ws, cs, os) && i < k < |ws| && Known(ws[0]) && Below(ws[0]) && cs[i] in ws[0].confs
    ensures BootingOf(ws[0], ws[0].nextVm + i, ws[0].confs[cs[i]], os[i], ws[k]) == Well
    decreases k
  {
    var n, v := k - 1, ws[0].nextVm + i;
    BootsCount(ws, cs, os, n);
    assert BootRound(ws[n], cs[n], os[n], ws[k]);
    if i == n {
      BootsLast(ws[0], ws[n], cs[n], os[n]);
    } else {
      BootsBoot(ws, cs, os, i, n);
      BootOneUnmoved(ws[n], cs[n], os[n], v);
      BootedStays(ws[0], ws[n], ws[k], v, ws[0].confs[cs[i]], os[i]);
    }
  }

  lemma BootsLast(w: World, w1: World, c: ConfId, o: Outcome)
    requires Known(w) && Known(w1) && Below(w1) && w.lastTimer <= w1.lastTimer && w.nextVm <= w1.nextVm
    requires c in w1.confs && Fresh(w1, o)
    ensures BootedAs(w, w1.nextVm, w1.confs[c], o, BootOne(w1, c, o))
  {
    BootOneBoots(w1, c, o);
    UnbornGains(w, w1, w1.nextVm);
    BootedBefore(w, w1, BootOne(w1, c, o), w1.nextVm, w1.confs[c], o);
  }

  /** At start-up the machine of the `i`-th section is booted as the section asks. */
  lemma StartUpBoots(w: World, os: seq<Outcome>, i: nat)
    requires Fresh0(w) && i < |w.confList| == |os| && BootsFresh(w, w.confList, os)
    ensures w.confList[i] in w.confs
    ensures BootedAs(w, w.nextVm + i, w.confs[w.confList[i]], os[i], BootAll(w, w.confList, os))
  {
    BootedAtStart(w, w.confList, os, i);
  }

  ghost function BootingOf(w: World, v: VmId, conf: Conf, o: Outcome, w': World): Health {
    if BootedAs(w, v, conf, o, w') then Well else Ill
  }

  lemma BootedAtStart(w: World, cs: seq<ConfId>, os: seq<Outcome>, i: nat)
    requires Known(w) && Below(w) && i < |cs| == |os| && (forall c :: c in cs ==> c in w.confs) && BootsFresh(w, cs, os)
    ensures cs[i] in cs && BootingOf(w, w.nextVm + i, w.confs[cs[i]], os[i], BootAll(w, cs, os)) == Well
  {
    assert cs[i] in cs;
    var ws := MakeBootRounds(w, cs, os);
    BootsEnd(w, ws, cs, os, i, BootAll(w, cs, os));
  }

  lemma BootsEnd(w: World, ws: seq<World>, cs: seq<ConfId>, os: seq<Outcome>, i: nat, w': World)
    requires BootRounds(ws, cs, os) && i < |cs| && Known(w) && Below(w) && cs[i] in w.confs
    requires w == ws[0] && w' == ws[|cs|]
    ensures BootingOf(w, w.nextVm + i, w.confs[cs[i]], os[i], w') == Well
  {
    BootsBoot(ws, cs, os, i, |cs|);
  }
}
