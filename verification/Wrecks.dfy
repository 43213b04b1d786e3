/**
 What a start that ends badly leaves behind: a machine that is down and yet holds interfaces or
 an exit event.  Nothing in a reload or in the start-up loop repairs it.
 */
module Wrecks {
  import opened DaemonState
  import opened Resources
  import opened Lifecycle
  import opened Reload
  import opened ReloadProof

  ghost predicate HasExit(w: World, v: VmId) {
    exists p :: Exit(v, p) in w.events
  }

  ghost predicate Wreck(w: World, v: VmId) {
    v in w.vms && w.vms[v].state == TERMINATE && (w.vms[v].taps != [] || HasExit(w, v))
  }

  lemma WreckSpoils(w: World, v: VmId)
    requires Wreck(w, v)
    ensures !Core(w, {}, multiset{})
  {
    if w.vms[v].taps == [] {
      var p :| Exit(v, p) in w.events;
      assert multiset(w.events)[Exit(v, p)] > 0;
      assert !HasChild(w, v, {});
    }
  }

  /** Every unclean start of a machine that was down and held nothing ends in a wreck. */
  lemma UncleanWrecks(w: World, v: VmId, o: Outcome)
    requires v in w.vms && w.vms[v].conf in w.confs && w.vms[v].state == TERMINATE && w.vms[v].taps == []
    requires !StartClean(w, v, o)
    ensures Wreck(Start(w, v, o).0, v)
  {
    var w' := Start(w, v, o).0;
    if StartLeavesStaleExit(w, v, o) {
      var w1 := PrepareTaps(w, v, o).0;
      var p, s := o.spawn.value, StartTarget(TERMINATE, w.confs[w.vms[v].conf].loader).value;
      var w2 := Watch(Spawn(w1, v, p, s), v, p);
      assert w' == Cleanup(Reap(Kill(w2, v), v), v, o.sockOk);
      assert Exit(v, p) in w'.events;
    } else {
      TapsStay(w, v, o);
    }
  }

  lemma TapsStay(w: World, v: VmId, o: Outcome)
    requires v in w.vms && w.vms[v].conf in w.confs && w.vms[v].state == TERMINATE && w.vms[v].taps == []
    requires StartLeavesTaps(w, v, o)
    ensures var w' := Start(w, v, o).0; v in w'.vms && w'.vms[v].state == TERMINATE && w'.vms[v].taps != []
  {
    var (w1, ok) := PrepareTaps(w, v, o);
    assert w1.vms[v].taps == TapsAttempted(o.taps) != [];
    if ok {
      LaunchKeepsTaps(w1, v, o);
    }
  }

  /** Without a control socket a launch that fails leaves the machine down with its interfaces. */
  lemma LaunchKeepsTaps(w: World, v: VmId, o: Outcome)
    requires v in w.vms && w.vms[v].conf in w.confs && !o.sockOk
    requires StartTarget(w.vms[v].state, w.confs[w.vms[v].conf].loader).None? ||
             o.spawn.None? || !o.exitOk || !o.outputOk
    ensures var w' := Launch(w, v, o).0; v in w'.vms && w'.vms[v].state == TERMINATE && w'.vms[v].taps == w.vms[v].taps
  {
  }

  // ---------------------------------------------------------------- nothing repairs it

  /** `v` is as it was, and none of its exit events has gone. */
  ghost predicate Spares(w: World, w': World, v: VmId) {
    && v in w.vms && v in w'.vms && w'.vms[v] == w.vms[v]
    && (HasExit(w, v) ==> HasExit(w', v))
  }

  lemma OnlySpares(w: World, w': World, u: VmId, v: VmId)
    requires OnlyVm(w, w', u) && u != v && v in w.vms
    ensures Spares(w, w', v)
  {
    if p :| Exit(v, p) in w.events {
      assert multiset(w'.events)[Exit(v, p)] == multiset(w.events)[Exit(v, p)] > 0;
      assert Exit(v, p) in w'.events;
    }
  }

  lemma MoreEventsSpare(w: World, w': World, v: VmId)
    requires v in w.vms && v in w'.vms && w'.vms[v] == w.vms[v]
    requires forall e :: e in w.events ==> e in w'.events
    ensures Spares(w, w', v)
  {
    if p :| Exit(v, p) in w.events {
      assert Exit(v, p) in w'.events;
    }
  }

  lemma AskSpares(w: World, u: VmId, secs: int, timerOk: bool, s: State, v: VmId)
    requires u in w.vms && v in w.vms && u != v
    ensures Spares(w, AskToStop(w, u, secs, timerOk, s), v)
  {
    MoreEventsSpare(w, AskToStop(w, u, secs, timerOk, s), v);
  }

  lemma RebootSpares(w: World, u: VmId, conf: Conf, timerOk: bool, v: VmId)
    requires u in w.vms && v in w.vms && u != v
    ensures Spares(w, RebootEntry(w, u, conf, timerOk), v)
  {
    AskSpares(w, u, conf.stopTimeout, timerOk, RESTART, v);
    MoreEventsSpare(w, AddTimer(w, u, Max(conf.bootDelay, 1), timerOk), v);
    MoreEventsSpare(w, SetState(w, u, RESTART), v);
    MoreEventsSpare(w, w, v);
  }

  lemma FollowSpares(w: World, u: VmId, c: ConfId, o: Outcome, v: VmId)
    requires u in w.vms && v in w.vms && u != v && c in w.confs
    ensures Spares(w, FollowBoot(w, u, c, o), v)
  {
    AskSpares(w, u, w.confs[c].stopTimeout, o.timerOk, STOP, v);
    MoreEventsSpare(w, SetState(w, u, STOP), v);
    MoreEventsSpare(w, SetState(w, u, RESTART), v);
    MoreEventsSpare(w, w, v);
    var w1 := SetVm(w, u, w.vms[u].(conf := c));
    StartFrame(w1, u, o);
    OnlySpares(w1, Start(w1, u, o).0, u, v);
  }

  lemma AddEntrySpares(w: World, c: ConfId, o: Outcome, v: VmId)
    requires v in w.vms && v != w.nextVm && c in w.confs
    ensures Spares(w, AddEntry(w, c, o), v)
  {
    var w1 := SetNewConf(CreateEntry(w, c), w.nextVm, c);
    MoreEventsSpare(w, w1, v);
    MoreEventsSpare(w, AddTimer(w1, w.nextVm, w.confs[c].bootDelay, o.timerOk), v);
    StartFrame(w1, w.nextVm, o);
    OnlySpares(w1, Start(w1, w.nextVm, o).0, w.nextVm, v);
  }

  /** A matched entry is not found again, because the sections have different names. */
  lemma MatchOneSpares(w: World, old_: seq<ConfId>, ids: seq<ConfId>, k: nat, differs: bool, o: Outcome, v: VmId)
    requires Listed(w) && Book(w, old_, ids, k) && k < |ids| && ids[k] in w.confs && NamesDiffer(w.confs, ids)
    requires v in w.vms && w.vms[v].newConf.Some?
    ensures Spares(w, MatchOne(w, ids[k], differs, o), v)
  {
    var c := ids[k];
    var found := Lookup(w, w.vmList, w.confs[c].name);
    if found.None? {
      AddEntrySpares(w, c, o, v);
    } else {
      var u := found.value;
      NotFoundAgain(w, old_, ids, k, v, u);
      var w1 := SetNewConf(w, u, c);
      RebootSpares(w1, u, w.confs[c], o.timerOk, v);
      FollowSpares(w1, u, c, o, v);
    }
  }

  lemma NotFoundAgain(w: World, old_: seq<ConfId>, ids: seq<ConfId>, k: nat, v: VmId, u: VmId)
    requires Book(w, old_, ids, k) && k < |ids| && ids[k] in w.confs && NamesDiffer(w.confs, ids)
    requires v in w.vms && w.vms[v].newConf.Some? && HasName(w, u, w.confs[ids[k]].name)
    ensures u != v
  {
    assert BookOf(w, old_, ids, k, w.vms[v]);
    var j :| 0 <= j < k && ids[j] == w.vms[v].newConf.value;
    assert w.confs[ids[j]].name != w.confs[ids[k]].name;
  }

  // ---------------------------------------------------------------- matching

  /** A round whose start is unclean leaves a wreck, which has been matched. */
  lemma MatchOneWrecks(w: World, c: ConfId, differs: bool, o: Outcome) returns (v: VmId)
    requires HealthOf(w) == Well && c in w.confs && !MatchClean(w, c, differs, o)
    ensures var w' := MatchOne(w, c, differs, o); Wreck(w', v) && w'.vms[v].newConf.Some?
  {
    var found := Lookup(w, w.vmList, w.confs[c].name);
    if found.None? {
      v := w.nextVm;
      AddEntryWrecks(w, c, o);
    } else {
      v := found.value;
      DownHoldsNothing(w, v);
      FollowBootWrecks(SetNewConf(w, v, c), v, c, o);
    }
  }

  lemma AddEntryWrecks(w: World, c: ConfId, o: Outcome)
    requires c in w.confs && !AddEntryClean(w, c, o)
    ensures var w' := AddEntry(w, c, o); Wreck(w', w.nextVm) && w'.vms[w.nextVm].newConf.Some?
  {
    StartWrecks(SetNewConf(CreateEntry(w, c), w.nextVm, c), w.nextVm, o);
  }

  lemma FollowBootWrecks(w: World, v: VmId, c: ConfId, o: Outcome)
    requires v in w.vms && c in w.confs && w.vms[v].newConf.Some? && !FollowBootClean(w, v, c, o)
    requires w.vms[v].state == TERMINATE ==> w.vms[v].taps == []
    ensures var w' := FollowBoot(w, v, c, o); Wreck(w', v) && w'.vms[v].newConf.Some?
  {
    StartWrecks(SetVm(w, v, w.vms[v].(conf := c)), v, o);
  }

  lemma StartWrecks(w: World, v: VmId, o: Outcome)
    requires v in w.vms && w.vms[v].conf in w.confs && w.vms[v].state == TERMINATE && w.vms[v].taps == []
    requires !StartClean(w, v, o)
    ensures var w' := Start(w, v, o).0; Wreck(w', v) && w'.vms[v].newConf == w.vms[v].newConf
  {
    UncleanWrecks(w, v, o);
    StartFrame(w, v, o);
  }

  lemma DownHoldsNothing(w: World, v: VmId)
    requires HealthOf(w) == Well && v in w.vms
    ensures w.vms[v].state == TERMINATE ==> w.vms[v].taps == []
  {
  }

  lemma {:induction false} MatchAllWrecks(w: World, old_: seq<ConfId>, ids: seq<ConfId>, loaded: seq<Loaded>, k: nat)
    returns (v: VmId)
    requires |ids| == |loaded| && k <= |ids| && (forall c :: c in ids ==> c in w.confs) && NamesDiffer(w.confs, ids)
    requires HealthOf(w) == Well && Listed(w) && Book(w, old_, ids, 0)
    requires MatchesFresh(w, ids[..k], loaded[..k]) && !MatchesClean(w, ids[..k], loaded[..k])
    ensures var w' := MatchAll(w, ids[..k], loaded[..k]); Wreck(w', v) && w'.vms[v].newConf.Some?
  {
    var n := k - 1;
    assert ids[..k][..n] == ids[..n] && loaded[..k][..n] == loaded[..n];
    var w1 := MatchAll(w, ids[..n], loaded[..n]);
    if MatchesClean(w, ids[..n], loaded[..n]) {
      MatchAllLocal(w, ids[..n], loaded[..n]);
      v := MatchOneWrecks(w1, ids[n], loaded[n].differs, loaded[n].o);
    } else {
      v := MatchAllWrecks(w, old_, ids, loaded, n);
      MatchAllBook(w, old_, ids, loaded, n);
      MatchAllListed(w, ids[..n], loaded[..n]);
      MatchOneSpares(w1, old_, ids, n, loaded[n].differs, loaded[n].o, v);
    }
  }

  // ---------------------------------------------------------------- settling

  lemma SettleOneSpares(w: World, u: VmId, timerOk: bool, v: VmId)
    requires u in w.vms && v in w.vms && u != v
    ensures Spares(w, SettleOne(w, u, timerOk), v)
  {
    SettleOneFrame(w, u, timerOk);
    if p :| Exit(v, p) in w.events {
      ExitOutlastsSettle(w, u, timerOk, v, p);
    }
  }

  lemma ExitOutlastsSettle(w: World, u: VmId, timerOk: bool, v: VmId, p: Pid)
    requires u in w.vms && u != v && Exit(v, p) in w.events
    ensures Exit(v, p) in SettleOne(w, u, timerOk).events
  {
  }

  lemma {:induction false} SettleAllWreck(w: World, vs: seq<VmId>, noTimer: set<VmId>, v: VmId)
    requires Wreck(w, v) && w.vms[v].newConf.Some? && NoDup(vs)
    ensures var w' := SettleAll(w, vs, noTimer); Wreck(w', v) && (v !in vs ==> w'.vms[v].newConf.Some?)
  {
    if vs != [] {
      var n := |vs| - 1;
      LastIsNew(vs);
      SettleAllWreck(w, vs[..n], noTimer, v);
      var w1 := SettleAll(w, vs[..n], noTimer);
      if vs[n] in w1.vms && vs[n] != v { SettleOneSpares(w1, vs[n], vs[n] !in noTimer, v); }
    }
  }

  lemma {:induction false} FreeAllWreck(w: World, cs: seq<ConfId>, v: VmId)
    requires Wreck(w, v)
    ensures Wreck(FreeAll(w, cs), v)
  {
    if cs != [] { FreeAllWreck(w, cs[..|cs| - 1], v); }
  }

  /** With a wreck among the matched entries a reload cannot come out right. */
  lemma WreckedReload(w: World, ids: seq<ConfId>, noTimer: set<VmId>, v: VmId)
    requires Listed(w) && Wreck(w, v) && w.vms[v].newConf.Some?
    ensures var w2 := SettleAll(w, w.vmList, noTimer);
      !Core(FreeAll(w2, w2.confList).(confList := ids), {}, multiset{})
  {
    SettleAllWreck(w, w.vmList, noTimer, v);
    var w2 := SettleAll(w, w.vmList, noTimer);
    FreeAllWreck(w2, w2.confList, v);
    WreckSpoils(FreeAll(w2, w2.confList).(confList := ids), v);
  }
}
