/** Concrete worlds in which a step breaks the invariant, one for each way that exists. */
module Failures {
  import opened Options
  import opened DaemonState
  import opened Resources
  import opened Lifecycle
  import opened Reload
  import opened ReloadProof
  import opened ReloadTheorems
  import opened Steps
  import opened Escalation

  const SECTION: Conf := Conf("guest", YES, 0, 15, 300, false, false, true, Uefi)

  const FINE: Outcome := Outcome(true, true, [], true, Some(8), true, true, true, true)

  /** One machine, its child and its tap, in the given state. */
  function Lone(s: State): World {
    World([0], map[0 := Vm(s, 7, [Some(3)], 0, None)], 1,
          if s == REMOVE then [] else [0], map[0 := SECTION], 1,
          [Exit(0, 7)], 0, map[7 := Child(0, false, true, true, true)], map[3 := 0], {})
  }

  lemma LoneProcs(s: State)
    requires s != TERMINATE
    ensures Procs(Lone(s), {}) && Exits(Lone(s), {}, multiset{})
  {
    var w := Lone(s);
    assert forall v, p :: multiset(w.events)[Exit(v, p)] == if v == 0 && p == 7 then 1 else 0;
    assert OwnsChild(w, 0);
  }

  lemma LoneTaps(s: State)
    ensures Taps(Lone(s))
  {
    assert TapsOf(Lone(s), 0);
  }

  lemma LoneOwned(s: State)
    ensures Owned(Lone(s))
  {
    var w := Lone(s);
    assert w.confs.Keys == {0} && w.vms.Keys == {0};
    assert |w.confs.Keys| == |w.vms.Keys|;
  }

  lemma LoneInv(s: State)
    requires s != TERMINATE
    ensures Judge(Lone(s), multiset{}) == Sound
  {
    LoneProcs(s);
    LoneTaps(s);
    LoneOwned(s);
  }

  /** Breaks the invariant in the world `Lone(s)`. */
  ghost predicate Breaks(s: State, step: Step)
    requires s != TERMINATE
  {
    Enabled(Lone(s), step) && !Inv(Next(Lone(s), step))
  }

  lemma LoneRestart(o: Outcome)
    requires o.taps == [] && o.spawn == Some(8)
    ensures Enabled(Lone(RUN), ChildExits(0, 7, Exited(0), o))
    ensures Inv(Next(Lone(RUN), ChildExits(0, 7, Exited(0), o))) <==> StartClean(Reap(Lone(RUN), 0), 0, o)
  {
    LoneInv(RUN);
    RestartEnabled(o);
    SoundStepKeeps(Lone(RUN), ChildExits(0, 7, Exited(0), o));
  }

  lemma RestartEnabled(o: Outcome)
    requires o.taps == [] && o.spawn == Some(8)
    ensures Enabled(Lone(RUN), ChildExits(0, 7, Exited(0), o))
    ensures Clean(Lone(RUN), ChildExits(0, 7, Exited(0), o)) <==> StartClean(Reap(Lone(RUN), 0), 0, o)
  {
  }

  /** The guest reboots and the lookup of its method or of its comport fails: it is marked running without a child. */
  lemma StuckExample()
    ensures Breaks(RUN, ChildExits(0, 7, Exited(0), FINE.(found := false)))
  {
    LoneRestart(FINE.(found := false));
    assert StartLeavesStuck(Reap(Lone(RUN), 0), 0, FINE.(found := false));
  }

  /** The guest reboots and only its output cannot be watched: an exit event of a reaped child is left. */
  lemma StaleExitExample()
    ensures Breaks(RUN, ChildExits(0, 7, Exited(0), FINE.(outputOk := false)))
  {
    LoneRestart(FINE.(outputOk := false));
    LoneStale(Reap(Lone(RUN), 0), FINE.(outputOk := false));
  }

  lemma LoneStale(w: World, o: Outcome)
    requires 0 in w.vms && w.vms[0].conf in w.confs && w.vms[0].state == RUN && w.confs[w.vms[0].conf].loader == Uefi
    requires o.found && o.spawn.Some? && o.exitOk && !o.outputOk
    ensures !StartClean(w, 0, o)
  {
    assert StartLeavesStaleExit(w, 0, o);
  }

  /** A stopped guest whose taps cannot be taken down stays in possession of them. */
  lemma KeptTapsExample()
    ensures Breaks(STOP, ChildExits(0, 7, Exited(0), FINE.(sockOk := false)))
  {
    LoneInv(STOP);
    LoneStop(FINE.(sockOk := false));
  }

  lemma LoneStop(o: Outcome)
    requires Judge(Lone(STOP), multiset{}) == Sound && o.taps == [] && o.spawn == Some(8)
    ensures Enabled(Lone(STOP), ChildExits(0, 7, Exited(0), o))
    ensures Inv(Next(Lone(STOP), ChildExits(0, 7, Exited(0), o))) <==> o.sockOk
  {
    LoneStopEnabled(o);
    SoundStepKeeps(Lone(STOP), ChildExits(0, 7, Exited(0), o));
  }

  lemma LoneStopEnabled(o: Outcome)
    requires o.taps == [] && o.spawn == Some(8)
    ensures Enabled(Lone(STOP), ChildExits(0, 7, Exited(0), o))
    ensures Clean(Lone(STOP), ChildExits(0, 7, Exited(0), o)) <==> o.sockOk
  {
  }

  /** Sections whose starts get neither a process nor an interface ask nothing of the kernel. */
  const IDLE: Outcome := FINE.(spawn := None)

  lemma {:induction false} IdleFresh(w: World, cs: seq<ConfId>, loaded: seq<Loaded>)
    requires |cs| == |loaded| && (forall c :: c in cs ==> c in w.confs)
    requires forall i :: 0 <= i < |loaded| ==> loaded[i].o == IDLE
    ensures MatchesFresh(w, cs, loaded)
    decreases |cs|
  {
    if cs != [] {
      var n := |cs| - 1;
      assert cs[n] in cs && forall c :: c in cs[..n] ==> c in cs;
      IdleFresh(w, cs[..n], loaded[..n]);
      assert TapsAttempted(loaded[n].o.taps) == [];
    }
  }

  lemma IdleReload(w: World, sections: seq<Loaded>)
    requires forall i :: 0 <= i < |sections| ==> sections[i].o == IDLE
    ensures Enabled(w, Reloads(sections, {}))
  {
    BeginNames(w, sections);
    IdleFresh(Begin(w, sections), Ids(w.nextConf, |sections|), sections);
  }

  /** A second reload before the removed guest has exited unlinks its configuration again. */
  lemma ReloadAmidRemovalExample()
    ensures Breaks(REMOVE, Reloads([], {}))
  {
    LoneInv(REMOVE);
    IdleReload(Lone(REMOVE), []);
    SoundStepKeeps(Lone(REMOVE), Reloads([], {}));
  }

  lemma UnlinkedTwiceExample()
    ensures ConfUnlinkedTwice in ReloadAll(Lone(REMOVE), [], {}).faults
  {
    var w := Lone(REMOVE);
    assert Ids(w.nextConf, 0) == [];
    var b := Begin(w, []);
    assert MatchAll(b, [], []) == b;
    var w2 := SettleAll(b, [0], {});
    assert SettleAll(b, [], {}) == b && [0][..0] == [];
    assert w2 == SettleOne(b, 0, true);
    FreeAllFaults(w2, w2.confList);
  }

  /** A section of the removed guest's name attaches a listed configuration to the dying entry. */
  lemma ReloadSameNameExample()
    ensures Breaks(REMOVE, Reloads([Loaded(SECTION, false, IDLE)], {}))
  {
    LoneInv(REMOVE);
    IdleReload(Lone(REMOVE), [Loaded(SECTION, false, IDLE)]);
    SoundStepKeeps(Lone(REMOVE), Reloads([Loaded(SECTION, false, IDLE)], {}));
  }

  /** Two new sections of one name end with one entry for two configurations. */
  lemma DuplicateNameExample()
    ensures var section := Loaded(SECTION, false, IDLE); Breaks(RUN, Reloads([section, section], {}))
  {
    var sections := [Loaded(SECTION, false, IDLE), Loaded(SECTION, false, IDLE)];
    IdleReload(Lone(RUN), sections);
    ReloadDuplicates(Lone(RUN), sections, {});
  }

  /** A shutdown whose timer cannot be registered escalates exactly if an older timer or a power-off does it. */
  lemma UnarmedShutdown(w: World, name: string, v: VmId)
    requires Inv(w) && Escalates(w) && Lookup(w, w.vmList, name) == Some(v) && w.vms[v].state in {LOAD, RUN}
    ensures Escalates(Next(w, Down(name, true, 0, false))) <==> PowerOffSent(w.children[w.vms[v].pid]) || HasTimer(w, v)
  {
    var w' := Next(w, Down(name, true, 0, false));
    assert HasChild(w, v, {}) && OwnsChild(w, v);
    var secs := w.confs[w.vms[v].conf].stopTimeout;
    assert w' == AskToStop(w, v, secs, false, STOP);
    AskToStopIff(w, v, secs, false, STOP);
  }
}
