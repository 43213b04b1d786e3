/**
 The daemon's whole invariant, and the proof for each event handler and command that it is
 kept, together with the exact condition under which it is not.
 */
module Lifecycle {
  import opened Options
  import opened DaemonState
  import opened Resources

  /**
   Who owns which configuration: there are as many live configurations as entries and no two
   entries share one, so each configuration belongs to exactly one entry (`OwnerExists`); an entry
   that is not being removed has its configuration on `vm_conf_list`, an entry that is being removed
   keeps its own off the list, and no two entries have the same name.
   */
  ghost predicate Owned(w: World) {
    && NoDup(w.confList)
    && (forall c :: c in w.confList ==> c in w.confs)
    && (forall c :: c in w.confs ==> c < w.nextConf)
    && (forall v :: v in w.vms ==> w.vms[v].conf in w.confs)
    && (forall v :: v in w.vms ==> (w.vms[v].conf in w.confList <==> w.vms[v].state != REMOVE))
    && (forall u, v :: u in w.vms && v in w.vms && u != v ==> VmName(w, u) != VmName(w, v))
    && |w.confs| == |w.vms|
  }

  ghost predicate Inv(w: World) {
    Local(w, {}, multiset{}) && Owned(w) && w.faults <= {EventReleasedTwice}
  }

  /** `Broken` means more than not sound: it is the part without timers that fails. */
  datatype Verdict = Sound | Broken | Other

  ghost function Judge(w: World, fired: multiset<Event>): Verdict {
    if Local(w, {}, fired) && Owned(w) then Sound
    else if !Core(w, {}, fired) then Broken
    else Other
  }

  ghost function SoundIff(keeps: bool): Verdict {
    if keeps then Sound else Broken
  }

  /** Inv is what the documentation promises of a machine, said of one machine at a time. */
  lemma InvMeans(w: World, v: VmId)
    requires Inv(w) && v in w.vms
    ensures w.vms[v].state == TERMINATE <==> forall p :: p in w.children ==> w.children[p].vm != v
    ensures w.vms[v].state != TERMINATE ==>
      && (forall p :: p in w.children && w.children[p].vm == v <==> p == w.vms[v].pid)
      && (forall p :: multiset(w.events)[Exit(v, p)] == if p == w.vms[v].pid then 1 else 0)
    ensures w.vms[v].state == TERMINATE ==>
      (forall p :: Exit(v, p) !in w.events) && (forall t :: t in w.taps ==> w.taps[t] != v)
  {
    assert HasChild(w, v, {}) <==> w.vms[v].state != TERMINATE;
    if w.vms[v].state != TERMINATE {
      assert OwnsChild(w, v);
    } else {
      forall p ensures Exit(v, p) !in w.events {
        assert multiset(w.events)[Exit(v, p)] == 0;
      }
    }
  }

  lemma OwnerExists(w: World, c: ConfId)
    requires Owned(w) && c in w.confs
    ensures exists v :: v in w.vms && w.vms[v].conf == c
  {
    var f := map v | v in w.vms :: w.vms[v].conf;
    forall u, v | u in f && v in f && u != v ensures f[u] != f[v] {
      assert VmName(w, u) != VmName(w, v);
    }
    assert f.Keys == w.vms.Keys && |w.confs.Keys| == |w.vms.Keys|;
    if forall v :: v in w.vms ==> w.vms[v].conf != c {
      InjectionFits(f, w.confs.Keys - {c});
    }
  }

  /** A one-to-one map into a finite set has no more keys than the set has members. */
  lemma {:induction false} InjectionFits(f: map<nat, nat>, s: set<nat>)
    requires forall u :: u in f ==> f[u] in s
    requires forall u, v :: u in f && v in f && u != v ==> f[u] != f[v]
    ensures |f.Keys| <= |s|
    decreases |s|
  {
    if f.Keys != {} {
      var u :| u in f;
      var g := f - {u};
      assert g.Keys == f.Keys - {u};
      InjectionFits(g, s - {f[u]});
    }
  }

  // ---------------------------------------------------------------- what a step leaves alone

  /** The configuration side of the world is the same, and only `v` among the entries changed. */
  ghost predicate OnlyVm(w: World, w': World, v: VmId) {
    && w'.vmList == w.vmList && w'.nextVm == w.nextVm && w'.vms.Keys == w.vms.Keys
    && w'.confList == w.confList && w'.confs == w.confs && w'.nextConf == w.nextConf
    && w'.faults == w.faults && w.lastTimer <= w'.lastTimer
    && (forall u :: u in w.vms && u != v ==> w'.vms[u] == w.vms[u])
    && (v in w.vms ==> w'.vms[v].conf == w.vms[v].conf && w'.vms[v].newConf == w.vms[v].newConf)
    && (forall e: Event :: e.vm != v ==> multiset(w'.events)[e] == multiset(w.events)[e])
  }

  lemma AddTimerFrame(w: World, v: VmId, secs: int, ok: bool)
    ensures OnlyVm(w, AddTimer(w, v, secs, ok), v)
  {
    assert multiset([Timer(v, w.lastTimer + 1, secs)] + w.events) ==
      multiset{Timer(v, w.lastTimer + 1, secs)} + multiset(w.events);
  }

  lemma OnlyVmTrans(w: World, w1: World, w2: World, v: VmId)
    requires OnlyVm(w, w1, v) && OnlyVm(w1, w2, v)
    ensures OnlyVm(w, w2, v)
  {
  }

  lemma CleanupFrame(w: World, v: VmId, sockOk: bool)
    requires v in w.vms
    ensures OnlyVm(w, Cleanup(w, v, sockOk), v) && OnlyVm(w, RemoveTaps(w, v, sockOk), v)
    ensures Cleanup(w, v, sockOk).vms[v].state == TERMINATE
  {
  }

  lemma SpawnFrame(w: World, v: VmId, p: Pid, s: State)
    requires v in w.vms
    ensures var w1 := Spawn(w, v, p, s);
      && OnlyVm(w, w1, v) && OnlyVm(w, Watch(w1, v, p), v)
      && OnlyVm(w1, Reap(Kill(w1, v), v), v)
      && OnlyVm(Watch(w1, v, p), Reap(Kill(Watch(w1, v, p), v), v), v)
  {
    assert multiset([Exit(v, p)] + w.events) == multiset{Exit(v, p)} + multiset(w.events);
  }

  lemma LaunchFrame(w: World, v: VmId, o: Outcome)
    requires v in w.vms && w.vms[v].conf in w.confs
    ensures OnlyVm(w, Launch(w, v, o).0, v)
    ensures Launch(w, v, o).0.vms[v].state in {TERMINATE, LOAD, RUN}
  {
    var conf := w.confs[w.vms[v].conf];
    var target := StartTarget(w.vms[v].state, conf.loader);
    if target.None? || o.spawn.None? {
      CleanupFrame(w, v, o.sockOk);
    } else {
      var p := o.spawn.value;
      var w1 := Spawn(w, v, p, target.value);
      var w2 := if o.exitOk then Watch(w1, v, p) else w1;
      SpawnFrame(w, v, p, target.value);
      if !o.exitOk || !o.outputOk {
        var w3 := Reap(Kill(w2, v), v);
        OnlyVmTrans(w, w2, w3, v);
        CleanupFrame(w3, v, o.sockOk);
        OnlyVmTrans(w, w3, Cleanup(w3, v, o.sockOk), v);
      } else {
        AddTimerFrame(w2, v, conf.loaderTimeout, o.timerOk);
        OnlyVmTrans(w, w2, AddTimer(w2, v, conf.loaderTimeout, o.timerOk), v);
      }
    }
  }

  lemma GiveFrame(w: World, v: VmId, taps: seq<Option<Tap>>)
    requires v in w.vms
    ensures OnlyVm(w, GiveTaps(w, v, taps), v) && GiveTaps(w, v, taps).vms[v].state == w.vms[v].state
  {
  }

  lemma AssignFrame(w: World, v: VmId, o: Outcome)
    requires v in w.vms
    ensures OnlyVm(w, AssignTaps(w, v, o).0, v)
    ensures AssignTaps(w, v, o).0.vms[v].state == w.vms[v].state
  {
    if w.vms[v].taps == [] && o.netsOk {
      var w1 := GiveTaps(w, v, TapsAttempted(o.taps));
      GiveFrame(w, v, TapsAttempted(o.taps));
      CleanupFrame(w1, v, o.sockOk);
      OnlyVmTrans(w, w1, RemoveTaps(w1, v, o.sockOk), v);
    }
  }

  lemma PrepareFrame(w: World, v: VmId, o: Outcome)
    requires v in w.vms
    ensures OnlyVm(w, PrepareTaps(w, v, o).0, v)
    ensures PrepareTaps(w, v, o).0.vms[v].state == w.vms[v].state
  {
    AssignFrame(w, v, o);
    var w1 := AssignTaps(w, v, o).0;
    CleanupFrame(w1, v, o.sockOk);
    OnlyVmTrans(w, w1, RemoveTaps(w1, v, o.sockOk), v);
  }

  lemma StartFrame(w: World, v: VmId, o: Outcome)
    requires v in w.vms && w.vms[v].conf in w.confs
    ensures OnlyVm(w, Start(w, v, o).0, v)
    ensures Start(w, v, o).0.vms[v].state in {w.vms[v].state, TERMINATE, LOAD, RUN}
  {
    if o.found {
      if w.vms[v].state == TERMINATE {
        PrepareFrame(w, v, o);
        var (w1, ok) := PrepareTaps(w, v, o);
        if ok {
          LaunchFrame(w1, v, o);
          OnlyVmTrans(w, w1, Launch(w1, v, o).0, v);
        }
      } else {
        LaunchFrame(w, v, o);
      }
    }
  }

  lemma StopFrame(w: World, v: VmId, sockOk: bool)
    requires v in w.vms
    ensures OnlyVm(w, Stop(w, v, sockOk), v)
    ensures Stop(w, v, sockOk).vms[v].state == TERMINATE && !HasTimer(Stop(w, v, sockOk), v)
    ensures Stop(w, v, sockOk).events == Drop(w.events, TimersOf(v))
  {
    DropCounts(w.events, TimersOf(v));
  }

  lemma OwnedFrame(w: World, w': World)
    requires Owned(w)
    requires w'.vms.Keys == w.vms.Keys && w'.confs.Keys == w.confs.Keys
    requires w'.confList == w.confList && w'.nextConf == w.nextConf
    requires forall v :: v in w.vms ==>
      w'.vms[v].conf == w.vms[v].conf && (w'.vms[v].state == REMOVE <==> w.vms[v].state == REMOVE)
    requires forall c :: c in w.confs ==> w'.confs[c].name == w.confs[c].name
    ensures Owned(w')
  {
    assert |w'.confs| == |w'.confs.Keys| && |w.confs| == |w.confs.Keys|;
    assert |w'.vms| == |w'.vms.Keys| && |w.vms| == |w.vms.Keys|;
    assert forall v :: v in w.vms ==> VmName(w', v) == VmName(w, v);
  }

  // ---------------------------------------------------------------- deleting an entry

  lemma DeleteLists(w: World, v: VmId)
    requires Listed(w) && v in w.vms
    ensures Listed(w.(vmList := Without(w.vmList, v), vms := w.vms - {v}))
  {
    WithoutNoDup(w.vmList, v);
  }

  lemma {:induction false} WithoutNoDup(s: seq<nat>, x: nat)
    requires NoDup(s)
    ensures NoDup(Without(s, x))
  {
    if s == [] {
    } else {
      assert forall i, j :: 0 <= i < j < |s[1..]| ==> s[1..][i] == s[i + 1] && s[1..][j] == s[j + 1];
      WithoutNoDup(s[1..], x);
      var t := Without(s[1..], x);
      assert forall i :: 0 <= i < |t| ==> t[i] in t;
    }
  }

  lemma DeleteProcs(w: World, v: VmId, fired: multiset<Event>)
    requires Procs(w, {v}) && Exits(w, {v}, fired) && v in w.vms
    requires forall u, p :: u != v ==> fired[Exit(u, p)] == 0
    ensures Procs(DeleteEntry(w, v), {}) && Exits(DeleteEntry(w, v), {}, multiset{})
  {
    var w' := DeleteEntry(w, v);
    DropCounts(w.events, AllOf(v));
    assert forall u :: HasChild(w', u, {}) <==> HasChild(w, u, {v});
    assert forall u :: u in w'.vms ==> w'.vms[u] == w.vms[u];
  }

  lemma DeleteTaps(w: World, v: VmId)
    requires Taps(w) && v in w.vms
    ensures Taps(DeleteEntry(w, v)) <==> TapSet(w.vms[v].taps) == {}
  {
    var w' := DeleteEntry(w, v);
    if t :| t in TapSet(w.vms[v].taps) {
      var i :| 0 <= i < |w.vms[v].taps| && w.vms[v].taps[i] == Some(t);
      assert TapsOf(w, v);
      assert t in w'.taps && w'.taps[t] == v;
    } else {
      forall u | u in w'.vms ensures TapsOf(w', u) {
        assert TapsOf(w, u);
      }
      forall t | t in w'.taps ensures w'.taps[t] != v {
        assert t !in TapSet(w.vms[v].taps);
      }
    }
  }

  /** A machine without a child can be deleted, exactly when it holds no interface; its fired event goes too. */
  lemma DeleteLocal(w: World, v: VmId, fired: multiset<Event>)
    requires Ready(w, v, fired)
    requires forall u, p :: u != v ==> fired[Exit(u, p)] == 0
    ensures KeptIff(TapSet(w.vms[v].taps) == {}, DeleteEntry(w, v), multiset{})
    ensures forall e :: e in DeleteEntry(w, v).events ==> e.vm != v
  {
    DeleteListed(w, v);
    DeleteProcs(w, v, fired);
    DeleteTaps(w, v);
    DeleteTimers(w, v);
    FateByTaps(DeleteEntry(w, v), multiset{}, TapSet(w.vms[v].taps) == {});
  }

  lemma DeleteListed(w: World, v: VmId)
    requires Listed(w) && v in w.vms
    ensures Listed(DeleteEntry(w, v)) && (IdleBut(w, v) ==> Idle(DeleteEntry(w, v)))
  {
    DeleteLists(w, v);
  }

  lemma DeleteTimers(w: World, v: VmId)
    requires Timers(w) && v in w.vms
    ensures Timers(DeleteEntry(w, v))
  {
    DropCounts(w.events, AllOf(v));
  }

  lemma FateByTaps(w: World, fired: multiset<Event>, keeps: bool)
    requires Listed(w) && Procs(w, {}) && Exits(w, {}, fired) && Idle(w) && Timers(w) && StraySignal !in w.faults
    requires Taps(w) <==> keeps
    ensures KeptIff(keeps, w, fired)
  {
  }

  lemma DeleteOwned(w: World, v: VmId)
    requires Owned(w) && v in w.vms && w.vms[v].state == REMOVE
    ensures Owned(DeleteEntry(w, v)) && DeleteEntry(w, v).faults == w.faults
  {
    var w' := DeleteEntry(w, v);
    forall u | u in w'.vms ensures w.vms[u].conf != w.vms[v].conf && VmName(w', u) == VmName(w, u) {
      assert VmName(w, u) != VmName(w, v);
    }
    assert w'.confs.Keys == w.confs.Keys - {w.vms[v].conf};
    assert w'.vms.Keys == w.vms.Keys - {v};
  }
}
