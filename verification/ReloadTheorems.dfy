/** What a reload achieves, and exactly when it does. */
module ReloadTheorems {
  import opened DaemonState
  import opened Resources
  import opened Lifecycle
  import opened Reload
  import opened ReloadProof
  import opened Wrecks

  /** The sections of the new file have different names. */
  ghost predicate DistinctSections(loaded: seq<Loaded>) {
    forall i, j :: 0 <= i < j < |loaded| ==> loaded[i].conf.name != loaded[j].conf.name
  }

  /** New pids and interface names are not in use, in each round. */
  ghost predicate ReloadFresh(w: World, loaded: seq<Loaded>) {
    MatchesFresh(Begin(w, loaded), Ids(w.nextConf, |loaded|), loaded)
  }

  /** Every start that the reload makes ends well. */
  ghost predicate ReloadClean(w: World, loaded: seq<Loaded>) {
    MatchesClean(Begin(w, loaded), Ids(w.nextConf, |loaded|), loaded)
  }

  // ---------------------------------------------------------------- what matching leaves alone

  ghost predicate SameLists(w: World, w': World) {
    w'.nextConf == w.nextConf && w'.confList == w.confList && w.faults <= w'.faults <= w.faults + {StraySignal}
  }

  lemma RebootLists(w: World, v: VmId, conf: Conf, timerOk: bool)
    requires v in w.vms
    ensures SameLists(w, RebootEntry(w, v, conf, timerOk))
  {
    AskToStopShape(w, v, conf.stopTimeout, timerOk, RESTART);
  }

  lemma FollowLists(w: World, v: VmId, c: ConfId, o: Outcome)
    requires v in w.vms && c in w.confs
    ensures SameLists(w, FollowBoot(w, v, c, o))
  {
    if w.confs[c].boot == NO {
      AskToStopShape(w, v, w.confs[c].stopTimeout, o.timerOk, STOP);
    } else if w.vms[v].state == TERMINATE {
      StartFrame(SetVm(w, v, w.vms[v].(conf := c)), v, o);
    }
  }

  lemma MatchOneLists(w: World, c: ConfId, differs: bool, o: Outcome)
    requires c in w.confs
    ensures SameLists(w, MatchOne(w, c, differs, o))
  {
    var found := Lookup(w, w.vmList, w.confs[c].name);
    if found.None? {
      StartFrame(SetNewConf(CreateEntry(w, c), w.nextVm, c), w.nextVm, o);
    } else {
      var w1 := SetNewConf(w, found.value, c);
      RebootLists(w1, found.value, w.confs[c], o.timerOk);
      FollowLists(w1, found.value, c, o);
    }
  }

  lemma {:induction false} MatchAllLists(w: World, cs: seq<ConfId>, loaded: seq<Loaded>)
    requires |cs| == |loaded| && forall c :: c in cs ==> c in w.confs
    ensures SameLists(w, MatchAll(w, cs, loaded))
  {
    if cs != [] {
      var n := |cs| - 1;
      assert cs[n] in cs && forall c :: c in cs[..n] ==> c in cs;
      MatchAllLists(w, cs[..n], loaded[..n]);
      MatchOneLists(MatchAll(w, cs[..n], loaded[..n]), cs[n], loaded[n].differs, loaded[n].o);
    }
  }

  lemma {:induction false} SettleAllShrinks(w: World, vs: seq<VmId>, noTimer: set<VmId>)
    ensures var w' := SettleAll(w, vs, noTimer);
      && (forall c :: c in w'.confs ==> c in w.confs && w'.confs[c] == w.confs[c])
      && (forall c :: c in w'.confList ==> c in w.confList)
      && w'.nextConf == w.nextConf && w.faults <= w'.faults
  {
    if vs != [] {
      var n := |vs| - 1;
      SettleAllShrinks(w, vs[..n], noTimer);
      var w1 := SettleAll(w, vs[..n], noTimer);
      if vs[n] in w1.vms { SettleOneFrame(w1, vs[n], vs[n] !in noTimer); }
    }
  }

  // ---------------------------------------------------------------- a reload keeps the invariant

  lemma BeginNames(w: World, loaded: seq<Loaded>)
    ensures var ids := Ids(w.nextConf, |loaded|);
      && (forall c :: c in ids ==> c in Begin(w, loaded).confs)
      && (forall i :: 0 <= i < |ids| ==>
            ids[i] in Begin(w, loaded).confs && Begin(w, loaded).confs[ids[i]] == loaded[i].conf)
  {
    var ids := Ids(w.nextConf, |loaded|);
    var confs := AddConfs(w.confs, w.nextConf, loaded);
    forall i | 0 <= i < |ids| ensures ids[i] in confs && confs[ids[i]] == loaded[i].conf {
      var c := w.nextConf + i;
      assert ids[i] == c && confs[c] == loaded[c - w.nextConf].conf;
    }
  }

  lemma BeginDiffer(w: World, loaded: seq<Loaded>)
    requires DistinctSections(loaded)
    ensures NamesDiffer(Begin(w, loaded).confs, Ids(w.nextConf, |loaded|))
  {
    BeginNames(w, loaded);
  }

  /** Ownership comes out right whatever became of the starts. */
  lemma SettledOwned(w: World, old_: seq<ConfId>, ids: seq<ConfId>, noTimer: set<VmId>)
    requires Listed(w) && Book(w, old_, ids, |ids|) && forall c :: c in w.confs ==> c < w.nextConf
    ensures var w2 := SettleAll(w, w.vmList, noTimer);
      var w' := FreeAll(w2, w2.confList).(confList := ids);
      Owned(w') && w.faults <= w'.faults <= w.faults + {StraySignal} && w'.faults == w2.faults
  {
    LedgerStart(w, old_, ids);
    SettleAllLedger(w, ids, w.vmList, noTimer);
    SettleAllShrinks(w, w.vmList, noTimer);
    FinalOwned(SettleAll(w, w.vmList, noTimer), ids, SetOf(w.vmList));
  }

  lemma SettledWell(w: World, old_: seq<ConfId>, ids: seq<ConfId>, noTimer: set<VmId>)
    requires HealthOf(w) == Well && Book(w, old_, ids, |ids|) && forall c :: c in w.confs ==> c < w.nextConf
    ensures var w2 := SettleAll(w, w.vmList, noTimer);
      var w' := FreeAll(w2, w2.confList).(confList := ids);
      Judge(w', multiset{}) == Sound && w'.faults == w.faults
  {
    LedgerStart(w, old_, ids);
    SettleAllKeeps(w, ids, w.vmList, noTimer);
    SettledOwned(w, old_, ids, noTimer);
    SettleAllLedger(w, ids, w.vmList, noTimer);
    var w2 := SettleAll(w, w.vmList, noTimer);
    FreeAllResult(w2, w2.confList);
    SameHealth(w2, FreeAll(w2, w2.confList).(confList := ids));
  }

  lemma SameHealth(w: World, w': World)
    requires HealthOf(w) == Well && w' == w.(confs := w'.confs, confList := w'.confList)
    ensures Local(w', {}, multiset{})
  {
    FrameLocal(w, w', {}, multiset{});
  }

  lemma ReconcileKeeps(b: World, old_: seq<ConfId>, ids: seq<ConfId>, loaded: seq<Loaded>, noTimer: set<VmId>)
    requires |ids| == |loaded| && (forall c :: c in ids ==> c in b.confs) && NamesDiffer(b.confs, ids)
    requires HealthOf(b) == Well && Book(b, old_, ids, 0)
    requires MatchesFresh(b, ids, loaded) && MatchesClean(b, ids, loaded)
    requires forall c :: c in b.confs ==> c < b.nextConf
    ensures Judge(Reconcile(b, ids, loaded, noTimer), multiset{}) == Sound
    ensures Reconcile(b, ids, loaded, noTimer).faults == b.faults
  {
    assert ids[..|ids|] == ids && loaded[..|ids|] == loaded;
    MatchAllLocal(b, ids, loaded);
    MatchAllBook(b, old_, ids, loaded, |ids|);
    MatchAllLists(b, ids, loaded);
    SettledWell(MatchAll(b, ids, loaded), old_, ids, noTimer);
  }

  lemma BeginBounds(w: World, loaded: seq<Loaded>)
    requires forall c :: c in w.confs ==> c < w.nextConf
    ensures forall c :: c in Begin(w, loaded).confs ==> c < Begin(w, loaded).nextConf
  {
  }

  lemma ReloadKeeps(w: World, loaded: seq<Loaded>, noTimer: set<VmId>)
    requires Inv(w) && ReloadFresh(w, loaded) && NoRemoval(w) && DistinctSections(loaded) && ReloadClean(w, loaded)
    ensures var w' := ReloadAll(w, loaded, noTimer);
      Judge(w', multiset{}) == Sound && w'.faults == w.faults
  {
    var ids := Ids(w.nextConf, |loaded|);
    BeginLocal(w, loaded);
    BeginBook(w, loaded);
    BeginDiffer(w, loaded);
    BeginBounds(w, loaded);
    ReconcileKeeps(Begin(w, loaded), w.confList, ids, loaded, noTimer);
  }

  // ---------------------------------------------------------------- and only then

  /** `v` is being removed with configuration `c`, which is on no list. */
  ghost predicate Doomed(w: World, v: VmId, c: ConfId, ids: seq<ConfId>) {
    && v in w.vms && v < w.nextVm && w.vms[v].state == REMOVE && w.vms[v].conf == c && c !in w.confList
    && (w.vms[v].newConf.Some? ==> w.vms[v].newConf.value in ids)
  }

  lemma MatchOneDoomed(w: World, c: ConfId, differs: bool, o: Outcome, v: VmId, mine: ConfId, ids: seq<ConfId>)
    requires c in w.confs && c in ids && Doomed(w, v, mine, ids)
    ensures Doomed(MatchOne(w, c, differs, o), v, mine, ids)
  {
    MatchOneLists(w, c, differs, o);
    var found := Lookup(w, w.vmList, w.confs[c].name);
    if found.None? {
      StartOther(SetNewConf(CreateEntry(w, c), w.nextVm, c), w.nextVm, o, v);
    } else {
      var u := found.value;
      var w1 := SetNewConf(w, u, c);
      if u != v {
        OtherUntouched(w1, u, c, o, v);
      }
    }
  }

  lemma OtherUntouched(w: World, u: VmId, c: ConfId, o: Outcome, v: VmId)
    requires u in w.vms && v in w.vms && u != v && c in w.confs
    ensures var w1, w2 := RebootEntry(w, u, w.confs[c], o.timerOk), FollowBoot(w, u, c, o);
      && v in w1.vms && w1.vms[v] == w.vms[v] && w1.nextVm == w.nextVm
      && v in w2.vms && w2.vms[v] == w.vms[v] && w2.nextVm == w.nextVm
  {
    FollowOther(w, u, c, o, v);
  }

  lemma FollowOther(w: World, u: VmId, c: ConfId, o: Outcome, v: VmId)
    requires u in w.vms && v in w.vms && u != v && c in w.confs
    ensures var w' := FollowBoot(w, u, c, o); v in w'.vms && w'.vms[v] == w.vms[v] && w'.nextVm == w.nextVm
  {
    if w.confs[c].boot != NO && w.confs[c].boot != ONESHOT && w.vms[u].state == TERMINATE {
      StartOther(SetVm(w, u, w.vms[u].(conf := c)), u, o, v);
    }
  }

  lemma StartOther(w: World, u: VmId, o: Outcome, v: VmId)
    requires u in w.vms && w.vms[u].conf in w.confs && v in w.vms && u != v
    ensures var w' := Start(w, u, o).0; v in w'.vms && w'.vms[v] == w.vms[v] && w'.nextVm == w.nextVm
  {
    StartFrame(w, u, o);
  }

  lemma {:induction false} MatchAllDoomed(w: World, cs: seq<ConfId>, loaded: seq<Loaded>, v: VmId, mine: ConfId,
                                          ids: seq<ConfId>)
    requires |cs| == |loaded| && (forall c :: c in cs ==> c in w.confs && c in ids) && Doomed(w, v, mine, ids)
    ensures Doomed(MatchAll(w, cs, loaded), v, mine, ids)
  {
    if cs != [] {
      var n := |cs| - 1;
      assert cs[n] in cs && forall c :: c in cs[..n] ==> c in cs;
      MatchAllDoomed(w, cs[..n], loaded[..n], v, mine, ids);
      MatchOneDoomed(MatchAll(w, cs[..n], loaded[..n]), cs[n], loaded[n].differs, loaded[n].o, v, mine, ids);
    }
  }

  /** After settling, the doomed entry has either been unlinked a second time or points at a listed configuration. */
  lemma {:induction false} SettleAllDoomed(w: World, vs: seq<VmId>, noTimer: set<VmId>, v: VmId, mine: ConfId,
                                           ids: seq<ConfId>)
    requires Doomed(w, v, mine, ids) && NoDup(vs)
    ensures var w' := SettleAll(w, vs, noTimer);
      if v !in vs then v in w'.vms && w'.vms[v] == w.vms[v]
      else ConfUnlinkedTwice in w'.faults || (v in w'.vms && w'.vms[v].state == REMOVE && w'.vms[v].conf in ids)
  {
    if vs != [] {
      var n := |vs| - 1;
      assert vs == vs[..n] + [vs[n]];
      assert vs[n] !in vs[..n] by {
        assert forall i :: 0 <= i < n ==> vs[..n][i] == vs[i];
      }
      SettleAllDoomed(w, vs[..n], noTimer, v, mine, ids);
      SettleAllShrinks(w, vs[..n], noTimer);
      var w1 := SettleAll(w, vs[..n], noTimer);
      if vs[n] in w1.vms { SettleOneFrame(w1, vs[n], vs[n] !in noTimer); }
    }
  }

  lemma {:induction false} FreeAllFaults(w: World, cs: seq<ConfId>)
    ensures var w' := FreeAll(w, cs);
      && w.faults <= w'.faults && w'.vms == w.vms && w'.nextVm == w.nextVm
      && (forall c :: c in w'.confs ==> c in w.confs && w'.confs[c] == w.confs[c])
  {
    if cs != [] {
      FreeAllFaults(w, cs[..|cs| - 1]);
    }
  }

  lemma DoomedSpoils(w: World, ids: seq<ConfId>, noTimer: set<VmId>, v: VmId, mine: ConfId)
    requires Listed(w) && Doomed(w, v, mine, ids)
    ensures var w2 := SettleAll(w, w.vmList, noTimer);
      !Inv(FreeAll(w2, w2.confList).(confList := ids))
  {
    SettleAllDoomed(w, w.vmList, noTimer, v, mine, ids);
    var w2 := SettleAll(w, w.vmList, noTimer);
    FreeAllFaults(w2, w2.confList);
  }

  /** An entry that is already being removed is enough to spoil a reload. */
  lemma RemovalSpoils(b: World, ids: seq<ConfId>, loaded: seq<Loaded>, noTimer: set<VmId>, v: VmId, mine: ConfId)
    requires |ids| == |loaded| && (forall c :: c in ids ==> c in b.confs)
    requires Listed(b) && Doomed(b, v, mine, ids)
    ensures !Inv(Reconcile(b, ids, loaded, noTimer))
  {
    MatchAllListed(b, ids, loaded);
    MatchAllDoomed(b, ids, loaded, v, mine, ids);
    DoomedSpoils(MatchAll(b, ids, loaded), ids, noTimer, v, mine);
  }

  lemma BeginDoomed(w: World, loaded: seq<Loaded>, v: VmId)
    requires Inv(w) && v in w.vms && w.vms[v].state == REMOVE
    ensures Doomed(Begin(w, loaded), v, w.vms[v].conf, Ids(w.nextConf, |loaded|))
  {
  }

  /** The new sections are on the list, and their contents are those that were read. */
  ghost predicate Carries(w: World, ids: seq<ConfId>, loaded: seq<Loaded>) {
    && |ids| == |loaded| && w.confList == ids
    && (forall i :: 0 <= i < |ids| && ids[i] in w.confs ==> w.confs[ids[i]] == loaded[i].conf)
  }

  lemma ReconcileShrinks(b: World, ids: seq<ConfId>, loaded: seq<Loaded>, noTimer: set<VmId>)
    requires |ids| == |loaded| && forall c :: c in ids ==> c in b.confs
    ensures var w' := Reconcile(b, ids, loaded, noTimer);
      w'.confList == ids && forall c :: c in w'.confs ==> c in b.confs && w'.confs[c] == b.confs[c]
  {
    var w1 := MatchAll(b, ids, loaded);
    SettleAllShrinks(w1, w1.vmList, noTimer);
    var w2 := SettleAll(w1, w1.vmList, noTimer);
    FreeAllFaults(w2, w2.confList);
  }

  lemma ReloadCarries(w: World, loaded: seq<Loaded>, noTimer: set<VmId>)
    ensures Carries(ReloadAll(w, loaded, noTimer), Ids(w.nextConf, |loaded|), loaded)
  {
    BeginNames(w, loaded);
    ReconcileShrinks(Begin(w, loaded), Ids(w.nextConf, |loaded|), loaded, noTimer);
  }

  /** Two sections of one name spoil it too: there is one entry for both. */
  lemma DuplicateSpoils(w: World, ids: seq<ConfId>, loaded: seq<Loaded>, i: nat, j: nat)
    requires Carries(w, ids, loaded) && i < j < |loaded| && loaded[i].conf.name == loaded[j].conf.name
    ensures !Owned(w)
  {
    if Owned(w) {
      assert ids[i] in ids && ids[j] in ids && ids[i] != ids[j];
      OwnerExists(w, ids[i]);
      OwnerExists(w, ids[j]);
    }
  }

  /**
   A reload keeps the invariant exactly when no entry was already being removed, no two sections
   have the same name, and every start that it makes ends well.
   */
  lemma ReloadExact(w: World, loaded: seq<Loaded>, noTimer: set<VmId>)
    requires Inv(w) && ReloadFresh(w, loaded)
    ensures Inv(ReloadAll(w, loaded, noTimer)) <==>
            NoRemoval(w) && DistinctSections(loaded) && ReloadClean(w, loaded)
  {
    if !NoRemoval(w) {
      ReloadAmidRemoval(w, loaded, noTimer);
    } else if !DistinctSections(loaded) {
      ReloadDuplicates(w, loaded, noTimer);
    } else if !ReloadClean(w, loaded) {
      ReloadWrecks(w, loaded, noTimer);
    } else {
      ReloadKeeps(w, loaded, noTimer);
    }
  }

  /** A start that ends badly spoils it. */
  lemma ReloadWrecks(w: World, loaded: seq<Loaded>, noTimer: set<VmId>)
    requires Inv(w) && ReloadFresh(w, loaded) && NoRemoval(w) && DistinctSections(loaded) && !ReloadClean(w, loaded)
    ensures !Inv(ReloadAll(w, loaded, noTimer))
  {
    var b, ids := Begin(w, loaded), Ids(w.nextConf, |loaded|);
    BeginLocal(w, loaded);
    BeginBook(w, loaded);
    BeginDiffer(w, loaded);
    assert ids[..|ids|] == ids && loaded[..|ids|] == loaded;
    var v := MatchAllWrecks(b, w.confList, ids, loaded, |ids|);
    MatchAllListed(b, ids, loaded);
    WreckedReload(MatchAll(b, ids, loaded), ids, noTimer, v);
  }

  lemma ReloadAmidRemoval(w: World, loaded: seq<Loaded>, noTimer: set<VmId>)
    requires Inv(w) && !NoRemoval(w)
    ensures !Inv(ReloadAll(w, loaded, noTimer))
  {
    var v :| v in w.vms && w.vms[v].state == REMOVE;
    BeginDoomed(w, loaded, v);
    RemovalSpoils(Begin(w, loaded), Ids(w.nextConf, |loaded|), loaded, noTimer, v, w.vms[v].conf);
  }

  lemma ReloadDuplicates(w: World, loaded: seq<Loaded>, noTimer: set<VmId>)
    requires !DistinctSections(loaded)
    ensures !Inv(ReloadAll(w, loaded, noTimer))
  {
    var i, j :| 0 <= i < j < |loaded| && loaded[i].conf.name == loaded[j].conf.name;
    ReloadCarries(w, loaded, noTimer);
    DuplicateSpoils(ReloadAll(w, loaded, noTimer), Ids(w.nextConf, |loaded|), loaded, i, j);
  }

  // ---------------------------------------------------------------- the outcome of a good reload

  ghost predicate Serves(w: World, v: VmId, c: ConfId, conf: Conf) {
    v in w.vms && w.vms[v].state != REMOVE && w.vms[v].conf == c && c in w.confs && w.confs[c] == conf
  }

  /**
   Each section has exactly one entry, pointing at it and so of its name, and every entry that
   is not being removed points at a section.
   */
  ghost predicate Bijection(w: World, ids: seq<ConfId>, loaded: seq<Loaded>)
    requires |ids| == |loaded|
  {
    && (forall i :: 0 <= i < |ids| ==> HasEntry(w, ids[i], loaded[i].conf))
    && (forall c, conf, u, v :: Serves(w, u, c, conf) && Serves(w, v, c, conf) ==> u == v)
    && (forall v :: v in w.vms && w.vms[v].state != REMOVE ==> HasSection(w, v, ids, loaded))
  }

  ghost predicate HasEntry(w: World, c: ConfId, conf: Conf) {
    exists v :: Serves(w, v, c, conf)
  }

  ghost predicate HasSection(w: World, v: VmId, ids: seq<ConfId>, loaded: seq<Loaded>)
    requires |ids| == |loaded|
  {
    exists i :: 0 <= i < |ids| && Serves(w, v, ids[i], loaded[i].conf)
  }

  lemma OwnedBijection(w: World, ids: seq<ConfId>, loaded: seq<Loaded>)
    requires Owned(w) && Carries(w, ids, loaded)
    ensures Bijection(w, ids, loaded)
  {
    forall i | 0 <= i < |ids| ensures HasEntry(w, ids[i], loaded[i].conf) {
      assert ids[i] in ids;
      OwnerExists(w, ids[i]);
      var v :| v in w.vms && w.vms[v].conf == ids[i];
      assert Serves(w, v, ids[i], loaded[i].conf);
    }
    forall v | v in w.vms && w.vms[v].state != REMOVE ensures HasSection(w, v, ids, loaded) {
      assert w.vms[v].conf in w.confList;
      var i :| 0 <= i < |ids| && ids[i] == w.vms[v].conf;
      assert Serves(w, v, ids[i], loaded[i].conf);
    }
    forall c, conf, u, v | Serves(w, u, c, conf) && Serves(w, v, c, conf) ensures u == v {
      if u != v { DifferentConfs(w, u, v); }
    }
  }

  lemma DifferentConfs(w: World, u: VmId, v: VmId)
    requires Owned(w) && u in w.vms && v in w.vms && u != v
    ensures w.vms[u].conf != w.vms[v].conf
  {
    assert VmName(w, u) != VmName(w, v);
  }

  /** Whatever became of the starts, ownership after a reload is as it should be. */
  lemma ReloadOwned(w: World, loaded: seq<Loaded>, noTimer: set<VmId>)
    requires Listed(w) && Owned(w) && NoRemoval(w) && DistinctSections(loaded)
    ensures var w' := ReloadAll(w, loaded, noTimer);
      Owned(w') && w.faults <= w'.faults <= w.faults + {StraySignal}
  {
    var b, ids := Begin(w, loaded), Ids(w.nextConf, |loaded|);
    BeginBook(w, loaded);
    BeginDiffer(w, loaded);
    BeginBounds(w, loaded);
    assert ids[..|ids|] == ids && loaded[..|ids|] == loaded;
    ListedFrame(w, b);
    MatchAllListed(b, ids, loaded);
    MatchAllBook(b, w.confList, ids, loaded, |ids|);
    MatchAllLists(b, ids, loaded);
    SettledOwned(MatchAll(b, ids, loaded), w.confList, ids, noTimer);
  }

  /** The entries that stay are in bijection with the sections of the file, also when starts fail. */
  lemma ReloadBijection(w: World, loaded: seq<Loaded>, noTimer: set<VmId>)
    requires Inv(w) && NoRemoval(w) && DistinctSections(loaded)
    ensures Bijection(ReloadAll(w, loaded, noTimer), Ids(w.nextConf, |loaded|), loaded)
  {
    ReloadOwned(w, loaded, noTimer);
    ReloadCarries(w, loaded, noTimer);
    OwnedBijection(ReloadAll(w, loaded, noTimer), Ids(w.nextConf, |loaded|), loaded);
  }

  /**
   Conservation, also when starts fail: no old configuration stays on the list; each has been
   released, once, or is still owned by exactly one entry, which is being removed.
   */
  lemma ReloadReleases(w: World, loaded: seq<Loaded>, noTimer: set<VmId>, c: ConfId)
    requires Inv(w) && NoRemoval(w) && DistinctSections(loaded) && c in w.confs
    ensures ReleasedOrOwned(ReloadAll(w, loaded, noTimer), c)
  {
    ReloadOwned(w, loaded, noTimer);
    ReloadCarries(w, loaded, noTimer);
    assert c < w.nextConf;
    OldOff(ReloadAll(w, loaded, noTimer), w.nextConf, loaded, c);
  }

  lemma InvListed(w: World)
    requires Inv(w)
    ensures Listed(w) && Owned(w) && w.faults !! {ConfReleasedTwice, ConfUnlinkedTwice}
  {
  }

  /** Nothing is released or unlinked twice. */
  lemma ReloadReleasesOnce(w: World, loaded: seq<Loaded>, noTimer: set<VmId>)
    requires Inv(w) && NoRemoval(w) && DistinctSections(loaded)
    ensures ReloadAll(w, loaded, noTimer).faults !! {ConfReleasedTwice, ConfUnlinkedTwice}
  {
    InvListed(w);
    ReloadOwned(w, loaded, noTimer);
  }

  ghost predicate ReleasedOrOwned(w: World, c: ConfId) {
    && c !in w.confList
    && (c in w.confs <==> exists v :: v in w.vms && w.vms[v].state == REMOVE && w.vms[v].conf == c)
    && (forall u, v :: u in w.vms && v in w.vms && w.vms[u].conf == c && w.vms[v].conf == c ==> u == v)
  }

  lemma OldOff(w: World, first: ConfId, loaded: seq<Loaded>, c: ConfId)
    requires Owned(w) && Carries(w, Ids(first, |loaded|), loaded) && c < first
    ensures ReleasedOrOwned(w, c)
  {
    if c in w.confs { OwnerExists(w, c); }
    forall u, v | u in w.vms && v in w.vms && w.vms[u].conf == c && w.vms[v].conf == c ensures u == v {
      if u != v { DifferentConfs(w, u, v); }
    }
  }

  /** The loop over a list releases something twice exactly if it is there twice, or is not in memory. */
  lemma {:induction false} FreedTwiceIff(w: World, cs: seq<ConfId>)
    requires ConfReleasedTwice !in w.faults
    ensures ConfReleasedTwice in FreeAll(w, cs).faults <==> !(NoDup(cs) && forall c :: c in cs ==> c in w.confs)
    ensures forall c :: c in FreeAll(w, cs).confs <==> c in w.confs && c !in cs
  {
    if cs != [] {
      var n := |cs| - 1;
      var front, last := cs[..n], cs[n];
      FreedTwiceIff(w, front);
      assert cs == front + [last];
      assert forall c :: c in cs <==> c in front || c == last;
      assert NoDup(cs) <==> NoDup(front) && last !in front by {
        if NoDup(cs) { LastIsNoOther(cs); }
      }
    }
  }
}
