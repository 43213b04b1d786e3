/**
 Whole runs of the daemon: from start-up on, over every interleaving of child exits, timers,
 commands and reloads.
 */
module Runs {
  import opened DaemonState
  import opened Resources
  import opened Lifecycle
  import opened ReloadProof
  import opened Wrecks

  // ---------------------------------------------------------------- start-up

  /** One round of `start_virtual_machines`. */
  function BootOne(w: World, c: ConfId, o: Outcome): (r: World)
    requires c in w.confs
    ensures r.confs == w.confs
  {
    var v := w.nextVm;
    var w1 := CreateEntry(w, c);
    var conf := w.confs[c];
    if conf.boot == NO then w1
    else if conf.bootDelay > 0 then AddTimer(w1, v, conf.bootDelay, o.timerOk)
    else
      StartFrame(w1, v, o);
      Start(w1, v, o).0
  }

  function BootAll(w: World, cs: seq<ConfId>, os: seq<Outcome>): (r: World)
    requires |cs| == |os| && forall c :: c in cs ==> c in w.confs
    ensures r.confs == w.confs
  {
    if cs == [] then w
    else
      var n := |cs| - 1;
      assert cs[n] in cs && forall c :: c in cs[..n] ==> c in cs;
      BootOne(BootAll(w, cs[..n], os[..n]), cs[n], os[n])
  }

  predicate BootOneClean(w: World, c: ConfId, o: Outcome)
    requires c in w.confs
  {
    w.confs[c].boot != NO && w.confs[c].bootDelay <= 0 ==> StartClean(CreateEntry(w, c), w.nextVm, o)
  }

  /** New pids and interface names are not in use, in each round. */
  ghost predicate BootsFresh(w: World, cs: seq<ConfId>, os: seq<Outcome>)
    requires |cs| == |os| && forall c :: c in cs ==> c in w.confs
  {
    cs != [] ==>
      var n := |cs| - 1;
      assert cs[n] in cs && forall c :: c in cs[..n] ==> c in cs;
      BootsFresh(w, cs[..n], os[..n]) && Fresh(BootAll(w, cs[..n], os[..n]), os[n])
  }

  /** Every start that the loop makes ends well. */
  ghost predicate BootsClean(w: World, cs: seq<ConfId>, os: seq<Outcome>)
    requires |cs| == |os| && forall c :: c in cs ==> c in w.confs
  {
    cs != [] ==>
      var n := |cs| - 1;
      assert cs[n] in cs && forall c :: c in cs[..n] ==> c in cs;
      BootsClean(w, cs[..n], os[..n]) && BootOneClean(BootAll(w, cs[..n], os[..n]), cs[n], os[n])
  }

  lemma BootOneLocal(w: World, c: ConfId, o: Outcome)
    requires HealthOf(w) == Well && c in w.confs && Fresh(w, o) && BootOneClean(w, c, o)
    ensures HealthOf(BootOne(w, c, o)) == Well
  {
    var w1 := CreateEntry(w, c);
    CreateLocal(w, c);
    if w.confs[c].boot != NO && w.confs[c].bootDelay > 0 {
      AddTimerLocal(w1, w.nextVm, w.confs[c].bootDelay, o.timerOk);
    } else if w.confs[c].boot != NO {
      StartDownLocal(w1, w.nextVm, o);
    }
  }

  /** The configurations at start-up, listed once each and with different names. */
  ghost predicate Sections(confs: map<ConfId, Conf>, cs: seq<ConfId>) {
    && (forall c :: c in confs <==> c in cs)
    && NoDup(cs) && NamesDiffer(confs, cs)
  }

  /** The first `k` configurations have an entry each. */
  ghost predicate Booted(w: World, cs: seq<ConfId>, k: nat) {
    && k <= |cs| && w.confList == cs && w.faults == {}
    && (forall v :: v in w.vms ==> v < w.nextVm && w.vms[v].conf in w.confs && w.vms[v].state != REMOVE)
    && (forall v, j :: v in w.vms && k <= j < |cs| ==> w.vms[v].conf != cs[j])
    && DistinctNames(w)
    && |w.vms| == k
  }

  lemma BootedFrame(w: World, w': World, cs: seq<ConfId>, k: nat)
    requires Booted(w, cs, k) && SameBook(w, w') && w'.nextVm == w.nextVm && w'.faults == w.faults
    requires forall u :: u in w.vms ==> w.vms[u].newConf.None?
    ensures Booted(w', cs, k)
  {
    assert |w'.vms| == |w'.vms.Keys| && |w.vms| == |w.vms.Keys|;
    assert forall u :: u in w.vms ==> w'.vms[u].conf == w.vms[u].conf;
  }

  lemma CreateNames(w: World, c: ConfId)
    requires DistinctNames(w) && w.nextVm !in w.vms && c in w.confs
    requires forall v :: v in w.vms && w.vms[v].conf in w.confs ==> VmName(w, v) != w.confs[c].name
    ensures DistinctNames(CreateEntry(w, c))
  {
  }

  lemma CreateTaken(w: World, cs: seq<ConfId>, k: nat)
    requires Booted(w, cs, k) && k < |cs| && NoDup(cs)
    ensures var w' := CreateEntry(w, cs[k]);
      forall v, j :: v in w'.vms && k + 1 <= j < |cs| ==> w'.vms[v].conf != cs[j]
  {
  }

  lemma NewName(w: World, cs: seq<ConfId>, k: nat, v: VmId)
    requires Booted(w, cs, k) && k < |cs| && Sections(w.confs, cs) && v in w.vms
    ensures cs[k] in w.confs && VmName(w, v) != w.confs[cs[k]].name
  {
    assert cs[k] in cs;
    var i :| 0 <= i < |cs| && cs[i] == w.vms[v].conf;
    assert i < k;
  }

  lemma BootedCreate(w: World, cs: seq<ConfId>, k: nat)
    requires Booted(w, cs, k) && k < |cs| && Sections(w.confs, cs)
    ensures Booted(CreateEntry(w, cs[k]), cs, k + 1)
  {
    assert cs[k] in cs;
    forall v | v in w.vms ensures VmName(w, v) != w.confs[cs[k]].name {
      NewName(w, cs, k, v);
    }
    CreateNames(w, cs[k]);
    CreateTaken(w, cs, k);
    CreateCount(w, cs[k]);
  }

  lemma CreateCount(w: World, c: ConfId)
    requires w.nextVm !in w.vms
    ensures |CreateEntry(w, c).vms| == |w.vms| + 1
  {
    assert CreateEntry(w, c).vms.Keys == w.vms.Keys + {w.nextVm};
  }

  lemma BootOneBooted(w: World, cs: seq<ConfId>, k: nat, o: Outcome)
    requires Booted(w, cs, k) && k < |cs| && Sections(w.confs, cs)
    requires forall u :: u in w.vms ==> w.vms[u].newConf.None?
    ensures cs[k] in cs && Booted(BootOne(w, cs[k], o), cs, k + 1)
    ensures forall u :: u in BootOne(w, cs[k], o).vms ==> BootOne(w, cs[k], o).vms[u].newConf.None?
  {
    BootedCreate(w, cs, k);
    var w1 := CreateEntry(w, cs[k]);
    BootOneSame(w, cs[k], o);
    BootedFrame(w1, BootOne(w, cs[k], o), cs, k + 1);
  }

  lemma BootOneSame(w: World, c: ConfId, o: Outcome)
    requires c in w.confs
    ensures var w1, w' := CreateEntry(w, c), BootOne(w, c, o);
      SameBook(w1, w') && w'.nextVm == w1.nextVm && w'.faults == w1.faults
  {
    var w1 := CreateEntry(w, c);
    StartSame(w1, w.nextVm, o);
    StartFrame(w1, w.nextVm, o);
  }

  /** What every round of the start-up loop finds and leaves. */
  ghost predicate Starting(w: World, cs: seq<ConfId>, k: nat, nextConf: ConfId) {
    && HealthOf(w) == Well && Booted(w, cs, k) && Sections(w.confs, cs) && w.nextConf == nextConf
    && forall u :: u in w.vms ==> w.vms[u].newConf.None?
  }

  ghost function StartingOf(w: World, cs: seq<ConfId>, k: nat, nextConf: ConfId): Health {
    if Starting(w, cs, k, nextConf) then Well else Ill
  }

  lemma BootOneKeeps(w: World, cs: seq<ConfId>, k: nat, o: Outcome, nextConf: ConfId)
    requires StartingOf(w, cs, k, nextConf) == Well && k < |cs| && cs[k] in w.confs
    requires Fresh(w, o) && BootOneClean(w, cs[k], o)
    ensures StartingOf(BootOne(w, cs[k], o), cs, k + 1, nextConf) == Well
  {
    BootOneLocal(w, cs[k], o);
    BootOneBooted(w, cs, k, o);
    StartFrame(CreateEntry(w, cs[k]), w.nextVm, o);
  }

  lemma BootNext(w: World, cs: seq<ConfId>, os: seq<Outcome>, i: nat)
    requires i < |cs| == |os| && forall c :: c in cs ==> c in w.confs
    ensures BootAll(w, cs[..i + 1], os[..i + 1]) == BootOne(BootAll(w, cs[..i], os[..i]), cs[i], os[i])
  {
    assert cs[..i + 1][..i] == cs[..i] && os[..i + 1][..i] == os[..i];
  }

  lemma BootsFreshNext(w: World, cs: seq<ConfId>, os: seq<Outcome>, i: nat)
    requires i < |cs| == |os| && (forall c :: c in cs ==> c in w.confs) && BootsFresh(w, cs[..i + 1], os[..i + 1])
    ensures BootsFresh(w, cs[..i], os[..i]) && Fresh(BootAll(w, cs[..i], os[..i]), os[i])
  {
    assert cs[..i + 1][..i] == cs[..i] && os[..i + 1][..i] == os[..i];
  }

  lemma BootsCleanNext(w: World, cs: seq<ConfId>, os: seq<Outcome>, i: nat)
    requires i < |cs| == |os| && (forall c :: c in cs ==> c in w.confs) && BootsClean(w, cs[..i + 1], os[..i + 1])
    ensures BootsClean(w, cs[..i], os[..i]) && BootOneClean(BootAll(w, cs[..i], os[..i]), cs[i], os[i])
  {
    assert cs[..i + 1][..i] == cs[..i] && os[..i + 1][..i] == os[..i];
  }

  lemma {:induction false} BootAllKeeps(w: World, cs: seq<ConfId>, os: seq<Outcome>, k: nat)
    requires |cs| == |os| && k <= |cs| && (forall c :: c in cs ==> c in w.confs)
    requires StartingOf(w, cs, 0, w.nextConf) == Well
    requires BootsFresh(w, cs[..k], os[..k]) && BootsClean(w, cs[..k], os[..k])
    ensures StartingOf(BootAll(w, cs[..k], os[..k]), cs, k, w.nextConf) == Well
  {
    if k > 0 {
      BootsFreshNext(w, cs, os, k - 1);
      BootsCleanNext(w, cs, os, k - 1);
      BootNext(w, cs, os, k - 1);
      BootAllKeeps(w, cs, os, k - 1);
      BootOneKeeps(BootAll(w, cs[..k - 1], os[..k - 1]), cs, k - 1, os[k - 1], w.nextConf);
    }
  }

  /** The daemon before `start_virtual_machines`: configurations, listed once each, and nothing else. */
  ghost predicate Fresh0(w: World) {
    && w.vms == map[] && w.vmList == [] && w.events == [] && w.children == map[] && w.taps == map[] && w.faults == {}
    && NoDup(w.confList) && (forall c :: c in w.confs <==> c in w.confList)
    && (forall c :: c in w.confs ==> c < w.nextConf)
  }

  lemma Fresh0Well(w: World)
    requires Fresh0(w)
    ensures HealthOf(w) == Well
    ensures NamesDiffer(w.confs, w.confList) ==> StartingOf(w, w.confList, 0, w.nextConf) == Well
  {
  }

  lemma StartUpKeeps(w: World, os: seq<Outcome>)
    requires Fresh0(w) && |os| == |w.confList| && NamesDiffer(w.confs, w.confList)
    requires BootsFresh(w, w.confList, os) && BootsClean(w, w.confList, os)
    ensures Inv(BootAll(w, w.confList, os))
  {
    var cs := w.confList;
    assert cs[..|cs|] == cs && os[..|cs|] == os;
    Fresh0Well(w);
    BootAllKeeps(w, cs, os, |cs|);
    BootedOwned(BootAll(w, cs, os), cs);
  }

  lemma BootedOwned(w: World, cs: seq<ConfId>)
    requires Booted(w, cs, |cs|) && Sections(w.confs, cs) && (forall c :: c in w.confs ==> c < w.nextConf)
    ensures Owned(w)
  {
    NoDupSize(cs, w.confs.Keys);
  }

  // ---------------------------------------------------------------- and only then

  lemma BootOneFrame(w: World, c: ConfId, o: Outcome)
    requires c in w.confs
    ensures OnlyVm(CreateEntry(w, c), BootOne(w, c, o), w.nextVm)
  {
    var w1 := CreateEntry(w, c);
    AddTimerFrame(w1, w.nextVm, w.confs[c].bootDelay, o.timerOk);
    StartFrame(w1, w.nextVm, o);
  }

  /** Every configuration gets an entry, whatever becomes of its start. */
  ghost predicate Manned(w: World, first: VmId, cs: seq<ConfId>) {
    && w.nextVm == first + |cs|
    && forall v :: first <= v < first + |cs| ==> v in w.vms && w.vms[v].conf == cs[v - first]
  }

  lemma BootOneManned(w: World, first: VmId, cs: seq<ConfId>, c: ConfId, o: Outcome)
    requires Manned(w, first, cs) && c in w.confs
    ensures Manned(BootOne(w, c, o), first, cs + [c])
  {
    BootOneFrame(w, c, o);
    var w1, w' := CreateEntry(w, c), BootOne(w, c, o);
    forall v | first <= v <= first + |cs| ensures v in w'.vms && w'.vms[v].conf == (cs + [c])[v - first] {
      assert v in w1.vms && w1.vms[v].conf == (cs + [c])[v - first];
      assert v in w'.vms.Keys;
    }
  }

  lemma {:induction false} BootAllManned(w: World, cs: seq<ConfId>, os: seq<Outcome>)
    requires |cs| == |os| && (forall c :: c in cs ==> c in w.confs)
    ensures Manned(BootAll(w, cs, os), w.nextVm, cs)
    decreases |cs|
  {
    if cs != [] {
      var n := |cs| - 1;
      assert cs[n] in cs && forall c :: c in cs[..n] ==> c in cs;
      BootAllManned(w, cs[..n], os[..n]);
      BootOneManned(BootAll(w, cs[..n], os[..n]), w.nextVm, cs[..n], cs[n], os[n]);
      assert cs[..n] + [cs[n]] == cs;
    }
  }

  /** Two sections of one name make two entries of one name. */
  lemma StartUpDuplicates(w: World, os: seq<Outcome>)
    requires |os| == |w.confList| && (forall c :: c in w.confList ==> c in w.confs)
    requires !NamesDiffer(w.confs, w.confList)
    ensures !Inv(BootAll(w, w.confList, os))
  {
    var cs := w.confList;
    var i, j :| 0 <= i < j < |cs| && cs[i] in w.confs && cs[j] in w.confs && w.confs[cs[i]].name == w.confs[cs[j]].name;
    var w' := BootAll(w, cs, os);
    BootAllManned(w, cs, os);
    NamesClash(w', w.nextVm + i, w.nextVm + j);
  }

  lemma NamesClash(w: World, u: VmId, v: VmId)
    requires u in w.vms && v in w.vms && u != v && w.vms[u].conf in w.confs && w.vms[v].conf in w.confs
    requires VmName(w, u) == VmName(w, v)
    ensures !Owned(w)
  {
  }

  lemma BootOneWrecks(w: World, c: ConfId, o: Outcome)
    requires c in w.confs && !BootOneClean(w, c, o)
    ensures Wreck(BootOne(w, c, o), w.nextVm)
  {
    UncleanWrecks(CreateEntry(w, c), w.nextVm, o);
  }

  lemma BootOneSpares(w: World, c: ConfId, o: Outcome, v: VmId)
    requires c in w.confs && Wreck(w, v) && v < w.nextVm
    ensures Wreck(BootOne(w, c, o), v) && v < BootOne(w, c, o).nextVm
  {
    var w1 := CreateEntry(w, c);
    MoreEventsSpare(w, w1, v);
    BootOneFrame(w, c, o);
    OnlySpares(w1, BootOne(w, c, o), w.nextVm, v);
  }

  lemma {:induction false} BootAllWrecks(w: World, cs: seq<ConfId>, os: seq<Outcome>) returns (v: VmId)
    requires |cs| == |os| && (forall c :: c in cs ==> c in w.confs) && !BootsClean(w, cs, os)
    ensures Wreck(BootAll(w, cs, os), v) && v < BootAll(w, cs, os).nextVm
    decreases |cs|
  {
    var n := |cs| - 1;
    assert cs[n] in cs && forall c :: c in cs[..n] ==> c in cs;
    var w1 := BootAll(w, cs[..n], os[..n]);
    if BootsClean(w, cs[..n], os[..n]) {
      v := w1.nextVm;
      BootOneWrecks(w1, cs[n], os[n]);
      BootOneFrame(w1, cs[n], os[n]);
    } else {
      v := BootAllWrecks(w, cs[..n], os[..n]);
      BootOneSpares(w1, cs[n], os[n], v);
    }
  }

  /**
   The start-up loop establishes the invariant exactly when the sections have different names and
   every start that it makes ends well.
   */
  lemma StartUpExact(w: World, os: seq<Outcome>)
    requires Fresh0(w) && |os| == |w.confList| && BootsFresh(w, w.confList, os)
    ensures Inv(BootAll(w, w.confList, os)) <==> NamesDiffer(w.confs, w.confList) && BootsClean(w, w.confList, os)
  {
    if !NamesDiffer(w.confs, w.confList) {
      StartUpDuplicates(w, os);
    } else if BootsClean(w, w.confList, os) {
      StartUpKeeps(w, os);
    } else {
      var v := BootAllWrecks(w, w.confList, os);
      WreckSpoils(BootAll(w, w.confList, os), v);
    }
  }
}
