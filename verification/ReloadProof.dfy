/** A reload keeps the daemon's invariant. */
module ReloadProof {
  import opened Options
  import opened DaemonState
  import opened Resources
  import opened Lifecycle
  import opened Reload

  // ---------------------------------------------------------------- the books while matching

  ghost function Matched(w: World): set<VmId> {
    set v | v in w.vms && w.vms[v].newConf.Some?
  }

  /** The live configurations are the old ones and the new ones, each listed once. */
  ghost predicate Partition(confs: map<ConfId, Conf>, old_: seq<ConfId>, ids: seq<ConfId>) {
    && NoDup(old_) && NoDup(ids)
    && (forall c :: c in old_ ==> c !in ids)
    && (forall c :: c in confs <==> c in old_ || c in ids)
  }

  ghost predicate DistinctNames(w: World) {
    forall u, v :: u in w.vms && v in w.vms && u != v && w.vms[u].conf in w.confs && w.vms[v].conf in w.confs ==>
      VmName(w, u) != VmName(w, v)
  }

  /** An unmatched entry has its old configuration; a matched one points at a new section of its name. */
  ghost predicate BookOf(w: World, old_: seq<ConfId>, ids: seq<ConfId>, k: nat, vm: Vm)
    requires k <= |ids|
  {
    && vm.state != REMOVE && vm.conf in w.confs
    && (vm.newConf.None? ==> vm.conf in old_)
    && (vm.newConf.Some? ==>
          && vm.newConf.value in ids[..k] && vm.newConf.value in w.confs
          && w.confs[vm.newConf.value].name == w.confs[vm.conf].name
          && (vm.conf in old_ || vm.conf == vm.newConf.value))
  }

  ghost predicate Book(w: World, old_: seq<ConfId>, ids: seq<ConfId>, k: nat) {
    && k <= |ids| && w.confList == old_ && Partition(w.confs, old_, ids)
    && (forall v :: v in w.vms ==> BookOf(w, old_, ids, k, w.vms[v]))
    && DistinctNames(w)
    && |Matched(w)| == k
  }

  /** No entry is matched, unmatched or marked for removal; an entry may adopt its new configuration early. */
  ghost predicate SameBook(w: World, w': World) {
    && w'.vmList == w.vmList && w'.nextVm == w.nextVm && w'.vms.Keys == w.vms.Keys
    && w'.confs == w.confs && w'.confList == w.confList
    && (forall v :: v in w.vms ==>
          && w'.vms[v].newConf == w.vms[v].newConf
          && (w'.vms[v].state == REMOVE ==> w.vms[v].state == REMOVE)
          && (w'.vms[v].conf == w.vms[v].conf || w.vms[v].newConf == Some(w'.vms[v].conf)))
  }

  lemma StartSame(w: World, v: VmId, o: Outcome)
    requires v in w.vms && w.vms[v].conf in w.confs
    ensures SameBook(w, Start(w, v, o).0)
  {
    StartFrame(w, v, o);
  }

  lemma AskToStopSame(w: World, v: VmId, secs: int, timerOk: bool, s: State)
    requires v in w.vms && s != REMOVE
    ensures SameBook(w, AskToStop(w, v, secs, timerOk, s))
  {
    assert AskToStop(w, v, secs, timerOk, s).vms == w.vms[v := w.vms[v].(state := s)];
  }

  lemma RebootSame(w: World, v: VmId, conf: Conf, timerOk: bool)
    requires v in w.vms
    ensures SameBook(w, RebootEntry(w, v, conf, timerOk))
  {
    AskToStopSame(w, v, conf.stopTimeout, timerOk, RESTART);
    SetStateSame(w, v, RESTART);
  }

  lemma AdoptSame(w: World, v: VmId, c: ConfId, o: Outcome)
    requires v in w.vms && c in w.confs && w.vms[v].newConf == Some(c)
    ensures SameBook(w, Start(SetVm(w, v, w.vms[v].(conf := c)), v, o).0)
  {
    var w1 := SetVm(w, v, w.vms[v].(conf := c));
    StartFrame(w1, v, o);
  }

  lemma FollowSame(w: World, v: VmId, c: ConfId, o: Outcome)
    requires v in w.vms && c in w.confs && w.vms[v].newConf == Some(c)
    ensures SameBook(w, FollowBoot(w, v, c, o))
  {
    var s := w.vms[v].state;
    if w.confs[c].boot == NO {
      AskToStopSame(w, v, w.confs[c].stopTimeout, o.timerOk, STOP);
      SetStateSame(w, v, STOP);
    } else if w.confs[c].boot != ONESHOT && s == TERMINATE {
      AdoptSame(w, v, c, o);
    } else {
      SetStateSame(w, v, RESTART);
    }
  }

  lemma SetStateSame(w: World, v: VmId, s: State)
    requires v in w.vms && s != REMOVE
    ensures SameBook(w, SetState(w, v, s)) && SameBook(w, w)
  {
  }

  lemma BookFrame(w: World, w': World, old_: seq<ConfId>, ids: seq<ConfId>, k: nat)
    requires Book(w, old_, ids, k) && SameBook(w, w')
    ensures Book(w', old_, ids, k)
  {
    assert Matched(w') == Matched(w);
    forall v | v in w.vms ensures BookOf(w', old_, ids, k, w'.vms[v]) && VmName(w', v) == VmName(w, v) {
      assert BookOf(w, old_, ids, k, w.vms[v]);
    }
  }

  lemma PrefixGrows(ids: seq<ConfId>, k: nat)
    requires k < |ids|
    ensures forall c :: c in ids[..k + 1] <==> c in ids[..k] || c == ids[k]
  {
    assert ids[..k + 1] == ids[..k] + [ids[k]];
  }

  lemma BookCreate(w: World, old_: seq<ConfId>, ids: seq<ConfId>, k: nat)
    requires Book(w, old_, ids, k) && k < |ids| && w.nextVm !in w.vms
    requires forall v :: v in w.vms ==> !HasName(w, v, w.confs[ids[k]].name)
    ensures Book(SetNewConf(CreateEntry(w, ids[k]), w.nextVm, ids[k]), old_, ids, k + 1)
  {
    var w' := SetNewConf(CreateEntry(w, ids[k]), w.nextVm, ids[k]);
    PrefixGrows(ids, k);
    assert ids[k] in ids;
    NewlyMatched(w, ids[k]);
    NewNameDiffers(w, ids[k]);
    forall v | v in w'.vms ensures BookOf(w', old_, ids, k + 1, w'.vms[v]) {
      if v != w.nextVm { assert BookOf(w, old_, ids, k, w.vms[v]); }
    }
  }

  lemma NewlyMatched(w: World, c: ConfId)
    requires w.nextVm !in w.vms
    ensures |Matched(SetNewConf(CreateEntry(w, c), w.nextVm, c))| == |Matched(w)| + 1
  {
    var w' := SetNewConf(CreateEntry(w, c), w.nextVm, c);
    forall v ensures v in Matched(w') <==> v in Matched(w) || v == w.nextVm {
      assert v != w.nextVm ==> (v in w'.vms <==> v in w.vms);
    }
    assert Matched(w') == Matched(w) + {w.nextVm};
  }

  lemma NewNameDiffers(w: World, c: ConfId)
    requires DistinctNames(w) && w.nextVm !in w.vms && c in w.confs
    requires forall v :: v in w.vms ==> !HasName(w, v, w.confs[c].name)
    ensures DistinctNames(SetNewConf(CreateEntry(w, c), w.nextVm, c))
  {
    assert forall v :: v in w.vms && w.vms[v].conf in w.confs ==> HasName(w, v, VmName(w, v));
  }

  lemma OneMoreMatched(w: World, v: VmId, c: ConfId)
    requires v in w.vms && w.vms[v].newConf.None?
    ensures |Matched(SetNewConf(w, v, c))| == |Matched(w)| + 1
  {
    assert Matched(SetNewConf(w, v, c)) == Matched(w) + {v};
  }

  lemma BookMatch(w: World, old_: seq<ConfId>, ids: seq<ConfId>, k: nat, v: VmId)
    requires Book(w, old_, ids, k) && k < |ids| && HasName(w, v, w.confs[ids[k]].name)
    requires NamesDiffer(w.confs, ids)
    ensures Book(SetNewConf(w, v, ids[k]), old_, ids, k + 1)
  {
    var w' := SetNewConf(w, v, ids[k]);
    PrefixGrows(ids, k);
    assert ids[k] in ids;
    assert BookOf(w, old_, ids, k, w.vms[v]);
    assert w.vms[v].newConf.None? by {
      assert forall c :: c in ids[..k] && c in w.confs ==> w.confs[c].name != w.confs[ids[k]].name;
    }
    OneMoreMatched(w, v, ids[k]);
    forall u | u in w'.vms ensures BookOf(w', old_, ids, k + 1, w'.vms[u]) && VmName(w', u) == VmName(w, u) {
      assert BookOf(w, old_, ids, k, w.vms[u]);
      if u == v {
        assert w.vms[v].conf in w.confs && w.vms[v].conf in old_;
      }
    }
  }

  // ---------------------------------------------------------------- the resources while matching

  datatype Health = Well | Ill

  ghost function HealthOf(w: World): Health {
    if Local(w, {}, multiset{}) then Well else Ill
  }

  lemma CreateLocal(w: World, c: ConfId)
    requires HealthOf(w) == Well
    ensures HealthOf(CreateEntry(w, c)) == Well
  {
    CreateListed(w, c);
    CreateChildren(w, c);
    CreateTaps(w, c);
  }

  lemma CreateListed(w: World, c: ConfId)
    requires Listed(w)
    ensures Listed(CreateEntry(w, c)) && w.nextVm !in w.vms
  {
    assert forall i :: 0 <= i < |w.vmList| ==> w.vmList[i] in w.vmList;
  }

  lemma CreateChildren(w: World, c: ConfId)
    requires w.nextVm !in w.vms && Procs(w, {}) && Exits(w, {}, multiset{})
    ensures Procs(CreateEntry(w, c), {}) && Exits(CreateEntry(w, c), {}, multiset{})
  {
    assert forall u :: HasChild(CreateEntry(w, c), u, {}) <==> HasChild(w, u, {});
  }

  lemma CreateTaps(w: World, c: ConfId)
    requires Taps(w) && w.nextVm !in w.vms
    ensures Taps(CreateEntry(w, c))
  {
    var w' := CreateEntry(w, c);
    forall u | u in w'.vms ensures TapsOf(w', u) {
      if u != w.nextVm { assert TapsOf(w, u); }
    }
  }

  /** Nothing but the configuration pointers of one entry changes. */
  lemma PointersLocal(w: World, v: VmId, vm: Vm)
    requires HealthOf(w) == Well && v in w.vms
    requires vm.state == w.vms[v].state && vm.pid == w.vms[v].pid && vm.taps == w.vms[v].taps
    ensures HealthOf(SetVm(w, v, vm)) == Well
  {
    FrameLocal(w, SetVm(w, v, vm), {}, multiset{});
  }

  lemma StartDownLocal(w: World, v: VmId, o: Outcome)
    requires HealthOf(w) == Well && v in w.vms && w.vms[v].conf in w.confs && w.vms[v].state == TERMINATE
    requires Fresh(w, o) && StartClean(w, v, o)
    ensures HealthOf(Start(w, v, o).0) == Well
  {
    GoneIfDown(w, v, multiset{});
    StartKeeps(w, v, o, multiset{});
  }

  lemma AddTimerLocal(w: World, v: VmId, secs: int, timerOk: bool)
    requires HealthOf(w) == Well && v in w.vms
    ensures HealthOf(AddTimer(w, v, secs, timerOk)) == Well
  {
    AddTimerKeeps(w, v, secs, timerOk, {}, multiset{});
  }

  lemma TermLocal(w: World, v: VmId)
    requires HealthOf(w) == Well && v in w.vms && w.vms[v].state != TERMINATE
    ensures HealthOf(Term(w, v)) == Well && Term(w, v).faults == w.faults
  {
    assert HasChild(w, v, {});
    SignalKeeps(w, v, {}, multiset{});
  }

  lemma SetStateLocal(w: World, v: VmId, s: State)
    requires HealthOf(w) == Well && v in w.vms && w.vms[v].state != TERMINATE && s != TERMINATE
    ensures HealthOf(SetState(w, v, s)) == Well
  {
    SetStateKeeps(w, v, s, {}, multiset{});
  }

  lemma AskToStopLocal(w: World, v: VmId, secs: int, timerOk: bool, s: State)
    requires HealthOf(w) == Well && v in w.vms && w.vms[v].state != TERMINATE && s != TERMINATE
    ensures HealthOf(AskToStop(w, v, secs, timerOk, s)) == Well
    ensures AskToStop(w, v, secs, timerOk, s).faults == w.faults
  {
    TermLocal(w, v);
    AddTimerLocal(Term(w, v), v, secs, timerOk);
    SetStateLocal(AddTimer(Term(w, v), v, secs, timerOk), v, s);
  }

  // ---------------------------------------------------------------- one round of matching

  predicate AddEntryClean(w: World, c: ConfId, o: Outcome)
    requires c in w.confs
  {
    w.confs[c].boot != NO && w.confs[c].bootDelay <= 0 ==>
      StartClean(SetNewConf(CreateEntry(w, c), w.nextVm, c), w.nextVm, o)
  }

  lemma AddEntryLocal(w: World, c: ConfId, o: Outcome)
    requires HealthOf(w) == Well && c in w.confs && Fresh(w, o) && AddEntryClean(w, c, o)
    ensures HealthOf(AddEntry(w, c, o)) == Well && AddEntry(w, c, o).faults == w.faults
  {
    var v := w.nextVm;
    var w1 := SetNewConf(CreateEntry(w, c), v, c);
    CreateLocal(w, c);
    PointersLocal(CreateEntry(w, c), v, CreateEntry(w, c).vms[v].(newConf := Some(c)));
    var conf := w.confs[c];
    if conf.boot != NO && conf.bootDelay > 0 {
      AddTimerLocal(w1, v, conf.bootDelay, o.timerOk);
    } else if conf.boot != NO {
      StartDownLocal(w1, v, o);
      StartFrame(w1, v, o);
    }
  }

  lemma AddEntryBook(w: World, old_: seq<ConfId>, ids: seq<ConfId>, k: nat, o: Outcome)
    requires Book(w, old_, ids, k) && k < |ids| && w.nextVm !in w.vms
    requires forall v :: v in w.vms ==> !HasName(w, v, w.confs[ids[k]].name)
    ensures Book(AddEntry(w, ids[k], o), old_, ids, k + 1)
  {
    var v := w.nextVm;
    var w1 := SetNewConf(CreateEntry(w, ids[k]), v, ids[k]);
    BookCreate(w, old_, ids, k);
    StartSame(w1, v, o);
    BookFrame(w1, AddEntry(w, ids[k], o), old_, ids, k + 1);
  }

  lemma RebootEntryLocal(w: World, v: VmId, conf: Conf, timerOk: bool)
    requires HealthOf(w) == Well && v in w.vms
    ensures HealthOf(RebootEntry(w, v, conf, timerOk)) == Well && RebootEntry(w, v, conf, timerOk).faults == w.faults
  {
    match w.vms[v].state
    case TERMINATE => AddTimerLocal(w, v, Max(conf.bootDelay, 1), timerOk);
    case LOAD => AskToStopLocal(w, v, conf.stopTimeout, timerOk, RESTART);
    case RUN => AskToStopLocal(w, v, conf.stopTimeout, timerOk, RESTART);
    case STOP => SetStateLocal(w, v, RESTART);
    case _ =>
  }

  predicate FollowBootClean(w: World, v: VmId, c: ConfId, o: Outcome)
    requires v in w.vms && c in w.confs
  {
    w.confs[c].boot in {YES, ALWAYS} && w.vms[v].state == TERMINATE ==>
      StartClean(SetVm(w, v, w.vms[v].(conf := c)), v, o)
  }

  lemma FollowBootLocal(w: World, v: VmId, c: ConfId, o: Outcome)
    requires HealthOf(w) == Well && v in w.vms && c in w.confs && Fresh(w, o) && FollowBootClean(w, v, c, o)
    ensures HealthOf(FollowBoot(w, v, c, o)) == Well && FollowBoot(w, v, c, o).faults == w.faults
  {
    var conf := w.confs[c];
    var s := w.vms[v].state;
    if conf.boot == NO {
      if s == LOAD || s == RUN {
        AskToStopLocal(w, v, conf.stopTimeout, o.timerOk, STOP);
      } else if s == RESTART {
        SetStateLocal(w, v, STOP);
      }
    } else if conf.boot != ONESHOT {
      if s == TERMINATE {
        var w1 := SetVm(w, v, w.vms[v].(conf := c));
        PointersLocal(w, v, w.vms[v].(conf := c));
        StartDownLocal(w1, v, o);
        StartFrame(w1, v, o);
      } else if s == STOP {
        SetStateLocal(w, v, RESTART);
      }
    }
  }

  /** The start that a round makes, if it makes one, ends well. */
  predicate MatchClean(w: World, c: ConfId, differs: bool, o: Outcome)
    requires c in w.confs
  {
    var conf := w.confs[c];
    var found := Lookup(w, w.vmList, conf.name);
    if found.None? then AddEntryClean(w, c, o)
    else
      var v := found.value;
      || (conf.boot != NO && conf.rebootOnChange && differs)
      || conf.boot == w.confs[w.vms[v].conf].boot
      || FollowBootClean(SetNewConf(w, v, c), v, c, o)
  }

  lemma MatchOneLocal(w: World, c: ConfId, differs: bool, o: Outcome)
    requires HealthOf(w) == Well && c in w.confs && Fresh(w, o) && MatchClean(w, c, differs, o)
    ensures HealthOf(MatchOne(w, c, differs, o)) == Well && MatchOne(w, c, differs, o).faults == w.faults
  {
    var conf := w.confs[c];
    var found := Lookup(w, w.vmList, conf.name);
    if found.None? {
      AddEntryLocal(w, c, o);
    } else {
      var v := found.value;
      var w1 := SetNewConf(w, v, c);
      PointersLocal(w, v, w.vms[v].(newConf := Some(c)));
      if conf.boot != NO && conf.rebootOnChange && differs {
        RebootEntryLocal(w1, v, conf, o.timerOk);
      } else if conf.boot != w.confs[w.vms[v].conf].boot {
        assert Fresh(w1, o);
        FollowBootLocal(w1, v, c, o);
      }
    }
  }

  lemma MatchOneBook(w: World, old_: seq<ConfId>, ids: seq<ConfId>, k: nat, differs: bool, o: Outcome)
    requires Listed(w) && Book(w, old_, ids, k) && k < |ids|
    requires NamesDiffer(w.confs, ids)
    ensures Book(MatchOne(w, ids[k], differs, o), old_, ids, k + 1)
  {
    var c := ids[k];
    var conf := w.confs[c];
    var found := Lookup(w, w.vmList, conf.name);
    if found.None? {
      AddEntryBook(w, old_, ids, k, o);
    } else {
      var v := found.value;
      var w1 := SetNewConf(w, v, c);
      BookMatch(w, old_, ids, k, v);
      if conf.boot != NO && conf.rebootOnChange && differs {
        RebootSame(w1, v, conf, o.timerOk);
        BookFrame(w1, RebootEntry(w1, v, conf, o.timerOk), old_, ids, k + 1);
      } else if conf.boot != w.confs[w.vms[v].conf].boot {
        FollowSame(w1, v, c, o);
        BookFrame(w1, FollowBoot(w1, v, c, o), old_, ids, k + 1);
      }
    }
  }

  lemma MatchOneListed(w: World, c: ConfId, differs: bool, o: Outcome)
    requires Listed(w) && c in w.confs
    ensures Listed(MatchOne(w, c, differs, o))
  {
    var conf := w.confs[c];
    var found := Lookup(w, w.vmList, conf.name);
    if found.None? {
      CreateListed(w, c);
      var w1 := SetNewConf(CreateEntry(w, c), w.nextVm, c);
      StartSame(w1, w.nextVm, o);
      ListedFrame(w1, AddEntry(w, c, o));
    } else {
      MatchFoundListed(w, c, found.value, differs, o);
    }
  }

  lemma MatchFoundListed(w: World, c: ConfId, v: VmId, differs: bool, o: Outcome)
    requires Listed(w) && c in w.confs && Lookup(w, w.vmList, w.confs[c].name) == Some(v)
    ensures Listed(MatchOne(w, c, differs, o))
  {
    var w1 := SetNewConf(w, v, c);
    ListedFrame(w, w1);
    RebootSame(w1, v, w.confs[c], o.timerOk);
    ListedFrame(w1, RebootEntry(w1, v, w.confs[c], o.timerOk));
    FollowSame(w1, v, c, o);
    ListedFrame(w1, FollowBoot(w1, v, c, o));
  }

  lemma ListedFrame(w: World, w': World)
    requires Listed(w) && w'.vmList == w.vmList && w'.nextVm == w.nextVm && w'.vms.Keys == w.vms.Keys
    ensures Listed(w')
  {
  }

  // ---------------------------------------------------------------- all rounds of matching

  /** The kernel keeps its promises in every round. */
  ghost predicate MatchesFresh(w: World, cs: seq<ConfId>, loaded: seq<Loaded>)
    requires |cs| == |loaded| && forall c :: c in cs ==> c in w.confs
  {
    cs != [] ==>
      var n := |cs| - 1;
      assert cs[n] in cs && forall c :: c in cs[..n] ==> c in cs;
      MatchesFresh(w, cs[..n], loaded[..n]) && Fresh(MatchAll(w, cs[..n], loaded[..n]), loaded[n].o)
  }

  /** Every start on the way ends well. */
  ghost predicate MatchesClean(w: World, cs: seq<ConfId>, loaded: seq<Loaded>)
    requires |cs| == |loaded| && forall c :: c in cs ==> c in w.confs
  {
    cs != [] ==>
      var n := |cs| - 1;
      assert cs[n] in cs && forall c :: c in cs[..n] ==> c in cs;
      && MatchesClean(w, cs[..n], loaded[..n])
      && MatchClean(MatchAll(w, cs[..n], loaded[..n]), cs[n], loaded[n].differs, loaded[n].o)
  }

  ghost predicate NamesDiffer(confs: map<ConfId, Conf>, ids: seq<ConfId>) {
    forall i, j :: 0 <= i < j < |ids| && ids[i] in confs && ids[j] in confs ==>
      confs[ids[i]].name != confs[ids[j]].name
  }

  lemma {:induction false} MatchAllLocal(w: World, cs: seq<ConfId>, loaded: seq<Loaded>)
    requires |cs| == |loaded| && (forall c :: c in cs ==> c in w.confs)
    requires HealthOf(w) == Well && MatchesFresh(w, cs, loaded) && MatchesClean(w, cs, loaded)
    ensures HealthOf(MatchAll(w, cs, loaded)) == Well && MatchAll(w, cs, loaded).faults == w.faults
  {
    if cs != [] {
      var n := |cs| - 1;
      assert cs[n] in cs && forall c :: c in cs[..n] ==> c in cs;
      MatchAllLocal(w, cs[..n], loaded[..n]);
      MatchOneLocal(MatchAll(w, cs[..n], loaded[..n]), cs[n], loaded[n].differs, loaded[n].o);
    }
  }

  lemma {:induction false} MatchAllListed(w: World, cs: seq<ConfId>, loaded: seq<Loaded>)
    requires |cs| == |loaded| && (forall c :: c in cs ==> c in w.confs) && Listed(w)
    ensures Listed(MatchAll(w, cs, loaded))
  {
    if cs != [] {
      var n := |cs| - 1;
      assert cs[n] in cs && forall c :: c in cs[..n] ==> c in cs;
      MatchAllListed(w, cs[..n], loaded[..n]);
      MatchOneListed(MatchAll(w, cs[..n], loaded[..n]), cs[n], loaded[n].differs, loaded[n].o);
    }
  }

  lemma {:induction false} MatchAllBook(w: World, old_: seq<ConfId>, ids: seq<ConfId>, loaded: seq<Loaded>, k: nat)
    requires |ids| == |loaded| && k <= |ids| && (forall c :: c in ids ==> c in w.confs) && NamesDiffer(w.confs, ids)
    requires Listed(w) && Book(w, old_, ids, 0)
    ensures Book(MatchAll(w, ids[..k], loaded[..k]), old_, ids, k)
  {
    if k > 0 {
      assert ids[..k][..k - 1] == ids[..k - 1] && loaded[..k][..k - 1] == loaded[..k - 1];
      MatchAllBook(w, old_, ids, loaded, k - 1);
      MatchAllListed(w, ids[..k - 1], loaded[..k - 1]);
      var w1 := MatchAll(w, ids[..k - 1], loaded[..k - 1]);
      MatchOneBook(w1, old_, ids, k - 1, loaded[k - 1].differs, loaded[k - 1].o);
    }
  }

  ghost predicate NoRemoval(w: World) {
    forall v :: v in w.vms ==> w.vms[v].state != REMOVE
  }

  lemma BeginPartition(w: World, loaded: seq<Loaded>)
    requires Owned(w) && NoRemoval(w)
    ensures Partition(Begin(w, loaded).confs, w.confList, Ids(w.nextConf, |loaded|))
  {
    var ids := Ids(w.nextConf, |loaded|);
    var w' := Begin(w, loaded);
    forall c | c in w'.confs ensures c in w.confList || c in ids {
      if c in w.confs {
        OwnerExists(w, c);
      } else {
        assert ids[c - w.nextConf] == c;
      }
    }
  }

  lemma BeginBook(w: World, loaded: seq<Loaded>)
    requires Owned(w) && NoRemoval(w)
    ensures Book(Begin(w, loaded), w.confList, Ids(w.nextConf, |loaded|), 0)
  {
    BeginPartition(w, loaded);
    var w' := Begin(w, loaded);
    assert Matched(w') == {};
    assert forall v :: v in w.vms ==> VmName(w', v) == VmName(w, v);
  }

  lemma BeginLocal(w: World, loaded: seq<Loaded>)
    requires Local(w, {}, multiset{})
    ensures HealthOf(Begin(w, loaded)) == Well
  {
    FrameLocal(w, Begin(w, loaded), {}, multiset{});
  }

  // ---------------------------------------------------------------- settling

  ghost function Dying(w: World): set<VmId> {
    set v | v in w.vms && w.vms[v].state == REMOVE
  }

  ghost function Kept(w: World, done: set<VmId>): set<VmId> {
    set v | v in w.vms && (w.vms[v].newConf.Some? || (v in done && w.vms[v].state != REMOVE))
  }

  ghost predicate LedgerOf(w: World, ids: seq<ConfId>, vm: Vm, done: bool) {
    && vm.conf in w.confs
    && if done then
         && vm.newConf.None?
         && (if vm.state == REMOVE then vm.conf !in w.confList && vm.conf !in ids else vm.conf in ids)
       else
         && vm.state != REMOVE
         && (vm.newConf.None? ==> vm.conf in w.confList)
         && (vm.newConf.Some? ==>
               && vm.newConf.value in ids && vm.newConf.value in w.confs
               && w.confs[vm.newConf.value].name == w.confs[vm.conf].name)
  }

  ghost predicate Lists(w: World, ids: seq<ConfId>) {
    && NoDup(w.confList) && NoDup(ids)
    && (forall c :: c in w.confList ==> c in w.confs && c !in ids)
    && (forall c :: c in ids ==> c in w.confs)
  }

  /** The books after the entries in `done` have been settled. */
  ghost predicate Ledger(w: World, ids: seq<ConfId>, done: set<VmId>) {
    && Lists(w, ids)
    && (forall v :: v in w.vms ==> LedgerOf(w, ids, w.vms[v], v in done))
    && DistinctNames(w)
    && |w.confs| == |w.confList| + |ids| + |Dying(w)|
    && |Kept(w, done)| == |ids|
  }

  lemma {:induction false} NoDupSize(s: seq<nat>, t: set<nat>)
    requires NoDup(s) && forall c :: c in t <==> c in s
    ensures |t| == |s|
  {
    if s == [] {
      assert t == {};
    } else {
      var n := |s| - 1;
      assert s[n] in s;
      forall c ensures c in t - {s[n]} <==> c in s[..n] {
        if c in t - {s[n]} {
          var i :| 0 <= i < |s| && s[i] == c;
          assert s[..n][i] == c;
        }
        if c in s[..n] {
          var i :| 0 <= i < n && s[..n][i] == c;
          assert s[i] == c && s[i] != s[n];
        }
      }
      NoDupSize(s[..n], t - {s[n]});
    }
  }

  lemma LedgerStart(w: World, old_: seq<ConfId>, ids: seq<ConfId>)
    requires Book(w, old_, ids, |ids|)
    ensures Ledger(w, ids, {})
  {
    assert ids[..|ids|] == ids;
    forall v | v in w.vms ensures LedgerOf(w, ids, w.vms[v], false) {
      assert BookOf(w, old_, ids, |ids|, w.vms[v]);
    }
    assert Kept(w, {}) == Matched(w);
    assert Dying(w) == {};
    PartitionSize(w.confs, old_, ids);
  }

  lemma PartitionSize(confs: map<ConfId, Conf>, old_: seq<ConfId>, ids: seq<ConfId>)
    requires Partition(confs, old_, ids)
    ensures |confs| == |old_| + |ids|
  {
    var o, n := set c | c in old_, set c | c in ids;
    NoDupSize(old_, o);
    NoDupSize(ids, n);
    assert confs.Keys == o + n && o !! n;
  }

  lemma {:induction false} WithoutSize(s: seq<nat>, x: nat)
    requires NoDup(s) && x in s
    ensures |Without(s, x)| == |s| - 1
  {
    if s[0] == x {
      assert x !in s[1..] by {
        assert forall i :: 0 <= i < |s[1..]| ==> s[1..][i] == s[i + 1];
      }
    } else {
      assert NoDup(s[1..]) by {
        assert forall i :: 0 <= i < |s[1..]| ==> s[1..][i] == s[i + 1];
      }
      WithoutSize(s[1..], x);
    }
  }

  lemma TakeNewConf(w: World, ids: seq<ConfId>, done: set<VmId>, v: VmId)
    requires Ledger(w, ids, done) && v in w.vms && v !in done && w.vms[v].newConf.Some?
    ensures var vm := w.vms[v];
      Ledger(SetVm(w, v, vm.(conf := vm.newConf.value, newConf := None)), ids, done + {v})
  {
    var vm := w.vms[v];
    var w' := SetVm(w, v, vm.(conf := vm.newConf.value, newConf := None));
    assert LedgerOf(w, ids, vm, false);
    assert Kept(w', done + {v}) == Kept(w, done);
    assert Dying(w') == Dying(w);
    forall u | u in w'.vms ensures LedgerOf(w', ids, w'.vms[u], u in done + {v}) && VmName(w', u) == VmName(w, u) {
      assert LedgerOf(w, ids, w.vms[u], u in done);
    }
  }

  /** The entry is marked for removal and takes its configuration off the list. */
  lemma OneMoreDying(w: World, w': World, done: set<VmId>, v: VmId)
    requires v in w.vms && v !in done && w.vms[v].newConf.None? && w.vms[v].state != REMOVE
    requires w'.vms == w.vms[v := w.vms[v].(state := REMOVE)]
    ensures Kept(w', done + {v}) == Kept(w, done) && |Dying(w')| == |Dying(w)| + 1
  {
    assert Dying(w') == Dying(w) + {v};
  }

  lemma MarkRemoved(w: World, w1: World, ids: seq<ConfId>, done: set<VmId>, v: VmId)
    requires Ledger(w, ids, done) && v in w.vms && v !in done && w.vms[v].newConf.None?
    requires w1.confs == w.confs && w1.confList == w.confList && w1.vms == w.vms[v := w.vms[v].(state := REMOVE)]
    ensures Ledger(UnlinkConf(w1, w.vms[v].conf), ids, done + {v})
    ensures UnlinkConf(w1, w.vms[v].conf).faults == w1.faults
  {
    var c := w.vms[v].conf;
    var w' := UnlinkConf(w1, c);
    assert LedgerOf(w, ids, w.vms[v], false);
    WithoutNoDup(w.confList, c);
    WithoutSize(w.confList, c);
    OneMoreDying(w, w', done, v);
    forall u | u in w'.vms ensures LedgerOf(w', ids, w'.vms[u], u in done + {v}) && VmName(w', u) == VmName(w, u) {
      assert LedgerOf(w, ids, w.vms[u], u in done);
      if u != v { assert VmName(w, u) != VmName(w, v); }
    }
  }

  lemma DeleteUnmatched(w: World, ids: seq<ConfId>, done: set<VmId>, v: VmId)
    requires Ledger(w, ids, done) && v in w.vms && v !in done && w.vms[v].newConf.None? && w.vms[v].state == TERMINATE
    ensures var w' := DeleteEntry(UnlinkConf(w, w.vms[v].conf), v);
      Ledger(w', ids, done + {v}) && w'.faults == w.faults
  {
    var c := w.vms[v].conf;
    var w' := DeleteEntry(UnlinkConf(w, c), v);
    assert LedgerOf(w, ids, w.vms[v], false);
    WithoutNoDup(w.confList, c);
    WithoutSize(w.confList, c);
    assert Kept(w', done + {v}) == Kept(w, done);
    assert Dying(w') == Dying(w);
    assert w'.confs.Keys == w.confs.Keys - {c};
    forall u | u in w'.vms ensures LedgerOf(w', ids, w'.vms[u], u in done + {v}) && VmName(w', u) == VmName(w, u) {
      assert LedgerOf(w, ids, w.vms[u], u in done);
      assert VmName(w, u) != VmName(w, v);
    }
  }

  lemma UnlinkLocal(w: World, c: ConfId)
    requires HealthOf(w) == Well
    ensures HealthOf(UnlinkConf(w, c)) == Well
  {
    FrameLocal(w, UnlinkConf(w, c), {}, multiset{});
  }

  lemma DeleteDownLocal(w: World, v: VmId)
    requires HealthOf(w) == Well && v in w.vms && w.vms[v].state == TERMINATE
    ensures HealthOf(DeleteEntry(w, v)) == Well
  {
    GoneIfDown(w, v, multiset{});
    DeleteLocal(w, v, multiset{});
  }

  lemma SettleOneLocal(w: World, v: VmId, timerOk: bool)
    requires HealthOf(w) == Well && v in w.vms
    ensures HealthOf(SettleOne(w, v, timerOk)) == Well
  {
    var vm := w.vms[v];
    if vm.newConf.Some? {
      PointersLocal(w, v, vm.(conf := vm.newConf.value, newConf := None));
    } else {
      match vm.state
      case TERMINATE =>
        UnlinkLocal(w, vm.conf);
        DeleteDownLocal(UnlinkConf(w, vm.conf), v);
      case LOAD =>
        AskToStopLocal(w, v, StopTimeout(w, v), timerOk, REMOVE);
        UnlinkLocal(AskToStop(w, v, StopTimeout(w, v), timerOk, REMOVE), vm.conf);
      case RUN =>
        AskToStopLocal(w, v, StopTimeout(w, v), timerOk, REMOVE);
        UnlinkLocal(AskToStop(w, v, StopTimeout(w, v), timerOk, REMOVE), vm.conf);
      case _ =>
        SetStateLocal(w, v, REMOVE);
        UnlinkLocal(SetState(w, v, REMOVE), vm.conf);
    }
  }

  lemma SettleOneLedger(w: World, ids: seq<ConfId>, done: set<VmId>, v: VmId, timerOk: bool)
    requires Ledger(w, ids, done) && v in w.vms && v !in done
    ensures var w' := SettleOne(w, v, timerOk);
      Ledger(w', ids, done + {v}) && w.faults <= w'.faults <= w.faults + {StraySignal}
  {
    var vm := w.vms[v];
    assert LedgerOf(w, ids, vm, false);
    if vm.newConf.Some? {
      TakeNewConf(w, ids, done, v);
    } else if vm.state == TERMINATE {
      DeleteUnmatched(w, ids, done, v);
    } else if vm.state in {LOAD, RUN} {
      AskToStopShape(w, v, StopTimeout(w, v), timerOk, REMOVE);
      MarkRemoved(w, AskToStop(w, v, StopTimeout(w, v), timerOk, REMOVE), ids, done, v);
    } else {
      MarkRemoved(w, SetState(w, v, REMOVE), ids, done, v);
    }
  }

  lemma SettleOneFaults(w: World, ids: seq<ConfId>, done: set<VmId>, v: VmId, timerOk: bool)
    requires HealthOf(w) == Well && Ledger(w, ids, done) && v in w.vms && v !in done
    ensures SettleOne(w, v, timerOk).faults == w.faults
  {
    SettleOneLedger(w, ids, done, v, timerOk);
    SettleOneLocal(w, v, timerOk);
    WellMeansNoStray(w);
    WellMeansNoStray(SettleOne(w, v, timerOk));
    NoStrayNoFault(w.faults, SettleOne(w, v, timerOk).faults);
  }

  lemma NoStrayNoFault(before: set<Fault>, after: set<Fault>)
    requires before <= after <= before + {StraySignal} && StraySignal !in after
    ensures after == before
  {
  }

  lemma WellMeansNoStray(w: World)
    requires HealthOf(w) == Well
    ensures StraySignal !in w.faults
  {
  }

  /** Settling one entry touches no other, and adds none. */
  lemma SettleOneFrame(w: World, v: VmId, timerOk: bool)
    requires v in w.vms
    ensures OneSettled(w, SettleOne(w, v, timerOk), v)
  {
    if w.vms[v].newConf.None? {
      var c := w.vms[v].conf;
      if w.vms[v].state in {LOAD, RUN} {
        AskToStopShape(w, v, StopTimeout(w, v), timerOk, REMOVE);
        UnlinkSettled(w, AskToStop(w, v, StopTimeout(w, v), timerOk, REMOVE), v, c);
      } else if w.vms[v].state != TERMINATE {
        UnlinkSettled(w, SetState(w, v, REMOVE), v, c);
      } else {
        DeleteSettled(w, v, c);
      }
    }
  }

  lemma UnlinkSettled(w: World, w1: World, v: VmId, c: ConfId)
    requires OneSettled(w, w1, v)
    ensures OneSettled(w, UnlinkConf(w1, c), v)
  {
  }

  lemma DeleteSettled(w: World, v: VmId, c: ConfId)
    requires v in w.vms
    ensures OneSettled(w, DeleteEntry(UnlinkConf(w, c), v), v)
  {
  }

  ghost predicate OneSettled(w: World, w': World, v: VmId) {
    && (forall u :: u != v ==> (u in w'.vms <==> u in w.vms))
    && (forall u :: u in w.vms && u != v ==> w'.vms[u] == w.vms[u])
    && (forall c :: c in w'.confList ==> c in w.confList)
    && (forall c :: c in w'.confs ==> c in w.confs && w'.confs[c] == w.confs[c])
    && w'.nextConf == w.nextConf && w'.nextVm == w.nextVm && w.faults <= w'.faults
  }

  lemma AskToStopShape(w: World, v: VmId, secs: int, timerOk: bool, s: State)
    requires v in w.vms
    ensures var w1 := AskToStop(w, v, secs, timerOk, s);
      && w1.confs == w.confs && w1.confList == w.confList && w1.nextConf == w.nextConf && w1.nextVm == w.nextVm
      && w.faults <= w1.faults <= w.faults + {StraySignal} && w1.vms == w.vms[v := w.vms[v].(state := s)]
  {
  }

  ghost function SetOf(s: seq<VmId>): set<VmId> {
    set v | v in s
  }

  lemma SnocSet(s: seq<VmId>)
    requires s != []
    ensures SetOf(s) == SetOf(s[..|s| - 1]) + {s[|s| - 1]}
  {
    assert s == s[..|s| - 1] + [s[|s| - 1]];
  }

  lemma LastIsNew(vs: seq<VmId>)
    requires NoDup(vs) && vs != []
    ensures vs[|vs| - 1] !in vs[..|vs| - 1] && NoDup(vs[..|vs| - 1])
    ensures forall u :: u in vs <==> u in vs[..|vs| - 1] || u == vs[|vs| - 1]
  {
    var n := |vs| - 1;
    assert forall i :: 0 <= i < n ==> vs[..n][i] == vs[i];
    assert vs == vs[..n] + [vs[n]];
  }

  lemma {:induction false} SettleAllLedger(w: World, ids: seq<ConfId>, vs: seq<VmId>, noTimer: set<VmId>)
    requires Ledger(w, ids, {}) && NoDup(vs) && forall v :: v in vs ==> v in w.vms
    ensures var w' := SettleAll(w, vs, noTimer);
      && Ledger(w', ids, SetOf(vs)) && w.faults <= w'.faults <= w.faults + {StraySignal}
      && (forall v :: v !in vs ==> (v in w'.vms <==> v in w.vms))
  {
    if vs == [] {
      assert SetOf(vs) == {};
    } else {
      var n := |vs| - 1;
      LastIsNew(vs);
      SettleAllLedger(w, ids, vs[..n], noTimer);
      var w1 := SettleAll(w, vs[..n], noTimer);
      SettleOneLedger(w1, ids, SetOf(vs[..n]), vs[n], vs[n] !in noTimer);
      SettleOneFrame(w1, vs[n], vs[n] !in noTimer);
      SnocSet(vs);
    }
  }

  lemma {:induction false} SettleAllKeeps(w: World, ids: seq<ConfId>, vs: seq<VmId>, noTimer: set<VmId>)
    requires HealthOf(w) == Well && Ledger(w, ids, {}) && NoDup(vs) && forall v :: v in vs ==> v in w.vms
    ensures HealthOf(SettleAll(w, vs, noTimer)) == Well && SettleAll(w, vs, noTimer).faults == w.faults
  {
    if vs != [] {
      var n := |vs| - 1;
      LastIsNew(vs);
      SettleAllKeeps(w, ids, vs[..n], noTimer);
      SettleAllLedger(w, ids, vs[..n], noTimer);
      var w1 := SettleAll(w, vs[..n], noTimer);
      SettleOneLocal(w1, vs[n], vs[n] !in noTimer);
      SettleOneFaults(w1, ids, SetOf(vs[..n]), vs[n], vs[n] !in noTimer);
    }
  }

  // ---------------------------------------------------------------- releasing the old configurations

  lemma {:induction false} FreeAllResult(w: World, cs: seq<ConfId>)
    requires NoDup(cs) && forall c :: c in cs ==> c in w.confs
    ensures var w' := FreeAll(w, cs);
      && w' == w.(confs := w'.confs)
      && (forall c :: c in w'.confs <==> c in w.confs && c !in cs)
      && (forall c :: c in w'.confs ==> w'.confs[c] == w.confs[c])
      && |w'.confs| == |w.confs| - |cs|
  {
    if cs != [] {
      var n := |cs| - 1;
      assert cs[n] in cs && forall c :: c in cs[..n] ==> c in cs;
      assert cs == cs[..n] + [cs[n]];
      FreeAllResult(w, cs[..n]);
      LastIsNoOther(cs);
      FreeOne(FreeAll(w, cs[..n]), cs[n]);
    }
  }

  lemma LastIsNoOther(cs: seq<ConfId>)
    requires NoDup(cs) && cs != []
    ensures cs[|cs| - 1] !in cs[..|cs| - 1]
  {
    var n := |cs| - 1;
    assert forall i :: 0 <= i < n ==> cs[..n][i] == cs[i];
  }

  lemma FreeOne(w: World, c: ConfId)
    requires c in w.confs
    ensures FreeConf(w, c) == w.(confs := w.confs - {c}) && |w.confs - {c}| == |w.confs| - 1
  {
    assert (w.confs - {c}).Keys == w.confs.Keys - {c};
  }

  /** Once every entry is settled and the old list released, ownership is as it should be. */
  lemma FinalOwned(w: World, ids: seq<ConfId>, done: set<VmId>)
    requires Ledger(w, ids, done) && (forall v :: v in w.vms ==> v in done)
    requires forall c :: c in w.confs ==> c < w.nextConf
    ensures var w' := FreeAll(w, w.confList).(confList := ids); Owned(w') && w'.faults == w.faults
  {
    FreeAllResult(w, w.confList);
    var w' := FreeAll(w, w.confList).(confList := ids);
    forall v | v in w.vms ensures w.vms[v].conf !in w.confList && w.vms[v].conf in w.confs {
      assert LedgerOf(w, ids, w.vms[v], true);
    }
    assert forall v :: v in w.vms ==> VmName(w', v) == VmName(w, v);
    FinalCount(w, ids, done);
  }

  lemma FinalCount(w: World, ids: seq<ConfId>, done: set<VmId>)
    requires Ledger(w, ids, done) && (forall v :: v in w.vms ==> v in done)
    ensures |w.vms| == |ids| + |Dying(w)|
  {
    var k, d := Kept(w, done), Dying(w);
    forall v | v in w.vms ensures v in k <==> v !in d {
      assert LedgerOf(w, ids, w.vms[v], true);
    }
    assert w.vms.Keys == k + d && k !! d;
    assert |w.vms.Keys| == |k| + |d|;
  }
}
