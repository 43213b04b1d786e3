/** `reload_virtual_machines`: reconciling the running machines with a configuration just read. */
module Reload {
  import opened Options
  import opened DaemonState
  import opened Lifecycle

  /** A section of the new file, the verdict of `compare_vm_conf_entry` on it, and the kernel's answers. */
  datatype Loaded = Loaded(conf: Conf, differs: bool, o: Outcome)

  function Ids(first: ConfId, n: nat): (r: seq<ConfId>)
    ensures |r| == n && forall i :: 0 <= i < n ==> r[i] == first + i
  {
    seq(n, i => first + i)
  }

  function AddConfs(confs: map<ConfId, Conf>, first: ConfId, loaded: seq<Loaded>): (r: map<ConfId, Conf>)
    ensures forall c :: c in r <==> c in confs || first <= c < first + |loaded|
    ensures forall c :: first <= c < first + |loaded| ==> r[c] == loaded[c - first].conf
    ensures forall c :: c in confs && c < first ==> r[c] == confs[c]
  {
    if loaded == [] then confs
    else
      var n := |loaded| - 1;
      AddConfs(confs, first, loaded[..n])[first + n := loaded[n].conf]
  }

  /** The new configurations exist beside the old ones, and no entry has been matched yet. */
  function Begin(w: World, loaded: seq<Loaded>): World {
    w.(confs := AddConfs(w.confs, w.nextConf, loaded),
       nextConf := w.nextConf + |loaded|,
       vms := map v | v in w.vms :: w.vms[v].(newConf := None))
  }

  function SetNewConf(w: World, v: VmId, c: ConfId): World
    requires v in w.vms
  {
    SetVm(w, v, w.vms[v].(newConf := Some(c)))
  }

  /** A section without an entry: create one and boot it as the section asks. */
  function AddEntry(w: World, c: ConfId, o: Outcome): (r: World)
    requires c in w.confs
    ensures r.confs == w.confs
  {
    var v := w.nextVm;
    var w1 := SetNewConf(CreateEntry(w, c), v, c);
    var conf := w.confs[c];
    if conf.boot == NO then w1
    else if conf.bootDelay > 0 then AddTimer(w1, v, conf.bootDelay, o.timerOk)
    else
      StartFrame(w1, v, o);
      Start(w1, v, o).0
  }

  /** The machine is asked to stop, and is marked with what is to happen then. */
  function AskToStop(w: World, v: VmId, secs: int, timerOk: bool, s: State): World
    requires v in w.vms
  {
    SetState(AddTimer(Term(w, v), v, secs, timerOk), v, s)
  }

  /** The new section asks for a reboot because something changed. */
  function RebootEntry(w: World, v: VmId, conf: Conf, timerOk: bool): World
    requires v in w.vms
  {
    match w.vms[v].state
    case TERMINATE => AddTimer(w, v, Max(conf.bootDelay, 1), timerOk)
    case LOAD => AskToStop(w, v, conf.stopTimeout, timerOk, RESTART)
    case RUN => AskToStop(w, v, conf.stopTimeout, timerOk, RESTART)
    case STOP => SetState(w, v, RESTART)
    case _ => w
  }

  /** Only the `boot` parameter is acted upon. */
  function FollowBoot(w: World, v: VmId, c: ConfId, o: Outcome): (r: World)
    requires v in w.vms && c in w.confs
    ensures r.confs == w.confs
  {
    var conf := w.confs[c];
    var s := w.vms[v].state;
    match conf.boot
    case NO =>
      if s == LOAD || s == RUN then AskToStop(w, v, conf.stopTimeout, o.timerOk, STOP)
      else if s == RESTART then SetState(w, v, STOP)
      else w
    case ONESHOT => w
    case _ =>
      if s == TERMINATE then
        var w1 := SetVm(w, v, w.vms[v].(conf := c));
        StartFrame(w1, v, o);
        Start(w1, v, o).0
      else if s == STOP then SetState(w, v, RESTART)
      else w
  }

  /** One round of the loop over the new configurations. */
  function MatchOne(w: World, c: ConfId, differs: bool, o: Outcome): (r: World)
    requires c in w.confs
    ensures r.confs == w.confs
  {
    var conf := w.confs[c];
    var found := Lookup(w, w.vmList, conf.name);
    if found.None? then AddEntry(w, c, o)
    else
      var v := found.value;
      var w1 := SetNewConf(w, v, c);
      if conf.boot != NO && conf.rebootOnChange && differs then RebootEntry(w1, v, conf, o.timerOk)
      else if conf.boot == w.confs[w.vms[v].conf].boot then w1
      else FollowBoot(w1, v, c, o)
  }

  function MatchAll(w: World, cs: seq<ConfId>, loaded: seq<Loaded>): (r: World)
    requires |cs| == |loaded| && forall c :: c in cs ==> c in w.confs
    ensures r.confs == w.confs
  {
    if cs == [] then w
    else
      var n := |cs| - 1;
      assert cs[n] in cs && forall c :: c in cs[..n] ==> c in cs;
      MatchOne(MatchAll(w, cs[..n], loaded[..n]), cs[n], loaded[n].differs, loaded[n].o)
  }

  function StopTimeout(w: World, v: VmId): int
    requires v in w.vms
  {
    if w.vms[v].conf in w.confs then w.confs[w.vms[v].conf].stopTimeout else 0
  }

  /** One round of the loop over the entries: unmatched ones go, the others take their new configuration. */
  function SettleOne(w: World, v: VmId, timerOk: bool): World
    requires v in w.vms
  {
    var vm := w.vms[v];
    if vm.newConf.Some? then SetVm(w, v, vm.(conf := vm.newConf.value, newConf := None))
    else match vm.state
      case LOAD => UnlinkConf(AskToStop(w, v, StopTimeout(w, v), timerOk, REMOVE), vm.conf)
      case RUN => UnlinkConf(AskToStop(w, v, StopTimeout(w, v), timerOk, REMOVE), vm.conf)
      case TERMINATE => DeleteEntry(UnlinkConf(w, vm.conf), v)
      case _ => UnlinkConf(SetState(w, v, REMOVE), vm.conf)
  }

  /** `noTimer` holds the entries for which the stop timer cannot be registered. */
  function SettleAll(w: World, vs: seq<VmId>, noTimer: set<VmId>): World {
    if vs == [] then w
    else
      var n := |vs| - 1;
      var w1 := SettleAll(w, vs[..n], noTimer);
      if vs[n] in w1.vms then SettleOne(w1, vs[n], vs[n] !in noTimer) else w1
  }

  function FreeAll(w: World, cs: seq<ConfId>): World {
    if cs == [] then w else FreeConf(FreeAll(w, cs[..|cs| - 1]), cs[|cs| - 1])
  }

  /** The whole of a reload, from the moment the new configurations exist. */
  function Reconcile(b: World, ids: seq<ConfId>, loaded: seq<Loaded>, noTimer: set<VmId>): World
    requires |ids| == |loaded| && forall c :: c in ids ==> c in b.confs
  {
    var w1 := MatchAll(b, ids, loaded);
    var w2 := SettleAll(w1, w1.vmList, noTimer);
    FreeAll(w2, w2.confList).(confList := ids)
  }

  function ReloadAll(w: World, loaded: seq<Loaded>, noTimer: set<VmId>): World {
    Reconcile(Begin(w, loaded), Ids(w.nextConf, |loaded|), loaded, noTimer)
  }
}
