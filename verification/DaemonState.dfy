/**
 The daemon's global state and the steps its handlers are made of.

 `World` gathers the process-wide variables of the daemon (`vm_list`, `vm_conf_list`,
 `event_list`, `timer_id`) and the part of the kernel the daemon is responsible for: its
 un-reaped children and the tap interfaces it created.  Records that the daemon allocates
 and updates in place are values in a map keyed by their address, so a dangling or shared
 pointer stays expressible.
 */
module DaemonState {
  import opened Options

  type VmId = nat
  type ConfId = nat
  type Pid = int
  type Tap = nat

  datatype State = TERMINATE | LOAD | RUN | STOP | REMOVE | RESTART
  datatype Boot = NO | YES | ONESHOT | ALWAYS
  datatype Loader = BhyveLoad | Grub | Uefi | Csm | Unknown

  /** The fields of `struct vm_conf` that the life cycle reads. */
  datatype Conf = Conf(
    name: string,
    boot: Boot,
    bootDelay: int,
    loaderTimeout: int,
    stopTimeout: int,
    rebootOnChange: bool,
    install: bool,
    bhyve: bool,      // the backend is "bhyve"
    loader: Loader)

  /** `struct vm_entry`; a tap that was not created is None. */
  datatype Vm = Vm(state: State, pid: Pid, taps: seq<Option<Tap>>, conf: ConfId, newConf: Option<ConfId>)

  datatype Event = Exit(vm: VmId, pid: Pid) | Timer(vm: VmId, id: nat, secs: int)

  /**
   An un-reaped child, the entry it was forked for, whether it is a loader, and what was done to it
   so far: SIGTERM, SIGKILL, and a suspend request to its virtual machine.
   */
  datatype Child = Child(vm: VmId, loader: bool, termed: bool, killed: bool, suspended: bool)

  datatype Fault = StraySignal | ConfUnlinkedTwice | ConfReleasedTwice | EventReleasedTwice

  datatype World = World(
    vmList: seq<VmId>,
    vms: map<VmId, Vm>,
    nextVm: VmId,
    confList: seq<ConfId>,
    confs: map<ConfId, Conf>,
    nextConf: ConfId,
    events: seq<Event>,
    lastTimer: nat,
    children: map<Pid, Child>,
    taps: map<Tap, VmId>,     // the tap interfaces that exist, and the entry they were created for
    faults: set<Fault>)

  // ---------------------------------------------------------------- lists

  function Without<T(==,!new)>(s: seq<T>, x: T): (r: seq<T>)
    ensures forall y :: y in r <==> y in s && y != x
    ensures |r| <= |s|
    ensures x !in s ==> r == s
  {
    if s == [] then []
    else if s[0] == x then Without(s[1..], x)
    else
      assert s == [s[0]] + s[1..];
      [s[0]] + Without(s[1..], x)
  }

  /** The selections that `stop_waiting_for` is called with. */
  datatype Selection = TimersOf(vm: VmId) | AllOf(vm: VmId)

  predicate Selects(k: Selection, e: Event) {
    e.vm == k.vm && (k.TimersOf? ==> e.Timer?)
  }

  /** The events `stop_waiting_for` leaves behind. */
  function Drop(s: seq<Event>, k: Selection): (r: seq<Event>)
    ensures forall e :: e in r <==> e in s && !Selects(k, e)
  {
    if s == [] then []
    else if Selects(k, s[0]) then Drop(s[1..], k)
    else [s[0]] + Drop(s[1..], k)
  }

  /** It goes along the list, so the order is kept. */
  lemma {:induction false} DropConcat(a: seq<Event>, b: seq<Event>, k: Selection)
    ensures Drop(a + b, k) == Drop(a, k) + Drop(b, k)
  {
    if a == [] {
      assert a + b == b;
    } else {
      assert (a + b)[1..] == a[1..] + b;
      DropConcat(a[1..], b, k);
    }
  }

  lemma {:induction false} DropCounts(s: seq<Event>, k: Selection)
    ensures forall e :: multiset(Drop(s, k))[e] == if Selects(k, e) then 0 else multiset(s)[e]
  {
    if s == [] {
    } else {
      DropCounts(s[1..], k);
      assert s == [s[0]] + s[1..];
    }
  }

  /** The list without the oldest (rearmost) event equal to `e`: insertion is at the head. */
  function RemoveOldest(s: seq<Event>, e: Event): (r: seq<Event>)
    requires e in s
    ensures multiset(r) == multiset(s) - multiset{e}
    ensures |r| == |s| - 1
  {
    var i := OldestIndex(s, e, |s|);
    assert s == s[..i] + [s[i]] + s[i + 1..];
    s[..i] + s[i + 1..]
  }

  function OldestIndex(s: seq<Event>, e: Event, n: nat): (i: nat)
    requires n <= |s| && e in s[..n]
    ensures i < n && s[i] == e && e !in s[i + 1..n]
  {
    if s[n - 1] == e then n - 1 else OldestIndex(s, e, n - 1)
  }

  predicate IsTimerOf(e: Event, v: VmId) { e.Timer? && e.vm == v }

  ghost predicate HasTimer(w: World, v: VmId) {
    exists e :: e in w.events && IsTimerOf(e, v)
  }

  // ---------------------------------------------------------------- small steps

  function SetVm(w: World, v: VmId, vm: Vm): World {
    w.(vms := w.vms[v := vm])
  }

  function SetState(w: World, v: VmId, s: State): World
    requires v in w.vms
  {
    SetVm(w, v, w.vms[v].(state := s))
  }

  /** `set_timer`: the identifier is consumed even if the registration fails. */
  function AddTimer(w: World, v: VmId, secs: int, ok: bool): World {
    var id := w.lastTimer + 1;
    if ok then w.(lastTimer := id, events := [Timer(v, id, secs)] + w.events)
    else w.(lastTimer := id)
  }

  predicate OwnsChild(w: World, v: VmId)
    requires v in w.vms
  {
    w.vms[v].pid in w.children && w.children[w.vms[v].pid].vm == v
  }

  /** `VM_ACPI_POWEROFF`: SIGTERM to whatever process has the recorded pid. */
  function Term(w: World, v: VmId): World
    requires v in w.vms
  {
    var p := w.vms[v].pid;
    if OwnsChild(w, v) then w.(children := w.children[p := w.children[p].(termed := true)])
    else w.(faults := w.faults + {StraySignal})
  }

  /** `VM_POWEROFF`: SIGKILL to the recorded pid in the state LOAD, and in any other a suspend request by name. */
  function Kill(w: World, v: VmId): World
    requires v in w.vms
  {
    var p := w.vms[v].pid;
    if OwnsChild(w, v) then w.(children := w.children[p := PoweredOff(w.children[p], w.vms[v].state)])
    else if w.vms[v].state == LOAD then w.(faults := w.faults + {StraySignal})
    else w
  }

  function PoweredOff(c: Child, s: State): Child {
    if s == LOAD then c.(killed := true) else c.(suspended := true)
  }

  /** `waitpid(VM_PID(v))`. */
  function Reap(w: World, v: VmId): World
    requires v in w.vms
  {
    w.(children := w.children - {w.vms[v].pid})
  }

  // ---------------------------------------------------------------- taps

  datatype TapResult = Created(tap: Tap) | Skipped | CreateFailed | SetupFailed(tap: Tap)

  predicate TapsSucceed(results: seq<TapResult>) {
    forall r :: r in results ==> r.Created? || r.Skipped?
  }

  function NoTaps(n: nat): (r: seq<Option<Tap>>)
    ensures |r| == n && forall t :: t in r ==> t == None
  {
    seq(n, _ => None)
  }

  /** What `vm->taps` holds when the creation loop of `assign_taps` stops. */
  function TapsAttempted(results: seq<TapResult>): (r: seq<Option<Tap>>)
    ensures |r| == |results|
  {
    if results == [] then []
    else match results[0]
      case Created(t) => [Some(t)] + TapsAttempted(results[1..])
      case Skipped => [None] + TapsAttempted(results[1..])
      case CreateFailed => NoTaps(|results|)
      case SetupFailed(t) => [Some(t)] + NoTaps(|results| - 1)
  }

  function TapSet(taps: seq<Option<Tap>>): (r: set<Tap>)
    ensures forall t :: t in r <==> Some(t) in taps
  {
    if taps == [] then {}
    else TapSet(taps[1..]) + if taps[0].Some? then {taps[0].value} else {}
  }

  function Granted(m: map<Tap, VmId>, s: set<Tap>, v: VmId): map<Tap, VmId> {
    m + map t | t in s :: v
  }

  /** The interfaces in `taps` come into being, on behalf of `v`. */
  function GiveTaps(w: World, v: VmId, taps: seq<Option<Tap>>): World
    requires v in w.vms
  {
    SetVm(w, v, w.vms[v].(taps := taps)).(taps := Granted(w.taps, TapSet(taps), v))
  }

  /** `remove_taps`: without a control socket it gives up and keeps everything. */
  function RemoveTaps(w: World, v: VmId, sockOk: bool): World
    requires v in w.vms
  {
    if sockOk then SetVm(w, v, w.vms[v].(taps := [])).(taps := w.taps - TapSet(w.vms[v].taps))
    else w
  }

  /** `cleanup_virtual_machine`. */
  function Cleanup(w: World, v: VmId, sockOk: bool): World
    requires v in w.vms
  {
    SetState(RemoveTaps(w, v, sockOk), v, TERMINATE)
  }

  // ---------------------------------------------------------------- starting and stopping

  /** What the kernel and the lookups answer while a machine is being started or stopped. */
  datatype Outcome = Outcome(
    found: bool,              // set_vm_method and assign_comport succeed
    netsOk: bool,             // the network lines can be copied and a control socket opened
    taps: seq<TapResult>,     // one answer for each network line
    activateOk: bool,
    spawn: Option<Pid>,       // the forked child, or None when the start method fails
    exitOk: bool,             // the exit event could be registered
    outputOk: bool,           // the output events could be registered
    timerOk: bool,
    sockOk: bool)             // remove_taps gets its control socket

  function AssignTaps(w: World, v: VmId, o: Outcome): (World, bool)
    requires v in w.vms
  {
    if w.vms[v].taps != [] then (w, true)
    else if !o.netsOk then (w, false)
    else
      var w1 := GiveTaps(w, v, TapsAttempted(o.taps));
      if TapsSucceed(o.taps) then (w1, true) else (RemoveTaps(w1, v, o.sockOk), false)
  }

  function PrepareTaps(w: World, v: VmId, o: Outcome): (World, bool)
    requires v in w.vms
  {
    var (w1, ok) := AssignTaps(w, v, o);
    if !ok then (w1, false)
    else if !o.activateOk then (RemoveTaps(w1, v, o.sockOk), false)
    else (w1, true)
  }

  /** `start_bhyve`: a finished loader is followed by the guest, anything else goes by the loader. */
  function StartTarget(s: State, l: Loader): Option<State> {
    if s == LOAD then Some(RUN)
    else match l
      case BhyveLoad => Some(LOAD)
      case Grub => Some(LOAD)
      case Uefi => Some(RUN)
      case Csm => Some(RUN)
      case Unknown => None
  }

  function Spawn(w: World, v: VmId, p: Pid, s: State): World
    requires v in w.vms
  {
    SetVm(w, v, w.vms[v].(state := s, pid := p)).(children := w.children[p := Child(v, s == LOAD, false, false, false)])
  }

  function Watch(w: World, v: VmId, p: Pid): World {
    w.(events := [Exit(v, p)] + w.events)
  }

  /** `start_virtual_machine`, from the start method on. */
  function Launch(w: World, v: VmId, o: Outcome): (World, bool)
    requires v in w.vms && w.vms[v].conf in w.confs
  {
    var conf := w.confs[w.vms[v].conf];
    var target := StartTarget(w.vms[v].state, conf.loader);
    if target.None? || o.spawn.None? then (Cleanup(w, v, o.sockOk), false)
    else
      var p := o.spawn.value;
      var w1 := Spawn(w, v, p, target.value);
      var w2 := if o.exitOk then Watch(w1, v, p) else w1;
      if !o.exitOk || !o.outputOk then (Cleanup(Reap(Kill(w2, v), v), v, o.sockOk), false)
      else if target.value == LOAD && conf.loaderTimeout > 0 then
        (AddTimer(w2, v, conf.loaderTimeout, o.timerOk), o.timerOk)
      else (w2, true)
  }

  function Start(w: World, v: VmId, o: Outcome): (World, bool)
    requires v in w.vms && w.vms[v].conf in w.confs
  {
    if !o.found then (w, false)
    else if w.vms[v].state == TERMINATE then
      var (w1, ok) := PrepareTaps(w, v, o);
      if ok then Launch(w1, v, o) else (w1, false)
    else Launch(w, v, o)
  }

  /** `stop_virtual_machine`. */
  function Stop(w: World, v: VmId, sockOk: bool): World
    requires v in w.vms
  {
    Cleanup(w.(events := Drop(w.events, TimersOf(v))), v, sockOk)
  }

  // ---------------------------------------------------------------- entries and configurations

  /** `free_vm_conf_entry`. */
  function FreeConf(w: World, c: ConfId): World {
    w.(confs := w.confs - {c},
       faults := if c in w.confs then w.faults else w.faults + {ConfReleasedTwice})
  }

  /** `LIST_REMOVE` of a configuration from `vm_conf_list`. */
  function UnlinkConf(w: World, c: ConfId): World {
    w.(confList := Without(w.confList, c),
       faults := if c in w.confList then w.faults else w.faults + {ConfUnlinkedTwice})
  }

  /** `create_vm_entry`. */
  function CreateEntry(w: World, c: ConfId): World {
    var v := w.nextVm;
    w.(vmList := [v] + w.vmList, nextVm := v + 1,
       vms := w.vms[v := Vm(TERMINATE, -1, [], c, None)])
  }

  /** `SLIST_REMOVE` from `vm_list`, then `free_vm_entry`. */
  function DeleteEntry(w: World, v: VmId): World
    requires v in w.vms
  {
    FreeConf(w.(vmList := Without(w.vmList, v),
                events := Drop(w.events, AllOf(v)),
                vms := w.vms - {v}), w.vms[v].conf)
  }

  // ---------------------------------------------------------------- handlers

  datatype Status = Exited(code: int) | Signaled(sig: int)

  function Max(a: int, b: int): (m: int)
    ensures a <= m && b <= m && (m == a || m == b)
  {
    if a < b then b else a
  }

  predicate ShouldRestart(conf: Conf, status: Status) {
    !conf.install && status.Exited? && (conf.boot == ALWAYS || (conf.bhyve && status.code == 0))
  }

  /** An exit after which the machine stays down; installing ends with it. */
  function Finish(w: World, v: VmId, sockOk: bool): World
    requires v in w.vms && w.vms[v].conf in w.confs
  {
    var w1 := Stop(w, v, sockOk);
    var c := w.vms[v].conf;
    w1.(confs := w1.confs[c := w1.confs[c].(install := false)])
  }

  function OnVmExit(w: World, v: VmId, status: Status, o: Outcome): World
    requires v in w.vms && w.vms[v].conf in w.confs
  {
    var conf := w.confs[w.vms[v].conf];
    var w0 := Reap(w, v);
    match w.vms[v].state
    case LOAD => if status == Exited(0) then Start(w0, v, o).0 else Stop(w0, v, o.sockOk)
    case RESTART => AddTimer(Stop(w0, v, o.sockOk), v, Max(conf.bootDelay, 3), o.timerOk)
    case RUN => if ShouldRestart(conf, status) then Start(w0, v, o).0 else Finish(w0, v, o.sockOk)
    case STOP => Finish(w0, v, o.sockOk)
    case REMOVE => DeleteEntry(Stop(w0, v, o.sockOk), v)
    case TERMINATE => w0
  }

  function OnTimer(w: World, v: VmId, o: Outcome): World
    requires v in w.vms && w.vms[v].conf in w.confs
  {
    match w.vms[v].state
    case TERMINATE => Start(w, v, o).0
    case RUN => w
    case _ => Kill(w, v)
  }

  /** What `event_loop` does with a one-shot event once its callback returned. */
  function Release(w: World, e: Event): World {
    if e in w.events then w.(events := RemoveOldest(w.events, e))
    else w.(faults := w.faults + {EventReleasedTwice})
  }

  function VmName(w: World, v: VmId): string
    requires v in w.vms && w.vms[v].conf in w.confs
  {
    w.confs[w.vms[v].conf].name
  }

  predicate HasName(w: World, v: VmId, name: string) {
    v in w.vms && w.vms[v].conf in w.confs && VmName(w, v) == name
  }

  /** `lookup_vm_by_name`: the first entry of that name. */
  function Lookup(w: World, list: seq<VmId>, name: string): (r: Option<VmId>)
    ensures r.Some? ==> r.value in list && HasName(w, r.value, name)
    ensures r.None? ==> forall v :: v in list ==> !HasName(w, v, name)
  {
    if list == [] then None
    else if HasName(w, list[0], name) then Some(list[0])
    else Lookup(w, list[1..], name)
  }

  lemma {:induction false} LookupFirst(w: World, list: seq<VmId>, name: string, i: nat)
    requires i < |list| && HasName(w, list[i], name) && forall j :: 0 <= j < i ==> !HasName(w, list[j], name)
    ensures Lookup(w, list, name) == Some(list[i])
  {
    if i > 0 {
      assert !HasName(w, list[0], name);
      LookupFirst(w, list[1..], name, i - 1);
    }
  }

  /** `search_and_replace_vm_conf`, once the file has been read: `differs` is the comparison's verdict. */
  function ReplaceConf(w: World, v: VmId, conf: Conf, differs: bool): World
    requires v in w.vms
  {
    if differs then
      var prev := w.vms[v].conf;
      var w1 := UnlinkConf(w, prev);
      var w2 := w1.(confList := [w.nextConf] + w1.confList,
                    confs := w1.confs[w.nextConf := conf], nextConf := w.nextConf + 1);
      var w3 := FreeConf(w2, prev);
      SetVm(w3, v, w3.vms[v].(conf := w.nextConf))
    else w.(nextConf := w.nextConf + 1)
  }

  /** What `boot0_command` does to the configuration before it starts the machine. */
  function PrepareBoot(w: World, v: VmId, conf: Conf, differs: bool, install: bool): (r: World)
    requires v in w.vms && w.vms[v].conf in w.confs && w.nextConf !in w.confs
    ensures v in r.vms && r.vms[v].conf in r.confs
  {
    var w1 := ReplaceConf(w, v, conf, differs);
    var c := w1.vms[v].conf;
    if install then w1.(confs := w1.confs[c := w1.confs[c].(install := true)]) else w1
  }

  datatype Reply = Done | NotFound | AlreadyRunning | LoadFailed | StartFailed | UnknownCommand

  /** `boot0_command` with style 0 (boot) or 1 (install); `loaded` is the file's section of that name. */
  function BootCommand(w: World, name: string, allowed: bool, install: bool,
                       loaded: Option<Conf>, differs: bool, o: Outcome): (World, Reply)
    requires loaded.Some? ==> w.nextConf !in w.confs
  {
    var r := Lookup(w, w.vmList, name);
    if r.None? || !allowed then (w, NotFound)
    else
      var v := r.value;
      if w.vms[v].state != TERMINATE then (w, AlreadyRunning)
      else if loaded.None? then (w, LoadFailed)
      else
        var (w1, ok) := Start(PrepareBoot(w, v, loaded.value, differs, install), v, o);
        (w1, if ok then Done else StartFailed)
  }

  /** `vm_down_command`: 0 shuts down, 1 resets, 2 powers off. */
  function DownCommand(w: World, name: string, allowed: bool, how: int, timerOk: bool): (World, Reply)
  {
    var r := Lookup(w, w.vmList, name);
    if r.None? || !allowed then (w, NotFound)
    else
      var v := r.value;
      var s := w.vms[v].state;
      if s != LOAD && s != RUN then (w, Done)
      else if how == 0 then
        (SetState(AddTimer(Term(w, v), v, w.confs[w.vms[v].conf].stopTimeout, timerOk), v, STOP), Done)
      else if how == 1 then (w, Done)
      else if how == 2 then (SetState(Kill(w, v), v, STOP), Done)
      else (w, UnknownCommand)
  }
}
