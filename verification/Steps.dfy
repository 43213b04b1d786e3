/** The daemon as a transition system, and what holds along every run of it. */
module Steps {
  import opened Options
  import opened DaemonState
  import opened Resources
  import opened Lifecycle
  import opened Handlers
  import opened Reload
  import opened ReloadProof
  import opened ReloadTheorems
  import opened Runs

  datatype Step =
    | ChildExits(v: VmId, p: Pid, status: Status, o: Outcome)
    | TimerFires(e: Event, o: Outcome)
    | Boot(name: string, allowed: bool, install: bool, loaded: Option<Conf>, differs: bool, o: Outcome)
    | Down(name: string, allowed: bool, how: int, timerOk: bool)
    | Reloads(sections: seq<Loaded>, noTimer: set<VmId>)

  ghost predicate Readable(w: World, v: VmId) {
    v in w.vms && w.vms[v].conf in w.confs
  }

  /** The step can happen, and the kernel keeps its promises while it does. */
  ghost predicate Enabled(w: World, s: Step) {
    match s
    case ChildExits(v, p, status, o) => Exit(v, p) in w.events && Readable(w, v) && Fresh(Reap(w, v), o)
    case TimerFires(e, o) => e in w.events && e.Timer? && Readable(w, e.vm) && Fresh(w, o)
    case Boot(name, _, _, loaded, _, o) =>
      (loaded.Some? ==> loaded.value.name == name && w.nextConf !in w.confs) && Fresh(w, o)
    case Down(_, _, _, _) => true
    case Reloads(sections, _) => ReloadFresh(w, sections)
  }

  ghost function Next(w: World, s: Step): World
    requires Enabled(w, s)
  {
    match s
    case ChildExits(v, p, status, o) => Release(OnVmExit(w, v, status, o), Exit(v, p))
    case TimerFires(e, o) => Release(OnTimer(w, e.vm, o), e)
    case Boot(name, allowed, install, loaded, differs, o) =>
      BootCommand(w, name, allowed, install, loaded, differs, o).0
    case Down(name, allowed, how, timerOk) => DownCommand(w, name, allowed, how, timerOk).0
    case Reloads(sections, noTimer) => ReloadAll(w, sections, noTimer)
  }

  /** None of the failures happens that the daemon does not recover from. */
  ghost predicate Clean(w: World, s: Step)
    requires Enabled(w, s)
  {
    match s
    case ChildExits(v, p, status, o) => ExitClean(w, v, status, o)
    case TimerFires(e, o) => TimerClean(w, e.vm, o)
    case Boot(name, allowed, install, loaded, differs, o) => BootClean(w, name, allowed, install, loaded, differs, o)
    case Down(_, _, _, _) => true
    case Reloads(sections, _) => ReloadClean(w, sections) && NoRemoval(w) && DistinctSections(sections)
  }

  /** Each step keeps the invariant exactly when it is clean. */
  lemma StepKeeps(w: World, s: Step)
    requires Inv(w) && Enabled(w, s)
    ensures Inv(Next(w, s)) <==> Clean(w, s)
  {
    match s
    case ChildExits(v, p, status, o) =>
      ExitKeeps(w, v, p, status, o);
      Judged(w, Next(w, s), ExitClean(w, v, status, o));
    case TimerFires(e, o) =>
      TimerKeeps(w, e, o);
      Judged(w, Next(w, s), TimerClean(w, e.vm, o));
    case Boot(name, allowed, install, loaded, differs, o) =>
      BootKeeps(w, name, allowed, install, loaded, differs, o);
      Judged(w, Next(w, s), BootClean(w, name, allowed, install, loaded, differs, o));
    case Down(name, allowed, how, timerOk) =>
      DownKeeps(w, name, allowed, how, timerOk);
      Judged(w, Next(w, s), true);
    case Reloads(sections, noTimer) => ReloadExact(w, sections, noTimer);
  }

  /** From a state that satisfies the invariant the step led to one that does, exactly if it was clean. */
  ghost predicate KeptIfClean(w: World, s: Step, w': World) {
    Inv(w) && Enabled(w, s) ==> (Inv(w') <==> Clean(w, s))
  }

  lemma NextKeptIfClean(w: World, s: Step)
    requires Enabled(w, s)
    ensures KeptIfClean(w, s, Next(w, s))
  {
    if Inv(w) { StepKeeps(w, s); }
  }

  lemma Judged(w: World, w': World, keeps: bool)
    requires w.faults <= {EventReleasedTwice} && w'.faults <= w.faults + {EventReleasedTwice}
    requires Judge(w', multiset{}) == SoundIff(keeps)
    ensures Inv(w') <==> keeps
  {
  }

  lemma SoundStepKeeps(w: World, s: Step)
    requires Judge(w, multiset{}) == Sound && w.faults == {} && Enabled(w, s)
    ensures Inv(Next(w, s)) <==> Clean(w, s)
  {
    StepKeeps(w, s);
  }

  /** The steps can happen one after the other. */
  ghost predicate EnabledAlong(w: World, ss: seq<Step>)
    decreases |ss|
  {
    ss == [] || (Enabled(w, ss[0]) && EnabledAlong(Next(w, ss[0]), ss[1..]))
  }

  ghost function After(w: World, ss: seq<Step>): World
    requires EnabledAlong(w, ss)
    decreases |ss|
  {
    if ss == [] then w else After(Next(w, ss[0]), ss[1..])
  }

  ghost predicate CleanAlong(w: World, ss: seq<Step>)
    requires EnabledAlong(w, ss)
    decreases |ss|
  {
    ss == [] || (Clean(w, ss[0]) && CleanAlong(Next(w, ss[0]), ss[1..]))
  }

  /** A run: each world is the next of the one before. */
  ghost predicate Run(ws: seq<World>, ss: seq<Step>) {
    && |ws| == |ss| + 1
    && (forall i :: 0 <= i < |ss| ==> Enabled(ws[i], ss[i]) && ws[i + 1] == Next(ws[i], ss[i]))
  }

  ghost predicate CleanRun(ws: seq<World>, ss: seq<Step>)
    requires |ws| == |ss| + 1
  {
    forall i :: 0 <= i < |ss| && Enabled(ws[i], ss[i]) ==> Clean(ws[i], ss[i])
  }

  /** Along every clean run from start-up the invariant holds in every world. */
  lemma {:induction false} RunSafe(ws: seq<World>, ss: seq<Step>, i: nat)
    requires Run(ws, ss) && CleanRun(ws, ss) && Inv(ws[0]) && i < |ws|
    ensures Inv(ws[i])
  {
    if i > 0 {
      RunSafe(ws, ss, i - 1);
      assert Clean(ws[i - 1], ss[i - 1]);
      StepKeeps(ws[i - 1], ss[i - 1]);
    }
  }

  lemma EveryRunSafe(w: World, os: seq<Outcome>, ws: seq<World>, ss: seq<Step>)
    requires Fresh0(w) && |os| == |w.confList| && NamesDiffer(w.confs, w.confList)
    requires BootsFresh(w, w.confList, os) && BootsClean(w, w.confList, os)
    requires Run(ws, ss) && ws[0] == BootAll(w, w.confList, os) && CleanRun(ws, ss)
    ensures forall i :: 0 <= i < |ws| ==> Inv(ws[i])
  {
    StartUpKeeps(w, os);
    forall i | 0 <= i < |ws| ensures Inv(ws[i]) {
      RunSafe(ws, ss, i);
    }
  }

  // ---------------------------------------------------------------- events released twice

  ghost predicate CompletesRemoval(w: World, s: Step) {
    s.ChildExits? && s.v in w.vms && w.vms[s.v].state == REMOVE
  }

  /** How many of the first `n` steps complete a removal. */
  ghost function Removals(ws: seq<World>, ss: seq<Step>, n: nat): nat
    requires n <= |ss| && n <= |ws|
  {
    if n == 0 then 0
    else Removals(ws, ss, n - 1) + if CompletesRemoval(ws[n - 1], ss[n - 1]) then 1 else 0
  }

  lemma StepFaults(w: World, s: Step)
    requires Inv(w) && Enabled(w, s) && Clean(w, s)
    ensures Next(w, s).faults == w.faults + if CompletesRemoval(w, s) then {EventReleasedTwice} else {}
  {
    match s
    case ChildExits(v, p, status, o) => ExitKeeps(w, v, p, status, o);
    case TimerFires(e, o) => TimerKeeps(w, e, o);
    case Boot(name, allowed, install, loaded, differs, o) => BootKeeps(w, name, allowed, install, loaded, differs, o);
    case Down(name, allowed, how, timerOk) => DownKeeps(w, name, allowed, how, timerOk);
    case Reloads(sections, noTimer) => ReloadKeeps(w, sections, noTimer);
  }

  /** Along a clean run an event structure is released twice exactly when some removal is completed. */
  lemma {:induction false} ReleasedTwiceIff(ws: seq<World>, ss: seq<Step>, n: nat)
    requires Run(ws, ss) && CleanRun(ws, ss) && Inv(ws[0]) && ws[0].faults == {} && n < |ws|
    ensures EventReleasedTwice in ws[n].faults <==> Removals(ws, ss, n) > 0
  {
    if n > 0 {
      ReleasedTwiceIff(ws, ss, n - 1);
      RunFaults(ws, ss, n - 1);
    }
  }

  lemma RunFaults(ws: seq<World>, ss: seq<Step>, i: nat)
    requires Run(ws, ss) && CleanRun(ws, ss) && i < |ss| && Inv(ws[0])
    ensures ws[i + 1].faults == ws[i].faults + if CompletesRemoval(ws[i], ss[i]) then {EventReleasedTwice} else {}
  {
    RunSafe(ws, ss, i);
    assert Clean(ws[i], ss[i]);
    StepFaults(ws[i], ss[i]);
  }
}
