# bmd, modelled and proved in Dafny

bmd is a daemon that supervises bhyve virtual machines on FreeBSD. It reads a configuration
language with templates and arithmetic, starts, stops, restarts and reloads machines from one
event loop, and answers commands over a local socket. This project models those parts and proves
what they keep.

**The daemon.** `DaemonState` is the state of the process together with what the kernel holds for
it: entries, configurations, registered events, children, tap interfaces. Every callback and
command is a function on it, with the answers of the kernel as a parameter (`Outcome`), so every
failing call is covered. `Daemon.dfy` is the same as a class that updates its fields in place with
the loops of the source; each method is proved equal to its function, and the callbacks, the
commands, the start-up and the event loop carry the invariant with its exact condition. `Resources`, `Lifecycle` and
`Handlers` prove for each handler that it keeps the invariant *exactly when* a condition on the
failures holds. `Reload*` do the same for a reload, with `Wrecks` for the starts that fail in one.
`Runs` and `Steps` lift this to start-up and whole runs.
`NoRestart`, `Escalation` and `TapTheorems` prove what follows along runs. `Answers` and
`ReloadAnswers` say in plain terms what each callback, command and reload does to the machine it is
about: which child is forked, which signal is sent, which timer is armed, which state it ends in.
`Origins` proves along runs where children come from. `Failures` gives a
concrete step for each way in which the code does break the invariant. The faults recorded in the
state (`ConfUnlinkedTwice`, `ConfReleasedTwice`, `EventReleasedTwice`, `StraySignal`) are the places
where the C code would touch something it has given back.

**The command socket.** `Framing`: length-prefixed frames under every split of reads and writes.

**The configuration language.** `Escape` (string scanner), `Arith`, `Grammar` and `Precedence`
(expressions), `Evaluator`, `Templates`, `Sections` and `Loader` (variables, templates, VM sections), `Values`
(what a configuration can hold), `Assignments` (what assignments inside of templates do, as written
and as meant), `Numbering` (what the number of a section can change), `Mpool`, `Queues` and `ParseRetry` (the memory that is shared
with the parsing process, the lists in it, and the retry).

**The rest.** `NvCompare` (plugin configurations), `Registry` (the event list against the kernel's
set of events), `Comport` (null-modem numbers), `Numbers` (`strtol` and `%ld`).

## Where the code does not do what it promises

Each of these is kept as the code has it, with an input that shows it and the exact condition.

- A guest that reboots while its start method or comport cannot be looked up stays marked running
  without a child (`Failures.StuckExample`); when only its output cannot be watched, an exit event
  of a reaped child stays registered (`Failures.StaleExitExample`); when taps cannot be taken down,
  a stopped machine keeps them (`Failures.KeptTapsExample`). `Resources.StartKeeps` and
  `Handlers.ExitKeeps` say that these are all.
- The exit that completes a removal always releases the dispatched event twice
  (`Handlers.ExitKeeps`, `Steps.ReleasedTwiceIff`).
- A reload is right exactly when no removal is pending, no two sections share a name and every start
  it makes ends well; only templates are checked for duplicates (`ReloadTheorems.ReloadExact`). The
  same two conditions on names and starts decide the start-up (`Runs.StartUpExact`).
- A loader that has been asked to stop is never sent SIGKILL: the timeout then asks the hypervisor to
  suspend a machine (`Escalation.TimeoutSendsNoKill`). A stop whose timer cannot be registered may
  never escalate (`Escalation.AskToStopIff`).
- A reload replaces the configuration of a guest that is being installed by that of the file, and with
  it the mark that it is (`Origins.ReloadForgetsInstall`). The guest is then started again when it
  shuts down (`Origins.InstallsAgain`). Without a reload in between an installation runs its guest
  once (`Origins.InstallOnce`).
- A response is reported as sent when exactly its four header bytes have been written
  (`Framing.SendsWhole`); a frame without payload is never complete (`Framing.DegenerateFrames`).
- A file that needs another pool kills the daemon at the first retry exactly when one of the four
  section and file lists is empty: the rollback dereferences the last element of an empty queue
  (`ParseRetry.Parser.Parse`, `Queues.RollbackRestores`). For the first configuration file that is
  always so (`Queues.FirstFileCannotRetry`).
- `del_var` hands a node on the stack to `RB_REMOVE` and frees it, whenever an argument scope exists.
  So every assignment, `name` and `owner` that is reached inside of a template ends the daemon
  (`Assignments.AssignmentExample`). The code as written and the code as meant agree exactly when none
  is reached (`Assignments.AsWritten`). Templates without any are safe
  (`Assignments.PlainTemplatesAgree`), and a single one is enough for a section that kills the daemon
  (`Assignments.AssignmentKills`).
- Numbers are given in the order of the sections, so a section that reads `ID` depends on the others
  (`Numbering.OrderMatters`); one that does not read it does not (`Numbering.OrderIrrelevant`).
- The manual promises the arithmetic of sh(1); the grammar groups every chain to the right
  (`Precedence.ShellIff`, `Precedence.PlainMeansShell`). A zero divisor is refused by `/` and kills the process with `%`.
- Registering several events of which the kernel takes only some leaves the kernel with events that
  have been released (`Registry.RegisterKeepsSync`). A callback that stops waiting for the event it was
  called for leaves the kernel out of step exactly when a chosen event follows it in its batch
  (`Registry.StopInFlightIff`). The removal of a machine does so unless its exit event is the fifth of
  a batch or the last that the machine still waits for (`Registry.RemovalExact`); a guest that rebooted
  still waits for the output of its earlier run (`Registry.RemovalExample`).

## Model

| member | source | states |
|---|---|---|
| `Resources.StartKeeps` | bmd.c:1101-1157 | starting a machine that has no child keeps processes, exit events, timers and taps in order if and only if none of three endings is reached: stuck in a running state, a stale exit event, taps that stay |
| `Resources.StopKeeps` | bmd.c:1209-1214 | stopping a machine whose child is gone keeps the invariant exactly when its taps can be removed or it has none, and breaks the part without timers otherwise |
| `Resources.RemoveUndoesGive` | vm.c:474-493 | destroying the taps of a failed attempt restores the interfaces that existed before it |
| `Resources.PrepareTapsResult` | vm.c:495-556 | what assigning and activating the taps leaves, on every partial failure |
| `Resources.ReleaseKeeps` | bmd.c:1387-1398 | releasing the dispatched one-shot event turns the invariant "with that event fired" into the invariant, both ways |
| `Lifecycle.InvMeans` | bmd.c:544-598 | the invariant, machine by machine: down exactly when no child is alive; otherwise one child with its pid and one exit event; nothing held when down |
| `Lifecycle.OwnerExists` | bmd.c:991-1012 | under the invariant every configuration in memory has an entry that points at it |
| `Handlers.ExitKeeps` | bmd.c:544-598 | the exit of a child, in every state, keeps the invariant if and only if the step is clean, and releases an event twice exactly on a removal |
| `Handlers.TimerKeeps` | bmd.c:483-509 | a firing timer keeps the invariant if and only if the start it may cause ends well |
| `Handlers.BootKeeps` | server.c:506-568 | boot and install keep the invariant if and only if the start they cause ends well |
| `Handlers.DownKeeps` | server.c:713-762 | shutdown, reset and poweroff keep the invariant, whatever fails |
| `ReloadTheorems.ReloadKeeps` | bmd.c:1241-1363 | without pending removals, with distinct names and with starts that end well a reload keeps the invariant and touches nothing that was given back |
| `ReloadTheorems.ReloadExact` | bmd.c:1241-1363 | a reload keeps the invariant if and only if no removal is pending, no two sections share a name and every start that it makes ends well |
| `ReloadTheorems.ReloadAmidRemoval` | bmd.c:1327-1344 | a pending removal spoils every reload, whatever its starts do |
| `ReloadTheorems.ReloadDuplicates` | parser.c:1265-1273 | two sections of one name spoil every reload |
| `ReloadTheorems.ReloadBijection` | bmd.c:1255-1354 | afterwards the entries that stay and the sections of the file are in bijection, each entry pointing at its section; also when starts fail |
| `ReloadTheorems.ReloadReleases` | bmd.c:1327-1360 | each old configuration is released exactly once or owned by exactly one entry that is being removed; also when starts fail |
| `ReloadTheorems.ReloadOwned` | bmd.c:1241-1363 | without removals pending and with distinct names, who owns which configuration is in order after a reload, whatever fails, and the only new fault can be a stray signal |
| `ReloadTheorems.ReloadReleasesOnce` | bmd.c:1338-1357 | so nothing is released or unlinked twice, whatever fails |
| `ReloadTheorems.FreedTwiceIff` | bmd.c:1356-1357 | the loop over the old list releases a configuration twice if and only if it is listed twice or was not in memory |
| `ReloadTheorems.ReloadWrecks` | bmd.c:1241-1363 | one start that ends badly spoils the reload: no later round and no settling repairs it |
| `Wrecks.UncleanWrecks` | bmd.c:1101-1157 | a start from down that does not end well leaves a machine that is down and holds taps or an exit event |
| `Wrecks.WreckedReload` | bmd.c:1327-1360 | settling and releasing leave such a machine as it is |
| `Runs.StartUpExact` | bmd.c:1176-1206 | the start-up establishes the invariant if and only if no two sections share a name and every start ends well |
| `Runs.StartUpDuplicates` | parser.c:1265-1273 | two sections of one name spoil every start-up, from any state |
| `Steps.StepKeeps` | bmd.c:1366-1401 | every step of the event loop keeps the invariant if and only if it is clean |
| `Steps.RunSafe` | bmd.c:1366-1401 | the invariant holds in every state of every clean run |
| `Steps.EveryRunSafe` | bmd.c:1176-1401 | the same from start-up on |
| `Steps.StepFaults` | bmd.c:1394-1398 | a clean step releases an event twice exactly if it completes a removal, and does nothing else wrong |
| `Steps.ReleasedTwiceIff` | bmd.c:1387-1398 | along a run an event has been released twice if and only if a removal was completed |
| `NoRestart.StaysQuiet` | bmd.c:483-509 | any step from any state leaves a machine that is down without timer down, unless it boots that machine or is a reload |
| `NoRestart.NoSpontaneousRestart` | bmd.c:483-598 | along every run, clean or not, such a machine stays down until it is booted or a reload happens |
| `NoRestart.ExitLeavesQuiet` | bmd.c:544-598 | a stop, a failed load and a run that is not repeated leave no timer |
| `NoRestart.RestartArmsOneTimer` | bmd.c:564-568 | the exit of a machine to be restarted leaves exactly one timer for it, of at least three seconds |
| `NoRestart.FailedRestartKeepsTimers` | bmd.c:1125-1141 | when the start after an exit fails, or the new child or its output cannot be watched, the machine is down with the timers it had: quiet if and only if it had none |
| `NoRestart.RemovalAbsorbs` | bmd.c:1327-1344 | whatever happens, a machine being removed stays so with the same child unless that child exits |
| `NoRestart.RemovalPersists` | bmd.c:1327-1344 | the same along every run, up to that exit |
| `NoRestart.ExitRemoves` | bmd.c:886-903 | and that exit deletes its entry, configuration, child and events |
| `Escalation.StepEscalates` | server.c:713-762 | each clean step keeps: a machine asked to stop was sent SIGKILL or a suspend request, or SIGTERM with a timer pending |
| `Escalation.RunEscalates` | bmd.c:483-598 | along every clean run whose stop timers can be registered |
| `Escalation.EveryRunEscalates` | bmd.c:1176-1401 | the same from start-up on |
| `Escalation.AskToStopIff` | bmd.c:1284-1291 | asking one machine to stop keeps this if and only if its timer can be registered, an older one is pending or a power-off was sent before; a reload asks in this way |
| `Escalation.TimeoutSendsNoKill` | vm.c:763-769 | the timeout of a machine that was asked to stop, a loader included, only sends a suspend request and changes nothing else |
| `Failures.StuckExample` | bmd.c:1106-1114 | a reboot whose lookup fails breaks the invariant |
| `Failures.StaleExitExample` | bmd.c:1131-1141 | a reboot whose output cannot be watched breaks it |
| `Failures.KeptTapsExample` | vm.c:474-493 | a stop whose taps cannot be removed breaks it |
| `Failures.ReloadAmidRemovalExample` | bmd.c:1338-1344 | a second reload before the removed guest exits breaks the invariant |
| `Failures.UnlinkedTwiceExample` | bmd.c:1338-1344 | that reload, of an empty file, unlinks its configuration a second time |
| `Failures.ReloadSameNameExample` | bmd.c:1257-1279 | a section of the removed guest's name attaches to the dying entry |
| `Failures.DuplicateNameExample` | parser.c:1265-1273 | a reload with two sections of one name breaks the invariant although nothing fails |
| `Failures.UnarmedShutdown` | server.c:735-740 | a shutdown whose timer fails still escalates if and only if a power-off was sent or an older timer is pending |
| `TapTheorems.TapsPartition` | vm.c:474-556 | the existing taps are the disjoint union of those held by machines that are not down |
| `TapTheorems.AttemptedAt` | vm.c:531-545 | of the interfaces asked for those up to the first failure exist, the one that could not be set up included |
| `TapTheorems.FailedStartRestoresTaps` | bmd.c:1116-1141 | a start that ends down has destroyed exactly the taps it created |
| `TapTheorems.RestartKeepsTaps` | bmd.c:552-578 | from loader to guest and over a guest reboot the taps stay the same |
| `Answers.StartAnswers` | bmd.c:1101-1157 | what a start leaves: a loader in LOAD, with its timeout, exactly if the machine was not in LOAD and loads with bhyveload or grub; the guest in RUN after LOAD and for uefi and csm; down with nothing forked for an unknown loader and on every other failure; when it reports success |
| `Answers.LaunchAnswers` | vm.c:780-805 | the same from the start method on |
| `Answers.ExitAnswers` | bmd.c:544-598 | a guest that exits is started again exactly if it is not being installed and its process exited, with any code where `boot` is always and with 0 under bhyve; otherwise it is down and no longer installing; what the exit does in every other state |
| `Answers.TimerAnswers` | bmd.c:483-509 | a timer kills a loader and changes nothing else, leaves a running guest alone, starts a machine that is down and asks a stopping one to suspend |
| `Answers.SignalStray` | vm.c:763-775 | a signal goes to a process that is not the machine's exactly if the machine has no child, and in the case of a power-off is in LOAD |
| `Answers.BootAnswers` | server.c:506-568 | each refusal of boot and install, and otherwise the configuration that is started, the mark for installing and the start |
| `Answers.DownAnswers` | server.c:713-762 | shutdown, reset and poweroff: state, signal, timer with its seconds and reply, in every state |
| `ReloadAnswers.ReloadAnswer` | bmd.c:1255-1325 | what a reload does to a machine that has a section, for every state, old and new `boot`, `reboot_on_change` and verdict: new state, SIGTERM, timer with its seconds, child started; whatever happens to the other machines |
| `ReloadAnswers.ReloadDismisses` | bmd.c:1327-1349 | a machine without a section: deleted when down, otherwise being removed, with SIGTERM and a timer if it was up |
| `ReloadAnswers.ReloadBoots` | bmd.c:1258-1272 | a section without a machine gets one that is left down, delayed or started as the section says |
| `ReloadAnswers.ReloadNewborn` | bmd.c:1258-1272 | and a reload creates no other machines |
| `ReloadAnswers.StartUpBoots` | bmd.c:1190-1203 | the same for each section at start-up |
| `Origins.StepOrigin` | vm.c:780-805 | each step: a child was there before, or it is a loader forked for bhyveload or grub, or a guest forked for uefi or csm or because its loader has just exited with 0 |
| `Origins.EveryOrigin` | bmd.c:1366-1401 | so along every run each child goes back to such a step, and is the same child since |
| `Origins.StartGuards` | bmd.c:1147-1151 | a loader that is started with a timeout has its timer pending |
| `Origins.StepGuards` | bmd.c:483-509 | any step that leaves the machine in LOAD with its loader keeps: the timer is pending or SIGKILL was sent |
| `Origins.LoaderGuarded` | bmd.c:483-509 | so it is along every run, for as long as the loader lives |
| `Origins.StepInstalls` | bmd.c:569-585 | a step of an installation leaves the machine installing or down, and forks a guest only after the loader |
| `Origins.InstallGuests` | bmd.c:569-585 | during an installation that is under way at most one guest is forked, and none once the guest runs |
| `Origins.InstallOnce` | server.c:546-550 | from an install command up to the step that takes the machine down at most one guest is forked, if no reload comes in between |
| `Origins.ReloadForgetsInstall` | bmd.c:1350-1353 | a reload leaves a guest being installed running with the configuration of the file |
| `Origins.InstallsAgain` | bmd.c:569-576 | which makes its shutdown fork a second guest |
| `DaemonState.DropConcat` | bmd.c:137-160 | dropping events keeps the order of the others |
| `DaemonState.LookupFirst` | bmd.c:1217-1225 | the entry that is found is the first of the name |
| `DaemonProgram.Daemon.StopWaitingFor` | bmd.c:137-160 | drops exactly the chosen events, keeping the order of the others |
| `DaemonProgram.Daemon.SetTimer` | bmd.c:512-524 | a fresh timer identifier each time, and an event only if it can be registered: `AddTimer` |
| `DaemonProgram.Daemon.SendTerm` | vm.c:771-775 | marks the child as asked to stop; a signal to no child of the machine is recorded as a fault |
| `DaemonProgram.Daemon.SendPowerOff` | vm.c:763-769 | SIGKILL for a machine in LOAD and a suspend request in every other state; a signal to no child of the machine is recorded as a fault |
| `DaemonProgram.Daemon.RemoveTaps` | vm.c:474-493 | the loop removes exactly the taps of the machine, and none without a control socket |
| `DaemonProgram.Daemon.AssignTaps` | vm.c:511-556 | creates the taps or, on a failure, destroys those created |
| `DaemonProgram.Daemon.CreateTaps` | vm.c:531-545 | the loop stops at the first failure with what was created so far on record |
| `DaemonProgram.Daemon.Cleanup` | bmd.c:1094-1098 | is `Cleanup` |
| `DaemonProgram.Daemon.Launch` | bmd.c:1125-1151 | is `Launch`, with its two clean-up paths; what that is for a caller is `Answers.LaunchAnswers` |
| `DaemonProgram.Daemon.StartVirtualMachine` | bmd.c:1101-1157 | is `Start`, and leaves and reports what `Answers.Started` and `Answers.StartDone` say |
| `DaemonProgram.Daemon.StopVirtualMachine` | bmd.c:1209-1214 | is `Stop` |
| `DaemonProgram.Daemon.FreeVmConfEntry` | bmd.c:927-931 | is `FreeConf`; releasing twice is recorded as a fault |
| `DaemonProgram.Daemon.UnlinkConf` | bmd.c:1343-1348 | is `UnlinkConf`; unlinking twice is recorded as a fault |
| `DaemonProgram.Daemon.CreateVmEntry` | bmd.c:991-1012 | is `CreateEntry` |
| `DaemonProgram.Daemon.DeleteVmEntry` | bmd.c:886-903 | is `DeleteEntry` |
| `DaemonProgram.Daemon.OnVmExit` | bmd.c:544-598 | is `OnVmExit`, and does what the table `Answers.ExitTable` says |
| `DaemonProgram.Daemon.OnTimer` | bmd.c:483-509 | is `OnTimer`, and does what the table `Answers.TimerTable` says |
| `DaemonProgram.Daemon.Dispatch` | bmd.c:1387-1398 | is the callback followed by `Release`; keeps the invariant if and only if the step is clean |
| `DaemonProgram.Daemon.LookupVmByName` | bmd.c:1217-1225 | is `Lookup` |
| `DaemonProgram.Daemon.ReplaceConf` | server.c:367-403 | is `ReplaceConf` |
| `DaemonProgram.Daemon.Boot0Command` | server.c:506-568 | is `BootCommand`; what that is for the machine is `Answers.BootAnswers` |
| `DaemonProgram.Daemon.BootOrInstallCommand` | server.c:569-579 | keeps the invariant if and only if the start it makes ends well |
| `DaemonProgram.Daemon.VmDownCommand` | server.c:713-762 | is `DownCommand`, and keeps the invariant |
| `DaemonProgram.Daemon.AskToStop` | bmd.c:1289-1291 | is `AskToStop` |
| `DaemonProgram.Daemon.AddEntry` | bmd.c:1258-1272 | is `AddEntry`; what that is for the machine is `ReloadAnswers.ReloadBoots` |
| `DaemonProgram.Daemon.RebootEntry` | bmd.c:1280-1299 | is `RebootEntry`; what that is for the machine is `ReloadAnswers.ReloadAnswer` |
| `DaemonProgram.Daemon.FollowBoot` | bmd.c:1300-1324 | is `FollowBoot`; what that is for the machine is `ReloadAnswers.ReloadAnswer` |
| `DaemonProgram.Daemon.MatchSection` | bmd.c:1255-1325 | is `MatchOne` |
| `DaemonProgram.Daemon.MatchSections` | bmd.c:1255-1325 | the loop over the new list is `MatchAll` |
| `DaemonProgram.Daemon.SettleEntry` | bmd.c:1328-1354 | is `SettleOne`; what that is for the machine is `ReloadAnswers.ReloadDismisses` |
| `DaemonProgram.Daemon.SettleEntries` | bmd.c:1327-1354 | the loop over the entries, which deletes while it walks, is `SettleAll` |
| `DaemonProgram.Daemon.FreeConfs` | bmd.c:1356-1357 | the loop is `FreeAll` |
| `DaemonProgram.Daemon.ReloadVirtualMachines` | bmd.c:1241-1363 | is `ReloadAll` |
| `DaemonProgram.Daemon.OnSighup` | bmd.c:1167-1173 | a reload that keeps the invariant if and only if it is clean |
| `DaemonProgram.Daemon.Serve` | bmd.c:1366-1401 | one step of the event loop, of any kind, in place; keeps the invariant if and only if it is clean |
| `DaemonProgram.Daemon.EventLoop` | bmd.c:1366-1401 | the loop over any steps; the invariant holds at its end if all were clean |
| `DaemonProgram.Daemon.StartVirtualMachines` | bmd.c:1176-1206 | the loop is `BootAll`; from an empty daemon it establishes the invariant if and only if names differ and the starts end well |
| `DaemonProgram.Daemon.BootSection` | bmd.c:1191-1203 | is `BootOne`; what that is for the machine is `ReloadAnswers.StartUpBoots` |
| `Framing.BigEndianRoundTrip` | server.c:142 | `ntohl` undoes `htonl` |
| `Framing.ChunkingIsIrrelevant` | server.c:209-272 | for every way of cutting the stream, state and answer depend only on the bytes read |
| `Framing.ReadsOn` | server.c:241-250 | every run that goes on can take every chunk the kernel may deliver |
| `Framing.ReceivesFrame` | server.c:209-272 | a frame of 1 to 1048576 bytes is complete exactly at its last byte, its payload is in the buffer, and no byte of the next frame is read |
| `Framing.NoOvershoot` | server.c:226-239 | reading never goes past the frame |
| `Framing.DegenerateFrames` | server.c:226-265 | length 0 is never complete and the next byte an error; a length over the limit is an error at the fourth byte |
| `Framing.Offered` | server.c:141-156 | the two vectors are what is left of the frame |
| `Framing.SendsPrefix` | server.c:128-199 | under every schedule of partial writes the bytes sent are a prefix of the frame, as long as the counter says |
| `Framing.SendsWhole` | server.c:137-191 | a response reported as sent was sent in full if and only if it is not empty and the writes did not add up to four |
| `Framing.HeaderOnly` | server.c:189-191 | writing exactly the header first drops the payload of any response |
| `Framing.SessionExact` | bmd.c:687-704 | over a whole connection the client gets the frames in order if and only if no answer was cut |
| `Framing.EndToEnd` | server.c:128-272 | whatever the writes and the reads, the reader ends with the response if and only if the writes did not stop at the header |
| `Framing.SockBuf.constructor` | server.c:31-48 | a fresh connection is idle |
| `Framing.SockBuf.ClearSockBuf` | server.c:99-107 | back to idle |
| `Framing.SockBuf.ClearSendSockBuf` | server.c:110-118 | no response |
| `Framing.SockBuf.Room` | server.c:216-239 | how much the next `recv` asks for |
| `Framing.SockBuf.RecvSockBuf` | server.c:209-272 | every outcome of `recv` and of `malloc`, in place and inside the buffers, is `Recv` |
| `Framing.SockBuf.FillHeader` | server.c:254-265 | the header part |
| `Framing.SockBuf.FillBody` | server.c:266-270 | the payload part |
| `Framing.SockBuf.SendSockBuf` | server.c:128-199 | every outcome of `sendmsg` is `Send` |
| `Mpool.AllocOk` | parser.c:93-118 | one allocation keeps the pools in order; a block is aligned, of the size asked for and taken from free memory |
| `Mpool.CarvedApart` | parser.c:105-117 | blocks of different allocations are disjoint |
| `Mpool.ServeOk` | parser.c:93-118 | any sequence of requests gets blocks that are large enough, aligned, inside a pool, newly taken and pairwise disjoint |
| `Mpool.RollbackUndoes` | parser.c:62-78 | rollback after any attempt restores the pools of the snapshot |
| `Mpool.DoHeld` | parser.c:29-118 | allocation, snapshot, rollback and expansion each keep: the live blocks are aligned, inside of a pool, below its mark and pairwise disjoint, and so are those of the snapshot |
| `Mpool.EveryHistoryHeld` | parser.c:29-118 | so they are after every sequence of these operations |
| `Mpool.RollbackRestores` | parser.c:62-78 | whatever is allocated and expanded, and rolled back, since a snapshot, a rollback brings back exactly the blocks and marks of the snapshot |
| `Mpool.ServeMarks` | parser.c:81-113 | the error mark says how an attempt ended: served, out of pools, or a request larger than a pool |
| `Mpool.OneMorePool` | parser.c:105-117 | with one more pool the same requests get the same blocks and the one that failed is served |
| `Mpool.EachPoolHelps` | parser.c:1319-1333 | after `k` expansions at least `k` requests are served, or all |
| `Mpool.ServedAreSmall` | parser.c:100-103 | an attempt is served only if every request fits a pool |
| `Mpool.Pools.constructor` | parser.c:46-50 | one empty pool |
| `Mpool.Pools.TakeSnapshot` | parser.c:62-69 | the loop is `Snapshot` |
| `Mpool.Pools.RollBack` | parser.c:72-78 | the loop is `Rollback` |
| `Mpool.Pools.GetError` | parser.c:81-90 | the worst mark of the list |
| `Mpool.Pools.Allocate` | parser.c:93-118 | first fit, in place, is `Alloc` |
| `Mpool.Pools.Attempt` | parser.c:1291-1313 | the allocations of one parsing process |
| `ParseRetry.AddsAreNew` | confparse.y:503-540 | the elements that a parsing process links into the lists are new: apart from each other and from all that the lists hold |
| `ParseRetry.Parser.Attempt` | parser.c:1285-1313 | one parsing process: its allocations and insertions leave lists that hold the old elements followed by the new ones |
| `ParseRetry.Parser.Undo` | parser.c:1323-1329 | memory and lists are put back if and only if no list was empty at the snapshot; otherwise the daemon dies |
| `ParseRetry.Parser.Round` | parser.c:1285-1333 | how one round ends, decided by memory, file and lists before it |
| `ParseRetry.Parser.Parse` | parser.c:1278-1336 | the retry ends; it dies exactly when the first attempt runs out of pools while a list is empty; it succeeds only for an accepted file whose requests all fit a pool, then with all served and linked, after at most one expansion per request; and with that many regions such a file is not refused |
| `Queues.AddAllHold` | confparse.y:503-540 | whatever is added to which queue, every queue holds its old elements followed by its new ones |
| `Queues.CutHolds` | parser.c:1275 | cutting the link after a prefix leaves a queue that holds the prefix |
| `Queues.RollbackRestores` | parser.c:1324-1329 | throwing an attempt away restores every queue if and only if none was empty at the snapshot, and dies otherwise |
| `Queues.FirstFileCannotRetry` | parser.c:1366-1389 | with only the list of files filled, the retry always dies |
| `Queues.Context.constructor` | parser.c:1366-1370 | empty queues |
| `Queues.Context.InsertTail` | confparse.y:536 | insertion at the tail, by pointers |
| `Queues.Context.InsertAll` | confparse.y:503-540 | the insertions of a whole file are `AddAll` |
| `Queues.Context.Restore` | parser.c:1325-1329 | the heads copied back and the four cuts |
| `Numbers.DecimalReadBack` | parser.c:835 | the digits of a printed number are read as that number |
| `Numbers.ShowReadBack` | parser.c:741-758 | a printed `long` is read back, also with base detection |
| `Numbers.UnsignedIff` | parser.c:741-758 | the digits are read to their end as a number if and only if they are hexadecimal after 0x, octal after 0, or decimal, and as that number |
| `Numbers.StrtolIff` | parser.c:741-758 | a text is a number if and only if it is empty, or spaces, at most one sign and such digits and nothing after them; its value is cut to a `long` |
| `Arith.ParseIff` | confparse.y:377-500 | the parser accepts exactly the chains of operands, each with one tree |
| `Arith.ParseComplete` | confparse.y:377-500 | every sentence is read as itself |
| `Arith.ParseSound` | confparse.y:377-500 | whatever is read is a sentence |
| `Arith.RenderParse` | confparse.y:377-500 | any tree written with full parentheses is read as the same tree |
| `Grammar.AcceptsIff` | confparse.y:377-500 | it accepts exactly what the ambiguous rules derive |
| `Grammar.ParsePicks` | confparse.y:377-500 | and builds the tree of the derivations that have no binary rule as a left operand; there is one such tree |
| `Arith.ApplyMeans` | parser.c:764-796 | what the five operators compute: the quotient is cut toward zero, the remainder is smaller than the divisor and has the sign of the dividend; a zero divisor is refused by one and kills with the other |
| `Arith.QuotientRemainder` | parser.c:781-790 | quotient and remainder toward zero belong together |
| `Arith.CalcIsExec` | parser.c:732-802 | the recursion computes what a stack machine does with the same expression from left to right; the operand or operator that fails first decides |
| `Arith.SubstituteKeeps` | parser.c:732-802 | replacing variables by their values first changes neither result nor failure |
| `Arith.ResultsCompose` | parser.c:832-838 | a result kept in a variable is that result when used again |
| `Precedence.RightIsCalc` | parser.c:732-802 | a written chain evaluates grouped to the right |
| `Precedence.PlainAgrees` | confparse.y:398-447 | on plain chains this is what sh(1) computes, failures included |
| `Precedence.ShellIff` | bmd.conf.5:238-263 | a chain of operators means what sh(1) says for all operands if and only if it is plain |
| `Precedence.PlainMeansShell` | parser.c:732-802 | with parentheses, signs and variables: an expression that is plain at every level has the value that sh(1) gives it, and fails exactly where sh(1) does |
| `Precedence.DifferenceExample` | confparse.y:408-417 | `1 - 2 - 3` is 2 here and -4 there |
| `Evaluator.GetVarIsVisible` | conf.c:1648-1663 | the three lookups are one lookup in the merged scope |
| `Evaluator.SetVarSeen` | conf.c:1590-1599 | an assignment as it is meant, which without an argument scope is what the code does, is seen at once and changes no other name |
| `Evaluator.TokenToString` | parser.c:805-849 | the loop over the pieces, with its failures, is `Expand`, which `Evaluator.ExpandConcat` and `Evaluator.ExpandSingle` fix |
| `Evaluator.ExpandConcat` | parser.c:805-849 | a text made of two is the text of the first followed by that of the second, in the same variables, or the first failure |
| `Evaluator.ExpandSingle` | parser.c:812-838 | a literal is itself, a reference the value of the variable or a failure, and a calculation its result in decimal, a failure, or the end of the daemon |
| `Evaluator.ExpandStops` | parser.c:824-835 | a piece that fails decides the whole |
| `Evaluator.EvalParams` | parser.c:960-1025 | for every template graph evaluation ends, marks each template at most once, keeps the global scope, only drops argument bindings and keeps the names of the VM's variables |
| `Evaluator.EvalParam` | parser.c:971-1022 | the same for one parameter |
| `Evaluator.ApplyAll` | parser.c:985-987 | the same for a list of targets, and the caller's arguments are what they were |
| `Evaluator.ApplyOne` | parser.c:147-195 | the same for one target |
| `Evaluator.GiveAll` | parser.c:995-1021 | values given to a key mark nothing and keep the global scope |
| `Evaluator.Find` | parser.c:721-729 | the first template of a name |
| `Templates.BoundNames` | parser.c:177-186 | the argument scope binds exactly the declared names |
| `Templates.BoundValue` | parser.c:177-186 | each to the argument given or its default, evaluated where the template is applied, or to nothing |
| `Templates.BoundIff` | parser.c:176-186 | the arguments are bound unless evaluating one of them ends the daemon |
| `Templates.EnteredMarks` | parser.c:188-193 | a resolved application evaluates the body in the new scope, marked, and puts the old scope back |
| `Templates.ApplyUnresolved` | parser.c:156-170 | any other application changes nothing, unless the daemon dies of it, which happens exactly when the name does that, or an argument for a template that is there and not yet applied |
| `Templates.NotTwice` | parser.c:166-170 | a template once applied, however deep, is not applied again in that VM |
| `Templates.CallerSees` | parser.c:189-192 | after an application the caller sees of each name: its own argument; else the last value that the body, however deep, assigned; else what it was |
| `Templates.EvalConcat` | parser.c:971-1022 | parameters are evaluated one after the other |
| `Templates.ApplyConcat` | parser.c:985-987 | and so are the targets of one `.apply` |
| `Templates.GiveRecords` | parser.c:1000-1006 | a value that its key takes is recorded, and one that it does not take does nothing |
| `Templates.AssignSeen` | parser.c:972-982 | an assignment outside of templates makes the name stand for the text and touches nothing else, or is skipped, or ends the daemon |
| `Templates.SetRecords` | parser.c:995-1021 | the values of a key without a list are given to it one after the other, and those that cannot be made are skipped |
| `Templates.SplitMeans` | parser.c:426-435 | an owner is cut at its first colon into user and group |
| `Templates.GiveSets` | parser.c:455-465 | outside of templates `name` and `owner` set `NAME`, `OWNER` and, if there is a group, `GROUP`, and no key sets anything else |
| `Templates.UnusedMark` | parser.c:166-170 | a mark on a template that is never applied changes nothing |
| `Assignments.AsWritten` | conf.c:1536-1553 | the code as written dies exactly when the code as meant dies or reaches an assignment inside of a template, and otherwise they agree in everything |
| `Assignments.PlainTemplatesAgree` | conf.c:1590-1599 | with templates that hold no assignment, `name` or `owner` they always agree |
| `Assignments.AssignmentKills` | conf.c:1536-1553 | any template that can be found and assigns a variable, or sets `name`, from a text without arithmetic has a section that kills the daemon, whatever else the templates hold |
| `Assignments.AssignmentExample` | conf.c:1536-1553 | one assignment in one template tells them apart, in every state |
| `Assignments.WriteOut` | parser.c:147-195 | as meant: a template without arguments can be written out in place of its application: same variables, same configuration |
| `Assignments.WriteOutAsWritten` | parser.c:147-195 | as written: the same, if the daemon survives the application |
| `Sections.IdsStable` | conf.c:39-55 | over all loads a name keeps its number and no two names share one |
| `Sections.InitialSees` | parser.c:1407-1421 | what a section sees before its first parameter: `GROUP`, `OWNER`, `NAME`, `ID` and then the globals |
| `Sections.IdList.Obtain` | conf.c:39-55 | the list search is `GetId` |
| `Sections.OnlyTheNumberMatters` | parser.c:1407-1438 | between any two loads the evaluation of a section differs at most by its number, which it keeps if it had one |
| `Numbering.NumberIrrelevant` | parser.c:1407-1438 | a section that, with the templates, does not read `ID` is evaluated to the same configuration and variables, apart from `ID`, under any number |
| `Numbering.OrderIrrelevant` | parser.c:1407-1438 | so it comes out the same at any place in any file, from any table of numbers |
| `Numbering.OrderMatters` | conf.c:39-55 | two sections of which one reads `ID`: in the other order it gets another value |
| `Sections.ReloadSame` | parser.c:1340-1450 | loading the same sections again gives the same configurations |
| `Sections.ListValues` | parser.c:992-1021 | `=` replaces and `+=` extends a list key; values that cannot be made, or that the key's parser refuses, are skipped; other keys are kept |
| `Values.EvalLawful` | parser.c:995-1021 | whatever sections and templates do, every value that is recorded was one its key takes: pass-through addresses of digits and slashes, environment entries with an equals sign, and for other keys what their parser allowed at that point |
| `LoaderProgram.Loader.SetVariable` | conf.c:1590-1599 | is `PutVar`: as written, or as meant where that is asked for |
| `LoaderProgram.Loader.ToString` | parser.c:805-849 | is `Expand` in what is visible |
| `LoaderProgram.Loader.GiveValue` | parser.c:1000-1006 | is `Give`: the parser of the key takes the value or leaves all as it is |
| `LoaderProgram.Loader.GiveValues` | parser.c:995-1021 | the loop is `GiveAll` |
| `LoaderProgram.Loader.CollectArgs` | parser.c:176-186 | the loop is `BindArgs` |
| `LoaderProgram.Loader.SetParams` | parser.c:960-1025 | the loop, recursive through templates, is `EvalParams` |
| `LoaderProgram.Loader.SetParam` | parser.c:971-1022 | is `EvalParam` |
| `LoaderProgram.Loader.ApplyTargets` | parser.c:985-987 | the loop is `ApplyAll` |
| `LoaderProgram.Loader.ApplyTemplate` | parser.c:147-195 | is `ApplyOne` |
| `LoaderProgram.Loader.Prepare` | conf.c:1172-1226 | is `Initial` |
| `LoaderProgram.Loader.Evaluate` | parser.c:1407-1437 | one section, from fresh to evaluated, leaves the global scope alone |
| `LoaderProgram.Loader.LoadSections` | parser.c:1407-1438 | the loop, with marks, variables and numbers shared, is `LoadAll`, which evaluates each section alone |
| `LoaderProgram.Loader.LoadSection` | parser.c:1407-1438 | one round is `LoadOne` |
| `NvCompare.CompareZero` | conf.c:1819-1861 | no difference is found if and only if the lists mean the same, through nested lists and arrays, whatever the order |
| `NvCompare.CompareListsZero` | conf.c:1819-1861 | the same for lists |
| `NvCompare.CompareValsZero` | conf.c:1666-1814 | the same for values of every type |
| `NvCompare.CmpSeqLess` | conf.c:1666-1814 | on strings, bytes and plain arrays the sign is that of the first difference, and a prefix is smaller |
| `NvCompare.MissingDiffers` | conf.c:1838-1845 | a list that is missing or has an error is never found to be the same as one that is there, and the sign then |
| `NvCompare.ZeroIsEquivalence` | conf.c:1819-1861 | so it is an equivalence |
| `NvCompare.SignIsNoOrder` | conf.c:1846-1849 | but the sign is no order |
| `NvCompare.CompareNvlist` | conf.c:1819-1861 | the two loops |
| `NvCompare.CompareValues` | conf.c:1787-1801 | the comparisons by type, with the loop over arrays of lists |
| `Registry.StopKeepsSync` | bmd.c:137-160 | outside of a callback, deleting the chosen events in whatever batches keeps list and kernel in step |
| `Registry.ChosenConcat` | bmd.c:137-160 | choosing and keeping go along the list, so neither changes an order |
| `Registry.BatchesExact` | bmd.c:147-159 | batches of registered events are deleted in full |
| `Registry.StopInFlightIff` | bmd.c:147-159 | a stop that chooses the event in flight, which the kernel has dropped, leaves them in step if and only if that event ends its batch |
| `Registry.RegisterKeepsSync` | bmd.c:190-219 | registering several events keeps them in step if and only if the kernel takes all or refuses the first |
| `Registry.ReportInFlight` | bmd.c:1376-1391 | a reported one-shot event is off the kernel and still on the list, and nothing else is out of step |
| `Registry.ReleaseInStep` | bmd.c:1391-1398 | its release puts them in step again |
| `Registry.ActInStep` | bmd.c:137-440 | each report, registration, stop, closing of an output descriptor and release, also inside of a callback, keeps them in step up to the event in flight if and only if it is harmless |
| `Registry.EveryRunInStep` | bmd.c:1366-1401 | so they are in step whenever no event is in flight, along every harmless run |
| `Registry.ReleasedTwice` | bmd.c:1391-1398 | along every run the events released twice are counted exactly: one for each callback whose stop took the event in flight |
| `Registry.OutputStopped` | bmd.c:106-117 | what the first stop of a removal leaves: all but the timers and the current output of the machine |
| `Registry.RemovalExact` | bmd.c:587-592 | the exit that completes a removal stops for the machine's current output and timers, which is harmless, and then for all it still waits for, the exit in flight among it: list and kernel are in step afterwards if and only if the exit is the fifth of a batch or the last of all |
| `Registry.RemovalIsHarmless` | bmd.c:107-117 | so they are if the machine waits for nothing but its current output, its timers and the exit |
| `Registry.RebootedReached` | bmd.c:569-576 | a run without any failure after which the output of an earlier run is listed behind the exit in flight |
| `Registry.RemovalExample` | bmd.c:587-592 | the removal then leaves the kernel with an event that has been released |
| `Registry.EventList.StopWaitingFor` | bmd.c:137-160 | one deletion for every chosen event, in order, in batches of five of which only the last may be shorter; the others are kept in order |
| `Registry.EventList.RegisterEvents` | bmd.c:190-219 | the list gets all events or none |
| `Comport.DeviceNumber` | bmd.c:1022-1033 | the number printed into a device name is read back |
| `Comport.Fresh` | bmd.c:1059-1077 | a new number is above every number configured, in use or present, and not under the offset |
| `Comport.AssignAnswers` | bmd.c:1040-1091 | what is assigned in each case: nothing, the setting itself, or a device whose number nobody has and no device bears; the other machines keep theirs |
| `Comport.AssignDistinct` | bmd.c:1040-1091 | an assignment keeps the numbers made up by the daemon distinct |
| `Comport.RunDistinct` | bmd.c:1040-1091 | so they are along every run |
| `Comport.GetNmdmNumber` | bmd.c:1022-1033 | the digit loop |
| `Comport.Ports.ScanPorts` | bmd.c:1059-1063 | the first scan |
| `Comport.Ports.ScanDevices` | bmd.c:1065-1074 | the second scan |
| `Comport.Ports.AssignComport` | bmd.c:1040-1091 | is `Assign`; what that is is `Comport.AssignAnswers` |
| `Escape.TextToLval` | conflex.l:220-285 | the copy stays inside what was allocated, ends in a zero byte, and is `Decode` |
| `Escape.CopyEscape` | conflex.l:240-280 | one escape, digit by digit in one byte, gives the byte of the whole number |
| `Escape.InOneByte` | conflex.l:241-279 | cutting the number to a byte after every digit or at the end is the same |
| `Escape.Decode` | conflex.l:220-285 | the decoded string is no longer than the text |
| `Escape.StopsAtDollar` | conflex.l:230-236 | it stops exactly at the first dollar sign that is not escaped, when asked to |
| `Escape.WriteDecode` | conflex.l:220-285 | any bytes, each written bare, as a hexadecimal or octal escape, as a letter escape or with a backslash alone, in any mixture, anywhere in a text, are decoded to themselves |
| `Escape.OctalEscape` | conflex.l:241-249 | up to three octal digits stand for the byte of their number, cut to eight bits |
| `Escape.HexEscape` | conflex.l:261-279 | up to two hexadecimal digits likewise, and none for a zero byte |
| `Escape.LineContinued` | conflex.l:259 | an escaped newline stands for nothing |

## Left out

- Output events and the descriptors of pipes and log files: the daemon's events are modelled as exits and timers.
- The verdict whether two configurations differ is an input of a reload and of a boot; `compare_vm_conf` is not modelled, only the comparison of plugin lists.
- Plugin start methods behave like the built-in one; plugin callbacks, including their events, are not modelled.
- A failed allocation of an entry in the middle of a reload or of the start-up, and a failed fork in `exec_bhyve`, which ends the daemon.
- The shutdown loop of the daemon, `direct_run`, the console, the client side of the commands, `tap.c`, guest inspection and the idle timeout of connections.
- Entries and configurations are records in maps keyed by their address; the links of their lists are not modelled, those of the parser's queues are.
- Framing: passing a descriptor along with a response; the address of a connection's buffers.
- ParseRetry.Parser.Parse: takes a parsing process to stop at its first failed allocation; one that fails while `.include` is expanded is ignored by the grammar. A failing `mmap` is taken to be noticed, although the code compares with NULL.
- Arith.Calc: works on unbounded integers; overflow of `long` in an operation is undefined in C.
- Evaluator: keys are taken in lower case; what a parser does with a value is a log entry, except for the variables set by `name` and `owner`; whether the parser of a key without a list takes a value is a parameter.
- Evaluator.PutVar: takes the freeing of a node on the stack, which is undefined in C, as the end of the daemon.
- Templates.CallerSees: is about the assignments that were made; with the code as written an application that reaches one ends the daemon first.
- Sections.LoadAll: does not model that a configuration without the required keys is dropped.
- Sections.GetId: numbers do not wrap around at 32 bits.
- Global sections, `.include` and the merging of global settings.
- NvCompare: lists with repeated names or with an error inside, which libnv does not hand out, are compared but nothing is claimed of them.
- Precedence.PlainMeansShell: a variable without a value is taken as an error, while sh(1) reads it as 0 unless told otherwise.
- Registry: the report of an event that is not one-shot changes neither list nor kernel and is no act of the model; what its callback does is.
- Comport.Number: does not overflow.
- Escape.TextToLval: does not count lines.
