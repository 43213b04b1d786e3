/** What becomes of the tap interfaces. */
module TapTheorems {
  import opened Options
  import opened DaemonState
  import opened Resources
  import opened Lifecycle
  import opened Handlers

  ghost predicate Holds(w: World, v: VmId, i: nat, t: Tap) {
    v in w.vms && i < |w.vms[v].taps| && w.vms[v].taps[i] == Some(t)
  }

  /** The interfaces that exist are the disjoint union of those held by the machines that are not down. */
  lemma TapsPartition(w: World, t: Tap)
    requires Inv(w)
    ensures t in w.taps <==> exists v, i :: Holds(w, v, i, t)
    ensures forall u, v, i, j :: Holds(w, u, i, t) && Holds(w, v, j, t) ==> u == v && i == j
    ensures forall v, i :: Holds(w, v, i, t) ==> w.vms[v].state != TERMINATE
  {
    if t in w.taps {
      var v := w.taps[t];
      var i :| 0 <= i < |w.vms[v].taps| && w.vms[v].taps[i] == Some(t);
      assert Holds(w, v, i, t);
    }
    forall v, i | Holds(w, v, i, t) ensures t in w.taps && w.taps[t] == v {
      assert TapsOf(w, v);
    }
  }

  lemma LaunchTaps(w: World, v: VmId, o: Outcome)
    requires v in w.vms && w.vms[v].conf in w.confs && o.sockOk
    ensures var w' := Launch(w, v, o).0;
      if w'.vms[v].state == TERMINATE then w'.taps == w.taps - TapSet(w.vms[v].taps) && w'.vms[v].taps == []
      else w'.taps == w.taps && w'.vms[v].taps == w.vms[v].taps
  {
    var failed := RemoveTaps(w, v, true);
    assert failed.taps == w.taps - TapSet(w.vms[v].taps) && failed.vms[v].taps == [];
  }

  /** A start that leaves the machine down has destroyed exactly the interfaces it created. */
  lemma FailedStartRestoresTaps(w: World, v: VmId, o: Outcome)
    requires v in w.vms && w.vms[v].conf in w.confs && w.vms[v].state == TERMINATE && w.vms[v].taps == []
    requires Fresh(w, o) && o.sockOk && Start(w, v, o).0.vms[v].state == TERMINATE
    ensures Start(w, v, o).0.taps == w.taps && Start(w, v, o).0.vms[v].taps == []
  {
    if o.found {
      PrepareTapsResult(w, v, o);
      var (w1, ok) := PrepareTaps(w, v, o);
      if ok {
        var taps := TapsAttempted(o.taps);
        LaunchTaps(w1, v, o);
        assert w1.taps - TapSet(taps) == w.taps;
      }
    }
  }

  /** A finished loader and a rebooting guest pass their interfaces on unchanged. */
  lemma RestartKeepsTaps(w: World, v: VmId, status: Status, o: Outcome)
    requires v in w.vms && w.vms[v].conf in w.confs && Restarts(w, v, status)
    ensures var w' := OnVmExit(w, v, status, o);
      v in w'.vms && (w'.vms[v].state != TERMINATE ==> w'.taps == w.taps && w'.vms[v].taps == w.vms[v].taps)
  {
    var w0 := Reap(w, v);
    assert OnVmExit(w, v, status, o) == Start(w0, v, o).0;
    StartPassesTaps(w0, v, o);
  }

  lemma StartPassesTaps(w: World, v: VmId, o: Outcome)
    requires v in w.vms && w.vms[v].conf in w.confs && w.vms[v].state != TERMINATE
    ensures var w' := Start(w, v, o).0;
      v in w'.vms && (w'.vms[v].state != TERMINATE ==> w'.taps == w.taps && w'.vms[v].taps == w.vms[v].taps)
  {
  }

  /** Of the interfaces asked for, those up to the first failure exist, the one that could not be set up included. */
  lemma {:induction false} AttemptedAt(results: seq<TapResult>, i: nat)
    requires i < |results|
    ensures TapsAttempted(results)[i] ==
            if TapsSucceed(results[..i]) && (results[i].Created? || results[i].SetupFailed?) then Some(results[i].tap)
            else None
  {
    var rest := results[1..];
    if i > 0 {
      assert results[..i] == [results[0]] + rest[..i - 1];
      if results[0].Created? || results[0].Skipped? {
        AttemptedAt(rest, i - 1);
        assert TapsSucceed(results[..i]) <==> TapsSucceed(rest[..i - 1]) by {
          assert forall r :: r in results[..i] <==> r == results[0] || r in rest[..i - 1];
        }
      } else {
        assert results[0] in results[..i];
        assert !TapsSucceed(results[..i]);
      }
    }
  }
}
