/** A recovery that meets no failure comes to its end, from every world of every run in which it is under way. */
module Completion {
  import opened Models
  import opened StoreSpec
  import Ledger
  import opened Protocol
  import opened Safety
  import opened SafetySteps
  import opened Recovery
  import opened RecoveryRuns
  import Storage
  import Undisturbed

  /** Steps of recovery and of its deletions alone, with no failure and no crash among them. */
  predicate Smooth(s: Step) {
    match s
    case Recovery(r) => !r.RecDone? && (r.RecCleanRun? ==> r.left.None?)
    case Delete(_, left) => left.None?
    case _ => false
  }

  ghost predicate Recovers(cfg: Config, w: World, w': World) {
    exists steps :: Path(cfg, w, steps, w') && forall s :: s in steps ==> Smooth(s)
  }

  lemma RecoversSelf(cfg: Config, w: World)
    ensures Recovers(cfg, w, w)
  {
    assert Path(cfg, w, [], w);
  }

  lemma RecoversNext(cfg: Config, w: World, w1: World, s: Step, w2: World)
    requires Recovers(cfg, w, w1) && Enabled(cfg, w1, s) && Smooth(s) && w2 == Next(cfg, w1, s)
    ensures Recovers(cfg, w, w2)
  {
    var steps :| Path(cfg, w, steps, w1) && forall s :: s in steps ==> Smooth(s);
    PathLast(cfg, w, steps, w1, s);
  }

  lemma RecoversFurther(cfg: Config, w: World, w1: World, w2: World)
    requires Recovers(cfg, w, w1) && Recovers(cfg, w1, w2)
    ensures Recovers(cfg, w, w2)
  {
    var steps :| Path(cfg, w, steps, w1) && forall s :: s in steps ==> Smooth(s);
    var more :| Path(cfg, w1, more, w2) && forall s :: s in more ==> Smooth(s);
    PathJoin(cfg, w, steps, w1, more, w2);
  }

  lemma RecoversKeeps(cfg: Config, w: World, w': World)
    requires ValidConfig(cfg) && Inv(cfg, w) && Recovers(cfg, w, w')
    ensures Inv(cfg, w')
  {
    var steps :| Path(cfg, w, steps, w') && forall s :: s in steps ==> Smooth(s);
    PathKeeps(cfg, w, steps, w');
  }

  // -------------------------------------------------------------------- runs

  lemma FailOneRun(cfg: Config, w: World, rid: nat) returns (w': World)
    requires w.ctl.phase.Recovering? && IsRun(w.db, rid, Running)
    ensures Recovers(cfg, w, w') && w'.ctl == w.ctl && w'.db == MovedRun(w.db, rid, Failed)
  {
    RecoversSelf(cfg, w);
    var w1 := w;
    if DirOf(w.db, rid) in w.fs.products {
      w1 := RecoveryNext(w, RecCleanRun(rid, None));
      RecoversNext(cfg, w, w, Recovery(RecCleanRun(rid, None)), w1);
    }
    w' := RecoveryNext(w1, RecFailRun(rid));
    RecoversNext(cfg, w, w1, Recovery(RecFailRun(rid)), w');
  }

  predicate NoneRunning(db: Db, n: nat) {
    forall r :: 0 <= r < n && r < |db.runs| ==> !db.runs[r].state.Running?
  }

  lemma {:induction false} FailRuns(cfg: Config, w: World, n: nat) returns (w': World)
    requires w.ctl.phase.Recovering? && n <= |w.db.runs|
    ensures Recovers(cfg, w, w') && w'.ctl.phase.Recovering? && |w'.db.runs| == |w.db.runs| && NoneRunning(w'.db, n)
    decreases n
  {
    if n == 0 {
      w' := w;
      RecoversSelf(cfg, w);
    } else {
      w' := FailRuns(cfg, w, n - 1);
      if w'.db.runs[n - 1].state.Running? {
        var w1 := w';
        w' := FailOneRun(cfg, w1, n - 1);
        RecoversFurther(cfg, w, w1, w');
      }
    }
  }

  // ------------------------------------------------------------- observations

  /** Only this observation, and files of it, have changed. */
  ghost predicate OnlyOne(w: World, w': World, oid: nat) {
    && w'.ctl.phase == w.ctl.phase && w'.db.runs == w.db.runs && |w'.db.obs| == |w.db.obs|
    && (forall o :: 0 <= o < |w.db.obs| && o != oid ==> w'.db.obs[o] == w.db.obs[o])
    && (forall o: nat :: o != oid ==> (o in w'.fs.live <==> o in w.fs.live) && (o in w'.fs.trash <==> o in w.fs.trash))
  }

  lemma OthersStaySettled(w: World, w': World, oid: nat, o: nat)
    requires OnlyOne(w, w', oid) && o != oid && SettledObs(w.db, w.fs, o)
    ensures SettledObs(w'.db, w'.fs, o)
  {
    assert ResumePending(w'.db, o) <==> ResumePending(w.db, o);
  }

  lemma SettleInterrupted(cfg: Config, w: World, oid: nat) returns (w': World)
    requires w.ctl.phase.Recovering? && IsObs(w.db, oid, Observing)
    ensures Recovers(cfg, w, w') && OnlyOne(w, w', oid) && IsObs(w'.db, oid, ObserveFailed)
  {
    RecoversSelf(cfg, w);
    var w1 := w;
    if oid in w.fs.live {
      var name := Storage.FreshName(w.fs.quarantine.Keys);
      w1 := RecoveryNext(w, RecQuarantine(oid, name));
      RecoversNext(cfg, w, w, Recovery(RecQuarantine(oid, name)), w1);
    }
    w' := RecoveryNext(w1, RecFailObs(oid));
    RecoversNext(cfg, w, w1, Recovery(RecFailObs(oid)), w');
  }

  lemma SettleDeletion(cfg: Config, w: World, oid: nat) returns (w': World)
    requires w.ctl.phase.Recovering? && IsObs(w.db, oid, Deleting) && FileOk(w.db, w.fs, oid)
    ensures Recovers(cfg, w, w') && OnlyOne(w, w', oid) && IsObs(w'.db, oid, Deleted)
  {
    var pid := FreshId(w.procs.Keys, 0);
    var w1 := RecoveryNext(w, RecDelete(pid, oid));
    RecoversSelf(cfg, w);
    RecoversNext(cfg, w, w, Recovery(RecDelete(pid, oid)), w1);
    var steps;
    steps, w' := Undisturbed.RunsToItsEnd(cfg, w1, pid);
    assert Recovers(cfg, w1, w');
    RecoversFurther(cfg, w, w1, w');
    Storage.FinishedFilesGone(w.fs, oid);
    OnlyItsFiles(w.fs, w'.fs, oid);
  }

  lemma OnlyItsFiles(fs: Fs, fs': Fs, oid: nat)
    requires Storage.OnlyFilesOf(fs, fs', oid)
    ensures forall o: nat :: o != oid ==> (o in fs'.live <==> o in fs.live) && (o in fs'.trash <==> o in fs.trash)
  {
    forall o: nat | o != oid ensures (o in fs'.live <==> o in fs.live) && (o in fs'.trash <==> o in fs.trash) {
      assert o in fs.live - {oid} <==> o in fs.live;
      assert o in fs'.live - {oid} <==> o in fs'.live;
      assert o in fs.trash - {oid} <==> o in fs.trash;
      assert o in fs'.trash - {oid} <==> o in fs'.trash;
    }
  }

  lemma SettleMissing(cfg: Config, w: World, oid: nat) returns (w': World)
    requires w.ctl.phase.Recovering? && IsObs(w.db, oid, Stored) && oid !in w.fs.live && !ResumePending(w.db, oid)
    ensures Recovers(cfg, w, w') && OnlyOne(w, w', oid) && IsObs(w'.db, oid, Inconsistent)
  {
    w' := RecoveryNext(w, RecMissing(oid));
    RecoversSelf(cfg, w);
    RecoversNext(cfg, w, w, Recovery(RecMissing(oid)), w');
  }

  lemma SettleOne(cfg: Config, w: World, oid: nat) returns (w': World)
    requires ValidConfig(cfg) && Inv(cfg, w) && w.ctl.phase.Recovering? && oid < |w.db.obs|
    ensures Recovers(cfg, w, w') && OnlyOne(w, w', oid) && SettledObs(w'.db, w'.fs, oid)
  {
    assert FileOk(w.db, w.fs, oid);
    if SettledObs(w.db, w.fs, oid) {
      w' := w;
      RecoversSelf(cfg, w);
    } else if IsObs(w.db, oid, Observing) {
      w' := SettleInterrupted(cfg, w, oid);
    } else if IsObs(w.db, oid, Deleting) {
      w' := SettleDeletion(cfg, w, oid);
    } else {
      Ledger.StoredHasNoVerdict(w.db, oid);
      w' := SettleMissing(cfg, w, oid);
    }
  }

  predicate SettledBelow(db: Db, fs: Fs, n: nat) {
    forall o :: 0 <= o < n ==> SettledObs(db, fs, o)
  }

  lemma {:induction false} SettleObservations(cfg: Config, w: World, n: nat) returns (w': World)
    requires ValidConfig(cfg) && Inv(cfg, w) && w.ctl.phase.Recovering? && n <= |w.db.obs|
    ensures Recovers(cfg, w, w') && w'.ctl.phase.Recovering? && w'.db.runs == w.db.runs && |w'.db.obs| == |w.db.obs|
    ensures SettledBelow(w'.db, w'.fs, n)
    decreases n
  {
    if n == 0 {
      w' := w;
      RecoversSelf(cfg, w);
    } else {
      var w1 := SettleObservations(cfg, w, n - 1);
      RecoversKeeps(cfg, w, w1);
      w' := SettleOne(cfg, w1, n - 1);
      RecoversFurther(cfg, w, w1, w');
      forall o: nat | o < n - 1 ensures SettledObs(w'.db, w'.fs, o) {
        OthersStaySettled(w1, w', n - 1, o);
      }
    }
  }

  lemma RowsSettledIsSettled(cfg: Config, w: World)
    requires Inv(cfg, w) && NoneRunning(w.db, |w.db.runs|) && SettledBelow(w.db, w.fs, |w.db.obs|)
    ensures Settled(w.db, w.fs)
  {
    forall oid: nat ensures SettledObs(w.db, w.fs, oid) {
      assert FileOk(w.db, w.fs, oid);
    }
  }

  /**
   * From every world of every run in which the controller is recovering, a recovery without failures
   * leads to a world in which nothing is left to repair.
   */
  lemma RecoveryCompletes(cfg: Config, ws: seq<World>, steps: seq<Step>, i: nat) returns (w: World)
    requires ValidConfig(cfg) && IsRunOf(cfg, ws, steps) && i < |ws| && ws[i].ctl.phase.Recovering?
    ensures Recovers(cfg, ws[i], w) && Settled(w.db, w.fs) && w.ctl.phase.Recovering?
  {
    assert Inv(cfg, ws[i]) by {
      RunKeeps(cfg, ws, steps, i);
    }
    w := Completes(cfg, ws[i]);
  }

  lemma Completes(cfg: Config, w: World) returns (w': World)
    requires ValidConfig(cfg) && Inv(cfg, w) && w.ctl.phase.Recovering?
    ensures Recovers(cfg, w, w') && Settled(w'.db, w'.fs) && w'.ctl.phase.Recovering?
  {
    var w1 := FailRuns(cfg, w, |w.db.runs|);
    RecoversKeeps(cfg, w, w1);
    w' := SettleObservations(cfg, w1, |w1.db.obs|);
    RecoversFurther(cfg, w, w1, w');
    RecoversKeeps(cfg, w, w');
    RowsSettledIsSettled(cfg, w');
  }
}
