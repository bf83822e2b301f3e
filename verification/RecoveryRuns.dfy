/** The controller's own recovery, crash by crash, is such a sequence of repairs. */
module RecoveryRuns {
  import opened Models
  import opened StoreSpec
  import Ledger
  import opened Totals
  import opened Protocol
  import opened Safety
  import opened SafetySteps
  import opened Recovery
  import Storage

  /** Steps taken while the controller goes down, comes up and recovers, with no operator at work. */
  predicate OnlyRecovering(w: World, s: Step) {
    match s
    case Crash => true
    case Start => true
    case Recovery(_) => true
    case Delete(pid, _) => pid in w.procs && w.procs[pid].mine
    case DeleteDies(_) => true
    case Remark(_) => true
    case _ => false
  }

  /** The controller itself never runs the forced drop. */
  predicate MineNeverDrops(procs: map<nat, Proc>) {
    forall pid :: pid in procs && procs[pid].mine ==> !procs[pid].drop && !procs[pid].pc.RemoveLive?
  }

  lemma MineNeverDropsKept(cfg: Config, w: World, s: Step)
    requires MineNeverDrops(w.procs) && Enabled(cfg, w, s)
    ensures MineNeverDrops(Next(cfg, w, s).procs)
  {
    match s {
      case Recovery(r) =>
      case Tick(t) =>
      case Admit(a) =>
      case Work(k) =>
      case Operate(c) =>
      case _ =>
    }
  }

  lemma {:induction false} MineNeverDropsAlways(cfg: Config, ws: seq<World>, steps: seq<Step>, i: nat)
    requires IsRunOf(cfg, ws, steps) && i < |ws|
    ensures MineNeverDrops(ws[i].procs)
  {
    if i > 0 {
      MineNeverDropsAlways(cfg, ws, steps, i - 1);
      MineNeverDropsKept(cfg, ws[i - 1], steps[i - 1]);
    }
  }

  lemma OneRepair(db: Db, fs: Fs, r: Repair)
    requires Repairable(db, fs, r)
    ensures Repairs(db, fs, [r], RepairDb(db, r), RepairFs(db, fs, r))
  {
    assert [r][1..] == [];
  }

  function RecoveryRepair(r: RecoveryStep): seq<Repair> {
    match r
    case RecQuarantine(oid, name) => [MoveInterrupted(oid, name)]
    case RecFailObs(oid) => [FailInterrupted(oid)]
    case RecCleanRun(rid, left) => [CleanRun(rid, left)]
    case RecFailRun(rid) => [FailRun(rid)]
    case RecResume(oid) => [Resume(oid)]
    case RecDelete(_, _) => []
    case RecMissing(oid) => [MarkMissing(oid)]
    case RecOrphan(oid, name) => [MoveOrphan(oid, name)]
    case RecDone => []
  }

  lemma RecoveryRepairs(w: World, r: RecoveryStep)
    requires RecoveryEnabled(w, r)
    ensures Repairs(w.db, w.fs, RecoveryRepair(r), RecoveryNext(w, r).db, RecoveryNext(w, r).fs)
  {
    if RecoveryRepair(r) != [] {
      OneRepair(w.db, w.fs, RecoveryRepair(r)[0]);
    }
  }

  function DeleteRepair(db: Db, fs: Fs, p: Proc, left: Option<nat>): seq<Repair> {
    match p.pc
    case Rename => if p.oid in fs.live && p.oid !in fs.trash then [ToTrash(p.oid)] else []
    case Remove => if p.oid in fs.trash then [Erase(p.oid, left)] else []
    case Commit => if Apply(db, CommitOp(p)).Ok? then [FinishDelete(p.oid)] else []
    case _ => []
  }

  /** An action of the controller's own deletion is a repair, or changes nothing durable. */
  lemma DeleteRepairs(db: Db, fs: Fs, p: Proc, left: Option<nat>)
    requires FileOk(db, fs, p.oid) && ProcOk(db, fs, p) && !p.drop && !p.pc.RemoveLive? && RemovalOk(fs, p, left)
    ensures var db' := if p.pc.Commit? then After(db, CommitOp(p)) else db;
      Repairs(db, fs, DeleteRepair(db, fs, p, left), db', DeleteFs(fs, p, left))
  {
    if DeleteRepair(db, fs, p, left) != [] {
      OneRepair(db, fs, DeleteRepair(db, fs, p, left)[0]);
    }
  }

  lemma StepRepairs(cfg: Config, w: World, s: Step) returns (rs: seq<Repair>)
    requires Inv(cfg, w) && MineNeverDrops(w.procs) && Enabled(cfg, w, s) && OnlyRecovering(w, s)
    ensures Repairs(w.db, w.fs, rs, Next(cfg, w, s).db, Next(cfg, w, s).fs)
  {
    match s {
      case Recovery(r) =>
        rs := RecoveryRepair(r);
        RecoveryRepairs(w, r);
      case Delete(pid, left) =>
        rs := DeleteRepair(w.db, w.fs, w.procs[pid], left);
        assert FileOk(w.db, w.fs, w.procs[pid].oid) && ProcOk(w.db, w.fs, w.procs[pid]);
        DeleteRepairs(w.db, w.fs, w.procs[pid], left);
      case Remark(note) =>
        rs := [Report(note)];
        OneRepair(w.db, w.fs, Report(note));
      case _ =>
        rs := [];
    }
  }

  predicate RecoveringThroughout(ws: seq<World>, steps: seq<Step>, i: nat, j: nat)
    requires j <= |steps| < |ws|
  {
    forall k :: i <= k < j ==> OnlyRecovering(ws[k], steps[k])
  }

  lemma RecoveringEarlier(ws: seq<World>, steps: seq<Step>, i: nat, j: nat)
    requires i < j <= |steps| < |ws| && RecoveringThroughout(ws, steps, i, j)
    ensures RecoveringThroughout(ws, steps, i, j - 1) && OnlyRecovering(ws[j - 1], steps[j - 1])
  {
  }

  lemma NextRepaired(cfg: Config, ws: seq<World>, steps: seq<Step>, j: nat)
    requires ValidConfig(cfg) && IsRunOf(cfg, ws, steps) && j < |steps| && OnlyRecovering(ws[j], steps[j])
    ensures Repaired(ws[j].db, ws[j].fs, ws[j + 1].db, ws[j + 1].fs)
  {
    RunKeeps(cfg, ws, steps, j);
    MineNeverDropsAlways(cfg, ws, steps, j);
    var rs := StepRepairs(cfg, ws[j], steps[j]);
  }

  /** From any reachable world on, recovery with any crashes and restarts is a sequence of repairs. */
  lemma {:induction false} RunRepairs(cfg: Config, ws: seq<World>, steps: seq<Step>, i: nat, j: nat)
    requires ValidConfig(cfg) && IsRunOf(cfg, ws, steps) && i <= j < |ws|
    requires RecoveringThroughout(ws, steps, i, j)
    ensures Repaired(ws[i].db, ws[i].fs, ws[j].db, ws[j].fs)
    decreases j - i
  {
    if i == j {
      RepairedByNothing(ws[i].db, ws[i].fs);
    } else {
      RecoveringEarlier(ws, steps, i, j);
      RunRepairs(cfg, ws, steps, i, j - 1);
      NextRepaired(cfg, ws, steps, j - 1);
      RepairedFurther(ws[i].db, ws[i].fs, ws[j - 1].db, ws[j - 1].fs, ws[j].db, ws[j].fs);
    }
  }

  /** What a row becomes when recovery is through: only interrupted, deleted and missing ones change. */
  function RecoveredObs(db: Db, fs: Fs, oid: nat): ObsRow
    requires oid < |db.obs|
  {
    match db.obs[oid].state
    case Observing => ObsRow(ObserveFailed, db.obs[oid].size, 0)
    case Deleting => ObsRow(Deleted, 0, 0)
    case Stored => if oid in fs.live then db.obs[oid] else ObsRow(Inconsistent, 0, 0)
    case _ => db.obs[oid]
  }

  /** The measurement sets recovery leaves where they are: not interrupted, not to be deleted, not unknown. */
  function KeptLive(db: Db, fs: Fs): map<nat, nat> {
    map o | o in fs.live && !GoesToQuarantine(db, o) && !IsObs(db, o, Deleting) :: fs.live[o]
  }

  /** The product directories it leaves: all but those of interrupted runs. */
  function KeptProducts(db: Db, fs: Fs): map<string, nat> {
    map d | d in fs.products && !RunningDir(db, d) :: fs.products[d]
  }

  /** What a finished recovery has made of rows and files, read off the state it first found. */
  ghost predicate IsRecovered(db: Db, fs: Fs, db': Db, fs': Fs) {
    && |db'.obs| == |db.obs| && |db'.runs| == |db.runs|
    && (forall oid: nat :: oid < |db.obs| ==> db'.obs[oid] == RecoveredObs(db, fs, oid))
    && (forall rid: nat :: rid < |db.runs| ==> db'.runs[rid] == OutRun(db, rid))
    && fs'.live == KeptLive(db, fs) && fs'.trash == map[] && fs'.products == KeptProducts(db, fs)
    && (forall v: nat :: Copies(fs'.quarantine, v) == OutCopies(db, fs, v))
  }

  lemma ReachableFiles(cfg: Config, w: World, oid: nat)
    requires Inv(cfg, w)
    ensures OutLive(w.db, w.fs, oid) == Lookup(KeptLive(w.db, w.fs), oid) && OutTrash(w.db, w.fs, oid) == None
  {
    assert FileOk(w.db, w.fs, oid);
    if IsObs(w.db, oid, Stored) {
      Ledger.StoredHasNoVerdict(w.db, oid);
    }
  }

  lemma OutcomeIsRecovered(cfg: Config, w: World, db': Db, fs': Fs)
    requires Inv(cfg, w) && SameOutcome(w.db, w.fs, db', fs') && Settled(db', fs')
    ensures IsRecovered(w.db, w.fs, db', fs')
  {
    SettledIsOutcome(db', fs');
    forall oid: nat | oid < |w.db.obs| ensures db'.obs[oid] == RecoveredObs(w.db, w.fs, oid) {
      assert OutObs(db', fs', oid) == OutObs(w.db, w.fs, oid);
      ReachableOutcome(cfg, w, oid);
    }
    forall rid: nat | rid < |w.db.runs| ensures db'.runs[rid] == OutRun(w.db, rid) {
      assert OutRun(db', rid) == OutRun(w.db, rid);
    }
    FilesAreRecovered(cfg, w, db', fs');
  }

  lemma FilesAreRecovered(cfg: Config, w: World, db': Db, fs': Fs)
    requires Inv(cfg, w) && SameOutcome(w.db, w.fs, db', fs') && Settled(db', fs')
    ensures fs'.live == KeptLive(w.db, w.fs) && fs'.trash == map[] && fs'.products == KeptProducts(w.db, w.fs)
    ensures forall v: nat :: Copies(fs'.quarantine, v) == OutCopies(w.db, w.fs, v)
  {
    SettledIsOutcome(db', fs');
    forall oid: nat ensures Lookup(fs'.live, oid) == Lookup(KeptLive(w.db, w.fs), oid) && Lookup(fs'.trash, oid) == None {
      assert OutLive(db', fs', oid) == OutLive(w.db, w.fs, oid) && OutTrash(db', fs', oid) == OutTrash(w.db, w.fs, oid);
      ReachableFiles(cfg, w, oid);
    }
    SameLookups(fs'.live, KeptLive(w.db, w.fs));
    assert forall oid: nat :: oid in fs'.trash ==> Lookup(fs'.trash, oid) != None;
    forall dir: string ensures Lookup(fs'.products, dir) == Lookup(KeptProducts(w.db, w.fs), dir) {
      assert OutProduct(db', fs', dir) == OutProduct(w.db, w.fs, dir);
    }
    SameLookups(fs'.products, KeptProducts(w.db, w.fs));
    forall v: nat ensures Copies(fs'.quarantine, v) == OutCopies(w.db, w.fs, v) {
      assert OutCopies(db', fs', v) == OutCopies(w.db, w.fs, v);
    }
  }

  /**
   * Restartable recovery, on the controller's own runs: from any reachable world, whatever crashes
   * and restarts follow, once recovery has nothing left to do every row and every file is what the
   * starting world determines.
   */
  lemma RestartableRecovery(cfg: Config, ws: seq<World>, steps: seq<Step>, i: nat, j: nat)
    requires ValidConfig(cfg) && IsRunOf(cfg, ws, steps) && i <= j < |ws|
    requires RecoveringThroughout(ws, steps, i, j)
    requires Settled(ws[j].db, ws[j].fs)
    ensures IsRecovered(ws[i].db, ws[i].fs, ws[j].db, ws[j].fs)
  {
    RunRepairs(cfg, ws, steps, i, j);
    assert SameOutcome(ws[i].db, ws[i].fs, ws[j].db, ws[j].fs) by {
      var rs :| Repairs(ws[i].db, ws[i].fs, rs, ws[j].db, ws[j].fs);
      RepairsKeepOutcome(ws[i].db, ws[i].fs, rs, ws[j].db, ws[j].fs);
    }
    RunKeeps(cfg, ws, steps, i);
    OutcomeIsRecovered(cfg, ws[i], ws[j].db, ws[j].fs);
  }

  /** In reachable worlds nothing is wedged and no acceptance waits for its deletion to start. */
  lemma ReachableOutcome(cfg: Config, w: World, oid: nat)
    requires Inv(cfg, w) && oid < |w.db.obs|
    ensures OutObs(w.db, w.fs, oid) == RecoveredObs(w.db, w.fs, oid)
  {
    assert FileOk(w.db, w.fs, oid);
    if IsObs(w.db, oid, Stored) {
      Ledger.StoredHasNoVerdict(w.db, oid);
    }
  }

  // ------------------------------------------------- when recovery has nothing to do

  /** Nothing is left that recovery could do, except to declare itself finished. */
  ghost predicate NothingToDo(w: World) {
    forall r: RecoveryStep :: RecoveryEnabled(w, r) ==> r.RecDone?
  }

  lemma {:induction false} FreshId(s: set<nat>, n: nat) returns (x: nat)
    requires forall k: nat :: k < n ==> k in s
    ensures x !in s
    decreases |s| - n
  {
    if n !in s {
      x := n;
    } else {
      TakenIds(s, n + 1);
      x := FreshId(s, n + 1);
    }
  }

  lemma {:induction false} TakenIds(s: set<nat>, n: nat)
    requires forall k: nat :: k < n ==> k in s
    ensures n <= |s|
  {
    if n > 0 {
      TakenIds(s - {n - 1}, n - 1);
    }
  }

  /** A row that is not settled gives recovery something to do. */
  lemma UnsettledHasStep(cfg: Config, w: World, oid: nat) returns (r: RecoveryStep)
    requires Inv(cfg, w) && w.ctl.phase.Recovering? && !SettledObs(w.db, w.fs, oid)
    ensures RecoveryEnabled(w, r) && !r.RecDone?
  {
    assert FileOk(w.db, w.fs, oid);
    if IsObs(w.db, oid, Observing) {
      if oid in w.fs.live {
        var name := Storage.FreshName(w.fs.quarantine.Keys);
        r := RecQuarantine(oid, name);
      } else {
        r := RecFailObs(oid);
      }
    } else if IsObs(w.db, oid, Deleting) {
      var pid := FreshId(w.procs.Keys, 0);
      r := RecDelete(pid, oid);
    } else {
      Ledger.StoredHasNoVerdict(w.db, oid);
      r := RecMissing(oid);
    }
  }

  lemma SettledDeletesNothing(db: Db, fs: Fs)
    requires FilesOk(db, fs) && Settled(db, fs)
    ensures forall oid: nat :: !IsObs(db, oid, Deleting)
  {
    forall oid: nat ensures !IsObs(db, oid, Deleting) {
      assert FileOk(db, fs, oid) && SettledObs(db, fs, oid);
    }
  }

  lemma SettledHasNoStep(cfg: Config, w: World, r: RecoveryStep)
    requires Inv(cfg, w) && Settled(w.db, w.fs) && RecoveryEnabled(w, r)
    ensures r.RecDone?
  {
    SettledDeletesNothing(w.db, w.fs);
    if RecoveryRepair(r) != [] {
      SettledMeansNoRepair(w.db, w.fs, RecoveryRepair(r)[0]);
    }
  }

  /** In every world of every run in which the controller recovers: nothing is left to do exactly when all is settled. */
  lemma DoneExactlyWhenSettled(cfg: Config, ws: seq<World>, steps: seq<Step>, i: nat)
    requires ValidConfig(cfg) && IsRunOf(cfg, ws, steps) && i < |ws| && ws[i].ctl.phase.Recovering?
    ensures NothingToDo(ws[i]) <==> Settled(ws[i].db, ws[i].fs)
  {
    var w := ws[i];
    RunKeeps(cfg, ws, steps, i);
    if Settled(w.db, w.fs) {
      forall r: RecoveryStep | RecoveryEnabled(w, r) ensures r.RecDone? {
        SettledHasNoStep(cfg, w, r);
      }
    }
    if NothingToDo(w) {
      NothingToDoIsSettled(cfg, w);
    }
  }

  lemma NothingToDoIsSettled(cfg: Config, w: World)
    requires Inv(cfg, w) && w.ctl.phase.Recovering? && NothingToDo(w)
    ensures Settled(w.db, w.fs)
  {
    forall oid: nat ensures SettledObs(w.db, w.fs, oid) {
      if !SettledObs(w.db, w.fs, oid) {
        var r := UnsettledHasStep(cfg, w, oid);
      }
    }
    forall rid: nat | rid < |w.db.runs| ensures !w.db.runs[rid].state.Running? {
      assert !RecoveryEnabled(w, RecFailRun(rid));
      assert !RecoveryEnabled(w, RecCleanRun(rid, None));
    }
  }
}
