/** The strengthened invariant of the controller. */
module Safety {
  import opened Models
  import opened StoreSpec
  import opened Ledger
  import opened Totals
  import opened Protocol

  predicate Gone(fs: Fs, oid: nat) {
    oid !in fs.live && oid !in fs.trash
  }

  /** Which files may exist beside a row in each state, and how large they may be. */
  predicate FileOk(db: Db, fs: Fs, oid: nat) {
    if oid >= |db.obs| then Gone(fs, oid)
    else
      match db.obs[oid].state
      case Planned => Gone(fs, oid)
      case Observing => oid !in fs.trash
      case Stored => oid !in fs.trash && Bytes(fs.live, oid) <= db.obs[oid].size
      case Deleting => !(oid in fs.live && oid in fs.trash) && Bytes(fs.live, oid) + Bytes(fs.trash, oid) <= db.obs[oid].size
      case Deleted => Gone(fs, oid)
      case ObserveFailed => oid !in fs.trash
      case Inconsistent => Gone(fs, oid)
  }

  ghost predicate FilesOk(db: Db, fs: Fs) {
    forall oid: nat :: FileOk(db, fs, oid)
  }

  predicate ObsTaskOk(db: Db, c: Ctl, oid: nat)
    requires oid in c.obsTasks
  {
    if c.obsTasks[oid].Fresh? then IsObs(db, oid, Planned) else IsObs(db, oid, Observing)
  }

  predicate RunTaskOk(db: Db, c: Ctl, rid: nat)
    requires rid in c.runTasks
  {
    if c.runTasks[rid].Waiting? then IsRun(db, rid, Queued) else IsRun(db, rid, Running)
  }

  /** A worker exists only for a row in the state it works on. */
  predicate TasksOk(db: Db, c: Ctl) {
    && (forall oid :: oid in c.obsTasks ==> ObsTaskOk(db, c, oid))
    && (forall rid :: rid in c.runTasks ==> RunTaskOk(db, c, rid))
  }

  /** A container outlives the controller only beside a row that claims to be in process. */
  predicate StraysOk(db: Db, c: Ctl) {
    && (forall oid :: oid in c.strays ==> IsObs(db, oid, Observing))
    && (forall rid :: rid in c.strayRuns ==> IsRun(db, rid, Running))
  }

  /** Permits are not oversold, and a controller that does not serve has nothing going on. */
  predicate CtlOk(cfg: Config, c: Ctl) {
    && |Holders(c)| <= cfg.parallel
    && (!c.phase.Serving? ==>
          c.obsTasks == map[] && c.runTasks == map[] && c.admission.NotAdmitting? && c.retry == {} && !c.swept)
    && (!c.phase.Down? ==> c.strays == {} && c.strayRuns == {})
  }

  /** After a sweep no row claims a worker that does not exist. */
  predicate SweptOk(db: Db, c: Ctl) {
    c.swept ==> NoOrphans(db, c)
  }

  /** At most one observation is planned or observing, and none while a new one is being admitted. */
  predicate OneActive(db: Db, c: Ctl) {
    && (forall o1, o2 | 0 <= o1 < |db.obs| && 0 <= o2 < |db.obs| ::
          UnderWay(db, o1) && UnderWay(db, o2) ==> o1 == o2)
    && (!c.admission.NotAdmitting? ==> NoneActive(db))
  }

  /** What the retry loop read is still true of every entry that is still FAILED. */
  predicate RetryEntryOk(cfg: Config, db: Db, rid: nat) {
    && rid < |db.runs|
    && db.runs[rid].state in {Failed, Superseded, Discarded}
    && (db.runs[rid].state.Failed? ==> StillRetryable(cfg, db, rid))
  }

  predicate StillRetryable(cfg: Config, db: Db, rid: nat)
    requires rid < |db.runs|
  {
    !db.runs[rid].exhausted && Executions(db.log, rid) < cfg.attempts && IsObs(db, db.runs[rid].oid, Stored)
  }

  predicate RetryOk(cfg: Config, db: Db, c: Ctl) {
    forall rid :: rid in c.retry ==> RetryEntryOk(cfg, db, rid)
  }

  /** What each deletion has seen is still true, however many run on the same observation. */
  predicate ProcOk(db: Db, fs: Fs, p: Proc) {
    && (p.seen.Deleting? || (p.drop && p.seen.Inconsistent?))
    && (!p.pc.Begin? && !p.pc.Stopped? ==> IsObs(db, p.oid, p.seen) || IsObs(db, p.oid, Deleted))
    && (p.pc.TestRemove? || p.pc.Remove? || p.pc.Commit? || p.pc.Finished? ==> p.oid !in fs.live)
    && (p.pc.Commit? || p.pc.Finished? ==> p.oid !in fs.trash)
    && (p.pc.Finished? ==> IsObs(db, p.oid, Deleted))
  }

  predicate ProcsOk(db: Db, fs: Fs, procs: map<nat, Proc>) {
    forall pid :: pid in procs ==> ProcOk(db, fs, procs[pid])
  }

  /** At most one execution per observation ever finishes. */
  predicate OneFinisher(procs: map<nat, Proc>) {
    forall p1, p2 | p1 in procs && p2 in procs && procs[p1].oid == procs[p2].oid ::
      procs[p1].pc.Finished? && procs[p2].pc.Finished? ==> p1 == p2
  }

  ghost predicate Inv(cfg: Config, w: World) {
    && LedgerInv(cfg, w.db)
    && FilesOk(w.db, w.fs)
    && TasksOk(w.db, w.ctl)
    && StraysOk(w.db, w.ctl)
    && CtlOk(cfg, w.ctl)
    && SweptOk(w.db, w.ctl)
    && OneActive(w.db, w.ctl)
    && RetryOk(cfg, w.db, w.ctl)
    && ProcsOk(w.db, w.fs, w.procs)
    && OneFinisher(w.procs)
  }

  lemma InvInit(cfg: Config)
    ensures Inv(cfg, InitialWorld)
  {
    LedgerInit(cfg);
    assert Holders(DownCtl) == {};
  }

  // ------------------------------------------------- what a transaction leaves

  /** A transaction changes at most one existing observation row, and only out of the state it names. */
  lemma ObsFrame(db: Db, op: Op, oid: nat)
    ensures oid < |db.obs| ==> oid < |After(db, op).obs|
    ensures oid < |db.obs| && After(db, op).obs[oid] != db.obs[oid] ==>
      || (op.MoveObs? && op.oid == oid && IsObs(db, oid, op.ofrom) && op.oto in ObsTransitions(op.ofrom)
          && After(db, op) == MovedObs(db, oid, op.oto, op.size, op.reserved))
      || ((op.Accept? || op.Discard?) && IsObs(db, oid, Stored) && After(db, op).obs[oid] == db.obs[oid].(state := Deleting))
    ensures oid >= |db.obs| && oid < |After(db, op).obs| ==> op.CreateObs? && After(db, op).obs[oid].state.Planned?
  {
  }

  lemma RunFrame(db: Db, op: Op, rid: nat)
    ensures rid < |db.runs| ==>
      && rid < |After(db, op).runs|
      && After(db, op).runs[rid].oid == db.runs[rid].oid && After(db, op).runs[rid].dir == db.runs[rid].dir
    ensures rid < |db.runs| && After(db, op).runs[rid].state != db.runs[rid].state ==>
      || (op.MoveRun? && op.rid == rid && IsRun(db, rid, op.rfrom) && After(db, op).runs[rid].state == op.rto)
      || (op.Accept? && op.rid == rid && IsRun(db, rid, AwaitingQa) && After(db, op).runs[rid].state == Accepted)
      || (op.Discard? && op.rid == rid && IsRun(db, rid, Failed) && After(db, op).runs[rid].state == Discarded)
      || (op.Reprocess? && op.rid == rid && (IsRun(db, rid, AwaitingQa) || IsRun(db, rid, Failed))
          && After(db, op).runs[rid].state == Superseded)
    ensures rid >= |db.runs| && rid < |After(db, op).runs| ==> After(db, op).runs[rid].state.Queued?
  {
  }
}
