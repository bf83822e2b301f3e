/** Every step keeps every component of the invariant. */
module SafetySteps {
  import opened Models
  import opened Naming
  import opened StoreSpec
  import opened Ledger
  import opened Totals
  import opened Protocol
  import opened Safety

  // -------------------------------------------------- components under a transaction

  /** What a row change says about the files beside it. */
  predicate FileSafe(db: Db, fs: Fs, op: Op) {
    op.MoveObs? && IsObs(db, op.oid, op.ofrom) ==>
      match op.oto
      case Stored => op.size == Some(Bytes(fs.live, op.oid))
      case Inconsistent => Gone(fs, op.oid)
      case Deleted => Gone(fs, op.oid)
      case _ => op.size.None?
  }

  lemma FilesTx(db: Db, fs: Fs, op: Op)
    requires FilesOk(db, fs) && FileSafe(db, fs, op)
    ensures FilesOk(After(db, op), fs)
  {
    forall oid: nat ensures FileOk(After(db, op), fs, oid) {
      assert FileOk(db, fs, oid);
      ObsFrame(db, op, oid);
    }
  }

  /** The transaction moves no row out of a state in which a worker holds it. */
  predicate TaskFree(db: Db, c: Ctl, op: Op) {
    && (op.MoveObs? && IsObs(db, op.oid, op.ofrom) ==> op.oid !in c.obsTasks)
    && (op.MoveRun? && IsRun(db, op.rid, op.rfrom) ==> op.rid !in c.runTasks)
  }

  lemma TasksTx(db: Db, c: Ctl, op: Op)
    requires TasksOk(db, c) && TaskFree(db, c, op)
    ensures TasksOk(After(db, op), c)
  {
    forall oid | oid in c.obsTasks ensures ObsTaskOk(After(db, op), c, oid) {
      assert ObsTaskOk(db, c, oid);
      ObsFrame(db, op, oid);
    }
    forall rid | rid in c.runTasks ensures RunTaskOk(After(db, op), c, rid) {
      assert RunTaskOk(db, c, rid);
      RunFrame(db, op, rid);
    }
  }

  lemma SweptTx(db: Db, c: Ctl, op: Op)
    requires SweptOk(db, c)
    requires op.MoveObs? ==> !op.oto.Observing?
    requires op.MoveRun? ==> !op.rto.Running?
    ensures SweptOk(After(db, op), c)
  {
    var db' := After(db, op);
    forall o | 0 <= o < |db'.obs| && db'.obs[o].state.Observing? ensures o < |db.obs| && db.obs[o].state.Observing? {
      ObsFrame(db, op, o);
    }
    forall r | 0 <= r < |db'.runs| && db'.runs[r].state.Running? ensures r < |db.runs| && db.runs[r].state.Running? {
      RunFrame(db, op, r);
    }
  }

  lemma OneActiveTx(db: Db, c: Ctl, op: Op)
    requires OneActive(db, c) && !op.CreateObs?
    ensures OneActive(After(db, op), c)
  {
    var db' := After(db, op);
    forall o: nat | UnderWay(db', o) ensures UnderWay(db, o) {
      ObsFrame(db, op, o);
    }
  }

  lemma ProcsTx(cfg: Config, db: Db, fs: Fs, procs: map<nat, Proc>, op: Op)
    requires ProcsOk(db, fs, procs) && Allowed(cfg, db, op)
    ensures ProcsOk(After(db, op), fs, procs)
  {
    forall pid | pid in procs ensures ProcOk(After(db, op), fs, procs[pid]) {
      assert ProcOk(db, fs, procs[pid]);
      ObsFrame(db, op, procs[pid].oid);
    }
  }

  predicate Outside(op: Op) {
    op.Accept? || op.Discard? || op.Reprocess? || op.NoteObs? || op.NoteRun? || (op.MoveObs? && op.oto.Deleted?)
  }

  lemma MarkerFrame(db: Db, op: Op, rid: nat)
    requires Outside(op) && rid < |db.runs|
    ensures rid < |After(db, op).runs| && After(db, op).runs[rid].exhausted == db.runs[rid].exhausted
    ensures Executions(After(db, op).log, rid) == Executions(db.log, rid)
  {
    if Apply(db, op).Ok? {
      ExecutionsAfter(db, op, rid);
    }
  }

  lemma StoredElsewhere(db: Db, op: Op, rid: nat)
    requires rid < |db.runs| && db.runs[rid].state.Failed? && Chain(db.runs, db.runs[rid].oid)
    requires Outside(op) && IsObs(db, db.runs[rid].oid, Stored)
    requires IsRun(After(db, op), rid, Failed)
    ensures IsObs(After(db, op), db.runs[rid].oid, Stored)
  {
    if (op.Accept? || op.Discard?) && Apply(db, op).Ok? {
      VerdictElsewhere(db, op.rid, rid);
    }
  }

  lemma RetryEntryTx(cfg: Config, db: Db, op: Op, rid: nat)
    requires Chains(db) && RetryEntryOk(cfg, db, rid) && Outside(op)
    ensures RetryEntryOk(cfg, After(db, op), rid)
  {
    RunFrame(db, op, rid);
    MarkerFrame(db, op, rid);
    var db' := After(db, op);
    if db'.runs[rid].state.Failed? {
      assert Chain(db.runs, db.runs[rid].oid);
      StoredElsewhere(db, op, rid);
    }
  }

  /** Operator verdicts, notes and deletion commits leave the retry list meaningful. */
  lemma RetryTx(cfg: Config, db: Db, c: Ctl, op: Op)
    requires Chains(db) && RetryOk(cfg, db, c) && Outside(op)
    ensures RetryOk(cfg, After(db, op), c)
  {
    forall rid | rid in c.retry ensures RetryEntryOk(cfg, After(db, op), rid) {
      RetryEntryTx(cfg, db, op, rid);
    }
  }

  /** Two runs of one observation are never both FAILED or awaiting a verdict. */
  lemma VerdictElsewhere(db: Db, r1: nat, r2: nat)
    requires r1 < |db.runs| && r2 < |db.runs| && r1 != r2 && Chain(db.runs, db.runs[r2].oid)
    requires !db.runs[r1].state.Superseded? && !db.runs[r2].state.Superseded?
    ensures db.runs[r1].oid != db.runs[r2].oid
  {
    if db.runs[r1].oid == db.runs[r2].oid {
      OneLiveRun(db.runs, r2, r1);
    }
  }

  /** A transaction whose evidence fits the rows, files and tasks keeps the whole invariant. */
  predicate TxSafe(cfg: Config, w: World, op: Op) {
    && Allowed(cfg, w.db, op) && NamesDir(w.db, op) && FileSafe(w.db, w.fs, op)
    && TaskFree(w.db, w.ctl, op)
    && !op.CreateObs? && !(op.MoveObs? && op.oto.Observing?) && !(op.MoveRun? && op.rto.Running?)
    && (w.ctl.retry == {} || Outside(op) || RetryLeft(w.ctl, op))
    && (w.ctl.phase.Down? ==> Outside(op))
  }

  /** The retry loop's own transactions concern an entry it has taken off its list. */
  predicate RetryLeft(c: Ctl, op: Op) {
    (op.MarkRunExhausted? && op.rid !in c.retry) || (op.MoveRun? && op.rid !in c.retry)
  }

  lemma RetryLeftTx(cfg: Config, db: Db, c: Ctl, op: Op)
    requires RetryOk(cfg, db, c) && RetryLeft(c, op)
    ensures RetryOk(cfg, After(db, op), c)
  {
    forall rid | rid in c.retry ensures RetryEntryOk(cfg, After(db, op), rid) {
      assert RetryEntryOk(cfg, db, rid);
      RetryEntryElsewhere(cfg, db, op, rid);
    }
  }

  lemma RetryEntryElsewhere(cfg: Config, db: Db, op: Op, rid: nat)
    requires RetryEntryOk(cfg, db, rid) && (op.MarkRunExhausted? || op.MoveRun?) && op.rid != rid
    ensures RetryEntryOk(cfg, After(db, op), rid)
  {
    if Apply(db, op).Ok? {
      ExecutionsAfter(db, op, rid);
    }
  }

  lemma StraysTx(db: Db, c: Ctl, op: Op)
    requires StraysOk(db, c) && Outside(op)
    ensures StraysOk(After(db, op), c)
  {
    forall oid | oid in c.strays ensures IsObs(After(db, op), oid, Observing) {
      ObsFrame(db, op, oid);
    }
    forall rid | rid in c.strayRuns ensures IsRun(After(db, op), rid, Running) {
      RunFrame(db, op, rid);
    }
  }

  lemma TxKeeps(cfg: Config, w: World, op: Op)
    requires ValidConfig(cfg) && Inv(cfg, w) && TxSafe(cfg, w, op)
    ensures Inv(cfg, Tx(w, op))
  {
    LedgerKept(cfg, w.db, op);
    FilesTx(w.db, w.fs, op);
    TasksTx(w.db, w.ctl, op);
    SweptTx(w.db, w.ctl, op);
    if w.ctl.phase.Down? {
      StraysTx(w.db, w.ctl, op);
    }
    OneActiveTx(w.db, w.ctl, op);
    ProcsTx(cfg, w.db, w.fs, w.procs, op);
    if RetryLeft(w.ctl, op) {
      RetryLeftTx(cfg, w.db, w.ctl, op);
    } else if w.ctl.retry != {} {
      RetryTx(cfg, w.db, w.ctl, op);
    }
  }

  lemma QuarantineKeeps(cfg: Config, w: World, oid: nat, name: string)
    requires Inv(cfg, w) && CanQuarantine(w, oid, name)
    ensures Inv(cfg, Quarantined(w, oid, name))
  {
    var fs' := MoveToQuarantine(w.fs, oid, name);
    forall o: nat ensures FileOk(w.db, fs', o) {
      assert FileOk(w.db, w.fs, o);
    }
    forall pid | pid in w.procs ensures ProcOk(w.db, fs', w.procs[pid]) {
      assert ProcOk(w.db, w.fs, w.procs[pid]);
    }
  }

  /** Files other than measurement sets and trash copies matter to no component. */
  lemma OtherFilesKeep(cfg: Config, w: World, fs': Fs)
    requires Inv(cfg, w) && fs'.live == w.fs.live && fs'.trash == w.fs.trash
    ensures Inv(cfg, w.(fs := fs'))
  {
    forall o: nat ensures FileOk(w.db, fs', o) {
      assert FileOk(w.db, w.fs, o);
    }
    forall pid | pid in w.procs ensures ProcOk(w.db, fs', w.procs[pid]) {
      assert ProcOk(w.db, w.fs, w.procs[pid]);
    }
  }

  lemma NewProcKeeps(cfg: Config, w: World, pid: nat, p: Proc)
    requires Inv(cfg, w) && pid !in w.procs && p.pc.Begin? && p.seen.Deleting?
    ensures Inv(cfg, w.(procs := w.procs[pid := p]))
  {
  }

  lemma RecoveryKeeps(cfg: Config, w: World, r: RecoveryStep)
    requires ValidConfig(cfg) && Inv(cfg, w) && RecoveryEnabled(w, r)
    ensures Inv(cfg, RecoveryNext(w, r))
  {
    match r {
      case RecQuarantine(oid, name) => QuarantineKeeps(cfg, w, oid, name);
      case RecFailObs(oid) => TxKeeps(cfg, w, MoveObs(oid, Observing, ObserveFailed, None, Some(0)));
      case RecCleanRun(rid, left) => OtherFilesKeep(cfg, w, RecoveryNext(w, r).fs);
      case RecFailRun(rid) => TxKeeps(cfg, w, MoveRun(rid, Running, Failed));
      case RecResume(oid) => TxKeeps(cfg, w, MoveObs(oid, Stored, Deleting, None, None));
      case RecDelete(pid, oid) => NewProcKeeps(cfg, w, pid, Proc(false, true, oid, Deleting, Begin));
      case RecMissing(oid) =>
        assert FileOk(w.db, w.fs, oid);
        TxKeeps(cfg, w, MoveObs(oid, Stored, Inconsistent, Some(0), Some(0)));
      case RecOrphan(oid, name) => QuarantineKeeps(cfg, w, oid, name);
      case RecDone =>
    }
  }

  lemma VerdictKeeps(cfg: Config, w: World, op: Op, pid: nat)
    requires ValidConfig(cfg) && Inv(cfg, w) && (op.Accept? || op.Discard?) && Apply(w.db, op).Ok? && pid !in w.procs
    ensures Inv(cfg, Tx(w, op).(procs := w.procs[pid := Proc(false, false, w.db.runs[op.rid].oid, Deleting, Begin)]))
  {
    TxKeeps(cfg, w, op);
    NewProcKeeps(cfg, Tx(w, op), pid, Proc(false, false, w.db.runs[op.rid].oid, Deleting, Begin));
  }

  lemma OperatorKeeps(cfg: Config, w: World, s: OperatorStep)
    requires ValidConfig(cfg) && Inv(cfg, w) && OperatorEnabled(w, s)
    ensures Inv(cfg, OperatorNext(w, s))
  {
    match s {
      case OpAccept(pid, rid) => VerdictKeeps(cfg, w, Accept(rid), pid);
      case OpDiscard(pid, rid) => VerdictKeeps(cfg, w, Discard(rid), pid);
      case OpReprocess(rid) =>
        TxKeeps(cfg, w, Reprocess(rid, RunDir(w.db.runs[rid].oid, w.db.runs[rid].attempt + 1)));
      case OpDrop(pid, oid) => NewProcKeeps(cfg, w, pid, Proc(true, false, oid, Deleting, Begin));
      case OpPurge(name, left) => OtherFilesKeep(cfg, w, OperatorNext(w, s).fs);
    }
  }

  lemma FirstDirName(db: Db, oid: nat)
    requires NeedsRun(db, oid)
    ensures NamesDir(db, CreateRun(oid, RunDir(oid, 1)))
  {
    MaxAttemptOfNone(db.runs, oid);
  }

  lemma SweepKeeps(cfg: Config, w: World, t: TickStep)
    requires ValidConfig(cfg) && Inv(cfg, w) && TickEnabled(w, t) && (t.SweepFailObs? || t.SweepFailRun?)
    ensures Inv(cfg, TickNext(cfg, w, t))
  {
    if t.SweepFailObs? {
      TxKeeps(cfg, w, MoveObs(t.oid, Observing, ObserveFailed, None, Some(0)));
    } else {
      TxKeeps(cfg, w, MoveRun(t.rid, Running, Failed));
    }
  }

  lemma TickKeeps(cfg: Config, w: World, t: TickStep)
    requires ValidConfig(cfg) && Inv(cfg, w) && TickEnabled(w, t)
    ensures Inv(cfg, TickNext(cfg, w, t))
  {
    match t {
      case SweepQuarantine(oid, name) => QuarantineKeeps(cfg, w, oid, name);
      case SweepFailObs(oid, _) => SweepKeeps(cfg, w, t);
      case SweepFailRun(rid) => SweepKeeps(cfg, w, t);
      case SweepDone =>
      case MarkSpent => TxKeeps(cfg, w, MarkExhausted(cfg.attempts));
      case ListRetryable =>
      case RetryClean(rid, left) => OtherFilesKeep(cfg, w, TickNext(cfg, w, t).fs);
      case RetryBlocked(rid) => TxKeeps(cfg, WithoutRetry(w, rid), MarkRunExhausted(rid));
      case RetryRequeue(rid) => RequeueKeeps(cfg, w, rid);
      case ResumePlanned(oid) =>
      case FirstRun(oid) =>
        FirstDirName(w.db, oid);
        TxKeeps(cfg, w, CreateRun(oid, RunDir(oid, 1)));
      case TrackRun(rid) => NewRunTaskKeeps(cfg, w, rid);
    }
  }

  lemma RequeueKeeps(cfg: Config, w: World, rid: nat)
    requires ValidConfig(cfg) && Inv(cfg, w) && rid in w.ctl.retry
    ensures Inv(cfg, TickNext(cfg, w, RetryRequeue(rid)))
  {
    assert RetryEntryOk(cfg, w.db, rid);
    assert rid in w.ctl.runTasks ==> RunTaskOk(w.db, w.ctl, rid);
    FewerRetries(cfg, w, rid);
    TxKeeps(cfg, WithoutRetry(w, rid), MoveRun(rid, Failed, Queued));
  }

  lemma FewerRetries(cfg: Config, w: World, rid: nat)
    requires Inv(cfg, w)
    ensures Inv(cfg, WithoutRetry(w, rid))
  {
    var c' := WithoutRetry(w, rid).ctl;
    assert Holders(c') == Holders(w.ctl);
    TasksElsewhere(w.db, w.ctl, c');
  }

  lemma NewRunTaskKeeps(cfg: Config, w: World, rid: nat)
    requires Inv(cfg, w) && TickEnabled(w, TrackRun(rid))
    ensures Inv(cfg, TickNext(cfg, w, TrackRun(rid)))
  {
    var c' := TickNext(cfg, w, TrackRun(rid)).ctl;
    assert Holders(c') == Holders(w.ctl);
    forall r | r in c'.runTasks ensures RunTaskOk(w.db, c', r) {
      assert r != rid ==> RunTaskOk(w.db, w.ctl, r);
    }
    forall o | o in c'.obsTasks ensures ObsTaskOk(w.db, c', o) {
      assert ObsTaskOk(w.db, w.ctl, o);
    }
  }

  /** Reading for the admission test changes nothing the invariant speaks of. */
  lemma ReadKeeps(cfg: Config, w: World, admission: Admission, cache: Option<CacheEntry>)
    requires Inv(cfg, w) && w.ctl.phase.Serving? && (!admission.NotAdmitting? ==> NoneActive(w.db))
    ensures Inv(cfg, w.(ctl := w.ctl.(admission := admission, cache := cache)))
  {
    var c' := w.ctl.(admission := admission, cache := cache);
    assert Holders(c') == Holders(w.ctl);
    TasksElsewhere(w.db, w.ctl, c');
  }

  lemma TasksElsewhere(db: Db, c: Ctl, c': Ctl)
    requires TasksOk(db, c) && c'.obsTasks == c.obsTasks && c'.runTasks == c.runTasks
    ensures TasksOk(db, c')
  {
    forall o | o in c'.obsTasks ensures ObsTaskOk(db, c', o) {
      assert ObsTaskOk(db, c, o);
    }
    forall r | r in c'.runTasks ensures RunTaskOk(db, c', r) {
      assert RunTaskOk(db, c, r);
    }
  }

  lemma InsertedIsAlone(db: Db, c: Ctl, reserve: nat)
    requires NoneActive(db) && c.admission.NotAdmitting?
    ensures OneActive(After(db, CreateObs(reserve)), c)
  {
    forall o: nat | UnderWay(After(db, CreateObs(reserve)), o) ensures o == |db.obs| {
      assert o < |db.obs| ==> !UnderWay(db, o);
    }
  }

  lemma InsertKeeps(cfg: Config, w: World)
    requires ValidConfig(cfg) && Inv(cfg, w) && AdmitEnabled(cfg, w, AdmitInsert)
    ensures Inv(cfg, Tx(w, CreateObs(cfg.reservation)).(ctl := w.ctl.(admission := NotAdmitting)))
  {
    var op := CreateObs(cfg.reservation);
    var c' := w.ctl.(admission := NotAdmitting);
    ReadKeeps(cfg, w, NotAdmitting, w.ctl.cache);
    LedgerKept(cfg, w.db, op);
    FilesTx(w.db, w.fs, op);
    TasksTx(w.db, c', op);
    SweptTx(w.db, c', op);
    ProcsTx(cfg, w.db, w.fs, w.procs, op);
    InsertedIsAlone(w.db, c', cfg.reservation);
    forall rid | rid in c'.retry ensures RetryEntryOk(cfg, After(w.db, op), rid) {
      assert RetryEntryOk(cfg, w.db, rid);
      ExecutionsAfter(w.db, op, rid);
    }
  }

  lemma AdmitKeeps(cfg: Config, w: World, a: AdmitStep)
    requires ValidConfig(cfg) && Inv(cfg, w) && AdmitEnabled(cfg, w, a)
    ensures Inv(cfg, AdmitNext(cfg, w, a))
  {
    var w' := AdmitNext(cfg, w, a);
    if a.AdmitInsert? {
      InsertKeeps(cfg, w);
    } else {
      ReadKeeps(cfg, w, w'.ctl.admission, w'.ctl.cache);
    }
  }

  // ------------------------------------------------------------------ workers

  lemma ObsBeginKeeps(cfg: Config, w: World, oid: nat)
    requires ValidConfig(cfg) && Inv(cfg, w) && WorkEnabled(cfg, w, ObsBegin(oid))
    ensures Inv(cfg, WorkNext(w, ObsBegin(oid)))
  {
    var op := MoveObs(oid, Planned, Observing, None, None);
    var w0, w' := WithoutObsTask(w, oid), WorkNext(w, ObsBegin(oid));
    assert ObsTaskOk(w.db, w.ctl, oid);
    LedgerKept(cfg, w.db, op);
    FilesTx(w.db, w.fs, op);
    ProcsTx(cfg, w.db, w.fs, w.procs, op);
    OneActiveTx(w.db, w.ctl, op);
    FewerTasks(w.db, w.ctl, w0.ctl);
    TasksTx(w.db, w0.ctl, op);
    MoreTasks(w'.db, w0.ctl, w'.ctl, oid);
    assert Holders(w'.ctl) == Holders(w.ctl);
  }

  lemma FewerTasks(db: Db, c: Ctl, c': Ctl)
    requires TasksOk(db, c)
    requires forall o :: o in c'.obsTasks ==> o in c.obsTasks && c'.obsTasks[o] == c.obsTasks[o]
    requires forall r :: r in c'.runTasks ==> r in c.runTasks && c'.runTasks[r] == c.runTasks[r]
    ensures TasksOk(db, c')
  {
    forall o | o in c'.obsTasks ensures ObsTaskOk(db, c', o) {
      assert ObsTaskOk(db, c, o);
    }
    forall r | r in c'.runTasks ensures RunTaskOk(db, c', r) {
      assert RunTaskOk(db, c, r);
    }
  }

  lemma MoreTasks(db: Db, c: Ctl, c': Ctl, oid: nat)
    requires TasksOk(db, c) && c'.runTasks == c.runTasks && oid in c'.obsTasks && ObsTaskOk(db, c', oid)
    requires forall o :: o in c'.obsTasks && o != oid ==> o in c.obsTasks && c'.obsTasks[o] == c.obsTasks[o]
    ensures TasksOk(db, c')
  {
    forall o | o in c'.obsTasks ensures ObsTaskOk(db, c', o) {
      assert o != oid ==> ObsTaskOk(db, c, o);
    }
    forall r | r in c'.runTasks ensures RunTaskOk(db, c', r) {
      assert RunTaskOk(db, c, r);
    }
  }

  /** A worker that moves its observation out of PLANNED and OBSERVING and ends. */
  lemma ObsLeaves(cfg: Config, w: World, oid: nat, op: Op)
    requires ValidConfig(cfg) && Inv(cfg, w) && Idle(w.ctl) && oid in w.ctl.obsTasks
    requires op.MoveObs? && op.oid == oid && IsObs(w.db, oid, op.ofrom) && op.oto in ObsTransitions(op.ofrom)
    requires op.oto.Stored? || op.oto.ObserveFailed?
    requires Allowed(cfg, w.db, op) && FileSafe(w.db, w.fs, op)
    ensures Inv(cfg, WithoutObsTask(Tx(w, op), oid))
  {
    var w' := WithoutObsTask(Tx(w, op), oid);
    LedgerKept(cfg, w.db, op);
    FilesTx(w.db, w.fs, op);
    ProcsTx(cfg, w.db, w.fs, w.procs, op);
    OneActiveTx(w.db, w.ctl, op);
    FewerTasks(w.db, w.ctl, w'.ctl);
    TasksTx(w.db, w'.ctl, op);
    SweptTx(w.db, w.ctl, op);
    assert Holders(w'.ctl) == Holders(w.ctl);
  }

  lemma ObsDiesKeeps(cfg: Config, w: World, oid: nat)
    requires Inv(cfg, w)
    ensures Inv(cfg, Unswept(WithoutObsTask(w, oid)))
  {
    var w' := Unswept(WithoutObsTask(w, oid));
    FewerTasks(w.db, w.ctl, w'.ctl);
    assert Holders(w'.ctl) == Holders(w.ctl);
  }

  lemma ObsEndKeeps(cfg: Config, w: World, oid: nat, ok: bool)
    requires Inv(cfg, w) && WorkEnabled(cfg, w, ObsEnd(oid, ok))
    ensures Inv(cfg, WithObsTask(w, oid, Ended(ok)))
  {
    var w' := WithObsTask(w, oid, Ended(ok));
    assert ObsTaskOk(w.db, w.ctl, oid);
    MoreTasks(w.db, w.ctl, w'.ctl, oid);
    assert Holders(w'.ctl) == Holders(w.ctl);
  }

  /** Whoever writes a measurement set writes that of an OBSERVING row. */
  lemma LiveWriteKeeps(cfg: Config, w: World, oid: nat, bytes: nat)
    requires Inv(cfg, w) && IsObs(w.db, oid, Observing)
    ensures Inv(cfg, w.(fs := w.fs.(live := w.fs.live[oid := bytes])))
  {
    var fs' := w.fs.(live := w.fs.live[oid := bytes]);
    forall o: nat ensures FileOk(w.db, fs', o) {
      assert FileOk(w.db, w.fs, o);
    }
    forall pid | pid in w.procs ensures ProcOk(w.db, fs', w.procs[pid]) {
      assert ProcOk(w.db, w.fs, w.procs[pid]);
    }
  }

  lemma ClaimTasks(db: Db, c: Ctl, c': Ctl, rid: nat)
    requires TasksOk(db, c) && RunTaskIs(c, rid, Waiting) && c' == c.(runTasks := c.runTasks[rid := Holding])
    ensures TasksOk(After(db, MoveRun(rid, Queued, Running)), c')
  {
    var op := MoveRun(rid, Queued, Running);
    var c0 := c.(runTasks := c.runTasks - {rid});
    assert RunTaskOk(db, c, rid);
    FewerTasks(db, c, c0);
    TasksTx(db, c0, op);
    forall r | r in c'.runTasks ensures RunTaskOk(After(db, op), c', r) {
      assert r != rid ==> RunTaskOk(After(db, op), c0, r);
    }
    forall o | o in c'.obsTasks ensures ObsTaskOk(After(db, op), c', o) {
      assert ObsTaskOk(After(db, op), c0, o);
    }
  }

  lemma ClaimSwept(db: Db, c: Ctl, c': Ctl, rid: nat)
    requires SweptOk(db, c) && c' == c.(runTasks := c.runTasks[rid := Holding])
    ensures SweptOk(After(db, MoveRun(rid, Queued, Running)), c')
  {
  }

  lemma ClaimPermits(c: Ctl, c': Ctl, rid: nat)
    requires c'.runTasks == c.runTasks[rid := Holding]
    ensures |Holders(c')| <= |Holders(c)| + 1
  {
    assert Holders(c') == Holders(c) + {rid};
  }

  lemma RunClaimKeeps(cfg: Config, w: World, rid: nat)
    requires ValidConfig(cfg) && Inv(cfg, w) && WorkEnabled(cfg, w, RunClaim(rid))
    ensures Inv(cfg, WorkNext(w, RunClaim(rid)))
  {
    var op := MoveRun(rid, Queued, Running);
    var c' := w.ctl.(runTasks := w.ctl.runTasks[rid := Holding]);
    LedgerKept(cfg, w.db, op);
    FilesTx(w.db, w.fs, op);
    ProcsTx(cfg, w.db, w.fs, w.procs, op);
    OneActiveTx(w.db, w.ctl, op);
    ClaimTasks(w.db, w.ctl, c', rid);
    ClaimSwept(w.db, w.ctl, c', rid);
    ClaimPermits(w.ctl, c', rid);
  }

  /** A processing worker that moves its run out of the state it holds and ends. */
  lemma RunLeaves(cfg: Config, w: World, rid: nat, op: Op)
    requires ValidConfig(cfg) && Inv(cfg, w) && Idle(w.ctl) && rid in w.ctl.runTasks
    requires op.MoveRun? && op.rid == rid && IsRun(w.db, rid, op.rfrom) && op.rto in RunTransitions(op.rfrom)
    requires op.rto.Failed? || op.rto.AwaitingQa?
    ensures Inv(cfg, WithoutRunTask(Tx(w, op), rid))
  {
    var w' := WithoutRunTask(Tx(w, op), rid);
    LedgerKept(cfg, w.db, op);
    FilesTx(w.db, w.fs, op);
    ProcsTx(cfg, w.db, w.fs, w.procs, op);
    OneActiveTx(w.db, w.ctl, op);
    FewerTasks(w.db, w.ctl, w'.ctl);
    TasksTx(w.db, w'.ctl, op);
    SweptTx(w.db, w.ctl, op);
    FewerHolders(w.ctl, w'.ctl);
  }

  lemma FewerHolders(c: Ctl, c': Ctl)
    requires forall r :: r in c'.runTasks ==> r in c.runTasks && c'.runTasks[r] == c.runTasks[r]
    ensures |Holders(c')| <= |Holders(c)|
  {
    SmallerSet(Holders(c'), Holders(c));
  }

  lemma {:induction false} SmallerSet(a: set<nat>, b: set<nat>)
    requires a <= b
    ensures |a| <= |b|
  {
    if a != {} {
      var x :| x in a;
      SmallerSet(a - {x}, b - {x});
    }
  }

  lemma UnionSmall(a: set<nat>, b: set<nat>)
    ensures |a + b| <= |a| + |b|
  {
    assert |a + b| == |a| + |b - a| by {
      assert a + b == a + (b - a);
    }
    SmallerSet(b - a, b);
  }

  lemma RunDiesKeeps(cfg: Config, w: World, rid: nat)
    requires Inv(cfg, w)
    ensures Inv(cfg, Unswept(WithoutRunTask(w, rid)))
  {
    var w' := Unswept(WithoutRunTask(w, rid));
    FewerTasks(w.db, w.ctl, w'.ctl);
    FewerHolders(w.ctl, w'.ctl);
  }

  lemma WorkKeeps(cfg: Config, w: World, k: WorkStep)
    requires ValidConfig(cfg) && Inv(cfg, w) && WorkEnabled(cfg, w, k)
    ensures Inv(cfg, WorkNext(w, k))
  {
    match k {
      case ObsBegin(oid) => ObsBeginKeeps(cfg, w, oid);
      case ObsWrite(oid, bytes) =>
        assert ObsTaskOk(w.db, w.ctl, oid);
        LiveWriteKeeps(cfg, w, oid, bytes);
      case ObsEnd(oid, ok) => ObsEndKeeps(cfg, w, oid, ok);
      case ObsQuarantine(oid, name) =>
        QuarantineKeeps(cfg, w, oid, name);
      case ObsFail(oid, _) =>
        assert ObsTaskOk(w.db, w.ctl, oid);
        ObsLeaves(cfg, w, oid, FailOp(w.db, oid));
      case ObsStore(oid) =>
        assert ObsTaskOk(w.db, w.ctl, oid);
        ObsLeaves(cfg, w, oid, MoveObs(oid, Observing, Stored, Some(Bytes(w.fs.live, oid)), Some(0)));
      case ObsDies(oid) => ObsDiesKeeps(cfg, w, oid);
      case RunClaim(rid) => RunClaimKeeps(cfg, w, rid);
      case RunAbandon(rid) =>
        assert RunTaskOk(w.db, w.ctl, rid);
        RunLeaves(cfg, w, rid, MoveRun(rid, Queued, Failed));
      case RunWrite(rid, content) => OtherFilesKeep(cfg, w, WorkNext(w, k).fs);
      case RunDone(rid) =>
        assert RunTaskOk(w.db, w.ctl, rid);
        RunLeaves(cfg, w, rid, MoveRun(rid, Running, AwaitingQa));
      case RunFail(rid) =>
        assert RunTaskOk(w.db, w.ctl, rid);
        RunLeaves(cfg, w, rid, MoveRun(rid, Running, Failed));
      case RunDies(rid) => RunDiesKeeps(cfg, w, rid);
    }
  }

  // ---------------------------------------------------------------- deletions

  lemma DeleteFilesKeep(db: Db, fs: Fs, p: Proc, left: Option<nat>)
    requires FilesOk(db, fs) && ProcOk(db, fs, p) && RemovalOk(fs, p, left)
    ensures FilesOk(db, DeleteFs(fs, p, left))
  {
    forall oid: nat ensures FileOk(db, DeleteFs(fs, p, left), oid) {
      assert FileOk(db, fs, oid);
    }
  }

  /** What every other deletion has seen survives an action of this one. */
  lemma DeleteSeenKept(db: Db, fs: Fs, p: Proc, left: Option<nat>, q: Proc)
    requires ProcOk(db, fs, p) && ProcOk(db, fs, q)
    ensures ProcOk(db, DeleteFs(fs, p, left), q)
  {
  }

  lemma AdvanceOk(db: Db, fs: Fs, p: Proc, left: Option<nat>)
    requires FileOk(db, fs, p.oid) && ProcOk(db, fs, p) && Alive(p) && !p.pc.Commit?
    ensures ProcOk(db, DeleteFs(fs, p, left), Advance(db, fs, p, left))
  {
  }

  lemma CommitAdvanceOk(db: Db, fs: Fs, p: Proc)
    requires ProcOk(db, fs, p) && p.pc.Commit?
    ensures ProcOk(After(db, CommitOp(p)), fs, Advance(db, fs, p, None))
    ensures Advance(db, fs, p, None).pc.Finished? ==> !IsObs(db, p.oid, Deleted)
  {
    ObsFrame(db, CommitOp(p), p.oid);
  }

  lemma OthersSeenKept(db: Db, fs: Fs, procs: map<nat, Proc>, pid: nat, left: Option<nat>)
    requires ProcsOk(db, fs, procs) && pid in procs && Alive(procs[pid]) && !procs[pid].pc.Commit?
    requires FileOk(db, fs, procs[pid].oid)
    ensures ProcsOk(db, DeleteFs(fs, procs[pid], left), procs[pid := Advance(db, fs, procs[pid], left)])
  {
    var p := procs[pid];
    assert ProcOk(db, fs, p);
    AdvanceOk(db, fs, p, left);
    forall q | q in procs && q != pid ensures ProcOk(db, DeleteFs(fs, p, left), procs[q]) {
      assert ProcOk(db, fs, procs[q]);
      DeleteSeenKept(db, fs, p, left, procs[q]);
    }
  }

  lemma DeleteActs(cfg: Config, w: World, pid: nat, left: Option<nat>)
    requires Inv(cfg, w) && DeleteEnabled(w, pid, left) && !w.procs[pid].pc.Commit?
    ensures Inv(cfg, DeleteNext(w, pid, left))
  {
    var p := w.procs[pid];
    var w' := DeleteNext(w, pid, left);
    assert ProcOk(w.db, w.fs, p);
    assert FileOk(w.db, w.fs, p.oid);
    DeleteFilesKeep(w.db, w.fs, p, left);
    OthersSeenKept(w.db, w.fs, w.procs, pid, left);
    TasksElsewhere(w.db, w.ctl, w'.ctl);
    assert Holders(w'.ctl) == Holders(w.ctl);
    assert !w'.procs[pid].pc.Finished?;
  }

  lemma ForgetCacheKeeps(cfg: Config, w: World)
    requires Inv(cfg, w)
    ensures Inv(cfg, w.(ctl := w.ctl.(cache := None)))
  {
    var c' := w.ctl.(cache := None);
    assert Holders(c') == Holders(w.ctl);
    TasksElsewhere(w.db, w.ctl, c');
  }

  lemma ProcUpdateKeeps(cfg: Config, w: World, pid: nat, p: Proc)
    requires Inv(cfg, w) && pid in w.procs && ProcOk(w.db, w.fs, p)
    requires p.pc.Finished? ==> forall q :: q in w.procs && w.procs[q].oid == p.oid ==> !w.procs[q].pc.Finished?
    ensures Inv(cfg, w.(procs := w.procs[pid := p]))
  {
  }

  lemma NoneFinished(db: Db, fs: Fs, procs: map<nat, Proc>, oid: nat)
    requires ProcsOk(db, fs, procs) && !IsObs(db, oid, Deleted)
    ensures forall q :: q in procs && procs[q].oid == oid ==> !procs[q].pc.Finished?
  {
    forall q | q in procs && procs[q].oid == oid ensures !procs[q].pc.Finished? {
      assert ProcOk(db, fs, procs[q]);
    }
  }

  lemma CommitShape(w: World, pid: nat, left: Option<nat>)
    requires pid in w.procs && w.procs[pid].pc.Commit?
    ensures DeleteNext(w, pid, left) ==
      World(After(w.db, CommitOp(w.procs[pid])), w.fs,
        if w.procs[pid].mine then w.ctl.(cache := None) else w.ctl,
        w.procs[pid := Advance(w.db, w.fs, w.procs[pid], None)])
  {
  }

  lemma DeleteCommits(cfg: Config, w: World, pid: nat, left: Option<nat>)
    requires ValidConfig(cfg) && Inv(cfg, w) && pid in w.procs && w.procs[pid].pc.Commit?
    ensures Inv(cfg, DeleteNext(w, pid, left))
  {
    var p := w.procs[pid];
    assert ProcOk(w.db, w.fs, p);
    var db', p' := After(w.db, CommitOp(p)), Advance(w.db, w.fs, p, None);
    assert Inv(cfg, w.(db := db')) by {
      TxKeepsCommit(cfg, w, p);
    }
    assert ProcOk(db', w.fs, p') && (p'.pc.Finished? ==> !IsObs(w.db, p.oid, Deleted)) && p'.oid == p.oid by {
      CommitAdvanceOk(w.db, w.fs, p);
    }
    CommitShape(w, pid, left);
    FinishKeeps(cfg, w.(db := db'), pid, p', w.db);
  }

  lemma FinishKeeps(cfg: Config, w: World, pid: nat, p: Proc, before: Db)
    requires Inv(cfg, w) && pid in w.procs && ProcOk(w.db, w.fs, p)
    requires ProcsOk(before, w.fs, w.procs) && (p.pc.Finished? ==> !IsObs(before, p.oid, Deleted))
    ensures Inv(cfg, w.(procs := w.procs[pid := p]))
    ensures Inv(cfg, w.(procs := w.procs[pid := p], ctl := w.ctl.(cache := None)))
  {
    if p.pc.Finished? {
      NoneFinished(before, w.fs, w.procs, p.oid);
    }
    ProcUpdateKeeps(cfg, w, pid, p);
    ForgetCacheKeeps(cfg, w.(procs := w.procs[pid := p]));
  }

  lemma TxKeepsCommit(cfg: Config, w: World, p: Proc)
    requires ValidConfig(cfg) && Inv(cfg, w) && ProcOk(w.db, w.fs, p) && p.pc.Commit?
    ensures Inv(cfg, Tx(w, CommitOp(p)))
  {
    assert p.oid in w.ctl.obsTasks ==> ObsTaskOk(w.db, w.ctl, p.oid);
    TxKeeps(cfg, w, CommitOp(p));
  }

  lemma InterruptKeeps(cfg: Config, w: World, procs: map<nat, Proc>)
    requires Inv(cfg, w) && procs.Keys == w.procs.Keys
    requires forall q :: q in procs ==> procs[q] == w.procs[q] || procs[q] == Interrupt(w.procs[q])
    ensures Inv(cfg, w.(procs := procs))
  {
    forall q | q in procs ensures ProcOk(w.db, w.fs, procs[q]) {
      assert ProcOk(w.db, w.fs, w.procs[q]);
    }
  }

  lemma StartKeeps(cfg: Config, w: World)
    requires Inv(cfg, w)
    ensures Inv(cfg, w.(ctl := DownCtl.(phase := Recovering)))
  {
    assert Holders(DownCtl.(phase := Recovering)) == {};
  }

  lemma AbandonKeeps(cfg: Config, w: World)
    requires Inv(cfg, w)
    ensures Inv(cfg, w.(ctl := Abandoned(w.ctl)))
  {
    var c' := Abandoned(w.ctl);
    assert Holders(c') == {};
    forall oid | oid in c'.strays ensures IsObs(w.db, oid, Observing) {
      assert oid in w.ctl.obsTasks ==> ObsTaskOk(w.db, w.ctl, oid);
    }
    forall rid | rid in c'.strayRuns ensures IsRun(w.db, rid, Running) {
      assert rid in w.ctl.runTasks ==> RunTaskOk(w.db, w.ctl, rid);
    }
  }

  lemma RemarkKeeps(cfg: Config, w: World, note: Op)
    requires ValidConfig(cfg) && Inv(cfg, w) && (note.NoteObs? || note.NoteRun?)
    ensures Inv(cfg, Tx(w, note))
  {
    TxKeeps(cfg, w, note);
  }

  // ------------------------------------------------------------- every step

  /** Whatever happens next, the invariant survives it. */
  lemma StepKeeps(cfg: Config, w: World, s: Step)
    requires ValidConfig(cfg) && Inv(cfg, w) && Enabled(cfg, w, s)
    ensures Inv(cfg, Next(cfg, w, s))
  {
    match s {
      case Crash =>
        InterruptKeeps(cfg, w, Orphaned(w.procs));
        AbandonKeeps(cfg, w.(procs := Orphaned(w.procs)));
      case Start => StartKeeps(cfg, w);
      case Recovery(r) => RecoveryKeeps(cfg, w, r);
      case Tick(t) => TickKeeps(cfg, w, t);
      case Admit(a) => AdmitKeeps(cfg, w, a);
      case Work(k) => WorkKeeps(cfg, w, k);
      case Operate(c) => OperatorKeeps(cfg, w, c);
      case Delete(pid, left) =>
        if w.procs[pid].pc.Commit? { DeleteCommits(cfg, w, pid, left); } else { DeleteActs(cfg, w, pid, left); }
      case DeleteDies(pid) => InterruptKeeps(cfg, w, w.procs[pid := Interrupt(w.procs[pid])]);
      case Remark(note) => RemarkKeeps(cfg, w, note);
      case Stray(oid, bytes) => LiveWriteKeeps(cfg, w, oid, bytes);
      case StrayRun(rid, content) => OtherFilesKeep(cfg, w, Next(cfg, w, s).fs);
    }
  }

  /** The invariant holds at every point of every run, crashes and operators included. */
  lemma {:induction false} RunKeeps(cfg: Config, ws: seq<World>, steps: seq<Step>, i: nat)
    requires ValidConfig(cfg) && IsRunOf(cfg, ws, steps) && i < |ws|
    ensures Inv(cfg, ws[i])
  {
    if i == 0 {
      InvInit(cfg);
    } else {
      RunKeeps(cfg, ws, steps, i - 1);
      StepKeeps(cfg, ws[i - 1], steps[i - 1]);
    }
  }

  /** The same for any stretch of a run. */
  lemma {:induction false} PathKeeps(cfg: Config, w: World, steps: seq<Step>, w': World)
    requires ValidConfig(cfg) && Inv(cfg, w) && Path(cfg, w, steps, w')
    ensures Inv(cfg, w')
    decreases |steps|
  {
    if steps != [] {
      StepKeeps(cfg, w, steps[0]);
      PathKeeps(cfg, Next(cfg, w, steps[0]), steps[1..], w');
    }
  }

  lemma ReachesKeeps(cfg: Config, w: World, w': World)
    requires ValidConfig(cfg) && Inv(cfg, w) && Reaches(cfg, w, w')
    ensures Inv(cfg, w')
  {
    var steps :| Path(cfg, w, steps, w');
    PathKeeps(cfg, w, steps, w');
  }
}
