/**
 * Raw bytes on disk never exceed the threshold, at any step of any run: the charge counts
 * each observation once, although the program charges moved bytes twice for a moment.
 */
module Disk {
  import opened Models
  import Naming
  import opened StoreSpec
  import opened Totals
  import opened Protocol
  import opened Safety
  import opened SafetySteps

  /** Raw bytes of observations, wherever their measurement set is. */
  ghost function Raw(fs: Fs): nat {
    Total(fs.live) + Total(fs.trash)
  }

  /** All bytes that count against the threshold. */
  ghost function Physical(fs: Fs): nat {
    Raw(fs) + Total(fs.quarantine)
  }

  /** The runner of this observation is writing, has yet to be started, or has outlived the controller. */
  predicate MayWrite(db: Db, c: Ctl, oid: nat) {
    IsObs(db, oid, Planned) || ObsTaskIs(c, oid, Writing) || oid in c.strays
  }

  /** How far past their reservation writers may go: by `e` bytes, or without a bound. */
  predicate BytesFit(cfg: Config, e: Option<nat>, bytes: nat) {
    e.Some? ==> bytes <= cfg.reservation + e.value
  }

  /** No writer exceeds its reservation by more than this. */
  predicate WritesWithin(cfg: Config, e: Option<nat>, s: Step) {
    match s
    case Work(k) => k.ObsWrite? ==> BytesFit(cfg, e, k.bytes)
    case Stray(_, bytes) => BytesFit(cfg, e, bytes)
    case _ => true
  }

  predicate AllWithin(cfg: Config, e: Option<nat>, steps: seq<Step>) {
    forall i :: 0 <= i < |steps| ==> WritesWithin(cfg, e, steps[i])
  }

  /** No writer exceeds its reservation at all. */
  predicate WritesFit(cfg: Config, s: Step) {
    WritesWithin(cfg, Some(0), s)
  }

  predicate AllFit(cfg: Config, steps: seq<Step>) {
    forall i :: 0 <= i < |steps| ==> WritesFit(cfg, steps[i])
  }

  /** A step that fails a row although its measurement set could not be moved away. */
  predicate Swallows(s: Step) {
    match s
    case Tick(t) => t.SweepFailObs? && t.swallow
    case Work(k) => k.ObsFail? && k.swallow
    case _ => false
  }

  /** Writers keep to the bound, if there is one, and failed moves to quarantine are not swallowed. */
  predicate Clean(cfg: Config, e: Option<nat>, s: Step) {
    WritesWithin(cfg, e, s) && !Swallows(s)
  }

  /** Every observation that failed left its measurement set to quarantine. */
  predicate FailedAreGone(db: Db, fs: Fs) {
    forall oid :: 0 <= oid < |db.obs| && db.obs[oid].state.ObserveFailed? ==> oid !in fs.live
  }

  /**
   * The strengthened charge: what is there, plus what the one possible writer may still add. An overrun
   * is on top of the threshold only while it is being written: the next admission is charged with it.
   */
  ghost predicate WithinThreshold(cfg: Config, e: nat, db: Db, fs: Fs, c: Ctl) {
    && Physical(fs) <= cfg.threshold + e
    && (forall oid: nat :: MayWrite(db, c, oid) ==>
          Bytes(fs.live, oid) <= cfg.reservation + e && Physical(fs) + cfg.reservation <= cfg.threshold + Bytes(fs.live, oid))
  }

  /** What the admission test has read so far is no less than what is on disk now. */
  ghost predicate ReadsConservative(fs: Fs, a: Admission, cache: Option<CacheEntry>) {
    match a
    case NotAdmitting => true
    case ReadUsed(used) => Raw(fs) <= used
    case ReadLogical(logical) => Raw(fs) <= logical
    case ReadQStamp(logical, q) =>
      && Raw(fs) <= logical && q <= fs.qStamp
      && (cache.Some? && cache.value.qStamp == q ==> Total(fs.quarantine) <= cache.value.quarantine)
    case ReadStamps(logical, q, t) =>
      && Raw(fs) <= logical && q <= fs.qStamp && t <= fs.tStamp
      && (cache.Some? && cache.value.qStamp == q ==> Total(fs.quarantine) <= cache.value.quarantine)
    case WalkedQuarantine(logical, q, t, bytes) =>
      Raw(fs) <= logical && q <= fs.qStamp && t <= fs.tStamp && Total(fs.quarantine) <= bytes
    case Charged(total) => Physical(fs) <= total
  }

  /** As long as a stamp has not moved, the cached size is no less than the directory's. */
  ghost predicate CacheConservative(fs: Fs, cache: Option<CacheEntry>) {
    cache.Some? ==>
      var e := cache.value;
      && e.qStamp <= fs.qStamp && e.tStamp <= fs.tStamp
      && (e.qStamp == fs.qStamp ==> Total(fs.quarantine) <= e.quarantine)
      && (e.tStamp == fs.tStamp ==> Total(fs.trash) <= e.trash)
  }

  /** What the rows, the reads and the cache say about the files. Nothing is assumed of the writers. */
  ghost predicate ReadsOk(w: World) {
    && FailedAreGone(w.db, w.fs)
    && ReadsConservative(w.fs, w.ctl.admission, w.ctl.cache)
    && CacheConservative(w.fs, w.ctl.cache)
  }

  /** The reads, and the threshold when there is a bound on the writers. */
  ghost predicate DiskOk(cfg: Config, e: Option<nat>, w: World) {
    ReadsOk(w) && (e.Some? ==> WithinThreshold(cfg, e.value, w.db, w.fs, w.ctl))
  }

  // ------------------------------------------------ rows charge what they hold

  predicate Charges(db: Db, fs: Fs, oid: nat)
    requires oid < |db.obs|
  {
    Bytes(fs.live, oid) + Bytes(fs.trash, oid) <= if CountsAsUsed(db.obs[oid].state) then db.obs[oid].size else 0
  }

  lemma {:induction false} SumsCharged(db: Db, fs: Fs, n: nat)
    requires n <= |db.obs| && forall oid :: 0 <= oid < n ==> Charges(db, fs, oid)
    ensures SumTo(fs.live, n) + SumTo(fs.trash, n) <= UsedBytes(db.obs[..n])
  {
    if n > 0 {
      SumsCharged(db, fs, n - 1);
      assert db.obs[..n][..n - 1] == db.obs[..n - 1];
      assert Charges(db, fs, n - 1);
    }
  }

  /** With no observation planned or under way, the used bytes of the rows cover all raw bytes. */
  lemma UsedCoversRaw(db: Db, fs: Fs)
    requires FilesOk(db, fs) && NoneActive(db) && FailedAreGone(db, fs)
    ensures Raw(fs) <= UsedBytes(db.obs)
  {
    var n := |db.obs|;
    forall oid: nat | oid < n ensures Charges(db, fs, oid) {
      assert FileOk(db, fs, oid) && !UnderWay(db, oid);
    }
    SumsCharged(db, fs, n);
    assert db.obs[..n] == db.obs;
    forall k: nat | k in fs.live || k in fs.trash ensures k < n {
      assert FileOk(db, fs, k);
    }
    TotalIsSumTo(fs.live, n);
    TotalIsSumTo(fs.trash, n);
  }

  // ----------------------------------------------------------- file operations

  lemma QuarantineConserves(fs: Fs, oid: nat, name: string)
    requires oid in fs.live && name !in fs.quarantine
    ensures Raw(MoveToQuarantine(fs, oid, name)) + Bytes(fs.live, oid) == Raw(fs)
    ensures Physical(MoveToQuarantine(fs, oid, name)) == Physical(fs)
  {
    TotalRemove(fs.live, oid);
    TotalUpdate(fs.quarantine, name, fs.live[oid]);
  }

  lemma TrimShrinks<K>(m: map<K, nat>, k: K, left: Option<nat>)
    requires Shrinks(m, k, left)
    ensures Total(Trim(m, k, left)) <= Total(m)
  {
    if left.Some? {
      TotalUpdate(m, k, left.value);
    } else {
      TotalRemove(m, k);
    }
  }

  /** An action of a deletion moves or removes bytes and never makes any. */
  lemma DeleteShrinks(fs: Fs, p: Proc, left: Option<nat>)
    requires RemovalOk(fs, p, left)
    ensures Raw(DeleteFs(fs, p, left)) <= Raw(fs)
    ensures DeleteFs(fs, p, left).quarantine == fs.quarantine && DeleteFs(fs, p, left).qStamp == fs.qStamp
    ensures DeleteFs(fs, p, left).tStamp >= fs.tStamp
    ensures DeleteFs(fs, p, left).tStamp == fs.tStamp ==> Total(DeleteFs(fs, p, left).trash) <= Total(fs.trash)
  {
    match p.pc {
      case Rename =>
        if p.oid in fs.live && p.oid !in fs.trash {
          TotalRemove(fs.live, p.oid);
          TotalUpdate(fs.trash, p.oid, fs.live[p.oid]);
        }
      case RemoveLive => if p.oid in fs.live { TrimShrinks(fs.live, p.oid, left); }
      case Remove => if p.oid in fs.trash { TrimShrinks(fs.trash, p.oid, left); }
      case _ =>
    }
  }

  // -------------------------------------------------------------- preservation

  /** Steps that leave raw files alone and give nobody a new right to write. */
  lemma DiskCalm(cfg: Config, e: Option<nat>, w: World, w': World)
    requires DiskOk(cfg, e, w)
    requires w'.fs.live == w.fs.live && w'.fs.trash == w.fs.trash && w'.fs.quarantine == w.fs.quarantine
    requires w'.fs.qStamp == w.fs.qStamp && w'.fs.tStamp == w.fs.tStamp
    requires forall oid: nat :: MayWrite(w'.db, w'.ctl, oid) ==> MayWrite(w.db, w.ctl, oid)
    requires forall oid: nat :: IsObs(w'.db, oid, ObserveFailed) ==> IsObs(w.db, oid, ObserveFailed) || oid !in w.fs.live
    requires w'.ctl.admission == w.ctl.admission || w'.ctl.admission.NotAdmitting?
    requires w'.ctl.cache == w.ctl.cache || w'.ctl.cache.None?
    ensures DiskOk(cfg, e, w')
  {
    forall oid | 0 <= oid < |w'.db.obs| && w'.db.obs[oid].state.ObserveFailed? ensures oid !in w'.fs.live {
      assert IsObs(w'.db, oid, ObserveFailed);
    }
  }

  /** Raw bytes only go away while nobody may write them: reads made earlier stay conservative. */
  lemma DiskShrinks(cfg: Config, e: Option<nat>, w: World, w': World)
    requires DiskOk(cfg, e, w) && w'.db == w.db && w'.ctl.obsTasks == w.ctl.obsTasks && w'.ctl.strays == w.ctl.strays
    requires w'.ctl.admission == w.ctl.admission && (w'.ctl.cache == w.ctl.cache || w'.ctl.cache.None?)
    requires Raw(w'.fs) <= Raw(w.fs) && Total(w'.fs.quarantine) <= Total(w.fs.quarantine)
    requires w'.fs.live.Keys <= w.fs.live.Keys
    requires w'.fs.qStamp >= w.fs.qStamp && w'.fs.tStamp >= w.fs.tStamp
    requires w'.fs.tStamp == w.fs.tStamp ==> Total(w'.fs.trash) <= Total(w.fs.trash)
    requires forall oid: nat :: MayWrite(w.db, w.ctl, oid) ==> Bytes(w'.fs.live, oid) == Bytes(w.fs.live, oid)
    ensures DiskOk(cfg, e, w')
  {
    forall oid: nat | MayWrite(w'.db, w'.ctl, oid) ensures MayWrite(w.db, w.ctl, oid) {
    }
  }

  lemma TxCalm(cfg: Config, db: Db, fs: Fs, c: Ctl, op: Op)
    requires !op.CreateObs?
    requires op.MoveObs? && op.oto.ObserveFailed? && IsObs(db, op.oid, op.ofrom) ==> op.oid !in fs.live
    ensures forall oid: nat :: MayWrite(After(db, op), c, oid) ==> MayWrite(db, c, oid)
    ensures forall oid: nat :: IsObs(After(db, op), oid, ObserveFailed) ==> IsObs(db, oid, ObserveFailed) || oid !in fs.live
  {
    forall oid: nat
      ensures IsObs(After(db, op), oid, Planned) ==> IsObs(db, oid, Planned)
      ensures IsObs(After(db, op), oid, ObserveFailed) ==> IsObs(db, oid, ObserveFailed) || oid !in fs.live
    {
      ObsFrame(db, op, oid);
    }
  }

  lemma DiskTx(cfg: Config, e: Option<nat>, w: World, op: Op)
    requires DiskOk(cfg, e, w) && !op.CreateObs?
    requires op.MoveObs? && op.oto.ObserveFailed? && IsObs(w.db, op.oid, op.ofrom) ==> op.oid !in w.fs.live
    ensures DiskOk(cfg, e, Tx(w, op))
  {
    TxCalm(cfg, w.db, w.fs, w.ctl, op);
    DiskCalm(cfg, e, w, Tx(w, op));
  }

  lemma DiskQuarantine(cfg: Config, e: Option<nat>, w: World, oid: nat, name: string)
    requires DiskOk(cfg, e, w) && CanQuarantine(w, oid, name) && w.ctl.admission.NotAdmitting?
    requires !MayWrite(w.db, w.ctl, oid)
    ensures DiskOk(cfg, e, Quarantined(w, oid, name))
  {
    var w' := Quarantined(w, oid, name);
    QuarantineConserves(w.fs, oid, name);
    forall o: nat | MayWrite(w'.db, w'.ctl, o)
      ensures MayWrite(w.db, w.ctl, o) && Bytes(w'.fs.live, o) == Bytes(w.fs.live, o)
    {
    }
    assert e.Some? ==> WithinThreshold(cfg, e.value, w'.db, w'.fs, w'.ctl);
  }

  lemma DiskWrite(cfg: Config, e: Option<nat>, w: World, oid: nat, bytes: nat)
    requires DiskOk(cfg, e, w) && MayWrite(w.db, w.ctl, oid) && BytesFit(cfg, e, bytes)
    requires OneActive(w.db, w.ctl) && TasksOk(w.db, w.ctl) && StraysOk(w.db, w.ctl) && !IsObs(w.db, oid, ObserveFailed)
    ensures DiskOk(cfg, e, w.(fs := w.fs.(live := w.fs.live[oid := bytes])))
  {
    TotalUpdate(w.fs.live, oid, bytes);
    WriterIsActive(w.db, w.ctl, oid);
    assert w.ctl.admission.NotAdmitting?;
    forall o: nat | MayWrite(w.db, w.ctl, o) ensures o == oid {
      WriterIsActive(w.db, w.ctl, o);
    }
  }

  lemma DiskDelete(cfg: Config, e: Option<nat>, w: World, pid: nat, left: Option<nat>)
    requires Inv(cfg, w) && DiskOk(cfg, e, w) && DeleteEnabled(w, pid, left)
    ensures DiskOk(cfg, e, DeleteNext(w, pid, left))
  {
    var p := w.procs[pid];
    assert ProcOk(w.db, w.fs, p);
    if p.pc.Commit? {
      DiskTx(cfg, e, w, CommitOp(p));
      CommitShape(w, pid, left);
      DiskCalm(cfg, e, Tx(w, CommitOp(p)), DeleteNext(w, pid, left));
    } else {
      DeleteShrinks(w.fs, p, left);
      forall o: nat | MayWrite(w.db, w.ctl, o) ensures Bytes(DeleteFs(w.fs, p, left).live, o) == Bytes(w.fs.live, o) {
        WriterIsActive(w.db, w.ctl, o);
      }
      DiskShrinks(cfg, e, w, DeleteNext(w, pid, left));
    }
  }

  lemma DiskPurge(cfg: Config, e: Option<nat>, w: World, name: string, left: Option<nat>)
    requires DiskOk(cfg, e, w) && Shrinks(w.fs.quarantine, name, left)
    ensures DiskOk(cfg, e, OperatorNext(w, OpPurge(name, left)))
  {
    TrimShrinks(w.fs.quarantine, name, left);
    DiskShrinks(cfg, e, w, OperatorNext(w, OpPurge(name, left)));
  }

  lemma DiskRecovery(cfg: Config, e: Option<nat>, w: World, r: RecoveryStep)
    requires Inv(cfg, w) && DiskOk(cfg, e, w) && RecoveryEnabled(w, r)
    ensures DiskOk(cfg, e, RecoveryNext(w, r))
  {
    match r {
      case RecQuarantine(oid, name) => DiskQuarantine(cfg, e, w, oid, name);
      case RecFailObs(oid) => DiskTx(cfg, e, w, MoveObs(oid, Observing, ObserveFailed, None, Some(0)));
      case RecCleanRun(rid, left) => DiskCalm(cfg, e, w, RecoveryNext(w, r));
      case RecFailRun(rid) => DiskTx(cfg, e, w, MoveRun(rid, Running, Failed));
      case RecResume(oid) => DiskTx(cfg, e, w, MoveObs(oid, Stored, Deleting, None, None));
      case RecDelete(pid, oid) => DiskCalm(cfg, e, w, RecoveryNext(w, r));
      case RecMissing(oid) => DiskTx(cfg, e, w, MoveObs(oid, Stored, Inconsistent, Some(0), Some(0)));
      case RecOrphan(oid, name) => DiskQuarantine(cfg, e, w, oid, name);
      case RecDone => DiskCalm(cfg, e, w, RecoveryNext(w, r));
    }
  }

  lemma DiskTick(cfg: Config, e: Option<nat>, w: World, t: TickStep)
    requires Inv(cfg, w) && DiskOk(cfg, e, w) && TickEnabled(w, t) && Clean(cfg, e, Tick(t))
    ensures DiskOk(cfg, e, TickNext(cfg, w, t))
  {
    match t {
      case SweepQuarantine(oid, name) => DiskQuarantine(cfg, e, w, oid, name);
      case SweepFailObs(oid, _) => DiskTx(cfg, e, w, MoveObs(oid, Observing, ObserveFailed, None, Some(0)));
      case SweepFailRun(rid) => DiskTx(cfg, e, w, MoveRun(rid, Running, Failed));
      case MarkSpent => DiskTx(cfg, e, w, MarkExhausted(cfg.attempts));
      case RetryBlocked(rid) =>
        DiskTx(cfg, e, w, MarkRunExhausted(rid));
        DiskCalm(cfg, e, Tx(w, MarkRunExhausted(rid)), TickNext(cfg, w, t));
      case RetryRequeue(rid) =>
        DiskTx(cfg, e, w, MoveRun(rid, Failed, Queued));
        DiskCalm(cfg, e, Tx(w, MoveRun(rid, Failed, Queued)), TickNext(cfg, w, t));
      case FirstRun(oid) => DiskTx(cfg, e, w, CreateRun(oid, Naming.RunDir(oid, 1)));
      case _ => DiskCalm(cfg, e, w, TickNext(cfg, w, t));
    }
  }

  lemma DiskRead(cfg: Config, e: Option<nat>, w: World, admission: Admission, cache: Option<CacheEntry>)
    requires DiskOk(cfg, e, w) && ReadsConservative(w.fs, admission, cache) && CacheConservative(w.fs, cache)
    ensures DiskOk(cfg, e, w.(ctl := w.ctl.(admission := admission, cache := cache)))
  {
    var c' := w.ctl.(admission := admission, cache := cache);
    forall o: nat | MayWrite(w.db, c', o) ensures MayWrite(w.db, w.ctl, o) {
    }
  }

  /** Each read of the admission test is conservative, and stays so until the test decides. */
  lemma AdmitReadsConservative(cfg: Config, w: World, a: AdmitStep)
    requires FilesOk(w.db, w.fs) && ReadsOk(w) && AdmitEnabled(cfg, w, a)
    ensures ReadsConservative(w.fs, AdmitNext(cfg, w, a).ctl.admission, AdmitNext(cfg, w, a).ctl.cache)
    ensures CacheConservative(w.fs, AdmitNext(cfg, w, a).ctl.cache)
  {
    match a {
      case AdmitUsed => UsedCoversRaw(w.db, w.fs);
      case AdmitCached => CachedCovers(w.fs, w.ctl);
      case _ =>
    }
  }

  /** A cache hit covers all that is on disk now, even if an operator moved or purged data since the stamps were read. */
  lemma CachedCovers(fs: Fs, c: Ctl)
    requires ReadsConservative(fs, c.admission, c.cache) && CacheHit(c)
    ensures Physical(fs) <= c.admission.logical + c.cache.value.quarantine + c.cache.value.trash
  {
  }

  lemma DiskAdmit(cfg: Config, e: Option<nat>, w: World, a: AdmitStep)
    requires ValidConfig(cfg) && Inv(cfg, w) && DiskOk(cfg, e, w) && AdmitEnabled(cfg, w, a)
    ensures DiskOk(cfg, e, AdmitNext(cfg, w, a))
  {
    if a.AdmitInsert? {
      DiskInsert(cfg, e, w);
    } else {
      var c' := AdmitNext(cfg, w, a).ctl;
      AdmitReadsConservative(cfg, w, a);
      DiskRead(cfg, e, w, c'.admission, c'.cache);
    }
  }

  lemma WriterIsActive(db: Db, c: Ctl, oid: nat)
    requires TasksOk(db, c) && StraysOk(db, c) && MayWrite(db, c, oid)
    ensures UnderWay(db, oid)
  {
    assert oid in c.obsTasks ==> ObsTaskOk(db, c, oid);
  }

  lemma DiskInsert(cfg: Config, e: Option<nat>, w: World)
    requires Inv(cfg, w) && DiskOk(cfg, e, w) && AdmitEnabled(cfg, w, AdmitInsert)
    ensures DiskOk(cfg, e, AdmitNext(cfg, w, AdmitInsert))
  {
    var w' := AdmitNext(cfg, w, AdmitInsert);
    var n := |w.db.obs|;
    assert FileOk(w.db, w.fs, n);
    forall o: nat | MayWrite(w'.db, w'.ctl, o) ensures o == n {
      if MayWrite(w.db, w.ctl, o) {
        WriterIsActive(w.db, w.ctl, o);
      }
    }
  }

  lemma DiskWork(cfg: Config, e: Option<nat>, w: World, k: WorkStep)
    requires Inv(cfg, w) && DiskOk(cfg, e, w) && WorkEnabled(cfg, w, k) && Clean(cfg, e, Work(k))
    ensures DiskOk(cfg, e, WorkNext(w, k))
  {
    match k {
      case ObsBegin(oid) =>
        assert ObsTaskOk(w.db, w.ctl, oid);
        var op := MoveObs(oid, Planned, Observing, None, None);
        TxCalm(cfg, w.db, w.fs, w.ctl, op);
        DiskCalm(cfg, e, w, WorkNext(w, k));
      case ObsWrite(oid, bytes) =>
        assert ObsTaskOk(w.db, w.ctl, oid);
        DiskWrite(cfg, e, w, oid, bytes);
      case ObsQuarantine(oid, name) =>
        assert ObsTaskOk(w.db, w.ctl, oid);
        DiskQuarantine(cfg, e, w, oid, name);
      case ObsFail(oid, _) =>
        assert ObsTaskOk(w.db, w.ctl, oid);
        assert FileOk(w.db, w.fs, oid);
        DiskTx(cfg, e, w, FailOp(w.db, oid));
        DiskCalm(cfg, e, Tx(w, FailOp(w.db, oid)), WorkNext(w, k));
      case ObsStore(oid) =>
        var op := MoveObs(oid, Observing, Stored, Some(Bytes(w.fs.live, oid)), Some(0));
        DiskTx(cfg, e, w, op);
        DiskCalm(cfg, e, Tx(w, op), WorkNext(w, k));
      case RunClaim(rid) =>
        DiskTx(cfg, e, w, MoveRun(rid, Queued, Running));
        DiskCalm(cfg, e, Tx(w, MoveRun(rid, Queued, Running)), WorkNext(w, k));
      case RunAbandon(rid) =>
        DiskTx(cfg, e, w, MoveRun(rid, Queued, Failed));
        DiskCalm(cfg, e, Tx(w, MoveRun(rid, Queued, Failed)), WorkNext(w, k));
      case RunDone(rid) =>
        DiskTx(cfg, e, w, MoveRun(rid, Running, AwaitingQa));
        DiskCalm(cfg, e, Tx(w, MoveRun(rid, Running, AwaitingQa)), WorkNext(w, k));
      case RunFail(rid) =>
        DiskTx(cfg, e, w, MoveRun(rid, Running, Failed));
        DiskCalm(cfg, e, Tx(w, MoveRun(rid, Running, Failed)), WorkNext(w, k));
      case _ => DiskCalm(cfg, e, w, WorkNext(w, k));
    }
  }

  lemma DiskOperator(cfg: Config, e: Option<nat>, w: World, c: OperatorStep)
    requires DiskOk(cfg, e, w) && OperatorEnabled(w, c)
    ensures DiskOk(cfg, e, OperatorNext(w, c))
  {
    match c {
      case OpAccept(pid, rid) =>
        DiskTx(cfg, e, w, Accept(rid));
        DiskCalm(cfg, e, Tx(w, Accept(rid)), OperatorNext(w, c));
      case OpDiscard(pid, rid) =>
        DiskTx(cfg, e, w, Discard(rid));
        DiskCalm(cfg, e, Tx(w, Discard(rid)), OperatorNext(w, c));
      case OpReprocess(rid) =>
        DiskTx(cfg, e, w, Reprocess(rid, Naming.RunDir(w.db.runs[rid].oid, w.db.runs[rid].attempt + 1)));
      case OpDrop(pid, oid) => DiskCalm(cfg, e, w, OperatorNext(w, c));
      case OpPurge(name, left) => DiskPurge(cfg, e, w, name, left);
    }
  }

  lemma DiskStep(cfg: Config, e: Option<nat>, w: World, s: Step)
    requires ValidConfig(cfg) && Inv(cfg, w) && DiskOk(cfg, e, w) && Enabled(cfg, w, s) && Clean(cfg, e, s)
    ensures DiskOk(cfg, e, Next(cfg, w, s))
  {
    match s {
      case Recovery(r) => DiskRecovery(cfg, e, w, r);
      case Tick(t) => DiskTick(cfg, e, w, t);
      case Admit(a) => DiskAdmit(cfg, e, w, a);
      case Work(k) => DiskWork(cfg, e, w, k);
      case Operate(c) => DiskOperator(cfg, e, w, c);
      case Delete(pid, left) => DiskDelete(cfg, e, w, pid, left);
      case Remark(note) => DiskTx(cfg, e, w, note);
      case Stray(oid, bytes) => DiskWrite(cfg, e, w, oid, bytes);
      case _ => DiskCalm(cfg, e, w, Next(cfg, w, s));
    }
  }

  /** Any stretch of a run whose writers keep to the bound, if there is one, and whose quarantine moves succeed. */
  lemma {:induction false} DiskPath(cfg: Config, e: Option<nat>, w: World, steps: seq<Step>, w': World)
    requires ValidConfig(cfg) && Inv(cfg, w) && DiskOk(cfg, e, w) && Path(cfg, w, steps, w')
    requires forall s :: s in steps ==> Clean(cfg, e, s)
    ensures DiskOk(cfg, e, w')
    decreases |steps|
  {
    if steps != [] {
      StepKeeps(cfg, w, steps[0]);
      DiskStep(cfg, e, w, steps[0]);
      DiskPath(cfg, e, Next(cfg, w, steps[0]), steps[1..], w');
    }
  }

  lemma DiskInit(cfg: Config, e: Option<nat>)
    ensures DiskOk(cfg, e, InitialWorld)
  {
    var fs := InitialWorld.fs;
    assert Total(fs.live) == 0 && Total(fs.trash) == 0 && Total(fs.quarantine) == 0;
    assert forall o: nat :: !MayWrite(EmptyDb, DownCtl, o);
  }

  /**
   * Disk safety: in every run whose quarantine moves succeed and in which no writer exceeds its
   * reservation by more than `e`, crashes and operators at any point, the raw bytes on disk never exceed
   * the threshold by more than `e`, however many observations overran. Without overruns `e` is zero.
   */
  lemma {:induction false} DiskSafety(cfg: Config, e: nat, ws: seq<World>, steps: seq<Step>, i: nat)
    requires ValidConfig(cfg) && IsRunOf(cfg, ws, steps) && i < |ws|
    requires forall j :: 0 <= j < |steps| ==> Clean(cfg, Some(e), steps[j])
    ensures DiskOk(cfg, Some(e), ws[i]) && Physical(ws[i].fs) <= cfg.threshold + e
  {
    if i == 0 {
      DiskInit(cfg, Some(e));
    } else {
      DiskSafety(cfg, e, ws, steps, i - 1);
      RunKeeps(cfg, ws, steps, i - 1);
      DiskStep(cfg, Some(e), ws[i - 1], steps[i - 1]);
    }
  }
}
