/**
 * The whole controller as one transition system: the store, the files, the volatile state of
 * the controller process, and any number of deletions in progress. A step is one store
 * transaction, one file operation, one read that is used later, or the death of a process;
 * steps of the controller, of its runners and of operator commands interleave freely, except
 * that a tick is not interleaved with the controller's own workers.
 */
module Protocol {
  import opened Models
  import opened Naming
  import opened StoreSpec
  import opened Totals

  // ------------------------------------------------------------------ state

  /**
   * Live measurement sets and trash copies by observation, quarantine entries by name and
   * product directories by path. The two stamps are the top-level modification times.
   */
  datatype Fs = Fs(
    live: map<nat, nat>,
    trash: map<nat, nat>,
    quarantine: map<string, nat>,
    products: map<string, nat>,
    qStamp: nat,
    tStamp: nat)

  datatype Phase = Down | Recovering | Serving

  /** An observation worker: created, its runner writing, or its runner gone. */
  datatype ObsTask = Fresh | Writing | Ended(ok: bool)

  /** A processing worker: waiting for a permit, or holding one. */
  datatype RunTask = Waiting | Holding

  datatype CacheEntry = CacheEntry(qStamp: nat, tStamp: nat, quarantine: nat, trash: nat)

  /** How far the admission test has read. */
  datatype Admission =
    | NotAdmitting
    | ReadUsed(used: nat)
    | ReadLogical(logical: nat)
    | ReadQStamp(logical: nat, q: nat)
    | ReadStamps(logical: nat, q: nat, t: nat)
    | WalkedQuarantine(logical: nat, q: nat, t: nat, bytes: nat)
    | Charged(total: nat)

  /**
   * The controller process. When it dies it forgets everything; only the containers of its runners
   * live on, as `strays`, until the next start has removed them.
   */
  datatype Ctl = Ctl(
    phase: Phase,
    obsTasks: map<nat, ObsTask>,
    runTasks: map<nat, RunTask>,
    admission: Admission,
    retry: set<nat>,
    swept: bool,
    cache: Option<CacheEntry>,
    strays: set<nat>,
    strayRuns: set<nat>)

  /** The next action of a deletion: tests and uses of a path are separate steps. */
  datatype Pc =
    | Begin | TestLive | TestTrash | Rename | RemoveLive | TestRemove | Remove | Commit
    | Finished | Stopped(why: Error)

  /**
   * One execution of the safe deletion, or of the forced drop, on one observation; `mine`
   * says that it runs inside the controller, `seen` is the row state it read at its start.
   */
  datatype Proc = Proc(drop: bool, mine: bool, oid: nat, seen: ObsState, pc: Pc)

  datatype World = World(db: Db, fs: Fs, ctl: Ctl, procs: map<nat, Proc>)

  const DownCtl := Ctl(Down, map[], map[], NotAdmitting, {}, false, None, {}, {})

  const InitialWorld := World(EmptyDb, Fs(map[], map[], map[], map[], 0, 0), DownCtl, map[])

  // ------------------------------------------------------- shared definitions

  /** The controller is serving and no tick is in the middle of its retry list or admission test. */
  predicate Idle(c: Ctl) {
    c.phase.Serving? && c.admission.NotAdmitting? && c.retry == {}
  }

  /** Idle, and the sweep of this tick has run. */
  predicate Ticking(c: Ctl) {
    Idle(c) && c.swept
  }

  predicate ObsTaskIs(c: Ctl, oid: nat, t: ObsTask) {
    oid in c.obsTasks && c.obsTasks[oid] == t
  }

  predicate RunTaskIs(c: Ctl, rid: nat, t: RunTask) {
    rid in c.runTasks && c.runTasks[rid] == t
  }

  function Holders(c: Ctl): set<nat> {
    set r | r in c.runTasks && c.runTasks[r].Holding?
  }

  /** Planned or observing. */
  predicate UnderWay(db: Db, o: nat) {
    o < |db.obs| && CountsAsReserved(db.obs[o].state)
  }

  predicate NoneActive(db: Db) {
    forall o :: 0 <= o < |db.obs| ==> !UnderWay(db, o)
  }

  predicate HasCapacity(cfg: Config, db: Db) {
    cfg.maxObs.None? || |db.obs| < cfg.maxObs.value
  }

  predicate NoOrphans(db: Db, c: Ctl) {
    && (forall o :: 0 <= o < |db.obs| && db.obs[o].state.Observing? ==> o in c.obsTasks)
    && (forall r :: 0 <= r < |db.runs| && db.runs[r].state.Running? ==> r in c.runTasks)
  }

  /** A partially removed tree is no larger than it was. */
  predicate Shrinks<K(==)>(m: map<K, nat>, k: K, left: Option<nat>) {
    k in m && (left.Some? ==> left.value <= m[k])
  }

  function Trim<K>(m: map<K, nat>, k: K, left: Option<nat>): map<K, nat> {
    if left.Some? then m[k := left.value] else m - {k}
  }

  function DirOf(db: Db, rid: nat): string {
    if rid < |db.runs| then db.runs[rid].dir else ""
  }

  /** The world after one store transaction. */
  function Tx(w: World, op: Op): World {
    w.(db := After(w.db, op))
  }

  function MoveToQuarantine(fs: Fs, oid: nat, name: string): Fs {
    fs.(live := fs.live - {oid}, quarantine := fs.quarantine[name := Bytes(fs.live, oid)], qStamp := fs.qStamp + 1)
  }

  /** A quarantine move by the controller, which also forgets its cached sizes. */
  function Quarantined(w: World, oid: nat, name: string): World {
    w.(fs := MoveToQuarantine(w.fs, oid, name), ctl := w.ctl.(cache := None))
  }

  function WithProducts(w: World, rid: nat, left: Option<nat>): World {
    w.(fs := w.fs.(products := Trim(w.fs.products, DirOf(w.db, rid), left)))
  }

  predicate CanQuarantine(w: World, oid: nat, name: string) {
    oid in w.fs.live && name !in w.fs.quarantine
  }

  // -------------------------------------------------------- startup recovery

  datatype RecoveryStep =
    | RecQuarantine(oid: nat, name: string)
    | RecFailObs(oid: nat)
    | RecCleanRun(rid: nat, left: Option<nat>)
    | RecFailRun(rid: nat)
    | RecResume(oid: nat)
    | RecDelete(pid: nat, oid: nat)
    | RecMissing(oid: nat)
    | RecOrphan(oid: nat, name: string)
    | RecDone

  /** The legacy repair still to be made once interrupted runs have been failed. */
  predicate ResumePending(db: Db, oid: nat) {
    HasRunIn(db, oid, Accepted) && !HasRunIn(db, oid, Queued) && !HasRunIn(db, oid, AwaitingQa)
  }

  predicate RecoveryEnabled(w: World, s: RecoveryStep) {
    && w.ctl.phase.Recovering?
    && match s
       case RecQuarantine(oid, name) => IsObs(w.db, oid, Observing) && CanQuarantine(w, oid, name)
       case RecFailObs(oid) => IsObs(w.db, oid, Observing) && oid !in w.fs.live
       case RecCleanRun(rid, left) => IsRun(w.db, rid, Running) && DirOf(w.db, rid) in w.fs.products
       case RecFailRun(rid) => IsRun(w.db, rid, Running) && DirOf(w.db, rid) !in w.fs.products
       case RecResume(oid) => IsObs(w.db, oid, Stored) && HasRunIn(w.db, oid, Accepted) && !HasActive(w.db, oid)
       case RecDelete(pid, oid) => IsObs(w.db, oid, Deleting) && pid !in w.procs
       case RecMissing(oid) => IsObs(w.db, oid, Stored) && oid !in w.fs.live && !ResumePending(w.db, oid)
       case RecOrphan(oid, name) => oid >= |w.db.obs| && CanQuarantine(w, oid, name)
       case RecDone => forall p :: p in w.procs && w.procs[p].mine ==> !Alive(w.procs[p])
  }

  function RecoveryNext(w: World, s: RecoveryStep): World {
    match s
    case RecQuarantine(oid, name) => Quarantined(w, oid, name)
    case RecFailObs(oid) => Tx(w, MoveObs(oid, Observing, ObserveFailed, None, Some(0)))
    case RecCleanRun(rid, left) => WithProducts(w, rid, left)
    case RecFailRun(rid) => Tx(w, MoveRun(rid, Running, Failed))
    case RecResume(oid) => Tx(w, MoveObs(oid, Stored, Deleting, None, None))
    case RecDelete(pid, oid) => w.(procs := w.procs[pid := Proc(false, true, oid, Deleting, Begin)])
    case RecMissing(oid) => Tx(w, MoveObs(oid, Stored, Inconsistent, Some(0), Some(0)))
    case RecOrphan(oid, name) => Quarantined(w, oid, name)
    case RecDone => w.(ctl := w.ctl.(phase := Serving))
  }

  // ------------------------------------------------------ one scheduler tick

  datatype TickStep =
    | SweepQuarantine(oid: nat, name: string)
    | SweepFailObs(oid: nat, swallow: bool)
    | SweepFailRun(rid: nat)
    | SweepDone
    | MarkSpent
    | ListRetryable
    | RetryClean(rid: nat, left: Option<nat>)
    | RetryBlocked(rid: nat)
    | RetryRequeue(rid: nat)
    | ResumePlanned(oid: nat)
    | FirstRun(oid: nat)
    | TrackRun(rid: nat)

  /** `swallow` lets a row fail although its measurement set could not be moved away. */
  predicate TickEnabled(w: World, s: TickStep) {
    match s
    case SweepQuarantine(oid, name) =>
      Idle(w.ctl) && IsObs(w.db, oid, Observing) && oid !in w.ctl.obsTasks && CanQuarantine(w, oid, name)
    case SweepFailObs(oid, swallow) =>
      Idle(w.ctl) && IsObs(w.db, oid, Observing) && oid !in w.ctl.obsTasks && (oid !in w.fs.live || swallow)
    case SweepFailRun(rid) => Idle(w.ctl) && IsRun(w.db, rid, Running) && rid !in w.ctl.runTasks
    case SweepDone => Idle(w.ctl) && NoOrphans(w.db, w.ctl)
    case MarkSpent => Ticking(w.ctl)
    case ListRetryable => Ticking(w.ctl)
    case RetryClean(rid, left) => rid in w.ctl.retry && DirOf(w.db, rid) in w.fs.products
    case RetryBlocked(rid) => rid in w.ctl.retry
    case RetryRequeue(rid) => rid in w.ctl.retry && DirOf(w.db, rid) !in w.fs.products
    case ResumePlanned(oid) => Ticking(w.ctl) && IsObs(w.db, oid, Planned) && oid !in w.ctl.obsTasks
    case FirstRun(oid) => Ticking(w.ctl) && NeedsRun(w.db, oid)
    case TrackRun(rid) => Ticking(w.ctl) && IsRun(w.db, rid, Queued) && rid !in w.ctl.runTasks
  }

  function WithoutRetry(w: World, rid: nat): World {
    w.(ctl := w.ctl.(retry := w.ctl.retry - {rid}))
  }

  function RetryList(cfg: Config, db: Db): set<nat> {
    set r | 0 <= r < |db.runs| && Retryable(db, cfg.attempts, r)
  }

  function TickNext(cfg: Config, w: World, s: TickStep): World {
    match s
    case SweepQuarantine(oid, name) => Quarantined(w, oid, name)
    case SweepFailObs(oid, _) => Tx(w, MoveObs(oid, Observing, ObserveFailed, None, Some(0)))
    case SweepFailRun(rid) => Tx(w, MoveRun(rid, Running, Failed))
    case SweepDone => w.(ctl := w.ctl.(swept := true))
    case MarkSpent => Tx(w, MarkExhausted(cfg.attempts))
    case ListRetryable => w.(ctl := w.ctl.(retry := RetryList(cfg, w.db)))
    case RetryClean(rid, left) => WithProducts(w, rid, left)
    case RetryBlocked(rid) => WithoutRetry(Tx(w, MarkRunExhausted(rid)), rid)
    case RetryRequeue(rid) => WithoutRetry(Tx(w, MoveRun(rid, Failed, Queued)), rid)
    case ResumePlanned(oid) => w.(ctl := w.ctl.(obsTasks := w.ctl.obsTasks[oid := Fresh]))
    case FirstRun(oid) => Tx(w, CreateRun(oid, RunDir(oid, 1)))
    case TrackRun(rid) => w.(ctl := w.ctl.(runTasks := w.ctl.runTasks[rid := Waiting]))
  }

  // ------------------------------------------------------------- admission

  /** The reads of the admission test, in order, and its two outcomes. */
  datatype AdmitStep =
    | AdmitUsed | AdmitReserved | AdmitQStamp | AdmitTStamp | AdmitCached | AdmitWalkQuarantine | AdmitWalkTrash
    | AdmitInsert | AdmitRefuse

  predicate CacheHit(c: Ctl) {
    && c.admission.ReadStamps? && c.cache.Some?
    && c.cache.value.qStamp == c.admission.q && c.cache.value.tStamp == c.admission.t
  }

  predicate AdmitEnabled(cfg: Config, w: World, s: AdmitStep) {
    match s
    case AdmitUsed => Ticking(w.ctl) && NoneActive(w.db) && HasCapacity(cfg, w.db)
    case AdmitReserved => w.ctl.admission.ReadUsed?
    case AdmitQStamp => w.ctl.admission.ReadLogical?
    case AdmitTStamp => w.ctl.admission.ReadQStamp?
    case AdmitCached => CacheHit(w.ctl)
    case AdmitWalkQuarantine => w.ctl.admission.ReadStamps? && !CacheHit(w.ctl)
    case AdmitWalkTrash => w.ctl.admission.WalkedQuarantine?
    case AdmitInsert => w.ctl.admission.Charged? && w.ctl.admission.total + cfg.reservation <= cfg.threshold
    case AdmitRefuse => w.ctl.admission.Charged? && w.ctl.admission.total + cfg.reservation > cfg.threshold
  }

  ghost function AdmitNext(cfg: Config, w: World, s: AdmitStep): World
    requires AdmitEnabled(cfg, w, s)
  {
    var c := w.ctl;
    match s
    case AdmitUsed => w.(ctl := c.(admission := ReadUsed(UsedBytes(w.db.obs))))
    case AdmitReserved => w.(ctl := c.(admission := ReadLogical(c.admission.used + ReservedBytes(w.db.obs))))
    case AdmitQStamp => w.(ctl := c.(admission := ReadQStamp(c.admission.logical, w.fs.qStamp)))
    case AdmitTStamp => w.(ctl := c.(admission := ReadStamps(c.admission.logical, c.admission.q, w.fs.tStamp)))
    case AdmitCached =>
      w.(ctl := c.(admission := Charged(c.admission.logical + c.cache.value.quarantine + c.cache.value.trash)))
    case AdmitWalkQuarantine =>
      w.(ctl := c.(admission := WalkedQuarantine(c.admission.logical, c.admission.q, c.admission.t, Total(w.fs.quarantine))))
    case AdmitWalkTrash =>
      w.(ctl := c.(admission := Charged(c.admission.logical + c.admission.bytes + Total(w.fs.trash)),
                   cache := Some(CacheEntry(c.admission.q, c.admission.t, c.admission.bytes, Total(w.fs.trash)))))
    case AdmitInsert => Tx(w, CreateObs(cfg.reservation)).(ctl := c.(admission := NotAdmitting))
    case AdmitRefuse => w.(ctl := c.(admission := NotAdmitting))
  }

  // ------------------------------------------------ workers and their runners

  datatype WorkStep =
    | ObsBegin(oid: nat)
    | ObsWrite(oid: nat, bytes: nat)
    | ObsEnd(oid: nat, ok: bool)
    | ObsQuarantine(oid: nat, name: string)
    | ObsFail(oid: nat, swallow: bool)
    | ObsStore(oid: nat)
    | ObsDies(oid: nat)
    | RunClaim(rid: nat)
    | RunAbandon(rid: nat)
    | RunWrite(rid: nat, content: nat)
    | RunDone(rid: nat)
    | RunFail(rid: nat)
    | RunDies(rid: nat)

  predicate WorkEnabled(cfg: Config, w: World, s: WorkStep) {
    match s
    case ObsBegin(oid) => Idle(w.ctl) && ObsTaskIs(w.ctl, oid, Fresh)
    case ObsWrite(oid, bytes) => ObsTaskIs(w.ctl, oid, Writing)
    case ObsEnd(oid, ok) =>
      && Idle(w.ctl) && ObsTaskIs(w.ctl, oid, Writing)
      && (ok && cfg.abortOnOverrun ==> Bytes(w.fs.live, oid) <= cfg.reservation)
    case ObsQuarantine(oid, name) => Idle(w.ctl) && ObsTaskIs(w.ctl, oid, Ended(false)) && CanQuarantine(w, oid, name)
    case ObsFail(oid, swallow) =>
      && Idle(w.ctl)
      && (ObsTaskIs(w.ctl, oid, Fresh) || (ObsTaskIs(w.ctl, oid, Ended(false)) && (oid !in w.fs.live || swallow)))
    case ObsStore(oid) => Idle(w.ctl) && ObsTaskIs(w.ctl, oid, Ended(true))
    case ObsDies(oid) => Idle(w.ctl) && oid in w.ctl.obsTasks
    case RunClaim(rid) => Idle(w.ctl) && RunTaskIs(w.ctl, rid, Waiting) && |Holders(w.ctl)| < cfg.parallel
    case RunAbandon(rid) => Idle(w.ctl) && RunTaskIs(w.ctl, rid, Waiting)
    case RunWrite(rid, content) => RunTaskIs(w.ctl, rid, Holding)
    case RunDone(rid) => Idle(w.ctl) && RunTaskIs(w.ctl, rid, Holding) && DirOf(w.db, rid) in w.fs.products
    case RunFail(rid) => Idle(w.ctl) && RunTaskIs(w.ctl, rid, Holding)
    case RunDies(rid) => Idle(w.ctl) && rid in w.ctl.runTasks
  }

  function WithObsTask(w: World, oid: nat, t: ObsTask): World {
    w.(ctl := w.ctl.(obsTasks := w.ctl.obsTasks[oid := t]))
  }

  function WithoutObsTask(w: World, oid: nat): World {
    w.(ctl := w.ctl.(obsTasks := w.ctl.obsTasks - {oid}))
  }

  function WithoutRunTask(w: World, rid: nat): World {
    w.(ctl := w.ctl.(runTasks := w.ctl.runTasks - {rid}))
  }

  function Unswept(w: World): World {
    w.(ctl := w.ctl.(swept := false))
  }

  /** A worker that dies before claiming its row fails it from PLANNED, later ones from OBSERVING. */
  function FailOp(db: Db, oid: nat): Op {
    MoveObs(oid, if IsObs(db, oid, Planned) then Planned else Observing, ObserveFailed, None, Some(0))
  }

  function WorkNext(w: World, s: WorkStep): World {
    match s
    case ObsBegin(oid) => WithObsTask(Tx(w, MoveObs(oid, Planned, Observing, None, None)), oid, Writing)
    case ObsWrite(oid, bytes) => w.(fs := w.fs.(live := w.fs.live[oid := bytes]))
    case ObsEnd(oid, ok) => WithObsTask(w, oid, Ended(ok))
    case ObsQuarantine(oid, name) => Quarantined(w, oid, name)
    case ObsFail(oid, _) => WithoutObsTask(Tx(w, FailOp(w.db, oid)), oid)
    case ObsStore(oid) =>
      WithoutObsTask(Tx(w, MoveObs(oid, Observing, Stored, Some(Bytes(w.fs.live, oid)), Some(0))), oid)
    case ObsDies(oid) => Unswept(WithoutObsTask(w, oid))
    case RunClaim(rid) =>
      var w' := Tx(w, MoveRun(rid, Queued, Running));
      w'.(ctl := w.ctl.(runTasks := w.ctl.runTasks[rid := Holding]))
    case RunAbandon(rid) => WithoutRunTask(Tx(w, MoveRun(rid, Queued, Failed)), rid)
    case RunWrite(rid, content) => w.(fs := w.fs.(products := w.fs.products[DirOf(w.db, rid) := content]))
    case RunDone(rid) => WithoutRunTask(Tx(w, MoveRun(rid, Running, AwaitingQa)), rid)
    case RunFail(rid) => WithoutRunTask(Tx(w, MoveRun(rid, Running, Failed)), rid)
    case RunDies(rid) => Unswept(WithoutRunTask(w, rid))
  }

  // ------------------------------------------------------- operator commands

  datatype OperatorStep =
    | OpAccept(pid: nat, rid: nat)
    | OpDiscard(pid: nat, rid: nat)
    | OpReprocess(rid: nat)
    | OpDrop(pid: nat, oid: nat)
    | OpPurge(name: string, left: Option<nat>)

  predicate OperatorEnabled(w: World, s: OperatorStep) {
    match s
    case OpAccept(pid, rid) => pid !in w.procs && Apply(w.db, Accept(rid)).Ok?
    case OpDiscard(pid, rid) => pid !in w.procs && Apply(w.db, Discard(rid)).Ok?
    case OpReprocess(rid) => rid < |w.db.runs|
    case OpDrop(pid, oid) => pid !in w.procs
    case OpPurge(name, left) => Shrinks(w.fs.quarantine, name, left)
  }

  function OperatorNext(w: World, s: OperatorStep): World
    requires OperatorEnabled(w, s)
  {
    match s
    case OpAccept(pid, rid) =>
      Tx(w, Accept(rid)).(procs := w.procs[pid := Proc(false, false, w.db.runs[rid].oid, Deleting, Begin)])
    case OpDiscard(pid, rid) =>
      Tx(w, Discard(rid)).(procs := w.procs[pid := Proc(false, false, w.db.runs[rid].oid, Deleting, Begin)])
    case OpReprocess(rid) => Tx(w, Reprocess(rid, RunDir(w.db.runs[rid].oid, w.db.runs[rid].attempt + 1)))
    case OpDrop(pid, oid) => w.(procs := w.procs[pid := Proc(true, false, oid, Deleting, Begin)])
    case OpPurge(name, left) =>
      w.(fs := w.fs.(quarantine := Trim(w.fs.quarantine, name, left), qStamp := w.fs.qStamp + if left.Some? then 0 else 1))
  }

  // --------------------------------------------------------------- deletions

  predicate Alive(p: Proc) {
    !p.pc.Finished? && !p.pc.Stopped?
  }

  function CommitOp(p: Proc): Op {
    MoveObs(p.oid, p.seen, Deleted, Some(0), Some(0))
  }

  /** A removal in progress may leave any part of the tree. */
  predicate RemovalOk(fs: Fs, p: Proc, left: Option<nat>) {
    && (p.pc.Remove? && p.oid in fs.trash ==> Shrinks(fs.trash, p.oid, left))
    && (p.pc.RemoveLive? && p.oid in fs.live ==> Shrinks(fs.live, p.oid, left))
  }

  predicate DeleteEnabled(w: World, pid: nat, left: Option<nat>) {
    && pid in w.procs && Alive(w.procs[pid])
    && (w.procs[pid].mine ==> w.ctl.phase.Recovering?)
    && RemovalOk(w.fs, w.procs[pid], left)
  }

  function DeleteFs(fs: Fs, p: Proc, left: Option<nat>): Fs {
    match p.pc
    case Rename =>
      if p.oid in fs.live && p.oid !in fs.trash
      then fs.(live := fs.live - {p.oid}, trash := fs.trash[p.oid := fs.live[p.oid]], tStamp := fs.tStamp + 1)
      else fs
    case RemoveLive =>
      if p.oid in fs.live then fs.(live := Trim(fs.live, p.oid, left)) else fs
    case Remove =>
      if p.oid in fs.trash
      then fs.(trash := Trim(fs.trash, p.oid, left), tStamp := fs.tStamp + if left.Some? then 0 else 1)
      else fs
    case _ => fs
  }

  function DeletePc(db: Db, fs: Fs, p: Proc, left: Option<nat>): Pc {
    match p.pc
    case Begin =>
      if p.oid >= |db.obs| then Stopped(NoSuchRow)
      else if db.obs[p.oid].state.Deleting? || (p.drop && db.obs[p.oid].state.Inconsistent?) then TestLive
      else Stopped(NotDeleting)
    case TestLive => if p.oid !in fs.live then TestRemove else if p.drop then RemoveLive else TestTrash
    case TestTrash => if p.oid in fs.trash then Stopped(BothCopies) else Rename
    case Rename => if p.oid in fs.live && p.oid !in fs.trash then TestRemove else Stopped(FileVanished)
    case RemoveLive => if p.oid !in fs.live then Stopped(FileVanished) else if left.Some? then RemoveLive else TestRemove
    case TestRemove => if p.oid in fs.trash then Remove else Commit
    case Remove => if p.oid !in fs.trash then Stopped(FileVanished) else if left.Some? then Remove else Commit
    case Commit => if Apply(db, CommitOp(p)).Ok? then Finished else Stopped(GuardFailed)
    case _ => p.pc
  }

  function Advance(db: Db, fs: Fs, p: Proc, left: Option<nat>): Proc {
    var pc := DeletePc(db, fs, p, left);
    if p.pc.Begin? && pc.TestLive? then p.(seen := db.obs[p.oid].state, pc := pc) else p.(pc := pc)
  }

  function DeleteNext(w: World, pid: nat, left: Option<nat>): World
    requires pid in w.procs
  {
    var p := w.procs[pid];
    World(
      if p.pc.Commit? then After(w.db, CommitOp(p)) else w.db,
      DeleteFs(w.fs, p, left),
      if p.mine then w.ctl.(cache := None) else w.ctl,
      w.procs[pid := Advance(w.db, w.fs, p, left)])
  }

  function Interrupt(p: Proc): Proc {
    p.(pc := Stopped(Interrupted))
  }

  function Writers(c: Ctl): set<nat> {
    set o | o in c.obsTasks && c.obsTasks[o].Writing?
  }

  /** What is left of a controller that died: the containers that were writing, and those an earlier one left. */
  function Abandoned(c: Ctl): Ctl {
    DownCtl.(strays := c.strays + Writers(c), strayRuns := c.strayRuns + Holders(c))
  }

  /** Deletions inside the controller die with it. */
  function Orphaned(procs: map<nat, Proc>): map<nat, Proc> {
    map p | p in procs :: if procs[p].mine && Alive(procs[p]) then Interrupt(procs[p]) else procs[p]
  }

  // ------------------------------------------------------------------- steps

  datatype Step =
    | Crash
    | Start
    | Recovery(r: RecoveryStep)
    | Tick(t: TickStep)
    | Admit(a: AdmitStep)
    | Work(k: WorkStep)
    | Operate(c: OperatorStep)
    | Delete(pid: nat, left: Option<nat>)
    | DeleteDies(pid: nat)
    | Remark(note: Op)
    | Stray(oid: nat, bytes: nat)
    | StrayRun(rid: nat, content: nat)

  ghost predicate Enabled(cfg: Config, w: World, s: Step) {
    match s
    case Crash => true
    case Start => w.ctl.phase.Down?
    case Recovery(r) => RecoveryEnabled(w, r)
    case Tick(t) => TickEnabled(w, t)
    case Admit(a) => AdmitEnabled(cfg, w, a)
    case Work(k) => WorkEnabled(cfg, w, k)
    case Operate(c) => OperatorEnabled(w, c)
    case Delete(pid, left) => DeleteEnabled(w, pid, left)
    case DeleteDies(pid) => pid in w.procs && Alive(w.procs[pid])
    case Remark(note) => note.NoteObs? || note.NoteRun?
    case Stray(oid, bytes) => oid in w.ctl.strays
    case StrayRun(rid, content) => rid in w.ctl.strayRuns
  }

  ghost function Next(cfg: Config, w: World, s: Step): World
    requires Enabled(cfg, w, s)
  {
    match s
    case Crash => w.(ctl := Abandoned(w.ctl), procs := Orphaned(w.procs))
    case Start => w.(ctl := DownCtl.(phase := Recovering))
    case Recovery(r) => RecoveryNext(w, r)
    case Tick(t) => TickNext(cfg, w, t)
    case Admit(a) => AdmitNext(cfg, w, a)
    case Work(k) => WorkNext(w, k)
    case Operate(c) => OperatorNext(w, c)
    case Delete(pid, left) => DeleteNext(w, pid, left)
    case DeleteDies(pid) => w.(procs := w.procs[pid := Interrupt(w.procs[pid])])
    case Remark(note) => Tx(w, note)
    case Stray(oid, bytes) => w.(fs := w.fs.(live := w.fs.live[oid := bytes]))
    case StrayRun(rid, content) => w.(fs := w.fs.(products := w.fs.products[DirOf(w.db, rid) := content]))
  }

  // -------------------------------------------------------------------- runs

  /** A run: worlds from the initial one, each following from the one before by an enabled step. */
  ghost predicate IsRunOf(cfg: Config, ws: seq<World>, steps: seq<Step>) {
    && |ws| == |steps| + 1
    && ws[0] == InitialWorld
    && Follows(cfg, ws, steps)
  }

  ghost predicate Follows(cfg: Config, ws: seq<World>, steps: seq<Step>) {
    && |ws| == |steps| + 1
    && forall i :: 0 <= i < |steps| ==> Enabled(cfg, ws[i], steps[i]) && ws[i + 1] == Next(cfg, ws[i], steps[i])
  }

  /** The steps lead from one world to another. */
  ghost predicate Path(cfg: Config, w: World, steps: seq<Step>, w': World)
    decreases |steps|
  {
    if steps == [] then w == w'
    else Enabled(cfg, w, steps[0]) && Path(cfg, Next(cfg, w, steps[0]), steps[1..], w')
  }

  lemma PathFirst(cfg: Config, w: World, s: Step, rest: seq<Step>, w': World)
    requires Enabled(cfg, w, s) && Path(cfg, Next(cfg, w, s), rest, w')
    ensures Path(cfg, w, [s] + rest, w')
  {
    assert ([s] + rest)[1..] == rest;
  }

  lemma {:induction false} PathJoin(cfg: Config, w: World, steps: seq<Step>, w1: World, more: seq<Step>, w2: World)
    requires Path(cfg, w, steps, w1) && Path(cfg, w1, more, w2)
    ensures Path(cfg, w, steps + more, w2)
    decreases |steps|
  {
    if steps == [] {
      assert steps + more == more;
    } else {
      PathJoin(cfg, Next(cfg, w, steps[0]), steps[1..], w1, more, w2);
      assert (steps + more)[1..] == steps[1..] + more;
    }
  }

  /** Extending a path by one enabled step. */
  lemma PathLast(cfg: Config, w: World, steps: seq<Step>, w1: World, s: Step)
    requires Path(cfg, w, steps, w1) && Enabled(cfg, w1, s)
    ensures Path(cfg, w, steps + [s], Next(cfg, w1, s))
  {
    var w2 := Next(cfg, w1, s);
    assert Path(cfg, w2, [], w2);
    PathFirst(cfg, w1, s, [], w2);
    assert [s] + [] == [s];
    PathJoin(cfg, w, steps, w1, [s], w2);
  }

  /** A path from the initial world is a run. */
  lemma {:induction false} PathIsRun(cfg: Config, w: World, steps: seq<Step>, w': World) returns (ws: seq<World>)
    requires Path(cfg, w, steps, w')
    ensures Follows(cfg, ws, steps) && ws[0] == w && ws[|steps|] == w'
    ensures w == InitialWorld ==> IsRunOf(cfg, ws, steps)
    decreases |steps|
  {
    if steps == [] {
      ws := [w];
    } else {
      var rest := PathIsRun(cfg, Next(cfg, w, steps[0]), steps[1..], w');
      ws := [w] + rest;
    }
  }

  lemma RunLonger(cfg: Config, ws: seq<World>, steps: seq<Step>, s: Step, w: World)
    requires IsRunOf(cfg, ws, steps) && Enabled(cfg, ws[|steps|], s) && w == Next(cfg, ws[|steps|], s)
    ensures IsRunOf(cfg, ws + [w], steps + [s])
  {
    var ws', steps' := ws + [w], steps + [s];
    forall i | 0 <= i < |steps'| ensures Enabled(cfg, ws'[i], steps'[i]) && ws'[i + 1] == Next(cfg, ws'[i], steps'[i]) {
      assert i < |steps| ==> steps'[i] == steps[i] && ws'[i] == ws[i] && ws'[i + 1] == ws[i + 1];
    }
  }

  /** Some steps lead from one world to the other. */
  ghost predicate Reaches(cfg: Config, w: World, w': World) {
    exists steps :: Path(cfg, w, steps, w')
  }

  lemma ReachesSelf(cfg: Config, w: World)
    ensures Reaches(cfg, w, w)
  {
    assert Path(cfg, w, [], w);
  }

  lemma ReachesNext(cfg: Config, w: World, w1: World, s: Step)
    requires Reaches(cfg, w, w1) && Enabled(cfg, w1, s)
    ensures Reaches(cfg, w, Next(cfg, w1, s))
  {
    var steps :| Path(cfg, w, steps, w1);
    PathLast(cfg, w, steps, w1, s);
  }

  lemma ReachesFurther(cfg: Config, w: World, w1: World, w2: World)
    requires Reaches(cfg, w, w1) && Reaches(cfg, w1, w2)
    ensures Reaches(cfg, w, w2)
  {
    var steps :| Path(cfg, w, steps, w1);
    var more :| Path(cfg, w1, more, w2);
    PathJoin(cfg, w, steps, w1, more, w2);
  }
}
