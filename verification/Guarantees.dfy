/** What the invariant means for an operator: statements about every world of every run. */
module Guarantees {
  import opened Models
  import opened Naming
  import opened StoreSpec
  import opened History
  import opened Ledger
  import opened Totals
  import opened Protocol
  import opened Safety
  import opened SafetySteps

  // ----------------------------------------------------------------- deletion

  /**
   * A DELETED row means that neither copy exists and that the log entered DELETED exactly once,
   * with any number of deletions, drops, crashes and recoveries behind it.
   */
  lemma DeletedMeansGone(cfg: Config, ws: seq<World>, steps: seq<Step>, i: nat, oid: nat)
    requires ValidConfig(cfg) && IsRunOf(cfg, ws, steps) && i < |ws|
    requires oid < |ws[i].db.obs|
    ensures IsObs(ws[i].db, oid, Deleted) ==> Gone(ws[i].fs, oid)
    ensures Entered(ws[i].db.log, oid, Deleted) == if IsObs(ws[i].db, oid, Deleted) then 1 else 0
  {
    RunKeeps(cfg, ws, steps, i);
    assert FileOk(ws[i].db, ws[i].fs, oid);
    assert TracksObs(ws[i].db, oid);
    DeletedEnteredOnce(ws[i].db.log, oid);
  }

  /** Once the row is DELETED, whatever a late deletion still does, the store stays as it is and it does not succeed. */
  lemma LateDeletionFails(cfg: Config, w: World, pid: nat, left: Option<nat>)
    requires ValidConfig(cfg) && Inv(cfg, w) && DeleteEnabled(w, pid, left) && IsObs(w.db, w.procs[pid].oid, Deleted)
    ensures DeleteNext(w, pid, left).db == w.db
    ensures !DeleteNext(w, pid, left).procs[pid].pc.Finished?
  {
    assert ProcOk(w.db, w.fs, w.procs[pid]);
  }

  /** Of all executions on one observation, whoever runs them, at most one ends in success, and then the row is DELETED. */
  lemma OneDeletionSucceeds(cfg: Config, ws: seq<World>, steps: seq<Step>, i: nat, p1: nat, p2: nat)
    requires ValidConfig(cfg) && IsRunOf(cfg, ws, steps) && i < |ws|
    requires p1 in ws[i].procs && p2 in ws[i].procs && ws[i].procs[p1].oid == ws[i].procs[p2].oid
    requires ws[i].procs[p1].pc.Finished?
    ensures IsObs(ws[i].db, ws[i].procs[p1].oid, Deleted)
    ensures ws[i].procs[p2].pc.Finished? ==> p1 == p2
  {
    RunKeeps(cfg, ws, steps, i);
    assert ProcOk(ws[i].db, ws[i].fs, ws[i].procs[p1]);
  }

  /** Actions left to a deletion that is never held up by a partial removal. */
  function StepsLeft(pc: Pc): nat {
    match pc
    case Begin => 7
    case TestLive => 6
    case TestTrash => 5
    case Rename => 4
    case RemoveLive => 4
    case TestRemove => 3
    case Remove => 2
    case Commit => 1
    case _ => 0
  }

  /** Every deletion ends, in success or in an error: each whole action brings it nearer. */
  lemma DeletionEnds(w: World, pid: nat, left: Option<nat>)
    requires DeleteEnabled(w, pid, left)
    ensures var pc, pc' := w.procs[pid].pc, DeleteNext(w, pid, left).procs[pid].pc;
      StepsLeft(pc') < StepsLeft(pc) || (left.Some? && pc' == pc && (pc.Remove? || pc.RemoveLive?))
  {
  }

  /** The state "both copies exist" is unreachable, and a trash copy belongs to a DELETING row. */
  lemma NeverBothCopies(cfg: Config, ws: seq<World>, steps: seq<Step>, i: nat, oid: nat)
    requires ValidConfig(cfg) && IsRunOf(cfg, ws, steps) && i < |ws|
    ensures !(oid in ws[i].fs.live && oid in ws[i].fs.trash)
    ensures oid in ws[i].fs.trash ==> IsObs(ws[i].db, oid, Deleting)
  {
    RunKeeps(cfg, ws, steps, i);
    assert FileOk(ws[i].db, ws[i].fs, oid);
  }

  /** A whole action of a deletion that is neither starting nor committing. */
  lemma PlainAction(w: World, pid: nat)
    requires pid in w.procs && (w.procs[pid].pc.TestLive? || w.procs[pid].pc.TestTrash? || w.procs[pid].pc.Rename?)
    ensures var p, w' := w.procs[pid], DeleteNext(w, pid, None);
      && w'.db == w.db && w'.fs == DeleteFs(w.fs, p, None) && w'.ctl.phase == w.ctl.phase
      && w'.procs == w.procs[pid := p.(pc := DeletePc(w.db, w.fs, p, None))]
  {
  }

  /** A safe deletion of the observation that is about to test for the live copy. */
  predicate AboutToTest(w: World, pid: nat, oid: nat) {
    DeleteEnabled(w, pid, None) && w.procs[pid].oid == oid && !w.procs[pid].drop && w.procs[pid].pc.TestLive?
  }

  /** One execution tests for the live copy; the other tests twice and renames; the first tests for the trash copy. */
  function RaceSteps(a: nat, b: nat): seq<Step> {
    [Delete(a, None)] + ([Delete(b, None)] + ([Delete(b, None)] + ([Delete(b, None)] + ([Delete(a, None)] + []))))
  }

  /** The race exists: from any two deletions that are about to test the live copy, five steps reach that error. */
  lemma BothCopiesRace(cfg: Config, w: World, a: nat, b: nat, oid: nat) returns (w': World)
    requires a != b && AboutToTest(w, a, oid) && AboutToTest(w, b, oid)
    requires oid in w.fs.live && oid !in w.fs.trash
    ensures Path(cfg, w, RaceSteps(a, b), w')
    ensures a in w'.procs && w'.procs[a].pc == Stopped(BothCopies)
  {
    PlainAction(w, a);
    var w1 := DeleteNext(w, a, None);
    w' := RaceRest(cfg, w1, a, b, oid);
    ActionFirst(cfg, w, a, RaceSteps(a, b)[1..], w');
  }

  lemma ActionFirst(cfg: Config, w: World, pid: nat, rest: seq<Step>, w': World)
    requires DeleteEnabled(w, pid, None) && Path(cfg, DeleteNext(w, pid, None), rest, w')
    ensures Path(cfg, w, [Delete(pid, None)] + rest, w')
  {
    PathFirst(cfg, w, Delete(pid, None), rest, w');
  }

  lemma RaceRest(cfg: Config, w: World, a: nat, b: nat, oid: nat) returns (w': World)
    requires a != b && a in w.procs && w.procs[a].oid == oid && w.procs[a].pc.TestTrash?
    requires DeleteEnabled(w, a, None) && AboutToTest(w, b, oid)
    requires oid in w.fs.live && oid !in w.fs.trash
    ensures Path(cfg, w, RaceSteps(a, b)[1..], w')
    ensures a in w'.procs && w'.procs[a].pc == Stopped(BothCopies)
  {
    PlainAction(w, b);
    var w1 := DeleteNext(w, b, None);
    PlainAction(w1, b);
    var w2 := DeleteNext(w1, b, None);
    PlainAction(w2, b);
    var w3 := DeleteNext(w2, b, None);
    PlainAction(w3, a);
    w' := DeleteNext(w3, a, None);
    assert Path(cfg, w', [], w');
    ActionFirst(cfg, w3, a, [], w');
    ActionFirst(cfg, w2, b, [Delete(a, None)] + [], w');
    ActionFirst(cfg, w1, b, [Delete(b, None)] + ([Delete(a, None)] + []), w');
    ActionFirst(cfg, w, b, [Delete(b, None)] + ([Delete(b, None)] + ([Delete(a, None)] + [])), w');
  }

  /**
   * Deletion is authorised and has no reader: while an observation is DELETING one of its runs
   * carries the verdict and every other one is superseded; a DELETED one has such a run or was
   * dropped out of INCONSISTENT by an operator.
   */
  lemma DeletionAuthorised(cfg: Config, ws: seq<World>, steps: seq<Step>, i: nat, oid: nat)
    requires ValidConfig(cfg) && IsRunOf(cfg, ws, steps) && i < |ws|
    ensures var db := ws[i].db;
      && (IsObs(db, oid, Deleting) ==> Freed(db, oid) && !HasActive(db, oid) && !HasRunIn(db, oid, Failed))
      && (IsObs(db, oid, Deleted) ==> Freed(db, oid) || ObsMoved(oid, Inconsistent, Deleted) in db.log)
      && (IsObs(db, oid, Stored) ==> !Freed(db, oid))
  {
    RunKeeps(cfg, ws, steps, i);
    var db := ws[i].db;
    if oid < |db.obs| {
      assert AuthorisedObs(db, oid);
    }
    if IsObs(db, oid, Deleting) {
      DeletingHasNoReader(db, oid);
    }
  }

  // --------------------------------------------------------------- processing

  /** In every world of every run, each observation's attempts are 1..n and all but the last are superseded. */
  lemma OneLiveRunAlways(cfg: Config, ws: seq<World>, steps: seq<Step>, i: nat, oid: nat)
    requires ValidConfig(cfg) && IsRunOf(cfg, ws, steps) && i < |ws|
    ensures Chain(ws[i].db.runs, oid)
    ensures forall rid |
        0 <= rid < |ws[i].db.runs| && ws[i].db.runs[rid].oid == oid && !ws[i].db.runs[rid].state.Superseded? ::
      !HasOtherActive(ws[i].db, oid, rid) && !HasAttempt(ws[i].db, oid, ws[i].db.runs[rid].attempt + 1)
  {
    RunKeeps(cfg, ws, steps, i);
    var db := ws[i].db;
    assert Chain(db.runs, oid);
    forall rid | 0 <= rid < |db.runs| && db.runs[rid].oid == oid && !db.runs[rid].state.Superseded?
      ensures !HasOtherActive(db, oid, rid) && !HasAttempt(db, oid, db.runs[rid].attempt + 1)
    {
      NoOtherActive(db, rid);
      NextAttemptIsFree(db, rid);
    }
  }

  /**
   * The unguarded gap between listing retryable failures and requeueing them is harmless: when
   * the requeue commits, the run is still exactly what the query would list; otherwise nothing changes.
   */
  lemma RequeueGapHarmless(cfg: Config, w: World, rid: nat)
    requires ValidConfig(cfg) && Inv(cfg, w) && TickEnabled(w, RetryRequeue(rid))
    ensures TickNext(cfg, w, RetryRequeue(rid)).db != w.db <==> Retryable(w.db, cfg.attempts, rid)
  {
    assert RetryEntryOk(cfg, w.db, rid);
    RequeueIsGuarded(cfg, w.db, rid);
  }

  lemma RequeueIsGuarded(cfg: Config, db: Db, rid: nat)
    requires Chains(db) && RetryEntryOk(cfg, db, rid)
    ensures After(db, MoveRun(rid, Failed, Queued)) != db <==> Retryable(db, cfg.attempts, rid)
  {
    if db.runs[rid].state.Failed? {
      assert Chain(db.runs, db.runs[rid].oid);
      NoOtherActive(db, rid);
      assert |After(db, MoveRun(rid, Failed, Queued)).log| == |db.log| + 1;
    }
  }

  function RunningRows(db: Db): set<nat> {
    set r | 0 <= r < |db.runs| && db.runs[r].state.Running?
  }

  /** Running rows whose worker exists. */
  function LiveRunning(db: Db, c: Ctl): set<nat> {
    set r | 0 <= r < |db.runs| && db.runs[r].state.Running? && r in c.runTasks
  }

  /** Rows that run with a live worker run on a permit each; after a sweep those are all that run. */
  predicate ParallelBound(cfg: Config, db: Db, c: Ctl) {
    && LiveRunning(db, c) == Holders(c) && |Holders(c)| <= cfg.parallel
    && (c.swept ==> RunningRows(db) == LiveRunning(db, c))
  }

  lemma PermitsBound(cfg: Config, db: Db, c: Ctl)
    requires TasksOk(db, c) && CtlOk(cfg, c) && SweptOk(db, c)
    ensures ParallelBound(cfg, db, c)
  {
    forall r ensures r in LiveRunning(db, c) <==> r in Holders(c) {
      assert r in c.runTasks ==> RunTaskOk(db, c, r);
    }
  }

  /** The rows that run with a live worker are those that hold a permit, and after a sweep there are no others. */
  lemma ParallelismBounded(cfg: Config, ws: seq<World>, steps: seq<Step>, i: nat)
    requires ValidConfig(cfg) && IsRunOf(cfg, ws, steps) && i < |ws|
    ensures ParallelBound(cfg, ws[i].db, ws[i].ctl)
  {
    RunKeeps(cfg, ws, steps, i);
    PermitsBound(cfg, ws[i].db, ws[i].ctl);
  }

  lemma {:induction false} NothingReserved(obs: seq<ObsRow>)
    requires forall o :: 0 <= o < |obs| ==> !CountsAsReserved(obs[o].state)
    ensures ReservedBytes(obs) == 0
  {
    if obs != [] {
      NothingReserved(obs[..|obs| - 1]);
    }
  }

  /** Whenever the admission test is under way the reserved sum is zero, and at most one observation is ever active. */
  lemma OneObservationAtATime(cfg: Config, ws: seq<World>, steps: seq<Step>, i: nat)
    requires ValidConfig(cfg) && IsRunOf(cfg, ws, steps) && i < |ws|
    ensures OneActive(ws[i].db, ws[i].ctl)
    ensures !ws[i].ctl.admission.NotAdmitting? ==> ReservedBytes(ws[i].db.obs) == 0
  {
    RunKeeps(cfg, ws, steps, i);
    if !ws[i].ctl.admission.NotAdmitting? {
      forall o: nat | o < |ws[i].db.obs| ensures !CountsAsReserved(ws[i].db.obs[o].state) {
        assert !UnderWay(ws[i].db, o);
      }
      NothingReserved(ws[i].db.obs);
    }
  }

  // ----------------------------------------------------------------- products

  /** Run `rid` has the same product directory contents in both worlds. */
  predicate SameProducts(w: World, w': World, rid: nat) {
    && rid < |w.db.runs| && rid < |w'.db.runs|
    && w.db.runs[rid].dir == w'.db.runs[rid].dir
    && (w.db.runs[rid].dir in w.fs.products <==> w.db.runs[rid].dir in w'.fs.products)
    && (w.db.runs[rid].dir in w.fs.products ==>
          w.fs.products[w.db.runs[rid].dir] == w'.fs.products[w.db.runs[rid].dir])
  }

  /** The run whose product directory a step writes or removes, if any. */
  function ProductOwner(s: Step): Option<nat> {
    match s
    case Recovery(r) => if r.RecCleanRun? then Some(r.rid) else None
    case Tick(t) => if t.RetryClean? then Some(t.rid) else None
    case Work(k) => if k.RunWrite? then Some(k.rid) else None
    case StrayRun(rid, _) => Some(rid)
    case _ => None
  }

  lemma OwnerIsBusy(cfg: Config, w: World, s: Step)
    requires TasksOk(w.db, w.ctl) && StraysOk(w.db, w.ctl) && Enabled(cfg, w, s) && ProductOwner(s).Some?
    ensures var rid := ProductOwner(s).value; IsRun(w.db, rid, Running) || rid in w.ctl.retry
  {
    match s {
      case Recovery(r) =>
      case Tick(t) =>
      case Work(k) => assert RunTaskOk(w.db, w.ctl, k.rid);
      case StrayRun(rid, _) =>
    }
  }

  lemma ProductsFrame(cfg: Config, w: World, s: Step, dir: string)
    requires Enabled(cfg, w, s)
    requires ProductOwner(s).Some? ==> DirOf(w.db, ProductOwner(s).value) != dir
    ensures var fs' := Next(cfg, w, s).fs;
      (dir in w.fs.products <==> dir in fs'.products) && (dir in w.fs.products ==> w.fs.products[dir] == fs'.products[dir])
  {
    match s {
      case Recovery(r) =>
      case Tick(t) =>
      case Admit(a) =>
      case Work(k) =>
      case Operate(c) =>
      case Delete(pid, left) =>
      case _ =>
    }
  }

  lemma RowFrame(cfg: Config, w: World, s: Step, rid: nat)
    requires Enabled(cfg, w, s) && rid < |w.db.runs|
    ensures rid < |Next(cfg, w, s).db.runs| && Next(cfg, w, s).db.runs[rid].dir == w.db.runs[rid].dir
  {
    var op := StepTx(cfg, w, s);
    RunFrame(w.db, op, rid);
  }

  /** The transaction a step runs; a step that runs none leaves the store alone. */
  ghost function StepTx(cfg: Config, w: World, s: Step): (op: Op)
    requires Enabled(cfg, w, s)
    ensures Next(cfg, w, s).db == w.db || Next(cfg, w, s).db == After(w.db, op)
  {
    match s
    case Recovery(r) => RecoveryTx(w, r)
    case Tick(t) => TickTx(cfg, w, t)
    case Admit(a) => CreateObs(cfg.reservation)
    case Work(k) => WorkTx(w, k)
    case Operate(c) => OperatorTx(w, c)
    case Delete(pid, left) => CommitOp(w.procs[pid])
    case Remark(note) => note
    case _ => NoteObs(0)
  }

  function RecoveryTx(w: World, r: RecoveryStep): (op: Op)
    ensures RecoveryNext(w, r).db == w.db || RecoveryNext(w, r).db == After(w.db, op)
  {
    match r
    case RecFailObs(oid) => MoveObs(oid, Observing, ObserveFailed, None, Some(0))
    case RecFailRun(rid) => MoveRun(rid, Running, Failed)
    case RecResume(oid) => MoveObs(oid, Stored, Deleting, None, None)
    case RecMissing(oid) => MoveObs(oid, Stored, Inconsistent, Some(0), Some(0))
    case _ => NoteObs(0)
  }

  function TickTx(cfg: Config, w: World, t: TickStep): (op: Op)
    ensures TickNext(cfg, w, t).db == w.db || TickNext(cfg, w, t).db == After(w.db, op)
  {
    match t
    case SweepFailObs(oid, _) => MoveObs(oid, Observing, ObserveFailed, None, Some(0))
    case SweepFailRun(rid) => MoveRun(rid, Running, Failed)
    case MarkSpent => MarkExhausted(cfg.attempts)
    case RetryBlocked(rid) => MarkRunExhausted(rid)
    case RetryRequeue(rid) => MoveRun(rid, Failed, Queued)
    case FirstRun(oid) => CreateRun(oid, RunDir(oid, 1))
    case _ => NoteObs(0)
  }

  function WorkTx(w: World, k: WorkStep): (op: Op)
    ensures WorkNext(w, k).db == w.db || WorkNext(w, k).db == After(w.db, op)
  {
    match k
    case ObsBegin(oid) => MoveObs(oid, Planned, Observing, None, None)
    case ObsFail(oid, _) => FailOp(w.db, oid)
    case ObsStore(oid) => MoveObs(oid, Observing, Stored, Some(Bytes(w.fs.live, oid)), Some(0))
    case RunClaim(rid) => MoveRun(rid, Queued, Running)
    case RunAbandon(rid) => MoveRun(rid, Queued, Failed)
    case RunDone(rid) => MoveRun(rid, Running, AwaitingQa)
    case RunFail(rid) => MoveRun(rid, Running, Failed)
    case _ => NoteObs(0)
  }

  function OperatorTx(w: World, c: OperatorStep): (op: Op)
    requires OperatorEnabled(w, c)
    ensures OperatorNext(w, c).db == w.db || OperatorNext(w, c).db == After(w.db, op)
  {
    match c
    case OpAccept(_, rid) => Accept(rid)
    case OpDiscard(_, rid) => Discard(rid)
    case OpReprocess(rid) => Reprocess(rid, RunDir(w.db.runs[rid].oid, w.db.runs[rid].attempt + 1))
    case _ => NoteObs(0)
  }

  /** No step touches the products of a run other than the one it works on: a running one or one listed for retry. */
  lemma ProductsUntouched(cfg: Config, w: World, s: Step, rid: nat)
    requires Inv(cfg, w) && Enabled(cfg, w, s) && rid < |w.db.runs| && ProductOwner(s) != Some(rid)
    ensures SameProducts(w, Next(cfg, w, s), rid)
  {
    if ProductOwner(s).Some? {
      OwnerIsBusy(cfg, w, s);
      assert ProductOwner(s).value in w.ctl.retry ==> RetryEntryOk(cfg, w.db, ProductOwner(s).value);
      DirsDistinct(w.db, ProductOwner(s).value, rid);
    }
    ProductsFrame(cfg, w, s, w.db.runs[rid].dir);
    RowFrame(cfg, w, s, rid);
  }

  /** A run that awaits its verdict or has been accepted, or that is superseded and not on a retry list. */
  predicate Delivered(w: World, rid: nat) {
    && rid < |w.db.runs|
    && (w.db.runs[rid].state.AwaitingQa? || w.db.runs[rid].state.Accepted?
        || (w.db.runs[rid].state.Superseded? && rid !in w.ctl.retry))
  }

  lemma DeliveredUnlisted(cfg: Config, w: World, rid: nat)
    requires RetryOk(cfg, w.db, w.ctl) && Delivered(w, rid)
    ensures rid !in w.ctl.retry
  {
    assert rid in w.ctl.retry ==> RetryEntryOk(cfg, w.db, rid);
  }

  lemma DeliveredStays(cfg: Config, w: World, s: Step, rid: nat)
    requires Inv(cfg, w) && Enabled(cfg, w, s) && Delivered(w, rid)
    ensures Delivered(Next(cfg, w, s), rid)
  {
    var op, w' := StepTx(cfg, w, s), Next(cfg, w, s);
    assert rid !in w.ctl.retry by {
      DeliveredUnlisted(cfg, w, rid);
    }
    RunFrame(w.db, op, rid);
    DeliveredRow(w.db, op, rid);
    RetryGrowsByFailures(cfg, w, s);
  }

  lemma DeliveredRow(db: Db, op: Op, rid: nat)
    requires rid < |db.runs|
    requires db.runs[rid].state.AwaitingQa? || db.runs[rid].state.Accepted? || db.runs[rid].state.Superseded?
    ensures rid < |After(db, op).runs|
    ensures var s := After(db, op).runs[rid].state; s.AwaitingQa? || s.Accepted? || s.Superseded?
  {
  }

  lemma RetryGrowsByFailures(cfg: Config, w: World, s: Step)
    requires Enabled(cfg, w, s)
    ensures forall r :: r in Next(cfg, w, s).ctl.retry ==> r in w.ctl.retry || IsRun(w.db, r, Failed)
  {
    match s {
      case Recovery(r) =>
      case Tick(t) => if !t.ListRetryable? { TickListsNothing(cfg, w, t); }
      case Admit(a) =>
      case Work(k) => WorkListsNothing(w, k);
      case Operate(c) =>
      case Delete(pid, left) =>
      case _ =>
    }
  }

  lemma TickListsNothing(cfg: Config, w: World, t: TickStep)
    requires !t.ListRetryable?
    ensures TickNext(cfg, w, t).ctl.retry <= w.ctl.retry
  {
  }

  lemma WorkListsNothing(w: World, k: WorkStep)
    ensures WorkNext(w, k).ctl.retry == w.ctl.retry
  {
  }

  lemma DeliveredUntouched(cfg: Config, w: World, s: Step, rid: nat)
    requires Inv(cfg, w) && Enabled(cfg, w, s) && Delivered(w, rid)
    ensures SameProducts(w, Next(cfg, w, s), rid)
  {
    if ProductOwner(s) == Some(rid) {
      OwnerIsBusy(cfg, w, s);
      DeliveredUnlisted(cfg, w, rid);
      assert false;
    }
    ProductsUntouched(cfg, w, s, rid);
  }

  /** From the moment a run awaits its verdict, its products never change again, whatever happens to it. */
  lemma {:induction false} ProductsSurvive(cfg: Config, ws: seq<World>, steps: seq<Step>, i: nat, j: nat, rid: nat)
    requires ValidConfig(cfg) && IsRunOf(cfg, ws, steps) && i <= j < |ws| && Delivered(ws[i], rid)
    ensures Delivered(ws[j], rid) && SameProducts(ws[i], ws[j], rid)
    decreases j - i
  {
    if i < j {
      ProductsSurvive(cfg, ws, steps, i, j - 1, rid);
      var w, s := ws[j - 1], steps[j - 1];
      RunKeeps(cfg, ws, steps, j - 1);
      DeliveredStays(cfg, w, s, rid);
      DeliveredUntouched(cfg, w, s, rid);
    }
  }

  /**
   * The documentation says superseded products are retained. A failure superseded after the
   * retry loop listed it can still lose them: two steps from any such world do it.
   */
  lemma SupersededFailureLosesProducts(cfg: Config, w: World, rid: nat)
    requires ValidConfig(cfg) && Inv(cfg, w) && rid in w.ctl.retry && IsRun(w.db, rid, Failed)
    requires w.db.runs[rid].dir in w.fs.products
    ensures Enabled(cfg, w, Operate(OpReprocess(rid)))
    ensures var w1 := Next(cfg, w, Operate(OpReprocess(rid)));
      && IsRun(w1.db, rid, Superseded)
      && Enabled(cfg, w1, Tick(RetryClean(rid, None)))
      && w.db.runs[rid].dir !in Next(cfg, w1, Tick(RetryClean(rid, None))).fs.products
  {
    assert RetryEntryOk(cfg, w.db, rid);
    ReprocessCommits(w.db, rid, RunDir(w.db.runs[rid].oid, w.db.runs[rid].attempt + 1));
    var w1 := Next(cfg, w, Operate(OpReprocess(rid)));
    assert w1.fs == w.fs && w1.ctl == w.ctl;
  }

  lemma ReprocessCommits(db: Db, rid: nat, dir: string)
    requires Chains(db) && IsRun(db, rid, Failed) && IsObs(db, db.runs[rid].oid, Stored)
    ensures IsRun(After(db, Reprocess(rid, dir)), rid, Superseded)
    ensures After(db, Reprocess(rid, dir)).runs[rid].dir == db.runs[rid].dir
  {
    assert Chain(db.runs, db.runs[rid].oid);
    NoOtherActive(db, rid);
    NextAttemptIsFree(db, rid);
  }

  /** In every world of every run, the product directory in a run's row says whose it is: the observation, then the attempt. */
  lemma DirsSayWhose(cfg: Config, ws: seq<World>, steps: seq<Step>, i: nat, rid: nat)
    requires ValidConfig(cfg) && IsRunOf(cfg, ws, steps) && i < |ws| && rid < |ws[i].db.runs|
    ensures SaysRun(ws[i].db.runs[rid].dir, ws[i].db.runs[rid].oid, ws[i].db.runs[rid].attempt)
  {
    var row := ws[i].db.runs[rid];
    assert row.dir == RunDir(row.oid, row.attempt) by {
      RunKeeps(cfg, ws, steps, i);
      assert OwnDir(ws[i].db, rid);
    }
    RunDirSays(row.oid, row.attempt);
  }

  // --------------------------------------------------------- rows, log and bytes

  /**
   * The event log determines the state: in every world of every run, replaying the events of an
   * entity along the table edges, each leaving the state the one before reached, gives its row's state.
   */
  lemma LogDeterminesState(cfg: Config, ws: seq<World>, steps: seq<Step>, i: nat, id: nat)
    requires ValidConfig(cfg) && IsRunOf(cfg, ws, steps) && i < |ws|
    ensures ObsTrack(ws[i].db.log, id) == if id < |ws[i].db.obs| then At(ws[i].db.obs[id].state) else Unborn
    ensures RunTrack(ws[i].db.log, id) == if id < |ws[i].db.runs| then At(ws[i].db.runs[id].state) else Unborn
  {
    RunKeeps(cfg, ws, steps, i);
    assert TracksObs(ws[i].db, id) && TracksRun(ws[i].db, id);
  }

  /** No run executes more often than its budget, a queued one has an execution left, an exhausted one is at rest. */
  lemma BudgetRespected(cfg: Config, ws: seq<World>, steps: seq<Step>, i: nat, rid: nat)
    requires ValidConfig(cfg) && IsRunOf(cfg, ws, steps) && i < |ws| && rid < |ws[i].db.runs|
    ensures var db := ws[i].db;
      && Executions(db.log, rid) <= cfg.attempts
      && (IsRun(db, rid, Queued) ==> Executions(db.log, rid) < cfg.attempts)
      && (db.runs[rid].exhausted ==> IsRun(db, rid, Failed) || IsRun(db, rid, Superseded) || IsRun(db, rid, Discarded))
  {
    RunKeeps(cfg, ws, steps, i);
    assert WithinBudget(cfg, ws[i].db, rid);
  }

  /** Nothing escapes the accounting: in every world of every run the two state-filtered sums are the sums over all rows. */
  lemma AccountingComplete(cfg: Config, ws: seq<World>, steps: seq<Step>, i: nat)
    requires ValidConfig(cfg) && IsRunOf(cfg, ws, steps) && i < |ws|
    ensures UsedBytes(ws[i].db.obs) == AllSizes(ws[i].db.obs)
    ensures ReservedBytes(ws[i].db.obs) == AllReservations(ws[i].db.obs)
  {
    RunKeeps(cfg, ws, steps, i);
    NothingUncharged(cfg, ws[i].db);
  }

  // --------------------------------------------------------------- quarantine

  predicate Purges(s: Step) {
    s.Operate? && s.c.OpPurge?
  }

  /** Every entry of the first is an entry of the second, with the same name and bytes. */
  predicate Keeps(q: map<string, nat>, q': map<string, nat>) {
    forall name :: name in q ==> name in q' && q'[name] == q[name]
  }

  lemma TickKeepsQuarantine(cfg: Config, w: World, t: TickStep)
    requires TickEnabled(w, t)
    ensures Keeps(w.fs.quarantine, TickNext(cfg, w, t).fs.quarantine)
  {
  }

  lemma WorkKeepsQuarantine(cfg: Config, w: World, k: WorkStep)
    requires WorkEnabled(cfg, w, k)
    ensures Keeps(w.fs.quarantine, WorkNext(w, k).fs.quarantine)
  {
  }

  lemma StepKeepsQuarantine(cfg: Config, w: World, s: Step)
    requires Enabled(cfg, w, s) && !Purges(s)
    ensures Keeps(w.fs.quarantine, Next(cfg, w, s).fs.quarantine)
  {
    match s {
      case Recovery(r) =>
      case Tick(t) => TickKeepsQuarantine(cfg, w, t);
      case Admit(a) =>
      case Work(k) => WorkKeepsQuarantine(cfg, w, k);
      case Operate(c) =>
      case Delete(pid, left) =>
      case _ =>
    }
  }

  /** As long as nobody purges it, quarantine only grows: no entry is ever lost, renamed or overwritten. */
  lemma {:induction false} QuarantineOnlyGrows(cfg: Config, ws: seq<World>, steps: seq<Step>, i: nat, j: nat)
    requires IsRunOf(cfg, ws, steps) && i <= j < |ws|
    requires forall k :: i <= k < j ==> !Purges(steps[k])
    ensures Keeps(ws[i].fs.quarantine, ws[j].fs.quarantine)
    decreases j - i
  {
    if i < j {
      QuarantineOnlyGrows(cfg, ws, steps, i, j - 1);
      StepKeepsQuarantine(cfg, ws[j - 1], steps[j - 1]);
    }
  }
}
