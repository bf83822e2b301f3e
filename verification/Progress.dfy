/**
 * How many state changes a campaign can make. Counts are read off the event log, so they hold
 * across restarts.
 */
module Progress {
  import opened Models
  import opened StoreSpec
  import opened History
  import opened Ledger
  import opened Protocol
  import opened Safety
  import opened SafetySteps
  import opened Guarantees
  import Cache

  // ------------------------------------------------------------------- counts

  function One(b: bool): nat {
    if b then 1 else 0
  }

  function ObsMoves(log: seq<Event>, oid: nat): nat {
    if log == [] then 0 else
      var n := |log| - 1;
      ObsMoves(log[..n], oid) + One(log[n].ObsMoved? && log[n].oid == oid)
  }

  function RunMoves(log: seq<Event>, rid: nat): nat {
    if log == [] then 0 else
      var n := |log| - 1;
      RunMoves(log[..n], rid) + One(log[n].RunMoved? && log[n].rid == rid)
  }

  /** Failures of a worker before it claimed its run: they cost no execution. */
  function Abandons(log: seq<Event>, rid: nat): nat {
    if log == [] then 0 else
      var n := |log| - 1;
      Abandons(log[..n], rid) + One(log[n] == RunMoved(rid, Queued, Failed))
  }

  function StateChanges(log: seq<Event>): nat {
    if log == [] then 0 else
      var n := |log| - 1;
      StateChanges(log[..n]) + One(log[n].ObsMoved? || log[n].RunMoved?)
  }

  // ------------------------------------------------------- length of one path

  lemma {:induction false} UnbornRunNeverMoved(log: seq<Event>, rid: nat)
    requires RunTrack(log, rid).Unborn?
    ensures RunMoves(log, rid) == 0 && Abandons(log, rid) == 0 && Executions(log, rid) == 0
  {
    if log != [] {
      UnbornRunNeverMoved(log[..|log| - 1], rid);
    }
  }

  lemma {:induction false} UnbornObsNeverMoved(log: seq<Event>, oid: nat)
    requires ObsTrack(log, oid).Unborn?
    ensures ObsMoves(log, oid) == 0
  {
    if log != [] {
      UnbornObsNeverMoved(log[..|log| - 1], oid);
    }
  }

  /** How far short of a whole number of rounds a run in this state is. */
  function Short(s: RunState): nat {
    match s
    case Running => 2
    case Failed => 1
    case AwaitingQa => 1
    case _ => 0
  }

  /**
   * A run's state changes are determined by its executions: three a round when a worker
   * executes it, two when a worker abandons it first, less what is left of the last round.
   */
  lemma {:induction false} RunPathLength(log: seq<Event>, rid: nat)
    requires RunTrack(log, rid).At?
    ensures RunMoves(log, rid) + Short(RunTrack(log, rid).s) == 3 * Executions(log, rid) + 2 * Abandons(log, rid)
  {
    var n := |log| - 1;
    match RunTrack(log[..n], rid) {
      case Unborn => UnbornRunNeverMoved(log[..n], rid);
      case At(_) => RunPathLength(log[..n], rid);
      case Broken =>
    }
  }

  /** How many moves lie between creation and a state, at most. */
  function Depth(s: ObsState): nat {
    match s
    case Planned => 0
    case Observing => 1
    case Stored => 2
    case ObserveFailed => 2
    case Deleting => 3
    case Inconsistent => 3
    case Deleted => 4
  }

  /** The observation never left DELETING for INCONSISTENT: the table has that edge, but nothing takes it. */
  predicate EdgeUnused(log: seq<Event>, oid: nat) {
    ObsMoved(oid, Deleting, Inconsistent) !in log
  }

  lemma {:induction false} ObsPathLength(log: seq<Event>, oid: nat)
    requires ObsTrack(log, oid).At? && EdgeUnused(log, oid)
    ensures ObsMoves(log, oid) <= Depth(ObsTrack(log, oid).s)
  {
    var n := |log| - 1;
    assert log == log[..n] + [log[n]];
    match ObsTrack(log[..n], oid) {
      case Unborn => UnbornObsNeverMoved(log[..n], oid);
      case At(_) => ObsPathLength(log[..n], oid);
      case Broken =>
    }
  }

  // --------------------------------------------------------- sums over entities

  function SumObsMoves(log: seq<Event>, n: nat): nat {
    if n == 0 then 0 else SumObsMoves(log, n - 1) + ObsMoves(log, n - 1)
  }

  function SumRunMoves(log: seq<Event>, n: nat): nat {
    if n == 0 then 0 else SumRunMoves(log, n - 1) + RunMoves(log, n - 1)
  }

  function SumAbandons(log: seq<Event>, n: nat): nat {
    if n == 0 then 0 else SumAbandons(log, n - 1) + Abandons(log, n - 1)
  }

  lemma {:induction false} SumObsSnoc(log: seq<Event>, e: Event, n: nat)
    ensures SumObsMoves(log + [e], n) == SumObsMoves(log, n) + One(e.ObsMoved? && e.oid < n)
  {
    if n > 0 {
      SumObsSnoc(log, e, n - 1);
      assert (log + [e])[..|log|] == log;
    }
  }

  lemma {:induction false} SumRunSnoc(log: seq<Event>, e: Event, n: nat)
    ensures SumRunMoves(log + [e], n) == SumRunMoves(log, n) + One(e.RunMoved? && e.rid < n)
  {
    if n > 0 {
      SumRunSnoc(log, e, n - 1);
      assert (log + [e])[..|log|] == log;
    }
  }

  lemma {:induction false} SumsOfNothing(n: nat)
    ensures SumObsMoves([], n) == 0 && SumRunMoves([], n) == 0
  {
    if n > 0 {
      SumsOfNothing(n - 1);
    }
  }

  /** Every state-carrying event belongs to an entity with a row. */
  predicate Known(log: seq<Event>, obs: nat, runs: nat) {
    forall e :: e in log ==> (e.ObsMoved? ==> e.oid < obs) && (e.RunMoved? ==> e.rid < runs)
  }

  lemma {:induction false} ChangesAreMoves(log: seq<Event>, obs: nat, runs: nat)
    requires Known(log, obs, runs)
    ensures StateChanges(log) == SumObsMoves(log, obs) + SumRunMoves(log, runs)
  {
    if log == [] {
      SumsOfNothing(obs);
      SumsOfNothing(runs);
    } else {
      var n := |log| - 1;
      assert log == log[..n] + [log[n]];
      assert log[n] in log;
      ChangesAreMoves(log[..n], obs, runs);
      SumObsSnoc(log[..n], log[n], obs);
      SumRunSnoc(log[..n], log[n], runs);
    }
  }

  lemma {:induction false} UnbornIsUnmentioned(log: seq<Event>, id: nat)
    ensures ObsTrack(log, id).Unborn? ==> forall e :: e in log && e.ObsMoved? ==> e.oid != id
    ensures RunTrack(log, id).Unborn? ==> forall e :: e in log && e.RunMoved? ==> e.rid != id
  {
    if log != [] {
      var n := |log| - 1;
      UnbornIsUnmentioned(log[..n], id);
      assert log == log[..n] + [log[n]];
    }
  }

  lemma TrackedIsKnown(db: Db)
    requires Tracked(db)
    ensures Known(db.log, |db.obs|, |db.runs|)
  {
    forall e | e in db.log
      ensures (e.ObsMoved? ==> e.oid < |db.obs|) && (e.RunMoved? ==> e.rid < |db.runs|)
    {
      if e.ObsMoved? {
        assert TracksObs(db, e.oid);
        UnbornIsUnmentioned(db.log, e.oid);
      }
      if e.RunMoved? {
        assert TracksRun(db, e.rid);
        UnbornIsUnmentioned(db.log, e.rid);
      }
    }
  }

  ghost predicate EdgesUnused(db: Db) {
    forall o: nat :: EdgeUnused(db.log, o)
  }

  lemma NoneTakesTheEdge(cfg: Config, w: World, s: Step)
    requires Enabled(cfg, w, s)
    ensures var op := StepTx(cfg, w, s); op.MoveObs? && op.ofrom.Deleting? ==> op.oto.Deleted?
  {
    match s {
      case Recovery(r) =>
      case Tick(t) =>
      case Admit(a) =>
      case Work(k) =>
      case Operate(c) =>
      case Delete(pid, left) =>
      case _ =>
    }
  }

  lemma EdgeUnusedTx(db: Db, op: Op, oid: nat)
    requires EdgeUnused(db.log, oid) && (op.MoveObs? && op.ofrom.Deleting? ==> op.oto.Deleted?)
    ensures EdgeUnused(After(db, op).log, oid)
  {
    if Apply(db, op).Ok? {
      LogGrows(db, op);
    }
  }

  /** Nothing moves an observation from DELETING to INCONSISTENT, although the table allows it. */
  lemma {:induction false} DeletingNeverInconsistent(cfg: Config, ws: seq<World>, steps: seq<Step>, i: nat)
    requires IsRunOf(cfg, ws, steps) && i < |ws|
    ensures EdgesUnused(ws[i].db)
  {
    if i > 0 {
      DeletingNeverInconsistent(cfg, ws, steps, i - 1);
      NoneTakesTheEdge(cfg, ws[i - 1], steps[i - 1]);
      forall o: nat ensures EdgeUnused(ws[i].db.log, o) {
        EdgeUnusedTx(ws[i - 1].db, StepTx(cfg, ws[i - 1], steps[i - 1]), o);
      }
    }
  }

  lemma {:induction false} ObsMovesBounded(db: Db, n: nat)
    requires Tracked(db) && EdgesUnused(db) && n <= |db.obs|
    ensures SumObsMoves(db.log, n) <= 4 * n
  {
    if n > 0 {
      ObsMovesBounded(db, n - 1);
      assert TracksObs(db, n - 1) && EdgeUnused(db.log, n - 1);
      ObsPathLength(db.log, n - 1);
    }
  }

  lemma OneRunBounded(cfg: Config, db: Db, r: nat)
    requires Tracked(db) && Budget(cfg, db) && r < |db.runs|
    ensures RunMoves(db.log, r) <= 3 * cfg.attempts + 2 * Abandons(db.log, r)
  {
    assert WithinBudget(cfg, db, r) && TracksRun(db, r);
    RunPathLength(db.log, r);
  }

  lemma {:induction false} RunMovesBounded(cfg: Config, db: Db, k: nat, n: nat)
    requires Tracked(db) && Budget(cfg, db) && n <= |db.runs| && k == 3 * cfg.attempts
    ensures SumRunMoves(db.log, n) <= k * n + 2 * SumAbandons(db.log, n)
  {
    if n > 0 {
      RunMovesBounded(cfg, db, k, n - 1);
      OneRunBounded(cfg, db, n - 1);
      OneMore(k, n - 1);
    }
  }

  lemma OneMore(k: nat, n: nat)
    ensures k * (n + 1) == k * n + k
  {
  }

  // -------------------------------------------------- runs and reprocess decisions

  function SupersededRuns(runs: seq<RunRow>): nat {
    if runs == [] then 0 else
      var n := |runs| - 1;
      SupersededRuns(runs[..n]) + One(runs[n].state.Superseded?)
  }

  function LiveOids(runs: seq<RunRow>): set<nat> {
    set r | 0 <= r < |runs| && !runs[r].state.Superseded? :: runs[r].oid
  }

  /** Live runs of one table belong to different observations. */
  predicate LiveRunsDiffer(runs: seq<RunRow>) {
    forall r1, r2 | 0 <= r1 < r2 < |runs| ::
      !runs[r1].state.Superseded? && !runs[r2].state.Superseded? ==> runs[r1].oid != runs[r2].oid
  }

  lemma {:induction false} RunsCounted(runs: seq<RunRow>)
    requires LiveRunsDiffer(runs)
    ensures |runs| == |LiveOids(runs)| + SupersededRuns(runs)
  {
    if runs == [] {
      assert LiveOids(runs) == {};
    } else {
      var n := |runs| - 1;
      var init := runs[..n];
      RunsCounted(init);
      LiveOidsSnoc(init, runs[n]);
      assert runs == init + [runs[n]];
    }
  }

  lemma LiveOidsSnoc(init: seq<RunRow>, row: RunRow)
    requires LiveRunsDiffer(init + [row])
    ensures |LiveOids(init + [row])| == |LiveOids(init)| + One(!row.state.Superseded?)
  {
    var runs := init + [row];
    forall x ensures x in LiveOids(runs) <==> x in LiveOids(init) || (!row.state.Superseded? && x == row.oid) {
      if x in LiveOids(init) {
        var r :| 0 <= r < |init| && !init[r].state.Superseded? && init[r].oid == x;
        assert runs[r] == init[r];
      }
      if !row.state.Superseded? && x == row.oid {
        assert runs[|init|] == row;
      }
    }
    if row.state.Superseded? {
      assert LiveOids(runs) == LiveOids(init);
    } else {
      assert LiveOids(runs) == LiveOids(init) + {row.oid};
      forall r | 0 <= r < |init| && !init[r].state.Superseded? ensures init[r].oid != row.oid {
        assert runs[r] == init[r] && runs[|init|] == row;
      }
      assert row.oid !in LiveOids(init);
    }
  }

  lemma {:induction false} RangeCard(s: set<nat>, n: nat)
    requires forall x :: x in s ==> x < n
    ensures |s| <= n
  {
    if n == 0 {
      assert s == {};
    } else {
      RangeCard(s - {n - 1}, n - 1);
    }
  }

  /** There are at most as many runs as observations plus reprocess decisions. */
  lemma RunsBounded(db: Db)
    requires Chains(db) && Authorised(db)
    ensures |db.runs| <= |db.obs| + SupersededRuns(db.runs)
  {
    forall r1: nat, r2: nat | r1 < r2 < |db.runs| && !db.runs[r1].state.Superseded? && !db.runs[r2].state.Superseded?
      ensures db.runs[r1].oid != db.runs[r2].oid
    {
      if db.runs[r1].oid == db.runs[r2].oid {
        assert Chain(db.runs, db.runs[r1].oid);
        OneLiveRun(db.runs, r1, r2);
      }
    }
    RunsCounted(db.runs);
    forall x | x in LiveOids(db.runs) ensures x < |db.obs| {
      var r :| 0 <= r < |db.runs| && db.runs[r].oid == x;
      assert AuthorisedRun(db, r);
    }
    RangeCard(LiveOids(db.runs), |db.obs|);
  }

  lemma MoreRuns(k: nat, runs: nat, all: nat)
    requires runs <= all
    ensures k * runs <= k * all
  {
  }

  /** The state changes a store admits, in terms of observations, reprocess decisions and abandoned claims. */
  function ChangeBound(attempts: nat, observations: nat, reprocessed: nat, abandoned: nat): nat {
    4 * observations + 3 * attempts * (observations + reprocessed) + 2 * abandoned
  }

  lemma ChangeBoundMonotone(attempts: nat, n: nat, n': nat, reprocessed: nat, abandoned: nat)
    requires n <= n'
    ensures ChangeBound(attempts, n, reprocessed, abandoned) <= ChangeBound(attempts, n', reprocessed, abandoned)
  {
    MoreRuns(3 * attempts, n + reprocessed, n' + reprocessed);
  }

  lemma Summed(changes: nat, obsMoves: nat, runMoves: nat, k: nat, runs: nat, all: nat, n: nat, abandoned: nat)
    requires changes == obsMoves + runMoves && obsMoves <= 4 * n
    requires runMoves <= k * runs + 2 * abandoned && runs <= all
    ensures changes <= 4 * n + k * all + 2 * abandoned
  {
    MoreRuns(k, runs, all);
  }

  lemma ChangesBounded(cfg: Config, db: Db)
    requires Chains(db) && Tracked(db) && EdgesUnused(db) && Budget(cfg, db) && Authorised(db)
    ensures StateChanges(db.log) <=
      ChangeBound(cfg.attempts, |db.obs|, SupersededRuns(db.runs), SumAbandons(db.log, |db.runs|))
  {
    var o, r := |db.obs|, |db.runs|;
    TrackedIsKnown(db);
    ChangesAreMoves(db.log, o, r);
    ObsMovesBounded(db, o);
    RunMovesBounded(cfg, db, 3 * cfg.attempts, r);
    RunsBounded(db);
    Summed(StateChanges(db.log), SumObsMoves(db.log, o), SumRunMoves(db.log, r), 3 * cfg.attempts, r,
      o + SupersededRuns(db.runs), o, SumAbandons(db.log, r));
  }

  // -------------------------------------------------------- campaign limit

  predicate WithinCampaign(cfg: Config, db: Db, c: Ctl) {
    cfg.maxObs.Some? ==>
      |db.obs| <= cfg.maxObs.value && (!c.admission.NotAdmitting? ==> |db.obs| < cfg.maxObs.value)
  }

  lemma NoNewObs(cfg: Config, w: World, s: Step)
    requires Enabled(cfg, w, s) && s != Admit(AdmitInsert)
    ensures |Next(cfg, w, s).db.obs| == |w.db.obs|
  {
    match s {
      case Recovery(r) => SameObsCount(w.db, RecoveryTx(w, r));
      case Tick(t) => SameObsCount(w.db, TickTx(cfg, w, t));
      case Admit(a) =>
      case Work(k) => SameObsCount(w.db, WorkTx(w, k));
      case Operate(c) => SameObsCount(w.db, OperatorTx(w, c));
      case Delete(pid, left) => SameObsCount(w.db, CommitOp(w.procs[pid]));
      case Remark(note) => SameObsCount(w.db, note);
      case _ =>
    }
  }

  lemma SameObsCount(db: Db, op: Op)
    requires !op.CreateObs?
    ensures |After(db, op).obs| == |db.obs|
  {
  }

  lemma {:induction false} CampaignLimit(cfg: Config, ws: seq<World>, steps: seq<Step>, i: nat)
    requires IsRunOf(cfg, ws, steps) && i < |ws|
    ensures WithinCampaign(cfg, ws[i].db, ws[i].ctl)
  {
    if i > 0 {
      CampaignLimit(cfg, ws, steps, i - 1);
      var w, s := ws[i - 1], steps[i - 1];
      if s.Admit? {
        CampaignAdmit(cfg, w, s.a);
      } else {
        NoNewObs(cfg, w, s);
        Cache.OthersRecordNothing(cfg, w, s);
      }
    }
  }

  lemma CampaignAdmit(cfg: Config, w: World, a: AdmitStep)
    requires AdmitEnabled(cfg, w, a) && WithinCampaign(cfg, w.db, w.ctl)
    ensures WithinCampaign(cfg, AdmitNext(cfg, w, a).db, AdmitNext(cfg, w, a).ctl)
  {
  }

  /**
   * Termination with a bound, for every run of a limited campaign: crashes, restarts, retries and
   * operators included, the log holds at most 4N + 3M(N + R) + 2F state changes, where R counts the
   * reprocess decisions and F the workers that failed before claiming their run.
   */
  lemma CampaignBounded(cfg: Config, ws: seq<World>, steps: seq<Step>, i: nat)
    requires ValidConfig(cfg) && cfg.maxObs.Some? && IsRunOf(cfg, ws, steps) && i < |ws|
    ensures var db := ws[i].db;
      StateChanges(db.log) <=
        ChangeBound(cfg.attempts, cfg.maxObs.value, SupersededRuns(db.runs), SumAbandons(db.log, |db.runs|))
  {
    RunKeeps(cfg, ws, steps, i);
    CampaignLimit(cfg, ws, steps, i);
    DeletingNeverInconsistent(cfg, ws, steps, i);
    var db := ws[i].db;
    ChangesBounded(cfg, db);
    ChangeBoundMonotone(cfg.attempts, |db.obs|, cfg.maxObs.value, SupersededRuns(db.runs), SumAbandons(db.log, |db.runs|));
  }

  // ------------------------------------------------------ unattended campaigns

  /** No operator, no worker failing before its claim, no measurement set found missing. */
  predicate Unattended(s: Step) {
    match s
    case Operate(_) => false
    case Work(k) => !k.RunAbandon?
    case Recovery(r) => !r.RecMissing?
    case _ => true
  }

  /** What such a campaign never leaves. */
  ghost predicate Untouched(db: Db) {
    && (forall o :: 0 <= o < |db.obs| ==> Depth(db.obs[o].state) <= 2)
    && (forall r :: 0 <= r < |db.runs| ==> Automatic(db.runs[r].state))
    && (forall r: nat :: Abandons(db.log, r) == 0)
  }

  predicate Automatic(s: RunState) {
    s.Queued? || s.Running? || s.AwaitingQa? || s.Failed?
  }

  predicate AutomaticOp(op: Op) {
    match op
    case MoveObs(_, _, to, _, _) => Depth(to) <= 2
    case MoveRun(_, from, to) => Automatic(to) && !(from.Queued? && to.Failed?)
    case Accept(_) => false
    case Reprocess(_, _) => false
    case Discard(_) => false
    case _ => true
  }

  lemma {:induction false} AbandonsAppend(log: seq<Event>, more: seq<Event>, rid: nat)
    requires RunMoved(rid, Queued, Failed) !in more
    ensures Abandons(log + more, rid) == Abandons(log, rid)
  {
    if more == [] {
      assert log + more == log;
    } else {
      var n := |more| - 1;
      AbandonsAppend(log, more[..n], rid);
      assert (log + more)[..|log| + n] == log + more[..n];
    }
  }

  lemma UntouchedTx(db: Db, op: Op)
    requires Untouched(db) && AutomaticOp(op)
    ensures Untouched(After(db, op))
  {
    var db' := After(db, op);
    if Apply(db, op).Ok? {
      LogGrows(db, op);
      forall r: nat ensures Abandons(db'.log, r) == 0 {
        AbandonsAppend(db.log, Emitted(db, op), r);
      }
    }
    forall o | 0 <= o < |db'.obs| ensures Depth(db'.obs[o].state) <= 2 {
      ObsFrame(db, op, o);
    }
    forall r | 0 <= r < |db'.runs| ensures Automatic(db'.runs[r].state) {
      RunFrame(db, op, r);
    }
  }

  lemma UnattendedOps(cfg: Config, w: World, s: Step)
    requires Enabled(cfg, w, s) && Unattended(s) && w.procs == map[] && Untouched(w.db)
    ensures AutomaticOp(StepTx(cfg, w, s))
    ensures Next(cfg, w, s).procs == map[]
  {
    match s {
      case Recovery(r) =>
      case Tick(t) =>
      case Admit(a) =>
      case Work(k) =>
      case _ =>
    }
  }

  lemma {:induction false} UnattendedRun(cfg: Config, ws: seq<World>, steps: seq<Step>, i: nat)
    requires IsRunOf(cfg, ws, steps) && i < |ws| && forall j :: 0 <= j < |steps| ==> Unattended(steps[j])
    ensures Untouched(ws[i].db) && ws[i].procs == map[]
  {
    if i > 0 {
      UnattendedRun(cfg, ws, steps, i - 1);
      UnattendedOps(cfg, ws[i - 1], steps[i - 1]);
      UntouchedTx(ws[i - 1].db, StepTx(cfg, ws[i - 1], steps[i - 1]));
    }
  }

  lemma {:induction false} UntouchedObsMoves(db: Db, n: nat)
    requires Tracked(db) && EdgesUnused(db) && Untouched(db) && n <= |db.obs|
    ensures SumObsMoves(db.log, n) <= 2 * n
  {
    if n > 0 {
      UntouchedObsMoves(db, n - 1);
      assert TracksObs(db, n - 1) && EdgeUnused(db.log, n - 1);
      ObsPathLength(db.log, n - 1);
    }
  }

  lemma OneUntouchedRun(cfg: Config, db: Db, r: nat)
    requires Tracked(db) && Budget(cfg, db) && Untouched(db) && r < |db.runs|
    ensures RunMoves(db.log, r) + 1 <= 3 * cfg.attempts
  {
    assert WithinBudget(cfg, db, r) && TracksRun(db, r);
    RunPathLength(db.log, r);
    assert Automatic(db.runs[r].state);
  }

  lemma {:induction false} UntouchedRunMoves(cfg: Config, db: Db, k: nat, n: nat)
    requires Tracked(db) && Budget(cfg, db) && Untouched(db) && n <= |db.runs| && k + 1 == 3 * cfg.attempts
    ensures SumRunMoves(db.log, n) <= k * n
  {
    if n > 0 {
      UntouchedRunMoves(cfg, db, k, n - 1);
      OneUntouchedRun(cfg, db, n - 1);
      OneMore(k, n - 1);
    }
  }

  lemma {:induction false} NoneSuperseded(runs: seq<RunRow>)
    requires forall r :: 0 <= r < |runs| ==> Automatic(runs[r].state)
    ensures SupersededRuns(runs) == 0
  {
    if runs != [] {
      NoneSuperseded(runs[..|runs| - 1]);
    }
  }

  lemma UntouchedSummed(changes: nat, obsMoves: nat, runMoves: nat, k: nat, runs: nat, n: nat)
    requires changes == obsMoves + runMoves && obsMoves <= 2 * n && runMoves <= k * runs && runs <= n
    ensures changes <= n * (k + 2)
  {
    MoreRuns(k, runs, n);
  }

  lemma UntouchedChanges(cfg: Config, db: Db)
    requires ValidConfig(cfg) && Chains(db) && Tracked(db) && EdgesUnused(db) && Budget(cfg, db) && Authorised(db)
    requires Untouched(db)
    ensures StateChanges(db.log) <= |db.obs| * (3 * cfg.attempts + 1)
  {
    var o, r, k: nat := |db.obs|, |db.runs|, 3 * cfg.attempts - 1;
    TrackedIsKnown(db);
    ChangesAreMoves(db.log, o, r);
    UntouchedObsMoves(db, o);
    UntouchedRunMoves(cfg, db, k, r);
    NoneSuperseded(db.runs);
    RunsBounded(db);
    UntouchedSummed(StateChanges(db.log), SumObsMoves(db.log, o), SumRunMoves(db.log, r), k, r, o);
  }

  /** An unattended campaign of N observations makes at most N(3M + 1) state changes, restarts included. */
  lemma UnattendedBounded(cfg: Config, ws: seq<World>, steps: seq<Step>, i: nat)
    requires ValidConfig(cfg) && cfg.maxObs.Some? && IsRunOf(cfg, ws, steps) && i < |ws|
    requires forall j :: 0 <= j < |steps| ==> Unattended(steps[j])
    ensures StateChanges(ws[i].db.log) <= cfg.maxObs.value * (3 * cfg.attempts + 1)
  {
    var db := ws[i].db;
    assert LedgerInv(cfg, db) by {
      RunKeeps(cfg, ws, steps, i);
    }
    assert Untouched(db) by {
      UnattendedRun(cfg, ws, steps, i);
    }
    assert EdgesUnused(db) by {
      DeletingNeverInconsistent(cfg, ws, steps, i);
    }
    assert |db.obs| <= cfg.maxObs.value by {
      CampaignLimit(cfg, ws, steps, i);
    }
    UntouchedChanges(cfg, db);
    MoreRuns(3 * cfg.attempts + 1, |db.obs|, cfg.maxObs.value);
  }
}
