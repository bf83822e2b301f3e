/**
 * What every history of store transactions keeps, provided callers use the store the way
 * the controller and the operator commands do (`Allowed`).
 */
module Ledger {
  import opened Models
  import opened Naming
  import opened StoreSpec
  import opened History

  /** The calls the program makes: which edges, with which row changes, on which evidence. */
  predicate Allowed(cfg: Config, db: Db, op: Op) {
    match op
    case CreateObs(reserve) => reserve == cfg.reservation
    case MoveObs(oid, from, to, size, reserved) => AllowedMove(db, oid, from, to, size, reserved)
    case CreateRun(oid, _) => NeedsRun(db, oid)
    case MoveRun(rid, from, to) =>
      && !to.Accepted? && !to.Superseded? && !to.Discarded?
      && (to.Queued? && IsRun(db, rid, Failed) ==>
            !db.runs[rid].exhausted && Executions(db.log, rid) < cfg.attempts)
    case MarkExhausted(max) => max == cfg.attempts
    case _ => true
  }

  /** Callers name the directory of a new run after its observation and attempt. */
  predicate NamesDir(db: Db, op: Op) {
    match op
    case CreateRun(oid, dir) => dir == RunDir(oid, MaxAttempt(db.runs, oid) + 1)
    case Reprocess(rid, dir) => rid < |db.runs| ==> dir == RunDir(db.runs[rid].oid, db.runs[rid].attempt + 1)
    case _ => true
  }

  predicate AllowedMove(db: Db, oid: nat, from: ObsState, to: ObsState, size: Option<nat>, reserved: Option<nat>) {
    match to
    case Planned => false
    case Observing => size.None? && reserved.None?
    case Stored => size.Some? && reserved == Some(0)
    case ObserveFailed => size.None? && reserved == Some(0)
    case Deleting => size.None? && reserved.None? && HasRunIn(db, oid, Accepted) && !HasActive(db, oid)
    case Inconsistent => from.Stored? && size == Some(0) && reserved == Some(0)
    case Deleted => size == Some(0) && reserved == Some(0)
  }

  // ------------------------------------------------- one live run per observation

  /** The runs of an observation in the order they were created. */
  function RunsOf(runs: seq<RunRow>, oid: nat): seq<nat> {
    if runs == [] then [] else
      var n := |runs| - 1;
      RunsOf(runs[..n], oid) + if runs[n].oid == oid then [n] else []
  }

  lemma {:induction false} RunsOfMembers(runs: seq<RunRow>, oid: nat)
    ensures forall r :: r in RunsOf(runs, oid) <==> 0 <= r < |runs| && runs[r].oid == oid
  {
    if runs != [] {
      var n := |runs| - 1;
      RunsOfMembers(runs[..n], oid);
      assert forall r :: r in RunsOf(runs, oid) <==> r in RunsOf(runs[..n], oid) || (r == n && runs[n].oid == oid);
    }
  }

  lemma {:induction false} RunsOfSame(runs: seq<RunRow>, runs': seq<RunRow>, oid: nat)
    requires |runs| == |runs'| && forall r :: 0 <= r < |runs| ==> runs[r].oid == runs'[r].oid
    ensures RunsOf(runs, oid) == RunsOf(runs', oid)
  {
    if runs != [] {
      RunsOfSame(runs[..|runs| - 1], runs'[..|runs| - 1], oid);
    }
  }

  lemma RunsOfAppend(runs: seq<RunRow>, row: RunRow, oid: nat)
    ensures RunsOf(runs + [row], oid) == RunsOf(runs, oid) + if row.oid == oid then [|runs|] else []
  {
    assert (runs + [row])[..|runs|] == runs;
  }

  /** Attempts are exactly 1..n in creation order, and exactly the last one is not superseded. */
  predicate Chain(runs: seq<RunRow>, oid: nat) {
    var c := RunsOf(runs, oid);
    forall i :: 0 <= i < |c| ==>
      && c[i] < |runs|
      && runs[c[i]].attempt == i + 1
      && (runs[c[i]].state.Superseded? <==> i < |c| - 1)
  }

  ghost predicate Chains(db: Db) {
    forall oid :: Chain(db.runs, oid)
  }

  /** The position of a run in its chain is its attempt number. */
  lemma ChainPosition(runs: seq<RunRow>, rid: nat)
    requires rid < |runs| && Chain(runs, runs[rid].oid)
    ensures var c := RunsOf(runs, runs[rid].oid);
      && 1 <= runs[rid].attempt <= |c|
      && c[runs[rid].attempt - 1] == rid
      && (runs[rid].state.Superseded? <==> runs[rid].attempt < |c|)
  {
    var oid := runs[rid].oid;
    RunsOfMembers(runs, oid);
    var c := RunsOf(runs, oid);
    var i :| 0 <= i < |c| && c[i] == rid;
  }

  /** Any two different runs of one observation differ in attempt, and one of them is superseded. */
  lemma OneLiveRun(runs: seq<RunRow>, r1: nat, r2: nat)
    requires r1 < |runs| && r2 < |runs| && r1 != r2 && runs[r1].oid == runs[r2].oid
    requires Chain(runs, runs[r1].oid)
    ensures runs[r1].attempt != runs[r2].attempt
    ensures runs[r1].state.Superseded? || runs[r2].state.Superseded?
  {
    ChainPosition(runs, r1);
    ChainPosition(runs, r2);
  }

  /** A run that is not superseded never has an active sibling. */
  lemma NoOtherActive(db: Db, rid: nat)
    requires rid < |db.runs| && Chain(db.runs, db.runs[rid].oid) && !db.runs[rid].state.Superseded?
    ensures !HasOtherActive(db, db.runs[rid].oid, rid)
  {
    forall r | 0 <= r < |db.runs| && r != rid && db.runs[r].oid == db.runs[rid].oid
      ensures db.runs[r].state.Superseded?
    {
      OneLiveRun(db.runs, r, rid);
    }
  }

  /** The uniqueness constraint on (observation, attempt) never fires for the live run's successor. */
  lemma NextAttemptIsFree(db: Db, rid: nat)
    requires rid < |db.runs| && Chain(db.runs, db.runs[rid].oid) && !db.runs[rid].state.Superseded?
    ensures !HasAttempt(db, db.runs[rid].oid, db.runs[rid].attempt + 1)
  {
    ChainPosition(db.runs, rid);
    forall r | 0 <= r < |db.runs| && db.runs[r].oid == db.runs[rid].oid
      ensures db.runs[r].attempt != db.runs[rid].attempt + 1
    {
      ChainPosition(db.runs, r);
    }
  }

  lemma {:induction false} MaxAttemptOfNone(runs: seq<RunRow>, oid: nat)
    requires forall r :: 0 <= r < |runs| ==> runs[r].oid != oid
    ensures MaxAttempt(runs, oid) == 0
  {
    if runs != [] {
      MaxAttemptOfNone(runs[..|runs| - 1], oid);
    }
  }

  lemma {:induction false} RunsOfNone(runs: seq<RunRow>, oid: nat)
    requires forall r :: 0 <= r < |runs| ==> runs[r].oid != oid
    ensures RunsOf(runs, oid) == []
  {
    if runs != [] {
      RunsOfNone(runs[..|runs| - 1], oid);
    }
  }

  lemma ChainSameOids(runs: seq<RunRow>, runs': seq<RunRow>, oid: nat)
    requires |runs| == |runs'| && Chain(runs, oid)
    requires forall r :: 0 <= r < |runs| ==>
      && runs'[r].oid == runs[r].oid
      && runs'[r].attempt == runs[r].attempt
      && (runs'[r].state.Superseded? <==> runs[r].state.Superseded?)
    ensures Chain(runs', oid)
  {
    RunsOfSame(runs, runs', oid);
  }

  lemma ChainAppendOther(runs: seq<RunRow>, row: RunRow, oid: nat)
    requires Chain(runs, oid) && row.oid != oid
    ensures Chain(runs + [row], oid)
  {
    RunsOfAppend(runs, row, oid);
  }

  lemma ChainFirst(runs: seq<RunRow>, row: RunRow)
    requires forall r :: 0 <= r < |runs| ==> runs[r].oid != row.oid
    requires row.attempt == 1 && !row.state.Superseded?
    ensures Chain(runs + [row], row.oid)
  {
    RunsOfAppend(runs, row, row.oid);
    RunsOfNone(runs, row.oid);
  }

  /** Superseding the live run and appending its successor keeps the chain. */
  lemma ChainReplace(runs: seq<RunRow>, rid: nat, row: RunRow, oid: nat)
    requires rid < |runs| && row.oid == runs[rid].oid && row.attempt == runs[rid].attempt + 1
    requires !row.state.Superseded? && !runs[rid].state.Superseded?
    requires Chain(runs, oid) && Chain(runs, row.oid)
    ensures Chain(runs[rid := runs[rid].(state := Superseded)] + [row], oid)
  {
    var runs' := runs[rid := runs[rid].(state := Superseded)];
    RunsOfSame(runs, runs', oid);
    RunsOfAppend(runs', row, oid);
    RunsOfMembers(runs, oid);
    var c := RunsOf(runs, oid);
    ChainPosition(runs, rid);
    forall i | 0 <= i < |c|
      ensures row.oid != oid ==> c[i] != rid
      ensures row.oid == oid ==> (c[i] == rid <==> i == |c| - 1)
    {
      assert c[i] in c;
    }
  }

  lemma ChainsKept(cfg: Config, db: Db, op: Op)
    requires Chains(db) && Allowed(cfg, db, op)
    ensures Chains(After(db, op))
  {
    forall oid ensures Chain(After(db, op).runs, oid) {
      assert Chain(db.runs, oid);
      match op {
        case CreateRun(o, dir) => ChainCreate(db, o, dir, oid);
        case Reprocess(rid, dir) => ChainReprocess(db, rid, dir, oid);
        case _ => ChainSameOids(db.runs, After(db, op).runs, oid);
      }
    }
  }

  lemma ChainCreate(db: Db, o: nat, dir: string, oid: nat)
    requires Chain(db.runs, oid) && NeedsRun(db, o)
    ensures Chain(After(db, CreateRun(o, dir)).runs, oid)
  {
    MaxAttemptOfNone(db.runs, o);
    var row := RunRow(o, 1, Queued, false, dir);
    if o == oid { ChainFirst(db.runs, row); } else { ChainAppendOther(db.runs, row, oid); }
  }

  lemma ChainReprocess(db: Db, rid: nat, dir: string, oid: nat)
    requires Chains(db)
    ensures Chain(After(db, Reprocess(rid, dir)).runs, oid)
  {
    assert Chain(db.runs, oid);
    if Apply(db, Reprocess(rid, dir)).Ok? {
      assert Chain(db.runs, db.runs[rid].oid);
      ChainReplace(db.runs, rid, RunRow(db.runs[rid].oid, db.runs[rid].attempt + 1, Queued, false, dir), oid);
    }
  }

  // ------------------------------------------------------ log and rows agree

  predicate TracksObs(db: Db, oid: nat) {
    ObsTrack(db.log, oid) == if oid < |db.obs| then At(db.obs[oid].state) else Unborn
  }

  predicate TracksRun(db: Db, rid: nat) {
    RunTrack(db.log, rid) == if rid < |db.runs| then At(db.runs[rid].state) else Unborn
  }

  /** For every id, replaying the log gives the state in its row, and nothing for ids not yet used. */
  ghost predicate Tracked(db: Db) {
    (forall oid: nat :: TracksObs(db, oid)) && (forall rid: nat :: TracksRun(db, rid))
  }

  lemma TrackedCreatedObs(db: Db, reserve: nat)
    requires Tracked(db)
    ensures Tracked(CreatedObs(db, reserve))
  {
    forall id: nat ensures TracksObs(CreatedObs(db, reserve), id) && TracksRun(CreatedObs(db, reserve), id) {
      assert TracksObs(db, id) && TracksRun(db, id);
      TrackSnoc(db.log, ObsCreated(|db.obs|), id);
    }
  }

  lemma TrackedMovedObs(db: Db, oid: nat, to: ObsState, size: Option<nat>, reserved: Option<nat>)
    requires Tracked(db) && oid < |db.obs| && to in ObsTransitions(db.obs[oid].state)
    ensures Tracked(MovedObs(db, oid, to, size, reserved))
  {
    var db' := MovedObs(db, oid, to, size, reserved);
    forall id: nat ensures TracksObs(db', id) && TracksRun(db', id) {
      assert TracksObs(db, id) && TracksRun(db, id);
      TrackSnoc(db.log, ObsMoved(oid, db.obs[oid].state, to), id);
    }
  }

  lemma TrackedCreatedRun(db: Db, oid: nat, attempt: nat, dir: string)
    requires Tracked(db)
    ensures Tracked(CreatedRun(db, oid, attempt, dir))
  {
    var db' := CreatedRun(db, oid, attempt, dir);
    forall id: nat ensures TracksObs(db', id) && TracksRun(db', id) {
      assert TracksObs(db, id) && TracksRun(db, id);
      TrackSnoc(db.log, RunCreated(|db.runs|), id);
    }
  }

  lemma TrackedMovedRun(db: Db, rid: nat, to: RunState)
    requires Tracked(db) && rid < |db.runs| && to in RunTransitions(db.runs[rid].state)
    ensures Tracked(MovedRun(db, rid, to))
  {
    forall id: nat ensures TracksObs(MovedRun(db, rid, to), id) && TracksRun(MovedRun(db, rid, to), id) {
      assert TracksObs(db, id) && TracksRun(db, id);
      TrackSnoc(db.log, RunMoved(rid, db.runs[rid].state, to), id);
    }
  }

  lemma TrackedNotes(db: Db, runs: seq<RunRow>, notes: seq<Event>)
    requires Tracked(db) && (forall e :: e in notes ==> IsNote(e))
    requires |runs| == |db.runs| && forall r :: 0 <= r < |runs| ==> runs[r].state == db.runs[r].state
    ensures Tracked(db.(runs := runs, log := db.log + notes))
  {
    var db' := db.(runs := runs, log := db.log + notes);
    forall id: nat ensures TracksObs(db', id) && TracksRun(db', id) {
      assert TracksObs(db, id) && TracksRun(db, id);
      NotesLeaveTracks(db.log, notes, id);
    }
  }

  /** The two verdicts that free the raw data write both tables. */
  lemma TrackedVerdict(db: Db, rid: nat, to: RunState)
    requires Tracked(db) && rid < |db.runs| && to in RunTransitions(db.runs[rid].state)
    requires IsObs(db, db.runs[rid].oid, Stored)
    ensures Tracked(MovedObs(MovedRun(db, rid, to), db.runs[rid].oid, Deleting, None, None))
  {
    TrackedMovedRun(db, rid, to);
    TrackedMovedObs(MovedRun(db, rid, to), db.runs[rid].oid, Deleting, None, None);
  }

  /** The event log determines the state, over every transaction including the three compound ones. */
  lemma TrackedKept(db: Db, op: Op)
    requires Tracked(db)
    ensures Tracked(After(db, op))
  {
    if Apply(db, op).Ok? {
      match op {
        case CreateObs(reserve) => TrackedCreatedObs(db, reserve);
        case MoveObs(oid, from, to, size, reserved) => TrackedMovedObs(db, oid, to, size, reserved);
        case CreateRun(oid, dir) => TrackedCreatedRun(db, oid, MaxAttempt(db.runs, oid) + 1, dir);
        case MoveRun(rid, from, to) => TrackedMovedRun(db, rid, to);
        case MarkExhausted(max) =>
          TrackedNotes(db, MarkedRuns(db, max), RunNotes(SpentIds(db, max, |db.runs|)));
        case MarkRunExhausted(rid) =>
          TrackedNotes(db, After(db, op).runs, if After(db, op) == db then [] else [RunNote(rid)]);
        case Accept(rid) => TrackedVerdict(db, rid, Accepted);
        case Reprocess(rid, dir) =>
          TrackedMovedRun(db, rid, Superseded);
          TrackedCreatedRun(MovedRun(db, rid, Superseded), db.runs[rid].oid, db.runs[rid].attempt + 1, dir);
        case Discard(rid) => TrackedVerdict(db, rid, Discarded);
        case NoteObs(oid) => TrackedNotes(db, db.runs, [ObsNote(oid)]);
        case NoteRun(rid) => TrackedNotes(db, db.runs, [RunNote(rid)]);
      }
    }
  }

  // ------------------------------------------------------------ retry budget

  /** No run executes more often than its budget, and a queued run still has an execution left. */
  predicate Budget(cfg: Config, db: Db) {
    forall r :: 0 <= r < |db.runs| ==> WithinBudget(cfg, db, r)
  }

  predicate WithinBudget(cfg: Config, db: Db, r: nat)
    requires r < |db.runs|
  {
    && Executions(db.log, r) <= cfg.attempts
    && (db.runs[r].state.Queued? ==> Executions(db.log, r) < cfg.attempts)
    && (db.runs[r].exhausted ==> db.runs[r].state in {Failed, Superseded, Discarded})
  }

  lemma BudgetKept(cfg: Config, db: Db, op: Op)
    requires ValidConfig(cfg) && Tracked(db) && Budget(cfg, db) && Allowed(cfg, db, op)
    ensures Budget(cfg, After(db, op))
  {
    if Apply(db, op).Ok? {
      forall r: nat | r < |After(db, op).runs| ensures WithinBudget(cfg, After(db, op), r) {
        assert TracksRun(db, r);
        if r < |db.runs| {
          assert WithinBudget(cfg, db, r);
          OldRunWithinBudget(cfg, db, op, r);
        } else {
          NewRunWithinBudget(cfg, db, op, r);
        }
      }
    }
  }

  lemma OldRunWithinBudget(cfg: Config, db: Db, op: Op, r: nat)
    requires Allowed(cfg, db, op) && Apply(db, op).Ok? && r < |db.runs| && WithinBudget(cfg, db, r)
    ensures r < |After(db, op).runs| && WithinBudget(cfg, After(db, op), r)
  {
    ExecutionsAfter(db, op, r);
    MarkerOnlyOnFailures(db, op, r);
    RequeuedHasBudget(cfg, db, op, r);
  }

  /** The marker is set on failures, and only a retry takes a failure back to the queue. */
  lemma MarkerOnlyOnFailures(db: Db, op: Op, r: nat)
    requires r < |db.runs|
    requires db.runs[r].exhausted ==> db.runs[r].state in {Failed, Superseded, Discarded}
    ensures r < |After(db, op).runs|
    ensures var row := After(db, op).runs[r];
      row.exhausted ==> row.state in {Failed, Superseded, Discarded} || op == MoveRun(r, Failed, Queued)
  {
  }

  lemma RequeuedHasBudget(cfg: Config, db: Db, op: Op, r: nat)
    requires Allowed(cfg, db, op) && r < |db.runs|
    ensures r < |After(db, op).runs|
    ensures After(db, op).runs[r].state.Queued? && !db.runs[r].state.Queued? ==>
      op == MoveRun(r, Failed, Queued) && !After(db, op).runs[r].exhausted && Executions(db.log, r) < cfg.attempts
  {
  }

  lemma NewRunRow(db: Db, op: Op, r: nat)
    requires Apply(db, op).Ok? && |db.runs| <= r < |After(db, op).runs|
    ensures !op.MoveRun? && After(db, op).runs[r].state.Queued? && !After(db, op).runs[r].exhausted
  {
  }

  lemma NewRunWithinBudget(cfg: Config, db: Db, op: Op, r: nat)
    requires ValidConfig(cfg) && TracksRun(db, r) && Apply(db, op).Ok? && |db.runs| <= r < |After(db, op).runs|
    ensures WithinBudget(cfg, After(db, op), r)
  {
    NewRunRow(db, op, r);
    assert Executions(After(db, op).log, r) == 0 by {
      ExecutionsAfter(db, op, r);
      UnbornNeverRan(db.log, r);
    }
  }

  lemma ExecutionsAfter(db: Db, op: Op, r: nat)
    requires Apply(db, op).Ok?
    ensures Executions(After(db, op).log, r) == Executions(db.log, r) + if op == MoveRun(r, Queued, Running) then 1 else 0
  {
    LogGrows(db, op);
    if op.MoveRun? {
      ExecutionsSnoc(db.log, RunMoved(op.rid, op.rfrom, op.rto), r);
    } else {
      QuietAppend(db.log, Emitted(db, op), r);
    }
  }

  // -------------------------------------------------------- deletion authority

  /** A human gave the raw data up: some run was accepted or discarded. */
  predicate Freed(db: Db, oid: nat) {
    exists r :: 0 <= r < |db.runs| && db.runs[r].oid == oid && db.runs[r].state in {Accepted, Discarded}
  }

  predicate AuthorisedObs(db: Db, oid: nat)
    requires oid < |db.obs|
  {
    && (db.obs[oid].state.Deleting? ==> Freed(db, oid))
    && (Freed(db, oid) ==> db.obs[oid].state in {Deleting, Deleted})
    && (db.obs[oid].state.Deleted? ==> Freed(db, oid) || ObsMoved(oid, Inconsistent, Deleted) in db.log)
  }

  predicate AuthorisedRun(db: Db, r: nat)
    requires r < |db.runs|
  {
    IsObs(db, db.runs[r].oid, Stored) || IsObs(db, db.runs[r].oid, Deleting)
    || IsObs(db, db.runs[r].oid, Deleted) || IsObs(db, db.runs[r].oid, Inconsistent)
  }

  /**
   * Deletion needs a verdict, a verdict starts deletion, the only other way out is the
   * inconsistency drop, and only observations that were stored ever have runs.
   */
  predicate Authorised(db: Db) {
    && (forall oid :: 0 <= oid < |db.obs| ==> AuthorisedObs(db, oid))
    && (forall r :: 0 <= r < |db.runs| ==> AuthorisedRun(db, r))
  }

  lemma FreedIsKnown(db: Db, oid: nat)
    requires Authorised(db) && oid >= |db.obs|
    ensures !Freed(db, oid)
  {
    forall r | 0 <= r < |db.runs|
      ensures db.runs[r].oid < |db.obs|
    {
      assert AuthorisedRun(db, r);
    }
  }

  lemma AuthorisedKept(cfg: Config, db: Db, op: Op)
    requires Authorised(db) && Allowed(cfg, db, op)
    ensures Authorised(After(db, op))
  {
    if Apply(db, op).Ok? {
      var db' := After(db, op);
      LogGrows(db, op);
      forall oid | 0 <= oid < |db'.obs|
        ensures AuthorisedObs(db', oid)
      {
        FreedAfter(cfg, db, op, oid);
        if oid < |db.obs| {
          assert AuthorisedObs(db, oid);
        } else {
          FreedIsKnown(db, oid);
        }
      }
      forall r | 0 <= r < |db'.runs|
        ensures AuthorisedRun(db', r)
      {
        if r < |db.runs| {
          assert AuthorisedRun(db, r);
        }
        if op.MoveObs? && op.oid == db'.runs[r].oid {
          RunlessMoves(cfg, db, op, r);
        }
      }
    }
  }

  /** An observation with runs only moves among the states that may have runs. */
  lemma RunlessMoves(cfg: Config, db: Db, op: Op, r: nat)
    requires Authorised(db) && Allowed(cfg, db, op) && op.MoveObs? && Apply(db, op).Ok?
    requires r < |db.runs| && db.runs[r].oid == op.oid
    ensures op.oto in {Stored, Deleting, Deleted, Inconsistent}
  {
    assert AuthorisedRun(db, r);
  }

  lemma FreedAfter(cfg: Config, db: Db, op: Op, oid: nat)
    requires Allowed(cfg, db, op) && Apply(db, op).Ok?
    ensures Freed(After(db, op), oid) <==>
      Freed(db, oid) || ((op.Accept? || op.Discard?) && db.runs[op.rid].oid == oid)
  {
    var db' := After(db, op);
    if op.Accept? || op.Discard? {
      assert db'.runs[op.rid].state in {Accepted, Discarded};
    }
    if r :| 0 <= r < |db.runs| && db.runs[r].oid == oid && db.runs[r].state in {Accepted, Discarded} {
      assert db'.runs[r] == db.runs[r];
    }
    if r :| 0 <= r < |db'.runs| && db'.runs[r].oid == oid && db'.runs[r].state in {Accepted, Discarded} {
      assert r < |db.runs|;
      assert db.runs[r].oid == oid;
    }
  }

  /** While raw data is being deleted, every run is superseded except the one that carries the verdict. */
  lemma DeletingHasNoReader(db: Db, oid: nat)
    requires Chains(db) && Authorised(db) && IsObs(db, oid, Deleting)
    ensures !HasActive(db, oid) && !HasRunIn(db, oid, Failed)
  {
    assert AuthorisedObs(db, oid);
    var f :| 0 <= f < |db.runs| && db.runs[f].oid == oid && db.runs[f].state in {Accepted, Discarded};
    assert Chain(db.runs, oid);
    forall r | 0 <= r < |db.runs| && r != f && db.runs[r].oid == oid
      ensures db.runs[r].state.Superseded?
    {
      OneLiveRun(db.runs, r, f);
    }
  }

  /** An accepted verdict and a STORED observation never coexist, so that repair branch is dead. */
  lemma StoredHasNoVerdict(db: Db, oid: nat)
    requires Authorised(db) && IsObs(db, oid, Stored)
    ensures !HasRunIn(db, oid, Accepted)
  {
    assert AuthorisedObs(db, oid);
    assert !Freed(db, oid);
  }

  // -------------------------------------------------------- byte accounting

  predicate Accounts(cfg: Config, db: Db) {
    forall oid :: 0 <= oid < |db.obs| ==> AccountsFor(cfg, db, oid)
  }

  /** Reserved only while planned or observing, sized only once stored and until gone. */
  predicate AccountsFor(cfg: Config, db: Db, oid: nat)
    requires oid < |db.obs|
  {
    var row := db.obs[oid];
    && (CountsAsReserved(row.state) ==> row.size == 0 && row.reserved == cfg.reservation)
    && (!CountsAsReserved(row.state) ==> row.reserved == 0)
    && (row.state in {Inconsistent, Deleted, ObserveFailed} ==> row.size == 0)
  }

  lemma AccountsKept(cfg: Config, db: Db, op: Op)
    requires Accounts(cfg, db) && Allowed(cfg, db, op)
    ensures Accounts(cfg, After(db, op))
  {
    forall oid: nat | oid < |After(db, op).obs| ensures AccountsFor(cfg, After(db, op), oid) {
      assert oid < |db.obs| ==> AccountsFor(cfg, db, oid);
    }
  }

  function AllSizes(obs: seq<ObsRow>): nat {
    if obs == [] then 0 else AllSizes(obs[..|obs| - 1]) + obs[|obs| - 1].size
  }

  function AllReservations(obs: seq<ObsRow>): nat {
    if obs == [] then 0 else AllReservations(obs[..|obs| - 1]) + obs[|obs| - 1].reserved
  }

  /** Nothing escapes the two state-filtered sums: they are the sums over all rows. */
  lemma {:induction false} NothingUncharged(cfg: Config, db: Db)
    requires Accounts(cfg, db)
    ensures UsedBytes(db.obs) == AllSizes(db.obs)
    ensures ReservedBytes(db.obs) == AllReservations(db.obs)
    decreases |db.obs|
  {
    if db.obs != [] {
      var n := |db.obs| - 1;
      var init := db.(obs := db.obs[..n]);
      forall oid: nat | oid < n ensures AccountsFor(cfg, init, oid) {
        assert AccountsFor(cfg, db, oid);
      }
      assert AccountsFor(cfg, db, n);
      NothingUncharged(cfg, init);
    }
  }

  // ------------------------------------------------------ product directories

  predicate OwnDir(db: Db, r: nat)
    requires r < |db.runs|
  {
    db.runs[r].dir == RunDir(db.runs[r].oid, db.runs[r].attempt)
  }

  predicate OwnDirs(db: Db) {
    forall r :: 0 <= r < |db.runs| ==> OwnDir(db, r)
  }

  lemma OwnDirsKept(db: Db, op: Op)
    requires OwnDirs(db) && NamesDir(db, op)
    ensures OwnDirs(After(db, op))
  {
    var db' := After(db, op);
    forall r | 0 <= r < |db'.runs|
      ensures OwnDir(db', r)
    {
      if r < |db.runs| {
        assert OwnDir(db, r);
        SameName(db, op, r);
      } else {
        NewRunNamed(db, op);
      }
    }
  }

  lemma SameName(db: Db, op: Op, r: nat)
    requires r < |db.runs|
    ensures r < |After(db, op).runs|
    ensures var row, row' := db.runs[r], After(db, op).runs[r];
      row'.oid == row.oid && row'.attempt == row.attempt && row'.dir == row.dir
  {
  }

  lemma NewRunNamed(db: Db, op: Op)
    requires NamesDir(db, op)
    ensures |After(db, op).runs| > |db.runs| ==>
      |After(db, op).runs| == |db.runs| + 1 && OwnDir(After(db, op), |db.runs|)
  {
  }

  /** No two runs ever share an output directory. */
  lemma DirsDistinct(db: Db, r1: nat, r2: nat)
    requires Chains(db) && OwnDirs(db)
    requires r1 < |db.runs| && r2 < |db.runs| && r1 != r2
    ensures db.runs[r1].dir != db.runs[r2].dir
  {
    var a, b := db.runs[r1], db.runs[r2];
    if a.dir == b.dir {
      assert OwnDir(db, r1) && OwnDir(db, r2);
      RunDirInjective(a.oid, a.attempt, b.oid, b.attempt);
      assert Chain(db.runs, a.oid);
      OneLiveRun(db.runs, r1, r2);
    }
  }

  // ------------------------------------------------------------ all together

  ghost predicate LedgerInv(cfg: Config, db: Db) {
    && Chains(db) && Tracked(db) && Budget(cfg, db) && Authorised(db) && Accounts(cfg, db) && OwnDirs(db)
  }

  lemma LedgerInit(cfg: Config)
    ensures LedgerInv(cfg, EmptyDb)
  {
  }

  lemma LedgerKept(cfg: Config, db: Db, op: Op)
    requires ValidConfig(cfg) && LedgerInv(cfg, db) && Allowed(cfg, db, op) && NamesDir(db, op)
    ensures LedgerInv(cfg, After(db, op))
  {
    ChainsKept(cfg, db, op);
    TrackedKept(db, op);
    BudgetKept(cfg, db, op);
    AuthorisedKept(cfg, db, op);
    AccountsKept(cfg, db, op);
    OwnDirsKept(db, op);
  }
}
