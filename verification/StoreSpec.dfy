/**
 * The persisted store as a value: rows of the two tables in id order, the event log, and
 * the transactions as functions. A transaction that raises rolls back, so its result is an
 * error and no new store. Ids are positions in the tables, counted from zero.
 */
module StoreSpec {
  import opened Models

  datatype Db = Db(obs: seq<ObsRow>, runs: seq<RunRow>, log: seq<Event>)

  const EmptyDb := Db([], [], [])

  // ---------------------------------------------------------------- queries

  /** How often a run entered RUNNING according to the event log. */
  function Executions(log: seq<Event>, rid: nat): nat {
    if log == [] then 0 else
      var n := |log| - 1;
      Executions(log[..n], rid) + if log[n] == RunMoved(rid, Queued, Running) then 1 else 0
  }

  function MaxAttempt(runs: seq<RunRow>, oid: nat): nat {
    if runs == [] then 0 else
      var n := |runs| - 1;
      var m := MaxAttempt(runs[..n], oid);
      if runs[n].oid == oid && runs[n].attempt > m then runs[n].attempt else m
  }

  predicate IsObs(db: Db, oid: nat, s: ObsState) {
    oid < |db.obs| && db.obs[oid].state == s
  }

  predicate IsRun(db: Db, rid: nat, s: RunState) {
    rid < |db.runs| && db.runs[rid].state == s
  }

  predicate HasRunIn(db: Db, oid: nat, s: RunState) {
    exists r :: 0 <= r < |db.runs| && db.runs[r].oid == oid && db.runs[r].state == s
  }

  predicate HasRuns(db: Db, oid: nat) {
    exists r :: 0 <= r < |db.runs| && db.runs[r].oid == oid
  }

  predicate HasActive(db: Db, oid: nat) {
    exists r :: 0 <= r < |db.runs| && db.runs[r].oid == oid && Active(db.runs[r].state)
  }

  predicate HasOtherActive(db: Db, oid: nat, rid: nat) {
    exists r :: 0 <= r < |db.runs| && r != rid && db.runs[r].oid == oid && Active(db.runs[r].state)
  }

  predicate HasAttempt(db: Db, oid: nat, attempt: nat) {
    exists r :: 0 <= r < |db.runs| && db.runs[r].oid == oid && db.runs[r].attempt == attempt
  }

  /** The failures the automatic retry may run again. */
  predicate Retryable(db: Db, max: nat, rid: nat) {
    && IsRun(db, rid, Failed)
    && !db.runs[rid].exhausted
    && IsObs(db, db.runs[rid].oid, Stored)
    && !HasOtherActive(db, db.runs[rid].oid, rid)
    && Executions(db.log, rid) < max
  }

  /** STORED observations that never got their initial run. */
  predicate NeedsRun(db: Db, oid: nat) {
    IsObs(db, oid, Stored) && !HasRuns(db, oid)
  }

  predicate HumanActionable(row: RunRow) {
    row.state.AwaitingQa? || (row.state.Failed? && row.exhausted)
  }

  predicate CountsAsUsed(s: ObsState) {
    s.Stored? || s.Deleting? || s.Inconsistent?
  }

  predicate CountsAsReserved(s: ObsState) {
    s.Planned? || s.Observing?
  }

  function UsedBytes(obs: seq<ObsRow>): nat {
    if obs == [] then 0 else
      var n := |obs| - 1;
      UsedBytes(obs[..n]) + if CountsAsUsed(obs[n].state) then obs[n].size else 0
  }

  function ReservedBytes(obs: seq<ObsRow>): nat {
    if obs == [] then 0 else
      var n := |obs| - 1;
      ReservedBytes(obs[..n]) + if CountsAsReserved(obs[n].state) then obs[n].reserved else 0
  }

  // ----------------------------------------------------------- transactions

  datatype Op =
    | CreateObs(reserve: nat)
    | MoveObs(oid: nat, ofrom: ObsState, oto: ObsState, size: Option<nat>, reserved: Option<nat>)
    | CreateRun(oid: nat, dir: string)
    | MoveRun(rid: nat, rfrom: RunState, rto: RunState)
    | MarkExhausted(max: nat)
    | MarkRunExhausted(rid: nat)
    | Accept(rid: nat)
    | Reprocess(rid: nat, dir: string)
    | Discard(rid: nat)
    | NoteObs(oid: nat)
    | NoteRun(rid: nat)

  function Set<T>(change: Option<T>, current: T): T {
    if change.Some? then change.value else current
  }

  function CreatedObs(db: Db, reserve: nat): Db {
    db.(obs := db.obs + [ObsRow(Planned, 0, reserve)], log := db.log + [ObsCreated(|db.obs|)])
  }

  function MovedObs(db: Db, oid: nat, to: ObsState, size: Option<nat>, reserved: Option<nat>): Db
    requires oid < |db.obs|
  {
    var row := db.obs[oid];
    db.(obs := db.obs[oid := ObsRow(to, Set(size, row.size), Set(reserved, row.reserved))],
        log := db.log + [ObsMoved(oid, row.state, to)])
  }

  function CreatedRun(db: Db, oid: nat, attempt: nat, dir: string): Db {
    db.(runs := db.runs + [RunRow(oid, attempt, Queued, false, dir)], log := db.log + [RunCreated(|db.runs|)])
  }

  function MovedRun(db: Db, rid: nat, to: RunState): Db
    requires rid < |db.runs|
  {
    db.(runs := db.runs[rid := db.runs[rid].(state := to)],
        log := db.log + [RunMoved(rid, db.runs[rid].state, to)])
  }

  /** The row update of the budget-exhaustion statement; `max` is the execution budget. */
  predicate SpendsBudget(db: Db, max: nat, rid: nat) {
    IsRun(db, rid, Failed) && !db.runs[rid].exhausted && Executions(db.log, rid) >= max
  }

  function SpentIds(db: Db, max: nat, n: nat): seq<nat>
    requires n <= |db.runs|
  {
    if n == 0 then [] else
      SpentIds(db, max, n - 1) + if SpendsBudget(db, max, n - 1) then [n - 1] else []
  }

  function MarkedRuns(db: Db, max: nat): (runs: seq<RunRow>)
    ensures |runs| == |db.runs|
  {
    seq(|db.runs|, r requires 0 <= r < |db.runs| =>
      if SpendsBudget(db, max, r) then db.runs[r].(exhausted := true) else db.runs[r])
  }

  function RunNotes(ids: seq<nat>): (notes: seq<Event>)
    ensures |notes| == |ids|
  {
    seq(|ids|, i requires 0 <= i < |ids| => RunNote(ids[i]))
  }

  function Marked(db: Db, max: nat): Db {
    db.(runs := MarkedRuns(db, max), log := db.log + RunNotes(SpentIds(db, max, |db.runs|)))
  }

  /** The checks shared by the three verdicts, all made inside their transaction. */
  function VerdictCheck(db: Db, rid: nat, froms: set<RunState>): Result<nat> {
    if rid >= |db.runs| then Err(NoSuchRow)
    else if db.runs[rid].state !in froms then Err(WrongRunState)
    else
      var oid := db.runs[rid].oid;
      if oid >= |db.obs| then Err(NoSuchRow)
      else if !db.obs[oid].state.Stored? then Err(NotStored)
      else if HasOtherActive(db, oid, rid) then Err(OtherActiveRun)
      else Ok(oid)
  }

  /** What one transaction makes of the store. */
  function Apply(db: Db, op: Op): Result<Db> {
    match op
    case CreateObs(reserve) => Ok(CreatedObs(db, reserve))
    case MoveObs(oid, from, to, size, reserved) =>
      if to !in ObsTransitions(from) then Err(IllegalTransition)
      else if !IsObs(db, oid, from) then Err(GuardFailed)
      else Ok(MovedObs(db, oid, to, size, reserved))
    case CreateRun(oid, dir) =>
      if oid >= |db.obs| then Err(NoSuchRow)
      else Ok(CreatedRun(db, oid, MaxAttempt(db.runs, oid) + 1, dir))
    case MoveRun(rid, from, to) =>
      if to !in RunTransitions(from) then Err(IllegalTransition)
      else if !IsRun(db, rid, from) then Err(GuardFailed)
      else Ok(MovedRun(db, rid, to))
    case MarkExhausted(max) => Ok(Marked(db, max))
    case MarkRunExhausted(rid) =>
      if IsRun(db, rid, Failed) && !db.runs[rid].exhausted
      then Ok(db.(runs := db.runs[rid := db.runs[rid].(exhausted := true)], log := db.log + [RunNote(rid)]))
      else Ok(db)
    case Accept(rid) =>
      var check := VerdictCheck(db, rid, {AwaitingQa});
      if check.Err? then Err(check.error)
      else Ok(MovedObs(MovedRun(db, rid, Accepted), check.value, Deleting, None, None))
    case Reprocess(rid, dir) =>
      var check := VerdictCheck(db, rid, {AwaitingQa, Failed});
      if check.Err? then Err(check.error)
      else if HasAttempt(db, check.value, db.runs[rid].attempt + 1) then Err(UniqueViolated)
      else Ok(CreatedRun(MovedRun(db, rid, Superseded), check.value, db.runs[rid].attempt + 1, dir))
    case Discard(rid) =>
      var check := VerdictCheck(db, rid, {Failed});
      if check.Err? then Err(check.error)
      else Ok(MovedObs(MovedRun(db, rid, Discarded), check.value, Deleting, None, None))
    case NoteObs(oid) => Ok(db.(log := db.log + [ObsNote(oid)]))
    case NoteRun(rid) => Ok(db.(log := db.log + [RunNote(rid)]))
  }

  /** The store after a transaction, whether it committed or rolled back. */
  function After(db: Db, op: Op): Db {
    var r := Apply(db, op);
    if r.Ok? then r.value else db
  }

  /** The rows a committed transaction appends to the event table. */
  function Emitted(db: Db, op: Op): seq<Event> {
    match op
    case CreateObs(_) => [ObsCreated(|db.obs|)]
    case MoveObs(oid, from, to, _, _) => [ObsMoved(oid, from, to)]
    case CreateRun(_, _) => [RunCreated(|db.runs|)]
    case MoveRun(rid, from, to) => [RunMoved(rid, from, to)]
    case MarkExhausted(max) => RunNotes(SpentIds(db, max, |db.runs|))
    case MarkRunExhausted(rid) => if IsRun(db, rid, Failed) && !db.runs[rid].exhausted then [RunNote(rid)] else []
    case Accept(rid) =>
      if rid >= |db.runs| then [] else [RunMoved(rid, AwaitingQa, Accepted), ObsMoved(db.runs[rid].oid, Stored, Deleting)]
    case Reprocess(rid, _) =>
      if rid >= |db.runs| then [] else [RunMoved(rid, db.runs[rid].state, Superseded), RunCreated(|db.runs|)]
    case Discard(rid) =>
      if rid >= |db.runs| then [] else [RunMoved(rid, Failed, Discarded), ObsMoved(db.runs[rid].oid, Stored, Deleting)]
    case NoteObs(oid) => [ObsNote(oid)]
    case NoteRun(rid) => [RunNote(rid)]
  }

  lemma LogGrows(db: Db, op: Op)
    requires Apply(db, op).Ok?
    ensures After(db, op).log == db.log + Emitted(db, op)
  {
    match op {
      case MarkRunExhausted(rid) => assert db.log + [] == db.log;
      case _ =>
    }
  }
}
