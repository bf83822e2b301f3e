/**
 * The store as the program has it: an object whose tables are updated inside transactions.
 * Every transaction is proved to do what `StoreSpec.Apply` says and every query to return
 * exactly the rows its text describes.
 */
module ControlStore {
  import opened Models
  import opened StoreSpec

  /** Ids below a bound in increasing order, as ORDER BY id returns them. */
  predicate Ascending(ids: seq<nat>, bound: nat) {
    && (forall i, j | 0 <= i < j < |ids| :: ids[i] < ids[j])
    && (forall i | 0 <= i < |ids| :: ids[i] < bound)
  }

  /** The rows in a state that a pass has yet to look at, in order; every other row in it is excused. */
  predicate Listed(db: Db, ids: seq<nat>, s: ObsState, excused: set<nat>) {
    && Ascending(ids, |db.obs|)
    && (forall k :: 0 <= k < |ids| ==> IsObs(db, ids[k], s))
    && (forall o :: 0 <= o < |db.obs| && db.obs[o].state == s ==> o in ids || o in excused)
  }

  /** No observation row but this one changes. */
  predicate SameRowsBut(db: Db, db': Db, oid: nat) {
    && oid < |db.obs| == |db'.obs|
    && forall o :: 0 <= o < |db.obs| && o != oid ==> db'.obs[o] == db.obs[o]
  }

  lemma ListedNext(db: Db, db': Db, ids: seq<nat>, s: ObsState, excused: set<nat>, excused': set<nat>)
    requires ids != [] && Listed(db, ids, s, excused) && SameRowsBut(db, db', ids[0])
    requires excused <= excused' && (db'.obs[ids[0]].state == s ==> ids[0] in excused')
    ensures Listed(db', ids[1..], s, excused')
  {
    forall k | 0 <= k < |ids| - 1 ensures IsObs(db', ids[1..][k], s) {
      assert IsObs(db, ids[k + 1], s);
    }
    assert ids == [ids[0]] + ids[1..];
  }

  /** A transaction either commits with its effect or rolls back with its error. */
  predicate Ran(before: Db, op: Op, after: Db, r: Result<()>) {
    match Apply(before, op)
    case Ok(db) => after == db && r.Ok?
    case Err(e) => after == before && r == Err(e)
  }

  lemma ExecutionsPrefix(log: seq<Event>, n: nat, rid: nat)
    requires n < |log|
    ensures Executions(log[..n + 1], rid) ==
      Executions(log[..n], rid) + if log[n] == RunMoved(rid, Queued, Running) then 1 else 0
  {
    assert log[..n + 1][..n] == log[..n];
  }

  /** Executions of all runs of one observation, as the join of the event and run tables counts them. */
  function ObsExecutions(log: seq<Event>, runs: seq<RunRow>, oid: nat): nat {
    if log == [] then 0 else
      var n := |log| - 1;
      ObsExecutions(log[..n], runs, oid) + if ExecutionOf(log[n], runs, oid) then 1 else 0
  }

  predicate ExecutionOf(e: Event, runs: seq<RunRow>, oid: nat) {
    e.RunMoved? && e.rfrom.Queued? && e.rto.Running? && e.rid < |runs| && runs[e.rid].oid == oid
  }

  /** An unmarked failure that has executed as often as it may. */
  predicate OutOfBudget(row: RunRow, log: seq<Event>, rid: nat, max: nat) {
    row.state.Failed? && !row.exhausted && Executions(log, rid) >= max
  }

  lemma {:induction false} SpentAreOutOfBudget(db: Db, max: nat, n: nat)
    requires n <= |db.runs|
    ensures Ascending(SpentIds(db, max, n), n)
    ensures forall r :: r in SpentIds(db, max, n) <==> 0 <= r < n && OutOfBudget(db.runs[r], db.log, r, max)
  {
    if n > 0 {
      SpentAreOutOfBudget(db, max, n - 1);
    }
  }

  class Store {
    var obs: seq<ObsRow>
    var runs: seq<RunRow>
    var log: seq<Event>

    ghost function Value(): Db
      reads this
    {
      Db(obs, runs, log)
    }

    constructor ()
      ensures Value() == EmptyDb
    {
      obs, runs, log := [], [], [];
    }

    // ------------------------------------------------------- observation rows

    method CreateObservation(reserve: nat) returns (oid: nat)
      modifies this
      ensures Ran(old(Value()), CreateObs(reserve), Value(), Ok(()))
      ensures oid == |old(obs)|
    {
      oid := |obs|;
      obs := obs + [ObsRow(Planned, 0, reserve)];
      log := log + [ObsCreated(oid)];
    }

    method TransitionObservation(oid: nat, expected: ObsState, next: ObsState, size: Option<nat>, reserved: Option<nat>)
      returns (r: Result<()>)
      modifies this
      ensures Ran(old(Value()), MoveObs(oid, expected, next, size, reserved), Value(), r)
    {
      if next !in ObsTransitions(expected) {
        return Err(IllegalTransition);
      }
      if oid >= |obs| || obs[oid].state != expected {
        return Err(GuardFailed);
      }
      var row := obs[oid].(state := next);
      if size.Some? {
        row := row.(size := size.value);
      }
      if reserved.Some? {
        row := row.(reserved := reserved.value);
      }
      obs := obs[oid := row];
      log := log + [ObsMoved(oid, expected, next)];
      return Ok(());
    }

    method ListObservations(state: ObsState) returns (ids: seq<nat>)
      ensures Ascending(ids, |obs|) && forall o :: o in ids <==> 0 <= o < |obs| && obs[o].state == state
    {
      ids := [];
      for o := 0 to |obs|
        invariant Ascending(ids, o) && forall k :: k in ids <==> 0 <= k < o && obs[k].state == state
      {
        if obs[o].state == state {
          ids := ids + [o];
        }
      }
    }

    method ListStoredWithoutRuns() returns (ids: seq<nat>)
      ensures Ascending(ids, |obs|) && forall o :: o in ids <==> 0 <= o < |obs| && NeedsRun(Value(), o)
      ensures forall o :: o in ids <==>
        0 <= o < |obs| && obs[o].state.Stored? && forall r :: 0 <= r < |runs| ==> runs[r].oid != o
    {
      ids := [];
      for o := 0 to |obs|
        invariant Ascending(ids, o) && forall k :: k in ids <==> 0 <= k < o && NeedsRun(Value(), k)
      {
        var none := true;
        for r := 0 to |runs|
          invariant none <==> forall q :: 0 <= q < r ==> runs[q].oid != o
        {
          if runs[r].oid == o {
            none := false;
          }
        }
        if obs[o].state.Stored? && none {
          ids := ids + [o];
        }
      }
    }

    // --------------------------------------------------------------- run rows

    method NextAttempt(oid: nat) returns (attempt: nat)
      ensures attempt == MaxAttempt(runs, oid) + 1
    {
      var m := 0;
      for r := 0 to |runs|
        invariant m == MaxAttempt(runs[..r], oid)
      {
        assert runs[..r + 1][..r] == runs[..r];
        if runs[r].oid == oid && runs[r].attempt > m {
          m := runs[r].attempt;
        }
      }
      assert runs[..|runs|] == runs;
      return m + 1;
    }

    method InsertRun(oid: nat, dir: string) returns (r: Result<()>)
      modifies this
      ensures Ran(old(Value()), CreateRun(oid, dir), Value(), r)
    {
      if oid >= |obs| {
        return Err(NoSuchRow);
      }
      var attempt := NextAttempt(oid);
      log := log + [RunCreated(|runs|)];
      runs := runs + [RunRow(oid, attempt, Queued, false, dir)];
      return Ok(());
    }

    method TransitionRun(rid: nat, expected: RunState, next: RunState) returns (r: Result<()>)
      modifies this
      ensures Ran(old(Value()), MoveRun(rid, expected, next), Value(), r)
    {
      if next !in RunTransitions(expected) {
        return Err(IllegalTransition);
      }
      if rid >= |runs| || runs[rid].state != expected {
        return Err(GuardFailed);
      }
      runs := runs[rid := runs[rid].(state := next)];
      log := log + [RunMoved(rid, expected, next)];
      return Ok(());
    }

    method ListRuns(state: RunState) returns (ids: seq<nat>)
      ensures Ascending(ids, |runs|) && forall r :: r in ids <==> 0 <= r < |runs| && runs[r].state == state
    {
      ids := [];
      for r := 0 to |runs|
        invariant Ascending(ids, r) && forall k :: k in ids <==> 0 <= k < r && runs[k].state == state
      {
        if runs[r].state == state {
          ids := ids + [r];
        }
      }
    }

    method ListHumanActionable() returns (ids: seq<nat>)
      ensures Ascending(ids, |runs|) && forall r :: r in ids <==> 0 <= r < |runs| && HumanActionable(runs[r])
      ensures forall r :: r in ids <==>
        0 <= r < |runs| && (runs[r].state.AwaitingQa? || (runs[r].state.Failed? && runs[r].exhausted))
    {
      ids := [];
      for r := 0 to |runs|
        invariant Ascending(ids, r) && forall k :: k in ids <==> 0 <= k < r && HumanActionable(runs[k])
      {
        if runs[r].state.AwaitingQa? || (runs[r].state.Failed? && runs[r].exhausted) {
          ids := ids + [r];
        }
      }
    }

    method HasOtherActiveRuns(oid: nat, rid: nat) returns (b: bool)
      ensures b <==> HasOtherActive(Value(), oid, rid)
      ensures b <==> exists r ::
        0 <= r < |runs| && r != rid && runs[r].oid == oid && runs[r].state in {Queued, Running, AwaitingQa}
    {
      b := false;
      for r := 0 to |runs|
        invariant b <==> exists q :: 0 <= q < r && q != rid && runs[q].oid == oid && Active(runs[q].state)
      {
        if r != rid && runs[r].oid == oid && Active(runs[r].state) {
          b := true;
        }
      }
    }

    method HasActiveRuns(oid: nat) returns (b: bool)
      ensures b <==> HasActive(Value(), oid)
      ensures b <==> exists r :: 0 <= r < |runs| && runs[r].oid == oid && runs[r].state in {Queued, Running, AwaitingQa}
    {
      b := false;
      for r := 0 to |runs|
        invariant b <==> exists q :: 0 <= q < r && runs[q].oid == oid && Active(runs[q].state)
      {
        if runs[r].oid == oid && Active(runs[r].state) {
          b := true;
        }
      }
    }

    method HasRunInState(oid: nat, state: RunState) returns (b: bool)
      ensures b <==> HasRunIn(Value(), oid, state)
    {
      b := false;
      for r := 0 to |runs|
        invariant b <==> exists q :: 0 <= q < r && runs[q].oid == oid && runs[q].state == state
      {
        if runs[r].oid == oid && runs[r].state == state {
          b := true;
        }
      }
    }

    // ----------------------------------------------------------- retry budget

    method RunExecutionAttempts(rid: nat) returns (n: nat)
      ensures n == Executions(log, rid)
    {
      n := 0;
      for i := 0 to |log|
        invariant n == Executions(log[..i], rid)
      {
        ExecutionsPrefix(log, i, rid);
        if log[i] == RunMoved(rid, Queued, Running) {
          n := n + 1;
        }
      }
      assert log[..|log|] == log;
    }

    method ObservationExecutionAttempts(oid: nat) returns (n: nat)
      ensures n == ObsExecutions(log, runs, oid)
    {
      n := 0;
      for i := 0 to |log|
        invariant n == ObsExecutions(log[..i], runs, oid)
      {
        assert log[..i + 1][..i] == log[..i];
        if ExecutionOf(log[i], runs, oid) {
          n := n + 1;
        }
      }
      assert log[..|log|] == log;
    }

    /** The rows the exhaustion statement selects, and the table with their markers set. */
    method SpentRuns(max: nat) returns (ids: seq<nat>, rows: seq<RunRow>)
      ensures ids == SpentIds(Value(), max, |runs|) && rows == MarkedRuns(Value(), max)
      ensures Ascending(ids, |runs|) && forall r :: r in ids <==> 0 <= r < |runs| && OutOfBudget(runs[r], log, r, max)
    {
      ids, rows := [], [];
      for r := 0 to |runs|
        invariant ids == SpentIds(Value(), max, r)
        invariant |rows| == r && forall q :: 0 <= q < r ==> rows[q] == MarkedRuns(Value(), max)[q]
      {
        var n := RunExecutionAttempts(r);
        if runs[r].state.Failed? && !runs[r].exhausted && n >= max {
          rows := rows + [runs[r].(exhausted := true)];
          ids := ids + [r];
        } else {
          rows := rows + [runs[r]];
        }
      }
      SpentAreOutOfBudget(Value(), max, |runs|);
    }

    /**
     * Marks every failure whose executions reached the budget and notes each, in one transaction: those,
     * and no failure that has an execution left.
     */
    method MarkExhaustedFailedRuns(max: nat) returns (ids: seq<nat>)
      modifies this
      ensures Ran(old(Value()), MarkExhausted(max), Value(), Ok(()))
      ensures Ascending(ids, |old(runs)|)
      ensures forall r :: r in ids <==>
        0 <= r < |old(runs)| && old(runs)[r].state.Failed? && !old(runs)[r].exhausted && Executions(old(log), r) >= max
      ensures obs == old(obs) && |runs| == |old(runs)|
      ensures forall r :: 0 <= r < |runs| ==>
        runs[r] == if r in ids then old(runs)[r].(exhausted := true) else old(runs)[r]
      ensures |log| == |old(log)| + |ids| && log[..|old(log)|] == old(log)
      ensures forall k :: 0 <= k < |ids| ==> log[|old(log)| + k] == RunNote(ids[k])
    {
      var rows;
      ids, rows := SpentRuns(max);
      var notes: seq<Event> := [];
      for i := 0 to |ids|
        invariant |notes| == i && forall k :: 0 <= k < i ==> notes[k] == RunNotes(ids)[k]
      {
        notes := notes + [RunNote(ids[i])];
      }
      assert notes == RunNotes(ids);
      runs := rows;
      log := log + notes;
    }

    method MarkRunRetryExhausted(rid: nat)
      modifies this
      ensures Ran(old(Value()), MarkRunExhausted(rid), Value(), Ok(()))
    {
      if rid < |runs| && runs[rid].state.Failed? && !runs[rid].exhausted {
        runs := runs[rid := runs[rid].(exhausted := true)];
        log := log + [RunNote(rid)];
      }
    }

    method ListRetryableFailedRuns(max: nat) returns (ids: seq<nat>)
      ensures Ascending(ids, |runs|) && forall r :: r in ids <==> 0 <= r < |runs| && Retryable(Value(), max, r)
      ensures forall r :: r in ids <==>
        && 0 <= r < |runs| && runs[r].state.Failed? && !runs[r].exhausted && Executions(log, r) < max
        && runs[r].oid < |obs| && obs[runs[r].oid].state.Stored?
        && forall q :: 0 <= q < |runs| && q != r && runs[q].oid == runs[r].oid ==>
             runs[q].state !in {Queued, Running, AwaitingQa}
    {
      ids := [];
      for r := 0 to |runs|
        invariant Ascending(ids, r) && forall k :: k in ids <==> 0 <= k < r && Retryable(Value(), max, k)
      {
        var n := RunExecutionAttempts(r);
        var other := HasOtherActiveRuns(runs[r].oid, r);
        var oid := runs[r].oid;
        if runs[r].state.Failed? && !runs[r].exhausted && oid < |obs| && obs[oid].state.Stored? && !other && n < max {
          ids := ids + [r];
        }
      }
    }

    // --------------------------------------------------------------- verdicts

    /** The checks each verdict repeats inside its own transaction. */
    method CheckVerdict(rid: nat, froms: set<RunState>) returns (r: Result<nat>)
      ensures r == VerdictCheck(Value(), rid, froms)
    {
      if rid >= |runs| {
        return Err(NoSuchRow);
      }
      if runs[rid].state !in froms {
        return Err(WrongRunState);
      }
      var oid := runs[rid].oid;
      if oid >= |obs| {
        return Err(NoSuchRow);
      }
      if !obs[oid].state.Stored? {
        return Err(NotStored);
      }
      var other := HasOtherActiveRuns(oid, rid);
      if other {
        return Err(OtherActiveRun);
      }
      return Ok(oid);
    }

    method AcceptRunAndBeginDeletion(rid: nat) returns (r: Result<()>)
      modifies this
      ensures Ran(old(Value()), Accept(rid), Value(), r)
    {
      var check := CheckVerdict(rid, {AwaitingQa});
      if check.Err? {
        return Err(check.error);
      }
      var oid := check.value;
      runs := runs[rid := runs[rid].(state := Accepted)];
      log := log + [RunMoved(rid, AwaitingQa, Accepted)];
      obs := obs[oid := obs[oid].(state := Deleting)];
      log := log + [ObsMoved(oid, Stored, Deleting)];
      return Ok(());
    }

    method ReprocessRunAndCreate(rid: nat, dir: string) returns (r: Result<()>)
      modifies this
      ensures Ran(old(Value()), Reprocess(rid, dir), Value(), r)
    {
      var check := CheckVerdict(rid, {AwaitingQa, Failed});
      if check.Err? {
        return Err(check.error);
      }
      var oid, next := check.value, runs[rid].attempt + 1;
      var taken := false;
      for q := 0 to |runs|
        invariant taken <==> exists k :: 0 <= k < q && runs[k].oid == oid && runs[k].attempt == next
      {
        if runs[q].oid == oid && runs[q].attempt == next {
          taken := true;
        }
      }
      if taken {
        return Err(UniqueViolated);
      }
      log := log + [RunMoved(rid, runs[rid].state, Superseded)];
      runs := runs[rid := runs[rid].(state := Superseded)];
      log := log + [RunCreated(|runs|)];
      runs := runs + [RunRow(oid, next, Queued, false, dir)];
      return Ok(());
    }

    method DiscardFailedRunAndBeginDeletion(rid: nat) returns (r: Result<()>)
      modifies this
      ensures Ran(old(Value()), Discard(rid), Value(), r)
    {
      var check := CheckVerdict(rid, {Failed});
      if check.Err? {
        return Err(check.error);
      }
      var oid := check.value;
      runs := runs[rid := runs[rid].(state := Discarded)];
      log := log + [RunMoved(rid, Failed, Discarded)];
      obs := obs[oid := obs[oid].(state := Deleting)];
      log := log + [ObsMoved(oid, Stored, Deleting)];
      return Ok(());
    }

    // ------------------------------------------------------ accounting, notes

    method LogicalStorage() returns (used: nat, reserved: nat)
      ensures used == UsedBytes(obs) && reserved == ReservedBytes(obs)
    {
      used, reserved := 0, 0;
      for o := 0 to |obs|
        invariant used == UsedBytes(obs[..o]) && reserved == ReservedBytes(obs[..o])
      {
        assert obs[..o + 1][..o] == obs[..o];
        var row := obs[o];
        if row.state.Stored? || row.state.Deleting? || row.state.Inconsistent? {
          used := used + row.size;
        }
        if row.state.Planned? || row.state.Observing? {
          reserved := reserved + row.reserved;
        }
      }
      assert obs[..|obs|] == obs;
    }

    method RecordObsEvent(oid: nat)
      modifies this
      ensures Ran(old(Value()), NoteObs(oid), Value(), Ok(()))
    {
      log := log + [ObsNote(oid)];
    }

    method RecordRunEvent(rid: nat)
      modifies this
      ensures Ran(old(Value()), NoteRun(rid), Value(), Ok(()))
    {
      log := log + [RunNote(rid)];
    }
  }
}
