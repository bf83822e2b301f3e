/**
 * Operator commands: all externally visible preconditions are checked first, then the verdict and
 * the deletion intent are committed in one transaction, then the files go.
 */
module Qa {
  import opened Models
  import opened Naming
  import opened StoreSpec
  import opened ControlStore
  import opened Protocol
  import opened Storage
  import Ledger
  import Recovery

  /** The run is there and in a state that the command starts from. */
  predicate Starts(db: Db, rid: nat, froms: set<RunState>) {
    rid < |db.runs| && db.runs[rid].state in froms
  }

  /** Another run of the same observation still wants, or has, a reader or a verdict. */
  predicate Rivalled(db: Db, rid: nat)
    requires rid < |db.runs|
  {
    exists q ::
      0 <= q < |db.runs| && q != rid && db.runs[q].oid == db.runs[rid].oid && db.runs[q].state in {Queued, Running, AwaitingQa}
  }

  /** Everything the command asks for is there: the run, its stored observation, its raw data, and no rival. */
  predicate Admissible(db: Db, fs: Fs, rid: nat, froms: set<RunState>) {
    && Starts(db, rid, froms) && IsObs(db, db.runs[rid].oid, Stored)
    && db.runs[rid].oid in fs.live && !Rivalled(db, rid)
  }

  /** The error is the one for the first thing missing, in the order in which the program looks. */
  predicate RefusedFor(db: Db, fs: Fs, rid: nat, froms: set<RunState>, e: Error) {
    match e
    case NoSuchRow => rid >= |db.runs| || (Starts(db, rid, froms) && db.runs[rid].oid >= |db.obs|)
    case WrongRunState => rid < |db.runs| && db.runs[rid].state !in froms
    case NotStored =>
      Starts(db, rid, froms) && db.runs[rid].oid < |db.obs| && !db.obs[db.runs[rid].oid].state.Stored?
    case RawUnavailable =>
      Starts(db, rid, froms) && IsObs(db, db.runs[rid].oid, Stored) && db.runs[rid].oid !in fs.live
    case OtherActiveRun =>
      && Starts(db, rid, froms) && IsObs(db, db.runs[rid].oid, Stored)
      && db.runs[rid].oid in fs.live && Rivalled(db, rid)
    case _ => false
  }

  /** A command is admissible or there is exactly one reason to refuse it. */
  lemma OneReason(db: Db, fs: Fs, rid: nat, froms: set<RunState>, e1: Error, e2: Error)
    ensures RefusedFor(db, fs, rid, froms, e1) ==> !Admissible(db, fs, rid, froms)
    ensures RefusedFor(db, fs, rid, froms, e1) && RefusedFor(db, fs, rid, froms, e2) ==> e1 == e2
    ensures !Admissible(db, fs, rid, froms) ==>
      exists e :: e in {NoSuchRow, WrongRunState, NotStored, RawUnavailable, OtherActiveRun} && RefusedFor(db, fs, rid, froms, e)
  {
    var reason :=
      if rid >= |db.runs| then NoSuchRow
      else if db.runs[rid].state !in froms then WrongRunState
      else if db.runs[rid].oid >= |db.obs| then NoSuchRow
      else if !db.obs[db.runs[rid].oid].state.Stored? then NotStored
      else if db.runs[rid].oid !in fs.live then RawUnavailable
      else OtherActiveRun;
    assert RefusedFor(db, fs, rid, froms, reason) || Admissible(db, fs, rid, froms);
  }

  /**
   * A command goes through exactly when its transaction would commit and the raw data is on disk: the
   * checks refuse neither more nor less.
   */
  lemma CheckedVerdictsCommit(db: Db, fs: Fs, rid: nat, dir: string)
    requires rid < |db.runs| ==> Ledger.Chain(db.runs, db.runs[rid].oid)
    ensures Admissible(db, fs, rid, {AwaitingQa}) <==> Apply(db, Accept(rid)).Ok? && db.runs[rid].oid in fs.live
    ensures Admissible(db, fs, rid, {Failed}) <==> Apply(db, Discard(rid)).Ok? && db.runs[rid].oid in fs.live
    ensures Admissible(db, fs, rid, {AwaitingQa, Failed}) <==>
      Apply(db, Reprocess(rid, dir)).Ok? && db.runs[rid].oid in fs.live
  {
    if rid < |db.runs| && db.runs[rid].state in {AwaitingQa, Failed} {
      Ledger.NextAttemptIsFree(db, rid);
      RivalsAreActive(db, rid);
    }
  }

  lemma RivalsAreActive(db: Db, rid: nat)
    requires rid < |db.runs|
    ensures Rivalled(db, rid) <==> HasOtherActive(db, db.runs[rid].oid, rid)
  {
  }

  /** And what the transaction would refuse is refused by the checks before anything is touched. */
  lemma RefusedVerdictsStop(db: Db, fs: Fs, rid: nat, dir: string)
    ensures Apply(db, Accept(rid)).Err? ==> !Admissible(db, fs, rid, {AwaitingQa})
    ensures Apply(db, Discard(rid)).Err? ==> !Admissible(db, fs, rid, {Failed})
    ensures Apply(db, Reprocess(rid, dir)).Err? && !Apply(db, Reprocess(rid, dir)).error.UniqueViolated? ==>
      !Admissible(db, fs, rid, {AwaitingQa, Failed})
  {
    if rid < |db.runs| {
      RivalsAreActive(db, rid);
    }
  }

  /** The checks shared by the three commands, made by separate reads before the transaction. */
  method CheckCommand(store: Store, root: DataRoot, rid: nat, froms: set<RunState>) returns (refusal: Option<Error>)
    ensures refusal.None? <==> Admissible(store.Value(), root.Value(), rid, froms)
    ensures refusal.Some? ==> RefusedFor(store.Value(), root.Value(), rid, froms, refusal.value)
  {
    if rid >= |store.runs| {
      return Some(NoSuchRow);
    }
    if store.runs[rid].state !in froms {
      return Some(WrongRunState);
    }
    var oid := store.runs[rid].oid;
    if oid >= |store.obs| {
      return Some(NoSuchRow);
    }
    if !store.obs[oid].state.Stored? {
      return Some(NotStored);
    }
    if oid !in root.live {
      return Some(RawUnavailable);
    }
    var other := store.HasOtherActiveRuns(oid, rid);
    return if other then Some(OtherActiveRun) else None;
  }

  /** A verdict that frees the raw data has been carried out, or its deletion has begun and can be resumed. */
  predicate Released(before: Db, fs: Fs, verdict: Op, oid: nat, after: Db, fs': Fs, mishap: bool, r: Result<()>) {
    && Apply(before, verdict).Ok?
    && (r.Ok? <==> !mishap && !Recovery.Wedged(fs, oid))
    && match r
       case Ok(_) =>
         && after == After(After(before, verdict), MoveObs(oid, Deleting, Deleted, Some(0), Some(0)))
         && IsObs(after, oid, Deleted) && fs' == FinishFs(fs, oid) && oid !in fs'.live && oid !in fs'.trash
       case Err(e) =>
         && (e.Interrupted? || e.BothCopies?)
         && after == After(before, verdict) && IsObs(after, oid, Deleting) && OnlyFilesOf(fs, fs', oid)
  }

  /**
   * Accepting a run. A refusal changes nothing; otherwise the run is ACCEPTED and its observation
   * DELETING in any case, and DELETED with no copy left when the deletion goes through.
   */
  method AcceptRun(store: Store, root: DataRoot, rid: nat) returns (r: Result<()>)
    modifies store, root
    ensures var db, fs := old(store.Value()), old(root.Value());
      if Admissible(db, fs, rid, {AwaitingQa})
      then
        && IsRun(store.Value(), rid, Accepted)
        && Released(db, fs, Accept(rid), db.runs[rid].oid, store.Value(), root.Value(), root.mishaps > old(root.mishaps), r)
      else
        && r.Err? && RefusedFor(db, fs, rid, {AwaitingQa}, r.error)
        && store.Value() == db && root.Value() == fs
    ensures rid < |old(store.runs)| && old(store.runs)[rid].oid !in old(root.live) ==>
      r.Err? && store.Value() == old(store.Value()) && root.Value() == old(root.Value())
  {
    var refusal := CheckCommand(store, root, rid, {AwaitingQa});
    if refusal.Some? {
      return Err(refusal.value);
    }
    RivalsAreActive(store.Value(), rid);
    var oid := store.runs[rid].oid;
    var verdict := store.AcceptRunAndBeginDeletion(rid);
    r := FinishObservationDeletion(store, root, oid);
  }

  /** Discarding a failure: the same with the verdict DISCARDED, from FAILED whether exhausted or not. */
  method DiscardFailedRun(store: Store, root: DataRoot, rid: nat) returns (r: Result<()>)
    modifies store, root
    ensures var db, fs := old(store.Value()), old(root.Value());
      if Admissible(db, fs, rid, {Failed})
      then
        && IsRun(store.Value(), rid, Discarded)
        && Released(db, fs, Discard(rid), db.runs[rid].oid, store.Value(), root.Value(), root.mishaps > old(root.mishaps), r)
      else
        && r.Err? && RefusedFor(db, fs, rid, {Failed}, r.error)
        && store.Value() == db && root.Value() == fs
    ensures rid < |old(store.runs)| && old(store.runs)[rid].oid !in old(root.live) ==>
      r.Err? && store.Value() == old(store.Value()) && root.Value() == old(root.Value())
  {
    var refusal := CheckCommand(store, root, rid, {Failed});
    if refusal.Some? {
      return Err(refusal.value);
    }
    RivalsAreActive(store.Value(), rid);
    var oid := store.runs[rid].oid;
    var verdict := store.DiscardFailedRunAndBeginDeletion(rid);
    r := FinishObservationDeletion(store, root, oid);
  }

  /**
   * Reprocessing: the run is SUPERSEDED and its successor is QUEUED in a directory that says whose it is;
   * no file changes. A row that is not STORED is reported like data that is not there.
   */
  method ReprocessRun(store: Store, root: DataRoot, rid: nat) returns (r: Result<nat>)
    modifies store
    ensures r.Err? ==> store.Value() == old(store.Value())
    ensures rid < |old(store.runs)| && old(store.runs)[rid].oid !in root.live ==> r.Err?
    ensures var db := old(store.Value());
      if !Admissible(db, root.Value(), rid, {AwaitingQa, Failed})
      then
        && r.Err?
        && (RefusedFor(db, root.Value(), rid, {AwaitingQa, Failed}, r.error)
            || (r.error.RawUnavailable? && RefusedFor(db, root.Value(), rid, {AwaitingQa, Failed}, NotStored)))
        && !r.error.NotStored?
      else if exists q :: 0 <= q < |db.runs| && db.runs[q].oid == db.runs[rid].oid && db.runs[q].attempt == db.runs[rid].attempt + 1
      then r == Err(UniqueViolated)
      else
        var row, id := db.runs[rid], |db.runs|;
        && r == Ok(id) && |store.runs| == id + 1
        && store.runs[..id] == db.runs[rid := row.(state := Superseded)]
        && store.runs[id] == RunRow(row.oid, row.attempt + 1, Queued, false, store.runs[id].dir)
        && SaysRun(store.runs[id].dir, row.oid, row.attempt + 1)
        && store.obs == db.obs
        && store.log == db.log + [RunMoved(rid, row.state, Superseded), RunCreated(id)]
  {
    var refusal := CheckCommand(store, root, rid, {AwaitingQa, Failed});
    if refusal.Some? {
      return Err(if refusal.value.NotStored? then RawUnavailable else refusal.value);
    }
    RivalsAreActive(store.Value(), rid);
    var row, id := store.runs[rid], |store.runs|;
    var dir := RunDir(row.oid, row.attempt + 1);
    RunDirSays(row.oid, row.attempt + 1);
    var done := store.ReprocessRunAndCreate(rid, dir);
    return if done.Ok? then Ok(id) else Err(done.error);
  }

  /** The items a person is asked to decide on: runs awaiting quality assurance, and exhausted failures. */
  method ListQaItems(store: Store) returns (ids: seq<nat>)
    ensures Ascending(ids, |store.runs|)
    ensures forall r :: r in ids <==>
      0 <= r < |store.runs|
      && (store.runs[r].state.AwaitingQa? || (store.runs[r].state.Failed? && store.runs[r].exhausted))
  {
    ids := store.ListHumanActionable();
  }
}
