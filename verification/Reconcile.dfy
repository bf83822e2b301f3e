/**
 * Startup recovery as the program runs it: six passes over query results, entity by entity, each
 * failure noted and left behind, and the process free to die between any two actions. Every run of
 * it is a sequence of repairs, and one that neither died nor met a failing file operation leaves
 * nothing to repair.
 */
module Reconcile {
  import opened Models
  import opened Naming
  import opened StoreSpec
  import opened ControlStore
  import opened Protocol
  import opened Storage
  import opened Recovery
  import Ledger
  import Totals
  import opened SafetySteps

  /** How the recovery of one entity ended: the process died, or a file operation failed and was noted, or neither. */
  datatype Outcome = Died | Degraded | Clean

  /** One mishap at most, and only it keeps an entity from being recovered. */
  predicate Counted(out: Outcome, before: nat, after: nat) {
    after == before + if out.Clean? then 0 else 1
  }

  /** Every entity left behind by a pass cost a mishap of its own, and so did the death of the process. */
  predicate Scoped(died: bool, left: set<nat>, before: nat, after: nat) {
    |left| + (if died then 1 else 0) <= after - before
  }

  lemma RepairedOnce(db: Db, fs: Fs, r: Repair)
    requires Repairable(db, fs, r)
    ensures Repaired(db, fs, RepairDb(db, r), RepairFs(db, fs, r))
  {
    RepairedByNothing(db, fs);
    RepairedNext(db, fs, db, fs, r);
  }

  /** Rows only go from one state to another along the named edge, the rest of them unchanged or reset. */
  predicate RowsMoved(before: seq<ObsRow>, after: seq<ObsRow>, from: ObsState, to: ObsState) {
    && |after| == |before|
    && forall o :: 0 <= o < |after| ==>
         after[o] == before[o] || (before[o].state == from && after[o].state == to)
  }

  // ---------------------------------------------------- interrupted observations

  method SetPartialAside(store: Store, root: DataRoot, oid: nat) returns (moved: bool)
    requires IsObs(store.Value(), oid, Observing)
    modifies root
    ensures Repaired(store.Value(), old(root.Value()), store.Value(), root.Value())
    ensures root.live == if moved then old(root.live) - {oid} else old(root.live)
    ensures root.trash == old(root.trash) && root.mishaps == old(root.mishaps) + if moved then 0 else 1
    ensures oid in old(root.live) && moved ==>
      SetAsideAs(old(root.Value()), root.Value(), oid, ObsPart(oid) + "-partial.ms")
    ensures oid !in old(root.live) || !moved ==> root.Value() == old(root.Value())
  {
    RepairedByNothing(store.Value(), root.Value());
    if oid !in root.live {
      return true;
    }
    var r := root.QuarantinePath(oid, ObsPart(oid) + "-partial.ms");
    if r.Ok? {
      RepairedOnce(store.Value(), old(root.Value()), MoveInterrupted(oid, r.value));
    }
    return r.Ok?;
  }

  method RecoverObservation(store: Store, root: DataRoot, oid: nat) returns (out: Outcome)
    requires IsObs(store.Value(), oid, Observing)
    modifies store, root
    ensures Repaired(old(store.Value()), old(root.Value()), store.Value(), root.Value())
    ensures out.Clean? ==> IsObs(store.Value(), oid, ObserveFailed) && oid !in root.live
    ensures store.runs == old(store.runs) && root.trash == old(root.trash)
    ensures SameRowsBut(old(store.Value()), store.Value(), oid)
    ensures store.obs[oid] == old(store.obs)[oid] || store.obs[oid].state.ObserveFailed?
    ensures root.live == old(root.live) || root.live == old(root.live) - {oid}
    ensures if oid in old(root.live) && oid !in root.live
      then SetAsideAs(old(root.Value()), root.Value(), oid, ObsPart(oid) + "-partial.ms")
      else root.Value() == old(root.Value())
    ensures store.log == old(store.log) +
      if out.Clean? then [ObsMoved(oid, Observing, ObserveFailed)] else if out.Degraded? then [ObsNote(oid)] else []
    ensures Counted(out, old(root.mishaps), root.mishaps)
  {
    var moved := SetPartialAside(store, root, oid);
    if !moved {
      RepairedNext(store.Value(), old(root.Value()), store.Value(), root.Value(), Report(NoteObs(oid)));
      store.RecordObsEvent(oid);
      return Degraded;
    }
    var died := root.Mishap();
    if died {
      return Died;
    }
    RepairedNext(old(store.Value()), old(root.Value()), store.Value(), root.Value(), FailInterrupted(oid));
    var r := store.TransitionObservation(oid, Observing, ObserveFailed, None, Some(0));
    return Clean;
  }

  /** Only rows that were OBSERVING change, and only their files leave. */
  ghost predicate OnlyInterrupted(db: Db, fs: Fs, db': Db, fs': Fs) {
    && db'.runs == db.runs && fs'.trash == fs.trash && RowsMoved(db.obs, db'.obs, Observing, ObserveFailed)
    && (forall o: nat :: !IsObs(db, o, Observing) ==> (o in fs'.live <==> o in fs.live))
  }

  /** How far the pass has come, and what it has not touched. */
  ghost predicate InterruptedSoFar(db: Db, fs: Fs, db': Db, fs': Fs) {
    Repaired(db, fs, db', fs') && OnlyInterrupted(db, fs, db', fs')
  }

  lemma InterruptedFurther(db0: Db, fs0: Fs, db: Db, fs: Fs, db': Db, fs': Fs, oid: nat)
    requires InterruptedSoFar(db0, fs0, db, fs) && Repaired(db, fs, db', fs')
    requires IsObs(db, oid, Observing) && SameRowsBut(db, db', oid) && db'.runs == db.runs && fs'.trash == fs.trash
    requires db'.obs[oid] == db.obs[oid] || db'.obs[oid].state.ObserveFailed?
    requires fs'.live == fs.live || fs'.live == fs.live - {oid}
    ensures InterruptedSoFar(db0, fs0, db', fs')
  {
    RepairedFurther(db0, fs0, db, fs, db', fs');
  }

  method RecoverObservations(store: Store, root: DataRoot) returns (died: bool, ghost left: set<nat>)
    modifies store, root
    ensures InterruptedSoFar(old(store.Value()), old(root.Value()), store.Value(), root.Value())
    ensures Scoped(died, left, old(root.mishaps), root.mishaps)
    ensures !died ==> Listed(store.Value(), [], Observing, left)
  {
    died, left := false, {};
    RepairedByNothing(store.Value(), root.Value());
    var ids := store.ListObservations(Observing);
    for i := 0 to |ids|
      invariant InterruptedSoFar(old(store.Value()), old(root.Value()), store.Value(), root.Value())
      invariant Scoped(false, left, old(root.mishaps), root.mishaps)
      invariant Listed(store.Value(), ids[i..], Observing, left)
    {
      died := root.Mishap();
      if died {
        return;
      }
      ghost var db, fs := store.Value(), root.Value();
      assert IsObs(db, ids[i..][0], Observing);
      var out := RecoverObservation(store, root, ids[i]);
      InterruptedFurther(old(store.Value()), old(root.Value()), db, fs, store.Value(), root.Value(), ids[i]);
      if out.Died? {
        return true, left;
      }
      ghost var more := left + if out.Clean? then {} else {ids[i]};
      ListedNext(db, store.Value(), ids[i..], Observing, left, more);
      assert ids[i..][1..] == ids[i + 1..];
      left := more;
    }
    died := false;
  }

  // ------------------------------------------------------------ interrupted runs

  method RemoveOutput(store: Store, root: DataRoot, rid: nat) returns (removed: bool)
    requires IsRun(store.Value(), rid, Running)
    modifies root`products, root`mishaps
    ensures root.mishaps == old(root.mishaps) + if removed then 0 else 1
    ensures Repaired(store.Value(), old(root.Value()), store.Value(), root.Value())
    ensures removed ==> store.runs[rid].dir !in root.products
    ensures forall d :: d != store.runs[rid].dir ==>
      (d in root.products <==> d in old(root.products)) && (d in root.products ==> root.products[d] == old(root.products)[d])
  {
    ghost var fs := root.Value();
    RepairedByNothing(store.Value(), fs);
    var dir := store.runs[rid].dir;
    if dir !in root.products {
      return true;
    }
    var left := root.RemoveProducts(dir);
    RepairedOnce(store.Value(), fs, CleanRun(rid, left));
    return left.None?;
  }

  method RecoverRun(store: Store, root: DataRoot, rid: nat) returns (out: Outcome)
    requires IsRun(store.Value(), rid, Running)
    modifies store, root`products, root`mishaps
    ensures Counted(out, old(root.mishaps), root.mishaps)
    ensures Repaired(old(store.Value()), old(root.Value()), store.Value(), root.Value())
    ensures out.Clean? ==> IsRun(store.Value(), rid, Failed) && store.runs[rid].dir !in root.products
    ensures store.obs == old(store.obs) && |store.runs| == |old(store.runs)|
    ensures store.runs == old(store.runs) || store.runs == old(store.runs)[rid := old(store.runs)[rid].(state := Failed)]
    ensures store.log == old(store.log) +
      if out.Clean? then [RunMoved(rid, Running, Failed)] else if out.Degraded? then [RunNote(rid)] else []
    ensures forall d :: d != old(store.runs)[rid].dir ==>
      (d in root.products <==> d in old(root.products)) && (d in root.products ==> root.products[d] == old(root.products)[d])
  {
    ghost var fs := root.Value();
    var removed := RemoveOutput(store, root, rid);
    if !removed {
      RepairedNext(store.Value(), fs, store.Value(), root.Value(), Report(NoteRun(rid)));
      store.RecordRunEvent(rid);
      return Degraded;
    }
    var died := root.Mishap();
    if died {
      return Died;
    }
    RepairedNext(old(store.Value()), old(root.Value()), store.Value(), root.Value(), FailRun(rid));
    var r := store.TransitionRun(rid, Running, Failed);
    return Clean;
  }

  /** Runs only go from RUNNING to FAILED. */
  predicate RunsFailed(before: seq<RunRow>, after: seq<RunRow>) {
    && |after| == |before|
    && forall r :: 0 <= r < |after| ==>
         after[r] == before[r] || (before[r].state.Running? && after[r] == before[r].(state := Failed))
  }

  /** How far the pass has come, and what it has not touched. */
  ghost predicate RunsSoFar(db: Db, fs: Fs, db': Db, fs': Fs) {
    Repaired(db, fs, db', fs') && db'.obs == db.obs && RunsFailed(db.runs, db'.runs)
  }

  lemma RunsFurther(db0: Db, fs0: Fs, db: Db, fs: Fs, db': Db, fs': Fs)
    requires RunsSoFar(db0, fs0, db, fs) && RunsSoFar(db, fs, db', fs')
    ensures RunsSoFar(db0, fs0, db', fs')
  {
    RepairedFurther(db0, fs0, db, fs, db', fs');
  }

  /** Running runs are still to be looked at or were left behind. */
  predicate RunsListed(db: Db, ids: seq<nat>, left: set<nat>) {
    && (forall k :: 0 <= k < |ids| ==> IsRun(db, ids[k], Running))
    && (forall i, j | 0 <= i < j < |ids| :: ids[i] < ids[j])
    && (forall r :: 0 <= r < |db.runs| && db.runs[r].state.Running? ==> r in ids || r in left)
  }

  lemma RunsListedNext(db: Db, db': Db, ids: seq<nat>, left: set<nat>, left': set<nat>)
    requires ids != [] && RunsListed(db, ids, left) && left <= left'
    requires db'.runs == db.runs || db'.runs == db.runs[ids[0] := db.runs[ids[0]].(state := Failed)]
    requires IsRun(db', ids[0], Running) ==> ids[0] in left'
    ensures RunsListed(db', ids[1..], left')
  {
    assert ids == [ids[0]] + ids[1..];
    forall k | 0 <= k < |ids| - 1 ensures IsRun(db', ids[1..][k], Running) {
      assert IsRun(db, ids[k + 1], Running) && ids[k + 1] != ids[0];
    }
  }

  method RecoverRuns(store: Store, root: DataRoot) returns (died: bool, ghost left: set<nat>)
    modifies store, root`products, root`mishaps
    ensures RunsSoFar(old(store.Value()), old(root.Value()), store.Value(), root.Value())
    ensures Scoped(died, left, old(root.mishaps), root.mishaps)
    ensures !died ==> forall r :: 0 <= r < |store.runs| && store.runs[r].state.Running? ==> r in left
  {
    died, left := false, {};
    RepairedByNothing(store.Value(), root.Value());
    var ids := store.ListRuns(Running);
    while ids != []
      invariant RunsSoFar(old(store.Value()), old(root.Value()), store.Value(), root.Value())
      invariant Scoped(false, left, old(root.mishaps), root.mishaps)
      invariant RunsListed(store.Value(), ids, left)
      decreases |ids|
    {
      died := root.Mishap();
      if died {
        return;
      }
      ghost var db, fs := store.Value(), root.Value();
      assert IsRun(db, ids[0], Running);
      var out := RecoverRun(store, root, ids[0]);
      RunsFurther(old(store.Value()), old(root.Value()), db, fs, store.Value(), root.Value());
      if out.Died? {
        return true, left;
      }
      ghost var more := left + if out.Clean? then {} else {ids[0]};
      RunsListedNext(db, store.Value(), ids, left, more);
      left, ids := more, ids[1..];
    }
    died := false;
  }

  // ---------------------------------------------------------- accepted, not deleting

  predicate Unresumed(db: Db, oid: nat) {
    IsObs(db, oid, Stored) && HasRunIn(db, oid, Accepted) && !HasActive(db, oid)
  }

  method ResumeDeletions(store: Store, root: DataRoot) returns (died: bool)
    modifies store, root`mishaps
    ensures Repaired(old(store.Value()), root.Value(), store.Value(), root.Value())
    ensures store.runs == old(store.runs) && RowsMoved(old(store.obs), store.obs, Stored, Deleting)
    ensures Scoped(died, {}, old(root.mishaps), root.mishaps)
    ensures !died ==> forall o: nat :: !Unresumed(store.Value(), o)
  {
    died := false;
    RepairedByNothing(store.Value(), root.Value());
    var ids := store.ListObservations(Stored);
    for i := 0 to |ids|
      invariant Repaired(old(store.Value()), root.Value(), store.Value(), root.Value())
      invariant store.runs == old(store.runs) && RowsMoved(old(store.obs), store.obs, Stored, Deleting)
      invariant root.mishaps == old(root.mishaps)
      invariant forall k :: i <= k < |ids| ==> IsObs(store.Value(), ids[k], Stored)
      invariant forall o: nat :: Unresumed(store.Value(), o) ==> o in ids[i..]
    {
      died := root.Mishap();
      if died {
        return;
      }
      var oid := ids[i];
      var accepted := store.HasRunInState(oid, Accepted);
      var active := store.HasActiveRuns(oid);
      ghost var db := store.Value();
      if accepted && !active {
        RepairedNext(old(store.Value()), root.Value(), db, root.Value(), Resume(oid));
        var r := store.TransitionObservation(oid, Stored, Deleting, None, None);
      }
      forall o: nat | Unresumed(store.Value(), o) ensures o in ids[i + 1..] {
        assert Unresumed(db, o);
      }
    }
    died := false;
  }

  // ------------------------------------------------------------- deletion completion

  lemma RenamedRepairs(db: Db, fs: Fs, oid: nat)
    requires IsObs(db, oid, Deleting) && !Wedged(fs, oid)
    ensures Repaired(db, fs, db, RenamedFs(fs, oid))
    ensures oid !in RenamedFs(fs, oid).live
  {
    RepairedByNothing(db, fs);
    if oid in fs.live {
      RepairedOnce(db, fs, ToTrash(oid));
    }
  }

  lemma ErasedRepairs(db: Db, fs: Fs, oid: nat)
    requires IsObs(db, oid, Deleting) && !Wedged(fs, oid)
    ensures Repaired(db, fs, db, FinishFs(fs, oid))
    ensures oid !in FinishFs(fs, oid).live && oid !in FinishFs(fs, oid).trash
  {
    RenamedRepairs(db, fs, oid);
    if oid in RenamedFs(fs, oid).trash {
      RepairedNext(db, fs, db, RenamedFs(fs, oid), Erase(oid, None));
    }
  }

  /** A deletion that stopped anywhere is a sequence of repairs. */
  lemma StoppedRepairs(db: Db, fs: Fs, fs': Fs, oid: nat)
    requires IsObs(db, oid, Deleting) && !Wedged(fs, oid) && StoppedFs(fs, fs', oid)
    ensures Repaired(db, fs, db, fs')
  {
    RepairedByNothing(db, fs);
    ErasedRepairs(db, fs, oid);
    if fs' != fs && fs' != FinishFs(fs, oid) {
      RenamedRepairs(db, fs, oid);
      RepairedNext(db, fs, db, RenamedFs(fs, oid), Erase(oid, Some(fs'.trash[oid])));
    }
  }

  /** Files of other observations stay. */
  ghost predicate SameFilesBut(fs: Fs, fs': Fs, oid: nat) {
    forall o: nat :: o != oid ==> (o in fs'.live <==> o in fs.live) && (o in fs'.trash <==> o in fs.trash)
  }

  lemma OthersStay(fs: Fs, fs': Fs, oid: nat)
    requires OnlyFilesOf(fs, fs', oid)
    ensures SameFilesBut(fs, fs', oid)
  {
    forall o: nat | o != oid ensures (o in fs'.live <==> o in fs.live) && (o in fs'.trash <==> o in fs.trash) {
      assert o in fs.live - {oid} <==> o in fs.live;
      assert o in fs'.live - {oid} <==> o in fs'.live;
      assert o in fs.trash - {oid} <==> o in fs.trash;
      assert o in fs'.trash - {oid} <==> o in fs'.trash;
    }
  }

  method CompleteDeletion(store: Store, root: DataRoot, oid: nat) returns (out: Outcome)
    requires IsObs(store.Value(), oid, Deleting)
    modifies store, root
    ensures Repaired(old(store.Value()), old(root.Value()), store.Value(), root.Value())
    ensures out.Clean? ==>
      if Wedged(old(root.Value()), oid) then IsObs(store.Value(), oid, Deleting) && Wedged(root.Value(), oid)
      else IsObs(store.Value(), oid, Deleted)
    ensures store.runs == old(store.runs)
    ensures SameRowsBut(old(store.Value()), store.Value(), oid)
    ensures store.obs[oid] == old(store.obs)[oid] || store.obs[oid].state.Deleted?
    ensures SameFilesBut(old(root.Value()), root.Value(), oid)
    ensures Counted(out, old(root.mishaps), root.mishaps)
  {
    ghost var db, fs := store.Value(), root.Value();
    var r := FinishObservationDeletion(store, root, oid);
    if r.Ok? {
      ErasedRepairs(db, fs, oid);
      RepairedNext(db, fs, db, root.Value(), FinishDelete(oid));
      FinishedFilesGone(fs, oid);
      OthersStay(fs, root.Value(), oid);
      return Clean;
    }
    OthersStay(fs, root.Value(), oid);
    RepairedByNothing(db, fs);
    if r.error.Interrupted? {
      StoppedRepairs(db, fs, root.Value(), oid);
      if * {
        return Died;
      }
    }
    RepairedNext(db, fs, db, root.Value(), Report(NoteObs(oid)));
    store.RecordObsEvent(oid);
    return if r.error.Interrupted? then Degraded else Clean;
  }

  /** Files change only of rows that were DELETING. */
  ghost predicate OnlyDoomedFiles(db: Db, fs: Fs, fs': Fs) {
    forall o: nat :: !IsObs(db, o, Deleting) ==> (o in fs'.live <==> o in fs.live) && (o in fs'.trash <==> o in fs.trash)
  }

  lemma DoomedFilesStep(db: Db, fs: Fs, fs1: Fs, fs2: Fs, oid: nat)
    requires OnlyDoomedFiles(db, fs, fs1) && SameFilesBut(fs1, fs2, oid) && IsObs(db, oid, Deleting)
    ensures OnlyDoomedFiles(db, fs, fs2)
  {
  }

  /** Deletions still to be completed are listed, the others are done, wedged or left behind. */
  ghost predicate WedgedOrLeft(db: Db, fs: Fs, ids: seq<nat>, left: set<nat>) {
    forall o: nat :: IsObs(db, o, Deleting) ==> o in ids || Wedged(fs, o) || o in left
  }

  lemma WedgedOrLeftStep(db: Db, fs: Fs, db': Db, fs': Fs, ids: seq<nat>, left: set<nat>, done: bool)
    requires ids != [] && WedgedOrLeft(db, fs, ids, left) && SameFilesBut(fs, fs', ids[0])
    requires SameRowsBut(db, db', ids[0])
    requires done && IsObs(db', ids[0], Deleting) ==> Wedged(fs', ids[0])
    ensures WedgedOrLeft(db', fs', ids[1..], left + if done then {} else {ids[0]})
  {
    forall o: nat | IsObs(db', o, Deleting) && o != ids[0] ensures o in ids[1..] || Wedged(fs', o) || o in left {
      assert IsObs(db, o, Deleting);
    }
  }

  method CompleteDeletions(store: Store, root: DataRoot) returns (died: bool, ghost left: set<nat>)
    modifies store, root
    ensures Repaired(old(store.Value()), old(root.Value()), store.Value(), root.Value())
    ensures store.runs == old(store.runs) && RowsMoved(old(store.obs), store.obs, Deleting, Deleted)
    ensures OnlyDoomedFiles(old(store.Value()), old(root.Value()), root.Value())
    ensures Scoped(died, left, old(root.mishaps), root.mishaps)
    ensures !died ==> WedgedOrLeft(store.Value(), root.Value(), [], left)
  {
    died, left := false, {};
    RepairedByNothing(store.Value(), root.Value());
    var ids := store.ListObservations(Deleting);
    for i := 0 to |ids|
      invariant Repaired(old(store.Value()), old(root.Value()), store.Value(), root.Value())
      invariant store.runs == old(store.runs) && RowsMoved(old(store.obs), store.obs, Deleting, Deleted)
      invariant OnlyDoomedFiles(old(store.Value()), old(root.Value()), root.Value())
      invariant Scoped(false, left, old(root.mishaps), root.mishaps)
      invariant forall k :: i <= k < |ids| ==> IsObs(store.Value(), ids[k], Deleting)
      invariant WedgedOrLeft(store.Value(), root.Value(), ids[i..], left)
    {
      died := root.Mishap();
      if died {
        return;
      }
      ghost var db, fs := store.Value(), root.Value();
      assert old(store.obs)[ids[i]].state.Deleting?;
      var out := CompleteDeletion(store, root, ids[i]);
      DoomedFilesStep(old(store.Value()), old(root.Value()), fs, root.Value(), ids[i]);
      RepairedFurther(old(store.Value()), old(root.Value()), db, fs, store.Value(), root.Value());
      if out.Died? {
        return true, left;
      }
      assert ids[i..][1..] == ids[i + 1..];
      WedgedOrLeftStep(db, fs, store.Value(), root.Value(), ids[i..], left, out.Clean?);
      left := left + if out.Clean? then {} else {ids[i]};
    }
    died := false;
  }

  // --------------------------------------------------------- missing measurement sets

  ghost predicate NothingPending(db: Db) {
    forall o: nat :: IsObs(db, o, Stored) ==> !ResumePending(db, o)
  }

  method MarkMissingSet(store: Store, root: DataRoot, oid: nat)
    requires IsObs(store.Value(), oid, Stored) && oid !in root.live
    modifies store
    ensures NothingPending(old(store.Value())) ==>
      NothingPending(store.Value()) && Repaired(old(store.Value()), root.Value(), store.Value(), root.Value())
    ensures store.runs == old(store.runs)
    ensures store.obs == old(store.obs)[oid := ObsRow(Inconsistent, 0, 0)]
  {
    ghost var db := store.Value();
    if NothingPending(db) {
      RepairedOnce(db, root.Value(), MarkMissing(oid));
    }
    var r := store.TransitionObservation(oid, Stored, Inconsistent, Some(0), Some(0));
    PendingStays(db, store.Value());
  }

  /** How far the pass has come, and what it has not touched. */
  ghost predicate MissingSoFar(db: Db, fs: Fs, db': Db) {
    && (NothingPending(db) ==> NothingPending(db') && Repaired(db, fs, db', fs))
    && db'.runs == db.runs && RowsMoved(db.obs, db'.obs, Stored, Inconsistent)
  }

  lemma MissingFurther(db0: Db, fs: Fs, db: Db, db': Db)
    requires MissingSoFar(db0, fs, db) && MissingSoFar(db, fs, db')
    ensures MissingSoFar(db0, fs, db')
  {
    if NothingPending(db0) {
      RepairedFurther(db0, fs, db, fs, db', fs);
    }
  }

  method MarkIfMissing(store: Store, root: DataRoot, oid: nat)
    requires IsObs(store.Value(), oid, Stored)
    modifies store
    ensures MissingSoFar(old(store.Value()), root.Value(), store.Value())
    ensures SameRowsBut(old(store.Value()), store.Value(), oid)
    ensures store.obs[oid] == if oid in root.live then old(store.obs)[oid] else ObsRow(Inconsistent, 0, 0)
  {
    RepairedByNothing(store.Value(), root.Value());
    if oid !in root.live {
      MarkMissingSet(store, root, oid);
    }
  }

  method MarkMissingSets(store: Store, root: DataRoot) returns (died: bool)
    modifies store, root`mishaps
    ensures MissingSoFar(old(store.Value()), root.Value(), store.Value())
    ensures Scoped(died, {}, old(root.mishaps), root.mishaps)
    ensures !died ==> Listed(store.Value(), [], Stored, root.live.Keys)
  {
    died := false;
    RepairedByNothing(store.Value(), root.Value());
    ghost var fs := root.Value();
    var ids := store.ListObservations(Stored);
    while ids != []
      invariant MissingSoFar(old(store.Value()), fs, store.Value())
      invariant root.mishaps == old(root.mishaps)
      invariant Listed(store.Value(), ids, Stored, root.live.Keys)
      decreases |ids|
    {
      died := root.Mishap();
      if died {
        return;
      }
      ghost var db := store.Value();
      assert IsObs(db, ids[0], Stored);
      MarkIfMissing(store, root, ids[0]);
      MissingFurther(old(store.Value()), fs, db, store.Value());
      ListedNext(db, store.Value(), ids, Stored, root.live.Keys, root.live.Keys);
      ids := ids[1..];
    }
    died := false;
  }

  lemma PendingStays(db: Db, db': Db)
    requires db'.runs == db.runs && |db'.obs| == |db.obs|
    requires forall o :: 0 <= o < |db.obs| && db'.obs[o].state.Stored? ==> db.obs[o].state.Stored?
    ensures NothingPending(db) ==> NothingPending(db')
  {
    if NothingPending(db) {
      forall o: nat | IsObs(db', o, Stored) ensures !ResumePending(db', o) {
        assert !ResumePending(db, o);
      }
    }
  }

  // ------------------------------------------------------------------------- orphans

  /** Only files without a row leave. */
  ghost predicate OnlyOrphans(rows: nat, fs: Fs, fs': Fs) {
    && fs'.trash == fs.trash && fs'.products == fs.products
    && (forall o: nat :: o < rows ==> (o in fs'.live <==> o in fs.live))
    && fs'.live.Keys <= fs.live.Keys
  }

  method QuarantineOrphan(store: Store, root: DataRoot, child: nat) returns (out: Outcome)
    requires child >= |store.obs| && child in root.live
    modifies store, root
    ensures Repaired(old(store.Value()), old(root.Value()), store.Value(), root.Value())
    ensures store.obs == old(store.obs) && store.runs == old(store.runs) && !out.Died?
    ensures root.trash == old(root.trash) && root.products == old(root.products)
    ensures root.live == if out.Clean? then old(root.live) - {child} else old(root.live)
    ensures if out.Clean? then SetAsideAs(old(root.Value()), root.Value(), child, "orphan-" + ObsPart(child) + ".ms")
      else root.Value() == old(root.Value())
    ensures store.log == old(store.log) + if out.Clean? then [] else [ObsNote(0)]
    ensures Counted(out, old(root.mishaps), root.mishaps)
  {
    ghost var db, fs := store.Value(), root.Value();
    var moved := root.QuarantinePath(child, "orphan-" + ObsPart(child) + ".ms");
    if moved.Ok? {
      RepairedOnce(db, fs, MoveOrphan(child, moved.value));
      return Clean;
    }
    RepairedOnce(db, fs, Report(NoteObs(0)));
    store.RecordObsEvent(0);
    return Degraded;
  }

  method QuarantineOrphans(store: Store, root: DataRoot) returns (died: bool, ghost left: set<nat>)
    modifies store, root
    ensures Repaired(old(store.Value()), old(root.Value()), store.Value(), root.Value())
    ensures store.obs == old(store.obs) && store.runs == old(store.runs)
    ensures OnlyOrphans(|store.obs|, old(root.Value()), root.Value())
    ensures Scoped(died, left, old(root.mishaps), root.mishaps)
    ensures !died ==> forall o :: o in root.live ==> o < |store.obs| || o in left
  {
    died, left := false, {};
    RepairedByNothing(store.Value(), root.Value());
    var children := root.live.Keys;
    while children != {}
      invariant Repaired(old(store.Value()), old(root.Value()), store.Value(), root.Value())
      invariant store.obs == old(store.obs) && store.runs == old(store.runs)
      invariant OnlyOrphans(|store.obs|, old(root.Value()), root.Value())
      invariant Scoped(false, left, old(root.mishaps), root.mishaps)
      invariant children <= root.live.Keys
      invariant forall o :: o in root.live ==> o < |store.obs| || o in children || o in left
      decreases children
    {
      died := root.Mishap();
      if died {
        return;
      }
      var child :| child in children;
      children := children - {child};
      if child >= |store.obs| {
        ghost var db, fs := store.Value(), root.Value();
        var out := QuarantineOrphan(store, root, child);
        RepairedFurther(old(store.Value()), old(root.Value()), db, fs, store.Value(), root.Value());
        left := left + if out.Clean? then {} else {child};
      }
    }
    died := false;
  }

  // ----------------------------------------------------------------- the whole recovery

  /** No STORED observation has an accepted run beside a running one; this is so in every reachable store. */
  ghost predicate VerdictsCalm(db: Db) {
    forall o: nat :: IsObs(db, o, Stored) && HasRunIn(db, o, Accepted) ==> !HasRunIn(db, o, Running)
  }

  /** Rows of the store only leave STORED, runs only fail. */
  predicate OnlyRecovered(db: Db, db': Db) {
    && RunsFailed(db.runs, db'.runs) && |db'.obs| == |db.obs|
    && forall o :: 0 <= o < |db.obs| ==> db'.obs[o] == db.obs[o] || !db'.obs[o].state.Stored?
  }

  lemma StatesWereThere(db: Db, db': Db, o: nat, s: RunState)
    requires RunsFailed(db.runs, db'.runs) && HasRunIn(db', o, s) && !s.Failed?
    ensures HasRunIn(db, o, s)
  {
    var r :| 0 <= r < |db'.runs| && db'.runs[r].oid == o && db'.runs[r].state == s;
    assert db.runs[r] == db'.runs[r];
  }

  lemma VerdictsStayCalm(db: Db, db': Db)
    requires VerdictsCalm(db) && OnlyRecovered(db, db')
    ensures VerdictsCalm(db')
  {
    forall o: nat, s: RunState | HasRunIn(db', o, s) && !s.Failed? ensures HasRunIn(db, o, s) {
      StatesWereThere(db, db', o, s);
    }
    forall o: nat | IsObs(db', o, Stored) ensures IsObs(db, o, Stored) {
    }
  }

  lemma RepairOnlyRecovers(db: Db, fs: Fs, r: Repair)
    requires Repairable(db, fs, r)
    ensures OnlyRecovered(db, RepairDb(db, r))
  {
  }

  lemma {:induction false} RepairsKeepCalm(db: Db, fs: Fs, rs: seq<Repair>, db': Db, fs': Fs)
    requires VerdictsCalm(db) && Repairs(db, fs, rs, db', fs')
    ensures VerdictsCalm(db')
    decreases |rs|
  {
    if rs != [] {
      RepairOnlyRecovers(db, fs, rs[0]);
      VerdictsStayCalm(db, RepairDb(db, rs[0]));
      RepairsKeepCalm(RepairDb(db, rs[0]), RepairFs(db, fs, rs[0]), rs[1..], db', fs');
    }
  }

  /** A recovery, complete or not, hands the hypothesis on to the next one. */
  lemma RepairedKeepsCalm(db: Db, fs: Fs, db': Db, fs': Fs)
    requires VerdictsCalm(db) && Repaired(db, fs, db', fs')
    ensures VerdictsCalm(db')
  {
    var rs :| Repairs(db, fs, rs, db', fs');
    RepairsKeepCalm(db, fs, rs, db', fs');
  }

  /** The hypothesis of the recovery method holds in every world of every run. */
  lemma ReachableVerdictsCalm(cfg: Config, ws: seq<World>, steps: seq<Step>, i: nat)
    requires ValidConfig(cfg) && IsRunOf(cfg, ws, steps) && i < |ws|
    ensures VerdictsCalm(ws[i].db)
  {
    RunKeeps(cfg, ws, steps, i);
    forall o: nat | IsObs(ws[i].db, o, Stored) ensures !HasRunIn(ws[i].db, o, Accepted) {
      Ledger.StoredHasNoVerdict(ws[i].db, o);
    }
  }

  lemma NothingLeftPending(db: Db)
    requires VerdictsCalm(db) && forall o: nat :: !Unresumed(db, o)
    ensures NothingPending(db)
  {
    forall o: nat | IsObs(db, o, Stored) ensures !ResumePending(db, o) {
      assert !Unresumed(db, o);
    }
  }

  /** Nothing is interrupted any more, except what was left behind. */
  predicate NothingInterrupted(db: Db, obsLeft: set<nat>, runsLeft: set<nat>) {
    && (forall o :: 0 <= o < |db.obs| && db.obs[o].state.Observing? ==> o in obsLeft)
    && (forall r :: 0 <= r < |db.runs| && db.runs[r].state.Running? ==> r in runsLeft)
  }

  /** Interrupted work is failed and accepted verdicts resume their deletions. */
  method EndInterruptedWork(store: Store, root: DataRoot)
    returns (died: bool, ghost obsLeft: set<nat>, ghost runsLeft: set<nat>)
    modifies store, root
    ensures Repaired(old(store.Value()), old(root.Value()), store.Value(), root.Value())
    ensures OnlyRecovered(old(store.Value()), store.Value())
    ensures |obsLeft| + |runsLeft| + (if died then 1 else 0) <= root.mishaps - old(root.mishaps)
    ensures !died ==> NothingInterrupted(store.Value(), obsLeft, runsLeft)
    ensures !died ==> forall o: nat :: !Unresumed(store.Value(), o)
  {
    ghost var db0, fs0 := store.Value(), root.Value();
    runsLeft := {};
    died, obsLeft := RecoverObservations(store, root);
    if died {
      return;
    }
    ghost var db1, fs1 := store.Value(), root.Value();
    died, runsLeft := RecoverRuns(store, root);
    ghost var db2, fs2 := store.Value(), root.Value();
    RepairedFurther(db0, fs0, db1, fs1, db2, fs2);
    if died {
      return;
    }
    died := ResumeDeletions(store, root);
    RepairedFurther(db0, fs0, db2, fs2, store.Value(), fs2);
  }

  /** Rows only leave DELETING or STORED, and no run changes. */
  predicate OnlyReleased(db: Db, db': Db) {
    && db'.runs == db.runs && |db'.obs| == |db.obs|
    && forall o :: 0 <= o < |db.obs| ==> db'.obs[o] == db.obs[o] || db'.obs[o].state in {Deleted, Inconsistent}
  }

  /**
   * Rows and files agree, except for what was left behind: deletions are complete or wedged, stored
   * sets exist, nothing is unknown.
   */
  ghost predicate FilesMatch(db: Db, fs: Fs, left: set<nat>) {
    && WedgedOrLeft(db, fs, [], left)
    && (forall o: nat :: IsObs(db, o, Stored) ==> o in fs.live)
    && (forall o :: o in fs.live ==> o < |db.obs| || o in left)
  }

  lemma OrphansMatch(db: Db, fs: Fs, db': Db, fs': Fs, left: set<nat>, orphansLeft: set<nat>)
    requires WedgedOrLeft(db, fs, [], left) && Listed(db, [], Stored, fs.live.Keys)
    requires db'.obs == db.obs && OnlyOrphans(|db.obs|, fs, fs')
    requires forall o :: o in fs'.live ==> o < |db.obs| || o in orphansLeft
    ensures FilesMatch(db', fs', left + orphansLeft)
  {
    forall o: nat | IsObs(db', o, Deleting) ensures Wedged(fs', o) || o in left {
      assert IsObs(db, o, Deleting);
    }
    forall o: nat | IsObs(db', o, Stored) ensures o in fs'.live {
      assert IsObs(db, o, Stored);
    }
  }

  lemma MissingMatch(db: Db, fs: Fs, db': Db, left: set<nat>)
    requires WedgedOrLeft(db, fs, [], left) && RowsMoved(db.obs, db'.obs, Stored, Inconsistent)
    ensures WedgedOrLeft(db', fs, [], left)
  {
    forall o: nat | IsObs(db', o, Deleting) ensures Wedged(fs, o) || o in left {
      assert IsObs(db, o, Deleting);
    }
  }

  /** Deletions are completed, missing sets recorded, and files without a row quarantined. */
  method MatchFiles(store: Store, root: DataRoot) returns (died: bool, ghost left: set<nat>)
    modifies store, root
    ensures NothingPending(old(store.Value())) ==>
      Repaired(old(store.Value()), old(root.Value()), store.Value(), root.Value())
    ensures OnlyReleased(old(store.Value()), store.Value())
    ensures Scoped(died, left, old(root.mishaps), root.mishaps)
    ensures !died ==> FilesMatch(store.Value(), root.Value(), left)
  {
    ghost var db0, fs0 := store.Value(), root.Value();
    died, left := CompleteDeletions(store, root);
    ghost var db1, fs1 := store.Value(), root.Value();
    PendingStays(db0, db1);
    if died {
      return;
    }
    died := MarkMissingSets(store, root);
    ghost var db2 := store.Value();
    if NothingPending(db0) {
      RepairedFurther(db0, fs0, db1, fs1, db2, fs1);
    }
    MissingMatch(db1, fs1, db2, left);
    if died {
      return;
    }
    ghost var orphansLeft;
    died, orphansLeft := QuarantineOrphans(store, root);
    if NothingPending(db0) {
      RepairedFurther(db0, fs0, db2, fs1, store.Value(), root.Value());
    }
    if !died {
      OrphansMatch(db2, fs1, store.Value(), root.Value(), left, orphansLeft);
    }
    UnionSmall(left, orphansLeft);
    left := left + orphansLeft;
  }

  /** Nothing is left to repair beyond these observations, or ids without a row, and these runs. */
  ghost predicate SettledBut(db: Db, fs: Fs, left: set<nat>, runsLeft: set<nat>) {
    && (forall oid: nat :: oid in left || SettledObs(db, fs, oid))
    && (forall r :: 0 <= r < |db.runs| && db.runs[r].state.Running? ==> r in runsLeft)
  }

  lemma SettledButNothing(db: Db, fs: Fs)
    requires SettledBut(db, fs, {}, {})
    ensures Settled(db, fs)
  {
  }

  lemma StoredWasStored(db1: Db, db: Db, o: nat)
    requires NothingPending(db1) && OnlyReleased(db1, db) && IsObs(db, o, Stored)
    ensures !ResumePending(db, o)
  {
    assert IsObs(db1, o, Stored) && !ResumePending(db1, o);
  }

  /** What the two halves establish, taken together. */
  lemma HalvesSettle(db1: Db, db: Db, fs: Fs, obsLeft: set<nat>, runsLeft: set<nat>, left: set<nat>)
    requires NothingPending(db1) && NothingInterrupted(db1, obsLeft, runsLeft)
    requires OnlyReleased(db1, db) && FilesMatch(db, fs, left)
    ensures SettledBut(db, fs, obsLeft + left, runsLeft)
  {
    forall oid: nat | oid !in obsLeft + left ensures SettledObs(db, fs, oid) {
      if IsObs(db, oid, Stored) {
        StoredWasStored(db1, db, oid);
      }
    }
  }

  /**
   * Recovery at startup, once no writer is left. From any rows and files, wherever it dies, what it
   * has done is a sequence of repairs. Failures are scoped: when it comes to its end, each entity left
   * unrepaired cost a failed file operation of its own; without any mishap nothing is left to repair.
   */
  method StartupReconcile(store: Store, root: DataRoot)
    returns (died: bool, ghost left: set<nat>, ghost runsLeft: set<nat>)
    modifies store, root
    ensures VerdictsCalm(old(store.Value())) ==>
      Repaired(old(store.Value()), old(root.Value()), store.Value(), root.Value()) && VerdictsCalm(store.Value())
    ensures |left| + |runsLeft| + (if died then 1 else 0) <= root.mishaps - old(root.mishaps)
    ensures VerdictsCalm(old(store.Value())) && !died ==> SettledBut(store.Value(), root.Value(), left, runsLeft)
    ensures VerdictsCalm(old(store.Value())) && root.mishaps == old(root.mishaps) ==> Settled(store.Value(), root.Value())
  {
    ghost var db0, fs0 := store.Value(), root.Value();
    died, left, runsLeft := EndInterruptedWork(store, root);
    if VerdictsCalm(db0) {
      RepairedKeepsCalm(db0, fs0, store.Value(), root.Value());
    }
    if died {
      return;
    }
    ghost var db1, fs1 := store.Value(), root.Value();
    ghost var more;
    died, more := MatchFiles(store, root);
    if VerdictsCalm(db0) {
      VerdictsStayCalm(db0, db1);
      NothingLeftPending(db1);
      RepairedFurther(db0, fs0, db1, fs1, store.Value(), root.Value());
      RepairedKeepsCalm(db0, fs0, store.Value(), root.Value());
      if !died {
        HalvesSettle(db1, store.Value(), root.Value(), left, runsLeft, more);
      }
    }
    UnionSmall(left, more);
    left := left + more;
    if SettledBut(store.Value(), root.Value(), {}, {}) {
      SettledButNothing(store.Value(), root.Value());
    }
  }

  // ------------------------------------------------------------- crash and start again

  /** The same rows and files, and the same contents in quarantine under whatever names. */
  ghost predicate SameResult(db1: Db, fs1: Fs, db2: Db, fs2: Fs) {
    && db1.obs == db2.obs && db1.runs == db2.runs
    && fs1.live == fs2.live && fs1.trash == fs2.trash && fs1.products == fs2.products
    && forall v: nat :: Totals.Copies(fs1.quarantine, v) == Totals.Copies(fs2.quarantine, v)
  }

  /** Nothing is left to repair, and every recovery of the first state that finishes has this result. */
  ghost predicate IsTheOutcome(db: Db, fs: Fs, db': Db, fs': Fs) {
    && Settled(db', fs')
    && forall db2, fs2 :: Repaired(db, fs, db2, fs2) && Settled(db2, fs2) ==> SameResult(db', fs', db2, fs2)
  }

  lemma FinishedIsTheOutcome(db: Db, fs: Fs, db': Db, fs': Fs)
    requires Repaired(db, fs, db', fs') && Settled(db', fs')
    ensures IsTheOutcome(db, fs, db', fs')
  {
    forall db2, fs2 | Repaired(db, fs, db2, fs2) && Settled(db2, fs2) ensures SameResult(db', fs', db2, fs2) {
      var rs1 :| Repairs(db, fs, rs1, db', fs');
      var rs2 :| Repairs(db, fs, rs2, db2, fs2);
      RecoveryConfluent(db, fs, rs1, db', fs', rs2, db2, fs2);
    }
  }

  /**
   * A service that starts the controller again whenever it dies in its recovery, up to a limit. However
   * often it died and wherever, once a recovery comes to its end without a mishap of its own the result
   * is that of a single undisturbed recovery of the first state. Each restart costs a mishap, and `last`
   * counts those of the last recovery; so with no mishaps but the deaths the result is always that one.
   */
  method RecoverWithRestarts(store: Store, root: DataRoot, limit: nat)
    returns (completed: bool, deaths: nat, ghost last: nat)
    modifies store, root
    ensures VerdictsCalm(old(store.Value())) ==>
      Repaired(old(store.Value()), old(root.Value()), store.Value(), root.Value()) && VerdictsCalm(store.Value())
    ensures VerdictsCalm(old(store.Value())) && completed && last == 0 ==>
      IsTheOutcome(old(store.Value()), old(root.Value()), store.Value(), root.Value())
    ensures deaths + (if completed then last else 0) <= root.mishaps - old(root.mishaps)
    ensures !completed ==> deaths == limit
  {
    completed, deaths, last := false, 0, 0;
    RepairedByNothing(store.Value(), root.Value());
    while deaths < limit && !completed
      invariant VerdictsCalm(old(store.Value())) ==>
        Repaired(old(store.Value()), old(root.Value()), store.Value(), root.Value()) && VerdictsCalm(store.Value())
      invariant VerdictsCalm(old(store.Value())) && completed && last == 0 ==> Settled(store.Value(), root.Value())
      invariant deaths <= limit && deaths + (if completed then last else 0) <= root.mishaps - old(root.mishaps)
      decreases limit - deaths, !completed
    {
      ghost var db, fs, before := store.Value(), root.Value(), root.mishaps;
      var died;
      ghost var left, runsLeft;
      died, left, runsLeft := StartupReconcile(store, root);
      if VerdictsCalm(old(store.Value())) {
        RepairedFurther(old(store.Value()), old(root.Value()), db, fs, store.Value(), root.Value());
      }
      last := root.mishaps - before;
      completed := !died;
      deaths := if died then deaths + 1 else deaths;
    }
    if VerdictsCalm(old(store.Value())) && completed && last == 0 {
      FinishedIsTheOutcome(old(store.Value()), old(root.Value()), store.Value(), root.Value());
    }
  }
}
