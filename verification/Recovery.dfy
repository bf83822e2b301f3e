/**
 * Startup recovery as durable repairs. From any state of rows and files, however often recovery
 * is cut short and restarted, what it finally leaves is determined by the state it first found.
 */
module Recovery {
  import opened Models
  import opened StoreSpec
  import opened Totals
  import opened Protocol

  // -------------------------------------------------------------------- repairs

  /** One durable action of recovery. Trees under removal may be left in part. */
  datatype Repair =
    | MoveInterrupted(oid: nat, name: string)
    | FailInterrupted(oid: nat)
    | CleanRun(rid: nat, left: Option<nat>)
    | FailRun(rid: nat)
    | Resume(oid: nat)
    | ToTrash(oid: nat)
    | Erase(oid: nat, left: Option<nat>)
    | FinishDelete(oid: nat)
    | MarkMissing(oid: nat)
    | MoveOrphan(oid: nat, name: string)
    | Report(note: Op)

  /** Both copies exist: recovery refuses to guess and leaves the row to the operator. */
  predicate Wedged(fs: Fs, oid: nat) {
    oid in fs.live && oid in fs.trash
  }

  predicate Repairable(db: Db, fs: Fs, r: Repair) {
    match r
    case MoveInterrupted(oid, name) => IsObs(db, oid, Observing) && oid in fs.live && name !in fs.quarantine
    case FailInterrupted(oid) => IsObs(db, oid, Observing) && oid !in fs.live
    case CleanRun(rid, left) => IsRun(db, rid, Running) && DirOf(db, rid) in fs.products
    case FailRun(rid) => IsRun(db, rid, Running) && DirOf(db, rid) !in fs.products
    case Resume(oid) => IsObs(db, oid, Stored) && HasRunIn(db, oid, Accepted) && !HasActive(db, oid)
    case ToTrash(oid) => IsObs(db, oid, Deleting) && oid in fs.live && oid !in fs.trash
    case Erase(oid, left) => IsObs(db, oid, Deleting) && oid !in fs.live && Shrinks(fs.trash, oid, left)
    case FinishDelete(oid) => IsObs(db, oid, Deleting) && oid !in fs.live && oid !in fs.trash
    case MarkMissing(oid) => IsObs(db, oid, Stored) && oid !in fs.live && !ResumePending(db, oid)
    case MoveOrphan(oid, name) => oid >= |db.obs| && oid in fs.live && name !in fs.quarantine
    case Report(note) => note.NoteObs? || note.NoteRun?
  }

  function RepairDb(db: Db, r: Repair): Db {
    match r
    case FailInterrupted(oid) => After(db, MoveObs(oid, Observing, ObserveFailed, None, Some(0)))
    case FailRun(rid) => After(db, MoveRun(rid, Running, Failed))
    case Resume(oid) => After(db, MoveObs(oid, Stored, Deleting, None, None))
    case FinishDelete(oid) => After(db, MoveObs(oid, Deleting, Deleted, Some(0), Some(0)))
    case MarkMissing(oid) => After(db, MoveObs(oid, Stored, Inconsistent, Some(0), Some(0)))
    case Report(note) => After(db, note)
    case _ => db
  }

  function RepairFs(db: Db, fs: Fs, r: Repair): Fs {
    match r
    case MoveInterrupted(oid, name) => MoveToQuarantine(fs, oid, name)
    case MoveOrphan(oid, name) => MoveToQuarantine(fs, oid, name)
    case CleanRun(rid, left) => fs.(products := Trim(fs.products, DirOf(db, rid), left))
    case ToTrash(oid) =>
      fs.(live := fs.live - {oid}, trash := fs.trash[oid := Bytes(fs.live, oid)], tStamp := fs.tStamp + 1)
    case Erase(oid, left) =>
      fs.(trash := Trim(fs.trash, oid, left), tStamp := fs.tStamp + if left.Some? then 0 else 1)
    case _ => fs
  }

  // -------------------------------------------------------------------- outcome

  /** Rows whose raw data recovery deletes: deletion intent, or the legacy acceptance without it. */
  predicate Doomed(db: Db, oid: nat) {
    IsObs(db, oid, Deleting) || (IsObs(db, oid, Stored) && ResumePending(db, oid))
  }

  function OutObs(db: Db, fs: Fs, oid: nat): ObsRow
    requires oid < |db.obs|
  {
    var row := db.obs[oid];
    if row.state.Observing? then ObsRow(ObserveFailed, row.size, 0)
    else if Doomed(db, oid) then (if Wedged(fs, oid) then row.(state := Deleting) else ObsRow(Deleted, 0, 0))
    else if row.state.Stored? && oid !in fs.live then ObsRow(Inconsistent, 0, 0)
    else row
  }

  function OutRun(db: Db, rid: nat): RunRow
    requires rid < |db.runs|
  {
    if db.runs[rid].state.Running? then db.runs[rid].(state := Failed) else db.runs[rid]
  }

  function Lookup<K(==)>(m: map<K, nat>, k: K): Option<nat> {
    if k in m then Some(m[k]) else None
  }

  predicate GoesToQuarantine(db: Db, oid: nat) {
    oid >= |db.obs| || IsObs(db, oid, Observing)
  }

  predicate GetsErased(db: Db, fs: Fs, oid: nat) {
    Doomed(db, oid) && !Wedged(fs, oid)
  }

  function OutLive(db: Db, fs: Fs, oid: nat): Option<nat> {
    if GoesToQuarantine(db, oid) || GetsErased(db, fs, oid) then None else Lookup(fs.live, oid)
  }

  function OutTrash(db: Db, fs: Fs, oid: nat): Option<nat> {
    if GetsErased(db, fs, oid) then None else Lookup(fs.trash, oid)
  }

  predicate RunningDir(db: Db, dir: string) {
    exists r :: 0 <= r < |db.runs| && db.runs[r].state.Running? && db.runs[r].dir == dir
  }

  function OutProduct(db: Db, fs: Fs, dir: string): Option<nat> {
    if RunningDir(db, dir) then None else Lookup(fs.products, dir)
  }

  /** The measurement sets recovery still has to move to quarantine. */
  function Pending(db: Db, fs: Fs): map<nat, nat> {
    map o | o in fs.live && GoesToQuarantine(db, o) :: fs.live[o]
  }

  /** How often a content will be in quarantine; names are left open. */
  ghost function OutCopies(db: Db, fs: Fs, v: nat): nat {
    Copies(fs.quarantine, v) + Copies(Pending(db, fs), v)
  }

  ghost predicate SameOutcome(db: Db, fs: Fs, db': Db, fs': Fs) {
    && |db'.obs| == |db.obs| && |db'.runs| == |db.runs|
    && (forall oid: nat :: oid < |db.obs| ==> OutObs(db', fs', oid) == OutObs(db, fs, oid))
    && (forall rid: nat :: rid < |db.runs| ==> OutRun(db', rid) == OutRun(db, rid))
    && (forall oid: nat :: OutLive(db', fs', oid) == OutLive(db, fs, oid))
    && (forall oid: nat :: OutTrash(db', fs', oid) == OutTrash(db, fs, oid))
    && (forall dir: string :: OutProduct(db', fs', dir) == OutProduct(db, fs, dir))
    && (forall v: nat :: OutCopies(db', fs', v) == OutCopies(db, fs, v))
  }

  /** Nothing is left for recovery to do. */
  ghost predicate Settled(db: Db, fs: Fs) {
    && (forall oid: nat :: SettledObs(db, fs, oid))
    && (forall rid :: 0 <= rid < |db.runs| ==> !db.runs[rid].state.Running?)
  }

  predicate SettledObs(db: Db, fs: Fs, oid: nat) {
    && (oid in fs.live ==> !GoesToQuarantine(db, oid))
    && !IsObs(db, oid, Observing)
    && (IsObs(db, oid, Deleting) ==> Wedged(fs, oid))
    && (IsObs(db, oid, Stored) ==> oid in fs.live && !ResumePending(db, oid))
  }

  /** A settled state is its own outcome. */
  lemma SettledIsOutcome(db: Db, fs: Fs)
    requires Settled(db, fs)
    ensures forall oid: nat :: oid < |db.obs| ==> OutObs(db, fs, oid) == db.obs[oid]
    ensures forall rid: nat :: rid < |db.runs| ==> OutRun(db, rid) == db.runs[rid]
    ensures forall oid: nat :: OutLive(db, fs, oid) == Lookup(fs.live, oid) && OutTrash(db, fs, oid) == Lookup(fs.trash, oid)
    ensures forall dir: string :: OutProduct(db, fs, dir) == Lookup(fs.products, dir)
    ensures forall v: nat :: OutCopies(db, fs, v) == Copies(fs.quarantine, v)
  {
    forall oid: nat
      ensures oid < |db.obs| ==> OutObs(db, fs, oid) == db.obs[oid]
      ensures OutLive(db, fs, oid) == Lookup(fs.live, oid) && OutTrash(db, fs, oid) == Lookup(fs.trash, oid)
    {
      assert SettledObs(db, fs, oid);
    }
    forall o | o in fs.live ensures !GoesToQuarantine(db, o) {
      assert SettledObs(db, fs, o);
    }
    assert Pending(db, fs) == map[];
  }

  /** In a settled state nothing but a remark can follow. */
  lemma SettledMeansNoRepair(db: Db, fs: Fs, r: Repair)
    requires Settled(db, fs) && !r.Report?
    ensures !Repairable(db, fs, r)
  {
    match r {
      case MoveInterrupted(oid, _) => assert SettledObs(db, fs, oid);
      case FailInterrupted(oid) => assert SettledObs(db, fs, oid);
      case Resume(oid) => assert SettledObs(db, fs, oid);
      case ToTrash(oid) => assert SettledObs(db, fs, oid);
      case Erase(oid, _) => assert SettledObs(db, fs, oid);
      case FinishDelete(oid) => assert SettledObs(db, fs, oid);
      case MarkMissing(oid) => assert SettledObs(db, fs, oid);
      case MoveOrphan(oid, _) => assert SettledObs(db, fs, oid);
      case CleanRun(_, _) =>
      case FailRun(_) =>
    }
  }

  // ------------------------------------------------- every repair keeps the outcome

  lemma MoveKeepsOutcome(db: Db, fs: Fs, oid: nat, name: string)
    requires oid in fs.live && name !in fs.quarantine && GoesToQuarantine(db, oid) && !Doomed(db, oid)
    ensures SameOutcome(db, fs, db, MoveToQuarantine(fs, oid, name))
  {
    var fs' := MoveToQuarantine(fs, oid, name);
    assert Pending(db, fs') == Pending(db, fs) - {oid};
    forall v: nat ensures OutCopies(db, fs', v) == OutCopies(db, fs, v) {
      CopiesRemove(Pending(db, fs), oid, v);
      CopiesUpdate(fs.quarantine, name, fs.live[oid], v);
    }
  }

  /** A change of one row that every outcome already anticipates. */
  lemma RowKeepsOutcome(db: Db, fs: Fs, db': Db, oid: nat)
    requires oid < |db.obs| && |db'.obs| == |db.obs| && db'.runs == db.runs
    requires forall o :: 0 <= o < |db.obs| && o != oid ==> db'.obs[o] == db.obs[o]
    requires OutObs(db', fs, oid) == OutObs(db, fs, oid)
    requires OutLive(db', fs, oid) == OutLive(db, fs, oid) && OutTrash(db', fs, oid) == OutTrash(db, fs, oid)
    requires oid in fs.live ==> (GoesToQuarantine(db', oid) <==> GoesToQuarantine(db, oid))
    ensures SameOutcome(db, fs, db', fs)
  {
    forall o: nat
      ensures o < |db.obs| ==> OutObs(db', fs, o) == OutObs(db, fs, o)
      ensures OutLive(db', fs, o) == OutLive(db, fs, o) && OutTrash(db', fs, o) == OutTrash(db, fs, o)
      ensures o in fs.live ==> (GoesToQuarantine(db', o) <==> GoesToQuarantine(db, o))
    {
      assert o < |db.obs| ==> (ResumePending(db', o) <==> ResumePending(db, o));
    }
    assert Pending(db', fs) == Pending(db, fs);
  }

  /** Files of a doomed observation may go, as long as they were not wedged. */
  lemma FilesKeepOutcome(db: Db, fs: Fs, fs': Fs, oid: nat)
    requires IsObs(db, oid, Deleting) && !Wedged(fs, oid) && !Wedged(fs', oid)
    requires fs'.quarantine == fs.quarantine && fs'.products == fs.products
    requires forall o :: o != oid ==>
      Lookup(fs'.live, o) == Lookup(fs.live, o) && Lookup(fs'.trash, o) == Lookup(fs.trash, o)
    ensures SameOutcome(db, fs, db, fs')
  {
    forall o: nat
      ensures o < |db.obs| ==> OutObs(db, fs', o) == OutObs(db, fs, o)
      ensures OutLive(db, fs', o) == OutLive(db, fs, o) && OutTrash(db, fs', o) == OutTrash(db, fs, o)
    {
      assert o != oid ==> Lookup(fs'.live, o) == Lookup(fs.live, o) && Lookup(fs'.trash, o) == Lookup(fs.trash, o);
    }
    forall o: nat | GoesToQuarantine(db, o) ensures o in fs'.live <==> o in fs.live {
      assert o != oid;
      assert Lookup(fs'.live, o) == Lookup(fs.live, o);
    }
    assert forall o: nat :: GoesToQuarantine(db, o) ==> Lookup(fs'.live, o) == Lookup(fs.live, o);
    assert Pending(db, fs') == Pending(db, fs);
  }

  lemma CleanKeepsOutcome(db: Db, fs: Fs, rid: nat, left: Option<nat>)
    requires IsRun(db, rid, Running)
    ensures SameOutcome(db, fs, db, fs.(products := Trim(fs.products, DirOf(db, rid), left)))
  {
    var fs' := fs.(products := Trim(fs.products, DirOf(db, rid), left));
    assert RunningDir(db, DirOf(db, rid));
    assert Pending(db, fs') == Pending(db, fs);
  }

  lemma FailRunKeepsOutcome(db: Db, fs: Fs, rid: nat)
    requires IsRun(db, rid, Running) && DirOf(db, rid) !in fs.products
    ensures SameOutcome(db, fs, After(db, MoveRun(rid, Running, Failed)), fs)
  {
    var db' := After(db, MoveRun(rid, Running, Failed));
    forall r | 0 <= r < |db.runs| && r != rid ensures db'.runs[r] == db.runs[r] {
    }
    forall oid: nat ensures Doomed(db', oid) <==> Doomed(db, oid) {
      SameVerdicts(db, db', rid, oid);
    }
    forall dir: string ensures OutProduct(db', fs, dir) == OutProduct(db, fs, dir) {
      if dir != DirOf(db, rid) {
        SameRunningDir(db, db', rid, dir);
      }
    }
    assert Pending(db', fs) == Pending(db, fs);
  }

  lemma SameVerdicts(db: Db, db': Db, rid: nat, oid: nat)
    requires IsRun(db, rid, Running) && db' == MovedRun(db, rid, Failed)
    ensures ResumePending(db', oid) <==> ResumePending(db, oid)
  {
    forall s: RunState | s.Accepted? || s.Queued? || s.AwaitingQa?
      ensures HasRunIn(db', oid, s) <==> HasRunIn(db, oid, s)
    {
      if r :| 0 <= r < |db.runs| && db.runs[r].oid == oid && db.runs[r].state == s {
        assert db'.runs[r] == db.runs[r];
      }
      if r :| 0 <= r < |db'.runs| && db'.runs[r].oid == oid && db'.runs[r].state == s {
        assert db'.runs[r] == db.runs[r];
      }
    }
  }

  lemma SameRunningDir(db: Db, db': Db, rid: nat, dir: string)
    requires IsRun(db, rid, Running) && db' == MovedRun(db, rid, Failed) && dir != db.runs[rid].dir
    ensures RunningDir(db', dir) <==> RunningDir(db, dir)
  {
    if r :| 0 <= r < |db.runs| && db.runs[r].state.Running? && db.runs[r].dir == dir {
      assert db'.runs[r] == db.runs[r];
    }
    if r :| 0 <= r < |db'.runs| && db'.runs[r].state.Running? && db'.runs[r].dir == dir {
      assert db'.runs[r] == db.runs[r];
    }
  }

  lemma ReportKeepsOutcome(db: Db, fs: Fs, note: Op)
    requires note.NoteObs? || note.NoteRun?
    ensures SameOutcome(db, fs, After(db, note), fs)
  {
    var db' := After(db, note);
    forall oid: nat ensures ResumePending(db', oid) <==> ResumePending(db, oid) {
    }
    assert Pending(db', fs) == Pending(db, fs);
  }

  lemma ResumeIsPending(db: Db, oid: nat)
    requires HasRunIn(db, oid, Accepted) && !HasActive(db, oid)
    ensures ResumePending(db, oid)
  {
  }

  /** Whatever repair recovery makes next, the outcome it is heading for stays the same. */
  lemma RepairKeepsOutcome(db: Db, fs: Fs, r: Repair)
    requires Repairable(db, fs, r)
    ensures SameOutcome(db, fs, RepairDb(db, r), RepairFs(db, fs, r))
  {
    match r {
      case MoveInterrupted(oid, name) => MoveKeepsOutcome(db, fs, oid, name);
      case MoveOrphan(oid, name) => MoveKeepsOutcome(db, fs, oid, name);
      case FailInterrupted(oid) => RowKeepsOutcome(db, fs, RepairDb(db, r), oid);
      case CleanRun(rid, left) => CleanKeepsOutcome(db, fs, rid, left);
      case FailRun(rid) => FailRunKeepsOutcome(db, fs, rid);
      case Resume(oid) =>
        ResumeIsPending(db, oid);
        RowKeepsOutcome(db, fs, RepairDb(db, r), oid);
      case ToTrash(oid) => FilesKeepOutcome(db, fs, RepairFs(db, fs, r), oid);
      case Erase(oid, left) => FilesKeepOutcome(db, fs, RepairFs(db, fs, r), oid);
      case FinishDelete(oid) => RowKeepsOutcome(db, fs, RepairDb(db, r), oid);
      case MarkMissing(oid) => RowKeepsOutcome(db, fs, RepairDb(db, r), oid);
      case Report(note) => ReportKeepsOutcome(db, fs, note);
    }
  }

  // ------------------------------------------------------- interrupted recoveries

  /** A recovery, complete or cut short anywhere: a sequence of repairs. */
  ghost predicate Repairs(db: Db, fs: Fs, rs: seq<Repair>, db': Db, fs': Fs)
    decreases |rs|
  {
    if rs == [] then db' == db && fs' == fs
    else Repairable(db, fs, rs[0]) && Repairs(RepairDb(db, rs[0]), RepairFs(db, fs, rs[0]), rs[1..], db', fs')
  }

  /** Starting again after an interruption continues the sequence. */
  lemma {:induction false} RepairsJoin(db: Db, fs: Fs, rs: seq<Repair>, db1: Db, fs1: Fs,
        more: seq<Repair>, db2: Db, fs2: Fs)
    requires Repairs(db, fs, rs, db1, fs1) && Repairs(db1, fs1, more, db2, fs2)
    ensures Repairs(db, fs, rs + more, db2, fs2)
    decreases |rs|
  {
    if rs == [] {
      assert rs + more == more;
    } else {
      RepairsJoin(RepairDb(db, rs[0]), RepairFs(db, fs, rs[0]), rs[1..], db1, fs1, more, db2, fs2);
      assert (rs + more)[1..] == rs[1..] + more;
    }
  }

  lemma RepairsLast(db: Db, fs: Fs, rs: seq<Repair>, db1: Db, fs1: Fs, r: Repair)
    requires Repairs(db, fs, rs, db1, fs1) && Repairable(db1, fs1, r)
    ensures Repairs(db, fs, rs + [r], RepairDb(db1, r), RepairFs(db1, fs1, r))
  {
    var db2, fs2 := RepairDb(db1, r), RepairFs(db1, fs1, r);
    assert [r][1..] == [];
    assert Repairs(db2, fs2, [], db2, fs2);
    RepairsJoin(db, fs, rs, db1, fs1, [r], db2, fs2);
  }

  /** Some recovery, complete or cut short, leads from one state to the other. */
  ghost predicate Repaired(db: Db, fs: Fs, db': Db, fs': Fs) {
    exists rs :: Repairs(db, fs, rs, db', fs')
  }

  lemma RepairedByNothing(db: Db, fs: Fs)
    ensures Repaired(db, fs, db, fs)
  {
    assert Repairs(db, fs, [], db, fs);
  }

  lemma RepairedNext(db: Db, fs: Fs, db1: Db, fs1: Fs, r: Repair)
    requires Repaired(db, fs, db1, fs1) && Repairable(db1, fs1, r)
    ensures Repaired(db, fs, RepairDb(db1, r), RepairFs(db1, fs1, r))
  {
    var rs :| Repairs(db, fs, rs, db1, fs1);
    RepairsLast(db, fs, rs, db1, fs1, r);
  }

  lemma RepairedFurther(db: Db, fs: Fs, db1: Db, fs1: Fs, db2: Db, fs2: Fs)
    requires Repaired(db, fs, db1, fs1) && Repaired(db1, fs1, db2, fs2)
    ensures Repaired(db, fs, db2, fs2)
  {
    var rs :| Repairs(db, fs, rs, db1, fs1);
    var more :| Repairs(db1, fs1, more, db2, fs2);
    RepairsJoin(db, fs, rs, db1, fs1, more, db2, fs2);
  }

  lemma SameOutcomeTransitive(db: Db, fs: Fs, db1: Db, fs1: Fs, db2: Db, fs2: Fs)
    requires SameOutcome(db, fs, db1, fs1) && SameOutcome(db1, fs1, db2, fs2)
    ensures SameOutcome(db, fs, db2, fs2)
  {
  }

  lemma {:induction false} RepairsKeepOutcome(db: Db, fs: Fs, rs: seq<Repair>, db': Db, fs': Fs)
    requires Repairs(db, fs, rs, db', fs')
    ensures SameOutcome(db, fs, db', fs')
    decreases |rs|
  {
    if rs != [] {
      var db1, fs1 := RepairDb(db, rs[0]), RepairFs(db, fs, rs[0]);
      RepairKeepsOutcome(db, fs, rs[0]);
      RepairsKeepOutcome(db1, fs1, rs[1..], db', fs');
      SameOutcomeTransitive(db, fs, db1, fs1, db', fs');
    }
  }

  lemma SameLookups<K(!new)>(m: map<K, nat>, n: map<K, nat>)
    requires forall k :: Lookup(m, k) == Lookup(n, k)
    ensures m == n
  {
    forall k ensures k in m <==> k in n {
      assert Lookup(m, k) == Lookup(n, k);
    }
    forall k | k in m ensures m[k] == n[k] {
      assert Lookup(m, k) == Lookup(n, k);
    }
  }

  /**
   * Recovery is restartable. From any rows and files, any two recoveries, each interrupted and
   * restarted any number of times, that end with nothing left to do leave the same rows, the same
   * files and the same quarantined contents.
   */
  lemma RecoveryConfluent(db: Db, fs: Fs, rs1: seq<Repair>, db1: Db, fs1: Fs, rs2: seq<Repair>, db2: Db, fs2: Fs)
    requires Repairs(db, fs, rs1, db1, fs1) && Settled(db1, fs1)
    requires Repairs(db, fs, rs2, db2, fs2) && Settled(db2, fs2)
    ensures db1.obs == db2.obs && db1.runs == db2.runs
    ensures fs1.live == fs2.live && fs1.trash == fs2.trash && fs1.products == fs2.products
    ensures forall v: nat :: Copies(fs1.quarantine, v) == Copies(fs2.quarantine, v)
  {
    RepairsKeepOutcome(db, fs, rs1, db1, fs1);
    RepairsKeepOutcome(db, fs, rs2, db2, fs2);
    SettledIsOutcome(db1, fs1);
    SettledIsOutcome(db2, fs2);
    SettledAgree(db, fs, db1, fs1, db2, fs2);
  }

  lemma SettledAgree(db: Db, fs: Fs, db1: Db, fs1: Fs, db2: Db, fs2: Fs)
    requires SameOutcome(db, fs, db1, fs1) && SameOutcome(db, fs, db2, fs2) && Settled(db1, fs1) && Settled(db2, fs2)
    ensures db1.obs == db2.obs && db1.runs == db2.runs
    ensures fs1.live == fs2.live && fs1.trash == fs2.trash && fs1.products == fs2.products
    ensures forall v: nat :: Copies(fs1.quarantine, v) == Copies(fs2.quarantine, v)
  {
    SettledIsOutcome(db1, fs1);
    SettledIsOutcome(db2, fs2);
    forall o | 0 <= o < |db1.obs| ensures db1.obs[o] == db2.obs[o] {
      var oid: nat := o;
      assert OutObs(db1, fs1, oid) == OutObs(db2, fs2, oid);
    }
    forall r | 0 <= r < |db1.runs| ensures db1.runs[r] == db2.runs[r] {
      var rid: nat := r;
      assert OutRun(db1, rid) == OutRun(db2, rid);
    }
    forall o: nat ensures Lookup(fs1.live, o) == Lookup(fs2.live, o) && Lookup(fs1.trash, o) == Lookup(fs2.trash, o) {
      assert OutLive(db1, fs1, o) == OutLive(db2, fs2, o);
      assert OutTrash(db1, fs1, o) == OutTrash(db2, fs2, o);
    }
    SameLookups(fs1.live, fs2.live);
    SameLookups(fs1.trash, fs2.trash);
    forall dir: string ensures Lookup(fs1.products, dir) == Lookup(fs2.products, dir) {
      assert OutProduct(db1, fs1, dir) == OutProduct(db2, fs2, dir);
    }
    SameLookups(fs1.products, fs2.products);
    forall v: nat ensures Copies(fs1.quarantine, v) == Copies(fs2.quarantine, v) {
      assert OutCopies(db1, fs1, v) == OutCopies(db2, fs2, v);
    }
  }

  lemma ReportKeepsSettled(db: Db, fs: Fs, note: Op)
    requires Settled(db, fs) && (note.NoteObs? || note.NoteRun?)
    ensures Settled(After(db, note), fs)
  {
    var db' := After(db, note);
    forall oid: nat ensures SettledObs(db', fs, oid) {
      assert SettledObs(db, fs, oid);
    }
  }

  /** Recovering a recovered state changes neither rows nor files. */
  lemma RecoveryIdempotent(db: Db, fs: Fs, rs: seq<Repair>, db': Db, fs': Fs)
    requires Settled(db, fs) && Repairs(db, fs, rs, db', fs')
    ensures db'.obs == db.obs && db'.runs == db.runs && fs' == fs
    decreases |rs|
  {
    if rs != [] {
      if !rs[0].Report? {
        SettledMeansNoRepair(db, fs, rs[0]);
      }
      var db1 := RepairDb(db, rs[0]);
      ReportKeepsSettled(db, fs, rs[0].note);
      RecoveryIdempotent(db1, fs, rs[1..], db', fs');
    }
  }
}
