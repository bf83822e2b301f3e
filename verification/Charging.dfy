/**
 * What an undisturbed admission test charges, exactly: each raw byte once, and bytes in trash once more
 * while their row is still DELETING. So what fits is admitted.
 */
module Charging {
  import opened Models
  import opened StoreSpec
  import opened Ledger
  import opened Totals
  import opened Protocol
  import opened Safety
  import opened SafetySteps
  import opened Guarantees
  import opened Disk
  import opened Admitting
  import Cache
  import Leak

  /** A cache entry that would answer now tells the truth; an outdated one, or none, does not matter. */
  ghost predicate CacheTells(fs: Fs, cache: Option<CacheEntry>) {
    cache.Some? && cache.value.qStamp == fs.qStamp && cache.value.tStamp == fs.tStamp ==>
      cache.value.quarantine == Total(fs.quarantine) && cache.value.trash == Total(fs.trash)
  }

  /** All sizes and reservations of the rows, and all bytes in quarantine and in trash. */
  ghost function Charge(db: Db, fs: Fs): nat {
    AllSizes(db.obs) + AllReservations(db.obs) + Total(fs.quarantine) + Total(fs.trash)
  }

  // --------------------------------------------------- the reads of one test

  /** Every read of a test that nobody disturbs is the sum it stands for. */
  ghost predicate ReadExactly(db: Db, fs: Fs, c: Ctl) {
    && CacheTells(fs, c.cache)
    && match c.admission
       case NotAdmitting => true
       case ReadUsed(used) => used == AllSizes(db.obs)
       case ReadLogical(logical) => logical == AllSizes(db.obs) + AllReservations(db.obs)
       case ReadQStamp(logical, q) => logical == AllSizes(db.obs) + AllReservations(db.obs) && q == fs.qStamp
       case ReadStamps(logical, q, t) =>
         logical == AllSizes(db.obs) + AllReservations(db.obs) && q == fs.qStamp && t == fs.tStamp
       case WalkedQuarantine(logical, q, t, bytes) =>
         && logical == AllSizes(db.obs) + AllReservations(db.obs) && q == fs.qStamp && t == fs.tStamp
         && bytes == Total(fs.quarantine)
       case Charged(total) => total == Charge(db, fs)
  }

  predicate OnlyReads(steps: seq<Step>) {
    forall s :: s in steps ==> s.Admit? && !s.a.AdmitInsert?
  }

  lemma ReadIsExact(cfg: Config, w: World, a: AdmitStep)
    requires Accounts(cfg, w.db) && AdmitEnabled(cfg, w, a) && !a.AdmitInsert? && ReadExactly(w.db, w.fs, w.ctl)
    ensures var w' := AdmitNext(cfg, w, a);
      w'.db == w.db && w'.fs == w.fs && ReadExactly(w'.db, w'.fs, w'.ctl)
  {
    NothingUncharged(cfg, w.db);
  }

  /**
   * A test whose reads nobody disturbs, with no cache or a true one, decides on exactly the sizes and
   * reservations of all rows and the bytes in quarantine and in trash.
   */
  lemma {:induction false} TestIsExact(cfg: Config, w: World, steps: seq<Step>, w': World)
    requires Accounts(cfg, w.db) && ReadExactly(w.db, w.fs, w.ctl) && Path(cfg, w, steps, w') && OnlyReads(steps)
    ensures w'.db == w.db && w'.fs == w.fs && ReadExactly(w'.db, w'.fs, w'.ctl)
    ensures w'.ctl.admission.Charged? ==>
      w'.ctl.admission.total ==
        AllSizes(w.db.obs) + AllReservations(w.db.obs) + Total(w.fs.quarantine) + Total(w.fs.trash)
    decreases |steps|
  {
    if steps != [] {
      assert steps[0] in steps;
      ReadIsExact(cfg, w, steps[0].a);
      TestIsExact(cfg, Next(cfg, w, steps[0]), steps[1..], w');
    }
  }

  /** An undisturbed tick admits an observation exactly when all that is charged leaves room for its reservation. */
  lemma AdmitsWhatFits(cfg: Config, db: Db, fs: Fs, cache: Option<CacheEntry>)
    requires Accounts(cfg, db) && CacheTells(fs, cache)
    ensures Admits(cfg, db, fs, cache) <==>
      && NoneActive(db) && HasCapacity(cfg, db)
      && AllSizes(db.obs) + AllReservations(db.obs) + Total(fs.quarantine) + Total(fs.trash) + cfg.reservation <= cfg.threshold
  {
    NothingUncharged(cfg, db);
  }

  // ------------------------------------------------------ rows and files agree

  /** What a row counts as used is what there is of its measurement set. */
  predicate TruthfulRow(db: Db, fs: Fs, oid: nat)
    requires oid < |db.obs|
  {
    db.obs[oid].state in {Stored, Deleting, Inconsistent} ==> db.obs[oid].size == Bytes(fs.live, oid) + Bytes(fs.trash, oid)
  }

  predicate TruthfulRows(db: Db, fs: Fs) {
    forall oid :: 0 <= oid < |db.obs| ==> TruthfulRow(db, fs, oid)
  }

  lemma {:induction false} SizesAddUp(db: Db, fs: Fs, n: nat)
    requires n <= |db.obs|
    requires forall o :: 0 <= o < n ==> db.obs[o].size == Bytes(fs.live, o) + Bytes(fs.trash, o) && db.obs[o].reserved == 0
    ensures AllSizes(db.obs[..n]) == SumTo(fs.live, n) + SumTo(fs.trash, n) && AllReservations(db.obs[..n]) == 0
  {
    if n > 0 {
      SizesAddUp(db, fs, n - 1);
      assert db.obs[..n][..n - 1] == db.obs[..n - 1];
    }
  }

  /** With nothing under way and nothing left behind, the rows account for exactly the raw bytes, live or in trash. */
  lemma RowsTellRaw(cfg: Config, db: Db, fs: Fs)
    requires Accounts(cfg, db) && FilesOk(db, fs) && NoneActive(db) && FailedAreGone(db, fs) && TruthfulRows(db, fs)
    ensures AllSizes(db.obs) == Raw(fs) && AllReservations(db.obs) == 0
  {
    var n := |db.obs|;
    forall o: nat | o < n
      ensures db.obs[o].size == Bytes(fs.live, o) + Bytes(fs.trash, o) && db.obs[o].reserved == 0
    {
      assert AccountsFor(cfg, db, o) && FileOk(db, fs, o) && !UnderWay(db, o) && TruthfulRow(db, fs, o);
    }
    SizesAddUp(db, fs, n);
    assert db.obs[..n] == db.obs;
    forall k: nat | k in fs.live || k in fs.trash ensures k < n {
      assert FileOk(db, fs, k);
    }
    TotalIsSumTo(fs.live, n);
    TotalIsSumTo(fs.trash, n);
  }

  /** Each raw byte is charged once; bytes in trash are charged by their row and by the walk. */
  lemma ChargeIsPhysical(cfg: Config, db: Db, fs: Fs)
    requires Accounts(cfg, db) && FilesOk(db, fs) && NoneActive(db) && FailedAreGone(db, fs) && TruthfulRows(db, fs)
    ensures AllSizes(db.obs) + AllReservations(db.obs) + Total(fs.quarantine) + Total(fs.trash) == Physical(fs) + Total(fs.trash)
  {
    RowsTellRaw(cfg, db, fs);
  }

  // ------------------------------------------- stored sizes, over whole runs

  /** A STORED row has the size of its measurement set. */
  ghost predicate StoredMeasured(db: Db, fs: Fs) {
    forall oid: nat :: IsObs(db, oid, Stored) ==> db.obs[oid].size == Bytes(fs.live, oid)
  }

  /** Nobody touches the measurement set of a STORED row. */
  lemma StoredUntouched(cfg: Config, w: World, s: Step, oid: nat)
    requires Inv(cfg, w) && Enabled(cfg, w, s) && IsObs(w.db, oid, Stored)
    ensures Bytes(Next(cfg, w, s).fs.live, oid) == Bytes(w.fs.live, oid)
  {
    match s {
      case Recovery(r) =>
      case Tick(t) => StoredUntouchedTick(cfg, w, t, oid);
      case Admit(a) =>
      case Work(k) => StoredUntouchedWork(cfg, w, k, oid);
      case Operate(c) =>
      case Delete(pid, left) =>
        assert ProcOk(w.db, w.fs, w.procs[pid]);
        StoredUntouchedDelete(w, pid, left, oid);
      case _ =>
    }
  }

  lemma StoredUntouchedTick(cfg: Config, w: World, t: TickStep, oid: nat)
    requires TickEnabled(w, t) && IsObs(w.db, oid, Stored)
    ensures Bytes(TickNext(cfg, w, t).fs.live, oid) == Bytes(w.fs.live, oid)
  {
  }

  lemma StoredUntouchedWork(cfg: Config, w: World, k: WorkStep, oid: nat)
    requires TasksOk(w.db, w.ctl) && WorkEnabled(cfg, w, k) && IsObs(w.db, oid, Stored)
    ensures Bytes(WorkNext(w, k).fs.live, oid) == Bytes(w.fs.live, oid)
  {
    assert oid in w.ctl.obsTasks ==> ObsTaskOk(w.db, w.ctl, oid);
  }

  lemma StoredUntouchedDelete(w: World, pid: nat, left: Option<nat>, oid: nat)
    requires pid in w.procs && ProcOk(w.db, w.fs, w.procs[pid]) && IsObs(w.db, oid, Stored)
    ensures Bytes(DeleteNext(w, pid, left).fs.live, oid) == Bytes(w.fs.live, oid)
  {
  }

  lemma MeasuredWhenStored(cfg: Config, w: World, s: Step, oid: nat)
    requires Inv(cfg, w) && Enabled(cfg, w, s) && IsObs(Next(cfg, w, s).db, oid, Stored) && !IsObs(w.db, oid, Stored)
    ensures s == Work(ObsStore(oid)) && oid < |w.db.obs|
    ensures Next(cfg, w, s).db.obs[oid].size == Bytes(w.fs.live, oid) && Next(cfg, w, s).fs == w.fs
  {
    ObsFrame(w.db, StepTx(cfg, w, s), oid);
    match s {
      case Recovery(r) =>
      case Tick(t) =>
      case Admit(a) =>
      case Work(k) =>
      case Operate(c) =>
      case Delete(pid, left) =>
      case _ =>
    }
  }

  lemma StoredRowStays(cfg: Config, w: World, s: Step, oid: nat)
    requires Enabled(cfg, w, s) && IsObs(Next(cfg, w, s).db, oid, Stored) && IsObs(w.db, oid, Stored)
    ensures Next(cfg, w, s).db.obs[oid] == w.db.obs[oid]
  {
    ObsFrame(w.db, StepTx(cfg, w, s), oid);
  }

  lemma MeasuredNext(cfg: Config, w: World, s: Step)
    requires Inv(cfg, w) && Enabled(cfg, w, s) && StoredMeasured(w.db, w.fs)
    ensures StoredMeasured(Next(cfg, w, s).db, Next(cfg, w, s).fs)
  {
    var w' := Next(cfg, w, s);
    forall oid: nat | IsObs(w'.db, oid, Stored) ensures w'.db.obs[oid].size == Bytes(w'.fs.live, oid) {
      if IsObs(w.db, oid, Stored) {
        StoredRowStays(cfg, w, s, oid);
        StoredUntouched(cfg, w, s, oid);
      } else {
        MeasuredWhenStored(cfg, w, s, oid);
      }
    }
  }

  /** In every world of every run, the size in a STORED row is the size of its measurement set. */
  lemma {:induction false} StoredIsMeasured(cfg: Config, ws: seq<World>, steps: seq<Step>, i: nat)
    requires ValidConfig(cfg) && IsRunOf(cfg, ws, steps) && i < |ws|
    ensures StoredMeasured(ws[i].db, ws[i].fs)
  {
    if i > 0 {
      assert StoredMeasured(ws[i - 1].db, ws[i - 1].fs) by {
        StoredIsMeasured(cfg, ws, steps, i - 1);
      }
      assert Inv(cfg, ws[i - 1]) by {
        RunKeeps(cfg, ws, steps, i - 1);
      }
      MeasuredNext(cfg, ws[i - 1], steps[i - 1]);
    }
  }

  // -------------------------------------------------------- the test decides

  predicate NoneDeleting(db: Db) {
    forall o :: 0 <= o < |db.obs| ==> !db.obs[o].state.Deleting?
  }

  lemma RestTellsTruth(cfg: Config, w: World)
    requires Inv(cfg, w) && StoredMeasured(w.db, w.fs) && NoneDeleting(w.db)
    ensures TruthfulRows(w.db, w.fs) && w.fs.trash == map[]
  {
    forall oid: nat | oid < |w.db.obs| ensures TruthfulRow(w.db, w.fs, oid) {
      assert FileOk(w.db, w.fs, oid) && AccountsFor(cfg, w.db, oid);
      assert IsObs(w.db, oid, Stored) ==> w.db.obs[oid].size == Bytes(w.fs.live, oid);
    }
    forall oid: nat ensures oid !in w.fs.trash {
      assert FileOk(w.db, w.fs, oid);
    }
  }

  lemma NothingLeftIsGone(w: World)
    requires !Leak.SomethingLeft(w)
    ensures FailedAreGone(w.db, w.fs)
  {
    forall oid | 0 <= oid < |w.db.obs| && w.db.obs[oid].state.ObserveFailed? ensures oid !in w.fs.live {
      assert !Leak.Leaked(w.db, w.fs, oid);
    }
  }

  /** The program, at rest between two observations: what is charged is exactly what is on disk. */
  lemma ChargedAtRest(cfg: Config, ws: seq<World>, steps: seq<Step>, i: nat)
    requires ValidConfig(cfg) && IsRunOf(cfg, ws, steps) && i < |ws|
    requires NoneActive(ws[i].db) && NoneDeleting(ws[i].db) && !Leak.LeftBehindBy(ws, steps, i)
    ensures Charge(ws[i].db, ws[i].fs) == Physical(ws[i].fs)
  {
    var w := ws[i];
    assert Inv(cfg, w) by {
      RunKeeps(cfg, ws, steps, i);
    }
    assert StoredMeasured(w.db, w.fs) by {
      StoredIsMeasured(cfg, ws, steps, i);
    }
    assert !Leak.SomethingLeft(w) by {
      Leak.LeakIffSwallowed(cfg, ws, steps, i);
    }
    AtRest(cfg, w);
  }

  lemma AtRest(cfg: Config, w: World)
    requires Inv(cfg, w) && StoredMeasured(w.db, w.fs) && !Leak.SomethingLeft(w) && NoneActive(w.db) && NoneDeleting(w.db)
    ensures Charge(w.db, w.fs) == Physical(w.fs)
  {
    RestTellsTruth(cfg, w);
    NothingLeftIsGone(w);
    ChargeIsPhysical(cfg, w.db, w.fs);
  }

  /** Steps of the admission alone lead to a world with one observation more. */
  ghost predicate Plans(cfg: Config, w: World) {
    exists steps, w' :: Path(cfg, w, steps, w') && OnlyAdmits(steps) && |w'.db.obs| > |w.db.obs|
  }

  lemma {:induction false} NeverPlanned(cfg: Config, w: World, steps: seq<Step>, w': World)
    requires Accounts(cfg, w.db) && ReadExactly(w.db, w.fs, w.ctl) && Path(cfg, w, steps, w') && OnlyAdmits(steps)
    requires Charge(w.db, w.fs) + cfg.reservation > cfg.threshold
    ensures w'.db == w.db
    decreases |steps|
  {
    if steps != [] {
      assert steps[0] in steps;
      ReadIsExact(cfg, w, steps[0].a);
      NeverPlanned(cfg, Next(cfg, w, steps[0]), steps[1..], w');
    }
  }

  lemma PlansWhatFits(cfg: Config, w: World)
    requires Accounts(cfg, w.db) && CacheTells(w.fs, w.ctl.cache)
    requires Ticking(w.ctl) && NoneActive(w.db) && HasCapacity(cfg, w.db)
    requires Charge(w.db, w.fs) + cfg.reservation <= cfg.threshold
    ensures Plans(cfg, w)
  {
    var steps := TestsAdmission(cfg, w);
    var w1 := Measured(w, LogicalBytes(w.db));
    NothingUncharged(cfg, w.db);
    assert AdmitEnabled(cfg, w1, AdmitInsert);
    var w2 := AdmitNext(cfg, w1, AdmitInsert);
    Then(cfg, w, steps, w1, Admit(AdmitInsert), w2);
    assert OnlyAdmits(steps + [Admit(AdmitInsert)]);
  }

  /**
   * In every run, when nothing is planned, under way or being deleted, the campaign has room, nothing was
   * left behind and a cache that would answer is true: a test that nobody disturbs plans the next
   * observation if and only if it fits, with its whole reservation, beside the raw bytes on disk.
   */
  lemma PlansExactlyWhenFits(cfg: Config, ws: seq<World>, steps: seq<Step>, i: nat)
    requires ValidConfig(cfg) && IsRunOf(cfg, ws, steps) && i < |ws|
    requires Ticking(ws[i].ctl) && NoneActive(ws[i].db) && HasCapacity(cfg, ws[i].db) && NoneDeleting(ws[i].db)
    requires !Leak.LeftBehindBy(ws, steps, i) && CacheTells(ws[i].fs, ws[i].ctl.cache)
    ensures Plans(cfg, ws[i]) <==> Physical(ws[i].fs) + cfg.reservation <= cfg.threshold
  {
    var w := ws[i];
    assert Accounts(cfg, w.db) by {
      RunKeeps(cfg, ws, steps, i);
    }
    assert Charge(w.db, w.fs) == Physical(w.fs) by {
      ChargedAtRest(cfg, ws, steps, i);
    }
    FitsOrNever(cfg, w);
  }

  lemma FitsOrNever(cfg: Config, w: World)
    requires Accounts(cfg, w.db) && CacheTells(w.fs, w.ctl.cache)
    requires Ticking(w.ctl) && NoneActive(w.db) && HasCapacity(cfg, w.db)
    ensures Plans(cfg, w) <==> Charge(w.db, w.fs) + cfg.reservation <= cfg.threshold
  {
    if Charge(w.db, w.fs) + cfg.reservation <= cfg.threshold {
      PlansWhatFits(cfg, w);
    } else if Plans(cfg, w) {
      var steps, w' :| Path(cfg, w, steps, w') && OnlyAdmits(steps) && |w'.db.obs| > |w.db.obs|;
      NeverPlanned(cfg, w, steps, w');
    }
  }

  /** The cache tells the truth in every run in which entries of quarantine and trash change as a whole. */
  lemma CacheAlwaysTells(cfg: Config, ws: seq<World>, steps: seq<Step>, i: nat)
    requires IsRunOf(cfg, ws, steps) && i < |ws| && forall j :: 0 <= j < |steps| ==> Cache.WholeEntries(steps[j])
    ensures CacheTells(ws[i].fs, ws[i].ctl.cache)
  {
    if Cache.HitsNow(ws[i]) {
      Cache.HitAgreesWithWalk(cfg, ws, steps, i);
    }
  }
}
