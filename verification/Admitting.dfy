/** The reads of one undisturbed admission test, as a path of the transition system. */
module Admitting {
  import opened Models
  import opened StoreSpec
  import opened Totals
  import opened Protocol
  import opened Safety
  import Disk

  lemma Then(cfg: Config, w0: World, steps: seq<Step>, w: World, s: Step, w': World)
    requires Path(cfg, w0, steps, w) && Enabled(cfg, w, s) && w' == Next(cfg, w, s)
    ensures Path(cfg, w0, steps + [s], w')
  {
    PathLast(cfg, w0, steps, w, s);
  }

  function Reading(w: World, a: Admission): World {
    w.(ctl := w.ctl.(admission := a))
  }

  predicate OnlyAdmits(steps: seq<Step>) {
    forall s :: s in steps ==> s.Admit?
  }

  function LogicalBytes(db: Db): nat {
    UsedBytes(db.obs) + ReservedBytes(db.obs)
  }

  lemma ReadsStamps(cfg: Config, w: World, logical: nat) returns (steps: seq<Step>, w': World)
    requires w.ctl.admission == ReadLogical(logical)
    ensures Path(cfg, w, steps, w') && OnlyAdmits(steps)
    ensures w' == Reading(w, ReadStamps(logical, w.fs.qStamp, w.fs.tStamp))
  {
    var w1 := Reading(w, ReadQStamp(logical, w.fs.qStamp));
    w' := Reading(w, ReadStamps(logical, w.fs.qStamp, w.fs.tStamp));
    assert Path(cfg, w, [], w);
    Then(cfg, w, [], w, Admit(AdmitQStamp), w1);
    Then(cfg, w, [] + [Admit(AdmitQStamp)], w1, Admit(AdmitTStamp), w');
    steps := [] + [Admit(AdmitQStamp)] + [Admit(AdmitTStamp)];
  }

  /** The two sums over rows, then the stamps of the two directories, one after the other. */
  lemma ReadsLogical(cfg: Config, w: World) returns (steps: seq<Step>, w': World)
    requires Ticking(w.ctl) && NoneActive(w.db) && HasCapacity(cfg, w.db)
    ensures Path(cfg, w, steps, w') && OnlyAdmits(steps)
    ensures w' == Reading(w, ReadStamps(LogicalBytes(w.db), w.fs.qStamp, w.fs.tStamp))
  {
    var w1 := Reading(w, ReadUsed(UsedBytes(w.db.obs)));
    var w2 := Reading(w, ReadLogical(LogicalBytes(w.db)));
    assert Path(cfg, w, [], w);
    Then(cfg, w, [], w, Admit(AdmitUsed), w1);
    steps := [] + [Admit(AdmitUsed)];
    Then(cfg, w, steps, w1, Admit(AdmitReserved), w2);
    steps := steps + [Admit(AdmitReserved)];
    var more;
    more, w' := ReadsStamps(cfg, w2, LogicalBytes(w.db));
    PathJoin(cfg, w, steps, w2, more, w');
    steps := steps + more;
  }

  /** The cache entry that answers an undisturbed test: the present one on a hit, a fresh walk otherwise. */
  ghost function Answer(fs: Fs, cache: Option<CacheEntry>): CacheEntry {
    if cache.Some? && cache.value.qStamp == fs.qStamp && cache.value.tStamp == fs.tStamp then cache.value
    else CacheEntry(fs.qStamp, fs.tStamp, Total(fs.quarantine), Total(fs.trash))
  }

  ghost function Measured(w: World, logical: nat): World {
    var e := Answer(w.fs, w.ctl.cache);
    w.(ctl := w.ctl.(admission := Charged(logical + e.quarantine + e.trash), cache := Some(e)))
  }

  lemma Measures(cfg: Config, w: World, logical: nat) returns (steps: seq<Step>)
    requires w.ctl.admission == ReadStamps(logical, w.fs.qStamp, w.fs.tStamp)
    ensures Path(cfg, w, steps, Measured(w, logical)) && OnlyAdmits(steps)
  {
    assert Path(cfg, w, [], w);
    if CacheHit(w.ctl) {
      Then(cfg, w, [], w, Admit(AdmitCached), Measured(w, logical));
      steps := [] + [Admit(AdmitCached)];
    } else {
      var w1 := Reading(w, WalkedQuarantine(logical, w.fs.qStamp, w.fs.tStamp, Total(w.fs.quarantine)));
      Then(cfg, w, [], w, Admit(AdmitWalkQuarantine), w1);
      Then(cfg, w, [] + [Admit(AdmitWalkQuarantine)], w1, Admit(AdmitWalkTrash), Measured(w, logical));
      steps := [] + [Admit(AdmitWalkQuarantine)] + [Admit(AdmitWalkTrash)];
    }
  }

  /** The whole test up to its decision. */
  lemma TestsAdmission(cfg: Config, w: World) returns (steps: seq<Step>)
    requires Ticking(w.ctl) && NoneActive(w.db) && HasCapacity(cfg, w.db)
    ensures Path(cfg, w, steps, Measured(w, LogicalBytes(w.db))) && OnlyAdmits(steps)
  {
    var w1, more;
    steps, w1 := ReadsLogical(cfg, w);
    more := Measures(cfg, w1, LogicalBytes(w.db));
    PathJoin(cfg, w, steps, w1, more, Measured(w1, LogicalBytes(w.db)));
    steps := steps + more;
  }

  /** An undisturbed tick admits an observation exactly when this holds. */
  ghost predicate Admits(cfg: Config, db: Db, fs: Fs, cache: Option<CacheEntry>) {
    && NoneActive(db) && HasCapacity(cfg, db)
    && var e := Answer(fs, cache);
       LogicalBytes(db) + e.quarantine + e.trash + cfg.reservation <= cfg.threshold
  }

  /** What is admitted has room: all raw bytes and the whole new reservation fit, also after earlier overruns. */
  lemma AdmissionLeavesRoom(cfg: Config, w: World)
    requires ValidConfig(cfg) && Inv(cfg, w) && Disk.ReadsOk(w) && Ticking(w.ctl) && Admits(cfg, w.db, w.fs, w.ctl.cache)
    ensures Disk.Physical(w.fs) + cfg.reservation <= cfg.threshold
  {
    var m := Measured(w, LogicalBytes(w.db));
    assert Disk.DiskOk(cfg, None, m) by {
      var steps := TestsAdmission(cfg, w);
      Disk.DiskPath(cfg, None, w, steps, m);
    }
    ChargeCovers(m);
  }

  lemma ChargeCovers(w: World)
    requires Disk.ReadsOk(w) && w.ctl.admission.Charged?
    ensures Disk.Physical(w.fs) <= w.ctl.admission.total
  {
  }
}
