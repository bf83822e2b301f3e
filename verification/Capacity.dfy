/**
 * Exactly which configurations keep raw bytes within the threshold when failed moves to quarantine
 * may be swallowed: those whose whole campaign fits at once. It can be read off the settings.
 */
module Capacity {
  import opened Models
  import opened StoreSpec
  import opened Totals
  import opened Protocol
  import opened Safety
  import opened SafetySteps
  import opened Disk
  import opened Guarantees
  import opened Scenarios
  import Progress

  /** Every observation the campaign will ever make could fill its reservation and stay. */
  predicate WholeCampaignFits(cfg: Config) {
    cfg.reservation == 0 || (cfg.maxObs.Some? && cfg.maxObs.value * cfg.reservation <= cfg.threshold)
  }

  /** No run whose writers keep to their reservation ever has more raw bytes than the threshold. */
  ghost predicate AlwaysWithinThreshold(cfg: Config) {
    forall ws: seq<World>, steps: seq<Step>, i: nat :: IsRunOf(cfg, ws, steps) && AllFit(cfg, steps) && i < |ws| ==>
      Physical(ws[i].fs) <= cfg.threshold
  }

  // ------------------------------------------------- one reservation per observation

  /** All raw bytes, and what the one possible writer may add, within a cap. */
  ghost predicate Capped(cfg: Config, w: World, cap: nat) {
    && Physical(w.fs) <= cap
    && (forall oid: nat :: MayWrite(w.db, w.ctl, oid) ==>
          Bytes(w.fs.live, oid) <= cfg.reservation && Physical(w.fs) + cfg.reservation <= cap + Bytes(w.fs.live, oid))
  }

  /** A step that neither writes a measurement set nor plans an observation. */
  predicate Calm(s: Step) {
    match s
    case Work(k) => !k.ObsWrite?
    case Admit(a) => !a.AdmitInsert?
    case Stray(_, _) => false
    case _ => true
  }

  lemma PhysicalStays(fs: Fs, fs': Fs)
    requires fs'.live == fs.live && fs'.trash == fs.trash && fs'.quarantine == fs.quarantine
    ensures Physical(fs') == Physical(fs)
  {
  }

  lemma NothingGrowsTick(cfg: Config, w: World, t: TickStep)
    requires TickEnabled(w, t)
    ensures Physical(TickNext(cfg, w, t).fs) <= Physical(w.fs)
  {
    match t {
      case SweepQuarantine(oid, name) => QuarantineConserves(w.fs, oid, name);
      case _ => PhysicalStays(w.fs, TickNext(cfg, w, t).fs);
    }
  }

  lemma NothingGrowsRecovery(w: World, r: RecoveryStep)
    requires RecoveryEnabled(w, r)
    ensures Physical(RecoveryNext(w, r).fs) <= Physical(w.fs)
  {
    match r {
      case RecQuarantine(oid, name) => QuarantineConserves(w.fs, oid, name);
      case RecOrphan(oid, name) => QuarantineConserves(w.fs, oid, name);
      case _ => PhysicalStays(w.fs, RecoveryNext(w, r).fs);
    }
  }

  lemma NothingGrowsWork(cfg: Config, w: World, k: WorkStep)
    requires WorkEnabled(cfg, w, k) && !k.ObsWrite?
    ensures Physical(WorkNext(w, k).fs) <= Physical(w.fs)
  {
    match k {
      case ObsQuarantine(oid, name) => QuarantineConserves(w.fs, oid, name);
      case _ => PhysicalStays(w.fs, WorkNext(w, k).fs);
    }
  }

  lemma NothingGrowsOperator(w: World, c: OperatorStep)
    requires OperatorEnabled(w, c)
    ensures Physical(OperatorNext(w, c).fs) <= Physical(w.fs)
  {
    match c {
      case OpPurge(name, left) => TrimShrinks(w.fs.quarantine, name, left);
      case _ => PhysicalStays(w.fs, OperatorNext(w, c).fs);
    }
  }

  lemma NothingGrows(cfg: Config, w: World, s: Step)
    requires Enabled(cfg, w, s) && Calm(s)
    ensures Physical(Next(cfg, w, s).fs) <= Physical(w.fs)
  {
    match s {
      case Recovery(r) => NothingGrowsRecovery(w, r);
      case Tick(t) => NothingGrowsTick(cfg, w, t);
      case Work(k) => NothingGrowsWork(cfg, w, k);
      case Operate(c) => NothingGrowsOperator(w, c);
      case Delete(pid, left) => DeleteShrinks(w.fs, w.procs[pid], left);
      case Stray(_, _) =>
      case _ => PhysicalStays(w.fs, Next(cfg, w, s).fs);
    }
  }

  lemma NobodyNewPlanned(cfg: Config, w: World, s: Step, oid: nat)
    requires Enabled(cfg, w, s) && Calm(s) && IsObs(Next(cfg, w, s).db, oid, Planned)
    ensures IsObs(w.db, oid, Planned)
  {
    if s.Admit? {
    } else {
      ObsFrame(w.db, StepTx(cfg, w, s), oid);
    }
  }

  lemma NobodyNewWrites(cfg: Config, w: World, s: Step, oid: nat)
    requires Inv(cfg, w) && Enabled(cfg, w, s) && Calm(s) && MayWrite(Next(cfg, w, s).db, Next(cfg, w, s).ctl, oid)
    ensures MayWrite(w.db, w.ctl, oid)
  {
    if IsObs(Next(cfg, w, s).db, oid, Planned) {
      NobodyNewPlanned(cfg, w, s, oid);
    } else {
      match s {
        case Tick(t) => NobodyNewWritesTick(cfg, w, t, oid);
        case Work(k) => NobodyNewWritesWork(cfg, w, k, oid);
        case _ =>
      }
    }
  }

  lemma NobodyNewWritesTick(cfg: Config, w: World, t: TickStep, oid: nat)
    requires TickEnabled(w, t)
    ensures ObsTaskIs(TickNext(cfg, w, t).ctl, oid, Writing) ==> ObsTaskIs(w.ctl, oid, Writing)
    ensures TickNext(cfg, w, t).ctl.strays == w.ctl.strays
  {
  }

  lemma NobodyNewWritesWork(cfg: Config, w: World, k: WorkStep, oid: nat)
    requires TasksOk(w.db, w.ctl) && WorkEnabled(cfg, w, k)
    ensures ObsTaskIs(WorkNext(w, k).ctl, oid, Writing) ==> MayWrite(w.db, w.ctl, oid)
    ensures WorkNext(w, k).ctl.strays == w.ctl.strays
  {
    if k.ObsBegin? {
      assert ObsTaskOk(w.db, w.ctl, k.oid);
    }
  }

  /** While somebody may write a measurement set nobody else moves or removes it. */
  lemma WritersFileStays(cfg: Config, w: World, s: Step, oid: nat)
    requires Inv(cfg, w) && Enabled(cfg, w, s) && Calm(s) && MayWrite(w.db, w.ctl, oid)
    ensures Bytes(Next(cfg, w, s).fs.live, oid) == Bytes(w.fs.live, oid)
  {
    WriterIsActive(w.db, w.ctl, oid);
    match s {
      case Recovery(r) =>
      case Tick(t) => WritersFileStaysTick(cfg, w, t, oid);
      case Work(k) => WritersFileStaysWork(cfg, w, k, oid);
      case Operate(c) =>
      case Delete(pid, left) =>
        assert ProcOk(w.db, w.fs, w.procs[pid]);
        WritersFileStaysDelete(w.db, w.fs, w.procs[pid], left, oid);
      case _ =>
    }
  }

  lemma WritersFileStaysTick(cfg: Config, w: World, t: TickStep, oid: nat)
    requires CtlOk(cfg, w.ctl) && TickEnabled(w, t) && MayWrite(w.db, w.ctl, oid)
    ensures Bytes(TickNext(cfg, w, t).fs.live, oid) == Bytes(w.fs.live, oid)
  {
  }

  lemma WritersFileStaysWork(cfg: Config, w: World, k: WorkStep, oid: nat)
    requires TasksOk(w.db, w.ctl) && CtlOk(cfg, w.ctl) && WorkEnabled(cfg, w, k) && !k.ObsWrite? && MayWrite(w.db, w.ctl, oid)
    ensures Bytes(WorkNext(w, k).fs.live, oid) == Bytes(w.fs.live, oid)
  {
    if k.ObsQuarantine? {
      assert ObsTaskOk(w.db, w.ctl, k.oid);
    }
  }

  lemma WritersFileStaysDelete(db: Db, fs: Fs, p: Proc, left: Option<nat>, oid: nat)
    requires ProcOk(db, fs, p) && UnderWay(db, oid)
    ensures Bytes(DeleteFs(fs, p, left).live, oid) == Bytes(fs.live, oid)
  {
  }

  lemma CappedCalm(cfg: Config, w: World, s: Step, cap: nat)
    requires Inv(cfg, w) && Capped(cfg, w, cap) && Enabled(cfg, w, s) && Calm(s)
    ensures Capped(cfg, Next(cfg, w, s), cap)
  {
    var w' := Next(cfg, w, s);
    NothingGrows(cfg, w, s);
    forall oid: nat | MayWrite(w'.db, w'.ctl, oid)
      ensures MayWrite(w.db, w.ctl, oid) && Bytes(w'.fs.live, oid) == Bytes(w.fs.live, oid)
    {
      NobodyNewWrites(cfg, w, s, oid);
      WritersFileStays(cfg, w, s, oid);
    }
  }

  lemma CappedWrite(cfg: Config, w: World, oid: nat, bytes: nat, cap: nat)
    requires Inv(cfg, w) && Capped(cfg, w, cap) && MayWrite(w.db, w.ctl, oid) && bytes <= cfg.reservation
    ensures Capped(cfg, w.(fs := w.fs.(live := w.fs.live[oid := bytes])), cap)
  {
    TotalUpdate(w.fs.live, oid, bytes);
    WriterIsActive(w.db, w.ctl, oid);
    forall o: nat | MayWrite(w.db, w.ctl, o) ensures o == oid {
      WriterIsActive(w.db, w.ctl, o);
    }
  }

  lemma CappedInsert(cfg: Config, w: World, cap: nat)
    requires Inv(cfg, w) && Capped(cfg, w, cap) && AdmitEnabled(cfg, w, AdmitInsert)
    ensures Capped(cfg, AdmitNext(cfg, w, AdmitInsert), cap + cfg.reservation)
  {
    var w', n := AdmitNext(cfg, w, AdmitInsert), |w.db.obs|;
    assert FileOk(w.db, w.fs, n);
    forall o: nat | MayWrite(w'.db, w'.ctl, o) ensures o == n {
      if MayWrite(w.db, w.ctl, o) {
        WriterIsActive(w.db, w.ctl, o);
      }
    }
  }

  lemma CappedStep(cfg: Config, w: World, s: Step, cap: nat)
    requires Inv(cfg, w) && Capped(cfg, w, cap) && Enabled(cfg, w, s) && WritesFit(cfg, s)
    ensures Capped(cfg, Next(cfg, w, s), cap + if s == Admit(AdmitInsert) then cfg.reservation else 0)
  {
    if Calm(s) {
      CappedCalm(cfg, w, s, cap);
    } else {
      match s {
        case Work(k) => CappedWrite(cfg, w, k.oid, k.bytes, cap);
        case Stray(oid, bytes) => CappedWrite(cfg, w, oid, bytes, cap);
        case Admit(a) => CappedInsert(cfg, w, cap);
      }
    }
  }

  lemma ObsCount(cfg: Config, w: World, s: Step)
    requires Enabled(cfg, w, s)
    ensures |Next(cfg, w, s).db.obs| == |w.db.obs| + if s == Admit(AdmitInsert) then 1 else 0
  {
    if s != Admit(AdmitInsert) {
      Progress.NoNewObs(cfg, w, s);
    }
  }

  lemma OneMoreReservation(n: nat, r: nat)
    ensures (n + 1) * r == n * r + r
  {
  }

  function Cap(cfg: Config, db: Db): nat {
    |db.obs| * cfg.reservation
  }

  lemma CapStep(cfg: Config, w: World, s: Step)
    requires Enabled(cfg, w, s)
    ensures Cap(cfg, Next(cfg, w, s).db) == Cap(cfg, w.db) + if s == Admit(AdmitInsert) then cfg.reservation else 0
  {
    ObsCount(cfg, w, s);
    OneMoreReservation(|w.db.obs|, cfg.reservation);
  }

  lemma CappedNext(cfg: Config, ws: seq<World>, steps: seq<Step>, j: nat)
    requires ValidConfig(cfg) && IsRunOf(cfg, ws, steps) && j < |steps| && WritesFit(cfg, steps[j])
    requires Capped(cfg, ws[j], Cap(cfg, ws[j].db))
    ensures Capped(cfg, ws[j + 1], Cap(cfg, ws[j + 1].db))
  {
    var w, s := ws[j], steps[j];
    assert Inv(cfg, w) by {
      RunKeeps(cfg, ws, steps, j);
    }
    CappedStep(cfg, w, s, Cap(cfg, w.db));
    CapStep(cfg, w, s);
  }

  lemma CappedInit(cfg: Config)
    ensures Capped(cfg, InitialWorld, 0)
  {
    var fs := InitialWorld.fs;
    assert Total(fs.live) == 0 && Total(fs.trash) == 0 && Total(fs.quarantine) == 0;
  }

  /** Whatever is swallowed, an observation never holds more than its reservation, wherever its bytes are. */
  lemma {:induction false} OneReservationEach(cfg: Config, ws: seq<World>, steps: seq<Step>, i: nat)
    requires ValidConfig(cfg) && IsRunOf(cfg, ws, steps) && AllFit(cfg, steps) && i < |ws|
    ensures Capped(cfg, ws[i], Cap(cfg, ws[i].db))
  {
    if i == 0 {
      CappedInit(cfg);
    } else {
      assert Capped(cfg, ws[i - 1], Cap(cfg, ws[i - 1].db)) by {
        OneReservationEach(cfg, ws, steps, i - 1);
      }
      assert WritesFit(cfg, steps[i - 1]);
      CappedNext(cfg, ws, steps, i - 1);
    }
  }

  lemma CampaignFits(cfg: Config, observations: nat)
    requires WholeCampaignFits(cfg) && (cfg.maxObs.Some? ==> observations <= cfg.maxObs.value)
    ensures observations * cfg.reservation <= cfg.threshold
  {
    if cfg.reservation == 0 {
      assert observations * 0 == 0;
    } else {
      Progress.MoreRuns(cfg.reservation, observations, cfg.maxObs.value);
    }
  }

  lemma FittingCampaignsAreSafe(cfg: Config, ws: seq<World>, steps: seq<Step>, i: nat)
    requires ValidConfig(cfg) && WholeCampaignFits(cfg)
    requires IsRunOf(cfg, ws, steps) && AllFit(cfg, steps) && i < |ws|
    ensures Physical(ws[i].fs) <= cfg.threshold
  {
    assert Physical(ws[i].fs) <= Cap(cfg, ws[i].db) by {
      OneReservationEach(cfg, ws, steps, i);
    }
    assert cfg.maxObs.Some? ==> |ws[i].db.obs| <= cfg.maxObs.value by {
      Progress.CampaignLimit(cfg, ws, steps, i);
    }
    CampaignFits(cfg, |ws[i].db.obs|);
  }

  // --------------------------------------------------- the threshold is passed

  /** Only failed observations, each with its whole reservation still on disk. */
  ghost predicate AllLeftBehind(cfg: Config, w: World, k: nat) {
    && |w.db.obs| == k && w.db.runs == [] && w.procs == map[]
    && (forall o :: 0 <= o < k ==> w.db.obs[o] == ObsRow(ObserveFailed, 0, 0))
    && (forall o :: o in w.fs.live ==> o < k)
    && w.fs.trash == map[] && w.fs.quarantine == map[]
    && Total(w.fs.live) == k * cfg.reservation
  }

  lemma {:induction false} FailedChargeNothing(obs: seq<ObsRow>)
    requires forall o :: 0 <= o < |obs| ==> obs[o] == ObsRow(ObserveFailed, 0, 0)
    ensures UsedBytes(obs) == 0 && ReservedBytes(obs) == 0
  {
    if obs != [] {
      FailedChargeNothing(obs[..|obs| - 1]);
    }
  }

  lemma LeftBehindHasRoom(cfg: Config, w: World, k: nat)
    requires ValidConfig(cfg) && AllLeftBehind(cfg, w, k) && (cfg.maxObs.Some? ==> k < cfg.maxObs.value)
    ensures NothingUnderWay(w.db) && HasRoom(cfg, w)
  {
    FailedChargeNothing(w.db.obs);
    forall o: nat | o < |w.db.obs| ensures !UnderWay(w.db, o) {
      assert w.db.obs[o] == ObsRow(ObserveFailed, 0, 0);
    }
    assert Total(w.fs.quarantine) == 0 && Total(w.fs.trash) == 0;
  }

  lemma OneMoreLeft(cfg: Config, w: World, w': World, k: nat)
    requires AllLeftBehind(cfg, w, k) && w'.procs == map[] && w'.db.runs == []
    requires w'.db.obs == w.db.obs + [ObsRow(ObserveFailed, 0, 0)]
    requires w'.fs == w.fs.(live := w.fs.live[k := cfg.reservation])
    ensures AllLeftBehind(cfg, w', k + 1)
  {
    TotalUpdate(w.fs.live, k, cfg.reservation);
    OneMoreReservation(k, cfg.reservation);
  }

  /** A restart, an observation that fills its reservation, and a failure whose error is swallowed, k times over. */
  lemma {:induction false} LeavesBehindAgain(cfg: Config, k: nat) returns (w: World)
    requires ValidConfig(cfg) && (cfg.maxObs.Some? ==> k <= cfg.maxObs.value)
    ensures Fits(cfg, InitialWorld, w) && AllLeftBehind(cfg, w, k)
    decreases k
  {
    if k == 0 {
      w := InitialWorld;
      FitsSelf(cfg, w);
      assert Total(w.fs.live) == 0 == k * cfg.reservation;
    } else {
      var w0 := LeavesBehindAgain(cfg, k - 1);
      LeftBehindHasRoom(cfg, w0, k - 1);
      var w1 := OneObservation(cfg, w0);
      FitsFurther(cfg, InitialWorld, w0, w1);
      w := FailsSwallowing(cfg, w1, k - 1);
      FitsFurther(cfg, InitialWorld, w1, w);
      OneMoreLeft(cfg, w0, w, k - 1);
    }
  }

  /** How many reservations it takes to pass the threshold. */
  lemma EnoughRounds(cfg: Config) returns (k: nat)
    requires !WholeCampaignFits(cfg)
    ensures k * cfg.reservation > cfg.threshold && (cfg.maxObs.Some? ==> k <= cfg.maxObs.value)
  {
    var r, t := cfg.reservation, cfg.threshold;
    if cfg.maxObs.Some? {
      k := cfg.maxObs.value;
    } else {
      k := t + 1;
      Progress.MoreRuns(t + 1, 1, r);
    }
  }

  /**
   * Otherwise the threshold is passed: by a run in which every writer keeps to its reservation and each
   * of enough observations fails, the error of moving its data away swallowed, a restart between them.
   */
  lemma ThresholdPassed(cfg: Config) returns (ws: seq<World>, steps: seq<Step>)
    requires ValidConfig(cfg) && !WholeCampaignFits(cfg)
    ensures IsRunOf(cfg, ws, steps) && AllFit(cfg, steps) && Physical(ws[|steps|].fs) > cfg.threshold
  {
    var k := EnoughRounds(cfg);
    var w := LeavesBehindAgain(cfg, k);
    ws, steps := FitsIsRun(cfg, w);
  }

  /**
   * Exactly which configurations are safe although failed moves may be swallowed: those in which no
   * observation takes space, or the campaign is limited and fits as a whole.
   */
  lemma SafeExactlyWhenCampaignFits(cfg: Config)
    requires ValidConfig(cfg)
    ensures AlwaysWithinThreshold(cfg) <==> WholeCampaignFits(cfg)
  {
    if WholeCampaignFits(cfg) {
      forall ws: seq<World>, steps: seq<Step>, i: nat | IsRunOf(cfg, ws, steps) && AllFit(cfg, steps) && i < |ws|
        ensures Physical(ws[i].fs) <= cfg.threshold
      {
        FittingCampaignsAreSafe(cfg, ws, steps, i);
      }
    } else {
      var ws, steps := ThresholdPassed(cfg);
      assert ws[|steps|] in ws;
    }
  }
}
