/** Runs that exist: stretches from given worlds, put together into runs from the initial one. */
module Scenarios {
  import opened Models
  import opened Naming
  import opened StoreSpec
  import opened History
  import opened Totals
  import opened Protocol
  import opened Admitting
  import opened Disk

  // ------------------------------------------------- stretches with fitting writes

  /** A stretch of a run in which every writer keeps to its reservation leads from one world to the other. */
  ghost predicate Fits(cfg: Config, w: World, w': World) {
    exists steps :: Path(cfg, w, steps, w') && AllFit(cfg, steps)
  }

  lemma FitsSelf(cfg: Config, w: World)
    ensures Fits(cfg, w, w)
  {
    assert Path(cfg, w, [], w) && AllFit(cfg, []);
  }

  lemma FitsNext(cfg: Config, w: World, w1: World, s: Step, w2: World)
    requires Fits(cfg, w, w1) && Enabled(cfg, w1, s) && WritesFit(cfg, s) && w2 == Next(cfg, w1, s)
    ensures Fits(cfg, w, w2)
  {
    var steps :| Path(cfg, w, steps, w1) && AllFit(cfg, steps);
    PathLast(cfg, w, steps, w1, s);
    assert AllFit(cfg, steps + [s]);
  }

  lemma FitsFurther(cfg: Config, w: World, w1: World, w2: World)
    requires Fits(cfg, w, w1) && Fits(cfg, w1, w2)
    ensures Fits(cfg, w, w2)
  {
    var steps :| Path(cfg, w, steps, w1) && AllFit(cfg, steps);
    var more :| Path(cfg, w1, more, w2) && AllFit(cfg, more);
    PathJoin(cfg, w, steps, w1, more, w2);
    assert AllFit(cfg, steps + more);
  }

  /** A stretch from the initial world is a run. */
  lemma FitsIsRun(cfg: Config, w: World) returns (ws: seq<World>, steps: seq<Step>)
    requires Fits(cfg, InitialWorld, w)
    ensures IsRunOf(cfg, ws, steps) && AllFit(cfg, steps) && ws[|steps|] == w
  {
    steps :| Path(cfg, InitialWorld, steps, w) && AllFit(cfg, steps);
    ws := PathIsRun(cfg, InitialWorld, steps, w);
  }

  // ----------------------------------------------------------- one observation

  const FreshCtl := DownCtl.(phase := Serving, swept := true)

  predicate NothingUnderWay(db: Db) {
    NoneActive(db) && forall r :: 0 <= r < |db.runs| ==> !db.runs[r].state.Running?
  }

  lemma NothingIsOrphaned(db: Db, c: Ctl)
    requires NothingUnderWay(db)
    ensures NoOrphans(db, c)
  {
    forall o: nat | o < |db.obs| ensures !db.obs[o].state.Observing? {
      assert !UnderWay(db, o);
    }
  }

  /** A restart of a controller that had nothing under way. */
  lemma Restart(cfg: Config, w: World)
    requires w.procs == map[] && NothingUnderWay(w.db)
    ensures Fits(cfg, w, w.(ctl := FreshCtl))
  {
    var w1 := w.(ctl := Abandoned(w.ctl));
    assert Orphaned(w.procs) == w.procs;
    var w2 := w.(ctl := DownCtl.(phase := Recovering));
    var w3 := w.(ctl := DownCtl.(phase := Serving));
    NothingIsOrphaned(w.db, w3.ctl);
    FitsSelf(cfg, w);
    FitsNext(cfg, w, w, Crash, w1);
    FitsNext(cfg, w, w1, Start, w2);
    FitsNext(cfg, w, w2, Recovery(RecDone), w3);
    FitsNext(cfg, w, w3, Tick(SweepDone), w.(ctl := FreshCtl));
  }

  /** The whole sum of the admission test fits, and the campaign has room. */
  ghost predicate HasRoom(cfg: Config, w: World) {
    && HasCapacity(cfg, w.db)
    && LogicalBytes(w.db) + Total(w.fs.quarantine) + Total(w.fs.trash) + cfg.reservation <= cfg.threshold
  }

  lemma ReadingFits(cfg: Config, w: World, w': World, steps: seq<Step>)
    requires Path(cfg, w, steps, w') && OnlyAdmits(steps)
    ensures Fits(cfg, w, w')
  {
    assert AllFit(cfg, steps);
  }

  /** Admission: the next observation is planned. */
  lemma AdmitsNext(cfg: Config, w: World) returns (w': World)
    requires w.ctl == FreshCtl && NoneActive(w.db) && HasRoom(cfg, w)
    ensures Fits(cfg, w, w')
    ensures w'.db == CreatedObs(w.db, cfg.reservation) && w'.fs == w.fs && w'.procs == w.procs
    ensures Ticking(w'.ctl) && w'.ctl.obsTasks == map[] && w'.ctl.runTasks == map[]
  {
    var steps := TestsAdmission(cfg, w);
    var w1 := Measured(w, LogicalBytes(w.db));
    ReadingFits(cfg, w, w1, steps);
    w' := w1.(db := CreatedObs(w.db, cfg.reservation), ctl := w1.ctl.(admission := NotAdmitting));
    FitsNext(cfg, w, w1, Admit(AdmitInsert), w');
  }

  /** Its runner writes some bytes. */
  lemma ObservesNext(cfg: Config, w: World, oid: nat, bytes: nat) returns (w': World)
    requires Ticking(w.ctl) && w.ctl.obsTasks == map[] && IsObs(w.db, oid, Planned) && bytes <= cfg.reservation
    ensures Fits(cfg, w, w')
    ensures w'.db == MovedObs(w.db, oid, Observing, None, None) && w'.procs == w.procs
    ensures w'.fs == w.fs.(live := w.fs.live[oid := bytes])
    ensures Ticking(w'.ctl) && w'.ctl.obsTasks == map[oid := Writing] && w'.ctl.runTasks == w.ctl.runTasks
  {
    var w1 := TickNext(cfg, w, ResumePlanned(oid));
    FitsSelf(cfg, w);
    FitsNext(cfg, w, w, Tick(ResumePlanned(oid)), w1);
    var w2 := WorkNext(w1, ObsBegin(oid));
    FitsNext(cfg, w, w1, Work(ObsBegin(oid)), w2);
    w' := WorkNext(w2, ObsWrite(oid, bytes));
    FitsNext(cfg, w, w2, Work(ObsWrite(oid, bytes)), w');
  }

  /** A start, an admission and an observation that fills its reservation. */
  lemma OneObservation(cfg: Config, w: World) returns (w': World)
    requires w.procs == map[] && NothingUnderWay(w.db) && HasRoom(cfg, w)
    ensures Fits(cfg, w, w')
    ensures var n := |w.db.obs|;
      && w'.db.obs == w.db.obs + [ObsRow(Observing, 0, cfg.reservation)] && w'.db.runs == w.db.runs && w'.procs == map[]
      && w'.db.log == w.db.log + [ObsCreated(n), ObsMoved(n, Planned, Observing)]
      && w'.fs == w.fs.(live := w.fs.live[n := cfg.reservation])
      && Ticking(w'.ctl) && w'.ctl.obsTasks == map[n := Writing] && w'.ctl.runTasks == map[]
  {
    Restart(cfg, w);
    var w1 := w.(ctl := FreshCtl);
    var w2 := AdmitsNext(cfg, w1);
    FitsFurther(cfg, w, w1, w2);
    w' := ObservesNext(cfg, w2, |w.db.obs|, cfg.reservation);
    FitsFurther(cfg, w, w2, w');
  }

  /** Its runner fails, and the error of moving the measurement set away is swallowed. */
  lemma FailsSwallowing(cfg: Config, w: World, oid: nat) returns (w': World)
    requires Idle(w.ctl) && ObsTaskIs(w.ctl, oid, Writing) && IsObs(w.db, oid, Observing)
    ensures Fits(cfg, w, w')
    ensures w'.db == MovedObs(w.db, oid, ObserveFailed, None, Some(0)) && w'.fs == w.fs && w'.procs == w.procs
  {
    var w1 := WorkNext(w, ObsEnd(oid, false));
    FitsSelf(cfg, w);
    FitsNext(cfg, w, w, Work(ObsEnd(oid, false)), w1);
    w' := WorkNext(w1, ObsFail(oid, true));
    FitsNext(cfg, w, w1, Work(ObsFail(oid, true)), w');
  }

  // ------------------------------------------------------ one processing run of it

  /** Its runner succeeds and the row is stored. */
  lemma Stores(cfg: Config, w: World, oid: nat) returns (w': World)
    requires Ticking(w.ctl) && w.ctl.obsTasks == map[oid := Writing] && IsObs(w.db, oid, Observing)
    requires Bytes(w.fs.live, oid) <= cfg.reservation
    ensures Fits(cfg, w, w')
    ensures w'.db == MovedObs(w.db, oid, Stored, Some(Bytes(w.fs.live, oid)), Some(0)) && w'.fs == w.fs && w'.procs == w.procs
    ensures Ticking(w'.ctl) && w'.ctl.obsTasks == map[] && w'.ctl.runTasks == w.ctl.runTasks
  {
    var w1 := WorkNext(w, ObsEnd(oid, true));
    FitsSelf(cfg, w);
    FitsNext(cfg, w, w, Work(ObsEnd(oid, true)), w1);
    w' := WorkNext(w1, ObsStore(oid));
    FitsNext(cfg, w, w1, Work(ObsStore(oid)), w');
  }

  const FirstDir := RunDir(0, 1)

  lemma CreatesFirstRun(db: Db)
    requires IsObs(db, 0, Stored) && db.runs == []
    ensures NeedsRun(db, 0) && After(db, CreateRun(0, FirstDir)) == CreatedRun(db, 0, 1, FirstDir)
  {
  }

  /** The first run of the first observation is created and gets its worker. */
  lemma QueuesFirstRun(cfg: Config, w: World) returns (w': World)
    requires Ticking(w.ctl) && w.ctl.runTasks == map[] && IsObs(w.db, 0, Stored) && w.db.runs == []
    ensures Fits(cfg, w, w') && w'.fs == w.fs && w'.procs == w.procs
    ensures w'.db == CreatedRun(w.db, 0, 1, FirstDir)
    ensures Ticking(w'.ctl) && w'.ctl.obsTasks == w.ctl.obsTasks && w'.ctl.runTasks == map[0 := Waiting]
  {
    CreatesFirstRun(w.db);
    var w1 := w.(db := CreatedRun(w.db, 0, 1, FirstDir));
    FitsSelf(cfg, w);
    FitsNext(cfg, w, w, Tick(FirstRun(0)), w1);
    w' := w1.(ctl := w.ctl.(runTasks := map[0 := Waiting]));
    FitsNext(cfg, w, w1, Tick(TrackRun(0)), w');
  }

  lemma ClaimsFirstRun(w: World)
    requires w.ctl.runTasks == map[0 := Waiting] && IsRun(w.db, 0, Queued)
    ensures WorkNext(w, RunClaim(0)) ==
      World(MovedRun(w.db, 0, Running), w.fs, w.ctl.(runTasks := map[0 := Holding]), w.procs)
  {
  }

  /** The run is claimed and its runner writes products. */
  lemma ExecutesFirstRun(cfg: Config, w: World, content: nat) returns (w': World)
    requires ValidConfig(cfg) && Ticking(w.ctl) && w.ctl.runTasks == map[0 := Waiting] && IsRun(w.db, 0, Queued)
    ensures Fits(cfg, w, w') && w'.procs == w.procs
    ensures w'.db == MovedRun(w.db, 0, Running)
    ensures w'.fs == w.fs.(products := w.fs.products[w.db.runs[0].dir := content])
    ensures Ticking(w'.ctl) && w'.ctl.obsTasks == w.ctl.obsTasks && w'.ctl.runTasks == map[0 := Holding]
  {
    assert Holders(w.ctl) == {};
    var w1 := World(MovedRun(w.db, 0, Running), w.fs, w.ctl.(runTasks := map[0 := Holding]), w.procs);
    FitsSelf(cfg, w);
    ClaimsFirstRun(w);
    FitsNext(cfg, w, w, Work(RunClaim(0)), w1);
    w' := w1.(fs := w.fs.(products := w.fs.products[w.db.runs[0].dir := content]));
    FitsNext(cfg, w, w1, Work(RunWrite(0, content)), w');
  }

  /** The first observation is stored and its first run has written products and is still running. */
  predicate FirstRunUnderWay(cfg: Config, w: World) {
    && w.db.obs == [ObsRow(Stored, cfg.reservation, 0)]
    && w.db.runs == [RunRow(0, 1, Running, false, FirstDir)]
    && w.fs.live == map[0 := cfg.reservation] && w.fs.trash == map[] && w.procs == map[]
    && w.fs.products == map[FirstDir := 1]
    && Ticking(w.ctl) && w.ctl.obsTasks == map[] && w.ctl.runTasks == map[0 := Holding]
    && Executions(w.db.log, 0) == 1
  }

  lemma FirstRunReached(cfg: Config) returns (w: World)
    requires ValidConfig(cfg) && (cfg.maxObs.Some? ==> cfg.maxObs.value >= 1)
    ensures Fits(cfg, InitialWorld, w) && FirstRunUnderWay(cfg, w)
  {
    assert Total(InitialWorld.fs.quarantine) == 0 && Total(InitialWorld.fs.trash) == 0;
    var w1 := OneObservation(cfg, InitialWorld);
    var w2 := Stores(cfg, w1, 0);
    FitsFurther(cfg, InitialWorld, w1, w2);
    var w3 := QueuesFirstRun(cfg, w2);
    FitsFurther(cfg, InitialWorld, w2, w3);
    w := ExecutesFirstRun(cfg, w3, 1);
    FitsFurther(cfg, InitialWorld, w3, w);
    OneExecution(w.db.log);
  }

  lemma OneExecution(log: seq<Event>)
    requires log == [ObsCreated(0), ObsMoved(0, Planned, Observing), ObsMoved(0, Observing, Stored), RunCreated(0)]
                    + [RunMoved(0, Queued, Running)]
    ensures Executions(log, 0) == 1
  {
    var before := [ObsCreated(0), ObsMoved(0, Planned, Observing), ObsMoved(0, Observing, Stored), RunCreated(0)];
    QuietAppend([], before, 0);
    assert [] + before == before;
    ExecutionsSnoc(before, RunMoved(0, Queued, Running), 0);
  }
}
