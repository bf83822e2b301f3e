/**
 * When superseded products are retained. The documentation says always; the program does so exactly
 * for the runs that its retry loop has not listed before they were superseded.
 */
module Superseded {
  import opened Models
  import Naming
  import History
  import opened StoreSpec
  import opened Protocol
  import opened Safety
  import opened SafetySteps
  import opened Guarantees
  import opened Scenarios

  /** Whatever happens from here on, the products of the run stay as they are. */
  ghost predicate KeptForEver(cfg: Config, w: World, rid: nat) {
    forall w' :: Reaches(cfg, w, w') ==> SameProducts(w, w', rid)
  }

  lemma {:induction false} DeliveredPath(cfg: Config, w: World, steps: seq<Step>, w': World, rid: nat)
    requires ValidConfig(cfg) && Inv(cfg, w) && Delivered(w, rid) && Path(cfg, w, steps, w')
    ensures SameProducts(w, w', rid)
    decreases |steps|
  {
    if steps != [] {
      var w1 := Next(cfg, w, steps[0]);
      StepKeeps(cfg, w, steps[0]);
      DeliveredStays(cfg, w, steps[0], rid);
      DeliveredUntouched(cfg, w, steps[0], rid);
      DeliveredPath(cfg, w1, steps[1..], w', rid);
    }
  }

  lemma DeliveredForEver(cfg: Config, w: World, rid: nat)
    requires ValidConfig(cfg) && Inv(cfg, w) && Delivered(w, rid)
    ensures KeptForEver(cfg, w, rid)
  {
    forall w' | Reaches(cfg, w, w') ensures SameProducts(w, w', rid) {
      var steps :| Path(cfg, w, steps, w');
      DeliveredPath(cfg, w, steps, w', rid);
    }
  }

  lemma ListedIsCleaned(cfg: Config, w: World, rid: nat)
    requires rid in w.ctl.retry && rid < |w.db.runs| && w.db.runs[rid].dir in w.fs.products
    ensures !KeptForEver(cfg, w, rid)
  {
    var w' := TickNext(cfg, w, RetryClean(rid, None));
    ReachesSelf(cfg, w);
    assert Enabled(cfg, w, Tick(RetryClean(rid, None)));
    ReachesNext(cfg, w, w, Tick(RetryClean(rid, None)));
    assert Reaches(cfg, w, w') && !SameProducts(w, w', rid);
  }

  /**
   * In every world of every run: the products of a superseded run are kept in every continuation if and
   * only if the retry loop does not have the run on its list.
   */
  lemma SupersededKeptExactlyWhen(cfg: Config, ws: seq<World>, steps: seq<Step>, i: nat, rid: nat)
    requires ValidConfig(cfg) && IsRunOf(cfg, ws, steps) && i < |ws|
    requires IsRun(ws[i].db, rid, RunState.Superseded) && ws[i].db.runs[rid].dir in ws[i].fs.products
    ensures KeptForEver(cfg, ws[i], rid) <==> rid !in ws[i].ctl.retry
  {
    RunKeeps(cfg, ws, steps, i);
    if rid in ws[i].ctl.retry {
      ListedIsCleaned(cfg, ws[i], rid);
    } else {
      DeliveredForEver(cfg, ws[i], rid);
    }
  }

  // ------------------------------------------------------ what an operator can check

  lemma ReprocessRow(db: Db, rid: nat, dir: string)
    requires Apply(db, Reprocess(rid, dir)).Ok?
    ensures IsRun(After(db, Reprocess(rid, dir)), rid, RunState.Superseded)
    ensures After(db, Reprocess(rid, dir)).runs[rid].dir == db.runs[rid].dir
  {
  }

  /** The world after an operator's reprocess decision. */
  function Reprocessed(w: World, rid: nat): World
    requires rid < |w.db.runs|
  {
    OperatorNext(w, OpReprocess(rid))
  }

  /** The same, seen before the command: reprocessing a run keeps its products exactly when it is not listed then. */
  lemma ReprocessingKeepsExactlyWhen(cfg: Config, ws: seq<World>, steps: seq<Step>, i: nat, rid: nat)
    requires ValidConfig(cfg) && IsRunOf(cfg, ws, steps) && i < |ws| && rid < |ws[i].db.runs|
    requires IsRun(Reprocessed(ws[i], rid).db, rid, RunState.Superseded) && !IsRun(ws[i].db, rid, RunState.Superseded)
    requires ws[i].db.runs[rid].dir in ws[i].fs.products
    ensures KeptForEver(cfg, Reprocessed(ws[i], rid), rid) <==> rid !in ws[i].ctl.retry
  {
    var w := ws[i];
    var w' := Reprocessed(w, rid);
    assert Inv(cfg, w') by {
      RunKeeps(cfg, ws, steps, i);
      OperatorKeeps(cfg, w, OpReprocess(rid));
    }
    ReprocessRow(w.db, rid, Naming.RunDir(w.db.runs[rid].oid, w.db.runs[rid].attempt + 1));
    if rid in w.ctl.retry {
      ListedIsCleaned(cfg, w', rid);
    } else {
      DeliveredForEver(cfg, w', rid);
    }
  }

  /** What the list for people shows is never on the list of the retry loop. */
  lemma ShownIsNotListed(cfg: Config, ws: seq<World>, steps: seq<Step>, i: nat, rid: nat)
    requires ValidConfig(cfg) && IsRunOf(cfg, ws, steps) && i < |ws|
    requires rid < |ws[i].db.runs| && HumanActionable(ws[i].db.runs[rid])
    ensures rid !in ws[i].ctl.retry
  {
    RunKeeps(cfg, ws, steps, i);
    assert rid in ws[i].ctl.retry ==> RetryEntryOk(cfg, ws[i].db, rid);
  }

  /** So an operator who reprocesses only what the list shows never loses products. */
  lemma ReprocessingShownRunsKeeps(cfg: Config, ws: seq<World>, steps: seq<Step>, i: nat, rid: nat)
    requires ValidConfig(cfg) && IsRunOf(cfg, ws, steps) && i < |ws|
    requires rid < |ws[i].db.runs| && HumanActionable(ws[i].db.runs[rid])
    requires IsRun(Reprocessed(ws[i], rid).db, rid, RunState.Superseded) && ws[i].db.runs[rid].dir in ws[i].fs.products
    ensures KeptForEver(cfg, Reprocessed(ws[i], rid), rid)
  {
    ShownIsNotListed(cfg, ws, steps, i, rid);
    ReprocessingKeepsExactlyWhen(cfg, ws, steps, i, rid);
  }

  // --------------------------------------------------------------- the loss happens

  lemma FailureIsListed(cfg: Config, db: Db)
    requires cfg.attempts >= 2 && |db.runs| == 1 && IsRun(db, 0, Running) && Executions(db.log, 0) == 1
    requires IsObs(db, db.runs[0].oid, Stored) && !db.runs[0].exhausted
    ensures After(db, MoveRun(0, Running, Failed)) == MovedRun(db, 0, Failed)
    ensures 0 in RetryList(cfg, MovedRun(db, 0, Failed))
  {
    History.ExecutionsSnoc(db.log, RunMoved(0, Running, Failed), 0);
    assert Retryable(MovedRun(db, 0, Failed), cfg.attempts, 0);
  }

  /** Run 0 fails and the retry loop lists it. */
  lemma ListsFailure(cfg: Config, w: World) returns (w': World)
    requires cfg.attempts >= 2 && FirstRunUnderWay(cfg, w)
    ensures Fits(cfg, w, w') && w'.fs == w.fs && w'.procs == w.procs
    ensures w'.db == MovedRun(w.db, 0, Failed) && 0 in w'.ctl.retry
  {
    FailureIsListed(cfg, w.db);
    var w1 := World(MovedRun(w.db, 0, Failed), w.fs, w.ctl.(runTasks := w.ctl.runTasks - {0}), w.procs);
    FitsSelf(cfg, w);
    FitsNext(cfg, w, w, Work(RunFail(0)), w1);
    w' := w1.(ctl := w1.ctl.(retry := RetryList(cfg, w1.db)));
    FitsNext(cfg, w, w1, Tick(ListRetryable), w');
  }

  /** The operator supersedes the listed failure, and the loop goes on with it. */
  lemma LosesProducts(cfg: Config, w: World) returns (w1: World, w2: World)
    requires 0 in w.ctl.retry && w.procs == map[] && |w.db.obs| == 1 && w.db.obs[0].state.Stored?
    requires |w.db.runs| == 1 && w.db.runs[0] == RunRow(0, 1, Failed, false, FirstDir) && FirstDir in w.fs.products
    ensures Enabled(cfg, w, Operate(OpReprocess(0))) && w1 == Next(cfg, w, Operate(OpReprocess(0)))
    ensures Enabled(cfg, w1, Tick(RetryClean(0, None))) && w2 == Next(cfg, w1, Tick(RetryClean(0, None)))
    ensures LostBy(w, w1, w2)
  {
    w1 := Reprocessed(w, 0);
    SupersedesFirst(w.db);
    w2 := TickNext(cfg, w1, RetryClean(0, None));
  }

  /** A failed run with products is superseded, and then the products are gone. */
  predicate LostBy(w: World, w1: World, w2: World) {
    && IsRun(w.db, 0, Failed) && IsRun(w1.db, 0, RunState.Superseded)
    && w1.db.runs[0].dir in w1.fs.products && w1.db.runs[0].dir !in w2.fs.products
  }

  /**
   * The loss is real: whenever a failure may be retried at all, a run from the initial world ends with
   * an operator superseding a failed run that has products, and with the retry loop removing them.
   */
  lemma SupersededProductsLost(cfg: Config) returns (ws: seq<World>, steps: seq<Step>)
    requires ValidConfig(cfg) && cfg.attempts >= 2 && (cfg.maxObs.Some? ==> cfg.maxObs.value >= 1)
    ensures IsRunOf(cfg, ws, steps) && |steps| >= 2
    ensures steps[|steps| - 2] == Operate(OpReprocess(0)) && steps[|steps| - 1] == Tick(RetryClean(0, None))
    ensures LostBy(ws[|steps| - 2], ws[|steps| - 1], ws[|steps|])
  {
    var w0 := FirstRunReached(cfg);
    var w := ListsFailure(cfg, w0);
    FitsFurther(cfg, InitialWorld, w0, w);
    ws, steps := FitsIsRun(cfg, w);
    var w1, w2 := LosesProducts(cfg, w);
    RunLonger(cfg, ws, steps, Operate(OpReprocess(0)), w1);
    ws, steps := ws + [w1], steps + [Operate(OpReprocess(0))];
    RunLonger(cfg, ws, steps, Tick(RetryClean(0, None)), w2);
    ws, steps := ws + [w2], steps + [Tick(RetryClean(0, None))];
  }

  lemma SupersedesFirst(db: Db)
    requires |db.obs| == 1 && db.obs[0].state.Stored? && |db.runs| == 1 && IsRun(db, 0, Failed)
    requires db.runs[0].oid == 0 && db.runs[0].attempt == 1
    ensures IsRun(After(db, Reprocess(0, Naming.RunDir(0, 2))), 0, RunState.Superseded)
    ensures After(db, Reprocess(0, Naming.RunDir(0, 2))).runs[0].dir == db.runs[0].dir
  {
  }
}
