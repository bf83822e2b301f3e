/**
 * The error "both live and trash copies exist", over whole runs: raised exactly when another deletion
 * of the same observation renamed its data between the two tests of this one.
 */
module Race {
  import opened Models
  import opened StoreSpec
  import opened Protocol
  import opened Safety
  import opened SafetySteps
  import opened Guarantees
  import opened Scenarios
  import Disk

  /** The deletion `pid` of `oid` tests for the live copy. */
  predicate TestsLive(w: World, s: Step, pid: nat, oid: nat) {
    s.Delete? && s.pid == pid && pid in w.procs && w.procs[pid].oid == oid && w.procs[pid].pc.TestLive?
  }

  /** Some deletion of `oid` moves the live copy to trash. */
  predicate Renames(w: World, s: Step, oid: nat) {
    && s.Delete? && s.pid in w.procs && w.procs[s.pid].oid == oid && w.procs[s.pid].pc.Rename?
    && oid in w.fs.live && oid !in w.fs.trash
  }

  /** Some deletion of `oid` removes the last of the trash copy. */
  predicate Erases(w: World, s: Step, oid: nat) {
    && s.Delete? && s.pid in w.procs && w.procs[s.pid].oid == oid && w.procs[s.pid].pc.Remove?
    && oid in w.fs.trash && s.left.None?
  }

  predicate NotErased(ws: seq<World>, steps: seq<Step>, k: nat, j: nat, oid: nat)
    requires j <= |steps| < |ws|
  {
    forall m :: k < m < j ==> !Erases(ws[m], steps[m], oid)
  }

  /** After its own test for the live copy, another deletion renamed it, and that copy is still there. */
  predicate OvertakenAt(ws: seq<World>, steps: seq<Step>, i: nat, k: nat, j: nat, pid: nat, oid: nat)
    requires j <= |steps| < |ws|
  {
    && i < k < j
    && TestsLive(ws[i], steps[i], pid, oid)
    && Renames(ws[k], steps[k], oid) && steps[k].pid != pid
    && NotErased(ws, steps, k, j, oid)
  }

  ghost predicate Overtaken(ws: seq<World>, steps: seq<Step>, j: nat, pid: nat, oid: nat)
    requires j <= |steps| < |ws|
  {
    exists i: nat, k: nat :: OvertakenAt(ws, steps, i, k, j, pid, oid)
  }

  // ------------------------------------------------------------ what one step does

  /** A deletion is about to test for the trash copy because it just tested for the live one, or was so before. */
  lemma BeforeTestTrash(cfg: Config, w: World, s: Step, pid: nat)
    requires Enabled(cfg, w, s) && pid in Next(cfg, w, s).procs && Next(cfg, w, s).procs[pid].pc.TestTrash?
    ensures var p := Next(cfg, w, s).procs[pid];
      || (pid in w.procs && w.procs[pid] == p)
      || (TestsLive(w, s, pid, p.oid) && p.oid in w.fs.live && Next(cfg, w, s).fs == w.fs)
  {
    match s {
      case Recovery(r) =>
      case Tick(t) =>
      case Admit(a) =>
      case Work(k) =>
      case Operate(c) =>
      case Delete(q, left) => AdvancesToTestTrash(w, q, left);
      case _ =>
    }
  }

  lemma AdvancesToTestTrash(w: World, q: nat, left: Option<nat>)
    requires q in w.procs
    ensures var w' := DeleteNext(w, q, left);
      w'.procs[q].pc.TestTrash? && Alive(w.procs[q]) ==>
        w.procs[q].pc.TestLive? && w'.procs[q].oid == w.procs[q].oid && w.procs[q].oid in w.fs.live && w'.fs == w.fs
  {
  }

  lemma TrashChanges(cfg: Config, w: World, s: Step, oid: nat)
    requires Enabled(cfg, w, s)
    ensures oid !in w.fs.trash ==> (oid in Next(cfg, w, s).fs.trash <==> Renames(w, s, oid))
    ensures oid in w.fs.trash ==> (oid !in Next(cfg, w, s).fs.trash <==> Erases(w, s, oid))
  {
    match s {
      case Recovery(r) =>
      case Tick(t) => TrashStaysTick(cfg, w, t);
      case Admit(a) =>
      case Work(k) => TrashStaysWork(w, k);
      case Operate(c) =>
      case Delete(pid, left) =>
      case _ =>
    }
  }

  lemma TrashStaysTick(cfg: Config, w: World, t: TickStep)
    ensures TickNext(cfg, w, t).fs.trash == w.fs.trash
  {
  }

  lemma TrashStaysWork(w: World, k: WorkStep)
    ensures WorkNext(w, k).fs.trash == w.fs.trash
  {
  }

  // ------------------------------------------------------------------- over runs

  /** Since when a deletion has been about to test for the trash copy. */
  lemma {:induction false} TestedSince(cfg: Config, ws: seq<World>, steps: seq<Step>, j: nat, pid: nat) returns (i: nat)
    requires IsRunOf(cfg, ws, steps) && j < |ws| && pid in ws[j].procs && ws[j].procs[pid].pc.TestTrash?
    ensures i < j && TestsLive(ws[i], steps[i], pid, ws[j].procs[pid].oid)
    ensures ws[j].procs[pid].oid in ws[i].fs.live && ws[i + 1].fs == ws[i].fs
    ensures forall m :: i < m <= j ==> pid in ws[m].procs && ws[m].procs[pid] == ws[j].procs[pid]
  {
    BeforeTestTrash(cfg, ws[j - 1], steps[j - 1], pid);
    if pid in ws[j - 1].procs && ws[j - 1].procs[pid] == ws[j].procs[pid] {
      i := TestedSince(cfg, ws, steps, j - 1, pid);
    } else {
      i := j - 1;
    }
  }

  /** A trash copy that was not there and is there now was renamed in between, and not erased since. */
  lemma {:induction false} RenamedBetween(cfg: Config, ws: seq<World>, steps: seq<Step>, a: nat, j: nat, oid: nat) returns (k: nat)
    requires IsRunOf(cfg, ws, steps) && a <= j < |ws| && oid !in ws[a].fs.trash && oid in ws[j].fs.trash
    ensures a <= k < j && Renames(ws[k], steps[k], oid) && NotErased(ws, steps, k, j, oid)
    decreases j
  {
    k := j - 1;
    TrashChanges(cfg, ws[k], steps[k], oid);
    if oid in ws[k].fs.trash {
      assert !Erases(ws[k], steps[k], oid);
      k := RenamedBetween(cfg, ws, steps, a, k, oid);
    }
  }

  lemma {:induction false} StaysInTrash(cfg: Config, ws: seq<World>, steps: seq<Step>, k: nat, j: nat, oid: nat)
    requires IsRunOf(cfg, ws, steps) && k < j < |ws| && Renames(ws[k], steps[k], oid) && NotErased(ws, steps, k, j, oid)
    ensures oid in ws[j].fs.trash
    decreases j
  {
    TrashChanges(cfg, ws[j - 1], steps[j - 1], oid);
    if k < j - 1 {
      StaysInTrash(cfg, ws, steps, k, j - 1, oid);
    }
  }

  lemma OvertakenIfInTrash(cfg: Config, ws: seq<World>, steps: seq<Step>, j: nat, pid: nat)
    requires ValidConfig(cfg) && IsRunOf(cfg, ws, steps) && j < |steps|
    requires pid in ws[j].procs && ws[j].procs[pid].pc.TestTrash? && ws[j].procs[pid].oid in ws[j].fs.trash
    ensures Overtaken(ws, steps, j, pid, ws[j].procs[pid].oid)
  {
    var oid := ws[j].procs[pid].oid;
    var i := TestedSince(cfg, ws, steps, j, pid);
    assert oid !in ws[i].fs.trash by {
      RunKeeps(cfg, ws, steps, i);
      assert FileOk(ws[i].db, ws[i].fs, oid);
    }
    var k := RenamedBetween(cfg, ws, steps, i + 1, j, oid);
    assert ws[k].procs[pid] == ws[j].procs[pid];
    assert OvertakenAt(ws, steps, i, k, j, pid, oid);
  }

  /** The deletion `pid` tests for the trash copy. */
  predicate TestsTrash(w: World, s: Step, pid: nat) {
    s.Delete? && s.pid == pid && pid in w.procs && w.procs[pid].pc.TestTrash?
  }

  /** The action that raises the error, and no other does. */
  lemma RaisedByTestTrash(cfg: Config, w: World, s: Step, pid: nat)
    requires Enabled(cfg, w, s) && pid in Next(cfg, w, s).procs && Next(cfg, w, s).procs[pid].pc == Stopped(BothCopies)
    requires pid in w.procs ==> w.procs[pid].pc != Stopped(BothCopies)
    ensures TestsTrash(w, s, pid) && w.procs[pid].oid == Next(cfg, w, s).procs[pid].oid && w.procs[pid].oid in w.fs.trash
  {
    match s {
      case Recovery(r) =>
      case Tick(t) =>
      case Admit(a) =>
      case Work(k) =>
      case Operate(c) =>
      case Delete(q, left) =>
      case _ =>
    }
  }

  lemma RaisedWhenInTrash(cfg: Config, w: World, s: Step, pid: nat)
    requires Enabled(cfg, w, s) && TestsTrash(w, s, pid) && w.procs[pid].oid in w.fs.trash
    ensures pid in Next(cfg, w, s).procs && Next(cfg, w, s).procs[pid] == w.procs[pid].(pc := Stopped(BothCopies))
  {
  }

  /** Step `j` stops the deletion `pid` with the error. */
  ghost predicate Raised(ws: seq<World>, j: nat, pid: nat)
    requires j + 1 < |ws|
  {
    && pid in ws[j + 1].procs && ws[j + 1].procs[pid].pc == Stopped(BothCopies)
    && (pid in ws[j].procs ==> ws[j].procs[pid].pc != Stopped(BothCopies))
  }

  /**
   * In every run, a step raises the error if and only if it is the deletion's test for the trash copy and,
   * since its test for the live copy, another deletion of the same observation renamed it and the copy is
   * still there. At that moment the live copy is gone.
   */
  lemma BothCopiesExactlyByRace(cfg: Config, ws: seq<World>, steps: seq<Step>, j: nat, pid: nat)
    requires ValidConfig(cfg) && IsRunOf(cfg, ws, steps) && j < |steps|
    ensures Raised(ws, j, pid) <==> TestsTrash(ws[j], steps[j], pid) && Overtaken(ws, steps, j, pid, ws[j].procs[pid].oid)
    ensures Raised(ws, j, pid) ==> ws[j].procs[pid].oid !in ws[j].fs.live
  {
    if Raised(ws, j, pid) {
      RaisedByTestTrash(cfg, ws[j], steps[j], pid);
      OvertakenIfInTrash(cfg, ws, steps, j, pid);
      assert ws[j].procs[pid].oid !in ws[j].fs.live by {
        NeverBothCopies(cfg, ws, steps, j, ws[j].procs[pid].oid);
      }
    }
    if TestsTrash(ws[j], steps[j], pid) && Overtaken(ws, steps, j, pid, ws[j].procs[pid].oid) {
      var oid := ws[j].procs[pid].oid;
      var i: nat, k: nat :| OvertakenAt(ws, steps, i, k, j, pid, oid);
      StaysInTrash(cfg, ws, steps, k, j, oid);
      RaisedWhenInTrash(cfg, ws[j], steps[j], pid);
    }
  }

  // ---------------------------------------------------------------- the race happens

  /** The first run is accepted; before its deletion has done anything the controller restarts and resumes it. */
  lemma TwoDeletions(cfg: Config, w: World) returns (w': World)
    requires FirstRunUnderWay(cfg, w)
    ensures Fits(cfg, w, w') && AboutToTest(w', 0, 0) && AboutToTest(w', 1, 0)
    ensures 0 in w'.fs.live && 0 !in w'.fs.trash
  {
    var w1 := WorkNext(w, RunDone(0));
    FitsSelf(cfg, w);
    FitsNext(cfg, w, w, Work(RunDone(0)), w1);
    var w2 := AcceptedFirst(cfg, w1);
    FitsNext(cfg, w, w1, Operate(OpAccept(0, 0)), w2);
    var w3 := RestartedInDeletion(cfg, w2);
    FitsFurther(cfg, w, w2, w3);
    w' := BothBegun(cfg, w3);
    FitsFurther(cfg, w, w3, w');
  }

  lemma AcceptedFirst(cfg: Config, w: World) returns (w': World)
    requires |w.db.obs| == 1 && w.db.obs[0].state.Stored? && w.procs == map[]
    requires |w.db.runs| == 1 && w.db.runs[0].oid == 0 && w.db.runs[0].state.AwaitingQa?
    ensures Enabled(cfg, w, Operate(OpAccept(0, 0))) && w' == Next(cfg, w, Operate(OpAccept(0, 0)))
    ensures IsObs(w'.db, 0, Deleting) && w'.fs == w.fs && w'.procs == map[0 := Proc(false, false, 0, Deleting, Begin)]
  {
    w' := OperatorNext(w, OpAccept(0, 0));
  }

  lemma RestartedInDeletion(cfg: Config, w: World) returns (w': World)
    requires IsObs(w.db, 0, Deleting) && w.procs == map[0 := Proc(false, false, 0, Deleting, Begin)]
    ensures Fits(cfg, w, w') && w'.fs == w.fs && w'.db == w.db && w'.ctl == DownCtl.(phase := Recovering)
    ensures w'.procs == map[0 := Proc(false, false, 0, Deleting, Begin), 1 := Proc(false, true, 0, Deleting, Begin)]
  {
    var w1 := w.(ctl := Abandoned(w.ctl));
    assert Orphaned(w.procs) == w.procs;
    FitsSelf(cfg, w);
    FitsNext(cfg, w, w, Crash, w1);
    var w2 := w.(ctl := DownCtl.(phase := Recovering));
    FitsNext(cfg, w, w1, Start, w2);
    w' := RecoveryNext(w2, RecDelete(1, 0));
    FitsNext(cfg, w, w2, Recovery(RecDelete(1, 0)), w');
  }

  lemma BothBegun(cfg: Config, w: World) returns (w': World)
    requires IsObs(w.db, 0, Deleting) && w.ctl.phase.Recovering?
    requires w.procs == map[0 := Proc(false, false, 0, Deleting, Begin), 1 := Proc(false, true, 0, Deleting, Begin)]
    ensures Fits(cfg, w, w') && AboutToTest(w', 0, 0) && AboutToTest(w', 1, 0) && w'.fs == w.fs
  {
    var w1 := DeleteNext(w, 0, None);
    FitsSelf(cfg, w);
    FitsNext(cfg, w, w, Delete(0, None), w1);
    w' := DeleteNext(w1, 1, None);
    FitsNext(cfg, w, w1, Delete(1, None), w');
  }

  lemma RunWithEnd(cfg: Config, w: World, more: seq<Step>, w': World) returns (ws: seq<World>, steps: seq<Step>)
    requires Fits(cfg, InitialWorld, w) && Path(cfg, w, more, w')
    ensures IsRunOf(cfg, ws, steps) && ws[|steps|] == w'
  {
    var first :| Path(cfg, InitialWorld, first, w) && Disk.AllFit(cfg, first);
    PathJoin(cfg, InitialWorld, first, w, more, w');
    steps := first + more;
    ws := PathIsRun(cfg, InitialWorld, steps, w');
  }

  /** The error is real: a run from the initial world raises it in the deletion that recovery resumed. */
  lemma BothCopiesHappens(cfg: Config) returns (ws: seq<World>, steps: seq<Step>)
    requires ValidConfig(cfg) && (cfg.maxObs.Some? ==> cfg.maxObs.value >= 1)
    ensures IsRunOf(cfg, ws, steps)
    ensures 1 in ws[|steps|].procs && ws[|steps|].procs[1].pc == Stopped(BothCopies)
  {
    var w0 := FirstRunReached(cfg);
    var w1 := TwoDeletions(cfg, w0);
    FitsFurther(cfg, InitialWorld, w0, w1);
    var w2 := BothCopiesRace(cfg, w1, 1, 0, 0);
    ws, steps := RunWithEnd(cfg, w1, RaceSteps(1, 0), w2);
  }
}
