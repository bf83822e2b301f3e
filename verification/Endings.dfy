/** How deletions end, over whole runs: after at most seven whole actions, and never in success once the row is DELETED. */
module Endings {
  import opened Models
  import opened StoreSpec
  import opened Protocol
  import opened Safety
  import opened SafetySteps
  import opened Guarantees

  /** The step removes a part of the tree and leaves the rest. */
  predicate RemovesPart(w: World, pid: nat, left: Option<nat>) {
    && left.Some? && pid in w.procs
    && ((w.procs[pid].pc.Remove? && w.procs[pid].oid in w.fs.trash)
        || (w.procs[pid].pc.RemoveLive? && w.procs[pid].oid in w.fs.live))
  }

  /** The deletion `pid` makes a whole action: anything but the removal of a part. */
  predicate ActsWhole(w: World, s: Step, pid: nat) {
    s.Delete? && s.pid == pid && !RemovesPart(w, pid, s.left)
  }

  /** How many whole actions `pid` made in the first `n` steps. */
  function WholeActions(ws: seq<World>, steps: seq<Step>, pid: nat, n: nat): nat
    requires n <= |steps| < |ws|
  {
    if n == 0 then 0
    else WholeActions(ws, steps, pid, n - 1) + if ActsWhole(ws[n - 1], steps[n - 1], pid) then 1 else 0
  }

  /** Whole actions still ahead, at most; a deletion that has not been started has all seven. */
  function Ahead(w: World, pid: nat): nat {
    if pid in w.procs then StepsLeft(w.procs[pid].pc) else StepsLeft(Begin)
  }

  /** What a step leaves of a deletion that it does not advance: the same, or stopped for good; a new one begins. */
  lemma OthersLeave(cfg: Config, w: World, s: Step, pid: nat)
    requires Enabled(cfg, w, s) && !(s.Delete? && s.pid == pid)
    ensures var procs' := Next(cfg, w, s).procs;
      && (pid in w.procs ==> pid in procs' && (procs'[pid] == w.procs[pid] || procs'[pid] == Interrupt(w.procs[pid])))
      && (pid !in w.procs && pid in procs' ==> procs'[pid].pc.Begin?)
  {
    match s {
      case Recovery(r) =>
      case Tick(t) =>
      case Admit(a) =>
      case Work(k) =>
      case Operate(c) =>
      case Delete(q, left) =>
      case _ =>
    }
  }

  lemma StepBringsNearer(cfg: Config, w: World, s: Step, pid: nat)
    requires Enabled(cfg, w, s)
    ensures Ahead(Next(cfg, w, s), pid) + (if ActsWhole(w, s, pid) then 1 else 0) <= Ahead(w, pid)
  {
    if s.Delete? && s.pid == pid {
      DeletionEnds(w, pid, s.left);
    } else {
      OthersLeave(cfg, w, s, pid);
    }
  }

  /**
   * Every deletion ends: over a whole run it makes at most seven whole actions, whatever others do in
   * between, and what it has made and what is ahead of it never exceed seven.
   */
  lemma {:induction false} WholeActionsBounded(cfg: Config, ws: seq<World>, steps: seq<Step>, pid: nat, n: nat)
    requires IsRunOf(cfg, ws, steps) && n <= |steps|
    ensures WholeActions(ws, steps, pid, n) + Ahead(ws[n], pid) <= 7
  {
    if n > 0 {
      WholeActionsBounded(cfg, ws, steps, pid, n - 1);
      StepBringsNearer(cfg, ws[n - 1], steps[n - 1], pid);
    }
  }

  /** A deletion of the observation that ended in success. */
  predicate Succeeded(procs: map<nat, Proc>, pid: nat, oid: nat) {
    pid in procs && procs[pid].oid == oid && procs[pid].pc.Finished?
  }

  /** Every deletion of the observation that has succeeded in the second world had succeeded in the first. */
  ghost predicate NoneSucceeds(procs: map<nat, Proc>, procs': map<nat, Proc>, oid: nat) {
    forall pid: nat :: Succeeded(procs', pid, oid) ==> Succeeded(procs, pid, oid)
  }

  /** A step of a world in which the row is DELETED changes nothing of it and lets no further deletion of it succeed. */
  lemma DeletedIsFinal(cfg: Config, w: World, s: Step, oid: nat)
    requires ValidConfig(cfg) && Inv(cfg, w) && Enabled(cfg, w, s) && IsObs(w.db, oid, Deleted)
    ensures var w' := Next(cfg, w, s);
      IsObs(w'.db, oid, Deleted) && w'.db.obs[oid] == w.db.obs[oid] && NoneSucceeds(w.procs, w'.procs, oid)
  {
    var w' := Next(cfg, w, s);
    ObsFrame(w.db, StepTx(cfg, w, s), oid);
    forall pid: nat | Succeeded(w'.procs, pid, oid) ensures Succeeded(w.procs, pid, oid) {
      if s.Delete? && s.pid == pid {
        LateDeletionFails(cfg, w, pid, s.left);
      } else {
        OthersLeave(cfg, w, s, pid);
      }
    }
  }

  /** The row is DELETED in both worlds and the same, and no deletion of it succeeded in between. */
  ghost predicate StaysDeleted(w: World, w': World, oid: nat) {
    && IsObs(w.db, oid, Deleted) && IsObs(w'.db, oid, Deleted) && w'.db.obs[oid] == w.db.obs[oid]
    && NoneSucceeds(w.procs, w'.procs, oid)
  }

  lemma DeletedNext(cfg: Config, ws: seq<World>, steps: seq<Step>, i: nat, oid: nat)
    requires ValidConfig(cfg) && IsRunOf(cfg, ws, steps) && i < |steps| && IsObs(ws[i].db, oid, Deleted)
    ensures StaysDeleted(ws[i], ws[i + 1], oid)
  {
    assert Inv(cfg, ws[i]) by {
      RunKeeps(cfg, ws, steps, i);
    }
    DeletedIsFinal(cfg, ws[i], steps[i], oid);
  }

  lemma StaysSelf(w: World, oid: nat)
    requires IsObs(w.db, oid, Deleted)
    ensures StaysDeleted(w, w, oid)
  {
  }

  lemma StaysTransitive(w1: World, w2: World, w3: World, oid: nat)
    requires StaysDeleted(w1, w2, oid) && StaysDeleted(w2, w3, oid)
    ensures StaysDeleted(w1, w3, oid)
  {
    forall pid: nat | Succeeded(w3.procs, pid, oid) ensures Succeeded(w1.procs, pid, oid) {
      assert Succeeded(w2.procs, pid, oid);
    }
  }

  /**
   * Once the row is DELETED, in every later world it is the same row, and every deletion of it that
   * has succeeded by then had succeeded before: the ones still running, and any started later, fail.
   */
  lemma {:induction false} DeletedForEver(cfg: Config, ws: seq<World>, steps: seq<Step>, i: nat, j: nat, oid: nat)
    requires ValidConfig(cfg) && IsRunOf(cfg, ws, steps) && i <= j < |ws| && IsObs(ws[i].db, oid, Deleted)
    ensures StaysDeleted(ws[i], ws[j], oid)
    decreases j - i
  {
    if i == j {
      StaysSelf(ws[i], oid);
    } else {
      assert StaysDeleted(ws[i], ws[j - 1], oid) by {
        DeletedForEver(cfg, ws, steps, i, j - 1, oid);
      }
      assert StaysDeleted(ws[j - 1], ws[j], oid) by {
        DeletedNext(cfg, ws, steps, j - 1, oid);
      }
      StaysTransitive(ws[i], ws[j - 1], ws[j], oid);
    }
  }
}
