/**
 * The deletion methods of the data root against the interleaved deletion of the transition system:
 * an execution that nobody disturbs takes the steps of the second and has the effect of the first.
 */
module Undisturbed {
  import opened Models
  import opened StoreSpec
  import opened Protocol
  import opened Storage
  import opened Guarantees
  import Recovery

  /** What such an execution still does to the files. */
  function LeftToDo(fs: Fs, p: Proc): Fs {
    match p.pc
    case Begin => if p.drop then DropFs(fs, p.oid) else FinishFs(fs, p.oid)
    case TestLive => if p.drop then DropFs(fs, p.oid) else FinishFs(fs, p.oid)
    case TestTrash => FinishFs(fs, p.oid)
    case Rename => FinishFs(fs, p.oid)
    case RemoveLive => DropFs(fs, p.oid)
    case TestRemove => DeleteFs(fs, Proc(false, false, p.oid, Deleting, Remove), None)
    case Remove => DeleteFs(fs, Proc(false, false, p.oid, Deleting, Remove), None)
    case _ => fs
  }

  predicate MayBegin(db: Db, p: Proc) {
    IsObs(db, p.oid, Deleting) || (p.drop && IsObs(db, p.oid, Inconsistent))
  }

  /** Nothing has come between its tests and what it saw. */
  predicate OnCourse(db: Db, fs: Fs, p: Proc) {
    && MayBegin(db, p)
    && (p.pc.Begin? || p.seen == db.obs[p.oid].state)
    && match p.pc
       case Begin => p.drop || !Recovery.Wedged(fs, p.oid)
       case TestLive => p.drop || !Recovery.Wedged(fs, p.oid)
       case TestTrash => !p.drop && p.oid in fs.live && p.oid !in fs.trash
       case Rename => !p.drop && p.oid in fs.live && p.oid !in fs.trash
       case RemoveLive => p.drop && p.oid in fs.live
       case TestRemove => p.oid !in fs.live
       case Remove => p.oid !in fs.live && p.oid in fs.trash
       case Commit => p.oid !in fs.live && p.oid !in fs.trash
       case _ => false
  }

  lemma OneAction(db: Db, fs: Fs, p: Proc)
    requires OnCourse(db, fs, p) && !p.pc.Commit?
    ensures var fs', p' := DeleteFs(fs, p, None), Advance(db, fs, p, None);
      && OnCourse(db, fs', p') && p'.oid == p.oid && p'.mine == p.mine
      && StepsLeft(p'.pc) < StepsLeft(p.pc)
      && LeftToDo(fs', p') == LeftToDo(fs, p)
  {
  }

  /**
   * Left alone, a safe deletion of a row in DELETING with at most one copy, or a forced drop of a row
   * in DELETING or INCONSISTENT, ends in success, the row DELETED and the files as the method leaves them.
   */
  lemma {:induction false} RunsToItsEnd(cfg: Config, w: World, pid: nat) returns (steps: seq<Step>, w': World)
    requires DeleteEnabled(w, pid, None) && OnCourse(w.db, w.fs, w.procs[pid])
    ensures Path(cfg, w, steps, w') && (forall s :: s in steps ==> s == Delete(pid, None))
    ensures var p := w.procs[pid];
      && w'.db == After(w.db, MoveObs(p.oid, w.db.obs[p.oid].state, Deleted, Some(0), Some(0)))
      && IsObs(w'.db, p.oid, Deleted)
      && w'.fs == LeftToDo(w.fs, p)
      && pid in w'.procs && w'.procs[pid].pc.Finished? && w'.ctl.phase == w.ctl.phase
    decreases StepsLeft(w.procs[pid].pc)
  {
    var p := w.procs[pid];
    var w1 := DeleteNext(w, pid, None);
    if p.pc.Commit? {
      w' := w1;
      steps := [Delete(pid, None)];
      assert Path(cfg, w1, [], w1);
      ActionFirst(cfg, w, pid, [], w1);
      assert [Delete(pid, None)] + [] == steps;
    } else {
      OneAction(w.db, w.fs, p);
      assert w1.db == w.db && w1.procs[pid] == Advance(w.db, w.fs, p, None);
      var rest;
      rest, w' := RunsToItsEnd(cfg, w1, pid);
      ActionFirst(cfg, w, pid, rest, w');
      steps := [Delete(pid, None)] + rest;
    }
  }
}
