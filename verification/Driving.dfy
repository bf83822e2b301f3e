/**
 * What the controller does by itself: stretches made of its own steps only. No runner writes in them,
 * no operator acts, no deletion advances and nobody dies.
 */
module Driving {
  import opened Models
  import opened Totals
  import opened Protocol
  import opened Guarantees
  import Disk

  predicate Own(s: Step) {
    match s
    case Tick(_) => true
    case Admit(_) => true
    case Work(k) => !k.ObsWrite? && !k.RunWrite? && !k.ObsDies? && !k.RunDies?
    case Remark(_) => true
    case _ => false
  }

  /** Some steps of the controller itself lead from one world to the other. */
  ghost predicate Drives(cfg: Config, w: World, w': World) {
    exists steps :: Path(cfg, w, steps, w') && AllOwn(steps)
  }

  predicate AllOwn(steps: seq<Step>) {
    forall s :: s in steps ==> Own(s)
  }

  lemma DrivesSelf(cfg: Config, w: World)
    ensures Drives(cfg, w, w)
  {
    assert Path(cfg, w, [], w) && AllOwn([]);
  }

  lemma DrivesNext(cfg: Config, w: World, w1: World, s: Step)
    requires Drives(cfg, w, w1) && Enabled(cfg, w1, s) && Own(s)
    ensures Drives(cfg, w, Next(cfg, w1, s))
  {
    var steps :| Path(cfg, w, steps, w1) && AllOwn(steps);
    PathLast(cfg, w, steps, w1, s);
    assert AllOwn(steps + [s]);
  }

  lemma DrivesFurther(cfg: Config, w: World, w1: World, w2: World)
    requires Drives(cfg, w, w1) && Drives(cfg, w1, w2)
    ensures Drives(cfg, w, w2)
  {
    var steps :| Path(cfg, w, steps, w1) && AllOwn(steps);
    var more :| Path(cfg, w1, more, w2) && AllOwn(more);
    PathJoin(cfg, w, steps, w1, more, w2);
    assert AllOwn(steps + more);
  }

  lemma DrivesReaches(cfg: Config, w: World, w': World)
    requires Drives(cfg, w, w')
    ensures Reaches(cfg, w, w')
  {
  }

  // ------------------------------------------------------- no byte is lost by it

  /** Every byte of the measurement set is in quarantine under a name that was free. */
  ghost predicate IsQuarantined(fs: Fs, fs': Fs, oid: nat)
    requires oid in fs.live
  {
    exists name: string :: name !in fs.quarantine && name in fs'.quarantine && fs'.quarantine[name] == fs.live[oid]
  }

  /** The measurement set is where it was, or in quarantine. */
  ghost predicate NotLost(fs: Fs, fs': Fs, oid: nat)
    requires oid in fs.live
  {
    if oid in fs'.live then fs'.live[oid] == fs.live[oid] else IsQuarantined(fs, fs', oid)
  }

  /**
   * No raw byte is made or lost: what is quarantined stays, a measurement set is where it was or in
   * quarantine unchanged, trash is untouched, and live and quarantined bytes have the same total.
   */
  ghost predicate Conserves(fs: Fs, fs': Fs) {
    && Keeps(fs.quarantine, fs'.quarantine)
    && fs'.live.Keys <= fs.live.Keys
    && (forall oid: nat :: oid in fs.live ==> NotLost(fs, fs', oid))
    && fs'.trash == fs.trash
    && Total(fs'.live) + Total(fs'.quarantine) == Total(fs.live) + Total(fs.quarantine)
  }

  lemma SameFilesConserve(fs: Fs, fs': Fs)
    requires fs'.live == fs.live && fs'.quarantine == fs.quarantine && fs'.trash == fs.trash
    ensures Conserves(fs, fs')
  {
  }

  lemma MoveConserves(fs: Fs, oid: nat, name: string)
    requires oid in fs.live && name !in fs.quarantine
    ensures Conserves(fs, MoveToQuarantine(fs, oid, name))
  {
    var fs' := MoveToQuarantine(fs, oid, name);
    TotalRemove(fs.live, oid);
    TotalUpdate(fs.quarantine, name, fs.live[oid]);
    assert fs'.quarantine[name] == fs.live[oid];
  }

  lemma ConservesFurther(fs: Fs, fs1: Fs, fs2: Fs)
    requires Conserves(fs, fs1) && Conserves(fs1, fs2)
    ensures Conserves(fs, fs2)
  {
    forall oid: nat | oid in fs.live ensures NotLost(fs, fs2, oid) {
      assert NotLost(fs, fs1, oid);
      if oid in fs1.live {
        assert NotLost(fs1, fs2, oid);
      } else {
        var name: string :| name !in fs.quarantine && name in fs1.quarantine && fs1.quarantine[name] == fs.live[oid];
        assert name in fs2.quarantine && fs2.quarantine[name] == fs.live[oid];
      }
    }
  }

  lemma OwnTickConserves(cfg: Config, w: World, t: TickStep)
    requires TickEnabled(w, t)
    ensures Conserves(w.fs, TickNext(cfg, w, t).fs)
  {
    match t {
      case SweepQuarantine(oid, name) => MoveConserves(w.fs, oid, name);
      case _ => SameFilesConserve(w.fs, TickNext(cfg, w, t).fs);
    }
  }

  lemma OwnWorkConserves(cfg: Config, w: World, k: WorkStep)
    requires WorkEnabled(cfg, w, k) && !k.ObsWrite?
    ensures Conserves(w.fs, WorkNext(w, k).fs)
  {
    match k {
      case ObsQuarantine(oid, name) => MoveConserves(w.fs, oid, name);
      case _ => SameFilesConserve(w.fs, WorkNext(w, k).fs);
    }
  }

  lemma OwnStepConserves(cfg: Config, w: World, s: Step)
    requires Enabled(cfg, w, s) && Own(s)
    ensures Conserves(w.fs, Next(cfg, w, s).fs) && Next(cfg, w, s).procs == w.procs
  {
    match s {
      case Tick(t) => OwnTickConserves(cfg, w, t);
      case Work(k) => OwnWorkConserves(cfg, w, k);
      case Admit(a) => SameFilesConserve(w.fs, AdmitNext(cfg, w, a).fs);
      case Remark(note) => SameFilesConserve(w.fs, w.fs);
      case _ =>
    }
  }

  lemma {:induction false} OwnPathConserves(cfg: Config, w: World, steps: seq<Step>, w': World)
    requires Path(cfg, w, steps, w') && AllOwn(steps)
    ensures Conserves(w.fs, w'.fs) && w'.procs == w.procs
    decreases |steps|
  {
    if steps == [] {
      SameFilesConserve(w.fs, w.fs);
    } else {
      var w1 := Next(cfg, w, steps[0]);
      OwnStepConserves(cfg, w, steps[0]);
      OwnPathConserves(cfg, w1, steps[1..], w');
      ConservesFurther(w.fs, w1.fs, w'.fs);
    }
  }

  /** Whatever the controller does by itself, no raw byte is made or lost by it, and no deletion advances. */
  lemma DrivesConserves(cfg: Config, w: World, w': World)
    requires Drives(cfg, w, w')
    ensures Conserves(w.fs, w'.fs) && w'.procs == w.procs
  {
    var steps :| Path(cfg, w, steps, w') && AllOwn(steps);
    OwnPathConserves(cfg, w, steps, w');
  }

  lemma ConservesPhysical(fs: Fs, fs': Fs)
    requires Conserves(fs, fs')
    ensures Disk.Physical(fs') == Disk.Physical(fs)
  {
  }
}
