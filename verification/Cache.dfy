/**
 * The cached sizes of quarantine and trash against a fresh walk. No hypothesis on writers or on
 * quarantine moves is needed here, only what the stamps do.
 */
module Cache {
  import opened Models
  import opened Totals
  import opened Protocol
  import Disk

  /** Steps that change quarantine and trash at their top level only: every removal removes a whole entry. */
  predicate WholeEntries(s: Step) {
    match s
    case Delete(_, left) => left.None?
    case Operate(c) => c.OpPurge? ==> c.left.None?
    case _ => true
  }

  /** A recorded size is no less than the present one, and equal to it when entries never shrink. */
  predicate Covers(recorded: nat, present: nat, exact: bool) {
    present <= recorded && (exact ==> present == recorded)
  }

  /** While a directory's stamp has not moved, the size recorded with that stamp still covers it. */
  ghost predicate EntryAgrees(fs: Fs, e: CacheEntry, exact: bool) {
    && e.qStamp <= fs.qStamp && e.tStamp <= fs.tStamp
    && (e.qStamp == fs.qStamp ==> Covers(e.quarantine, Total(fs.quarantine), exact))
    && (e.tStamp == fs.tStamp ==> Covers(e.trash, Total(fs.trash), exact))
  }

  /** The same for a walk that has read its stamps and is not finished. */
  ghost predicate WalkAgrees(fs: Fs, a: Admission, exact: bool) {
    match a
    case ReadQStamp(_, q) => q <= fs.qStamp
    case ReadStamps(_, q, t) => q <= fs.qStamp && t <= fs.tStamp
    case WalkedQuarantine(_, q, t, bytes) =>
      && q <= fs.qStamp && t <= fs.tStamp
      && (q == fs.qStamp ==> Covers(bytes, Total(fs.quarantine), exact))
    case _ => true
  }

  ghost predicate Agrees(fs: Fs, c: Ctl, exact: bool) {
    && (c.cache.Some? ==> EntryAgrees(fs, c.cache.value, exact))
    && WalkAgrees(fs, c.admission, exact)
  }

  /** What a step may do to the two directories: nothing, a change with a new stamp, or an unnoticed shrinking. */
  ghost predicate Stamped(stamp: nat, size: nat, stamp': nat, size': nat, whole: bool) {
    && stamp <= stamp'
    && (stamp == stamp' ==> size' <= size && (whole ==> size' == size))
  }

  ghost predicate StampedFs(fs: Fs, fs': Fs, whole: bool) {
    && Stamped(fs.qStamp, Total(fs.quarantine), fs'.qStamp, Total(fs'.quarantine), whole)
    && Stamped(fs.tStamp, Total(fs.trash), fs'.tStamp, Total(fs'.trash), whole)
  }

  lemma DeleteStamps(fs: Fs, p: Proc, left: Option<nat>)
    requires RemovalOk(fs, p, left)
    ensures StampedFs(fs, DeleteFs(fs, p, left), left.None?)
  {
    Disk.DeleteShrinks(fs, p, left);
  }

  lemma PurgeStamps(w: World, name: string, left: Option<nat>)
    requires Shrinks(w.fs.quarantine, name, left)
    ensures StampedFs(w.fs, OperatorNext(w, OpPurge(name, left)).fs, left.None?)
  {
    Disk.TrimShrinks(w.fs.quarantine, name, left);
  }

  lemma TickStamps(cfg: Config, w: World, t: TickStep)
    requires TickEnabled(w, t)
    ensures StampedFs(w.fs, TickNext(cfg, w, t).fs, true)
  {
  }

  lemma WorkStamps(cfg: Config, w: World, k: WorkStep)
    requires WorkEnabled(cfg, w, k)
    ensures StampedFs(w.fs, WorkNext(w, k).fs, true)
  {
  }

  lemma StepStamps(cfg: Config, w: World, s: Step)
    requires Enabled(cfg, w, s)
    ensures StampedFs(w.fs, Next(cfg, w, s).fs, WholeEntries(s))
  {
    match s {
      case Recovery(r) =>
      case Tick(t) => TickStamps(cfg, w, t);
      case Work(k) => WorkStamps(cfg, w, k);
      case Operate(c) => if c.OpPurge? { PurgeStamps(w, c.name, c.left); }
      case Delete(pid, left) => DeleteStamps(w.fs, w.procs[pid], left);
      case _ =>
    }
  }

  /** A step that is no read of the admission test forgets the cache or leaves it. */
  lemma OthersRecordNothing(cfg: Config, w: World, s: Step)
    requires Enabled(cfg, w, s) && !s.Admit?
    ensures ForgetsOrKeeps(w.ctl, Next(cfg, w, s).ctl)
  {
    match s {
      case Recovery(r) =>
      case Tick(t) => TickRecordsNothing(cfg, w, t);
      case Work(k) => WorkRecordsNothing(w, k);
      case Operate(c) =>
      case Delete(pid, left) =>
      case _ =>
    }
  }

  predicate ForgetsOrKeeps(c: Ctl, c': Ctl) {
    && (c'.cache == c.cache || c'.cache.None?)
    && (c'.admission == c.admission || c'.admission.NotAdmitting?)
  }

  lemma TickRecordsNothing(cfg: Config, w: World, t: TickStep)
    ensures ForgetsOrKeeps(w.ctl, TickNext(cfg, w, t).ctl)
  {
  }

  lemma WorkRecordsNothing(w: World, k: WorkStep)
    ensures ForgetsOrKeeps(w.ctl, WorkNext(w, k).ctl)
  {
  }

  lemma AgreesStep(cfg: Config, w: World, s: Step, exact: bool)
    requires Enabled(cfg, w, s) && Agrees(w.fs, w.ctl, exact) && (exact ==> WholeEntries(s))
    ensures Agrees(Next(cfg, w, s).fs, Next(cfg, w, s).ctl, exact)
  {
    if s.Admit? {
      AgreesRead(cfg, w, s.a, exact);
    } else {
      StepStamps(cfg, w, s);
      OthersRecordNothing(cfg, w, s);
      AgreesLater(w.fs, w.ctl, Next(cfg, w, s).fs, Next(cfg, w, s).ctl, WholeEntries(s), exact);
    }
  }

  lemma AgreesRead(cfg: Config, w: World, a: AdmitStep, exact: bool)
    requires AdmitEnabled(cfg, w, a) && Agrees(w.fs, w.ctl, exact)
    ensures Agrees(AdmitNext(cfg, w, a).fs, AdmitNext(cfg, w, a).ctl, exact)
  {
  }

  lemma AgreesLater(fs: Fs, c: Ctl, fs': Fs, c': Ctl, whole: bool, exact: bool)
    requires Agrees(fs, c, exact) && StampedFs(fs, fs', whole) && ForgetsOrKeeps(c, c') && (exact ==> whole)
    ensures Agrees(fs', c', exact)
  {
  }

  lemma {:induction false} AgreesAlways(cfg: Config, ws: seq<World>, steps: seq<Step>, i: nat, exact: bool)
    requires IsRunOf(cfg, ws, steps) && i < |ws|
    requires exact ==> forall j :: 0 <= j < |steps| ==> WholeEntries(steps[j])
    ensures Agrees(ws[i].fs, ws[i].ctl, exact)
  {
    if i > 0 {
      AgreesAlways(cfg, ws, steps, i - 1, exact);
      AgreesStep(cfg, ws[i - 1], steps[i - 1], exact);
    }
  }

  /** The cache would answer now: both stamps are the present ones. */
  predicate HitsNow(w: World) {
    w.ctl.cache.Some? && w.ctl.cache.value.qStamp == w.fs.qStamp && w.ctl.cache.value.tStamp == w.fs.tStamp
  }

  /**
   * In every run, a hit is never below a fresh walk; if entries are only added and removed as a
   * whole, also by operators and also between the reading of the stamps and the walk, a hit is
   * exactly what a walk returns.
   */
  lemma HitAgreesWithWalk(cfg: Config, ws: seq<World>, steps: seq<Step>, i: nat)
    requires IsRunOf(cfg, ws, steps) && i < |ws| && HitsNow(ws[i])
    ensures Total(ws[i].fs.quarantine) <= ws[i].ctl.cache.value.quarantine
    ensures Total(ws[i].fs.trash) <= ws[i].ctl.cache.value.trash
    ensures (forall j :: 0 <= j < |steps| ==> WholeEntries(steps[j])) ==>
      Total(ws[i].fs.quarantine) == ws[i].ctl.cache.value.quarantine && Total(ws[i].fs.trash) == ws[i].ctl.cache.value.trash
  {
    AgreesAlways(cfg, ws, steps, i, false);
    if forall j :: 0 <= j < |steps| ==> WholeEntries(steps[j]) {
      AgreesAlways(cfg, ws, steps, i, true);
    }
  }
}
