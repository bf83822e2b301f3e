/**
 * What happens when the two failure paths swallow a failed move to quarantine: the measurement set
 * stays where it was, its row charges nothing, and nothing ever removes it. Disk safety then holds
 * exactly up to the bytes left behind in this way.
 */
module Leak {
  import opened Models
  import opened StoreSpec
  import opened Ledger
  import opened Totals
  import opened Protocol
  import opened Safety
  import opened SafetySteps
  import opened Disk
  import opened Guarantees

  /** The measurement set of a failed observation that is still among the live ones. */
  predicate Leaked(db: Db, fs: Fs, oid: nat) {
    IsObs(db, oid, ObserveFailed) && oid in fs.live
  }

  function LeakedSets(db: Db, fs: Fs): map<nat, nat> {
    map o | o in fs.live && IsObs(db, o, ObserveFailed) :: fs.live[o]
  }

  function Without(fs: Fs, db: Db): Fs {
    fs.(live := fs.live - LeakedSets(db, fs).Keys)
  }

  /** The world as the accounting sees it: without the files left behind. */
  function Accounted(w: World): World {
    w.(fs := Without(w.fs, w.db))
  }

  /** Every byte is either accounted for or left behind. */
  lemma PhysicalParts(w: World)
    ensures Physical(w.fs) == Physical(Accounted(w).fs) + Total(LeakedSets(w.db, w.fs))
  {
    TotalParts(w.fs.live, LeakedSets(w.db, w.fs));
  }

  lemma AccountedInv(cfg: Config, w: World)
    requires Inv(cfg, w)
    ensures Inv(cfg, Accounted(w))
  {
    var fs' := Without(w.fs, w.db);
    forall oid: nat ensures FileOk(w.db, fs', oid) {
      assert FileOk(w.db, w.fs, oid);
    }
    forall pid | pid in w.procs ensures ProcOk(w.db, fs', w.procs[pid]) {
      assert ProcOk(w.db, w.fs, w.procs[pid]);
    }
  }

  // ------------------------------------------------------------ left for good

  /** No deletion ever looks at a failed observation. */
  lemma NoDeletionOfFailed(cfg: Config, w: World, pid: nat, oid: nat)
    requires Inv(cfg, w) && pid in w.procs && IsObs(w.db, oid, ObserveFailed)
    ensures w.procs[pid].oid == oid ==> w.procs[pid].pc.Begin? || w.procs[pid].pc.Stopped?
  {
    assert ProcOk(w.db, w.fs, w.procs[pid]);
  }

  lemma FailedRowStays(cfg: Config, w: World, s: Step, oid: nat)
    requires Enabled(cfg, w, s) && IsObs(w.db, oid, ObserveFailed)
    ensures IsObs(Next(cfg, w, s).db, oid, ObserveFailed) && Next(cfg, w, s).db.obs[oid] == w.db.obs[oid]
  {
    var op := StepTx(cfg, w, s);
    ObsFrame(w.db, op, oid);
  }

  /** The file is the same in both. */
  predicate SameLive(fs: Fs, fs': Fs, oid: nat) {
    oid in fs'.live && oid in fs.live && fs'.live[oid] == fs.live[oid]
  }

  lemma LeakStaysRecovery(w: World, r: RecoveryStep, oid: nat)
    requires RecoveryEnabled(w, r) && Leaked(w.db, w.fs, oid)
    ensures SameLive(w.fs, RecoveryNext(w, r).fs, oid)
  {
  }

  lemma LeakStaysTick(cfg: Config, w: World, t: TickStep, oid: nat)
    requires TickEnabled(w, t) && Leaked(w.db, w.fs, oid)
    ensures SameLive(w.fs, TickNext(cfg, w, t).fs, oid)
  {
  }

  lemma LeakStaysWork(cfg: Config, w: World, k: WorkStep, oid: nat)
    requires TasksOk(w.db, w.ctl) && WorkEnabled(cfg, w, k) && Leaked(w.db, w.fs, oid)
    ensures SameLive(w.fs, WorkNext(w, k).fs, oid)
  {
    assert oid in w.ctl.obsTasks ==> ObsTaskOk(w.db, w.ctl, oid);
  }

  lemma LeakStaysDelete(fs: Fs, p: Proc, left: Option<nat>, oid: nat)
    requires oid in fs.live && (p.oid == oid ==> p.pc.Begin? || p.pc.Stopped?)
    ensures SameLive(fs, DeleteFs(fs, p, left), oid)
  {
  }

  lemma LeakStaysElsewhere(cfg: Config, w: World, s: Step)
    requires Enabled(cfg, w, s) && (s.Admit? || s.Operate? || s.Crash? || s.Start? || s.DeleteDies? || s.Remark? || s.StrayRun?)
    ensures Next(cfg, w, s).fs.live == w.fs.live
  {
  }

  lemma LeakStays(cfg: Config, w: World, s: Step, oid: nat)
    requires Inv(cfg, w) && Enabled(cfg, w, s) && Leaked(w.db, w.fs, oid)
    ensures SameLive(w.fs, Next(cfg, w, s).fs, oid)
  {
    match s {
      case Recovery(r) => LeakStaysRecovery(w, r, oid);
      case Tick(t) => LeakStaysTick(cfg, w, t, oid);
      case Work(k) => LeakStaysWork(cfg, w, k, oid);
      case Delete(pid, left) =>
        NoDeletionOfFailed(cfg, w, pid, oid);
        LeakStaysDelete(w.fs, w.procs[pid], left, oid);
      case Stray(_, _) =>
      case _ => LeakStaysElsewhere(cfg, w, s);
    }
  }

  lemma LeakChargesNothing(cfg: Config, db: Db, oid: nat)
    requires Accounts(cfg, db) && IsObs(db, oid, ObserveFailed)
    ensures db.obs[oid].size == 0 && db.obs[oid].reserved == 0
  {
    assert AccountsFor(cfg, db, oid);
  }

  lemma LeakNeverCharges(cfg: Config, ws: seq<World>, steps: seq<Step>, j: nat, oid: nat)
    requires ValidConfig(cfg) && IsRunOf(cfg, ws, steps) && j < |ws| && IsObs(ws[j].db, oid, ObserveFailed)
    ensures ws[j].db.obs[oid].size == 0 && ws[j].db.obs[oid].reserved == 0
  {
    assert Accounts(cfg, ws[j].db) by {
      RunKeeps(cfg, ws, steps, j);
    }
    LeakChargesNothing(cfg, ws[j].db, oid);
  }

  /** The file is left behind in both worlds, with the same bytes. */
  predicate StaysLeaked(w: World, w': World, oid: nat) {
    Leaked(w.db, w.fs, oid) && Leaked(w'.db, w'.fs, oid) && SameLive(w.fs, w'.fs, oid)
  }

  lemma LeakAfterStep(cfg: Config, ws: seq<World>, steps: seq<Step>, j: nat, oid: nat)
    requires ValidConfig(cfg) && IsRunOf(cfg, ws, steps) && j < |steps| && Leaked(ws[j].db, ws[j].fs, oid)
    ensures StaysLeaked(ws[j], ws[j + 1], oid)
  {
    assert Inv(cfg, ws[j]) by {
      RunKeeps(cfg, ws, steps, j);
    }
    FailedRowStays(cfg, ws[j], steps[j], oid);
    LeakStays(cfg, ws[j], steps[j], oid);
  }

  lemma {:induction false} LeakPersists(cfg: Config, ws: seq<World>, steps: seq<Step>, i: nat, j: nat, oid: nat)
    requires ValidConfig(cfg) && IsRunOf(cfg, ws, steps) && i <= j < |ws| && Leaked(ws[i].db, ws[i].fs, oid)
    ensures StaysLeaked(ws[i], ws[j], oid)
    decreases j - i
  {
    if i < j {
      assert StaysLeaked(ws[i], ws[j - 1], oid) by {
        LeakPersists(cfg, ws, steps, i, j - 1, oid);
      }
      assert StaysLeaked(ws[j - 1], ws[j], oid) by {
        LeakAfterStep(cfg, ws, steps, j - 1, oid);
      }
    }
  }

  /**
   * A measurement set left behind stays for ever, whatever crashes, recoveries and operator commands
   * follow, and its row charges no byte of it.
   */
  lemma LeakIsForGood(cfg: Config, ws: seq<World>, steps: seq<Step>, i: nat, j: nat, oid: nat)
    requires ValidConfig(cfg) && IsRunOf(cfg, ws, steps) && i <= j < |ws| && Leaked(ws[i].db, ws[i].fs, oid)
    ensures Leaked(ws[j].db, ws[j].fs, oid) && SameLive(ws[i].fs, ws[j].fs, oid)
    ensures ws[j].db.obs[oid].size == 0 && ws[j].db.obs[oid].reserved == 0
  {
    LeakPersists(cfg, ws, steps, i, j, oid);
    LeakNeverCharges(cfg, ws, steps, j, oid);
  }

  // --------------------------------------------------- safety up to the leak

  /** A step works on the accounted files as it does on all of them, unless it adds to those left behind. */
  lemma AccountedEnabled(cfg: Config, w: World, s: Step)
    requires Inv(cfg, w) && Enabled(cfg, w, s)
    ensures Enabled(cfg, Accounted(w), s)
  {
    var a := Accounted(w);
    match s {
      case Recovery(r) =>
      case Tick(t) =>
      case Admit(_) =>
      case Work(k) =>
      case Operate(c) =>
      case Delete(pid, left) =>
        assert ProcOk(w.db, w.fs, w.procs[pid]);
      case _ =>
    }
  }

  // ------------------------------------------- steps seen by the accounting

  /** No step but a swallowed failure adds to what is left behind, and none takes from it. */
  ghost predicate LeaksKept(w: World, w': World) {
    && (forall o: nat :: Leaked(w'.db, w'.fs, o) <==> Leaked(w.db, w.fs, o))
    && (forall o: nat :: Leaked(w.db, w.fs, o) ==> SameLive(w.fs, w'.fs, o))
  }

  lemma SameLeaks(w: World, w': World)
    requires LeaksKept(w, w')
    ensures LeakedSets(w'.db, w'.fs) == LeakedSets(w.db, w.fs)
  {
    var a, b := LeakedSets(w'.db, w'.fs), LeakedSets(w.db, w.fs);
    forall o: nat ensures o in a <==> o in b {
      assert (o in a <==> Leaked(w'.db, w'.fs, o)) && (o in b <==> Leaked(w.db, w.fs, o));
    }
    forall o | o in b ensures a[o] == b[o] {
      assert Leaked(w.db, w.fs, o);
    }
  }

  /** The observations a step fails, and the one whose live file it writes. */
  function FailedBy(w: World, s: Step): Option<nat> {
    match s
    case Recovery(r) => if r.RecFailObs? then Some(r.oid) else None
    case Tick(t) => if t.SweepFailObs? then Some(t.oid) else None
    case Work(k) => if k.ObsFail? then Some(k.oid) else None
    case _ => None
  }

  lemma OthersDoNotFail(cfg: Config, w: World, s: Step, o: nat)
    requires Enabled(cfg, w, s) && IsObs(Next(cfg, w, s).db, o, ObserveFailed) && !IsObs(w.db, o, ObserveFailed)
    ensures FailedBy(w, s) == Some(o)
  {
    var op := StepTx(cfg, w, s);
    ObsFrame(w.db, op, o);
  }

  predicate WritesLive(s: Step, o: nat) {
    match s
    case Work(k) => k.ObsWrite? && k.oid == o
    case Stray(oid, _) => oid == o
    case _ => false
  }

  lemma LiveOnlyWritten(cfg: Config, w: World, s: Step, o: nat)
    requires Enabled(cfg, w, s) && o in Next(cfg, w, s).fs.live && o !in w.fs.live
    ensures WritesLive(s, o)
  {
    match s {
      case Recovery(r) =>
      case Tick(t) => TickWritesNothing(cfg, w, t);
      case Admit(a) =>
      case Work(k) => WorkWritesItsOwn(w, k);
      case Operate(c) =>
      case Delete(pid, left) =>
      case _ =>
    }
  }

  lemma TickWritesNothing(cfg: Config, w: World, t: TickStep)
    ensures TickNext(cfg, w, t).fs.live.Keys <= w.fs.live.Keys
  {
  }

  lemma WorkWritesItsOwn(w: World, k: WorkStep)
    ensures WorkNext(w, k).fs.live.Keys <= w.fs.live.Keys + if k.ObsWrite? then {k.oid} else {}
  {
  }

  lemma StepLeaks(cfg: Config, w: World, s: Step)
    requires Inv(cfg, w) && Enabled(cfg, w, s) && !Swallows(s)
    ensures LeaksKept(w, Next(cfg, w, s))
  {
    var w' := Next(cfg, w, s);
    forall o: nat
      ensures Leaked(w.db, w.fs, o) ==> Leaked(w'.db, w'.fs, o) && SameLive(w.fs, w'.fs, o)
      ensures Leaked(w'.db, w'.fs, o) ==> Leaked(w.db, w.fs, o)
    {
      if Leaked(w.db, w.fs, o) {
        FailedRowStays(cfg, w, s, o);
        LeakStays(cfg, w, s, o);
      } else if Leaked(w'.db, w'.fs, o) {
        NewLeak(cfg, w, s, o);
      }
    }
  }

  lemma WritersObserve(db: Db, c: Ctl)
    requires TasksOk(db, c)
    ensures forall o :: ObsTaskIs(c, o, Writing) ==> IsObs(db, o, Observing)
  {
    forall o | ObsTaskIs(c, o, Writing) ensures IsObs(db, o, Observing) {
      assert ObsTaskOk(db, c, o);
    }
  }

  lemma NewLeak(cfg: Config, w: World, s: Step, o: nat)
    requires Inv(cfg, w) && Enabled(cfg, w, s) && !Leaked(w.db, w.fs, o) && Leaked(Next(cfg, w, s).db, Next(cfg, w, s).fs, o)
    ensures Swallows(s)
  {
    WritersObserve(w.db, w.ctl);
    if o !in w.fs.live {
      LiveOnlyWritten(cfg, w, s, o);
    } else {
      OthersDoNotFail(cfg, w, s, o);
      NewlyFailed(cfg, w, s, o);
    }
  }

  lemma NewlyFailed(cfg: Config, w: World, s: Step, o: nat)
    requires TasksOk(w.db, w.ctl) && FilesOk(w.db, w.fs) && Enabled(cfg, w, s) && FailedBy(w, s) == Some(o) && o in w.fs.live
    ensures Swallows(s)
  {
    if s.Work? {
      assert ObsTaskOk(w.db, w.ctl, o);
      assert FileOk(w.db, w.fs, o);
    }
  }

  function Cut(w: World, lost: set<nat>): World {
    w.(fs := w.fs.(live := w.fs.live - lost))
  }

  predicate AllFailed(db: Db, lost: set<nat>) {
    forall o :: o in lost ==> IsObs(db, o, ObserveFailed)
  }

  lemma CutRecovery(w: World, r: RecoveryStep, lost: set<nat>)
    requires RecoveryEnabled(w, r) && AllFailed(w.db, lost)
    ensures RecoveryNext(Cut(w, lost), r) == Cut(RecoveryNext(w, r), lost)
  {
    match r {
      case RecQuarantine(oid, _) => assert w.fs.live - lost - {oid} == w.fs.live - {oid} - lost;
      case RecOrphan(oid, _) => assert w.fs.live - lost - {oid} == w.fs.live - {oid} - lost;
      case _ =>
    }
  }

  lemma CutTick(cfg: Config, w: World, t: TickStep, lost: set<nat>)
    requires TickEnabled(w, t) && AllFailed(w.db, lost)
    ensures TickNext(cfg, Cut(w, lost), t) == Cut(TickNext(cfg, w, t), lost)
  {
    match t {
      case SweepQuarantine(oid, _) => assert w.fs.live - lost - {oid} == w.fs.live - {oid} - lost;
      case _ =>
    }
  }

  lemma CutWork(cfg: Config, w: World, k: WorkStep, lost: set<nat>)
    requires TasksOk(w.db, w.ctl) && WorkEnabled(cfg, w, k) && AllFailed(w.db, lost)
    ensures WorkNext(Cut(w, lost), k) == Cut(WorkNext(w, k), lost)
  {
    WritersObserve(w.db, w.ctl);
    match k {
      case ObsWrite(oid, bytes) => assert (w.fs.live - lost)[oid := bytes] == w.fs.live[oid := bytes] - lost;
      case ObsQuarantine(oid, _) =>
        assert ObsTaskOk(w.db, w.ctl, oid);
        assert w.fs.live - lost - {oid} == w.fs.live - {oid} - lost;
      case ObsStore(oid) => assert ObsTaskOk(w.db, w.ctl, oid);
      case _ =>
    }
  }

  lemma CutDeleteFs(db: Db, fs: Fs, p: Proc, left: Option<nat>, lost: set<nat>)
    requires ProcOk(db, fs, p) && AllFailed(db, lost)
    ensures var fs0 := fs.(live := fs.live - lost);
      && DeleteFs(fs0, p, left) == DeleteFs(fs, p, left).(live := DeleteFs(fs, p, left).live - lost)
      && Advance(db, fs0, p, left) == Advance(db, fs, p, left)
  {
    match p.pc {
      case Rename => assert fs.live - lost - {p.oid} == fs.live - {p.oid} - lost;
      case RemoveLive =>
        if left.Some? && p.oid in fs.live {
          assert (fs.live - lost)[p.oid := left.value] == fs.live[p.oid := left.value] - lost;
        }
        assert fs.live - lost - {p.oid} == fs.live - {p.oid} - lost;
      case _ =>
    }
  }

  lemma CutDelete(w: World, pid: nat, left: Option<nat>, lost: set<nat>)
    requires pid in w.procs && ProcOk(w.db, w.fs, w.procs[pid]) && AllFailed(w.db, lost)
    ensures DeleteNext(Cut(w, lost), pid, left) == Cut(DeleteNext(w, pid, left), lost)
  {
    CutDeleteFs(w.db, w.fs, w.procs[pid], left, lost);
  }

  lemma CutAdmit(cfg: Config, w: World, a: AdmitStep, lost: set<nat>)
    requires AdmitEnabled(cfg, w, a) && AdmitEnabled(cfg, Cut(w, lost), a)
    ensures AdmitNext(cfg, Cut(w, lost), a) == Cut(AdmitNext(cfg, w, a), lost)
  {
  }

  lemma CutOperate(w: World, c: OperatorStep, lost: set<nat>)
    requires OperatorEnabled(w, c) && OperatorEnabled(Cut(w, lost), c)
    ensures OperatorNext(Cut(w, lost), c) == Cut(OperatorNext(w, c), lost)
  {
  }

  /** What a step does does not depend on the files left behind. */
  lemma CutStep(cfg: Config, w: World, s: Step, lost: set<nat>)
    requires Inv(cfg, w) && AllFailed(w.db, lost) && Enabled(cfg, w, s) && Enabled(cfg, Cut(w, lost), s)
    ensures Next(cfg, Cut(w, lost), s) == Cut(Next(cfg, w, s), lost)
  {
    match s {
      case Recovery(r) => CutRecovery(w, r, lost);
      case Tick(t) => CutTick(cfg, w, t, lost);
      case Admit(a) => CutAdmit(cfg, w, a, lost);
      case Work(k) => CutWork(cfg, w, k, lost);
      case Operate(c) => CutOperate(w, c, lost);
      case Delete(pid, left) =>
        assert ProcOk(w.db, w.fs, w.procs[pid]);
        CutDelete(w, pid, left, lost);
      case Stray(oid, bytes) =>
        assert (w.fs.live - lost)[oid := bytes] == w.fs.live[oid := bytes] - lost;
      case _ => CutElsewhere(cfg, w, s, lost);
    }
  }

  lemma CutElsewhere(cfg: Config, w: World, s: Step, lost: set<nat>)
    requires Enabled(cfg, w, s) && Enabled(cfg, Cut(w, lost), s)
    requires s.Crash? || s.Start? || s.DeleteDies? || s.Remark? || s.StrayRun?
    ensures Next(cfg, Cut(w, lost), s) == Cut(Next(cfg, w, s), lost)
  {
  }

  // ------------------------------------------------------------- the bound

  function SwallowedOid(s: Step): nat
    requires Swallows(s)
  {
    match s
    case Tick(t) => t.oid
    case Work(k) => k.oid
  }

  function SwallowedOp(w: World, s: Step): Op
    requires Swallows(s)
  {
    match s
    case Tick(t) => MoveObs(t.oid, Observing, ObserveFailed, None, Some(0))
    case Work(k) => FailOp(w.db, k.oid)
  }

  /** After a swallowed failure the accounting sees the file vanish and the row fail. */
  lemma SwallowShape(cfg: Config, w: World, s: Step)
    requires TasksOk(w.db, w.ctl) && Enabled(cfg, w, s) && Swallows(s)
    ensures var oid, w' := SwallowedOid(s), Next(cfg, w, s);
      && IsObs(w.db, oid, SwallowedOp(w, s).ofrom)
      && !ObsTaskIs(w.ctl, oid, Writing)
      && w'.db == After(w.db, SwallowedOp(w, s)) && w'.fs == w.fs && w'.procs == w.procs
      && w'.ctl == w.ctl.(obsTasks := w.ctl.obsTasks - if s.Work? then {oid} else {})
  {
    if s.Work? {
      assert ObsTaskOk(w.db, w.ctl, s.k.oid);
    } else {
      assert w.ctl.obsTasks - {} == w.ctl.obsTasks;
    }
  }

  lemma SwallowLeaks(db: Db, fs: Fs, op: Op)
    requires op.MoveObs? && op.oto.ObserveFailed? && IsObs(db, op.oid, op.ofrom) && op.oto in ObsTransitions(op.ofrom)
    ensures Without(fs, After(db, op)) == Without(fs, db).(live := Without(fs, db).live - {op.oid})
  {
    var a, b := Without(fs, After(db, op)).live, Without(fs, db).live - {op.oid};
    forall o: nat ensures o in a <==> o in b {
      assert o in LeakedSets(After(db, op), fs).Keys <==> o in fs.live && IsObs(After(db, op), o, ObserveFailed);
      assert o in LeakedSets(db, fs).Keys <==> o in fs.live && IsObs(db, o, ObserveFailed);
      ObsFrame(db, op, o);
    }
    assert a == b;
  }

  lemma SwallowStep(cfg: Config, e: Option<nat>, w: World, s: Step)
    requires Inv(cfg, w) && DiskOk(cfg, e, Accounted(w)) && Enabled(cfg, w, s) && Swallows(s)
    ensures DiskOk(cfg, e, Accounted(Next(cfg, w, s)))
  {
    var oid, op, w' := SwallowedOid(s), SwallowedOp(w, s), Next(cfg, w, s);
    SwallowShape(cfg, w, s);
    SwallowLeaks(w.db, w.fs, op);
    var a := Accounted(w);
    assert FileOk(w.db, w.fs, oid);
    var a1 := LoseFile(cfg, e, a, oid);
    DiskTx(cfg, e, a1, op);
    DiskCalm(cfg, e, Tx(a1, op), Accounted(w'));
  }

  /** A file that nobody may write can vanish. */
  lemma LoseFile(cfg: Config, e: Option<nat>, a: World, oid: nat) returns (a1: World)
    requires DiskOk(cfg, e, a) && (MayWrite(a.db, a.ctl, oid) ==> oid !in a.fs.live)
    ensures a1 == a.(fs := a.fs.(live := a.fs.live - {oid})) && DiskOk(cfg, e, a1)
  {
    a1 := a.(fs := a.fs.(live := a.fs.live - {oid}));
    TotalRemove(a.fs.live, oid);
    DiskShrinks(cfg, e, a, a1);
  }

  lemma AccountedStep(cfg: Config, e: Option<nat>, w: World, s: Step)
    requires ValidConfig(cfg) && Inv(cfg, w) && DiskOk(cfg, e, Accounted(w)) && Enabled(cfg, w, s) && WritesWithin(cfg, e, s)
    ensures DiskOk(cfg, e, Accounted(Next(cfg, w, s)))
  {
    if Swallows(s) {
      SwallowStep(cfg, e, w, s);
    } else {
      StepLeaks(cfg, w, s);
      SameLeaks(w, Next(cfg, w, s));
      AccountedEnabled(cfg, w, s);
      CutStep(cfg, w, s, LeakedSets(w.db, w.fs).Keys);
      AccountedInv(cfg, w);
      DiskStep(cfg, e, Accounted(w), s);
    }
  }

  /**
   * In every run whose writers exceed their reservation by no more than `e`, the raw bytes on disk exceed
   * the threshold by no more than `e` and what swallowed failures left behind.
   */
  lemma SafeUpToLeaks(cfg: Config, e: nat, ws: seq<World>, steps: seq<Step>, i: nat)
    requires ValidConfig(cfg) && IsRunOf(cfg, ws, steps) && i < |ws| && AllWithin(cfg, Some(e), steps)
    ensures Physical(ws[i].fs) <= cfg.threshold + e + Total(LeakedSets(ws[i].db, ws[i].fs))
  {
    assert DiskOk(cfg, Some(e), Accounted(ws[i])) by {
      AccountedSafe(cfg, Some(e), ws, steps, i);
    }
    PhysicalParts(ws[i]);
  }

  lemma {:induction false} AccountedSafe(cfg: Config, e: Option<nat>, ws: seq<World>, steps: seq<Step>, i: nat)
    requires ValidConfig(cfg) && IsRunOf(cfg, ws, steps) && i < |ws|
    requires AllWithin(cfg, e, steps)
    ensures DiskOk(cfg, e, Accounted(ws[i]))
  {
    if i == 0 {
      AccountedInit(cfg, e);
    } else {
      AccountedSafe(cfg, e, ws, steps, i - 1);
      assert WritesWithin(cfg, e, steps[i - 1]);
      AccountedNext(cfg, e, ws, steps, i - 1);
    }
  }

  lemma AccountedInit(cfg: Config, e: Option<nat>)
    ensures DiskOk(cfg, e, Accounted(InitialWorld))
  {
    NothingLeftYet(InitialWorld);
    DiskInit(cfg, e);
  }

  lemma NothingLeftYet(w: World)
    requires w.fs.live == map[]
    ensures Accounted(w) == w
  {
    assert Without(w.fs, w.db).live == w.fs.live;
  }

  lemma AccountedNext(cfg: Config, e: Option<nat>, ws: seq<World>, steps: seq<Step>, j: nat)
    requires ValidConfig(cfg) && IsRunOf(cfg, ws, steps) && j < |steps| && WritesWithin(cfg, e, steps[j])
    requires DiskOk(cfg, e, Accounted(ws[j]))
    ensures DiskOk(cfg, e, Accounted(ws[j + 1]))
  {
    RunKeeps(cfg, ws, steps, j);
    AccountedStep(cfg, e, ws[j], steps[j]);
  }

  // ----------------------------------------------------------- exactly when

  /** The step fails a row whose measurement set is still there. */
  predicate LeavesBehind(w: World, s: Step) {
    Swallows(s) && SwallowedOid(s) in w.fs.live
  }

  lemma LeavingBehindLeaks(cfg: Config, w: World, s: Step)
    requires Inv(cfg, w) && Enabled(cfg, w, s) && LeavesBehind(w, s)
    ensures Leaked(Next(cfg, w, s).db, Next(cfg, w, s).fs, SwallowedOid(s))
  {
    SwallowShape(cfg, w, s);
  }

  lemma NothingElseLeaks(cfg: Config, w: World, s: Step, o: nat)
    requires Inv(cfg, w) && Enabled(cfg, w, s) && !LeavesBehind(w, s) && Leaked(Next(cfg, w, s).db, Next(cfg, w, s).fs, o)
    ensures Leaked(w.db, w.fs, o)
  {
    if Swallows(s) {
      SwallowShape(cfg, w, s);
      ObsFrame(w.db, SwallowedOp(w, s), o);
    } else {
      StepLeaks(cfg, w, s);
    }
  }

  ghost predicate SomethingLeft(w: World) {
    exists o: nat :: Leaked(w.db, w.fs, o)
  }

  lemma LeftAfterStep(cfg: Config, w: World, s: Step)
    requires Inv(cfg, w) && Enabled(cfg, w, s)
    ensures SomethingLeft(Next(cfg, w, s)) <==> SomethingLeft(w) || LeavesBehind(w, s)
  {
    if o: nat :| Leaked(w.db, w.fs, o) {
      FailedRowStays(cfg, w, s, o);
      LeakStays(cfg, w, s, o);
    } else if LeavesBehind(w, s) {
      LeavingBehindLeaks(cfg, w, s);
    } else if o: nat :| Leaked(Next(cfg, w, s).db, Next(cfg, w, s).fs, o) {
      NothingElseLeaks(cfg, w, s, o);
    }
  }

  ghost predicate LeftBehindBy(ws: seq<World>, steps: seq<Step>, i: nat)
    requires i <= |ws| && i <= |steps|
  {
    exists j :: 0 <= j < i && LeavesBehind(ws[j], steps[j])
  }

  /** Something is left behind exactly when some failure swallowed the error of a move that had a file to move. */
  lemma {:induction false} LeakIffSwallowed(cfg: Config, ws: seq<World>, steps: seq<Step>, i: nat)
    requires ValidConfig(cfg) && IsRunOf(cfg, ws, steps) && i < |ws|
    ensures SomethingLeft(ws[i]) <==> LeftBehindBy(ws, steps, i)
  {
    if i > 0 {
      LeakIffSwallowed(cfg, ws, steps, i - 1);
      assert SomethingLeft(ws[i]) <==> SomethingLeft(ws[i - 1]) || LeavesBehind(ws[i - 1], steps[i - 1]) by {
        RunKeeps(cfg, ws, steps, i - 1);
        LeftAfterStep(cfg, ws[i - 1], steps[i - 1]);
      }
      assert LeftBehindBy(ws, steps, i) <==> LeftBehindBy(ws, steps, i - 1) || LeavesBehind(ws[i - 1], steps[i - 1]);
    }
  }

  // ------------------------------------------------- what the decision is made on

  /**
   * In every run, whatever its writers wrote and whatever was swallowed, each read of the admission test
   * and the cache are no less than what is on disk, but for the files left behind.
   */
  lemma ReadsAlwaysOk(cfg: Config, ws: seq<World>, steps: seq<Step>, i: nat)
    requires ValidConfig(cfg) && IsRunOf(cfg, ws, steps) && i < |ws|
    ensures ReadsOk(Accounted(ws[i]))
  {
    AccountedSafe(cfg, None, ws, steps, i);
  }

  lemma NothingLeftIsNoByte(w: World)
    requires !SomethingLeft(w)
    ensures Total(LeakedSets(w.db, w.fs)) == 0
  {
    forall o ensures o !in LeakedSets(w.db, w.fs) {
      assert o in w.fs.live ==> !Leaked(w.db, w.fs, o);
    }
    assert LeakedSets(w.db, w.fs) == map[];
  }

  /**
   * Admission reads are conservative: in every run, whatever operators accept, discard, drop or purge
   * between the reads and however far writers overran before, the total the decision is made on is no
   * less than the raw bytes then on disk, but for those left behind; and no less than all of them as long
   * as no failure swallowed the error of a move that had a file to move.
   */
  lemma ChargeIsConservative(cfg: Config, ws: seq<World>, steps: seq<Step>, i: nat)
    requires ValidConfig(cfg) && IsRunOf(cfg, ws, steps) && i < |ws| && ws[i].ctl.admission.Charged?
    ensures Physical(ws[i].fs) <= ws[i].ctl.admission.total + Total(LeakedSets(ws[i].db, ws[i].fs))
    ensures !LeftBehindBy(ws, steps, i) ==> Physical(ws[i].fs) <= ws[i].ctl.admission.total
  {
    ReadsAlwaysOk(cfg, ws, steps, i);
    PhysicalParts(ws[i]);
    LeakIffSwallowed(cfg, ws, steps, i);
    if !LeftBehindBy(ws, steps, i) {
      NothingLeftIsNoByte(ws[i]);
    }
  }

  /** In every run, an observation is admitted only when its whole reservation fits beside all bytes not left behind. */
  lemma AdmittedHasRoom(cfg: Config, ws: seq<World>, steps: seq<Step>, i: nat)
    requires ValidConfig(cfg) && IsRunOf(cfg, ws, steps) && i < |steps| && steps[i] == Admit(AdmitInsert)
    ensures Physical(ws[i + 1].fs) + cfg.reservation <= cfg.threshold + Total(LeakedSets(ws[i].db, ws[i].fs))
    ensures !LeftBehindBy(ws, steps, i) ==> Physical(ws[i + 1].fs) + cfg.reservation <= cfg.threshold
  {
    ChargeIsConservative(cfg, ws, steps, i);
  }

  // ------------------------------------------------------ with no hypothesis at all

  /** By how much a step writes past the reservation. */
  function Overrun(cfg: Config, s: Step): nat {
    var bytes := match s
      case Work(k) => if k.ObsWrite? then k.bytes else 0
      case Stray(_, b) => b
      case _ => 0;
    if bytes > cfg.reservation then bytes - cfg.reservation else 0
  }

  function WorstOverrun(cfg: Config, steps: seq<Step>): nat {
    if steps == [] then 0 else
      var n := |steps| - 1;
      var before, last := WorstOverrun(cfg, steps[..n]), Overrun(cfg, steps[n]);
      if last > before then last else before
  }

  lemma {:induction false} WorstIsBound(cfg: Config, steps: seq<Step>, e: nat)
    requires WorstOverrun(cfg, steps) <= e
    ensures AllWithin(cfg, Some(e), steps)
  {
    if steps != [] {
      var n := |steps| - 1;
      WorstIsBound(cfg, steps[..n], e);
      forall i | 0 <= i < |steps| ensures WritesWithin(cfg, Some(e), steps[i]) {
        assert i < n ==> steps[..n][i] == steps[i];
      }
    }
  }

  /**
   * In every run of every valid configuration, raw bytes on disk exceed the threshold by no more than the
   * worst single overrun so far and the bytes left behind: overruns never add up.
   */
  lemma BytesBounded(cfg: Config, ws: seq<World>, steps: seq<Step>, i: nat)
    requires ValidConfig(cfg) && IsRunOf(cfg, ws, steps) && i < |ws|
    ensures Physical(ws[i].fs) <= cfg.threshold + WorstOverrun(cfg, steps[..i]) + Total(LeakedSets(ws[i].db, ws[i].fs))
  {
    var before, first := ws[..i + 1], steps[..i];
    assert IsRunOf(cfg, before, first) by {
      RunPrefix(cfg, ws, steps, i);
    }
    var e := WorstOverrun(cfg, first);
    WorstIsBound(cfg, first, e);
    SafeUpToLeaks(cfg, e, before, first, i);
  }

  lemma RunPrefix(cfg: Config, ws: seq<World>, steps: seq<Step>, i: nat)
    requires IsRunOf(cfg, ws, steps) && i < |ws|
    ensures IsRunOf(cfg, ws[..i + 1], steps[..i])
  {
    var before, first := ws[..i + 1], steps[..i];
    forall j | 0 <= j < i ensures Enabled(cfg, before[j], first[j]) && before[j + 1] == Next(cfg, before[j], first[j]) {
      assert before[j] == ws[j] && first[j] == steps[j] && before[j + 1] == ws[j + 1];
    }
  }
}
