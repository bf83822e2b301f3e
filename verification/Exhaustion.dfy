/** When the automatic retry gives a failure up, over whole runs: not before its budget is spent. */
module Exhaustion {
  import opened Models
  import opened StoreSpec
  import opened Ledger
  import opened Protocol
  import opened SafetySteps
  import opened Guarantees

  predicate Exhausted(db: Db, rid: nat) {
    rid < |db.runs| && db.runs[rid].exhausted
  }

  /** A transaction that sets the marker finds the budget spent, unless it is the one that declares it spent. */
  lemma MarkedByTx(db: Db, op: Op, rid: nat)
    requires Exhausted(After(db, op), rid) && !Exhausted(db, rid)
    ensures op == MarkRunExhausted(rid) || (op.MarkExhausted? && Executions(db.log, rid) >= op.max)
  {
  }

  lemma MarkerStaysTx(db: Db, op: Op, rid: nat)
    requires Exhausted(db, rid)
    ensures Exhausted(After(db, op), rid)
  {
  }

  /** Which steps set markers. */
  lemma MarkingSteps(cfg: Config, w: World, s: Step)
    requires Enabled(cfg, w, s)
    ensures StepTx(cfg, w, s).MarkExhausted? ==> StepTx(cfg, w, s).max == cfg.attempts
    ensures StepTx(cfg, w, s).MarkRunExhausted? ==> s == Tick(RetryBlocked(StepTx(cfg, w, s).rid))
  {
    match s {
      case Recovery(r) =>
      case Tick(t) =>
      case Admit(a) =>
      case Work(k) =>
      case Operate(c) =>
      case Delete(pid, left) =>
      case _ =>
    }
  }

  lemma MarkedByStep(cfg: Config, w: World, s: Step, rid: nat)
    requires Enabled(cfg, w, s) && Exhausted(Next(cfg, w, s).db, rid) && !Exhausted(w.db, rid)
    ensures s == Tick(RetryBlocked(rid)) || Executions(w.db.log, rid) >= cfg.attempts
  {
    MarkingSteps(cfg, w, s);
    MarkedByTx(w.db, StepTx(cfg, w, s), rid);
  }

  /** A marked failure executes no more, and keeps its marker. */
  lemma MarkedIsAtRest(cfg: Config, w: World, s: Step, rid: nat)
    requires Budget(cfg, w.db) && Enabled(cfg, w, s) && Exhausted(w.db, rid)
    ensures Exhausted(Next(cfg, w, s).db, rid) && Executions(Next(cfg, w, s).db.log, rid) == Executions(w.db.log, rid)
  {
    var op := StepTx(cfg, w, s);
    assert WithinBudget(cfg, w.db, rid);
    MarkerStaysTx(w.db, op, rid);
    if Apply(w.db, op).Ok? {
      ExecutionsAfter(w.db, op, rid);
    }
  }

  lemma ExecutionsGrow(cfg: Config, w: World, s: Step, rid: nat)
    requires Enabled(cfg, w, s)
    ensures Executions(Next(cfg, w, s).db.log, rid) >= Executions(w.db.log, rid)
  {
    if Apply(w.db, StepTx(cfg, w, s)).Ok? {
      ExecutionsAfter(w.db, StepTx(cfg, w, s), rid);
    }
  }

  /** The removal of its old products failed at an earlier step, and the retry loop handed it to a person. */
  predicate BlockedBefore(steps: seq<Step>, i: nat, rid: nat)
    requires i <= |steps|
  {
    exists j :: 0 <= j < i && steps[j] == Tick(RetryBlocked(rid))
  }

  /**
   * In every world of every run, a failure is marked exhausted only when it has executed exactly as often
   * as the budget allows, or when the removal of its old products failed.
   */
  lemma {:induction false} ExhaustedMeansSpent(cfg: Config, ws: seq<World>, steps: seq<Step>, i: nat, rid: nat)
    requires ValidConfig(cfg) && IsRunOf(cfg, ws, steps) && i < |ws| && Exhausted(ws[i].db, rid)
    ensures Executions(ws[i].db.log, rid) == cfg.attempts || BlockedBefore(steps, i, rid)
  {
    if i > 0 {
      if Exhausted(ws[i - 1].db, rid) {
        assert Executions(ws[i - 1].db.log, rid) == cfg.attempts || BlockedBefore(steps, i - 1, rid) by {
          ExhaustedMeansSpent(cfg, ws, steps, i - 1, rid);
        }
      }
      SpentNext(cfg, ws, steps, i - 1, rid);
    }
  }

  lemma SpentNext(cfg: Config, ws: seq<World>, steps: seq<Step>, i: nat, rid: nat)
    requires ValidConfig(cfg) && IsRunOf(cfg, ws, steps) && i < |steps| && Exhausted(ws[i + 1].db, rid)
    requires Exhausted(ws[i].db, rid) ==> Executions(ws[i].db.log, rid) == cfg.attempts || BlockedBefore(steps, i, rid)
    ensures Executions(ws[i + 1].db.log, rid) == cfg.attempts || BlockedBefore(steps, i + 1, rid)
  {
    assert Budget(cfg, ws[i].db) by {
      RunKeeps(cfg, ws, steps, i);
    }
    assert Executions(ws[i + 1].db.log, rid) <= cfg.attempts by {
      BudgetRespected(cfg, ws, steps, i + 1, rid);
    }
    SpentOrBlocked(cfg, ws[i], steps[i], rid);
  }

  lemma SpentOrBlocked(cfg: Config, w: World, s: Step, rid: nat)
    requires Budget(cfg, w.db) && Enabled(cfg, w, s) && Exhausted(Next(cfg, w, s).db, rid)
    ensures Exhausted(w.db, rid) ==> Executions(Next(cfg, w, s).db.log, rid) == Executions(w.db.log, rid)
    ensures !Exhausted(w.db, rid) ==>
      s == Tick(RetryBlocked(rid)) || Executions(Next(cfg, w, s).db.log, rid) >= cfg.attempts
  {
    if Exhausted(w.db, rid) {
      MarkedIsAtRest(cfg, w, s, rid);
    } else {
      MarkedByStep(cfg, w, s, rid);
      ExecutionsGrow(cfg, w, s, rid);
    }
  }

  /** Once marked, always marked, and no execution more: only a person can resolve the failure. */
  lemma {:induction false} ExhaustedForEver(cfg: Config, ws: seq<World>, steps: seq<Step>, i: nat, j: nat, rid: nat)
    requires ValidConfig(cfg) && IsRunOf(cfg, ws, steps) && i <= j < |ws| && Exhausted(ws[i].db, rid)
    ensures Exhausted(ws[j].db, rid) && Executions(ws[j].db.log, rid) == Executions(ws[i].db.log, rid)
    decreases j - i
  {
    if i < j {
      ExhaustedForEver(cfg, ws, steps, i, j - 1, rid);
      assert Budget(cfg, ws[j - 1].db) by {
        RunKeeps(cfg, ws, steps, j - 1);
      }
      MarkedIsAtRest(cfg, ws[j - 1], steps[j - 1], rid);
    }
  }

  /** After the exhaustion statement, every failure with its budget spent is marked and no other one is newly marked. */
  lemma MarkingIsExact(cfg: Config, w: World, rid: nat)
    requires TickEnabled(w, MarkSpent) && rid < |w.db.runs|
    ensures var db' := TickNext(cfg, w, MarkSpent).db;
      && rid < |db'.runs|
      && (Exhausted(db', rid) <==>
            Exhausted(w.db, rid) || (w.db.runs[rid].state.Failed? && Executions(w.db.log, rid) >= cfg.attempts))
  {
  }
}
