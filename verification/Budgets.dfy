/** The execution budget of a whole observation, which its reprocess decisions extend. */
module Budgets {
  import opened Models
  import opened StoreSpec
  import opened Ledger
  import opened ControlStore
  import opened Protocol
  import opened SafetySteps

  function SumExecutions(log: seq<Event>, ids: seq<nat>): nat {
    if ids == [] then 0 else
      var n := |ids| - 1;
      SumExecutions(log, ids[..n]) + Executions(log, ids[n])
  }

  predicate Distinct(ids: seq<nat>) {
    forall i, j | 0 <= i < j < |ids| :: ids[i] != ids[j]
  }

  lemma {:induction false} NothingLogged(ids: seq<nat>)
    ensures SumExecutions([], ids) == 0
  {
    if ids != [] {
      NothingLogged(ids[..|ids| - 1]);
    }
  }

  /** An event adds to the sum once if it is an execution of one of the runs. */
  lemma {:induction false} SumSnoc(log: seq<Event>, ids: seq<nat>)
    requires log != [] && Distinct(ids)
    ensures var n := |log| - 1;
      SumExecutions(log, ids) ==
        SumExecutions(log[..n], ids)
        + if log[n].RunMoved? && log[n].rfrom.Queued? && log[n].rto.Running? && log[n].rid in ids then 1 else 0
    decreases |ids|
  {
    if ids != [] {
      var k := |ids| - 1;
      assert ids == ids[..k] + [ids[k]];
      SumSnoc(log, ids[..k]);
      assert ids[k] !in ids[..k];
    }
  }

  lemma {:induction false} RunsOfDistinct(runs: seq<RunRow>, oid: nat)
    ensures Distinct(RunsOf(runs, oid))
  {
    if runs != [] {
      var n := |runs| - 1;
      RunsOfDistinct(runs[..n], oid);
      RunsOfMembers(runs[..n], oid);
      var c := RunsOf(runs[..n], oid);
      assert forall i :: 0 <= i < |c| ==> c[i] in c;
    }
  }

  /** The join over events and runs counts each execution of each run of the observation once. */
  lemma {:induction false} JoinCountsRuns(log: seq<Event>, runs: seq<RunRow>, oid: nat)
    ensures ObsExecutions(log, runs, oid) == SumExecutions(log, RunsOf(runs, oid))
    decreases |log|
  {
    var ids := RunsOf(runs, oid);
    if log == [] {
      NothingLogged(ids);
    } else {
      RunsOfDistinct(runs, oid);
      RunsOfMembers(runs, oid);
      JoinCountsRuns(log[..|log| - 1], runs, oid);
      SumSnoc(log, ids);
    }
  }

  lemma {:induction false} SumWithin(log: seq<Event>, ids: seq<nat>, max: nat)
    requires forall i :: 0 <= i < |ids| ==> Executions(log, ids[i]) <= max
    ensures SumExecutions(log, ids) <= max * |ids|
    decreases |ids|
  {
    if ids != [] {
      var n := |ids| - 1;
      SumWithin(log, ids[..n], max);
      assert max * |ids| == max * n + max;
    }
  }

  /** Reprocess decisions on an observation, read off its rows. */
  function ReprocessDecisions(runs: seq<RunRow>, oid: nat): nat {
    |set r | 0 <= r < |runs| && runs[r].oid == oid && runs[r].state.Superseded?|
  }

  lemma SupersededAreEarlier(runs: seq<RunRow>, oid: nat)
    requires Chain(runs, oid) && RunsOf(runs, oid) != []
    ensures ReprocessDecisions(runs, oid) == |RunsOf(runs, oid)| - 1
  {
    var c := RunsOf(runs, oid);
    var n := |c| - 1;
    RunsOfDistinct(runs, oid);
    RunsOfMembers(runs, oid);
    var s := set r | 0 <= r < |runs| && runs[r].oid == oid && runs[r].state.Superseded?;
    forall r ensures r in s <==> r in c[..n] {
      if r in s {
        var i :| 0 <= i < |c| && c[i] == r;
        assert c[..n][i] == r;
      }
      if r in c[..n] {
        var i :| 0 <= i < n && c[i] == r;
        assert c[i] in c;
      }
    }
    DistinctCard(c[..n], s);
  }

  lemma {:induction false} DistinctCard(ids: seq<nat>, s: set<nat>)
    requires Distinct(ids) && forall r :: r in s <==> r in ids
    ensures |s| == |ids|
    decreases |ids|
  {
    if ids == [] {
      assert s == {};
    } else {
      var n := |ids| - 1;
      assert ids == ids[..n] + [ids[n]];
      DistinctCard(ids[..n], s - {ids[n]});
    }
  }

  /**
   * In every world of every run, an observation's executions, counted as the program counts them,
   * stay within the budget of one run times one more than its reprocess decisions.
   */
  lemma ObservationBudget(cfg: Config, ws: seq<World>, steps: seq<Step>, i: nat, oid: nat)
    requires ValidConfig(cfg) && IsRunOf(cfg, ws, steps) && i < |ws|
    ensures ObsExecutions(ws[i].db.log, ws[i].db.runs, oid) <= cfg.attempts * (1 + ReprocessDecisions(ws[i].db.runs, oid))
  {
    var db := ws[i].db;
    assert Chain(db.runs, oid) && Budget(cfg, db) by {
      RunKeeps(cfg, ws, steps, i);
    }
    BudgetOfChain(cfg, db, oid);
  }

  lemma WithinMore(max: nat, n: nat, decisions: nat)
    requires n <= 1 + decisions
    ensures max * n <= max * (1 + decisions)
  {
  }

  lemma BudgetOfChain(cfg: Config, db: Db, oid: nat)
    requires Chain(db.runs, oid) && Budget(cfg, db)
    ensures ObsExecutions(db.log, db.runs, oid) <= cfg.attempts * (1 + ReprocessDecisions(db.runs, oid))
  {
    var c := RunsOf(db.runs, oid);
    JoinCountsRuns(db.log, db.runs, oid);
    forall k | 0 <= k < |c| ensures Executions(db.log, c[k]) <= cfg.attempts {
      assert WithinBudget(cfg, db, c[k]);
    }
    SumWithin(db.log, c, cfg.attempts);
    if c != [] {
      SupersededAreEarlier(db.runs, oid);
    }
    WithinMore(cfg.attempts, |c|, ReprocessDecisions(db.runs, oid));
  }
}
