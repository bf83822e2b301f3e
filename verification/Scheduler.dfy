/**
 * The scheduler as the program has it: an object whose task tables change, driving the store and
 * the data root through one tick after another. Everything it does is proved to be a path of the
 * transition system, so what is proved of runs there holds of it.
 */
module Scheduler {
  import opened Models
  import opened Naming
  import opened StoreSpec
  import opened Ledger
  import opened Totals
  import opened ControlStore
  import opened Protocol
  import opened Safety
  import opened SafetySteps
  import opened Storage
  import opened Driving
  import Guarantees
  import opened Admitting
  import opened Charging
  import Disk

  // ------------------------------------------------------------ what a tick achieves

  /** The one run of an observation that is not superseded. */
  predicate IsLiveRun(db: Db, oid: nat, rid: nat) {
    rid < |db.runs| && db.runs[rid].oid == oid && !db.runs[rid].state.Superseded?
  }

  /** Its worker exists, or a person is asked to decide. */
  predicate LookedAfter(db: Db, c: Ctl, rid: nat)
    requires rid < |db.runs|
  {
    || (db.runs[rid].state.Queued? && rid in c.runTasks)
    || (db.runs[rid].state.Running? && rid in c.runTasks)
    || HumanActionable(db.runs[rid])
  }

  ghost predicate LiveRunLookedAfter(db: Db, c: Ctl, oid: nat) {
    exists rid: nat :: IsLiveRun(db, oid, rid) && LookedAfter(db, c, rid)
  }

  /** No stored observation waits for something that will not happen. */
  ghost predicate NothingStranded(db: Db, c: Ctl) {
    && (forall oid: nat :: IsObs(db, oid, Stored) ==> LiveRunLookedAfter(db, c, oid))
    && NoIdleFailure(db)
  }

  predicate IdleFailure(db: Db, r: nat) {
    IsRun(db, r, Failed) && !db.runs[r].exhausted && IsObs(db, db.runs[r].oid, Stored)
  }

  /** Failures of stored observations are all out of budget. */
  predicate NoIdleFailure(db: Db) {
    forall r :: 0 <= r < |db.runs| ==> !IdleFailure(db, r)
  }

  predicate AllHaveRuns(db: Db) {
    forall o :: 0 <= o < |db.obs| ==> !NeedsRun(db, o)
  }

  predicate PlannedTracked(db: Db, c: Ctl) {
    forall o :: 0 <= o < |db.obs| && db.obs[o].state.Planned? ==> o in c.obsTasks
  }

  predicate AllQueuedTracked(db: Db, c: Ctl) {
    forall r :: 0 <= r < |db.runs| && db.runs[r].state.Queued? ==> r in c.runTasks
  }

  lemma LiveRunExists(db: Db, oid: nat) returns (rid: nat)
    requires Chain(db.runs, oid) && HasRuns(db, oid)
    ensures IsLiveRun(db, oid, rid)
  {
    var r :| 0 <= r < |db.runs| && db.runs[r].oid == oid;
    RunsOfMembers(db.runs, oid);
    var c := RunsOf(db.runs, oid);
    assert r in c;
    rid := c[|c| - 1];
    assert rid in c;
  }

  lemma PhasesStrandNothing(cfg: Config, db: Db, c: Ctl)
    requires Chains(db) && Authorised(db)
    requires NoOrphans(db, c) && NoIdleFailure(db) && AllHaveRuns(db) && AllQueuedTracked(db, c)
    ensures NothingStranded(db, c)
  {
    forall oid: nat | IsObs(db, oid, Stored) ensures LiveRunLookedAfter(db, c, oid) {
      assert Chain(db.runs, oid) && !NeedsRun(db, oid);
      var rid := LiveRunExists(db, oid);
      assert AuthorisedObs(db, oid);
      assert !Freed(db, oid);
      assert !IdleFailure(db, rid);
      assert LookedAfter(db, c, rid);
    }
  }

  lemma TickStrandsNothing(cfg: Config, w0: World, w: World)
    requires ValidConfig(cfg) && Inv(cfg, w0) && Drives(cfg, w0, w)
    requires w.ctl.swept && NoIdleFailure(w.db) && AllHaveRuns(w.db) && AllQueuedTracked(w.db, w.ctl)
    ensures NothingStranded(w.db, w.ctl)
  {
    DrivesReaches(cfg, w0, w);
    ReachesKeeps(cfg, w0, w);
    PhasesStrandNothing(cfg, w.db, w.ctl);
  }

  lemma TaskedHaveRows(db: Db, c: Ctl)
    requires TasksOk(db, c)
    ensures forall o :: o in c.obsTasks ==> o < |db.obs|
  {
    forall o | o in c.obsTasks ensures o < |db.obs| {
      assert ObsTaskOk(db, c, o);
    }
  }

  lemma PlannedFailsNothing(db: Db, db': Db, reserve: nat)
    requires db' == db || db' == CreatedObs(db, reserve)
    ensures NoIdleFailure(db) ==> NoIdleFailure(db')
  {
    forall r | 0 <= r < |db'.runs| ensures NoIdleFailure(db) ==> !IdleFailure(db', r) {
      assert IdleFailure(db', r) ==> IdleFailure(db, r);
    }
  }

  /** After the exhaustion statement every unexhausted failure of a stored observation can be retried. */
  lemma MarkingLeavesRetryable(cfg: Config, db: Db, r: nat)
    requires Chains(db)
    ensures var db' := After(db, MarkExhausted(cfg.attempts));
      r < |db'.runs| && db'.runs[r].state.Failed? && !db'.runs[r].exhausted && IsObs(db', db'.runs[r].oid, Stored) ==>
        Retryable(db', cfg.attempts, r)
  {
    var db' := After(db, MarkExhausted(cfg.attempts));
    if r < |db'.runs| && db'.runs[r].state.Failed? && !db'.runs[r].exhausted {
      ExecutionsAfter(db, MarkExhausted(cfg.attempts), r);
      assert Chain(db.runs, db.runs[r].oid);
      NoOtherActive(db, r);
      forall q | 0 <= q < |db'.runs| && q != r && db'.runs[q].oid == db'.runs[r].oid ensures !Active(db'.runs[q].state) {
        assert db.runs[q].state == db'.runs[q].state && db.runs[q].oid == db'.runs[q].oid;
      }
    }
  }

  ghost predicate IdleFailuresIn(db: Db, ids: seq<nat>) {
    forall r: nat :: IdleFailure(db, r) ==> r in ids
  }

  /** The ids the retry loop has yet to handle, in order and all still FAILED. */
  predicate StillListed(db: Db, ids: seq<nat>, retry: set<nat>) {
    && Ascending(ids, |db.runs|)
    && (forall k :: 0 <= k < |ids| ==> IsRun(db, ids[k], Failed))
    && retry == (set r | r in ids)
  }

  lemma MarkedFailuresListed(cfg: Config, db: Db, ids: seq<nat>)
    requires Chains(db)
    requires var db' := After(db, MarkExhausted(cfg.attempts));
      Ascending(ids, |db'.runs|) && forall r :: r in ids <==> 0 <= r < |db'.runs| && Retryable(db', cfg.attempts, r)
    ensures var db' := After(db, MarkExhausted(cfg.attempts));
      IdleFailuresIn(db', ids) && StillListed(db', ids, RetryList(cfg, db'))
  {
    var db' := After(db, MarkExhausted(cfg.attempts));
    forall r: nat | IdleFailure(db', r) ensures r in ids {
      MarkingLeavesRetryable(cfg, db, r);
    }
    forall k | 0 <= k < |ids| ensures IsRun(db', ids[k], Failed) {
      assert ids[k] in ids;
    }
  }

  lemma RetriedFirst(db: Db, db': Db, ids: seq<nat>, retry: set<nat>)
    requires ids != [] && IdleFailuresIn(db, ids) && StillListed(db, ids, retry)
    requires db' == After(db, MoveRun(ids[0], Failed, Queued)) || db' == After(db, MarkRunExhausted(ids[0]))
    ensures IdleFailuresIn(db', ids[1..]) && StillListed(db', ids[1..], retry - {ids[0]})
  {
    forall r: nat | IdleFailure(db', r) ensures r in ids[1..] {
      assert IdleFailure(db, r);
    }
    forall k | 0 <= k < |ids| - 1 ensures IsRun(db', ids[1..][k], Failed) {
      assert ids[1..][k] == ids[k + 1];
    }
    forall r ensures r in ids[1..] <==> r in retry - {ids[0]} {
      assert ids == [ids[0]] + ids[1..];
    }
  }

  lemma NoneActiveListed(db: Db, observing: seq<nat>, planned: seq<nat>)
    requires forall o :: o in observing <==> 0 <= o < |db.obs| && db.obs[o].state == Observing
    requires forall o :: o in planned <==> 0 <= o < |db.obs| && db.obs[o].state == Planned
    ensures NoneActive(db) <==> observing == [] && planned == []
  {
    if observing != [] {
      assert observing[0] in observing && UnderWay(db, observing[0]);
    }
    if planned != [] {
      assert planned[0] in planned && UnderWay(db, planned[0]);
    }
    if o: nat :| UnderWay(db, o) {
      assert o in observing || o in planned;
    }
  }

  /** Stored observations without a run are listed, in order. */
  predicate RunlessListed(db: Db, ids: seq<nat>) {
    && Ascending(ids, |db.obs|)
    && (forall k :: 0 <= k < |ids| ==> NeedsRun(db, ids[k]))
    && (forall o :: 0 <= o < |db.obs| && NeedsRun(db, o) ==> o in ids)
  }

  lemma FirstRunCreated(db: Db, ids: seq<nat>, dir: string)
    requires ids != [] && RunlessListed(db, ids)
    ensures var db' := After(db, CreateRun(ids[0], dir));
      RunlessListed(db', ids[1..]) && (NoIdleFailure(db) ==> NoIdleFailure(db'))
  {
    var db' := After(db, CreateRun(ids[0], dir));
    assert NeedsRun(db, ids[0]);
    forall o: nat ensures HasRuns(db', o) <==> HasRuns(db, o) || o == ids[0] {
      if r :| 0 <= r < |db.runs| && db.runs[r].oid == o {
        assert db'.runs[r].oid == o;
      }
      assert db'.runs[|db.runs|].oid == ids[0];
    }
    forall o: nat | NeedsRun(db', o) ensures o in ids[1..] {
      assert NeedsRun(db, o) && ids == [ids[0]] + ids[1..];
    }
    forall r | 0 <= r < |db'.runs| ensures NoIdleFailure(db) ==> !IdleFailure(db', r) {
      assert r < |db.runs| ==> (IdleFailure(db', r) <==> IdleFailure(db, r));
    }
  }

  // ----------------------------------------------------------- what the retries do

  /** No product directory but these changes, and none is made. */
  predicate OnlyThese(products: map<string, nat>, products': map<string, nat>, dirs: set<string>) {
    && products'.Keys <= products.Keys
    && forall d :: d in products && d !in dirs ==> d in products' && products'[d] == products[d]
  }

  /** An unmarked failure of a stored observation that has an execution left. */
  predicate DueForRetry(db: Db, attempts: nat, r: nat) {
    && r < |db.runs| && db.runs[r].state.Failed? && !db.runs[r].exhausted
    && Executions(db.log, r) < attempts && IsObs(db, db.runs[r].oid, Stored)
  }

  function DueDirs(db: Db, attempts: nat): set<string> {
    set r | 0 <= r < |db.runs| && DueForRetry(db, attempts, r) :: db.runs[r].dir
  }

  /** What the exhaustion statement and the query make of the table and the list. */
  ghost predicate ListedForRetry(db: Db, db': Db, retry: set<nat>, attempts: nat) {
    && db'.obs == db.obs && |db'.runs| == |db.runs| && SameExecutions(db.log, db'.log)
    && (forall r :: 0 <= r < |db.runs| ==>
          db'.runs[r] ==
            if db.runs[r].state.Failed? && !db.runs[r].exhausted && Executions(db.log, r) >= attempts
            then db.runs[r].(exhausted := true) else db.runs[r])
    && (forall r: nat :: r in retry <==> DueForRetry(db, attempts, r))
  }

  lemma MarkingLists(cfg: Config, db: Db)
    requires Chains(db)
    ensures var db' := After(db, MarkExhausted(cfg.attempts)); ListedForRetry(db, db', RetryList(cfg, db'), cfg.attempts)
  {
    var db' := After(db, MarkExhausted(cfg.attempts));
    forall r: nat ensures Executions(db'.log, r) == Executions(db.log, r) {
      ExecutionsAfter(db, MarkExhausted(cfg.attempts), r);
    }
    forall r: nat ensures r in RetryList(cfg, db') <==> DueForRetry(db, cfg.attempts, r) {
      MarkingLeavesRetryable(cfg, db, r);
    }
  }

  lemma RetryExecutesNothing(db: Db, rid: nat)
    requires IsRun(db, rid, Failed)
    ensures SameExecutions(db.log, After(db, MoveRun(rid, Failed, Queued)).log)
    ensures SameExecutions(db.log, After(db, MarkRunExhausted(rid)).log)
  {
    forall r: nat
      ensures Executions(After(db, MoveRun(rid, Failed, Queued)).log, r) == Executions(db.log, r)
      ensures Executions(After(db, MarkRunExhausted(rid)).log, r) == Executions(db.log, r)
    {
      ExecutionsAfter(db, MoveRun(rid, Failed, Queued), r);
      ExecutionsAfter(db, MarkRunExhausted(rid), r);
    }
  }

  /** One listed failure has been queued again without its old products, or is in `blocked` and marked. */
  ghost predicate RetriedOne(db: Db, products: map<string, nat>, db': Db, products': map<string, nat>, rid: nat, blocked: set<nat>) {
    && rid < |db.runs| && SameExecutions(db.log, db'.log) && (blocked == {} || blocked == {rid})
    && db'.runs == db.runs[rid := if rid in blocked then db.runs[rid].(exhausted := true) else db.runs[rid].(state := Queued)]
    && OnlyThese(products, products', {db.runs[rid].dir})
    && (rid !in blocked ==> db.runs[rid].dir !in products')
  }

  lemma OneRetried(db: Db, products: map<string, nat>, db': Db, products': map<string, nat>, rid: nat, blocked: set<nat>)
    requires IsRun(db, rid, Failed) && (blocked == {} || blocked == {rid})
    requires db' == After(db, if blocked == {} then MoveRun(rid, Failed, Queued) else MarkRunExhausted(rid))
    requires OnlyThese(products, products', {db.runs[rid].dir}) && (blocked == {} ==> db.runs[rid].dir !in products')
    ensures RetriedOne(db, products, db', products', rid, blocked)
  {
    RetryExecutesNothing(db, rid);
  }

  /** The same for all that were listed and are no longer. */
  ghost predicate RetriedSoFar(db: Db, products: map<string, nat>, db': Db, products': map<string, nat>,
                               listed: set<nat>, retry: set<nat>, blocked: set<nat>) {
    && |db'.runs| == |db.runs| && SameExecutions(db.log, db'.log) && blocked <= listed - retry
    && (forall r: nat :: r < |db.runs| ==> RetriedRow(db, db', products', r, r in listed - retry, blocked))
    && OnlyThese(products, products', set r | r in listed && r < |db.runs| :: db.runs[r].dir)
  }

  predicate RetriedRow(db: Db, db': Db, products': map<string, nat>, r: nat, done: bool, blocked: set<nat>)
    requires r < |db.runs| == |db'.runs|
  {
    if !done then db'.runs[r] == db.runs[r]
    else if r in blocked then db'.runs[r] == db.runs[r].(exhausted := true)
    else db'.runs[r] == db.runs[r].(state := Queued) && db.runs[r].dir !in products'
  }

  lemma NothingRetried(db: Db, products: map<string, nat>, listed: set<nat>)
    ensures RetriedSoFar(db, products, db, products, listed, listed, {})
  {
    forall r: nat | r < |db.runs| ensures RetriedRow(db, db, products, r, r in listed - listed, {}) {
    }
  }

  lemma RetriedOneMore(db: Db, products: map<string, nat>, db1: Db, products1: map<string, nat>, db2: Db, products2: map<string, nat>,
                       listed: set<nat>, retry: set<nat>, blocked: set<nat>, rid: nat, newly: set<nat>)
    requires RetriedSoFar(db, products, db1, products1, listed, retry, blocked) && rid in retry && retry <= listed
    requires RetriedOne(db1, products1, db2, products2, rid, newly)
    ensures RetriedSoFar(db, products, db2, products2, listed, retry - {rid}, blocked + newly)
  {
    assert RetriedRow(db, db1, products1, rid, false, blocked);
    forall r: nat | r < |db.runs|
      ensures RetriedRow(db, db2, products2, r, r in listed - (retry - {rid}), blocked + newly)
    {
      assert RetriedRow(db, db1, products1, r, r in listed - retry, blocked);
    }
    forall r: nat ensures Executions(db2.log, r) == Executions(db.log, r) {
    }
  }

  /** What the retries make of the rows and products they find. */
  ghost predicate Retried(db: Db, products: map<string, nat>, db': Db, products': map<string, nat>, attempts: nat, blocked: set<nat>) {
    && db'.obs == db.obs && |db'.runs| == |db.runs| && SameExecutions(db.log, db'.log)
    && (forall r: nat :: r < |db.runs| && db.runs[r].state.Failed? && !db.runs[r].exhausted ==>
          RetriedFailure(db, db', products', attempts, r, blocked))
    && (forall r: nat :: r < |db.runs| && !(db.runs[r].state.Failed? && !db.runs[r].exhausted) ==> db'.runs[r] == db.runs[r])
    && OnlyThese(products, products', DueDirs(db, attempts))
  }

  predicate RetriedFailure(db: Db, db': Db, products': map<string, nat>, attempts: nat, r: nat, blocked: set<nat>)
    requires r < |db.runs| == |db'.runs|
  {
    if Executions(db.log, r) >= attempts then db'.runs[r] == db.runs[r].(exhausted := true)
    else if !IsObs(db, db.runs[r].oid, Stored) then db'.runs[r] == db.runs[r]
    else if r in blocked then db'.runs[r] == db.runs[r].(exhausted := true)
    else db'.runs[r] == db.runs[r].(state := Queued) && db.runs[r].dir !in products'
  }

  lemma AllRetried(db: Db, db1: Db, products: map<string, nat>, db2: Db, products2: map<string, nat>, attempts: nat,
                   listed: set<nat>, blocked: set<nat>)
    requires ListedForRetry(db, db1, listed, attempts) && db2.obs == db1.obs
    requires RetriedSoFar(db1, products, db2, products2, listed, {}, blocked)
    ensures Retried(db, products, db2, products2, attempts, blocked)
  {
    forall r: nat | r < |db.runs|
      ensures db.runs[r].state.Failed? && !db.runs[r].exhausted ==> RetriedFailure(db, db2, products2, attempts, r, blocked)
      ensures !(db.runs[r].state.Failed? && !db.runs[r].exhausted) ==> db2.runs[r] == db.runs[r]
    {
      assert RetriedRow(db1, db2, products2, r, r in listed - {}, blocked);
      assert r in listed <==> DueForRetry(db, attempts, r);
    }
    forall r: nat ensures Executions(db2.log, r) == Executions(db.log, r) {
    }
    assert (set r | r in listed && r < |db1.runs| :: db1.runs[r].dir) <= DueDirs(db, attempts);
  }

  // ------------------------------------------------------------ what a sweep does

  ghost predicate SameExecutions(log: seq<Event>, log': seq<Event>) {
    forall r: nat :: Executions(log', r) == Executions(log, r)
  }

  lemma FailingRunsNothing(db: Db, oid: nat)
    requires IsObs(db, oid, Observing)
    ensures SameExecutions(db.log, After(db, MoveObs(oid, Observing, ObserveFailed, None, Some(0))).log)
  {
    forall r: nat ensures Executions(After(db, MoveObs(oid, Observing, ObserveFailed, None, Some(0))).log, r) == Executions(db.log, r) {
      ExecutionsAfter(db, MoveObs(oid, Observing, ObserveFailed, None, Some(0)), r);
    }
  }

  lemma FailingExecutesNothing(db: Db, rid: nat)
    requires IsRun(db, rid, Running)
    ensures SameExecutions(db.log, After(db, MoveRun(rid, Running, Failed)).log)
  {
    forall r: nat ensures Executions(After(db, MoveRun(rid, Running, Failed)).log, r) == Executions(db.log, r) {
      ExecutionsAfter(db, MoveRun(rid, Running, Failed), r);
    }
  }

  /** Exactly the OBSERVING rows without a worker have failed, their reservations given back. */
  predicate SweptRows(obs: seq<ObsRow>, obs': seq<ObsRow>, tasks: set<nat>) {
    && |obs'| == |obs|
    && forall o :: 0 <= o < |obs| ==>
         obs'[o] == if obs[o].state.Observing? && o !in tasks then ObsRow(ObserveFailed, obs[o].size, 0) else obs[o]
  }

  /** Exactly the RUNNING rows without a worker have failed. */
  predicate SweptRuns(runs: seq<RunRow>, runs': seq<RunRow>, tasks: set<nat>) {
    && |runs'| == |runs|
    && forall r :: 0 <= r < |runs| ==>
         runs'[r] == if runs[r].state.Running? && r !in tasks then runs[r].(state := Failed) else runs[r]
  }

  /** The same while only some of the OBSERVING rows have been looked at. */
  predicate SweptSoFar(obs: seq<ObsRow>, obs': seq<ObsRow>, seen: seq<nat>, tasks: set<nat>) {
    && |obs'| == |obs|
    && forall o :: 0 <= o < |obs| ==>
         obs'[o] == if o in seen && o !in tasks then ObsRow(ObserveFailed, obs[o].size, 0) else obs[o]
  }

  lemma NotYetSwept(obs: seq<ObsRow>, obs': seq<ObsRow>, ids: seq<nat>, i: nat, tasks: set<nat>)
    requires i < |ids| && Ascending(ids, |obs|) && SweptSoFar(obs, obs', ids[..i], tasks)
    requires forall o :: o in ids ==> o < |obs| && obs[o].state.Observing?
    ensures ids[i] < |obs'| && obs'[ids[i]] == obs[ids[i]] && obs'[ids[i]].state.Observing?
  {
    assert ids[i] in ids && ids[i] !in ids[..i];
  }

  lemma SweptTwice(log: seq<Event>, log1: seq<Event>, log2: seq<Event>)
    requires SameExecutions(log, log1) && SameExecutions(log1, log2)
    ensures SameExecutions(log, log2)
  {
    forall r: nat ensures Executions(log2, r) == Executions(log, r) {
    }
  }

  lemma SweptIsOrderly(db: Db, db': Db, c: Ctl)
    requires SweptRows(db.obs, db'.obs, c.obsTasks.Keys) && SweptRuns(db.runs, db'.runs, c.runTasks.Keys)
    ensures NoOrphans(db', c)
  {
  }

  /** The measurement set is in quarantine, unchanged, under a name tried for swept observations. */
  ghost predicate SweptAside(fs: Fs, fs': Fs, oid: nat)
    requires oid in fs.live
  {
    exists n: nat :: SweptAs(fs, fs', oid, n)
  }

  predicate SweptAs(fs: Fs, fs': Fs, oid: nat, n: nat)
    requires oid in fs.live
  {
    var name := Candidate(ObsPart(oid) + "-orphaned-task.ms", n);
    name !in fs.quarantine && name in fs'.quarantine && fs'.quarantine[name] == fs.live[oid]
  }

  function Orphans(ids: seq<nat>, tasks: set<nat>): seq<nat> {
    if ids == [] then [] else
      var n := |ids| - 1;
      Orphans(ids[..n], tasks) + if ids[n] in tasks then [] else [ids[n]]
  }

  lemma {:induction false} OrphansAre(ids: seq<nat>, tasks: set<nat>)
    ensures forall o :: o in Orphans(ids, tasks) <==> o in ids && o !in tasks
  {
    if ids != [] {
      OrphansAre(ids[..|ids| - 1], tasks);
    }
  }

  /** Only measurement sets of the orphans went, and each is in quarantine; everything else is as before. */
  ghost predicate SweptFiles(fs: Fs, fs': Fs, orphans: seq<nat>) {
    && fs'.live.Keys <= fs.live.Keys && Guarantees.Keeps(fs.quarantine, fs'.quarantine)
    && (forall o: nat :: o in fs'.live ==> fs'.live[o] == fs.live[o])
    && (forall o: nat :: o in fs.live && o !in fs'.live ==> o in orphans && SweptAside(fs, fs', o))
    && fs'.trash == fs.trash && fs'.products == fs.products
  }

  lemma SweptOne(fs: Fs, fs': Fs, oid: nat)
    requires SetAsideAs(fs, fs', oid, ObsPart(oid) + "-orphaned-task.ms")
    ensures SweptFiles(fs, fs', [oid])
  {
    var label_ := ObsPart(oid) + "-orphaned-task.ms";
    var name: string :| FirstFree(fs.quarantine.Keys, label_, name)
      && fs' == Fs(fs.live - {oid}, fs.trash, fs.quarantine[name := fs.live[oid]], fs.products, fs.qStamp + 1, fs.tStamp);
    var n: nat :| name == Candidate(label_, n) && name !in fs.quarantine;
    assert SweptAs(fs, fs', oid, n);
  }

  lemma SweptFilesFurther(fs: Fs, fs1: Fs, fs2: Fs, seen: seq<nat>, oid: nat, tasks: set<nat>)
    requires SweptFiles(fs, fs1, Orphans(seen, tasks)) && SweptFiles(fs1, fs2, if oid in tasks then [] else [oid])
    ensures SweptFiles(fs, fs2, Orphans(seen + [oid], tasks))
  {
    assert (seen + [oid])[..|seen|] == seen;
    forall o: nat | o in fs.live && o !in fs2.live
      ensures o in Orphans(seen + [oid], tasks) && SweptAside(fs, fs2, o)
    {
      if o in fs1.live {
        var n: nat :| SweptAs(fs1, fs2, o, n);
        assert SweptAs(fs, fs2, o, n);
      } else {
        var n: nat :| SweptAs(fs, fs1, o, n);
        assert SweptAs(fs, fs2, o, n);
      }
    }
  }

  /** What has been done once the rows in `seen` have been looked at. */
  ghost predicate Swept(db: Db, fs: Fs, db': Db, fs': Fs, seen: seq<nat>, tasks: set<nat>, left: set<nat>) {
    && SweptSoFar(db.obs, db'.obs, seen, tasks) && db'.runs == db.runs && SameExecutions(db.log, db'.log)
    && SweptFiles(fs, fs', Orphans(seen, tasks))
    && StaysExcused(seen, fs'.live.Keys, tasks, left)
  }

  /** What is done to one row. */
  ghost predicate SweptBy(db: Db, fs: Fs, db': Db, fs': Fs, oid: nat, tasks: set<nat>, excused: set<nat>) {
    && oid < |db.obs|
    && db'.obs == (if oid in tasks then db.obs else db.obs[oid := ObsRow(ObserveFailed, db.obs[oid].size, 0)])
    && db'.runs == db.runs && SameExecutions(db.log, db'.log)
    && SweptFiles(fs, fs', if oid in tasks then [] else [oid])
    && (oid in fs'.live ==> oid in tasks || oid in excused)
  }

  /** What a whole sweep over the observations does. */
  ghost predicate SweptAll(db: Db, fs: Fs, db': Db, fs': Fs, tasks: set<nat>, left: set<nat>) {
    && SweptRows(db.obs, db'.obs, tasks) && db'.runs == db.runs && SameExecutions(db.log, db'.log)
    && (forall o: nat :: o in fs.live && o !in fs'.live ==>
          IsObs(db, o, Observing) && o !in tasks && SweptAside(fs, fs', o))
    && (forall o: nat :: IsObs(db, o, Observing) && o in fs'.live ==> o in tasks || o in left)
    && fs'.products == fs.products
  }

  lemma NothingSwept(db: Db, fs: Fs, tasks: set<nat>)
    ensures Swept(db, fs, db, fs, [], tasks, {})
  {
  }

  lemma SweptFurther(db: Db, fs: Fs, db1: Db, fs1: Fs, db2: Db, fs2: Fs, ids: seq<nat>, i: nat, tasks: set<nat>,
                     left: set<nat>, excused: set<nat>)
    requires i < |ids| && ids[i] < |db.obs| && Swept(db, fs, db1, fs1, ids[..i], tasks, left)
    requires db1.obs[ids[i]] == db.obs[ids[i]] && SweptBy(db1, fs1, db2, fs2, ids[i], tasks, excused)
    ensures Swept(db, fs, db2, fs2, ids[..i + 1], tasks, left + excused)
  {
    assert ids[..i + 1] == ids[..i] + [ids[i]];
    SweptFilesFurther(fs, fs1, fs2, ids[..i], ids[i], tasks);
    forall r: nat ensures Executions(db2.log, r) == Executions(db.log, r) {
    }
  }

  lemma AllSwept(db: Db, fs: Fs, db': Db, fs': Fs, ids: seq<nat>, tasks: set<nat>, left: set<nat>)
    requires forall o :: o in ids <==> 0 <= o < |db.obs| && db.obs[o].state == Observing
    requires Swept(db, fs, db', fs', ids[..|ids|], tasks, left)
    ensures SweptAll(db, fs, db', fs', tasks, left)
  {
    assert ids[..|ids|] == ids;
    OrphansAre(ids, tasks);
  }

  lemma OnlyAdmitsAreOwn(steps: seq<Step>)
    requires OnlyAdmits(steps)
    ensures AllOwn(steps)
  {
  }

  // ------------------------------------------------------------- what a tick does

  /** Workers have been added for planned observations, still to begin; the others are as before. */
  predicate WorkersAdded(db: Db, tasks: map<nat, ObsTask>, tasks': map<nat, ObsTask>) {
    && (forall o :: o in tasks ==> o in tasks' && tasks'[o] == tasks[o])
    && (forall o :: o in tasks' && o !in tasks ==> IsObs(db, o, Planned) && tasks'[o].Fresh?)
  }

  /** Workers have been added for queued runs, which wait; the others are as before. */
  predicate WaitersAdded(db: Db, tasks: map<nat, RunTask>, tasks': map<nat, RunTask>) {
    && (forall r :: r in tasks ==> r in tasks' && tasks'[r] == tasks[r])
    && (forall r :: r in tasks' && r !in tasks ==> IsRun(db, r, Queued) && tasks'[r].Waiting?)
  }

  /** A failure the automatic retry has yet to decide on, or a run whose worker does not exist. */
  predicate Unresolved(row: RunRow, r: nat, tasks: set<nat>) {
    (row.state.Failed? && !row.exhausted) || (row.state.Running? && r !in tasks)
  }

  /** A spent one is marked, one of a stored observation is queued again unless it is blocked, the others fail. */
  predicate ResolvedRow(db: Db, row': RunRow, r: nat, attempts: nat, blocked: set<nat>)
    requires r < |db.runs|
  {
    if Executions(db.log, r) >= attempts then row' == db.runs[r].(state := Failed, exhausted := true)
    else if !IsObs(db, db.runs[r].oid, Stored) then row' == db.runs[r].(state := Failed)
    else if r in blocked then row' == db.runs[r].(state := Failed, exhausted := true)
    else row' == db.runs[r].(state := Queued)
  }

  /** What becomes of the runs: those that are unresolved are resolved, the others are as before. */
  predicate Resolved(db: Db, runs': seq<RunRow>, tasks: set<nat>, attempts: nat, blocked: set<nat>) {
    && |runs'| == |db.runs|
    && forall r :: 0 <= r < |db.runs| ==>
         if Unresolved(db.runs[r], r, tasks) then ResolvedRow(db, runs'[r], r, attempts, blocked) else runs'[r] == db.runs[r]
  }

  lemma SweptThenRetried(cfg: Config, w0: World, w1: World, w2: World, blocked: set<nat>)
    requires Inv(cfg, w0) && SweptRows(w0.db.obs, w1.db.obs, w0.ctl.obsTasks.Keys) && SameExecutions(w0.db.log, w1.db.log)
    requires SweptRuns(w0.db.runs, w1.db.runs, w0.ctl.runTasks.Keys)
    requires Retried(w1.db, w1.fs.products, w2.db, w2.fs.products, cfg.attempts, blocked)
    ensures SweptRows(w0.db.obs, w2.db.obs, w0.ctl.obsTasks.Keys)
    ensures Resolved(w0.db, w2.db.runs, w0.ctl.runTasks.Keys, cfg.attempts, blocked)
  {
    forall r: nat | r < |w0.db.runs|
      ensures if Unresolved(w0.db.runs[r], r, w0.ctl.runTasks.Keys)
        then ResolvedRow(w0.db, w2.db.runs[r], r, cfg.attempts, blocked) else w2.db.runs[r] == w0.db.runs[r]
    {
      assert WithinBudget(cfg, w0.db, r);
      assert Executions(w1.db.log, r) == Executions(w0.db.log, r);
      assert IsObs(w1.db, w0.db.runs[r].oid, Stored) <==> IsObs(w0.db, w0.db.runs[r].oid, Stored);
      if w1.db.runs[r].state.Failed? && !w1.db.runs[r].exhausted {
        assert RetriedFailure(w1.db, w2.db, w2.fs.products, cfg.attempts, r, blocked);
      }
    }
  }

  lemma NoneBlocked(db: Db, runs': seq<RunRow>, tasks: set<nat>, attempts: nat, blocked: set<nat>)
    requires Resolved(db, runs', tasks, attempts, blocked) && |blocked| == 0
    ensures forall r :: 0 <= r < |db.runs| && DueForRetry(db, attempts, r) ==> runs'[r].state.Queued?
  {
    forall r: nat | r < |db.runs| && DueForRetry(db, attempts, r) ensures runs'[r].state.Queued? {
      assert Unresolved(db.runs[r], r, tasks);
    }
  }

  /** The first attempt of the observation, still to be executed, in the directory of its own name. */
  ghost predicate IsFirstRun(row: RunRow, oid: nat) {
    row == RunRow(oid, 1, Queued, false, row.dir) && SaysRun(row.dir, oid, 1)
  }

  /** The rows between the old ones and those still listed have been made. */
  ghost predicate FirstRunsSoFar(runs: seq<RunRow>, runs': seq<RunRow>, all: seq<nat>, ids: seq<nat>) {
    && |ids| <= |all| && ids == all[|all| - |ids|..]
    && |runs'| == |runs| + |all| - |ids| && runs'[..|runs|] == runs
    && forall k :: 0 <= k < |all| - |ids| ==> IsFirstRun(runs'[|runs| + k], all[k])
  }

  lemma FirstRunsFurther(runs: seq<RunRow>, runs1: seq<RunRow>, row: RunRow, all: seq<nat>, ids: seq<nat>)
    requires FirstRunsSoFar(runs, runs1, all, ids) && ids != [] && IsFirstRun(row, ids[0])
    ensures FirstRunsSoFar(runs, runs1 + [row], all, ids[1..])
  {
    assert ids[0] == all[|all| - |ids|];
  }

  lemma FirstAttempt(db: Db, oid: nat)
    requires NeedsRun(db, oid)
    ensures MaxAttempt(db.runs, oid) + 1 == 1
  {
    MaxAttemptOfNone(db.runs, oid);
  }

  /** One run has been added for each stored observation without one, and its directory says whose it is. */
  ghost predicate FirstRunsAdded(db: Db, runs': seq<RunRow>) {
    && |runs'| >= |db.runs| && runs'[..|db.runs|] == db.runs
    && (forall r :: |db.runs| <= r < |runs'| ==> NeedsRun(db, runs'[r].oid) && IsFirstRun(runs'[r], runs'[r].oid))
    && (forall r1, r2 | |db.runs| <= r1 < r2 < |runs'| :: runs'[r1].oid != runs'[r2].oid)
  }

  lemma FirstRunsDone(db: Db, runs': seq<RunRow>, ids: seq<nat>)
    requires RunlessListed(db, ids) && FirstRunsSoFar(db.runs, runs', ids, [])
    ensures FirstRunsAdded(db, runs')
  {
    forall r | |db.runs| <= r < |runs'|
      ensures runs'[r].oid == ids[r - |db.runs|] && NeedsRun(db, runs'[r].oid) && IsFirstRun(runs'[r], runs'[r].oid)
    {
      var k := r - |db.runs|;
      assert IsFirstRun(runs'[|db.runs| + k], ids[k]);
    }
  }

  /** Rows, files and cache agree: sizes are those of the files, nothing was left behind, a usable cache is true. */
  ghost predicate Truthful(w: World) {
    Disk.FailedAreGone(w.db, w.fs) && TruthfulRows(w.db, w.fs) && CacheTells(w.fs, w.ctl.cache)
  }

  lemma PlannedWhenFits(cfg: Config, fs0: Fs, w0: World, w: World)
    requires Inv(cfg, w) && Drives(cfg, w0, w) && fs0 == w0.fs
    ensures Truthful(w) ==>
      (Admits(cfg, w.db, w.fs, w.ctl.cache) <==>
        && NoneActive(w.db) && HasCapacity(cfg, w.db)
        && Disk.Physical(fs0) + Total(fs0.trash) + cfg.reservation <= cfg.threshold)
  {
    DrivesConserves(cfg, w0, w);
    ConservesPhysical(fs0, w.fs);
    if Truthful(w) {
      AdmitsWhatFits(cfg, w.db, w.fs, w.ctl.cache);
      if NoneActive(w.db) {
        ChargeIsPhysical(cfg, w.db, w.fs);
      }
    }
  }

  /** Of the swept observations, those whose data is still live have a worker or are excused. */
  predicate StaysExcused(swept: seq<nat>, live: set<nat>, tasks: set<nat>, left: set<nat>) {
    forall o :: o in swept && o in live ==> o in tasks || o in left
  }

  /**
   * What became of a measurement set when its observation failed, after so many failed moves. The path
   * that names a reason tries first, the exception path last; the first move that works puts the data,
   * unchanged, in quarantine under the first free name for its label; after the last one it stays.
   */
  ghost predicate Disposed(fs: Fs, fs': Fs, oid: nat, reason: Option<string>, failures: nat) {
    if oid !in fs.live then fs' == fs && failures == 0
    else
      match failures
      case 0 => SetAsideAs(fs, fs', oid, ObsPart(oid) + if reason.Some? then reason.value else "-exception.ms")
      case 1 => if reason.Some? then SetAsideAs(fs, fs', oid, ObsPart(oid) + "-exception.ms") else fs' == fs
      case 2 => reason.Some? && fs' == fs
      case _ => false
  }

  class Scheduler {
    const cfg: Config
    const store: Store
    const root: DataRoot
    var obsTasks: map<nat, ObsTask>
    var runTasks: map<nat, RunTask>
    var permits: nat

    /** How far a tick has come, and the deletions under way elsewhere: what the transition system also keeps. */
    ghost var admission: Admission
    ghost var retry: set<nat>
    ghost var swept: bool
    ghost var procs: map<nat, Proc>

    ghost function C(): Ctl
      reads this, root
    {
      Ctl(Serving, obsTasks, runTasks, admission, retry, swept, root.cache, {}, {})
    }

    ghost function W(): World
      reads this, store, root
    {
      World(store.Value(), root.Value(), C(), procs)
    }

    /** The workers that hold a permit. */
    ghost function Held(): set<nat>
      reads this`runTasks
    {
      set r | r in runTasks && runTasks[r].Holding?
    }

    /** The permits not held by a worker are free. */
    ghost predicate Valid()
      reads this`runTasks, this`permits
    {
      permits + |Held()| == cfg.parallel
    }

    constructor (cfg: Config, store: Store, root: DataRoot)
      ensures this.cfg == cfg && this.store == store && this.root == root
      ensures Valid() && Idle(C()) && C() == DownCtl.(phase := Serving, cache := root.cache) && procs == map[]
    {
      this.cfg, this.store, this.root := cfg, store, root;
      obsTasks, runTasks := map[], map[];
      permits := cfg.parallel;
      admission, retry, swept, procs := NotAdmitting, {}, false, map[];
      new;
      assert Held() == {};
    }

    // ------------------------------------------------------------------- the sweep

    /** The present world follows by one step from a world known by value. */
    ghost method Took(w0: World, w: World, s: Step)
      requires w == w0 || Drives(cfg, w0, w)
      requires Enabled(cfg, w, s) && Own(s) && W() == Next(cfg, w, s)
      ensures Drives(cfg, w0, W())
    {
      if w == w0 {
        DrivesSelf(cfg, w);
      }
      DrivesNext(cfg, w0, w, s);
    }

    /** One OBSERVING row without a worker: its data goes to quarantine if that works, and it fails in any case. */
    method SweepObservation(oid: nat)
      requires Idle(C()) && IsObs(store.Value(), oid, Observing) && oid !in obsTasks
      modifies store, root
      ensures Drives(cfg, old(W()), W())
      ensures store.Value() == After(old(store.Value()), MoveObs(oid, Observing, ObserveFailed, None, Some(0)))
      ensures oid in root.live ==> root.Value() == old(root.Value()) && root.mishaps == old(root.mishaps) + 1
      ensures oid !in root.live ==> root.mishaps == old(root.mishaps)
      ensures oid in old(root.live) && oid !in root.live ==>
        SetAsideAs(old(root.Value()), root.Value(), oid, ObsPart(oid) + "-orphaned-task.ms")
      ensures oid !in old(root.live) ==> root.Value() == old(root.Value())
    {
      DrivesSelf(cfg, W());
      if oid in root.live {
        var moved := root.QuarantinePath(oid, ObsPart(oid) + "-orphaned-task.ms");
        if moved.Ok? {
          Took(old(W()), old(W()), Step.Tick(SweepQuarantine(oid, moved.value)));
        }
      }
      ghost var w := W();
      var r := store.TransitionObservation(oid, Observing, ObserveFailed, None, Some(0));
      Took(old(W()), w, Step.Tick(SweepFailObs(oid, oid in w.fs.live)));
    }

    method SweepIfOrphaned(oid: nat) returns (ghost excused: set<nat>)
      requires Idle(C()) && IsObs(store.Value(), oid, Observing)
      modifies store, root
      ensures Drives(cfg, old(W()), W())
      ensures SweptBy(old(store.Value()), old(root.Value()), store.Value(), root.Value(), oid, obsTasks.Keys, excused)
      ensures |excused| <= root.mishaps - old(root.mishaps)
    {
      DrivesSelf(cfg, W());
      excused := {};
      if oid !in obsTasks {
        SweepObservation(oid);
        FailingRunsNothing(old(store.Value()), oid);
        excused := if oid in root.live then {oid} else {};
        if oid !in root.live && oid in old(root.live) {
          SweptOne(old(root.Value()), root.Value(), oid);
        }
      }
    }

    method SweepObservations() returns (ghost left: set<nat>)
      requires Idle(C())
      modifies store, root
      ensures Drives(cfg, old(W()), W())
      ensures SweptAll(old(store.Value()), old(root.Value()), store.Value(), root.Value(), obsTasks.Keys, left)
      ensures |left| <= root.mishaps - old(root.mishaps)
    {
      left := {};
      DrivesSelf(cfg, W());
      var ids := store.ListObservations(Observing);
      NothingSwept(store.Value(), root.Value(), obsTasks.Keys);
      for i := 0 to |ids|
        invariant Drives(cfg, old(W()), W())
        invariant Swept(old(store.Value()), old(root.Value()), store.Value(), root.Value(), ids[..i], obsTasks.Keys, left)
        invariant |left| <= root.mishaps - old(root.mishaps)
      {
        ghost var w := W();
        NotYetSwept(old(store.obs), store.obs, ids, i, obsTasks.Keys);
        ghost var excused := SweepIfOrphaned(ids[i]);
        DrivesFurther(cfg, old(W()), w, W());
        SweptFurther(old(store.Value()), old(root.Value()), w.db, w.fs, store.Value(), root.Value(), ids, i, obsTasks.Keys, left, excused);
        UnionSmall(left, excused);
        left := left + excused;
      }
      AllSwept(old(store.Value()), old(root.Value()), store.Value(), root.Value(), ids, obsTasks.Keys, left);
    }

    method SweepRuns()
      requires Idle(C())
      modifies store
      ensures Drives(cfg, old(W()), W())
      ensures store.obs == old(store.obs) && SameExecutions(old(store.log), store.log)
      ensures SweptRuns(old(store.runs), store.runs, runTasks.Keys)
    {
      DrivesSelf(cfg, W());
      var ids := store.ListRuns(Running);
      for i := 0 to |ids|
        invariant Drives(cfg, old(W()), W())
        invariant store.obs == old(store.obs) && SameExecutions(old(store.log), store.log)
        invariant |store.runs| == |old(store.runs)|
        invariant forall r :: 0 <= r < |store.runs| ==>
          store.runs[r] ==
            if r in ids[..i] && r !in runTasks then old(store.runs)[r].(state := Failed) else old(store.runs)[r]
      {
        var rid := ids[i];
        assert ids[..i + 1] == ids[..i] + [rid] && rid in ids;
        if rid !in runTasks {
          ghost var w := W();
          assert IsRun(w.db, rid, Running);
          var r := store.TransitionRun(rid, Running, Failed);
          Took(old(W()), w, Step.Tick(SweepFailRun(rid)));
          FailingExecutesNothing(w.db, rid);
        }
      }
      assert ids[..|ids|] == ids;
    }

    /**
     * Rows that claim a worker which does not exist are failed, and no others. Data of such a row that
     * stays where it was cost a failed move; all that goes, goes to quarantine unchanged.
     */
    method SweepOrphanedInprocessStates() returns (ghost left: set<nat>)
      requires Idle(C())
      modifies store, root, this`swept
      ensures Drives(cfg, old(W()), W())
      ensures swept && NoOrphans(store.Value(), C())
      ensures SweptRows(old(store.obs), store.obs, obsTasks.Keys) && SweptRuns(old(store.runs), store.runs, runTasks.Keys)
      ensures SameExecutions(old(store.log), store.log) && root.products == old(root.products)
      ensures |left| <= root.mishaps - old(root.mishaps)
      ensures forall o: nat :: IsObs(old(store.Value()), o, Observing) && o in root.live ==> o in obsTasks || o in left
      ensures forall o: nat :: o in old(root.live) && o !in root.live ==>
        IsObs(old(store.Value()), o, Observing) && o !in obsTasks && SweptAside(old(root.Value()), root.Value(), o)
      ensures Conserves(old(root.Value()), root.Value())
    {
      left := SweepObservations();
      ghost var w := W();
      SweepRuns();
      DrivesFurther(cfg, old(W()), w, W());
      SweptTwice(old(store.log), w.db.log, store.log);
      SweptIsOrderly(old(store.Value()), store.Value(), C());
      w := W();
      EndSweep();
      DrivesFurther(cfg, old(W()), w, W());
      DrivesConserves(cfg, old(W()), W());
    }

    method EndSweep()
      requires Idle(C()) && NoOrphans(store.Value(), C())
      modifies this`swept
      ensures Drives(cfg, old(W()), W()) && swept
    {
      swept := true;
      Took(old(W()), old(W()), Step.Tick(SweepDone));
    }

    // ----------------------------------------------------------------- the retries

    method RemoveOldProducts(rid: nat) returns (removed: bool)
      requires rid in retry && rid < |store.runs|
      modifies root`products, root`mishaps
      ensures Drives(cfg, old(W()), W())
      ensures OnlyThese(old(root.products), root.products, {store.runs[rid].dir})
      ensures removed ==> store.runs[rid].dir !in root.products
      ensures root.mishaps == old(root.mishaps) + if removed then 0 else 1
    {
      DrivesSelf(cfg, W());
      var dir := store.runs[rid].dir;
      var existed := dir in root.products;
      var left := root.RemoveProducts(dir);
      if existed {
        Took(old(W()), old(W()), Step.Tick(RetryClean(rid, left)));
      }
      return left.None?;
    }

    /**
     * One listed failure: its old products go and it is queued again, or its budget is declared spent.
     * When another process has superseded or discarded it since it was listed, the row stays as it is.
     */
    method RetryRun(rid: nat)
      requires rid in retry && rid < |store.runs|
      modifies store, root`products, root`mishaps, this`retry
      ensures Drives(cfg, old(W()), W())
      ensures retry == old(retry) - {rid}
      ensures store.Value() ==
        After(old(store.Value()),
          if root.mishaps == old(root.mishaps) then MoveRun(rid, Failed, Queued) else MarkRunExhausted(rid))
      ensures OnlyThese(old(root.products), root.products, {old(store.runs)[rid].dir})
      ensures root.mishaps == old(root.mishaps) ==> old(store.runs)[rid].dir !in root.products
      ensures old(root.mishaps) <= root.mishaps <= old(root.mishaps) + 1
    {
      var removed := RemoveOldProducts(rid);
      ghost var w := W();
      retry := retry - {rid};
      if !removed {
        store.MarkRunRetryExhausted(rid);
        Took(old(W()), w, Step.Tick(RetryBlocked(rid)));
      } else {
        var r := store.TransitionRun(rid, Failed, Queued);
        Took(old(W()), w, Step.Tick(RetryRequeue(rid)));
      }
    }

    /** Marks exhausted failures and lists the others. */
    method ListRetries() returns (ids: seq<nat>)
      requires Ticking(C()) && Chains(store.Value())
      modifies store, this`retry
      ensures Drives(cfg, old(W()), W())
      ensures store.obs == old(store.obs) && IdleFailuresIn(store.Value(), ids) && StillListed(store.Value(), ids, retry)
      ensures ListedForRetry(old(store.Value()), store.Value(), retry, cfg.attempts)
    {
      ghost var db := store.Value();
      var spent := store.MarkExhaustedFailedRuns(cfg.attempts);
      Took(old(W()), old(W()), Step.Tick(MarkSpent));
      ids := store.ListRetryableFailedRuns(cfg.attempts);
      MarkedFailuresListed(cfg, db, ids);
      MarkingLists(cfg, db);
      ghost var w := W();
      retry := RetryList(cfg, store.Value());
      Took(old(W()), w, Step.Tick(ListRetryable));
    }

    method RetryFirst(ids: seq<nat>) returns (rest: seq<nat>, ghost blocked: set<nat>)
      requires ids != [] && IdleFailuresIn(store.Value(), ids) && StillListed(store.Value(), ids, retry)
      modifies store, root`products, root`mishaps, this`retry
      ensures Drives(cfg, old(W()), W())
      ensures store.obs == old(store.obs) && retry == old(retry) - {ids[0]}
      ensures rest == ids[1..] && IdleFailuresIn(store.Value(), rest) && StillListed(store.Value(), rest, retry)
      ensures RetriedOne(old(store.Value()), old(root.products), store.Value(), root.products, ids[0], blocked)
      ensures |blocked| == root.mishaps - old(root.mishaps)
    {
      assert IsRun(store.Value(), ids[0], Failed) && ids[0] in retry;
      RetryRun(ids[0]);
      blocked := if root.mishaps == old(root.mishaps) then {} else {ids[0]};
      RetriedFirst(old(store.Value()), store.Value(), ids, old(retry));
      OneRetried(old(store.Value()), old(root.products), store.Value(), root.products, ids[0], blocked);
      rest := ids[1..];
    }

    method RetryListed(listed: seq<nat>) returns (ghost blocked: set<nat>)
      requires IdleFailuresIn(store.Value(), listed) && StillListed(store.Value(), listed, retry)
      modifies store, root`products, root`mishaps, this`retry
      ensures Drives(cfg, old(W()), W())
      ensures retry == {} && store.obs == old(store.obs) && NoIdleFailure(store.Value())
      ensures RetriedSoFar(old(store.Value()), old(root.products), store.Value(), root.products, old(retry), {}, blocked)
      ensures |blocked| <= root.mishaps - old(root.mishaps)
    {
      var ids := listed;
      blocked := {};
      DrivesSelf(cfg, W());
      NothingRetried(store.Value(), root.products, retry);
      while ids != []
        invariant Drives(cfg, old(W()), W())
        invariant store.obs == old(store.obs) && retry <= old(retry)
        invariant IdleFailuresIn(store.Value(), ids) && StillListed(store.Value(), ids, retry)
        invariant RetriedSoFar(old(store.Value()), old(root.products), store.Value(), root.products, old(retry), retry, blocked)
        invariant |blocked| <= root.mishaps - old(root.mishaps)
        decreases |ids|
      {
        ghost var w, rid := W(), ids[0];
        ghost var newly;
        ids, newly := RetryFirst(ids);
        DrivesFurther(cfg, old(W()), w, W());
        RetriedOneMore(old(store.Value()), old(root.products), w.db, w.fs.products, store.Value(), root.products,
          old(retry), w.ctl.retry, blocked, rid, newly);
        UnionSmall(blocked, newly);
        blocked := blocked + newly;
      }
    }

    /**
     * Retries what still has budget. Of the failures that were not marked: one whose budget is spent is
     * marked; one of a stored observation with an execution left is queued again, its products removed,
     * unless their removal failed, which marks it. No other row and no other products change, and no
     * stored observation is left with an idle failure.
     */
    method RetryFailedRuns() returns (ghost blocked: set<nat>)
      requires Ticking(C()) && Chains(store.Value())
      modifies store, root`products, root`mishaps, this`retry
      ensures Drives(cfg, old(W()), W())
      ensures retry == {} && NoIdleFailure(store.Value())
      ensures Retried(old(store.Value()), old(root.products), store.Value(), root.products, cfg.attempts, blocked)
      ensures |blocked| <= root.mishaps - old(root.mishaps)
    {
      var ids := ListRetries();
      ghost var w := W();
      blocked := RetryListed(ids);
      DrivesFurther(cfg, old(W()), w, W());
      AllRetried(old(store.Value()), w.db, old(root.products), store.Value(), root.products, cfg.attempts, w.ctl.retry, blocked);
    }

    // --------------------------------------------------------------- the admission

    /** Workers for planned observations that have none. */
    method ResumePlannedObservations()
      requires Ticking(C())
      modifies this`obsTasks
      ensures Drives(cfg, old(W()), W())
      ensures PlannedTracked(store.Value(), C())
      ensures WorkersAdded(store.Value(), old(obsTasks), obsTasks)
    {
      DrivesSelf(cfg, W());
      var ids := store.ListObservations(Planned);
      for i := 0 to |ids|
        invariant Drives(cfg, old(W()), W())
        invariant forall k :: 0 <= k < i ==> ids[k] in obsTasks
        invariant WorkersAdded(store.Value(), old(obsTasks), obsTasks)
      {
        var oid := ids[i];
        assert oid in ids;
        if oid !in obsTasks {
          ghost var w := W();
          obsTasks := obsTasks[oid := Fresh];
          Took(old(W()), w, Step.Tick(ResumePlanned(oid)));
        }
      }
      forall o: nat | IsObs(store.Value(), o, Planned) ensures o in obsTasks {
        assert o in ids;
      }
    }

    /** What is charged: rows, then the cached or walked sizes; all of it, and nothing twice, when a usable cache is true. */
    method ChargedBytes() returns (total: nat)
      modifies root`cache
      ensures var e := Answer(old(root.Value()), old(root.cache));
        total == LogicalBytes(store.Value()) + e.quarantine + e.trash && root.cache == Some(e)
      ensures Accounts(cfg, store.Value()) && CacheTells(old(root.Value()), old(root.cache)) ==>
        total == AllSizes(store.obs) + AllReservations(store.obs) + Total(root.quarantine) + Total(root.trash)
    {
      if Accounts(cfg, store.Value()) {
        NothingUncharged(cfg, store.Value());
      }
      var used, reserved := store.LogicalStorage();
      var quarantine, trash := root.AuxiliaryChargedStorage(false);
      total := used + reserved + quarantine + trash;
    }

    /** The admission test: what is charged and the new reservation against the threshold. */
    method CanAdmit() returns (fits: bool)
      requires Ticking(C()) && NoneActive(store.Value()) && HasCapacity(cfg, store.Value())
      modifies this`admission, root`cache
      ensures Drives(cfg, old(W()), W())
      ensures admission.Charged? && (fits <==> admission.total + cfg.reservation <= cfg.threshold)
      ensures fits <==> Admits(cfg, old(store.Value()), old(root.Value()), old(root.cache))
      ensures Accounts(cfg, store.Value()) && CacheTells(old(root.Value()), old(root.cache)) ==>
        admission.total == AllSizes(store.obs) + AllReservations(store.obs) + Total(root.quarantine) + Total(root.trash)
    {
      var charged := ChargedBytes();
      fits := charged + cfg.reservation <= cfg.threshold;
      admission := Charged(charged);
      ghost var steps := TestsAdmission(cfg, old(W()));
      OnlyAdmitsAreOwn(steps);
      assert W() == Measured(old(W()), LogicalBytes(old(W()).db));
    }

    /** The admitted observation gets its row and its worker. */
    method NewObservation()
      requires admission.Charged? && admission.total + cfg.reservation <= cfg.threshold
      requires retry == {} && swept && |store.obs| !in obsTasks
      modifies store, this`admission, this`obsTasks
      ensures Drives(cfg, old(W()), W()) && admission.NotAdmitting?
      ensures store.Value() == CreatedObs(old(store.Value()), cfg.reservation)
      ensures obsTasks == old(obsTasks)[|old(store.obs)| := Fresh]
    {
      var oid := store.CreateObservation(cfg.reservation);
      admission := NotAdmitting;
      Took(old(W()), old(W()), Admit(AdmitInsert));
      ghost var w := W();
      obsTasks := obsTasks[oid := Fresh];
      Took(old(W()), w, Step.Tick(ResumePlanned(oid)));
    }

    /** Whether an observation is planned or under way. */
    method ObservationActive() returns (active: bool)
      ensures active <==> !NoneActive(store.Value())
    {
      var observing := store.ListObservations(Observing);
      var planned := store.ListObservations(Planned);
      NoneActiveListed(store.Value(), observing, planned);
      active := observing != [] || planned != [];
    }

    /** At most one observation is under way; the next one is planned, and its worker created, when everything fits. */
    method AdmitObservation()
      requires Ticking(C()) && |store.obs| !in obsTasks
      modifies store, this`admission, this`obsTasks, root`cache
      ensures Drives(cfg, old(W()), W()) && admission.NotAdmitting?
      ensures store.Value() ==
        if Admits(cfg, old(store.Value()), old(root.Value()), old(root.cache))
        then CreatedObs(old(store.Value()), cfg.reservation) else old(store.Value())
      ensures obsTasks ==
        if Admits(cfg, old(store.Value()), old(root.Value()), old(root.cache))
        then old(obsTasks)[|old(store.obs)| := Fresh] else old(obsTasks)
      ensures Accounts(cfg, old(store.Value())) && CacheTells(old(root.Value()), old(root.cache)) ==>
        (|store.obs| > |old(store.obs)| <==>
          && NoneActive(old(store.Value())) && HasCapacity(cfg, old(store.Value()))
          && AllSizes(old(store.obs)) + AllReservations(old(store.obs)) + Total(root.quarantine) + Total(root.trash)
               + cfg.reservation <= cfg.threshold)
    {
      if Accounts(cfg, store.Value()) && CacheTells(root.Value(), root.cache) {
        AdmitsWhatFits(cfg, store.Value(), root.Value(), root.cache);
      }
      DrivesSelf(cfg, W());
      var active := ObservationActive();
      if !active && (cfg.maxObs.None? || |store.obs| < cfg.maxObs.value) {
        var fits := CanAdmit();
        ghost var w := W();
        if fits {
          NewObservation();
          DrivesFurther(cfg, old(W()), w, W());
        } else {
          admission := NotAdmitting;
          Took(old(W()), w, Admit(AdmitRefuse));
        }
      }
    }

    // --------------------------------------------------------- runs and their workers

    method CreateFirstRun(ids: seq<nat>)
      requires Ticking(C()) && ids != [] && RunlessListed(store.Value(), ids)
      modifies store
      ensures Drives(cfg, old(W()), W())
      ensures store.obs == old(store.obs) && RunlessListed(store.Value(), ids[1..])
      ensures NoIdleFailure(old(store.Value())) ==> NoIdleFailure(store.Value())
      ensures |store.runs| == |old(store.runs)| + 1
      ensures store.runs == old(store.runs) + [store.runs[|old(store.runs)|]]
      ensures IsFirstRun(store.runs[|old(store.runs)|], ids[0])
    {
      assert NeedsRun(store.Value(), ids[0]);
      FirstAttempt(store.Value(), ids[0]);
      FirstRunCreated(store.Value(), ids, RunDir(ids[0], 1));
      RunDirSays(ids[0], 1);
      var r := store.InsertRun(ids[0], RunDir(ids[0], 1));
      Took(old(W()), old(W()), Step.Tick(FirstRun(ids[0])));
    }

    /** Initial runs for stored observations that have none: one each, the first attempt, in a directory of its own name. */
    method CreateInitialRuns()
      requires Ticking(C())
      modifies store
      ensures Drives(cfg, old(W()), W())
      ensures store.obs == old(store.obs) && AllHaveRuns(store.Value())
      ensures NoIdleFailure(old(store.Value())) ==> NoIdleFailure(store.Value())
      ensures FirstRunsAdded(old(store.Value()), store.runs)
    {
      DrivesSelf(cfg, W());
      var ids := store.ListStoredWithoutRuns();
      ghost var all := ids;
      while ids != []
        invariant Drives(cfg, old(W()), W())
        invariant store.obs == old(store.obs) && RunlessListed(store.Value(), ids)
        invariant NoIdleFailure(old(store.Value())) ==> NoIdleFailure(store.Value())
        invariant FirstRunsSoFar(old(store.runs), store.runs, all, ids)
        decreases |ids|
      {
        ghost var w := W();
        CreateFirstRun(ids);
        DrivesFurther(cfg, old(W()), w, W());
        FirstRunsFurther(old(store.runs), w.db.runs, store.runs[|w.db.runs|], all, ids);
        ids := ids[1..];
      }
      FirstRunsDone(old(store.Value()), store.runs, all);
    }

    /** Workers for queued runs that have none. */
    method TrackQueuedRuns()
      requires Ticking(C())
      modifies this`runTasks
      ensures Drives(cfg, old(W()), W())
      ensures AllQueuedTracked(store.Value(), C()) && Held() == old(Held())
      ensures WaitersAdded(store.Value(), old(runTasks), runTasks)
    {
      DrivesSelf(cfg, W());
      var ids := store.ListRuns(Queued);
      for i := 0 to |ids|
        invariant Drives(cfg, old(W()), W())
        invariant forall k :: 0 <= k < i ==> ids[k] in runTasks
        invariant WaitersAdded(store.Value(), old(runTasks), runTasks)
      {
        var rid := ids[i];
        assert rid in ids;
        if rid !in runTasks {
          ghost var w := W();
          runTasks := runTasks[rid := Waiting];
          Took(old(W()), w, Step.Tick(TrackRun(rid)));
        }
      }
      forall r: nat | r < |store.runs| && store.runs[r].state.Queued? ensures r in runTasks {
        assert r in ids;
      }
      assert Held() == old(Held());
    }

    // ------------------------------------------------------------------- the tick

    /** Failed work is swept and retried. */
    method TickFailures() returns (ghost blocked: set<nat>)
      requires ValidConfig(cfg) && Inv(cfg, W()) && Idle(C())
      modifies store, root, this`swept, this`retry
      ensures Drives(cfg, old(W()), W())
      ensures Ticking(C()) && NoIdleFailure(store.Value())
      ensures SweptRows(old(store.obs), store.obs, obsTasks.Keys)
      ensures Resolved(old(store.Value()), store.runs, runTasks.Keys, cfg.attempts, blocked)
      ensures |blocked| <= root.mishaps - old(root.mishaps)
    {
      ghost var left := SweepOrphanedInprocessStates();
      ghost var w := W();
      assert Chains(store.Value()) by {
        DrivesReaches(cfg, old(W()), w);
        ReachesKeeps(cfg, old(W()), w);
      }
      blocked := RetryFailedRuns();
      DrivesFurther(cfg, old(W()), w, W());
      SweptThenRetried(cfg, old(W()), w, W(), blocked);
    }

    /** New observations are resumed or admitted. */
    method TickObservations()
      requires TasksOk(store.Value(), C()) && Ticking(C())
      modifies store, this`admission, this`obsTasks, root`cache
      ensures Drives(cfg, old(W()), W())
      ensures Ticking(C()) && PlannedTracked(store.Value(), C())
      ensures store.Value() ==
        if Admits(cfg, old(store.Value()), old(root.Value()), old(root.cache))
        then CreatedObs(old(store.Value()), cfg.reservation) else old(store.Value())
    {
      TaskedHaveRows(store.Value(), C());
      ResumePlannedObservations();
      ghost var w := W();
      AdmitObservation();
      DrivesFurther(cfg, old(W()), w, W());
    }

    /** Stored observations get their runs, queued runs their workers. */
    method TickRuns()
      requires Ticking(C())
      modifies store, this`runTasks
      ensures Drives(cfg, old(W()), W())
      ensures Ticking(C()) && Held() == old(Held()) && store.obs == old(store.obs)
      ensures AllHaveRuns(store.Value()) && AllQueuedTracked(store.Value(), C())
      ensures NoIdleFailure(old(store.Value())) ==> NoIdleFailure(store.Value())
      ensures FirstRunsAdded(old(store.Value()), store.runs)
    {
      CreateInitialRuns();
      ghost var w := W();
      TrackQueuedRuns();
      DrivesFurther(cfg, old(W()), w, W());
    }

    /** Everything before the runs; `settled` is the world the admission test finds. */
    method TickBeforeRuns() returns (ghost settled: World, ghost blocked: set<nat>)
      requires ValidConfig(cfg) && Inv(cfg, W()) && Idle(C())
      modifies store, root, this`swept, this`retry, this`admission, this`obsTasks
      ensures Drives(cfg, old(W()), settled) && Drives(cfg, old(W()), W()) && Inv(cfg, settled)
      ensures Ticking(C()) && NoIdleFailure(store.Value()) && PlannedTracked(store.Value(), C())
      ensures NoIdleFailure(settled.db) && NoOrphans(settled.db, settled.ctl)
      ensures SweptRows(old(store.obs), settled.db.obs, old(obsTasks).Keys)
      ensures Resolved(old(store.Value()), store.runs, runTasks.Keys, cfg.attempts, blocked)
      ensures |blocked| <= root.mishaps - old(root.mishaps)
      ensures store.obs ==
        if Admits(cfg, settled.db, settled.fs, settled.ctl.cache)
        then settled.db.obs + [ObsRow(Planned, 0, cfg.reservation)] else settled.db.obs
    {
      blocked := TickFailures();
      settled := W();
      assert Inv(cfg, settled) by {
        DrivesReaches(cfg, old(W()), settled);
        ReachesKeeps(cfg, old(W()), settled);
      }
      TickObservations();
      DrivesFurther(cfg, old(W()), settled, W());
      PlannedFailsNothing(settled.db, store.Value(), cfg.reservation);
    }

    /**
     * One tick, with no operator at work during it: a path of the controller's own steps after which no
     * stored observation is stranded and every planned one has its worker. Failures are resolved as their
     * budget says. No raw byte is made or lost. In the world left by the sweep and the retries, `settled`, an
     * observation is planned if and only if none is active, the campaign has room, and its reservation
     * fits: where rows, files and cache agree, beside the raw bytes on disk when the tick began, those in
     * trash counted twice.
     */
    method Tick() returns (ghost settled: World, ghost blocked: set<nat>)
      requires ValidConfig(cfg) && Inv(cfg, W()) && Idle(C()) && Valid()
      modifies this, store, root
      ensures Drives(cfg, old(W()), settled) && Drives(cfg, old(W()), W())
      ensures Ticking(C()) && Valid() && procs == old(procs)
      ensures NothingStranded(store.Value(), C()) && PlannedTracked(store.Value(), C())
      ensures NoIdleFailure(settled.db) && NoOrphans(settled.db, settled.ctl)
      ensures SweptRows(old(store.obs), settled.db.obs, old(obsTasks).Keys)
      ensures store.obs ==
        if Admits(cfg, settled.db, settled.fs, settled.ctl.cache)
        then settled.db.obs + [ObsRow(Planned, 0, cfg.reservation)] else settled.db.obs
      ensures Truthful(settled) ==>
        (|store.obs| > |settled.db.obs| <==>
          && NoneActive(settled.db) && HasCapacity(cfg, settled.db)
          && Disk.Physical(old(root.Value())) + Total(old(root.trash)) + cfg.reservation <= cfg.threshold)
      ensures |store.runs| >= |old(store.runs)|
      ensures root.mishaps == old(root.mishaps) ==>
        forall r | 0 <= r < |old(store.runs)| && old(store.runs)[r].state.Failed? && !old(store.runs)[r].exhausted
                && IsObs(old(store.Value()), old(store.runs)[r].oid, Stored) && Executions(old(store.log), r) < cfg.attempts ::
          store.runs[r].state.Queued?
      ensures Resolved(old(store.Value()), store.runs[..|old(store.runs)|], old(runTasks).Keys, cfg.attempts, blocked)
      ensures forall r :: |old(store.runs)| <= r < |store.runs| ==>
        IsObs(store.Value(), store.runs[r].oid, Stored) && IsFirstRun(store.runs[r], store.runs[r].oid)
      ensures |blocked| <= root.mishaps - old(root.mishaps)
      ensures Conserves(old(root.Value()), root.Value())
    {
      settled, blocked := TickBeforeRuns();
      ghost var w := W();
      TickRuns();
      DrivesFurther(cfg, old(W()), w, W());
      TickStrandsNothing(cfg, old(W()), W());
      DrivesConserves(cfg, old(W()), W());
      assert store.runs[..|old(store.runs)|] == w.db.runs;
      PlannedWhenFits(cfg, old(root.Value()), old(W()), settled);
      if root.mishaps == old(root.mishaps) {
        NoneBlocked(old(store.Value()), store.runs[..|old(store.runs)|], old(runTasks).Keys, cfg.attempts, blocked);
      }
    }

    // ------------------------------------------------------------ observation workers

    /** A worker's first action: the row is claimed and the runner started. */
    method ObserveBegin(oid: nat)
      requires TasksOk(store.Value(), C()) && Idle(C()) && ObsTaskIs(C(), oid, Fresh)
      modifies store, this`obsTasks
      ensures Drives(cfg, old(W()), W())
      ensures IsObs(old(store.Value()), oid, Planned)
      ensures store.Value() == MovedObs(old(store.Value()), oid, Observing, None, None)
      ensures obsTasks == old(obsTasks)[oid := Writing]
    {
      assert ObsTaskOk(store.Value(), C(), oid);
      var r := store.TransitionObservation(oid, Planned, Observing, None, None);
      obsTasks := obsTasks[oid := Writing];
      Took(old(W()), old(W()), Work(ObsBegin(oid)));
    }

    method MoveAside(oid: nat, why: string) returns (moved: bool)
      requires Idle(C()) && ObsTaskIs(C(), oid, Ended(false)) && oid in root.live
      modifies root
      ensures Drives(cfg, old(W()), W())
      ensures !moved ==> root.Value() == old(root.Value()) && root.cache == old(root.cache)
      ensures root.mishaps == old(root.mishaps) + if moved then 0 else 1
      ensures moved ==> SetAsideAs(old(root.Value()), root.Value(), oid, ObsPart(oid) + why)
    {
      DrivesSelf(cfg, W());
      var r := root.QuarantinePath(oid, ObsPart(oid) + why);
      if r.Ok? {
        Took(old(W()), old(W()), Work(ObsQuarantine(oid, r.value)));
      }
      return r.Ok?;
    }

    /**
     * Moves what was written to quarantine, under the reason the runner was stopped for if there is one;
     * when there is none, or that move fails, the exception path tries and gives up silently.
     */
    method SetAside(oid: nat, reason: Option<string>)
      requires Idle(C()) && ObsTaskIs(C(), oid, Ended(false))
      modifies root
      ensures Drives(cfg, old(W()), W())
      ensures root.mishaps >= old(root.mishaps)
      ensures Disposed(old(root.Value()), root.Value(), oid, reason, root.mishaps - old(root.mishaps))
    {
      DrivesSelf(cfg, W());
      if oid in root.live {
        var moved := false;
        if reason.Some? {
          moved := MoveAside(oid, reason.value);
        }
        if !moved {
          moved := MoveAside(oid, "-exception.ms");
        }
      }
    }

    /** The failing end of an observation whose runner is gone: the row fails whether or not its data could be set aside. */
    method EndInFailure(oid: nat, reason: Option<string>)
      requires Idle(C()) && ObsTaskIs(C(), oid, Ended(false)) && IsObs(store.Value(), oid, Observing)
      modifies store, root, this`obsTasks
      ensures Drives(cfg, old(W()), W())
      ensures store.Value() == MovedObs(old(store.Value()), oid, ObserveFailed, None, Some(0))
      ensures obsTasks == old(obsTasks) - {oid}
      ensures root.mishaps >= old(root.mishaps)
      ensures Disposed(old(root.Value()), root.Value(), oid, reason, root.mishaps - old(root.mishaps))
    {
      SetAside(oid, reason);
      ghost var w := W();
      var r := store.TransitionObservation(oid, Observing, ObserveFailed, None, Some(0));
      obsTasks := obsTasks - {oid};
      Took(old(W()), w, Work(ObsFail(oid, oid in w.fs.live)));
    }

    /** The runner has been stopped or has failed. */
    method StopAndFail(oid: nat, reason: Option<string>)
      requires Idle(C()) && ObsTaskIs(C(), oid, Writing) && IsObs(store.Value(), oid, Observing)
      modifies store, root, this`obsTasks
      ensures Drives(cfg, old(W()), W())
      ensures store.Value() == MovedObs(old(store.Value()), oid, ObserveFailed, None, Some(0))
      ensures obsTasks == old(obsTasks) - {oid}
      ensures root.mishaps >= old(root.mishaps)
      ensures Disposed(old(root.Value()), root.Value(), oid, reason, root.mishaps - old(root.mishaps))
    {
      obsTasks := obsTasks[oid := Ended(false)];
      Took(old(W()), old(W()), Work(ObsEnd(oid, false)));
      ghost var w := W();
      EndInFailure(oid, reason);
      DrivesFurther(cfg, old(W()), w, W());
      assert old(obsTasks)[oid := Ended(false)] - {oid} == old(obsTasks) - {oid};
    }

    /** One look of the watchdog at a growing measurement set: over the reservation it stops the runner, or warns once. */
    method Watchdog(oid: nat, warned: bool) returns (stopped: bool, warning: bool)
      requires Idle(C()) && ObsTaskIs(C(), oid, Writing) && IsObs(store.Value(), oid, Observing)
      modifies store, root, this`obsTasks
      ensures Drives(cfg, old(W()), W())
      ensures var over := Bytes(old(root.live), oid) > cfg.reservation;
        && (stopped <==> over && cfg.abortOnOverrun)
        && (warning <==> warned || (over && !cfg.abortOnOverrun))
        && (stopped ==>
              && store.Value() == MovedObs(old(store.Value()), oid, ObserveFailed, None, Some(0))
              && obsTasks == old(obsTasks) - {oid} && root.mishaps >= old(root.mishaps)
              && Disposed(old(root.Value()), root.Value(), oid, Some("-reservation-overrun.ms"), root.mishaps - old(root.mishaps)))
        && (!stopped ==> root.Value() == old(root.Value()) && root.mishaps == old(root.mishaps) && obsTasks == old(obsTasks))
        && (!stopped && warning == warned ==> store.Value() == old(store.Value()))
        && (!stopped && warning != warned ==> store.Value() == After(old(store.Value()), NoteObs(oid)))
    {
      stopped, warning := false, warned;
      DrivesSelf(cfg, W());
      var size := if oid in root.live then root.live[oid] else 0;
      if size > cfg.reservation {
        if cfg.abortOnOverrun {
          stopped := true;
          StopAndFail(oid, Some("-reservation-overrun.ms"));
        } else if !warned {
          warning := true;
          store.RecordObsEvent(oid);
          Took(old(W()), old(W()), Remark(NoteObs(oid)));
        }
      }
    }

    /** The successful end: the row is stored with the measured size and gives its reservation back. */
    method EndInSuccess(oid: nat, actual: nat)
      requires Idle(C()) && ObsTaskIs(C(), oid, Writing) && IsObs(store.Value(), oid, Observing)
      requires actual == Bytes(root.live, oid) && (actual <= cfg.reservation || !cfg.abortOnOverrun)
      modifies store, this`obsTasks
      ensures Drives(cfg, old(W()), W())
      ensures store.Value() == MovedObs(old(store.Value()), oid, Stored, Some(actual), Some(0))
      ensures obsTasks == old(obsTasks) - {oid}
    {
      obsTasks := obsTasks[oid := Ended(true)];
      Took(old(W()), old(W()), Work(ObsEnd(oid, true)));
      ghost var w := W();
      var r := store.TransitionObservation(oid, Observing, Stored, Some(actual), Some(0));
      obsTasks := obsTasks - {oid};
      Took(old(W()), w, Work(ObsStore(oid)));
      assert old(obsTasks)[oid := Ended(true)] - {oid} == old(obsTasks) - {oid};
    }

    /** A completed overrun is noted when it is not aborted. */
    method NoteOverrun(oid: nat, actual: nat)
      modifies store
      ensures Drives(cfg, old(W()), W())
      ensures store.obs == old(store.obs) && store.runs == old(store.runs)
      ensures store.log == old(store.log) + if actual > cfg.reservation then [ObsNote(oid)] else []
    {
      DrivesSelf(cfg, W());
      if actual > cfg.reservation {
        store.RecordObsEvent(oid);
        Took(old(W()), old(W()), Remark(NoteObs(oid)));
      }
    }

    /** The runner returned: the observation is stored with its size, unless it failed or overran an aborting reservation. */
    method ObserveComplete(oid: nat, rc: int)
      requires Idle(C()) && ObsTaskIs(C(), oid, Writing) && IsObs(store.Value(), oid, Observing)
      modifies store, root, this`obsTasks
      ensures Drives(cfg, old(W()), W())
      ensures var size := Bytes(old(root.live), oid);
        if rc == 0 && (size <= cfg.reservation || !cfg.abortOnOverrun)
        then
          && store.obs == old(store.obs)[oid := ObsRow(Stored, size, 0)] && root.Value() == old(root.Value())
          && store.log == old(store.log) + (if size > cfg.reservation then [ObsNote(oid)] else [])
                          + [ObsMoved(oid, Observing, Stored)]
        else
          && store.obs == old(store.obs)[oid := ObsRow(ObserveFailed, old(store.obs)[oid].size, 0)]
          && store.log == old(store.log) + [ObsMoved(oid, Observing, ObserveFailed)]
          && root.mishaps >= old(root.mishaps)
          && Disposed(old(root.Value()), root.Value(), oid,
                      Some(if rc != 0 then "-failed.ms" else "-reservation-overrun.ms"), root.mishaps - old(root.mishaps))
      ensures obsTasks == old(obsTasks) - {oid} && store.runs == old(store.runs)
    {
      var actual := if oid in root.live then root.live[oid] else 0;
      if rc != 0 {
        StopAndFail(oid, Some("-failed.ms"));
      } else if actual > cfg.reservation && cfg.abortOnOverrun {
        StopAndFail(oid, Some("-reservation-overrun.ms"));
      } else {
        NoteOverrun(oid, actual);
        ghost var w := W();
        EndInSuccess(oid, actual);
        DrivesFurther(cfg, old(W()), w, W());
      }
    }

    /** The worker raised: the row fails from PLANNED or from OBSERVING; data that stays cost the one move that is tried. */
    method ObserveRaised(oid: nat)
      requires Idle(C()) && TasksOk(store.Value(), C())
      requires ObsTaskIs(C(), oid, Fresh) || ObsTaskIs(C(), oid, Writing)
      modifies store, root, this`obsTasks
      ensures Drives(cfg, old(W()), W())
      ensures store.obs == old(store.obs)[oid := ObsRow(ObserveFailed, old(store.obs)[oid].size, 0)]
      ensures obsTasks == old(obsTasks) - {oid} && store.runs == old(store.runs)
      ensures root.mishaps >= old(root.mishaps)
      ensures if old(obsTasks)[oid].Fresh? then root.Value() == old(root.Value())
        else Disposed(old(root.Value()), root.Value(), oid, None, root.mishaps - old(root.mishaps))
    {
      assert ObsTaskOk(store.Value(), C(), oid);
      if store.obs[oid].state.Planned? {
        var r := store.TransitionObservation(oid, Planned, ObserveFailed, None, Some(0));
        obsTasks := obsTasks - {oid};
        Took(old(W()), old(W()), Work(ObsFail(oid, false)));
      } else {
        StopAndFail(oid, None);
      }
    }

    // ------------------------------------------------------------- processing workers

    method Claim(rid: nat)
      requires Idle(C()) && RunTaskIs(C(), rid, Waiting) && |Held()| < cfg.parallel && IsRun(store.Value(), rid, Queued)
      modifies store, this`runTasks
      ensures Drives(cfg, old(W()), W())
      ensures store.Value() == MovedRun(old(store.Value()), rid, Running)
      ensures runTasks == old(runTasks)[rid := Holding]
    {
      assert Holders(C()) == Held();
      var r := store.TransitionRun(rid, Queued, Running);
      runTasks := runTasks[rid := Holding];
      Took(old(W()), old(W()), Work(RunClaim(rid)));
    }

    /** With a permit in hand the run is claimed before anything can fail, so that every execution costs budget. */
    method ProcessClaim(rid: nat)
      requires TasksOk(store.Value(), C()) && Idle(C()) && Valid() && RunTaskIs(C(), rid, Waiting) && permits > 0
      modifies store, this`runTasks, this`permits
      ensures Drives(cfg, old(W()), W()) && Valid()
      ensures IsRun(old(store.Value()), rid, Queued) && store.Value() == MovedRun(old(store.Value()), rid, Running)
      ensures runTasks == old(runTasks)[rid := Holding] && permits == old(permits) - 1
    {
      assert RunTaskOk(store.Value(), C(), rid);
      Claim(rid);
      permits := permits - 1;
      assert Held() == old(Held()) + {rid};
    }

    /** A worker ends and gives its permit back. */
    ghost method Released(rid: nat)
      requires rid in runTasks && Holding == runTasks[rid]
      ensures |(set r | r in runTasks - {rid} && (runTasks - {rid})[r].Holding?)| + 1 == |Held()|
    {
      assert (set r | r in runTasks - {rid} && (runTasks - {rid})[r].Holding?) == Held() - {rid};
    }

    /** The claimed run fails, and the permit is given back. */
    method EndRunInFailure(rid: nat)
      requires Idle(C()) && Valid() && RunTaskIs(C(), rid, Holding) && IsRun(store.Value(), rid, Running)
      modifies store, this`runTasks, this`permits
      ensures Drives(cfg, old(W()), W()) && Valid()
      ensures store.Value() == MovedRun(old(store.Value()), rid, Failed)
      ensures runTasks == old(runTasks) - {rid} && permits == old(permits) + 1
    {
      Released(rid);
      runTasks := runTasks - {rid};
      permits := permits + 1;
      var r := store.TransitionRun(rid, Running, Failed);
      Took(old(W()), old(W()), Work(RunFail(rid)));
    }

    /** The claimed run goes to quality assurance, and the permit is given back. */
    method Deliver(rid: nat)
      requires Idle(C()) && Valid() && RunTaskIs(C(), rid, Holding) && IsRun(store.Value(), rid, Running)
      requires DirOf(store.Value(), rid) in root.products
      modifies store, this`runTasks, this`permits
      ensures Drives(cfg, old(W()), W()) && Valid()
      ensures store.Value() == MovedRun(old(store.Value()), rid, AwaitingQa)
      ensures runTasks == old(runTasks) - {rid} && permits == old(permits) + 1
    {
      Released(rid);
      runTasks := runTasks - {rid};
      permits := permits + 1;
      var r := store.TransitionRun(rid, Running, AwaitingQa);
      Took(old(W()), old(W()), Work(RunDone(rid)));
    }

    /** A missing preview is worth a note and no failure. */
    method NoteMissingPreview(rid: nat, preview: bool)
      modifies store
      ensures Drives(cfg, old(W()), W())
      ensures store.obs == old(store.obs) && store.runs == old(store.runs)
      ensures store.log == old(store.log) + if preview then [] else [RunNote(rid)]
    {
      DrivesSelf(cfg, W());
      if !preview {
        store.RecordRunEvent(rid);
        Took(old(W()), old(W()), Remark(NoteRun(rid)));
      }
    }

    /** The image is there: the run awaits its verdict, with a note when there is no preview of it. */
    method EndRunInSuccess(rid: nat, preview: bool)
      requires Idle(C()) && Valid() && RunTaskIs(C(), rid, Holding) && IsRun(store.Value(), rid, Running)
      requires DirOf(store.Value(), rid) in root.products
      modifies store, this`runTasks, this`permits
      ensures Drives(cfg, old(W()), W()) && Valid()
      ensures store.obs == old(store.obs) && store.runs == old(store.runs)[rid := old(store.runs)[rid].(state := AwaitingQa)]
      ensures store.log == old(store.log) + (if preview then [] else [RunNote(rid)]) + [RunMoved(rid, Running, AwaitingQa)]
      ensures runTasks == old(runTasks) - {rid} && permits == old(permits) + 1
    {
      NoteMissingPreview(rid, preview);
      ghost var w := W();
      Deliver(rid);
      DrivesFurther(cfg, old(W()), w, W());
    }

    /** The runner returned: the run awaits its verdict when it succeeded and left its image, preview or not. */
    method ProcessComplete(rid: nat, rc: int, image: bool, preview: bool)
      requires Idle(C()) && Valid() && RunTaskIs(C(), rid, Holding) && IsRun(store.Value(), rid, Running)
      requires image ==> DirOf(store.Value(), rid) in root.products
      modifies store, this`runTasks, this`permits
      ensures Drives(cfg, old(W()), W()) && Valid()
      ensures store.obs == old(store.obs)
      ensures store.runs ==
        old(store.runs)[rid := old(store.runs)[rid].(state := if rc == 0 && image then AwaitingQa else Failed)]
      ensures store.log == old(store.log) +
        if rc == 0 && image then (if preview then [] else [RunNote(rid)]) + [RunMoved(rid, Running, AwaitingQa)]
        else [RunMoved(rid, Running, Failed)]
      ensures runTasks == old(runTasks) - {rid} && permits == old(permits) + 1
    {
      if rc != 0 || !image {
        EndRunInFailure(rid);
      } else {
        EndRunInSuccess(rid, preview);
      }
    }

    /** The worker raised: before its claim the run fails without having executed, after it the execution counts. */
    method ProcessRaised(rid: nat)
      requires TasksOk(store.Value(), C()) && Idle(C()) && Valid() && rid in runTasks
      modifies store, this`runTasks, this`permits
      ensures Drives(cfg, old(W()), W()) && Valid()
      ensures store.obs == old(store.obs) && rid < |old(store.runs)|
      ensures store.runs == old(store.runs)[rid := old(store.runs)[rid].(state := Failed)]
      ensures store.log == old(store.log) + [RunMoved(rid, if old(runTasks)[rid].Waiting? then Queued else Running, Failed)]
      ensures runTasks == old(runTasks) - {rid}
    {
      assert RunTaskOk(store.Value(), C(), rid);
      if store.runs[rid].state.Queued? {
        runTasks := runTasks - {rid};
        assert Held() == old(Held());
        var r := store.TransitionRun(rid, Queued, Failed);
        Took(old(W()), old(W()), Work(RunAbandon(rid)));
      } else {
        EndRunInFailure(rid);
      }
    }
  }
}
