# A verified model of the SDP mini control system

The program is a durable controller: a persisted store of observations and processing runs, a
scheduler that drives them, restart recovery, human quality assurance, and the deletion of raw
data through a trash directory. It may die at any point, and operator commands run in other
processes beside it. This project models that whole system and proves what it promises.

There are three views of it, and lemmas or contracts that tie them together.

1. **The program's own objects.** `ControlStore.Store`, `Storage.DataRoot` and
   `Scheduler.Scheduler` are classes whose fields are the tables, the directories and the worker
   tables; `Reconcile` and `Qa` hold the recovery passes and the operator commands that work on
   them. Each method is proved against a specification on values (`StoreSpec.Apply` for a
   transaction, functions on the files for the data root), loops included.
2. **A transition system** (`Protocol`). A world is the store, the files, the volatile state of
   the controller and any number of deletions in progress. A step is one transaction, one file
   operation, one read that is used later, or the death of a process. The scheduler's methods and
   the undisturbed deletion are proved to be stretches of such runs.
3. **Durable repairs** (`Recovery`). Startup recovery as a sequence of actions on rows and files,
   which the recovery method and the transition system's own recovery are both proved to follow.

Everything stated over `IsRunOf` holds in every world of every run: any number of observations,
runs, crashes, restarts, operators and concurrent deletions. The invariant behind it is
`Safety.Inv`; `SafetySteps.StepKeeps` proves it for each step, component by component.

## How to read the modules

| modules | what they hold |
|---|---|
| `Models`, `Naming`, `Totals` | states, transition tables, rows; padded names; byte totals of directories |
| `StoreSpec`, `History`, `Ledger` | transactions as functions, replay of the event log, what every history of transactions keeps |
| `Protocol`, `Safety`, `SafetySteps` | the transition system, its invariant, and that every step keeps it |
| `Disk`, `Leak`, `Capacity`, `Cache`, `Admitting`, `Charging` | bytes on disk, what a swallowed error costs, which campaigns are safe all the same, the cached sizes, the admission test, what it charges exactly |
| `Driving` | stretches of the controller's own steps, and that they lose no byte |
| `Guarantees`, `Endings`, `Race`, `Superseded` | deletion, processing, products and quarantine in every world of every run; how deletions end; the race of two deletions; products of superseded runs |
| `Progress`, `Budgets`, `Exhaustion` | bounds on state changes and executions, when a failure is given up |
| `Scenarios` | stretches of runs from the initial world, of which the counterexamples are made |
| `Recovery`, `RecoveryRuns`, `Completion`, `Reconcile` | repairs and their outcome, recovery inside runs, that it can always complete, the recovery method |
| `Sizing` | the walk of a tree of files |
| `ControlStore`, `Storage`, `Undisturbed`, `Qa`, `Scheduler` | the program's objects and commands |

## Reading of the program

- Row ids are counted from 0 (the database counts from 1). The path of a measurement set follows
  from its id and is not stored. A processing run's directory is stored and proved to be the one
  of its observation and attempt.
- A measurement set, a trash copy, a quarantine entry and a product directory are each one entry
  with a number of bytes (for products, some content). A tree under removal may be left in any
  part. A modification time is a counter that each change at the top level of quarantine or trash
  raises.
- Task tables hold the live tasks; a finished task is one that is not there.
- A runner is a writer that sets the size of its measurement set, or the content of its product
  directory, to any value at any time until it ends. When the controller dies its containers live on
  and go on writing until the next start has killed them.
- `Storage.DataRoot.Mishap` is the environment's choice that a file operation fails or that the
  process dies. A ghost counter of mishaps lets the contracts say what each failure may cost and no
  more: without a mishap every method does its whole work.
- A configuration satisfies the bounds its loader checks (`Models.ValidConfig`).

## What was found

- **A swallowed error costs disk safety.** Two failure paths release the reservation although the
  move to quarantine failed (`src/sdpctl/scheduler.py:78-89`, `src/sdpctl/scheduler.py:339-351`).
  The data left behind is charged by no row and removed by nothing, restart included
  (`Leak.LeakIsForGood`). Raw bytes then exceed the threshold by at most what was left behind and the
  worst single overrun of a writer (`Leak.BytesBounded`), and something is left behind if and
  only if such a failure had a file to move (`Leak.LeakIffSwallowed`). With writers that keep to their reservation, every run stays
  within the threshold if and only if the reservation is zero or the campaign is limited and
  `maxObs * reservation <= threshold` (`Capacity.SafeExactlyWhenCampaignFits`): a condition on the
  configuration alone. For every other configuration `Capacity.ThresholdPassed` gives a run.
- **Superseded products are not always retained.** `README.md:127` of the repository says they
  are. The products of a superseded run are kept in every continuation if and only if the retry loop
  does not have the run on its list (`Superseded.SupersededKeptExactlyWhen`), which is decided before
  the command is given (`Superseded.ReprocessingKeepsExactlyWhen`). What the list of items for a person
  shows is never on that list, so reprocessing only what is shown loses nothing
  (`Superseded.ReprocessingShownRunsKeeps`). When a failure may be retried at all, a run from the initial
  world loses them (`Superseded.SupersededProductsLost`). The model follows the code. Runs that
  reached quality assurance keep their products in every run (`Guarantees.ProductsSurvive`).
- **The "both copies exist" error can be raised although that state is unreachable.** It is raised
  exactly when another deletion of the observation renamed the data after this one's test for the live
  copy, and the trash copy is still there (`Race.BothCopiesExactlyByRace`); every campaign of at least
  one observation has such a run (`Race.BothCopiesHappens`). No data is lost by it, and the state itself
  never occurs (`Guarantees.NeverBothCopies`).
- **Overruns do not add up.** Under the `warn` policy, or between two looks of the watchdog, a writer may
  exceed its reservation. The next admission is charged with all it wrote (`Leak.ChargeIsConservative`), so
  the threshold is exceeded by one overrun at a time, however many observations overrun (`Disk.DiskSafety`).
- **Bytes in trash are charged twice.** A row counts as used until it is DELETED, and the walk counts its
  trash copy (`src/sdpctl/store.py:645-655`, `src/sdpctl/storage.py:63`). While a deletion is under way an
  observation that fits may wait; apart from that the charge is exact (`Charging.ChargeIsPhysical`,
  `Charging.PlansExactlyWhenFits`).
- **One edge of the table is never taken.** DELETING to INCONSISTENT is allowed
  (`src/sdpctl/models.py:31`), and no operation makes that move (`Progress.DeletingNeverInconsistent`).
- **The unguarded gap of the retry loop is harmless** (`Guarantees.RequeueGapHarmless`), and so is
  the repair of a STORED observation with an accepted run: that pair never occurs
  (`Guarantees.DeletionAuthorised`).

## Model

| member | source | states |
|---|---|---|
| `StoreSpec.LogGrows` | src/sdpctl/store.py:46-57 | a committed transaction only appends to the event log, and exactly the events its statement writes |
| `ControlStore.Store.CreateObservation` | src/sdpctl/store.py:132-139 | the new row is PLANNED with the reservation and the next id, and its creation is logged |
| `ControlStore.Store.TransitionObservation` | src/sdpctl/store.py:158-193 | an edge outside the table or a row not in the expected state leaves rows and log unchanged; otherwise state, size and reservation change as named and one event is logged |
| `ControlStore.Store.TransitionRun` | src/sdpctl/store.py:275-310 | the same guard for runs |
| `ControlStore.Store.InsertRun` | src/sdpctl/store.py:219-234 | the new run gets the next attempt number of its observation |
| `ControlStore.Store.ListObservations` | src/sdpctl/store.py:148-156 | exactly the ids in the state, in increasing order |
| `ControlStore.Store.ListRuns` | src/sdpctl/store.py:243-263 | exactly the ids in the state, in increasing order |
| `ControlStore.Store.ListHumanActionable` | src/sdpctl/store.py:265-273 | exactly the runs awaiting a verdict and the exhausted failures |
| `ControlStore.Store.ListStoredWithoutRuns` | src/sdpctl/store.py:456-470 | exactly the STORED observations no run belongs to |
| `ControlStore.Store.HasOtherActiveRuns` | src/sdpctl/store.py:319-327 | true if and only if a different run of the observation is queued, running or awaiting a verdict |
| `ControlStore.Store.HasActiveRuns` | src/sdpctl/store.py:329-337 | true if and only if a run of the observation is active |
| `ControlStore.Store.HasRunInState` | src/sdpctl/store.py:339-345 | true if and only if a run of the observation is in the state; asked for ACCEPTED |
| `ControlStore.Store.RunExecutionAttempts` | src/sdpctl/store.py:347-355 | the number of QUEUED to RUNNING events of the run |
| `ControlStore.Store.ObservationExecutionAttempts` | src/sdpctl/store.py:357-367 | the number of such events in the join of events and runs |
| `ControlStore.Store.MarkExhaustedFailedRuns` | src/sdpctl/store.py:369-398 | a run is marked and noted if and only if it was FAILED, unmarked and had executed at least as often as the budget; its rows and notes written out, in one transaction |
| `Exhaustion.ExhaustedMeansSpent` | src/sdpctl/store.py:380-412 | in every world of every run, a run is marked exhausted only when it executed exactly as often as the budget allows, or the removal of its old products failed at an earlier step |
| `Exhaustion.ExhaustedForEver` | src/sdpctl/store.py:400-454 | once marked, always marked, and it never executes again |
| `ControlStore.Store.MarkRunRetryExhausted` | src/sdpctl/store.py:400-412 | marks and notes one failure, or changes nothing |
| `ControlStore.Store.ListRetryableFailedRuns` | src/sdpctl/store.py:414-454 | exactly the unmarked failures of STORED observations with budget left and no active sibling |
| `ControlStore.Store.AcceptRunAndBeginDeletion` | src/sdpctl/store.py:472-527 | all checks and both row changes in one transaction, or an error and no change |
| `ControlStore.Store.ReprocessRunAndCreate` | src/sdpctl/store.py:529-589 | supersedes and creates the successor in one transaction, or an error and no change |
| `ControlStore.Store.DiscardFailedRunAndBeginDeletion` | src/sdpctl/store.py:591-643 | the same for a discarded failure |
| `ControlStore.Store.LogicalStorage` | src/sdpctl/store.py:645-655 | the two state-filtered sums |
| `ControlStore.Store.RecordObsEvent` | src/sdpctl/store.py:312-317 | appends a note, which carries no state |
| `ControlStore.Store.RecordRunEvent` | src/sdpctl/store.py:312-317 | the same for a run |
| `Ledger.ChainsKept` | src/sdpctl/store.py:529-589 | every transaction keeps each observation's attempts 1..n in creation order with all but the last superseded |
| `Ledger.OneLiveRun` | src/sdpctl/store.py:319-327 | of two runs of one observation one is superseded, and their attempts differ |
| `Ledger.NextAttemptIsFree` | src/sdpctl/store.py:578-583 | the uniqueness constraint never fires for the successor of the live run |
| `Ledger.TrackedKept` | src/sdpctl/store.py:472-643 | replaying the log gives every row's state, after every transaction including the three compound ones |
| `Ledger.BudgetKept` | src/sdpctl/store.py:369-454 | no run executes beyond its budget, a queued run has an execution left |
| `Ledger.AuthorisedKept` | src/sdpctl/store.py:472-527 | deletion needs a verdict, a verdict starts deletion, and only stored observations ever have runs |
| `Ledger.DeletingHasNoReader` | src/sdpctl/store.py:591-643 | while raw data is being deleted no run is active or failed |
| `Ledger.NothingUncharged` | src/sdpctl/store.py:645-655 | the filtered sums are the sums over all rows |
| `Ledger.DirsDistinct` | src/sdpctl/qa.py:46-49 | no two runs share an output directory |
| `History.DeletedEnteredOnce` | src/sdpctl/models.py:27-35 | a log that replays enters DELETED once when it ends there, and never otherwise |
| `Naming.PadInjective` | src/sdpctl/scheduler.py:331-332 | zero padding keeps different numbers different, also beyond the width |
| `Naming.RunDirInjective` | src/sdpctl/scheduler.py:330-333 | two product paths are equal only for the same observation and attempt |
| `Naming.RunDirSays` | src/sdpctl/qa.py:46-47 | the product path is `obs-`, the observation's number, `/run-`, the attempt's number, in this order, zero-padded to six and three digits and longer only when needed |
| `Naming.LabelSays` | src/sdpctl/scheduler.py:76-80 | a quarantine label names the observation, with at least six digits, and the reason |
| `Naming.CandidateSays` | src/sdpctl/storage.py:78-87 | the names tried are the label, then the label with a dot and a number of at least three digits |
| `Guarantees.DirsSayWhose` | src/sdpctl/qa.py:46-49 | in every world of every run, the directory in a run's row names its observation and its attempt |
| `Naming.CandidateInjective` | src/sdpctl/storage.py:78-87 | no quarantine name is tried twice |
| `Storage.ProbesBounded` | src/sdpctl/storage.py:78-87 | pigeonhole: the names found taken are no more than the entries |
| `Storage.DataRoot.UniqueQuarantineTarget` | src/sdpctl/storage.py:78-87 | ends within one probe more than there are entries, with a free name |
| `Sizing.ApparentSize` | src/sdpctl/sizing.py:6-19 | nothing for a missing path, the bytes of a file, and for a directory the bytes of all files at any depth, less those that vanished before the walk reached them |
| `Sizing.EntriesAddUp` | src/sdpctl/sizing.py:12-19 | one number for each top-level entry, the size of the tree below it, adds up to the size of the directory |
| `Storage.DataRoot.AuxiliaryChargedStorage` | src/sdpctl/storage.py:48-65 | a hit returns the cached pair, anything else walks and records the stamps read before the walk |
| `Storage.DataRoot.QuarantinePath` | src/sdpctl/storage.py:90-98 | moves the data, unchanged, under the first free name for its label; every other file stays as it is; a failure changes nothing |
| `Storage.FinishObservationDeletion` | src/sdpctl/storage.py:101-131 | from DELETING with at most one copy it succeeds and leaves neither unless something fails; each error exactly when its condition holds; a failure keeps the row and every other entity |
| `Storage.ForceDropObservationData` | src/sdpctl/storage.py:134-162 | from DELETING or INCONSISTENT removes both copies and then marks the row DELETED, unless a removal fails |
| `Undisturbed.RunsToItsEnd` | src/sdpctl/storage.py:101-131 | an interleaved deletion that nobody disturbs ends as the method says |
| `SafetySteps.StepKeeps` | src/sdpctl/scheduler.py:365-388 | every step of the controller, its workers, its recovery, operators, deletions and crashes keeps the whole invariant |
| `SafetySteps.RunKeeps` | src/sdpctl/reconcile.py:27-112 | the invariant holds in every world of every run |
| `Driving.DrivesConserves` | src/sdpctl/scheduler.py:335-388 | whatever the controller does by itself, no raw byte is made or lost: a measurement set stays as it is or is in quarantine unchanged, quarantine and trash keep what they have, live and quarantined bytes have the same total |
| `Disk.UsedCoversRaw` | src/sdpctl/store.py:645-655 | with nothing planned or under way the used sum covers all raw bytes, live or in trash |
| `Disk.QuarantineConserves` | src/sdpctl/storage.py:90-98 | a move to quarantine keeps the total of raw and quarantined bytes |
| `Disk.AdmitReadsConservative` | src/sdpctl/scheduler.py:28-33 | each read of the admission test is no less than what is on disk, whatever writers wrote before; the only hypothesis is that rows and earlier reads were right |
| `Disk.CachedCovers` | src/sdpctl/storage.py:57-65 | a hit on stamps read earlier still covers what is on disk now |
| `Disk.DiskSafety` | src/sdpctl/scheduler.py:28-42 | if no writer exceeds its reservation by more than e and no failed move is swallowed, raw bytes live, in trash and in quarantine never exceed the threshold by more than e, at any step, however many observations overrun |
| `Leak.SafeUpToLeaks` | src/sdpctl/scheduler.py:78-89 | without the hypothesis on moves the excess is at most e and what swallowed failures left behind |
| `Leak.BytesBounded` | src/sdpctl/scheduler.py:123-195 | in every run of every configuration, with no hypothesis, raw bytes exceed the threshold by at most the worst single overrun so far and what was left behind: overruns do not add up |
| `Leak.ReadsAlwaysOk` | src/sdpctl/scheduler.py:28-33 | in every world of every run each read made by the test so far, and the cache, cover what is on disk but for files left behind |
| `Leak.ChargeIsConservative` | src/sdpctl/scheduler.py:28-33 | in every run, overruns and interleaved commands included, the total the decision is made on is no less than the raw bytes then on disk but for those left behind; no less than all of them as long as no failure swallowed a move that had a file |
| `Leak.AdmittedHasRoom` | src/sdpctl/scheduler.py:28-42 | in every run, an observation is admitted only when its whole reservation fits beside all raw bytes not left behind |
| `Leak.LeakIffSwallowed` | src/sdpctl/scheduler.py:339-351 | something is left behind if and only if a failure swallowed the error of a move that had a file to move |
| `Leak.LeakIsForGood` | src/sdpctl/reconcile.py:102-112 | what is left behind stays for ever and is charged nothing |
| `Capacity.SafeExactlyWhenCampaignFits` | src/sdpctl/scheduler.py:28-36 | all runs whose writers keep to their reservation stay within the threshold, swallowed failures included, if and only if the reservation is zero or the campaign is limited and fits as a whole |
| `Capacity.OneReservationEach` | src/sdpctl/scheduler.py:78-89 | whatever is swallowed, raw bytes are never more than one reservation for each observation ever admitted |
| `Capacity.ThresholdPassed` | src/sdpctl/scheduler.py:78-89 | for every configuration whose campaign does not fit as a whole, a run from the initial world whose writers keep to their reservation and which passes the threshold |
| `Cache.HitAgreesWithWalk` | src/sdpctl/storage.py:35-65 | a hit is never below a fresh walk, and equals it when entries change only at the top level |
| `Admitting.TestsAdmission` | src/sdpctl/scheduler.py:28-33 | the undisturbed test as a path of single reads |
| `Admitting.AdmissionLeavesRoom` | src/sdpctl/scheduler.py:28-33 | what an undisturbed test admits has room for its whole reservation beside all raw bytes, also after overruns |
| `Charging.TestIsExact` | src/sdpctl/scheduler.py:28-33 | a test whose reads nobody disturbs, with no cache or a true one, decides on exactly the sizes and reservations of all rows and the bytes in quarantine and in trash |
| `Charging.StoredIsMeasured` | src/sdpctl/scheduler.py:162-190 | in every world of every run, the size in a STORED row is that of its measurement set |
| `Charging.ChargeIsPhysical` | src/sdpctl/store.py:645-655 | where rows and files agree each raw byte is charged once, and bytes in trash once more |
| `Charging.ChargedAtRest` | src/sdpctl/scheduler.py:28-33 | in every run, with nothing active, deleting or left behind, what is charged is exactly the raw bytes on disk |
| `Charging.PlansExactlyWhenFits` | src/sdpctl/scheduler.py:375-378 | there, in a ticking world with room in the campaign and a true cache, an undisturbed test plans the next observation if and only if its reservation fits beside the raw bytes on disk |
| `Charging.CacheAlwaysTells` | src/sdpctl/storage.py:48-65 | the cache is true in every run in which entries change at the top level only |
| `Guarantees.DeletedMeansGone` | src/sdpctl/storage.py:101-131 | DELETED means neither copy exists and the log entered DELETED exactly once, however many deletions ran |
| `Guarantees.OneDeletionSucceeds` | src/sdpctl/store.py:183-193 | of all deletions of one observation at most one ends in success |
| `Guarantees.LateDeletionFails` | src/sdpctl/store.py:183-193 | a step of a deletion still running when the row is DELETED changes no row and does not succeed |
| `Endings.DeletedForEver` | src/sdpctl/store.py:183-193 | once the row is DELETED it is the same row in every later world, and no further deletion of it ever succeeds |
| `Endings.WholeActionsBounded` | src/sdpctl/storage.py:101-162 | over a whole run each deletion or drop makes at most seven actions other than removals of a part of the tree |
| `Guarantees.DeletionEnds` | src/sdpctl/storage.py:101-131 | each action brings a deletion nearer to its end, unless it removes a part of the tree only |
| `Guarantees.NeverBothCopies` | src/sdpctl/storage.py:111-122 | both copies never exist, and a trash copy belongs to a DELETING row |
| `Race.BothCopiesExactlyByRace` | src/sdpctl/storage.py:111-113 | over runs: a step raises the error if and only if it is a deletion's second test and, after its own test for the live copy, another deletion of the observation renamed it and that copy was not erased since; the live copy is then gone |
| `Race.BothCopiesHappens` | src/sdpctl/storage.py:111-113 | for every configuration that admits an observation, a run from the initial world, with a restart beside an operator's deletion, that raises the error |
| `Guarantees.BothCopiesRace` | src/sdpctl/storage.py:111-113 | from any world with two deletions before their first test, five steps that raise it |
| `Guarantees.DeletionAuthorised` | src/sdpctl/reconcile.py:66-77 | DELETING has a verdict and no active or failed run; DELETED has a verdict or an operator's drop; STORED has no verdict |
| `Guarantees.OneLiveRunAlways` | src/sdpctl/store.py:219-234 | attempts are 1..n with all but the last superseded, in every world; no active sibling, and the next attempt number is free |
| `Guarantees.RequeueGapHarmless` | src/sdpctl/scheduler.py:300-328 | a requeue commits if and only if the run is still exactly what the query would list |
| `Guarantees.ParallelismBounded` | src/sdpctl/scheduler.py:202-218 | the rows that run with a live worker are exactly the permit holders, who never outnumber the permits; after a sweep no other row is running |
| `Guarantees.OneObservationAtATime` | src/sdpctl/scheduler.py:375-378 | at most one observation is planned or observing, and the reserved sum is zero whenever the test runs |
| `Guarantees.ProductsUntouched` | src/sdpctl/scheduler.py:304-307 | no step touches the products of a run other than the one it works on |
| `Guarantees.ProductsSurvive` | src/sdpctl/reconcile.py:51-62 | from the moment a run awaits its verdict its products never change again |
| `Superseded.SupersededKeptExactlyWhen` | src/sdpctl/scheduler.py:304-307 | in every world of every run: every continuation keeps the products of a superseded run if and only if the retry loop has not listed the run |
| `Superseded.ReprocessingKeepsExactlyWhen` | src/sdpctl/store.py:529-589 | the same as a condition on the world before the reprocess command |
| `Superseded.ReprocessingShownRunsKeeps` | src/sdpctl/qa.py:10-16 | reprocessing a run that the list for people shows never loses its products |
| `Superseded.SupersededProductsLost` | src/sdpctl/scheduler.py:300-307 | whenever a failure may be retried, a run from the initial world that ends with a superseded failure losing its products |
| `Guarantees.SupersededFailureLosesProducts` | src/sdpctl/scheduler.py:304-307 | from any world that keeps the invariant, superseding a listed failure and going on with the loop loses its directory in two steps |
| `Guarantees.LogDeterminesState` | src/sdpctl/store.py:116-126 | the event log determines every row's state, along the edges of the tables |
| `Guarantees.BudgetRespected` | src/sdpctl/store.py:347-454 | executions stay within the budget across restarts; an exhausted run is FAILED, SUPERSEDED or DISCARDED |
| `Guarantees.AccountingComplete` | src/sdpctl/store.py:645-655 | no byte of any row escapes the two sums |
| `Guarantees.QuarantineOnlyGrows` | src/sdpctl/storage.py:78-98 | without a purge no quarantine entry is lost, renamed or overwritten |
| `Progress.RunPathLength` | src/sdpctl/models.py:37-45 | a run's state changes are 3 for each execution and 2 for each abandoned claim, less what is left of the last round |
| `Progress.ObsPathLength` | src/sdpctl/models.py:27-35 | an observation's state changes are at most the depth of its state, four at the deepest, when the unused edge is not taken |
| `Progress.DeletingNeverInconsistent` | src/sdpctl/models.py:31 | no run takes the edge from DELETING to INCONSISTENT |
| `Progress.RunsBounded` | src/sdpctl/store.py:529-589 | there are at most as many runs as observations and reprocess decisions |
| `Progress.CampaignLimit` | src/sdpctl/scheduler.py:35-36 | a limited campaign never exceeds its number of observations |
| `Progress.CampaignBounded` | src/sdpctl/scheduler.py:202-328 | with N observations, budget M, R reprocess decisions and F abandoned claims there are at most 4N + 3M(N + R) + 2F state changes |
| `Progress.UnattendedBounded` | src/sdpctl/scheduler.py:35-36 | without operators, abandoned claims and vanished data the bound is N(3M + 1), restarts included |
| `Budgets.JoinCountsRuns` | src/sdpctl/store.py:357-367 | the join counts each execution of each run of the observation once |
| `Budgets.ObservationBudget` | src/sdpctl/store.py:347-367 | an observation executes at most M times one more than its reprocess decisions |
| `Recovery.RepairKeepsOutcome` | src/sdpctl/reconcile.py:27-112 | no action of recovery changes the outcome it is heading for |
| `Recovery.SettledIsOutcome` | src/sdpctl/reconcile.py:27-112 | where nothing is left to repair the outcome is the state itself |
| `Recovery.RecoveryConfluent` | src/sdpctl/reconcile.py:27-112 | from any rows and files, all recoveries that finish, however often cut short, leave the same rows, files and quarantined contents |
| `Recovery.RecoveryIdempotent` | src/sdpctl/reconcile.py:27-112 | recovering again changes neither rows nor files |
| `RecoveryRuns.RunRepairs` | src/sdpctl/reconcile.py:27-112 | the recovery of the transition system, with any crashes, is a sequence of repairs |
| `RecoveryRuns.RestartableRecovery` | src/sdpctl/reconcile.py:27-112 | from any reachable world, whatever crashes follow, finished recovery leaves each row, the live files and the product directories as the starting world determines, no trash and the same quarantined contents |
| `RecoveryRuns.DoneExactlyWhenSettled` | src/sdpctl/reconcile.py:27-112 | in every recovering world of every run, no repair is enabled if and only if nothing is left to repair |
| `Completion.RecoveryCompletes` | src/sdpctl/reconcile.py:27-112 | from every recovering world of every run a recovery without failures leads to one in which nothing is left to repair |
| `Reconcile.RecoverObservations` | src/sdpctl/reconcile.py:34-48 | interrupted observations are quarantined and fail, one by one; other rows and files stay; each one left behind cost a failed move of its own |
| `Reconcile.RecoverRuns` | src/sdpctl/reconcile.py:50-64 | interrupted runs lose their output and fail; each one left behind cost a failed removal of its own |
| `Reconcile.ResumeDeletions` | src/sdpctl/reconcile.py:66-77 | afterwards no accepted observation without active runs is still STORED |
| `Reconcile.CompleteDeletions` | src/sdpctl/reconcile.py:79-84 | afterwards every DELETING row has both copies, which is left to the operator, or cost a failed operation of its own |
| `Reconcile.MarkMissingSets` | src/sdpctl/reconcile.py:86-100 | afterwards every STORED row has its data |
| `Reconcile.QuarantineOrphans` | src/sdpctl/reconcile.py:102-112 | afterwards no file is without a row, or it cost a failed move of its own; the others stay |
| `Reconcile.StartupReconcile` | src/sdpctl/reconcile.py:27-112 | wherever it dies it has made a sequence of repairs and may be run again under the same hypothesis; failures are scoped, each entity left unrepaired having cost a failed file operation of its own; without any, nothing is left to repair |
| `Reconcile.RecoverWithRestarts` | src/sdpctl/reconcile.py:27-112 | restarted whenever it dies, a recovery that ends without a mishap of its own has the one result that all finished recoveries of the first state have; with no mishap but the deaths that is so |
| `Reconcile.ReachableVerdictsCalm` | src/sdpctl/reconcile.py:66-77 | the hypothesis of `Reconcile.StartupReconcile` holds in every world of every run |
| `Qa.CheckCommand` | src/sdpctl/qa.py:21-30 | admissible if and only if the run is in a starting state, its observation STORED, its raw data on disk and no other run active; otherwise the error of the first thing missing |
| `Qa.OneReason` | src/sdpctl/qa.py:20-30 | a command is admissible or there is exactly one error it is refused with |
| `Qa.CheckedVerdictsCommit` | src/sdpctl/qa.py:20-33 | a command passes the checks if and only if its transaction would commit and the raw data is on disk |
| `Qa.RefusedVerdictsStop` | src/sdpctl/qa.py:20-30 | what the transaction would refuse is refused before anything is touched |
| `Qa.AcceptRun` | src/sdpctl/qa.py:19-34 | unless admissible, the error says why and nothing changes, so without raw data in any case; otherwise the run is ACCEPTED and the observation DELETING or, with no copy left, DELETED |
| `Qa.ReprocessRun` | src/sdpctl/qa.py:37-49 | the same; otherwise the run is SUPERSEDED and its successor queued, its directory naming the observation and the next attempt |
| `Qa.DiscardFailedRun` | src/sdpctl/qa.py:52-66 | as accepting, from FAILED, exhausted or not |
| `Qa.ListQaItems` | src/sdpctl/qa.py:10-16 | exactly what a person is asked to decide on |
| `Scheduler.Scheduler.SweepOrphanedInprocessStates` | src/sdpctl/scheduler.py:335-363 | exactly the OBSERVING and RUNNING rows without a live worker fail; data of such a row goes to quarantine, unchanged and under its own label, or stays, which cost a failed move; no byte is lost |
| `Scheduler.Scheduler.RetryRun` | src/sdpctl/scheduler.py:300-328 | the old products are gone and the run is queued, or their removal failed and its budget is declared spent; a run that another process superseded or discarded keeps its row |
| `Scheduler.Scheduler.RetryFailedRuns` | src/sdpctl/scheduler.py:291-328 | of the unmarked failures, one with its budget spent is marked, one of a STORED observation with an execution left is queued with its products gone, or marked when their removal failed; no other row and no other products change |
| `Scheduler.Scheduler.CanAdmit` | src/sdpctl/scheduler.py:28-33 | true if and only if the charge and the reservation fit, the charge being exactly all sizes, reservations, quarantine and trash when a usable cache is true; nothing but the cache changes |
| `Scheduler.Scheduler.AdmitObservation` | src/sdpctl/scheduler.py:375-378 | one observation is planned, with its worker, exactly when none is active, the campaign has room and that sum leaves room for the reservation |
| `Scheduler.Scheduler.CreateInitialRuns` | src/sdpctl/scheduler.py:380-383 | each STORED observation without a run gets one, its first attempt, queued, in a directory that names it; no other row changes |
| `Scheduler.Scheduler.TrackQueuedRuns` | src/sdpctl/scheduler.py:385-388 | afterwards every queued run has a worker; new workers wait and the others are as before, so no permit is taken |
| `Scheduler.Scheduler.Tick` | src/sdpctl/scheduler.py:365-388 | a path of the controller's own steps after which the live run of every STORED observation has a worker or is on the list for a person; failures are resolved as their budget says, without a mishap those with an execution left are queued; no raw byte is lost; where rows, files and cache agree, an observation is planned if and only if none is active, the campaign has room and the reservation fits beside the raw bytes, those in trash counted twice |
| `Scheduler.Scheduler.ObserveBegin` | src/sdpctl/scheduler.py:103-120 | claims the PLANNED row before the runner starts |
| `Scheduler.Scheduler.Watchdog` | src/sdpctl/scheduler.py:123-150 | over the reservation the runner is stopped, the row fails and the data goes where it should, or a warning is noted once; within it nothing changes |
| `Scheduler.Scheduler.ObserveComplete` | src/sdpctl/scheduler.py:152-195 | STORED with the measured size and no reservation if the runner succeeded within an aborting reservation, an overrun that is not aborted being noted; failed otherwise, the data in quarantine under the label of the reason unless the moves failed |
| `Scheduler.Scheduler.SetAside` | src/sdpctl/scheduler.py:70-80 | the data goes, unchanged, to quarantine under the first free name for the label of the move that worked, or stays after every move failed, which is swallowed: two moves when the runner was stopped for a reason, one when the worker raised |
| `Scheduler.Scheduler.ObserveRaised` | src/sdpctl/scheduler.py:70-99 | the row fails from PLANNED or OBSERVING and gives its reservation back; data goes to quarantine under the label of the exception, or stays, which cost the one move that is tried |
| `Scheduler.Scheduler.ProcessClaim` | src/sdpctl/scheduler.py:202-216 | takes a permit and an execution before anything can fail |
| `Scheduler.Scheduler.ProcessComplete` | src/sdpctl/scheduler.py:219-262 | awaits a verdict if and only if the runner succeeded and the image exists, a missing preview being noted only; the permit is free again |
| `Scheduler.Scheduler.ProcessRaised` | src/sdpctl/scheduler.py:263-287 | fails from QUEUED without an execution or from RUNNING with one |

## Left out

- Runners, containers and subprocesses beyond what they write; `kill_managed` is taken to leave no
  writer, and when it fails startup does not proceed. A worker that dies alone takes its runner along.
  Previews beyond whether one was made.
- Command line, printing, configuration parsing, log files, timestamps, reason and error texts,
  exit codes and verdict notes, so also the error column that recovery writes.
- SQLite itself and the schema migration: a transaction is one atomic step, a query its meaning.
- Fairness of the event loop, polling intervals and watchdog timing.
- More than one controller process at a time, and files changed by anything but the program.
- Files in the observations directory that are not named after an id; orphans are named after ids
  that have no row.
- `physical_snapshot`, `run` and `run_until_idle`, which only read or repeat the tick.
- The quarantine labels in the transition system, where any free name may be taken; the methods use
  the program's labels.
- The checks of the operator commands in the transition system, whose operator steps are the
  transactions alone and so include more behaviours; the commands in `Qa` have them.
- Walks as a sequence of reads in the transition system: the walk of one directory is one step, the
  two walks are two, and an entry has one number, the size of its tree (`Sizing.EntriesAddUp`).
  `Sizing.ApparentSize` walks such a tree; a directory that vanishes under it, or the path itself
  between its tests, which the program does not catch, is not modelled.
- The service manager that restarts the controller: `Reconcile.RecoverWithRestarts` stands for it.
- Cache.HitAgreesWithWalk: compares with a walk made at the same moment; a hit on stamps read earlier is `Disk.CachedCovers`.
- Recovery.RecoveryConfluent: does not compare the order of the event log or the names in quarantine, which depend on where recovery was cut short.
- Reconcile.StartupReconcile: that its actions are repairs and what it leaves is stated for stores in which no STORED observation has both an accepted and a running run, which `Reconcile.ReachableVerdictsCalm` proves of all reachable ones.
- Scheduler.Scheduler.Tick: states what holds when no operator acts during the tick; interleaved operators are covered by the theorems over runs.
