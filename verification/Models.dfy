/** State spaces, transition tables and row types of the controller. */
module Models {

  datatype Option<+T> = None | Some(value: T)

  /** The ways in which a store call or an operator command can be refused. */
  datatype Error =
    | IllegalTransition   // the table has no such edge
    | GuardFailed         // the row is missing or not in the expected state
    | NoSuchRow           // KeyError
    | WrongRunState       // the run is not in a state the operation starts from
    | NotStored           // the observation is not STORED
    | UniqueViolated      // UNIQUE(observation_id, attempt)
    | OtherActiveRun      // another run of the observation is still active
    | RawUnavailable      // the measurement set is not on disk
    | NotDeleting         // deletion was asked for a row without deletion intent
    | BothCopies          // a live and a trash copy were both seen
    | FileVanished        // a path disappeared between its test and its use
    | Interrupted         // the executing process died or its file system call failed

  datatype Result<+T> = Ok(value: T) | Err(error: Error)

  datatype ObsState = Planned | Observing | Stored | Deleting | Deleted | ObserveFailed | Inconsistent

  datatype RunState = Queued | Running | AwaitingQa | Accepted | Superseded | Failed | Discarded

  function ObsTransitions(s: ObsState): set<ObsState> {
    match s
    case Planned => {Observing, ObserveFailed}
    case Observing => {Stored, ObserveFailed}
    case Stored => {Deleting, Inconsistent}
    case Deleting => {Deleted, Inconsistent}
    case ObserveFailed => {}
    case Inconsistent => {Deleted}
    case Deleted => {}
  }

  function RunTransitions(s: RunState): set<RunState> {
    match s
    case Queued => {Running, Failed}
    case Running => {AwaitingQa, Failed}
    case AwaitingQa => {Accepted, Superseded}
    case Failed => {Queued, Superseded, Discarded}
    case Accepted => {}
    case Superseded => {}
    case Discarded => {}
  }

  /** A run that still wants, or has, a reader of the raw data or a verdict. */
  predicate Active(s: RunState) {
    s.Queued? || s.Running? || s.AwaitingQa?
  }

  datatype ObsRow = ObsRow(state: ObsState, size: nat, reserved: nat)

  datatype RunRow = RunRow(oid: nat, attempt: nat, state: RunState, exhausted: bool, dir: string)

  /** Rows of the append-only event table. Notes carry no states. */
  datatype Event =
    | ObsCreated(oid: nat)
    | ObsMoved(oid: nat, ofrom: ObsState, oto: ObsState)
    | RunCreated(rid: nat)
    | RunMoved(rid: nat, rfrom: RunState, rto: RunState)
    | ObsNote(oid: nat)
    | RunNote(rid: nat)

  /** The settings whose bounds the loader checks; a missing campaign limit is None. */
  datatype Config = Config(
    threshold: nat,
    reservation: nat,
    parallel: nat,
    attempts: nat,
    maxObs: Option<nat>,
    abortOnOverrun: bool)

  predicate ValidConfig(c: Config) {
    && c.reservation <= c.threshold
    && c.parallel >= 1
    && c.attempts >= 1
  }
}
