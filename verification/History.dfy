/** Reading the append-only event log: replay of one entity, and counts of its state changes. */
module History {
  import opened Models
  import opened StoreSpec

  /** Where replaying the events of one entity leads. */
  datatype Track<S> = Unborn | At(s: S) | Broken

  /** A created event starts at the initial state; a move must leave the current state along a table edge. */
  function ObsStep(t: Track<ObsState>, e: Event, oid: nat): Track<ObsState> {
    match e
    case ObsCreated(o) => if o != oid then t else if t.Unborn? then At(Planned) else Broken
    case ObsMoved(o, from, to) =>
      if o != oid then t else if t == At(from) && to in ObsTransitions(from) then At(to) else Broken
    case _ => t
  }

  function RunStep(t: Track<RunState>, e: Event, rid: nat): Track<RunState> {
    match e
    case RunCreated(r) => if r != rid then t else if t.Unborn? then At(Queued) else Broken
    case RunMoved(r, from, to) =>
      if r != rid then t else if t == At(from) && to in RunTransitions(from) then At(to) else Broken
    case _ => t
  }

  function ObsTrack(log: seq<Event>, oid: nat): Track<ObsState> {
    if log == [] then Unborn else
      var n := |log| - 1;
      ObsStep(ObsTrack(log[..n], oid), log[n], oid)
  }

  function RunTrack(log: seq<Event>, rid: nat): Track<RunState> {
    if log == [] then Unborn else
      var n := |log| - 1;
      RunStep(RunTrack(log[..n], rid), log[n], rid)
  }

  lemma TrackSnoc(log: seq<Event>, e: Event, id: nat)
    ensures ObsTrack(log + [e], id) == ObsStep(ObsTrack(log, id), e, id)
    ensures RunTrack(log + [e], id) == RunStep(RunTrack(log, id), e, id)
  {
    assert (log + [e])[..|log|] == log;
  }

  lemma ExecutionsSnoc(log: seq<Event>, e: Event, rid: nat)
    ensures Executions(log + [e], rid) == Executions(log, rid) + if e == RunMoved(rid, Queued, Running) then 1 else 0
  {
    assert (log + [e])[..|log|] == log;
  }

  predicate IsNote(e: Event) {
    e.ObsNote? || e.RunNote?
  }

  lemma {:induction false} NotesLeaveTracks(log: seq<Event>, notes: seq<Event>, id: nat)
    requires forall e :: e in notes ==> IsNote(e)
    ensures ObsTrack(log + notes, id) == ObsTrack(log, id)
    ensures RunTrack(log + notes, id) == RunTrack(log, id)
  {
    if notes == [] {
      assert log + notes == log;
    } else {
      var n := |notes| - 1;
      assert log + notes == (log + notes[..n]) + [notes[n]];
      TrackSnoc(log + notes[..n], notes[n], id);
      NotesLeaveTracks(log, notes[..n], id);
      assert IsNote(notes[n]);
    }
  }

  /** Only a QUEUED->RUNNING event of the run itself counts as an execution. */
  lemma {:induction false} QuietAppend(log: seq<Event>, more: seq<Event>, rid: nat)
    requires RunMoved(rid, Queued, Running) !in more
    ensures Executions(log + more, rid) == Executions(log, rid)
  {
    if more == [] {
      assert log + more == log;
    } else {
      var n := |more| - 1;
      assert log + more == (log + more[..n]) + [more[n]];
      ExecutionsSnoc(log + more[..n], more[n], rid);
      QuietAppend(log, more[..n], rid);
    }
  }

  lemma {:induction false} UnbornNeverRan(log: seq<Event>, rid: nat)
    requires RunTrack(log, rid).Unborn?
    ensures Executions(log, rid) == 0
  {
    if log != [] {
      UnbornNeverRan(log[..|log| - 1], rid);
    }
  }

  /** How often an observation entered a state, according to the log. */
  function Entered(log: seq<Event>, oid: nat, s: ObsState): nat {
    if log == [] then 0 else
      var n := |log| - 1;
      Entered(log[..n], oid, s) + if log[n].ObsMoved? && log[n].oid == oid && log[n].oto == s then 1 else 0
  }

  lemma {:induction false} UnbornNeverEntered(log: seq<Event>, oid: nat, s: ObsState)
    requires ObsTrack(log, oid).Unborn?
    ensures Entered(log, oid, s) == 0
  {
    if log != [] {
      UnbornNeverEntered(log[..|log| - 1], oid, s);
    }
  }

  /** DELETED is entered once, or not yet. */
  lemma {:induction false} DeletedEnteredOnce(log: seq<Event>, oid: nat)
    requires ObsTrack(log, oid).At?
    ensures Entered(log, oid, Deleted) == if ObsTrack(log, oid) == At(Deleted) then 1 else 0
  {
    var n := |log| - 1;
    match ObsTrack(log[..n], oid) {
      case Unborn => UnbornNeverEntered(log[..n], oid, Deleted);
      case At(_) => DeletedEnteredOnce(log[..n], oid);
      case Broken =>
    }
  }
}
