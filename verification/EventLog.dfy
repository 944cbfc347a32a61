/** The event-sourced case repository: a transition table, and a log that replays to the snapshot. */
module EventLog {
  import opened Contracts

  datatype Boundary = Boundary(
    ownerId: string,
    planVersion: nat,
    planHash: string,
    expiresAt: Time,
    revokedAt: Option<Time>)

  datatype Snapshot = Snapshot(
    caseId: string,
    ownerId: string,
    state: CaseState,
    version: nat,
    planVersion: nat,
    planHash: string,
    approval: Option<Boundary>,
    completedLevel: Option<EvidenceLevel>)

  datatype Actor = Person | System

  datatype Verdict = Verdict(accepted: bool, level: Option<EvidenceLevel>)

  datatype TransitionCommand = TransitionCommand(
    expectedVersion: nat,
    target: CaseState,
    reasonCode: string,
    actor: Actor,
    approval: Option<Boundary>,
    verification: Option<Verdict>)

  datatype Event = Event(caseId: string, from: CaseState, to: CaseState, reasonCode: string, actor: Actor)

  datatype PersistedEvent = PersistedEvent(event: Event, eventId: string, sequence: nat)

  function Targets(state: CaseState): set<CaseState> {
    match state
    case Draft => {AwaitingApproval, Cancelled, Expired}
    case AwaitingApproval => {Draft, Ready, Cancelled, Expired}
    case Ready => {Running, Cancelled, Expired}
    case Running => {WaitingExternal, WaitingRetry, NeedsAttention, Done, Failed, Cancelled, Expired}
    case WaitingExternal => {Running, WaitingRetry, NeedsAttention, Cancelled, Expired}
    case WaitingRetry => {Ready, NeedsAttention, Cancelled, Expired}
    case NeedsAttention => {Ready, Cancelled, Expired}
    case Done | Failed => {NeedsAttention}
    case Cancelled | Expired => {}
  }

  /** The same transitions, told by where they lead. */
  predicate Legal(from: CaseState, to: CaseState) {
    match to
    case Draft => from.AwaitingApproval?
    case AwaitingApproval => from.Draft?
    case Ready => from.AwaitingApproval? || from.WaitingRetry? || from.NeedsAttention?
    case Running => from.Ready? || from.WaitingExternal?
    case WaitingExternal | Done | Failed => from.Running?
    case WaitingRetry => from.Running? || from.WaitingExternal?
    case NeedsAttention => from.Running? || from.WaitingExternal? || from.WaitingRetry? || from.Done? || from.Failed?
    case Cancelled | Expired => !from.Done? && !from.Failed? && !from.Cancelled? && !from.Expired?
  }

  lemma TransitionsAgree(from: CaseState, to: CaseState)
    ensures to in Targets(from) <==> Legal(from, to)
  {
  }

  predicate NeedsApproval(target: CaseState) {
    target in {Ready, Running, WaitingExternal, WaitingRetry, Done}
  }

  /** The approval in force and why it does not license `target`, if it does not. */
  function ApprovalFault(snapshot: Snapshot, command: TransitionCommand, now: Time): Option<string> {
    var approval := if command.approval.Some? then command.approval else snapshot.approval;
    if approval.None? then Some("APPROVAL_REQUIRED")
    else if || approval.value.ownerId != snapshot.ownerId
            || approval.value.planVersion != snapshot.planVersion
            || approval.value.planHash != snapshot.planHash then Some("APPROVAL_MISMATCH")
    else if approval.value.expiresAt <= now || approval.value.revokedAt.Some? then Some("APPROVAL_MISMATCH")
    else None
  }

  function ReduceCase(snapshot: Snapshot, command: TransitionCommand, now: Time): Result<(Snapshot, Event)> {
    if command.expectedVersion != snapshot.version then Err("VERSION_CONFLICT")
    else if command.target !in Targets(snapshot.state) then Err("ILLEGAL_TRANSITION")
    else if NeedsApproval(command.target) && ApprovalFault(snapshot, command, now).Some? then
      Err(ApprovalFault(snapshot, command, now).value)
    else if command.target.Done? && !(command.verification.Some? && command.verification.value.accepted) then
      Err("VERIFICATION_REQUIRED")
    else
      var next := snapshot.(
        state := command.target,
        version := snapshot.version + 1,
        approval := if command.approval.Some? then command.approval else snapshot.approval,
        completedLevel := if command.target.Done? && command.verification.value.level.Some?
                          then command.verification.value.level else snapshot.completedLevel);
      Ok((next, Event(snapshot.caseId, snapshot.state, command.target, command.reasonCode, command.actor)))
  }

  /** The documents of one case. */
  datatype Repository = Repository(snapshot: Snapshot, events: map<string, PersistedEvent>)

  datatype Input = Input(eventId: string, command: TransitionCommand, now: Time)

  datatype Answer = Answer(snapshot: Snapshot, event: PersistedEvent, duplicate: bool)

  function Apply(repository: Repository, input: Input): Result<(Repository, Answer)> {
    if input.eventId in repository.events then
      Ok((repository, Answer(repository.snapshot, repository.events[input.eventId], true)))
    else
      match ReduceCase(repository.snapshot, input.command, input.now)
      case Err(code) => Err(code)
      case Ok((next, event)) =>
        var persisted := PersistedEvent(event, input.eventId, next.version);
        Ok((Repository(next, repository.events[input.eventId := persisted]), Answer(next, persisted, false)))
  }

  class CaseRepository {
    var document: Option<Snapshot>
    var events: map<string, PersistedEvent>

    constructor ()
      ensures document == None && events == map[]
    {
      document, events := None, map[];
    }

    method Create(snapshot: Snapshot) returns (created: bool)
      modifies this
      ensures created == old(document).None?
      ensures document == (if created then Some(snapshot) else old(document)) && events == old(events)
    {
      if document.Some? { return false; }
      document := Some(snapshot);
      created := true;
    }

    method Transition(input: Input) returns (result: Result<Answer>)
      modifies this
      ensures old(document).None? ==> result == Err("Case does not exist") && document == None && events == old(events)
      ensures old(document).Some? ==>
        match Apply(Repository(old(document).value, old(events)), input)
        case Err(code) => result == Err(code) && document == old(document) && events == old(events)
        case Ok((next, answer)) => result == Ok(answer) && document == Some(next.snapshot) && events == next.events
    {
      if document.None? { return Err("Case does not exist"); }
      var current := document.value;
      if input.eventId in events {
        return Ok(Answer(current, events[input.eventId], true));
      }
      if current.version != input.command.expectedVersion { return Err("VERSION_CONFLICT"); }
      var reduced := ReduceCase(current, input.command, input.now);
      if reduced.Err? { return Err(reduced.error); }
      var (next, event) := reduced.value;
      var persisted := PersistedEvent(event, input.eventId, next.version);
      document := Some(next);
      events := events[input.eventId := persisted];
      result := Ok(Answer(next, persisted, false));
    }
  }

  /**
   * When a new event is applied, and what it leaves: the transition is legal at the expected version, the
   * working states are entered under an approval in force, and DONE with an accepted verification.
   */
  lemma AppliesIff(repository: Repository, input: Input)
    requires input.eventId !in repository.events
    ensures var Snapshot(caseId, ownerId, state, version, planVersion, planHash, held, done) := repository.snapshot;
            var TransitionCommand(expected, target, reason, actor, given, verification) := input.command;
            var approval := if given.Some? then given else held;
            var inForce :=
              && approval.Some? && approval.value.ownerId == ownerId && approval.value.planVersion == planVersion
              && approval.value.planHash == planHash && input.now < approval.value.expiresAt
              && approval.value.revokedAt.None?;
            var result := Apply(repository, input);
            && (result.Ok? <==>
                  && expected == version && Legal(state, target)
                  && (match target
                      case Ready | Running | WaitingExternal | WaitingRetry | Done => inForce
                      case _ => true)
                  && (target.Done? ==> verification.Some? && verification.value.accepted))
            && (result.Ok? ==>
                  var (next, answer) := result.value;
                  var level := if target.Done? && verification.value.level.Some? then verification.value.level
                               else done;
                  && next.snapshot
                       == Snapshot(caseId, ownerId, target, version + 1, planVersion, planHash, approval, level)
                  && answer == Answer(next.snapshot, next.events[input.eventId], false)
                  && next.events == repository.events[input.eventId := PersistedEvent(
                       Event(caseId, state, target, reason, actor), input.eventId, version + 1)])
  {
    TransitionsAgree(repository.snapshot.state, input.command.target);
  }

  /** Why an event is refused: the first of these that applies. */
  lemma RefusedBecause(repository: Repository, input: Input)
    requires input.eventId !in repository.events && Apply(repository, input).Err?
    ensures var snapshot, command := repository.snapshot, input.command;
            var approval := if command.approval.Some? then command.approval else snapshot.approval;
            var working := match command.target
                           case Ready | Running | WaitingExternal | WaitingRetry | Done => true
                           case _ => false;
            var inForce := approval.Some? && approval.value.ownerId == snapshot.ownerId
                           && approval.value.planVersion == snapshot.planVersion
                           && approval.value.planHash == snapshot.planHash
                           && input.now < approval.value.expiresAt && approval.value.revokedAt.None?;
            Apply(repository, input).error
              == if command.expectedVersion != snapshot.version then "VERSION_CONFLICT"
                 else if !Legal(snapshot.state, command.target) then "ILLEGAL_TRANSITION"
                 else if working && approval.None? then "APPROVAL_REQUIRED"
                 else if working && !inForce then "APPROVAL_MISMATCH"
                 else "VERIFICATION_REQUIRED"
  {
    TransitionsAgree(repository.snapshot.state, input.command.target);
  }

  // Replay.

  /** The repository after a run of inputs, refused ones included. */
  function After(initial: Snapshot, inputs: seq<Input>): Repository {
    if inputs == [] then Repository(initial, map[])
    else
      var before := After(initial, inputs[..|inputs| - 1]);
      match Apply(before, inputs[|inputs| - 1])
      case Err(_) => before
      case Ok((next, _)) => next
  }

  /** The state that the events lead to from `state`, if each starts where the one before ended. */
  function Replay(state: CaseState, log: seq<PersistedEvent>): Option<CaseState> {
    if log == [] then Some(state)
    else
      var last := log[|log| - 1];
      if Replay(state, log[..|log| - 1]) == Some(last.event.from) && Legal(last.event.from, last.event.to)
      then Some(last.event.to)
      else None
  }

  /** The log holds every persisted event, and its sequence numbers have no gap and no repetition. */
  ghost predicate LogOf(log: seq<PersistedEvent>, initial: Snapshot, events: map<string, PersistedEvent>) {
    && (forall i | 0 <= i < |log| ::
          log[i].sequence == initial.version + 1 + i && log[i].event.caseId == initial.caseId)
    && (forall event <- log :: event.eventId in events && events[event.eventId] == event)
    && (forall id <- events.Keys :: events[id] in log && events[id].eventId == id)
  }

  /** The log replays, through legal transitions only, from the initial state to the current one. */
  ghost predicate Explains(log: seq<PersistedEvent>, initial: Snapshot, repository: Repository) {
    && LogOf(log, initial, repository.events)
    && Replay(initial.state, log) == Some(repository.snapshot.state)
    && repository.snapshot.version == initial.version + |log|
    && repository.snapshot.caseId == initial.caseId
  }

  /**
   * In every reachable repository the events are a chain without gaps that replays to the snapshot.
   */
  lemma {:induction false} LogReplays(initial: Snapshot, inputs: seq<Input>) returns (log: seq<PersistedEvent>)
    ensures Explains(log, initial, After(initial, inputs))
  {
    if inputs == [] {
      log := [];
    } else {
      var before, last := After(initial, inputs[..|inputs| - 1]), inputs[|inputs| - 1];
      log := LogReplays(initial, inputs[..|inputs| - 1]);
      if last.eventId !in before.events && Apply(before, last).Ok? {
        var (next, answer) := Apply(before, last).value;
        TransitionsAgree(before.snapshot.state, last.command.target);
        log := log + [answer.event];
      }
    }
  }

  /** Nothing follows CANCELLED or EXPIRED: such an event is the last of the chain. */
  lemma {:induction false} NothingAfterTerminal(state: CaseState, log: seq<PersistedEvent>, i: nat)
    requires Replay(state, log).Some? && i < |log|
    requires log[i].event.to.Cancelled? || log[i].event.to.Expired?
    ensures i == |log| - 1
  {
    if i < |log| - 1 {
      var front := log[..|log| - 1];
      NothingAfterTerminal(state, front, i);
    }
  }

  /** A redelivered event is answered with the event first persisted, and leaves no trace in what follows. */
  lemma {:induction false} RedeliveryIsIdempotent(initial: Snapshot, inputs: seq<Input>, input: Input,
                                                  more: seq<Input>)
    requires input.eventId in After(initial, inputs).events
    ensures var repository := After(initial, inputs);
            Apply(repository, input)
              == Ok((repository, Answer(repository.snapshot, repository.events[input.eventId], true)))
    ensures After(initial, inputs + [input] + more) == After(initial, inputs + more)
    decreases |more|
  {
    if more == [] {
      assert (inputs + [input])[..|inputs|] == inputs;
      assert inputs + [input] + more == inputs + [input] && inputs + more == inputs;
    } else {
      var front, last := more[..|more| - 1], more[|more| - 1];
      RedeliveryIsIdempotent(initial, inputs, input, front);
      assert inputs + [input] + more == (inputs + [input] + front) + [last];
      assert inputs + more == (inputs + front) + [last];
      assert (inputs + [input] + front + [last])[..|inputs| + 1 + |front|] == inputs + [input] + front;
      assert (inputs + front + [last])[..|inputs| + |front|] == inputs + front;
    }
  }

  /** An event once persisted is never rewritten. */
  lemma {:induction false} EventsAreImmutable(initial: Snapshot, inputs: seq<Input>, more: seq<Input>, id: string)
    requires id in After(initial, inputs).events
    ensures id in After(initial, inputs + more).events
    ensures After(initial, inputs + more).events[id] == After(initial, inputs).events[id]
    decreases |more|
  {
    if more == [] {
      assert inputs + more == inputs;
    } else {
      var front := more[..|more| - 1];
      EventsAreImmutable(initial, inputs, front, id);
      assert (inputs + more)[..|inputs + more| - 1] == inputs + front;
    }
  }
}
