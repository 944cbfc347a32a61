/** The Firestore transactions on one case, each proved to be the function that specifies it. */
module Store {
  import opened Contracts
  import opened CaseHistory
  import opened Documents

  /** The documents behind the runtime store, the control store and the wake outbox. */
  class CaseStore {
    const caseId: string
    var run: Option<CaseRun>
    var draftOwner: Option<string>
    var records: map<ActionKey, ActionRecord>
    var intents: map<IntentId, Intent>
    var evidence: map<string, EvidenceRecord>
    var commands: map<string, Command>

    constructor (caseId: string, docs: Docs)
      ensures this.caseId == caseId && this.Docs() == docs
    {
      this.caseId := caseId;
      run, draftOwner, records := docs.run, docs.draftOwner, docs.records;
      intents, evidence, commands := docs.intents, docs.evidence, docs.commands;
    }

    function Docs(): Docs
      reads this
    {
      Documents.Docs(run, draftOwner, records, intents, evidence, commands)
    }

    // Wake intents.

    method PersistWake(wake: Option<IntentId>)
      modifies this`intents
      ensures intents == Documents.PersistWake(old(intents), wake)
      ensures intents == match wake case None => old(intents)
                                    case Some(id) => old(intents)[id := Intent(true, true, 0)]
    {
      if wake.Some? {
        intents := intents[wake.value := Intent(true, true, 0)];
      }
    }

    method MarkDispatched(id: IntentId)
      modifies this`intents
      ensures intents == MarkIntent(old(intents), id, false)
      ensures id in intents && intents[id].pending == false && intents - {id} == old(intents) - {id}
      ensures if id in old(intents) then
                && intents[id].persisted == old(intents)[id].persisted
                && intents[id].attemptCount == old(intents)[id].attemptCount + 1
              else !intents[id].persisted && intents[id].attemptCount == 1
    {
      var attempts := if id in intents then intents[id].attemptCount else 0;
      var persisted := id in intents && intents[id].persisted;
      intents := intents[id := Intent(false, persisted, attempts + 1)];
    }

    method MarkFailed(id: IntentId)
      modifies this`intents
      ensures intents == MarkIntent(old(intents), id, true)
      ensures id in intents && intents[id].pending == true && intents - {id} == old(intents) - {id}
      ensures if id in old(intents) then
                && intents[id].persisted == old(intents)[id].persisted
                && intents[id].attemptCount == old(intents)[id].attemptCount + 1
              else !intents[id].persisted && intents[id].attemptCount == 1
    {
      var attempts := if id in intents then intents[id].attemptCount else 0;
      var persisted := id in intents && intents[id].persisted;
      intents := intents[id := Intent(true, persisted, attempts + 1)];
    }

    /** At most 100 pending intents are listed, in no particular order, and all of them if they fit. */
    method ListPending(limit: int) returns (pending: seq<IntentId>)
      ensures |pending| <= (if limit < 1 then 1 else if limit < 100 then limit else 100)
      ensures forall i | 0 <= i < |pending| :: pending[i] in intents && intents[pending[i]].pending
      ensures forall i, j | 0 <= i < j < |pending| :: pending[i] != pending[j]
      ensures |pending| < (if limit < 1 then 1 else if limit < 100 then limit else 100) ==>
        forall id <- intents.Keys :: intents[id].pending ==> id in pending
    {
      pending := [];
      var rest := set id | id in intents && intents[id].pending;
      while rest != {} && |pending| < PageSize(limit)
        invariant |pending| <= PageSize(limit)
        invariant forall id <- rest :: id in intents && intents[id].pending
        invariant forall i | 0 <= i < |pending| :: pending[i] in intents && intents[pending[i]].pending
        invariant forall i | 0 <= i < |pending| :: pending[i] !in rest
        invariant forall i, j | 0 <= i < j < |pending| :: pending[i] != pending[j]
        invariant forall id <- intents.Keys :: intents[id].pending ==> id in pending || id in rest
      {
        var id :| id in rest;
        pending := pending + [id];
        rest := rest - {id};
      }
    }

    // The run document.

    method Get() returns (item: Option<CaseRun>)
      ensures item == run
    {
      item := run;
    }

    method CompareAndSet(expectedVersion: nat, next: CaseRun, wake: Option<IntentId>) returns (error: Option<string>)
      modifies this`run, this`intents
      ensures match Documents.CompareAndSet(old(Docs()), expectedVersion, next, wake)
              case Ok(docs) => error.None? && Docs() == docs
              case Err(reason) => error == Some(reason) && Docs() == old(Docs())
      ensures error == if old(run).None? then Some("CASE_NOT_FOUND")
                       else if old(run).value.version != expectedVersion then Some("VERSION_CONFLICT") else None
      ensures error.None? ==> run == Some(next) && (wake.Some? ==> wake.value in intents && intents[wake.value].pending)
    {
      if run.None? { return Some("CASE_NOT_FOUND"); }
      if run.value.version != expectedVersion { return Some("VERSION_CONFLICT"); }
      run := Some(next);
      PersistWake(wake);
      error := None;
    }

    // The action ledger.

    method Reserve(key: ActionKey, holder: nat) returns (reservation: Reservation)
      modifies this`records
      ensures (Docs(), reservation) == ReserveAction(old(Docs()), key, holder)
      ensures reservation == if key !in old(records) then Fresh
                             else match old(records)[key] case Succeeded(receipt) => AlreadySucceeded(receipt)
                                                          case _ => InFlight
      ensures records == if reservation.Fresh? then old(records)[key := Reserved(holder)] else old(records)
    {
      if key in records {
        match records[key]
        case Succeeded(receipt) => return AlreadySucceeded(receipt);
        case Reserved(_) => return InFlight;
        case Unknown => return InFlight;
      }
      records := records[key := Reserved(holder)];
      reservation := Fresh;
    }

    method Succeed(key: ActionKey, receiptId: string)
      modifies this`records
      ensures Docs() == SucceedAction(old(Docs()), key, receiptId)
      ensures records == old(records)[key := Succeeded(Receipt(receiptId, None))]
    {
      records := records[key := Succeeded(Receipt(receiptId, None))];
    }

    method Fail(key: ActionKey)
      modifies this`records
      ensures Docs() == FailAction(old(Docs()), key)
      ensures key !in records && records == old(records) - {key}
    {
      records := records - {key};
    }

    method MarkUnknown(key: ActionKey)
      modifies this`records
      ensures Docs() == Documents.MarkUnknown(old(Docs()), key)
      ensures records == old(records)[key := Unknown]
    {
      records := records[key := Unknown];
    }

    /** The receipt is stamped first; a delivery that will not arrive then needs attention. */
    method RecordTransportEvent(key: ActionKey, status: TransportStatus) returns (recorded: bool)
      modifies this`records, this`run
      ensures recorded <==> key in old(records) && old(records)[key].Succeeded?
      ensures Docs() == if !recorded then old(Docs())
                        else if status.Delivered? then StampReceipt(old(Docs()), key, status)
                        else RecordBounce(StampReceipt(old(Docs()), key, status))
      ensures recorded ==>
        records == old(records)[key := Succeeded(Receipt(old(records)[key].receipt.receiptId, Some(status)))]
      ensures run == if !recorded || status.Delivered? || old(run).None?
                        || old(run).value.state.Done? || old(run).value.state.Cancelled? then old(run)
                     else Some(old(run).value.(state := NeedsAttention, version := old(run).value.version + 1))
    {
      if key !in records || !records[key].Succeeded? { return false; }
      var receipt := records[key].receipt;
      records := records[key := Succeeded(receipt.(transportStatus := Some(status)))];
      if !status.Delivered? && run.Some? && !run.value.state.Done? && !run.value.state.Cancelled? {
        run := Some(run.value.(state := NeedsAttention, version := run.value.version + 1));
      }
      recorded := true;
    }

    // Evidence.

    method Record(expectedVersion: nat, nextState: CaseState, nextWakeAt: Option<Time>,
                  record: EvidenceRecord, wake: Option<IntentId>) returns (result: Result<bool>)
      modifies this`run, this`evidence, this`intents
      ensures match RecordEvidence(old(Docs()), expectedVersion, nextState, nextWakeAt, record, wake)
              case Ok(Recorded(docs, duplicate)) => result == Ok(duplicate) && Docs() == docs
              case Err(reason) => result == Err(reason) && Docs() == old(Docs())
      ensures result == if old(run).None? then Err("CASE_NOT_FOUND")
                        else if record.candidate.evidenceId in old(evidence) then Ok(true)
                        else if old(run).value.version != expectedVersion then Err("VERSION_CONFLICT") else Ok(false)
      ensures result == Ok(false) ==>
        && evidence == old(evidence)[record.candidate.evidenceId := record]
        && run.Some? && run.value.state == nextState && run.value.version == expectedVersion + 1
        && run.value.nextWakeAt == nextWakeAt
        && (wake.Some? ==> wake.value in intents && intents[wake.value].pending)
    {
      if run.None? { return Err("CASE_NOT_FOUND"); }
      var evidenceId := record.candidate.evidenceId;
      if evidenceId in evidence { return Ok(true); }
      if run.value.version != expectedVersion { return Err("VERSION_CONFLICT"); }
      evidence := evidence[evidenceId := record];
      var next := run.value.(state := nextState, version := expectedVersion + 1, nextWakeAt := nextWakeAt);
      if nextState.Done? {
        next := next.(completedLevel := Some(record.candidate.level));
      }
      run := Some(next);
      PersistWake(wake);
      result := Ok(false);
    }

    // Control commands.

    method GetCommandResult(request: ControlRequest) returns (result: Result<Option<CommandResult>>)
      ensures result == Documents.GetCommandResult(Docs(), caseId, request)
      ensures if request.key !in commands then result == Ok(None)
              else
                var Command(usedFor, ownerId, action, answer) := commands[request.key];
                result == if usedFor == caseId && ownerId == request.ownerId && action == request.action
                          then Ok(Some(answer)) else Err("IDEMPOTENCY_KEY_REUSED")
    {
      if request.key !in commands { return Ok(None); }
      var command := commands[request.key];
      if command.caseId != caseId || command.ownerId != request.ownerId || command.action != request.action {
        return Err("IDEMPOTENCY_KEY_REUSED");
      }
      result := Ok(Some(command.result));
    }

    /** STOP, REVOKE, EXPIRE, REOPEN and RESUME. */
    method Transition(request: ControlRequest, wake: Option<IntentId>) returns (result: Result<CommandResult>)
      requires !request.action.Revise? && !request.action.Delete?
      modifies this`run, this`intents, this`commands
      ensures match Documents.Transition(old(Docs()), caseId, request, wake)
              case Ok(Answered(docs, answer, _)) => result == Ok(answer) && Docs() == docs
              case Err(reason) => result == Err(reason) && Docs() == old(Docs())
      ensures request.key !in old(commands) && result.Ok? ==>
        && result.value.RunResult? && run == Some(result.value.run)
        && old(run).Some? && old(run).value.ownerId == request.ownerId
        && run.value.version == request.expectedVersion + 1 == old(run).value.version + 1
        && run.value.state == (match request.action
                               case Stop | Revoke | Revise | Delete => Cancelled
                               case Expire => Expired
                               case Reopen => NeedsAttention
                               case Resume => Ready)
        && run.value.controlledAt == Some(request.now)
        && run.value.nextWakeAt == (if request.action.Resume? then Some(request.now) else old(run).value.nextWakeAt)
        && run.value.approval.revokedAt == (if request.action.Reopen? || request.action.Resume?
                                            then old(run).value.approval.revokedAt else Some(request.now))
      ensures request.key !in old(commands) && result.Ok? ==>
        && commands == old(commands)[request.key := Command(caseId, request.ownerId, request.action, result.value)]
        && intents == if wake.Some? then old(intents)[wake.value := Intent(true, true, 0)] else old(intents)
      ensures request.key !in old(commands) ==>
        (result.Ok? <==>
          old(run).Some? && old(run).value.ownerId == request.ownerId
          && old(run).value.version == request.expectedVersion)
      ensures request.key in old(commands) ==>
        var Command(usedFor, ownerId, action, answer) := old(commands)[request.key];
        && Docs() == old(Docs())
        && result == if usedFor == caseId && ownerId == request.ownerId && action == request.action then Ok(answer)
                     else Err("IDEMPOTENCY_KEY_REUSED")
    {
      if request.key in commands {
        var prior := commands[request.key];
        if prior.caseId != caseId || prior.ownerId != request.ownerId || prior.action != request.action {
          return Err("IDEMPOTENCY_KEY_REUSED");
        }
        return Ok(prior.result);
      }
      if run.None? { return Err("CASE_NOT_FOUND"); }
      var current := run.value;
      if current.ownerId != request.ownerId { return Err("CASE_OWNERSHIP_REQUIRED"); }
      if current.version != request.expectedVersion { return Err("VERSION_CONFLICT"); }
      var state := match request.action
        case Reopen => NeedsAttention
        case Resume => Ready
        case Expire => Expired
        case Stop | Revoke | Revise | Delete => Cancelled;
      var next := current.(state := state, version := current.version + 1, controlledAt := Some(request.now));
      if request.action.Resume? {
        next := next.(nextWakeAt := Some(request.now));
      }
      if !request.action.Reopen? && !request.action.Resume? {
        next := next.(approval := current.approval.(revokedAt := Some(request.now)));
      }
      run := Some(next);
      PersistWake(wake);
      commands := commands[request.key := Command(caseId, request.ownerId, request.action, RunResult(next))];
      result := Ok(RunResult(next));
    }

    /** REVISE: the run is cancelled and the draft awaits a new approval. */
    method BeginReapproval(request: ControlRequest) returns (result: Result<CommandResult>)
      requires request.action.Revise?
      modifies this`run, this`commands
      ensures match Documents.Transition(old(Docs()), caseId, request, None)
              case Ok(Answered(docs, answer, _)) => result == Ok(answer) && Docs() == docs
              case Err(reason) => result == Err(reason) && Docs() == old(Docs())
      ensures request.key !in old(commands) && result.Ok? ==>
        && result.value.RunResult? && run == Some(result.value.run)
        && old(run).Some? && old(run).value.ownerId == request.ownerId
        && run.value.version == request.expectedVersion + 1 == old(run).value.version + 1
        && run.value.state.Cancelled? && run.value.controlledAt == Some(request.now)
        && run.value.nextWakeAt == old(run).value.nextWakeAt
        && run.value.approval.revokedAt == Some(request.now)
        && commands == old(commands)[request.key := Command(caseId, request.ownerId, Revise, result.value)]
      ensures request.key !in old(commands) ==>
        (result.Ok? <==>
          && old(run).Some? && old(run).value.ownerId == request.ownerId && draftOwner == Some(request.ownerId)
          && old(run).value.version == request.expectedVersion)
      ensures request.key in old(commands) ==>
        var Command(usedFor, ownerId, action, answer) := old(commands)[request.key];
        && Docs() == old(Docs())
        && result == if usedFor == caseId && ownerId == request.ownerId && action == request.action then Ok(answer)
                     else Err("IDEMPOTENCY_KEY_REUSED")
    {
      if request.key in commands {
        var prior := commands[request.key];
        if prior.caseId != caseId || prior.ownerId != request.ownerId || !prior.action.Revise? {
          return Err("IDEMPOTENCY_KEY_REUSED");
        }
        return Ok(prior.result);
      }
      if run.None? || draftOwner.None? { return Err("CASE_NOT_FOUND"); }
      var current := run.value;
      if current.ownerId != request.ownerId || draftOwner.value != request.ownerId {
        return Err("CASE_OWNERSHIP_REQUIRED");
      }
      if current.version != request.expectedVersion { return Err("VERSION_CONFLICT"); }
      var next := current.(
        state := Cancelled,
        version := current.version + 1,
        approval := current.approval.(revokedAt := Some(request.now)),
        controlledAt := Some(request.now));
      run := Some(next);
      commands := commands[request.key := Command(caseId, request.ownerId, Revise, RunResult(next))];
      result := Ok(RunResult(next));
    }

    method RequestDeletion(request: ControlRequest) returns (result: Result<CommandResult>)
      modifies this`run, this`draftOwner, this`commands
      ensures match Documents.RequestDeletion(old(Docs()), caseId, request)
              case Ok(Answered(docs, answer, _)) => result == Ok(answer) && Docs() == docs
              case Err(reason) => result == Err(reason) && Docs() == old(Docs())
      ensures result == if request.key in old(commands) then Ok(DeletionAccepted(request.now))
                        else if old(run).None? then Err("CASE_NOT_FOUND")
                        else if old(run).value.ownerId != request.ownerId then Err("CASE_OWNERSHIP_REQUIRED")
                        else if old(run).value.version != request.expectedVersion then Err("VERSION_CONFLICT")
                        else Ok(DeletionAccepted(request.now))
      ensures request.key !in old(commands) && result.Ok? ==>
        && run.None? && draftOwner.None?
        && commands == old(commands)[request.key := Command(caseId, request.ownerId, Delete, result.value)]
    {
      var receipt := DeletionAccepted(request.now);
      if request.key in commands { return Ok(receipt); }
      if run.None? { return Err("CASE_NOT_FOUND"); }
      if run.value.ownerId != request.ownerId { return Err("CASE_OWNERSHIP_REQUIRED"); }
      if run.value.version != request.expectedVersion { return Err("VERSION_CONFLICT"); }
      commands := commands[request.key := Command(caseId, request.ownerId, Delete, receipt)];
      run, draftOwner := None, None;
      result := Ok(receipt);
    }
  }

  function PageSize(limit: int): nat {
    if limit < 1 then 1 else if limit > 100 then 100 else limit
  }
}
