/**
 * The documents of one case and the transactions on them, as functions on values: the run, its
 * action records, wake intents, evidence and control commands. Every transaction is atomic.
 */
module Documents {
  import opened Contracts
  import opened CaseHistory

  /** The idempotency key of a logical action; its hash is taken to be injective. */
  datatype ActionKey = ActionKey(caseId: string, planVersion: nat, actionType: ActionType, ordinal: nat)

  datatype TransportStatus = Delivered | Bounced | Complained | Suppressed

  datatype Receipt = Receipt(receiptId: string, transportStatus: Option<TransportStatus>)

  /** `holder` is the worker that created the reservation. */
  datatype ActionRecord = Reserved(holder: nat) | Unknown | Succeeded(receipt: Receipt)

  datatype Reservation = Fresh | InFlight | AlreadySucceeded(receipt: Receipt)

  /** Intents are identified by the hash of the version they wake and the wake time. */
  datatype IntentId = IntentId(version: nat, wakeAt: Time)

  /**
   * `persisted` is false for a document that only a status merge has created: it names no case
   * and no version, so it can never be dispatched to this case.
   */
  datatype Intent = Intent(pending: bool, persisted: bool, attemptCount: nat)

  datatype CommandResult = RunResult(run: CaseRun) | DeletionAccepted(requestedAt: Time)

  datatype Command = Command(caseId: string, ownerId: string, action: ControlAction, result: CommandResult)

  /** `reasonGiven` is whether the trimmed reason is non-empty. */
  datatype ControlRequest = ControlRequest(
    ownerId: string,
    expectedVersion: nat,
    action: ControlAction,
    reasonGiven: bool,
    now: Time,
    key: string)

  /** `draftOwner` is the owner of the case draft while that document exists. */
  datatype Docs = Docs(
    run: Option<CaseRun>,
    draftOwner: Option<string>,
    records: map<ActionKey, ActionRecord>,
    intents: map<IntentId, Intent>,
    evidence: map<string, EvidenceRecord>,
    commands: map<string, Command>)

  function KeyOf(run: CaseRun): ActionKey {
    ActionKey(run.caseId, run.plan.body.version, SendFollowUp, run.actionOrdinal)
  }

  // The wake outbox.

  function PersistWake(intents: map<IntentId, Intent>, wake: Option<IntentId>): map<IntentId, Intent> {
    match wake
    case None => intents
    case Some(id) => intents[id := Intent(true, true, 0)]
  }

  function MarkIntent(intents: map<IntentId, Intent>, id: IntentId, pending: bool): map<IntentId, Intent> {
    if id in intents then intents[id := intents[id].(pending := pending, attemptCount := intents[id].attemptCount + 1)]
    else intents[id := Intent(pending, false, 1)]
  }

  // The run document.

  function CompareAndSet(docs: Docs, expectedVersion: nat, next: CaseRun, wake: Option<IntentId>): Result<Docs> {
    if docs.run.None? then Err("CASE_NOT_FOUND")
    else if docs.run.value.version != expectedVersion then Err("VERSION_CONFLICT")
    else Ok(docs.(run := Some(next), intents := PersistWake(docs.intents, wake)))
  }

  // The action ledger.

  function ReserveAction(docs: Docs, key: ActionKey, holder: nat): (Docs, Reservation) {
    if key in docs.records then
      match docs.records[key]
      case Succeeded(receipt) => (docs, AlreadySucceeded(receipt))
      case Reserved(_) | Unknown => (docs, InFlight)
    else
      (docs.(records := docs.records[key := Reserved(holder)]), Fresh)
  }

  function SucceedAction(docs: Docs, key: ActionKey, receiptId: string): Docs {
    docs.(records := docs.records[key := Succeeded(Receipt(receiptId, None))])
  }

  function FailAction(docs: Docs, key: ActionKey): Docs {
    docs.(records := docs.records - {key})
  }

  function MarkUnknown(docs: Docs, key: ActionKey): Docs {
    docs.(records := docs.records[key := Unknown])
  }

  function StampReceipt(docs: Docs, key: ActionKey, status: TransportStatus): Docs {
    if key in docs.records && docs.records[key].Succeeded? then
      docs.(records := docs.records[key := Succeeded(docs.records[key].receipt.(transportStatus := Some(status)))])
    else docs
  }

  /** The case part of a bounced, complained or suppressed delivery. */
  function RecordBounce(docs: Docs): Docs {
    if docs.run.None? || docs.run.value.state.Done? || docs.run.value.state.Cancelled? then docs
    else docs.(run := Some(docs.run.value.(state := NeedsAttention, version := docs.run.value.version + 1)))
  }

  // Evidence.

  datatype Recorded = Recorded(docs: Docs, duplicate: bool)

  function RecordEvidence(docs: Docs, expectedVersion: nat, nextState: CaseState, nextWakeAt: Option<Time>,
                          record: EvidenceRecord, wake: Option<IntentId>): Result<Recorded>
  {
    if docs.run.None? then Err("CASE_NOT_FOUND")
    else if record.candidate.evidenceId in docs.evidence then Ok(Recorded(docs, true))
    else if docs.run.value.version != expectedVersion then Err("VERSION_CONFLICT")
    else
      var run := docs.run.value;
      var next := run.(
        state := nextState,
        version := expectedVersion + 1,
        nextWakeAt := nextWakeAt,
        completedLevel := if nextState.Done? then Some(record.candidate.level) else run.completedLevel);
      Ok(Recorded(docs.(run := Some(next),
                        evidence := docs.evidence[record.candidate.evidenceId := record],
                        intents := PersistWake(docs.intents, wake)), false))
  }

  // Control commands.

  predicate SameCommand(command: Command, caseId: string, request: ControlRequest) {
    command.caseId == caseId && command.ownerId == request.ownerId && command.action == request.action
  }

  function GetCommandResult(docs: Docs, caseId: string, request: ControlRequest): Result<Option<CommandResult>> {
    if request.key !in docs.commands then Ok(None)
    else if !SameCommand(docs.commands[request.key], caseId, request) then Err("IDEMPOTENCY_KEY_REUSED")
    else Ok(Some(docs.commands[request.key].result))
  }

  function ControlledRun(run: CaseRun, request: ControlRequest): CaseRun {
    run.(
      state := ControlState(request.action),
      version := run.version + 1,
      controlledAt := Some(request.now),
      nextWakeAt := if request.action.Resume? then Some(request.now) else run.nextWakeAt,
      approval := if Revokes(request.action) then run.approval.(revokedAt := Some(request.now)) else run.approval)
  }

  datatype Answered = Answered(docs: Docs, result: CommandResult, replayed: bool)

  /** `transition`, and for REVISE `beginReapproval`, which also needs the draft. */
  function Transition(docs: Docs, caseId: string, request: ControlRequest, wake: Option<IntentId>): Result<Answered> {
    if request.key in docs.commands then
      if !SameCommand(docs.commands[request.key], caseId, request) then Err("IDEMPOTENCY_KEY_REUSED")
      else Ok(Answered(docs, docs.commands[request.key].result, true))
    else if docs.run.None? || (request.action.Revise? && docs.draftOwner.None?) then Err("CASE_NOT_FOUND")
    else if || docs.run.value.ownerId != request.ownerId
            || (request.action.Revise? && docs.draftOwner != Some(request.ownerId)) then Err("CASE_OWNERSHIP_REQUIRED")
    else if docs.run.value.version != request.expectedVersion then Err("VERSION_CONFLICT")
    else
      var next := ControlledRun(docs.run.value, request);
      var command := Command(caseId, request.ownerId, request.action, RunResult(next));
      Ok(Answered(docs.(run := Some(next),
                        intents := PersistWake(docs.intents, wake),
                        commands := docs.commands[request.key := command]),
                  RunResult(next), false))
  }

  /** An existing command under the key, whatever it was, makes this a no-op. */
  function RequestDeletion(docs: Docs, caseId: string, request: ControlRequest): Result<Answered> {
    var receipt := DeletionAccepted(request.now);
    if request.key in docs.commands then Ok(Answered(docs, receipt, true))
    else if docs.run.None? then Err("CASE_NOT_FOUND")
    else if docs.run.value.ownerId != request.ownerId then Err("CASE_OWNERSHIP_REQUIRED")
    else if docs.run.value.version != request.expectedVersion then Err("VERSION_CONFLICT")
    else
      var command := Command(caseId, request.ownerId, Delete, receipt);
      Ok(Answered(docs.(run := None, draftOwner := None, commands := docs.commands[request.key := command]),
                  receipt, false))
  }
}
