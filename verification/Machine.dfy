/**
 * The follow-through protocol as a step machine: any number of workers act on the documents of one
 * case, one store, queue or adapter call a step, and any of them may crash between two steps.
 */
module Machine {
  import opened Contracts
  import opened CaseHistory
  import opened Documents
  import opened Verifier

  /** Where a worker stands: the call it makes next. */
  datatype Pc =
    | Load
    | Enqueue(version: nat, wakeAt: Time)
    | Mark(version: nat, wakeAt: Time, enqueued: bool)
    | Reserve(item: CaseRun)
    | Charge(item: CaseRun)
    | Call(item: CaseRun)
    | Calling(item: CaseRun, execution: nat)
    | Settle(item: CaseRun, receiptId: string, execution: nat)
    | Doubt(item: CaseRun)
    | Release(item: CaseRun, accepted: Option<nat>)
    | Publish(item: CaseRun, receiptId: string)
    | Recover(item: CaseRun)
    | Deny(item: CaseRun)
    | Spend(item: CaseRun)
    | Notify
    | Record(item: CaseRun)
    | LoadRun
    | Control(item: CaseRun)
    | Finish(acknowledge: bool)

  /** Who a worker is. A runner serves one delivery of a queue task. */
  datatype Role =
    | Runner(task: nat, version: nat, now: Time)
    | Dispatcher
    | Witness(candidate: Candidate, now: Time)
    | Controller(request: ControlRequest)

  datatype Worker = Worker(role: Role, pc: Pc)

  datatype Task = Task(version: nat, handler: Option<nat>, acknowledged: bool)

  datatype Status = InProgress | Accepted | Uncertain | Rejected

  /** One adapter execution; `version` is that of the run its worker had read. */
  datatype Execution = Execution(key: ActionKey, worker: nat, version: nat, now: Time, status: Status)

  /** A result handed to the caller of a control command. */
  datatype Reply = Reply(request: ControlRequest, result: CommandResult)

  /** `forgotten` are the accepted executions whose settlement threw and whose key was then freed. */
  datatype State = State(
    config: Config,
    caseId: string,
    docs: Docs,
    queue: seq<Task>,
    workers: map<nat, Worker>,
    nextWorker: nat,
    history: seq<Commit>,
    executions: seq<Execution>,
    forgotten: set<nat>,
    replies: seq<Reply>)

  /** How a call turns out. A call that throws has had no effect, except where a step says so. */
  datatype Outcome = Returns | Throws | Accept(receiptId: string) | LoseTrack

  datatype Label =
    | Deliver(task: nat, now: Time)
    | Duplicate(task: nat)
    | Redispatch(id: IntentId)
    | Arrive(candidate: Candidate, now: Time)
    | Request(request: ControlRequest)
    | ScheduleFirst(wakeAt: Time)
    | Bounce
    | Stamp(key: ActionKey, status: TransportStatus)
    | DropDraft
    | Foreign(name: string, command: Command)
    | Work(worker: nat, outcome: Outcome)
    | Crash(worker: nat)

  function Current(s: State): CaseRun
    requires |s.history| > 0
  {
    s.history[|s.history| - 1].run
  }

  /** Plan approval has just committed: the first version and its wake intent exist. */
  predicate Init(s: State, run: CaseRun, wakeAt: Time) {
    && Activated(run) && run.caseId == s.caseId
    && s.docs == Docs(Some(run), Some(run.ownerId), map[], PersistWake(map[], Some(IntentId(1, wakeAt))), map[], map[])
    && s.queue == [] && s.workers == map[] && s.nextWorker == 0
    && s.history == [Commit(run, Activation)]
    && s.executions == [] && s.forgotten == {} && s.replies == []
  }

  /** What one call does to the shared state. */
  datatype Effect =
    | Silent
    | Commits(docs: Docs, writer: Writer, answers: seq<Reply>)
    | Writes(key: ActionKey, record: Option<ActionRecord>)
    | Forgets(key: ActionKey, forgotten: nat)
    | Begins(execution: Execution)
    | Concludes(index: nat, status: Status)
    | Pushes(version: nat)
    | Marks(id: IntentId, pending: bool)
    | Deletes(docs: Docs, reply: Reply)
    | Answers(reply: Reply)

  /** A worker's next call and where it stands afterwards. */
  datatype Move = Move(effect: Effect, pc: Pc)

  function Perform(s: State, effect: Effect): State {
    match effect
    case Silent => s
    case Commits(docs, writer, answers) =>
      if docs.run.None? then s
      else s.(docs := docs, history := s.history + [Commit(docs.run.value, writer)], replies := s.replies + answers)
    case Writes(key, record) =>
      s.(docs := s.docs.(records := if record.Some? then s.docs.records[key := record.value]
                                    else s.docs.records - {key}))
    case Forgets(key, e) =>
      s.(docs := s.docs.(records := s.docs.records - {key}), forgotten := s.forgotten + {e})
    case Begins(execution) => s.(executions := s.executions + [execution])
    case Concludes(index, status) =>
      if index < |s.executions|
      then s.(executions := s.executions[index := s.executions[index].(status := status)])
      else s
    case Pushes(version) => s.(queue := s.queue + [Task(version, None, false)])
    case Marks(id, pending) => s.(docs := s.docs.(intents := MarkIntent(s.docs.intents, id, pending)))
    case Deletes(docs, reply) => s.(docs := docs, replies := s.replies + [reply])
    case Answers(reply) => s.(replies := s.replies + [reply])
  }

  /** What the runner does with the run it has read, up to its next call. */
  function AfterLoad(version: nat, now: Time, found: Option<CaseRun>): Pc {
    if found.None? then Finish(false)
    else
      var item := found.value;
      if item.version != version || !Live(item.state) then
        if Live(item.state) && item.nextWakeAt.Some? then Enqueue(item.version, item.nextWakeAt.value)
        else Finish(true)
      else if !DueBy(item, now) then Finish(false)
      else if !WithinSends(item) then Spend(item)
      else if !HasRequirement(item) then Recover(item)
      else if !Authorized(item, now) then Deny(item)
      else Reserve(item)
  }

  /** A runner's compare-and-set of what `writer` makes of the run it has read. */
  function RunnerCommit(s: State, item: CaseRun, writer: Writer, wake: Option<IntentId>,
                        committed: Pc, lost: Pc): Move
  {
    match CompareAndSet(s.docs, item.version, Advance(s.config, item, writer), wake)
    case Err(_) => Move(Silent, lost)
    case Ok(docs) => Move(Commits(docs, writer, []), committed)
  }

  /** The ledger write that `ReserveAction` makes and where its answer leads. */
  function RunnerReserve(s: State, w: nat, item: CaseRun): Move {
    match ReserveAction(s.docs, KeyOf(item), w).1
    case Fresh => Move(Writes(KeyOf(item), Some(Reserved(w))), Charge(item))
    case InFlight => Move(Silent, Finish(true))
    case AlreadySucceeded(receipt) => Move(Silent, Publish(item, receipt.receiptId))
  }

  function RunnerRecover(s: State, item: CaseRun, now: Time): Move {
    if s.config.maxAttempts <= item.attemptCount + 1 then
      RunnerCommit(s, item, RunnerExhausted(now), None, Notify, Finish(false))
    else
      var wakeAt := now + s.config.retryDelayMillis;
      RunnerCommit(s, item, RunnerRetry(now), Some(IntentId(item.version + 1, wakeAt)),
                   Enqueue(item.version + 1, wakeAt), Finish(false))
  }

  function RunnerPublish(s: State, item: CaseRun, now: Time, receiptId: string): Move {
    var wakeAt := now + FollowUpMillis(item.plan);
    RunnerCommit(s, item, RunnerSent(now, receiptId), Some(IntentId(item.version + 1, wakeAt)),
                 Enqueue(item.version + 1, wakeAt), Recover(item))
  }

  /** `CaseRunner.run` with `ActionBroker.execute` inside it. */
  function RunnerMove(s: State, w: nat, role: Role, pc: Pc, o: Outcome): Move
    requires role.Runner?
  {
    match pc
    case Load => Move(Silent, if o.Throws? then Finish(false) else AfterLoad(role.version, role.now, s.docs.run))
    case Reserve(item) => if o.Throws? then Move(Silent, Recover(item)) else RunnerReserve(s, w, item)
    case Charge(item) => Move(Silent, if o.Throws? then Release(item, None) else Call(item))
    case Call(item) =>
      Move(Begins(Execution(KeyOf(item), w, item.version, role.now, InProgress)), Calling(item, |s.executions|))
    case Calling(item, e) =>
      (match o
       case Accept(receiptId) => Move(Concludes(e, Status.Accepted), Settle(item, receiptId, e))
       case LoseTrack => Move(Concludes(e, Uncertain), Doubt(item))
       case Returns | Throws => Move(Concludes(e, Rejected), Release(item, None)))
    case Settle(item, receiptId, e) =>
      // A throw here lands in the generic failure path, which frees the key of an accepted action.
      if o.Throws? then Move(Silent, Release(item, Some(e)))
      else Move(Writes(KeyOf(item), Some(Succeeded(Receipt(receiptId, None)))), Publish(item, receiptId))
    case Doubt(item) => Move(if o.Throws? then Silent else Writes(KeyOf(item), Some(Unknown)), Recover(item))
    case Release(item, accepted) =>
      // A throw after the delete, while the failure is being noted, ends where no throw does.
      Move(if o.Throws? then Silent
           else if accepted.Some? then Forgets(KeyOf(item), accepted.value)
           else Writes(KeyOf(item), None),
           Recover(item))
    case Publish(item, receiptId) =>
      if o.Throws? then Move(Silent, Recover(item)) else RunnerPublish(s, item, role.now, receiptId)
    case Recover(item) => if o.Throws? then Move(Silent, Finish(false)) else RunnerRecover(s, item, role.now)
    case Deny(item) =>
      if o.Throws? then Move(Silent, Finish(false))
      else RunnerCommit(s, item, RunnerDenied(role.now), None, Notify, Finish(false))
    case Spend(item) =>
      if o.Throws? then Move(Silent, Finish(false))
      else RunnerCommit(s, item, RunnerSpent(role.now), None, Notify, Finish(false))
    case Notify => Move(Silent, Finish(!o.Throws?))
    case _ => SchedulingMove(pc, o)
  }

  /** `DurableWakeScheduler.scheduleCase`, shared by every role. */
  function SchedulingMove(pc: Pc, o: Outcome): Move {
    match pc
    case Enqueue(version, wakeAt) =>
      if o.Throws? then Move(Silent, Mark(version, wakeAt, false))
      else Move(Pushes(version), Mark(version, wakeAt, true))
    case Mark(version, wakeAt, enqueued) =>
      if o.Throws? then Move(Silent, if enqueued then Mark(version, wakeAt, false) else Finish(false))
      else Move(Marks(IntentId(version, wakeAt), !enqueued), Finish(enqueued))
    case _ => Move(Silent, pc)
  }

  function WitnessRecord(item: CaseRun, candidate: Candidate, now: Time): EvidenceRecord
    requires HasRequirement(item)
  {
    EvidenceRecord(candidate, Verify(item.caseId, item.plan.body.requirements[0], candidate, now), now)
  }

  function EvidenceWake(item: CaseRun, verification: Verification, now: Time): Option<Time> {
    if EvidenceState(verification).WaitingExternal? then Some(now + FollowUpMillis(item.plan)) else None
  }

  function WitnessReconcile(s: State, item: CaseRun, candidate: Candidate, now: Time): Move
    requires HasRequirement(item)
  {
    var record := WitnessRecord(item, candidate, now);
    var nextWakeAt := EvidenceWake(item, record.verification, now);
    var wake := if nextWakeAt.Some? then Some(IntentId(item.version + 1, nextWakeAt.value)) else None;
    match RecordEvidence(s.docs, item.version, EvidenceState(record.verification), nextWakeAt, record, wake)
    case Err(_) => Move(Silent, Finish(false))
    case Ok(Recorded(docs, duplicate)) =>
      if duplicate then Move(Silent, Finish(true))
      else
        Move(Commits(docs, Writer.Evidence(record), []),
             if wake.Some? then Enqueue(wake.value.version, wake.value.wakeAt) else Finish(true))
  }

  /** `EvidenceService.reconcile`. */
  function WitnessMove(s: State, role: Role, pc: Pc, o: Outcome): Move
    requires role.Witness?
  {
    match pc
    case Load =>
      if o.Throws? || s.docs.run.None? then Move(Silent, Finish(false))
      else
        var item := s.docs.run.value;
        Move(Silent, if (item.state.Running? || item.state.WaitingExternal?) && HasRequirement(item) then Record(item)
                     else Finish(false))
    case Record(item) =>
      if o.Throws? || !HasRequirement(item) then Move(Silent, Finish(false))
      else WitnessReconcile(s, item, role.candidate, role.now)
    case _ => SchedulingMove(pc, o)
  }

  /** The guards of `CaseControlService.command` on the run it has read. */
  predicate CommandAllowed(item: CaseRun, request: ControlRequest) {
    && item.ownerId == request.ownerId
    && item.version == request.expectedVersion
    && (request.action.Delete?
        || (ControlAllowed(item, request.action, request.now) && (request.action.Reopen? ==> request.reasonGiven)))
  }

  /** A replayed RESUME schedules its wake again. */
  function ControllerReplay(s: State, request: ControlRequest): Move {
    match GetCommandResult(s.docs, s.caseId, request)
    case Err(_) => Move(Silent, Finish(false))
    case Ok(None) => Move(Silent, LoadRun)
    case Ok(Some(result)) =>
      Move(Answers(Reply(request, result)),
           if request.action.Resume? && result.RunResult?
           then Enqueue(result.run.version, result.run.nextWakeAt.GetOr(result.run.controlledAt.GetOr(request.now)))
           else Finish(true))
  }

  function ControllerDelete(s: State, request: ControlRequest): Move {
    match RequestDeletion(s.docs, s.caseId, request)
    case Err(_) => Move(Silent, Finish(false))
    case Ok(Answered(docs, result, replayed)) =>
      Move(if replayed then Answers(Reply(request, result)) else Deletes(docs, Reply(request, result)), Finish(true))
  }

  function ControllerTransition(s: State, request: ControlRequest): Move {
    var wake := if request.action.Resume? then Some(IntentId(request.expectedVersion + 1, request.now)) else None;
    match Transition(s.docs, s.caseId, request, wake)
    case Err(_) => Move(Silent, Finish(false))
    case Ok(Answered(docs, result, replayed)) =>
      var reply := Reply(request, result);
      Move(if replayed then Answers(reply)
           else Commits(docs, Writer.Control(request.action, request.key, request.now), [reply]),
           if request.action.Resume? && result.RunResult? then Enqueue(result.run.version, request.now)
           else Finish(true))
  }

  /** `CaseControlService.command`. */
  function ControllerMove(s: State, role: Role, pc: Pc, o: Outcome): Move
    requires role.Controller?
  {
    match pc
    case Load => if o.Throws? then Move(Silent, Finish(false)) else ControllerReplay(s, role.request)
    case LoadRun =>
      if o.Throws? || s.docs.run.None? || !CommandAllowed(s.docs.run.value, role.request)
      then Move(Silent, Finish(false))
      else Move(Silent, Pc.Control(s.docs.run.value))
    case Control(item) =>
      if o.Throws? then Move(Silent, Finish(false))
      else if role.request.action.Delete? then ControllerDelete(s, role.request)
      else ControllerTransition(s, role.request)
    case _ => SchedulingMove(pc, o)
  }

  function MoveOf(s: State, w: nat, o: Outcome): Move
    requires w in s.workers
  {
    var Worker(role, pc) := s.workers[w];
    match role
    case Runner(_, _, _) => RunnerMove(s, w, role, pc, o)
    case Witness(_, _) => WitnessMove(s, role, pc, o)
    case Controller(_) => ControllerMove(s, role, pc, o)
    case Dispatcher => SchedulingMove(pc, o)
  }

  /** The task of a runner that ends is free again, acknowledged or not. */
  function Freed(queue: seq<Task>, role: Role, acknowledge: bool): seq<Task> {
    if role.Runner? && role.task < |queue| then
      var task := queue[role.task];
      queue[role.task := task.(handler := None, acknowledged := task.acknowledged || acknowledge)]
    else queue
  }

  function End(s: State, w: nat, acknowledge: bool): State
    requires w in s.workers
  {
    s.(queue := Freed(s.queue, s.workers[w].role, acknowledge), workers := s.workers - {w})
  }

  function Goto(s: State, w: nat, role: Role, pc: Pc): State {
    s.(workers := s.workers[w := Worker(role, pc)])
  }

  function WorkerStep(s: State, w: nat, o: Outcome): State
    requires w in s.workers
  {
    var Worker(role, pc) := s.workers[w];
    if pc.Finish? then End(s, w, pc.acknowledge)
    else Goto(Perform(s, MoveOf(s, w, o).effect), w, role, MoveOf(s, w, o).pc)
  }

  function Spawn(s: State, role: Role, pc: Pc): State {
    s.(workers := s.workers[s.nextWorker := Worker(role, pc)], nextWorker := s.nextWorker + 1)
  }

  predicate Enabled(s: State, l: Label) {
    match l
    case Deliver(t, _) => t < |s.queue| && s.queue[t].handler.None? && !s.queue[t].acknowledged
    case Duplicate(t) => t < |s.queue|
    case Redispatch(id) => id in s.docs.intents && s.docs.intents[id].persisted
    case Foreign(key, command) => key !in s.docs.commands && command.caseId != s.caseId
    case Work(w, _) => w in s.workers
    case Crash(w) => w in s.workers
    case Bounce =>
      // The delivery that is reported lost is that of a receipt.
      exists key <- s.docs.records.Keys :: s.docs.records[key].Succeeded?
    case Arrive(_, _) | Request(_) | ScheduleFirst(_) | Stamp(_, _) | DropDraft => true
  }

  function Next(s: State, l: Label): State
    requires Enabled(s, l)
  {
    match l
    case Deliver(t, now) =>
      Spawn(s.(queue := s.queue[t := s.queue[t].(handler := Some(s.nextWorker))]),
            Runner(t, s.queue[t].version, now), Load)
    case Duplicate(t) => Perform(s, Pushes(s.queue[t].version))
    case Redispatch(id) => Spawn(s, Dispatcher, Enqueue(id.version, id.wakeAt))
    case Arrive(candidate, now) => Spawn(s, Witness(candidate, now), Load)
    case Request(request) => Spawn(s, Controller(request), Load)
    case ScheduleFirst(wakeAt) => Spawn(s, Dispatcher, Enqueue(1, wakeAt))
    case Bounce =>
      if RecordBounce(s.docs) == s.docs then s else Perform(s, Commits(RecordBounce(s.docs), Transport, []))
    case Stamp(key, status) => s.(docs := StampReceipt(s.docs, key, status))
    case DropDraft => s.(docs := s.docs.(draftOwner := None))
    case Foreign(key, command) => s.(docs := s.docs.(commands := s.docs.commands[key := command]))
    case Work(w, o) => WorkerStep(s, w, o)
    case Crash(w) => End(s, w, false)
  }

  /** The labels, taken in order, lead from `s` to `t`. */
  ghost predicate Leads(s: State, labels: seq<Label>, t: State)
    decreases |labels|
  {
    if labels == [] then s == t
    else Enabled(s, labels[0]) && Leads(Next(s, labels[0]), labels[1..], t)
  }

  lemma {:induction false} LeadsAppend(s: State, first: seq<Label>, t: State, second: seq<Label>, u: State)
    requires Leads(s, first, t) && Leads(t, second, u)
    ensures Leads(s, first + second, u)
    decreases |first|
  {
    if first == [] {
      assert first + second == second;
    } else {
      assert (first + second)[1..] == first[1..] + second;
      LeadsAppend(Next(s, first[0]), first[1..], t, second, u);
    }
  }

  lemma LeadsOne(s: State, l: Label)
    requires Enabled(s, l)
    ensures Leads(s, [l], Next(s, l))
  {
    assert Leads(Next(s, l), [l][1..], Next(s, l));
  }
}
