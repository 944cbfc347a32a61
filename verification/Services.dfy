/**
 * The services that drive a case, step by step as they run. Each is proved to follow the machine:
 * whatever the rest of the world does between its calls, all it does is the steps of one worker.
 */
module Services {
  import opened Contracts
  import opened CaseHistory
  import opened Documents
  import opened Machine
  import opened WakeInvariant
  import opened FollowThrough
  import opened Sessions
  import opened Store
  import Policy
  import Verifier

  class DurableWakeScheduler {
    const session: Session

    constructor (session: Session)
      ensures this.session == session
    {
      this.session := session;
    }

    /**
     * The intent leaves PENDING only after its task has been enqueued. What becomes of it is noted, unless
     * noting a failure throws as well.
     */
    method ScheduleCase(id: IntentId) returns (scheduled: bool, noted: bool)
      requires session.At(Pc.Enqueue(id.version, id.wakeAt))
      modifies session`world, session`trace, session`committed, session.store
      ensures session.At(Finish(scheduled)) && session.committed == old(session.committed)
      ensures forall reply <- old(session.world.replies) :: reply in session.world.replies
      ensures |session.world.queue| >= |old(session.world.queue)| + if scheduled then 1 else 0
      ensures scheduled ==> noted
      ensures noted ==> id in session.world.docs.intents && session.world.docs.intents[id].pending == !scheduled
      ensures !scheduled ==> Work(session.worker, Throws) in session.trace
    {
      var enqueued := session.Enqueue(id);
      if enqueued {
        var marked := session.MarkDispatched(id);
        if marked {
          return true, true;
        }
      }
      noted := session.MarkFailed(id);
      scheduled := false;
    }
  }

  datatype BrokerResult = Denied | PendingDuplicate | Sent(receiptId: string, duplicate: bool)

  class ActionBroker {
    const session: Session

    constructor (session: Session)
      ensures this.session == session
    {
      this.session := session;
    }

    method Execute(item: CaseRun, now: Time) returns (result: Result<BrokerResult>)
      requires session.role.Runner? && session.role.now == now && HasRequirement(item)
      requires session.At(if Authorized(item, now) then Pc.Reserve(item) else Deny(item))
      modifies session`world, session`trace, session`committed, session.store
      ensures session.committed == old(session.committed)
      ensures result == Ok(Denied) <==> !Policy.Licensed(PolicyOf(item), ProposalOf(item), now)
      ensures session.At(match result
                         case Ok(Denied) => Deny(item)
                         case Ok(PendingDuplicate) => Finish(true)
                         case Ok(Sent(receiptId, _)) => Publish(item, receiptId)
                         case Err(_) => Recover(item))
    {
      var decision := Policy.AuthorizeAction(PolicyOf(item), ProposalOf(item), now);
      Policy.AuthorizedIffLicensed(PolicyOf(item), ProposalOf(item), now);
      if !decision.authorized {
        return Ok(Denied);
      }
      var reservation := session.Reserve(item);
      if reservation.None? {
        return Err("UNAVAILABLE");
      }
      match reservation.value
      case AlreadySucceeded(receipt) => return Ok(Sent(receipt.receiptId, true));
      case InFlight => return Ok(PendingDuplicate);
      case Fresh => result := Send(item);
    }

    /** Under a fresh reservation: charge the budget, call the adapter, settle. */
    method Send(item: CaseRun) returns (result: Result<BrokerResult>)
      requires session.role.Runner? && session.At(Charge(item))
      modifies session`world, session`trace, session`committed, session.store
      ensures session.committed == old(session.committed)
      ensures result.Ok? ==> result.value.Sent? && !result.value.duplicate
      ensures session.At(if result.Ok? then Publish(item, result.value.receiptId) else Recover(item))
    {
      var granted := session.ReserveExternalSend(item);
      if !granted {
        session.Fail(item);
        return Err("EXTERNAL_SEND_BUDGET_EXHAUSTED");
      }
      var provided := session.Execute(item);
      match provided
      case OutcomeUnknown =>
        // The provider may have accepted: the key stays taken.
        session.MarkUnknown(item);
        return Err("ACTION_OUTCOME_UNKNOWN");
      case Failure =>
        session.Fail(item);
        return Err("ADAPTER_FAILURE");
      case Receipted(receiptId) =>
        var settled := session.Succeed(item, receiptId);
        if !settled {
          session.Fail(item);
          return Err("UNAVAILABLE");
        }
        return Ok(Sent(receiptId, false));
    }
  }

  datatype RunResult =
    | StaleTask
    | NotDue(wakeAt: Time)
    | ActionInFlight
    | AwaitingAnswer(receiptId: string)
    | Retrying(wakeAt: Time)
    | ActionDenied
    | RecoveryExhausted
    | BudgetExhausted

  /** The task controller answers 200 to every result but NOT_DUE; an error is a 500. */
  predicate Acknowledged(result: Result<RunResult>) {
    result.Ok? && !result.value.NotDue?
  }

  /** What a runner has committed when it reports a result. */
  ghost predicate Reports(config: Config, now: Time, result: RunResult, committed: seq<Writer>) {
    match result
    case StaleTask | NotDue(_) | ActionInFlight => committed == []
    case AwaitingAnswer(receiptId) => committed == [RunnerSent(now, receiptId)]
    case Retrying(wakeAt) => committed == [RunnerRetry(now)] && wakeAt == now + config.retryDelayMillis
    case ActionDenied => committed == [RunnerDenied(now)]
    case RecoveryExhausted => committed == [RunnerExhausted(now)]
    case BudgetExhausted => committed == [RunnerSpent(now)]
  }

  /** What the answer of the guarded part says of the run that was read. */
  ghost predicate Guarded(config: Config, now: Time, item: CaseRun, result: RunResult) {
    var licensed := HasRequirement(item) && Policy.Licensed(PolicyOf(item), ProposalOf(item), now);
    match result
    case ActionDenied => HasRequirement(item) && !licensed
    case ActionInFlight | AwaitingAnswer(_) => licensed
    case Retrying(at) =>
      && (HasRequirement(item) ==> licensed)
      && item.attemptCount + 1 < config.maxAttempts && at == now + config.retryDelayMillis
    case RecoveryExhausted => (HasRequirement(item) ==> licensed) && config.maxAttempts <= item.attemptCount + 1
    case StaleTask | NotDue(_) | BudgetExhausted => false
  }

  ghost predicate Recovered(config: Config, now: Time, item: CaseRun, result: RunResult) {
    || (item.attemptCount + 1 < config.maxAttempts && result == Retrying(now + config.retryDelayMillis))
    || (config.maxAttempts <= item.attemptCount + 1 && result == RecoveryExhausted)
  }

  /** What an answer to a task for `version` says of the run that was read: each excludes the others. */
  ghost predicate Fits(config: Config, version: nat, now: Time, item: CaseRun, result: RunResult) {
    var current :=
      item.version == version && (item.state.Ready? || item.state.WaitingRetry? || item.state.WaitingExternal?);
    var wakeAt := match item.nextWakeAt case Some(at) => at case None => item.dueAt;
    var sends := match item.plan.body.maxLogicalSends case Some(n) => n case None => 3;
    match result
    case StaleTask => !current
    case NotDue(at) => current && now < wakeAt == at
    case BudgetExhausted => current && wakeAt <= now && sends < item.actionOrdinal
    case _ => current && wakeAt <= now && item.actionOrdinal <= sends && Guarded(config, now, item, result)
  }

  class CaseRunner {
    const session: Session
    const broker: ActionBroker
    const scheduler: DurableWakeScheduler
    const config: Config

    constructor (session: Session, config: Config)
      ensures this.session == session && this.config == config
      ensures broker.session == session && scheduler.session == session
    {
      this.session, this.config := session, config;
      broker := new ActionBroker(session);
      scheduler := new DurableWakeScheduler(session);
    }

    ghost predicate Wired() {
      broker.session == session && scheduler.session == session && session.role.Runner?
      && config == session.origin.config
    }

    /** One delivery of a task for `version`, served at `now`. */
    method Run(version: nat, now: Time) returns (result: Result<RunResult>)
      requires Wired() && session.role.version == version && session.role.now == now
      requires session.At(Load) && session.committed == []
      modifies session`world, session`trace, session`committed, session`read, session.store
      ensures session.At(Finish(Acknowledged(result)))
      ensures result.Ok? ==> Reports(config, now, result.value, session.committed)
      ensures result.Ok? ==>
        session.read.Some? && Fits(config, version, now, session.read.value, result.value)
      ensures |session.committed| <= 1
    {
      var found := session.Get();
      if found.None? {
        return Err("UNAVAILABLE");
      }
      if found.value.None? {
        return Err("CASE_NOT_FOUND");
      }
      var item := found.value.value;
      if item.version != version || !Live(item.state) {
        result := Stale(item);
        return;
      }
      result := Serve(item, now);
    }

    /** The run that was read is the one the task is for, in a live state. */
    method Serve(item: CaseRun, now: Time) returns (result: Result<RunResult>)
      requires Wired() && session.role.now == now && Live(item.state) && session.committed == []
      requires session.At(AfterLoad(item.version, now, Some(item)))
      modifies session`world, session`trace, session`committed, session.store
      ensures session.At(Finish(Acknowledged(result)))
      ensures result.Ok? ==> Reports(config, now, result.value, session.committed)
      ensures result.Ok? ==> Fits(config, item.version, now, item, result.value)
      ensures |session.committed| <= 1
    {
      var wakeAt := item.nextWakeAt.GetOr(item.dueAt);
      if now < wakeAt {
        return Ok(NotDue(wakeAt));
      }
      if item.actionOrdinal > MaxSends(item.plan) {
        result := Exhaust(item, now);
        return;
      }
      result := Act(item, now);
    }

    /** The task is for another version: the wake of the current one is scheduled once more. */
    method Stale(item: CaseRun) returns (result: Result<RunResult>)
      requires Wired()
      requires session.At(if Live(item.state) && item.nextWakeAt.Some?
                          then Pc.Enqueue(item.version, item.nextWakeAt.value) else Finish(true))
      modifies session`world, session`trace, session`committed, session.store
      ensures session.At(Finish(result.Ok?)) && (result.Ok? ==> result.value.StaleTask?)
      ensures session.committed == old(session.committed)
    {
      if Live(item.state) && item.nextWakeAt.Some? {
        var scheduled, _ := scheduler.ScheduleCase(IntentId(item.version, item.nextWakeAt.value));
        if !scheduled {
          return Err("WAKE_DISPATCH_FAILED");
        }
      }
      result := Ok(StaleTask);
    }

    /** A version that ends the live states, and the notice of it. */
    method CommitAndNotify(item: CaseRun, now: Time, next: CaseRun, ghost pc: Pc) returns (error: Option<string>)
      requires Wired() && session.role.now == now && Writing(pc) && pc.item == item && session.At(pc)
      requires var attempt := AttemptOf(config, now, pc);
               && next == Advance(config, item, attempt.writer) && attempt.wake.None?
               && attempt.committed == Pc.Notify && attempt.lost == Finish(false)
      modifies session`world, session`trace, session`committed, session.store
      ensures session.At(Finish(error.None?))
      ensures error.None? ==> session.committed == old(session.committed) + [AttemptOf(config, now, pc).writer]
      ensures || session.committed == old(session.committed)
              || session.committed == old(session.committed) + [AttemptOf(config, now, pc).writer]
    {
      error := session.CompareAndSet(item, next, None, pc);
      if error.None? {
        var notified := session.Notify();
        error := if notified then None else Some("UNAVAILABLE");
      }
    }

    /** A version that stays live, and the dispatch of its wake. */
    method CommitAndSchedule(item: CaseRun, now: Time, next: CaseRun, wake: IntentId, ghost pc: Pc)
      returns (error: Option<string>, scheduled: bool)
      requires Wired() && session.role.now == now && Writing(pc) && pc.item == item && session.At(pc)
      requires var attempt := AttemptOf(config, now, pc);
               && next == Advance(config, item, attempt.writer) && attempt.wake == Some(wake)
               && attempt.committed == Pc.Enqueue(wake.version, wake.wakeAt)
      modifies session`world, session`trace, session`committed, session.store
      ensures var attempt := AttemptOf(config, now, pc);
              if error.None? then
                session.At(Finish(scheduled)) && session.committed == old(session.committed) + [attempt.writer]
              else session.At(attempt.lost) && session.committed == old(session.committed)
    {
      scheduled := false;
      error := session.CompareAndSet(item, next, Some(wake), pc);
      if error.None? {
        var done, _ := scheduler.ScheduleCase(wake);
        scheduled := done;
      }
    }

    method Exhaust(item: CaseRun, now: Time) returns (result: Result<RunResult>)
      requires Wired() && session.role.now == now && session.At(Spend(item)) && session.committed == []
      modifies session`world, session`trace, session`committed, session.store
      ensures session.At(Finish(Acknowledged(result)))
      ensures result.Ok? ==> Reports(config, now, result.value, session.committed)
      ensures result.Ok? ==> result.value.BudgetExhausted?
      ensures session.committed == [] || session.committed == [RunnerSpent(now)]
    {
      var exhausted := item.(nextWakeAt := None, state := NeedsAttention, version := item.version + 1);
      var error := CommitAndNotify(item, now, exhausted, Spend(item));
      result := if error.None? then Ok(BudgetExhausted) else Err(error.value);
    }

    /** The guarded part: any failure before the version is published leads to recovery. */
    method Act(item: CaseRun, now: Time) returns (result: Result<RunResult>)
      requires Wired() && session.role.now == now && session.committed == []
      requires session.At(if !HasRequirement(item) then Recover(item)
                          else if !Authorized(item, now) then Deny(item) else Pc.Reserve(item))
      modifies session`world, session`trace, session`committed, session.store
      ensures session.At(Finish(Acknowledged(result)))
      ensures result.Ok? ==> Reports(config, now, result.value, session.committed)
      ensures result.Ok? ==> Guarded(config, now, item, result.value)
      ensures |session.committed| <= 1
    {
      if |item.plan.body.requirements| == 0 {
        result := RecoverFrom(item, now);
        return;
      }
      Policy.AuthorizedIffLicensed(PolicyOf(item), ProposalOf(item), now);
      var sent := broker.Execute(item, now);
      match sent
      case Err(_) => result := RecoverFrom(item, now);
      case Ok(Denied) => result := Refuse(item, now);
      case Ok(PendingDuplicate) => result := Ok(ActionInFlight);
      case Ok(Sent(receiptId, _)) => result := PublishSent(item, now, receiptId);
    }

    method PublishSent(item: CaseRun, now: Time, receiptId: string) returns (result: Result<RunResult>)
      requires Wired() && session.role.now == now && session.At(Publish(item, receiptId)) && session.committed == []
      modifies session`world, session`trace, session`committed, session.store
      ensures session.At(Finish(Acknowledged(result)))
      ensures result.Ok? ==> Reports(config, now, result.value, session.committed)
      ensures result.Ok? ==>
        if result.value.AwaitingAnswer? then result.value.receiptId == receiptId
        else Recovered(config, now, item, result.value)
      ensures |session.committed| <= 1
    {
      var nextWakeAt := now + FollowUpMillis(item.plan);
      var waiting := CaseRun(item.caseId, item.ownerId, WaitingExternal, item.version + 1, item.plan, item.approval,
                             item.actionOrdinal + 1, item.dueAt, Some(nextWakeAt), Some(receiptId), None, 0, None);
      var wake := IntentId(waiting.version, nextWakeAt);
      var error, scheduled := CommitAndSchedule(item, now, waiting, wake, Publish(item, receiptId));
      if error.Some? {
        result := RecoverFrom(item, now);
        return;
      }
      result := if scheduled then Ok(AwaitingAnswer(receiptId)) else Err("WAKE_DISPATCH_FAILED");
    }

    method Refuse(item: CaseRun, now: Time) returns (result: Result<RunResult>)
      requires Wired() && session.role.now == now && session.At(Deny(item)) && session.committed == []
      modifies session`world, session`trace, session`committed, session.store
      ensures session.At(Finish(Acknowledged(result)))
      ensures result.Ok? ==> Reports(config, now, result.value, session.committed)
      ensures result.Ok? ==> result.value.ActionDenied?
      ensures session.committed == [] || session.committed == [RunnerDenied(now)]
    {
      var failed := item.(state := Failed, version := item.version + 1);
      var error := CommitAndNotify(item, now, failed, Deny(item));
      result := if error.None? then Ok(ActionDenied) else Err(error.value);
    }

    method RecoverFrom(item: CaseRun, now: Time) returns (result: Result<RunResult>)
      requires Wired() && session.role.now == now && session.At(Recover(item)) && session.committed == []
      modifies session`world, session`trace, session`committed, session.store
      ensures session.At(Finish(Acknowledged(result)))
      ensures result.Ok? ==> Reports(config, now, result.value, session.committed)
      ensures result.Ok? ==> Recovered(config, now, item, result.value)
      ensures |session.committed| <= 1
    {
      var attemptCount := item.attemptCount + 1;
      if attemptCount >= config.maxAttempts {
        result := GiveUp(item, now, attemptCount);
      } else {
        result := Retry(item, now, attemptCount);
      }
    }

    method GiveUp(item: CaseRun, now: Time, attemptCount: nat) returns (result: Result<RunResult>)
      requires Wired() && session.role.now == now && session.At(Recover(item)) && session.committed == []
      requires config.maxAttempts <= attemptCount == item.attemptCount + 1
      modifies session`world, session`trace, session`committed, session.store
      ensures session.At(Finish(Acknowledged(result)))
      ensures result.Ok? ==> Reports(config, now, result.value, session.committed)
      ensures result.Ok? ==> result.value.RecoveryExhausted?
      ensures session.committed == [] || session.committed == [RunnerExhausted(now)]
    {
      var exhausted := item.(state := NeedsAttention, version := item.version + 1, attemptCount := attemptCount);
      var error := CommitAndNotify(item, now, exhausted, Recover(item));
      result := if error.None? then Ok(RecoveryExhausted) else Err(error.value);
    }

    method Retry(item: CaseRun, now: Time, attemptCount: nat) returns (result: Result<RunResult>)
      requires Wired() && session.role.now == now && session.At(Recover(item)) && session.committed == []
      requires item.attemptCount + 1 == attemptCount < config.maxAttempts
      modifies session`world, session`trace, session`committed, session.store
      ensures session.At(Finish(Acknowledged(result)))
      ensures result.Ok? ==> Reports(config, now, result.value, session.committed)
      ensures result.Ok? ==> result.value.Retrying?
      ensures session.committed == [] || session.committed == [RunnerRetry(now)]
    {
      var retryAt := now + config.retryDelayMillis;
      var next := item.(state := WaitingRetry, version := item.version + 1,
                        nextWakeAt := Some(retryAt), attemptCount := attemptCount);
      var wake := IntentId(next.version, retryAt);
      var error, scheduled := CommitAndSchedule(item, now, next, wake, Recover(item));
      if error.Some? {
        return Err(error.value);
      }
      result := if scheduled then Ok(Retrying(retryAt)) else Err("WAKE_DISPATCH_FAILED");
    }
  }

  /** The runner's part of a delivery: from its first call to its answer. */
  method ServeTask(store: CaseStore, config: Config, version: nat, now: Time, token: nat, ghost started: State)
    returns (status: nat, ghost trace: seq<Label>, ghost done: State, ghost answer: Result<RunResult>)
    requires store.Docs() == started.docs && store.caseId == started.caseId && config == started.config
    requires token in started.workers && token < started.nextWorker && started.workers[token].pc == Load
    requires var role := started.workers[token].role; role.Runner? && role.version == version && role.now == now
    modifies store
    ensures Leads(started, trace, done) && store.Docs() == done.docs && store.caseId == done.caseId
    ensures status == if answer.Err? then 500 else if answer.value.NotDue? then 503 else 200
    ensures token in done.workers && done.workers[token] == Worker(started.workers[token].role, Finish(status == 200))
  {
    var session := new Session(store, token, token, started);
    var runner := new CaseRunner(session, config);
    var result := runner.Run(version, now);
    status := if result.Err? then 500 else if result.value.NotDue? then 503 else 200;
    trace, done, answer := session.trace, session.world, result;
  }

  /** A delivery as a whole: it arrives, its worker runs, its worker ends. */
  lemma DeliveryLeads(world: State, arrival: Label, trace: seq<Label>, done: State, last: Label)
    requires Enabled(world, arrival) && Leads(Next(world, arrival), trace, done) && Enabled(done, last)
    ensures Leads(world, [arrival] + trace + [last], Next(done, last))
  {
    var started := Next(world, arrival);
    LeadsOne(world, arrival);
    LeadsAppend(world, [arrival], started, trace, done);
    LeadsOne(done, last);
    LeadsAppend(world, [arrival] + trace, done, [last], Next(done, last));
  }

  /**
   * One delivery of a queue task, from its arrival to its answer. The runner's work is a run of the
   * machine. The task is acknowledged when the answer is 200, and can be delivered again when it is not.
   */
  method HandleRunCaseTask(store: CaseStore, config: Config, version: nat, now: Time, token: nat,
                           ghost task: nat, ghost world: State)
    returns (status: nat, ghost labels: seq<Label>, ghost after: State, ghost answer: Result<RunResult>)
    requires store.Docs() == world.docs && store.caseId == world.caseId && config == world.config
    requires Enabled(world, Machine.Deliver(task, now)) && version == world.queue[task].version
    requires token == world.nextWorker
    modifies store
    ensures Leads(world, labels, after) && store.Docs() == after.docs && store.caseId == after.caseId
    ensures status == (if answer.Err? then 500 else if answer.value.NotDue? then 503 else 200)
    ensures task < |after.queue|
    ensures status == 200 ==> after.queue[task].acknowledged && after.queue[task].handler.None?
    ensures Invariant(world) && status != 200 ==> forall later :: Enabled(after, Machine.Deliver(task, later))
  {
    ghost var arrival := Machine.Deliver(task, now);
    ghost var trace;
    ghost var done;
    status, trace, done, answer := ServeTask(store, config, version, now, token, Next(world, arrival));
    ghost var last := Work(token, Returns);
    labels, after := [arrival] + trace + [last], Next(done, last);
    DeliveryLeads(world, arrival, trace, done, last);
    QueueOnlyGrows(Next(world, arrival), trace, done);
    if Invariant(world) && status != 200 {
      RefusedIsFree(world, arrival, trace, done, token, task);
    }
  }

  lemma ServedInvariant(world: State, arrival: Label, trace: seq<Label>, done: State)
    requires Invariant(world) && Enabled(world, arrival) && Leads(Next(world, arrival), trace, done)
    ensures WakeInv(done)
  {
    StepInvariant(world, arrival);
    InvariantKept(Next(world, arrival), trace, done);
  }

  /** What has been answered with an error is delivered again: only its own worker could acknowledge it. */
  lemma RefusedIsFree(world: State, arrival: Label, trace: seq<Label>, done: State, w: nat, task: nat)
    requires Invariant(world) && Enabled(world, arrival) && Leads(Next(world, arrival), trace, done)
    requires w in done.workers && done.workers[w].pc == Finish(false)
    requires done.workers[w].role.Runner? && done.workers[w].role.task == task
    ensures forall later :: Enabled(Next(done, Work(w, Returns)), Machine.Deliver(task, later))
  {
    ServedInvariant(world, arrival, trace, done);
  }

  class EvidenceService {
    const session: Session
    const scheduler: DurableWakeScheduler

    constructor (session: Session)
      ensures this.session == session && scheduler.session == session
    {
      this.session := session;
      scheduler := new DurableWakeScheduler(session);
    }

    /** At most one version is committed, and with the verification that is returned. */
    method Reconcile(candidate: Candidate, now: Time) returns (result: Result<Verifier.Verification>)
      requires scheduler.session == session && session.role == Witness(candidate, now)
      requires session.At(Load) && session.committed == []
      modifies session`world, session`trace, session`committed, session`read, session.store
      ensures session.At(Finish(result.Ok?))
      ensures |session.committed| <= 1
      ensures result.Ok? && session.committed != [] ==>
        session.committed == [Writer.Evidence(EvidenceRecord(candidate, result.value, now))]
      ensures result.Ok? ==>
        && session.read.Some? && HasRequirement(session.read.value)
        && (session.read.value.state.Running? || session.read.value.state.WaitingExternal?)
        && (result.value.accepted <==>
              var item := session.read.value;
              Verifier.Satisfies(item.caseId, item.plan.body.requirements[0], candidate, now))
    {
      var found := session.Get();
      if found.None? {
        return Err("UNAVAILABLE");
      }
      if found.value.None? {
        return Err("CASE_NOT_FOUND");
      }
      var item := found.value.value;
      if !item.state.Running? && !item.state.WaitingExternal? {
        return Err("EVIDENCE_NOT_ACCEPTED_IN_STATE");
      }
      if |item.plan.body.requirements| == 0 {
        return Err("EVIDENCE_REQUIREMENT_MISSING");
      }
      result := Decide(item, candidate, now);
    }

    method Decide(item: CaseRun, candidate: Candidate, now: Time) returns (result: Result<Verifier.Verification>)
      requires scheduler.session == session && session.role == Witness(candidate, now)
      requires HasRequirement(item) && session.At(Pc.Record(item)) && session.committed == []
      modifies session`world, session`trace, session`committed, session.store
      ensures session.At(Finish(result.Ok?))
      ensures |session.committed| <= 1
      ensures result.Ok? && session.committed != [] ==>
        session.committed == [Writer.Evidence(EvidenceRecord(candidate, result.value, now))]
      ensures result.Ok? ==>
        (result.value.accepted <==> Verifier.Satisfies(item.caseId, item.plan.body.requirements[0], candidate, now))
    {
      var verification := Verifier.VerifyEvidence(item.caseId, item.plan.body.requirements[0], candidate, now);
      var conflict := !verification.accepted && Verifier.InsufficientLevel !in verification.reasons;
      var nextWakeAt := None;
      var wake := None;
      if !verification.accepted && !conflict {
        nextWakeAt := Some(now + FollowUpMillis(item.plan));
        wake := Some(IntentId(item.version + 1, nextWakeAt.value));
      }
      var duplicate := session.Record(item, EvidenceRecord(candidate, verification, now), nextWakeAt, wake);
      if duplicate.None? {
        return Err("VERSION_CONFLICT");
      }
      if wake.Some? && !duplicate.value {
        var scheduled, _ := scheduler.ScheduleCase(wake.value);
        if !scheduled {
          return Err("WAKE_DISPATCH_FAILED");
        }
      }
      result := Ok(verification);
    }
  }

  class CaseControlService {
    const session: Session
    const scheduler: DurableWakeScheduler

    constructor (session: Session)
      ensures this.session == session && scheduler.session == session
    {
      this.session := session;
      scheduler := new DurableWakeScheduler(session);
    }

    /** Whatever is returned has been recorded as this request's answer. */
    method Command(request: ControlRequest) returns (result: Result<CommandResult>)
      requires scheduler.session == session && session.role == Controller(request) && session.At(Load)
      modifies session`world, session`trace, session`committed, session`read, session.store
      ensures session.At(Finish(result.Ok?))
      ensures result.Ok? ==> Reply(request, result.value) in session.world.replies
      ensures result.Ok? && Invariant(session.origin) ==> AnswerStands(request, result.value)
    {
      var prior := session.GetCommandResult(request);
      if prior.Err? {
        return Err(prior.error);
      }
      if prior.value.Some? {
        var answer := prior.value.value;
        if request.action.Resume? && answer.RunResult? {
          var run := answer.run;
          var wakeAt := run.nextWakeAt.GetOr(run.controlledAt.GetOr(request.now));
          var scheduled, _ := scheduler.ScheduleCase(IntentId(run.version, wakeAt));
          if !scheduled {
            return Err("WAKE_DISPATCH_FAILED");
          }
        }
        AnswerRecorded(request, answer);
        return Ok(answer);
      }
      result := Issue(request);
      if result.Ok? {
        AnswerRecorded(request, result.value);
      }
    }

    /** What has been recorded in a reachable world says where the command has led. */
    lemma AnswerRecorded(request: ControlRequest, answer: CommandResult)
      requires session.Follows() && Reply(request, answer) in session.world.replies
      ensures Invariant(session.origin) ==> AnswerStands(request, answer)
    {
      if Invariant(session.origin) {
        InvariantKept(session.origin, session.trace, session.world);
        RepliesStand(session.world, Reply(request, answer));
      }
    }

    /** A command under a key that has no result yet. */
    method Issue(request: ControlRequest) returns (result: Result<CommandResult>)
      requires scheduler.session == session && session.role == Controller(request) && session.At(LoadRun)
      modifies session`world, session`trace, session`committed, session`read, session.store
      ensures session.At(Finish(result.Ok?))
      ensures result.Ok? ==> Reply(request, result.value) in session.world.replies
    {
      var found := session.Get();
      if found.None? {
        return Err("UNAVAILABLE");
      }
      if found.value.None? {
        return Err("CASE_NOT_FOUND");
      }
      var item := found.value.value;
      var refusal := Refusal(item, request);
      if refusal.Some? {
        return Err(refusal.value);
      }
      if request.action.Delete? {
        result := session.RequestDeletion(request, item);
      } else if request.action.Revise? {
        result := session.BeginReapproval(request, item);
      } else {
        result := Apply(request, item);
      }
    }

    method Apply(request: ControlRequest, item: CaseRun) returns (result: Result<CommandResult>)
      requires scheduler.session == session && session.role == Controller(request) && session.At(Pc.Control(item))
      requires !request.action.Delete? && !request.action.Revise?
      modifies session`world, session`trace, session`committed, session.store
      ensures session.At(Finish(result.Ok?))
      ensures result.Ok? ==> Reply(request, result.value) in session.world.replies
    {
      var wake := if request.action.Resume? then Some(IntentId(request.expectedVersion + 1, request.now)) else None;
      result := session.Transition(request, item, wake);
      if result.Ok? && request.action.Resume? && result.value.RunResult? {
        var scheduled, _ := scheduler.ScheduleCase(IntentId(result.value.run.version, request.now));
        if !scheduled {
          result := Err("WAKE_DISPATCH_FAILED");
        }
      }
    }

    /** The guards, in order; none refuses exactly the commands the run allows. */
    static method Refusal(item: CaseRun, request: ControlRequest) returns (reason: Option<string>)
      ensures reason.None? <==> CommandAllowed(item, request)
      ensures reason.None? <==>
        && item.ownerId == request.ownerId && item.version == request.expectedVersion
        && match request.action
           case Delete => true
           case Revise => !item.state.Done? && !item.state.Cancelled? && !item.state.Expired?
           case Reopen => item.state.Done? && request.reasonGiven
           case Resume =>
             item.state.NeedsAttention? && item.approval.revokedAt.None? && request.now < item.approval.expiresAt
           case Stop | Revoke | Expire => !item.state.Done?
    {
      if item.ownerId != request.ownerId { return Some("CASE_OWNERSHIP_REQUIRED"); }
      if item.version != request.expectedVersion { return Some("VERSION_CONFLICT"); }
      if request.action.Delete? { return None; }
      if request.action.Revise? {
        if item.state.Done? || item.state.Cancelled? || item.state.Expired? { return Some("REAPPROVAL_NOT_AVAILABLE"); }
        return None;
      }
      if request.action.Reopen? && !item.state.Done? { return Some("REOPEN_REQUIRES_DONE"); }
      if request.action.Resume? && !item.state.NeedsAttention? { return Some("RESUME_REQUIRES_ATTENTION"); }
      if request.action.Resume? && (item.approval.revokedAt.Some? || item.approval.expiresAt <= request.now) {
        return Some("NEW_APPROVAL_REQUIRED");
      }
      if (request.action.Stop? || request.action.Revoke? || request.action.Expire?) && item.state.Done? {
        return Some("TERMINAL_CASE_CONTROL_DENIED");
      }
      if request.action.Reopen? && !request.reasonGiven { return Some("REOPEN_REASON_REQUIRED"); }
      reason := None;
    }
  }

  /**
   * One turn of the sweep. An intent that was persisted for this case has a dispatcher of its own, which has
   * either put a task on the queue and taken the intent out of PENDING, or met a call that threw. One that
   * only a status merge has created names no case, so trying it fails at once.
   */
  ghost predicate Tried(before: State, id: IntentId, labels: seq<Label>, scheduled: bool, after: State) {
    && Leads(before, labels, after)
    && if id in before.docs.intents && before.docs.intents[id].persisted then
         && labels != [] && labels[0] == Redispatch(id)
         && if scheduled then
              && id in after.docs.intents && !after.docs.intents[id].pending
              && |before.queue| < |after.queue|
            else Work(before.nextWorker, Throws) in labels
       else labels == [] && !scheduled
  }

  /** The turns of the sweep, one after the other: `stages[i]` is the world before turn `i`. */
  ghost predicate Swept(listed: seq<IntentId>, stages: seq<State>, turns: seq<seq<Label>>, outcomes: seq<bool>) {
    && |stages| == |listed| + 1 && |turns| == |outcomes| == |listed|
    && forall i | 0 <= i < |listed| :: Tried(stages[i], listed[i], turns[i], outcomes[i], stages[i + 1])
  }

  ghost function Successes(outcomes: seq<bool>): nat {
    if outcomes == [] then 0
    else Successes(outcomes[..|outcomes| - 1]) + if outcomes[|outcomes| - 1] then 1 else 0
  }

  ghost function Joined(turns: seq<seq<Label>>): seq<Label> {
    if turns == [] then [] else Joined(turns[..|turns| - 1]) + turns[|turns| - 1]
  }

  /** The sweep so far has led from `world` to the last stage. */
  ghost predicate Sweeping(world: State, listed: seq<IntentId>, stages: seq<State>, turns: seq<seq<Label>>,
                           outcomes: seq<bool>)
  {
    && Swept(listed, stages, turns, outcomes) && stages[0] == world
    && Leads(world, Joined(turns), stages[|listed|])
  }

  lemma SweepingMore(world: State, listed: seq<IntentId>, stages: seq<State>, turns: seq<seq<Label>>,
                     outcomes: seq<bool>, id: IntentId, turn: seq<Label>, scheduled: bool, after: State)
    requires Sweeping(world, listed, stages, turns, outcomes) && Tried(stages[|listed|], id, turn, scheduled, after)
    ensures Sweeping(world, listed + [id], stages + [after], turns + [turn], outcomes + [scheduled])
    ensures Successes(outcomes + [scheduled]) == Successes(outcomes) + if scheduled then 1 else 0
  {
    LeadsAppend(world, Joined(turns), stages[|listed|], turn, after);
    assert (turns + [turn])[..|turns|] == turns && (outcomes + [scheduled])[..|outcomes|] == outcomes;
  }

  /**
   * The outbox sweep: the pending intents, or as many as the limit allows, each tried once. Whatever was
   * persisted when the sweep began is handed to a dispatcher in its turn.
   */
  method ReconcileWakes(store: CaseStore, limit: int, ghost world: State)
    returns (dispatched: nat, failed: nat, ghost listed: seq<IntentId>, ghost stages: seq<State>,
             ghost turns: seq<seq<Label>>, ghost outcomes: seq<bool>)
    requires store.Docs() == world.docs && store.caseId == world.caseId
    modifies store
    ensures Swept(listed, stages, turns, outcomes) && stages[0] == world
    ensures var after := stages[|listed|];
            && Leads(world, Joined(turns), after) && store.Docs() == after.docs && store.caseId == after.caseId
    ensures dispatched == Successes(outcomes) && dispatched + failed == |listed|
    ensures |listed| <= (if limit < 1 then 1 else if limit < 100 then limit else 100)
    ensures forall i | 0 <= i < |listed| ::
      && listed[i] in world.docs.intents && world.docs.intents[listed[i]].pending
      && (world.docs.intents[listed[i]].persisted ==> turns[i] != [] && turns[i][0] == Redispatch(listed[i]))
    ensures forall i, k | 0 <= i < k < |listed| :: listed[i] != listed[k]
    ensures |listed| < (if limit < 1 then 1 else if limit < 100 then limit else 100) ==>
      forall id <- world.docs.intents.Keys :: world.docs.intents[id].pending ==> id in listed
  {
    var pending := store.ListPending(limit);
    listed := pending;
    dispatched, failed, stages, turns, outcomes := TryEach(store, pending, world);
    PersistedTried(listed, stages, turns, outcomes);
  }

  /** The sweep's loop: one intent after the other, counting how each turned out. */
  method TryEach(store: CaseStore, listed: seq<IntentId>, ghost world: State)
    returns (dispatched: nat, failed: nat, ghost stages: seq<State>, ghost turns: seq<seq<Label>>,
             ghost outcomes: seq<bool>)
    requires store.Docs() == world.docs && store.caseId == world.caseId
    modifies store
    ensures Sweeping(world, listed, stages, turns, outcomes)
    ensures store.Docs() == stages[|listed|].docs && store.caseId == stages[|listed|].caseId
    ensures dispatched == Successes(outcomes) && dispatched + failed == |listed|
  {
    stages, turns, outcomes := [world], [], [];
    dispatched, failed := 0, 0;
    for i := 0 to |listed|
      invariant Sweeping(world, listed[..i], stages, turns, outcomes)
      invariant store.Docs() == stages[i].docs && store.caseId == stages[i].caseId
      invariant dispatched == Successes(outcomes) && dispatched + failed == i
    {
      var scheduled, turn, after := Dispatch(store, listed[i], stages[i]);
      if scheduled {
        dispatched := dispatched + 1;
      } else {
        failed := failed + 1;
      }
      SweepingMore(world, listed[..i], stages, turns, outcomes, listed[i], turn, scheduled, after);
      assert listed[..i] + [listed[i]] == listed[..i + 1];
      stages, turns, outcomes := stages + [after], turns + [turn], outcomes + [scheduled];
    }
    assert listed[..|listed|] == listed;
  }

  /** No step un-persists an intent, so what was persisted at first is still so in its turn. */
  lemma PersistedTried(listed: seq<IntentId>, stages: seq<State>, turns: seq<seq<Label>>, outcomes: seq<bool>)
    requires Swept(listed, stages, turns, outcomes)
    ensures forall i | 0 <= i < |listed| ::
      listed[i] in stages[0].docs.intents && stages[0].docs.intents[listed[i]].persisted ==>
        turns[i] != [] && turns[i][0] == Redispatch(listed[i])
  {
    forall i | 0 <= i < |listed| && listed[i] in stages[0].docs.intents
        && stages[0].docs.intents[listed[i]].persisted
      ensures turns[i] != [] && turns[i][0] == Redispatch(listed[i])
    {
      StagesPersist(listed, stages, turns, outcomes, listed[i], i);
      assert Tried(stages[i], listed[i], turns[i], outcomes[i], stages[i + 1]);
    }
  }

  lemma {:induction false} StagesPersist(listed: seq<IntentId>, stages: seq<State>, turns: seq<seq<Label>>,
                                         outcomes: seq<bool>, id: IntentId, i: nat)
    requires Swept(listed, stages, turns, outcomes) && i <= |listed|
    requires id in stages[0].docs.intents && stages[0].docs.intents[id].persisted
    ensures id in stages[i].docs.intents && stages[i].docs.intents[id].persisted
  {
    if i > 0 {
      StagesPersist(listed, stages, turns, outcomes, id, i - 1);
      assert Tried(stages[i - 1], listed[i - 1], turns[i - 1], outcomes[i - 1], stages[i]);
      IntentsPersist(stages[i - 1], turns[i - 1], stages[i], id);
    }
  }

  /** One turn: an intent that names no case fails, any other is scheduled by a dispatcher of its own. */
  method Dispatch(store: CaseStore, id: IntentId, ghost world: State)
    returns (scheduled: bool, ghost labels: seq<Label>, ghost after: State)
    requires store.Docs() == world.docs && store.caseId == world.caseId
    modifies store
    ensures Tried(world, id, labels, scheduled, after) && store.Docs() == after.docs && store.caseId == after.caseId
  {
    if id !in store.intents || !store.intents[id].persisted {
      return false, [], world;
    }
    ghost var spawned := Next(world, Redispatch(id));
    var session := new Session(store, 0, world.nextWorker, spawned);
    var scheduler := new DurableWakeScheduler(session);
    var done, _ := scheduler.ScheduleCase(id);
    scheduled := done;
    after := session.world;
    LeadsOne(world, Redispatch(id));
    LeadsAppend(world, [Redispatch(id)], spawned, session.trace, after);
    labels := [Redispatch(id)] + session.trace;
  }
}
