/**
 * One worker's calls on the store, the adapter and the queue. Between any two of them other workers
 * and the outside may take any steps of the machine; each call is exactly one step of this worker's.
 */
module Sessions {
  import opened Contracts
  import opened CaseHistory
  import opened Documents
  import opened Machine
  import opened Store

  predicate Touches(l: Label, w: nat) {
    match l
    case Work(v, _) => v == w
    case Crash(v) => v == w
    case _ => false
  }

  /** What the steps of others leave to a worker, and what no step takes back. */
  ghost predicate Undisturbed(s: State, t: State, w: nat)
    requires w in s.workers
  {
    && w in t.workers && t.workers[w] == s.workers[w] && w < t.nextWorker
    && t.config == s.config && t.caseId == s.caseId && (forall reply <- s.replies :: reply in t.replies)
    && |s.queue| <= |t.queue|
    && forall id <- s.docs.intents.Keys :: s.docs.intents[id].persisted ==>
         id in t.docs.intents && t.docs.intents[id].persisted
  }

  lemma PerformGrows(s: State, effect: Effect)
    requires effect.Commits? ==> IntentsOnlyAdded(s.docs, effect.docs)
    requires effect.Deletes? ==> effect.docs.intents == s.docs.intents
    ensures var t := Perform(s, effect);
            && t.config == s.config && t.caseId == s.caseId && t.workers == s.workers && t.nextWorker == s.nextWorker
            && s.replies <= t.replies && |s.queue| <= |t.queue| && IntentsOnlyAdded(s.docs, t.docs)
  {
  }

  ghost predicate IntentsOnlyAdded(before: Docs, after: Docs) {
    forall id <- before.intents.Keys :: before.intents[id].persisted ==>
      id in after.intents && after.intents[id].persisted
  }

  lemma RunnerGrows(s: State, w: nat, role: Role, pc: Pc, o: Outcome)
    requires role.Runner?
    ensures var effect := RunnerMove(s, w, role, pc, o).effect;
            !effect.Deletes? && (effect.Commits? ==> IntentsOnlyAdded(s.docs, effect.docs))
  {
    if Writing(pc) {
      AttemptIsMove(s, w, role, pc, o);
    } else {
      assert !RunnerMove(s, w, role, pc, o).effect.Commits?;
    }
  }

  lemma ControllerGrows(s: State, role: Role, pc: Pc, o: Outcome)
    requires role.Controller?
    ensures var effect := ControllerMove(s, role, pc, o).effect;
            && (effect.Deletes? ==> effect.docs.intents == s.docs.intents)
            && (effect.Commits? ==> IntentsOnlyAdded(s.docs, effect.docs))
  {
  }

  lemma MoveGrows(s: State, w: nat, o: Outcome)
    requires w in s.workers
    ensures var effect := MoveOf(s, w, o).effect;
            && (effect.Deletes? ==> effect.docs.intents == s.docs.intents)
            && (effect.Commits? ==> IntentsOnlyAdded(s.docs, effect.docs))
  {
    var Worker(role, pc) := s.workers[w];
    match role
    case Runner(_, _, _) => RunnerGrows(s, w, role, pc, o);
    case Witness(_, _) =>
    case Controller(_) => ControllerGrows(s, role, pc, o);
    case Dispatcher =>
  }

  lemma OneStepLeaves(s: State, l: Label, w: nat)
    requires Enabled(s, l) && !Touches(l, w) && w in s.workers && w < s.nextWorker
    ensures Undisturbed(s, Next(s, l), w)
  {
    match l
    case Work(v, o) =>
      if !s.workers[v].pc.Finish? {
        MoveGrows(s, v, o);
        PerformGrows(s, MoveOf(s, v, o).effect);
      }
    case _ =>
  }

  lemma {:induction false} OthersLeave(s: State, labels: seq<Label>, t: State, w: nat)
    requires Leads(s, labels, t) && w in s.workers && w < s.nextWorker
    requires forall l <- labels :: !Touches(l, w)
    ensures Undisturbed(s, t, w)
    decreases |labels|
  {
    if labels != [] {
      OneStepLeaves(s, labels[0], w);
      OthersLeave(Next(s, labels[0]), labels[1..], t, w);
    }
  }

  lemma StepPersists(s: State, l: Label, id: IntentId)
    requires Enabled(s, l) && id in s.docs.intents && s.docs.intents[id].persisted
    ensures id in Next(s, l).docs.intents && Next(s, l).docs.intents[id].persisted
  {
    if l.Work? && !s.workers[l.worker].pc.Finish? {
      MoveGrows(s, l.worker, l.outcome);
      PerformGrows(s, MoveOf(s, l.worker, l.outcome).effect);
    }
  }

  lemma {:induction false} IntentsPersist(s: State, labels: seq<Label>, t: State, id: IntentId)
    requires Leads(s, labels, t) && id in s.docs.intents && s.docs.intents[id].persisted
    ensures id in t.docs.intents && t.docs.intents[id].persisted
    decreases |labels|
  {
    if labels != [] {
      StepPersists(s, labels[0], id);
      IntentsPersist(Next(s, labels[0]), labels[1..], t, id);
    }
  }

  lemma {:induction false} QueueOnlyGrows(s: State, labels: seq<Label>, t: State)
    requires Leads(s, labels, t)
    ensures |s.queue| <= |t.queue|
    decreases |labels|
  {
    if labels != [] {
      QueueOnlyGrows(Next(s, labels[0]), labels[1..], t);
    }
  }

  /** A step of the worker itself keeps it in place. */
  lemma OwnStepKeeps(s: State, w: nat, o: Outcome)
    requires w in s.workers && w < s.nextWorker && !s.workers[w].pc.Finish?
    ensures var t := WorkerStep(s, w, o);
            && t.config == s.config && t.caseId == s.caseId && w < t.nextWorker
            && w in t.workers && t.workers[w] == Worker(s.workers[w].role, MoveOf(s, w, o).pc)
  {
    MoveGrows(s, w, o);
    PerformGrows(s, MoveOf(s, w, o).effect);
  }

  lemma TransitionAnswers(s: State, w: nat, request: ControlRequest)
    requires w in s.workers && s.workers[w].role == Controller(request) && s.workers[w].pc.Control?
    requires !request.action.Delete?
    ensures var t := WorkerStep(s, w, Returns);
            var wake :=
              if request.action.Resume? then Some(IntentId(request.expectedVersion + 1, request.now)) else None;
            match Transition(s.docs, s.caseId, request, wake)
            case Err(_) => t.docs == s.docs && t.workers[w].pc == Finish(false)
            case Ok(Answered(docs, answer, _)) =>
              && t.docs == docs && Reply(request, answer) in t.replies
              && t.workers[w].pc == if request.action.Resume? && answer.RunResult?
                                    then Pc.Enqueue(answer.run.version, request.now) else Finish(true)
  {
  }

  /** The planned commit of a runner that is about to write the run it has read. */
  datatype Attempt = Attempt(writer: Writer, wake: Option<IntentId>, committed: Pc, lost: Pc)

  ghost predicate Writing(pc: Pc) {
    pc.Publish? || pc.Recover? || pc.Deny? || pc.Spend?
  }

  ghost function AttemptOf(config: Config, now: Time, pc: Pc): Attempt
    requires Writing(pc)
  {
    match pc
    case Publish(item, receiptId) =>
      var wakeAt := now + FollowUpMillis(item.plan);
      Attempt(RunnerSent(now, receiptId), Some(IntentId(item.version + 1, wakeAt)),
           Enqueue(item.version + 1, wakeAt), Recover(item))
    case Recover(item) =>
      if config.maxAttempts <= item.attemptCount + 1 then
        Attempt(RunnerExhausted(now), None, Notify, Finish(false))
      else
        var wakeAt := now + config.retryDelayMillis;
        Attempt(RunnerRetry(now), Some(IntentId(item.version + 1, wakeAt)),
             Enqueue(item.version + 1, wakeAt), Finish(false))
    case Deny(item) => Attempt(RunnerDenied(now), None, Notify, Finish(false))
    case Spend(item) => Attempt(RunnerSpent(now), None, Notify, Finish(false))
  }

  lemma AttemptIsMove(s: State, w: nat, role: Role, pc: Pc, o: Outcome)
    requires role.Runner? && Writing(pc)
    ensures var attempt := AttemptOf(s.config, role.now, pc);
            RunnerMove(s, w, role, pc, o)
              == if o.Throws? then Move(Silent, attempt.lost)
                 else RunnerCommit(s, pc.item, attempt.writer, attempt.wake, attempt.committed, attempt.lost)
  {
  }

  /** Where a worker stands once the run has been read; None stands for a call that throws. */
  ghost function AfterGet(role: Role, found: Option<Option<CaseRun>>): Pc {
    if found.None? || found.value.None? then Finish(false)
    else
      var item := found.value.value;
      match role
      case Runner(_, version, now) => AfterLoad(version, now, Some(item))
      case Witness(_, _) =>
        if (item.state.Running? || item.state.WaitingExternal?) && HasRequirement(item) then Record(item)
        else Finish(false)
      case Controller(request) => if CommandAllowed(item, request) then Pc.Control(item) else Finish(false)
      case Dispatcher => Finish(false)
  }

  /** What recording evidence leads to. */
  lemma RecordMoves(s: State, w: nat, item: CaseRun)
    requires w in s.workers && s.workers[w].role.Witness? && s.workers[w].pc == Pc.Record(item) && HasRequirement(item)
    ensures var Worker(role, pc) := s.workers[w];
            var record := WitnessRecord(item, role.candidate, role.now);
            var nextWakeAt := EvidenceWake(item, record.verification, role.now);
            var wake := if nextWakeAt.Some? then Some(IntentId(item.version + 1, nextWakeAt.value)) else None;
            MoveOf(s, w, Returns)
              == match RecordEvidence(s.docs, item.version, EvidenceState(record.verification), nextWakeAt,
                                      record, wake)
                 case Err(_) => Move(Silent, Finish(false))
                 case Ok(Recorded(docs, duplicate)) =>
                   if duplicate then Move(Silent, Finish(true))
                   else
                     Move(Commits(docs, Writer.Evidence(record), []),
                          if wake.Some? then Pc.Enqueue(wake.value.version, wake.value.wakeAt) else Finish(true))
  {
  }

  datatype Provided = Receipted(receiptId: string) | OutcomeUnknown | Failure

  class Session {
    const store: CaseStore
    /** Marks this worker's reservations. */
    const token: nat
    ghost const worker: nat
    ghost const role: Role
    ghost const origin: State
    ghost var world: State
    ghost var trace: seq<Label>
    ghost var committed: seq<Writer>
    /** The run this worker has read. */
    ghost var read: Option<CaseRun>

    /** The state `world` has just spawned this worker. */
    constructor (store: CaseStore, token: nat, ghost worker: nat, ghost world: State)
      requires store.Docs() == world.docs && store.caseId == world.caseId
      requires worker in world.workers && worker < world.nextWorker
      requires world.workers[worker].role.Runner? ==> token == worker
      ensures this.store == store && this.worker == worker && this.role == world.workers[worker].role
      ensures this.world == this.origin == world && committed == [] && trace == [] && read == None
      ensures At(world.workers[worker].pc)
    {
      this.store, this.token, this.worker := store, token, worker;
      this.role, this.origin := world.workers[worker].role, world;
      this.world, trace, committed, read := world, [], [], None;
    }

    ghost predicate Follows()
      reads this
    {
      && Leads(origin, trace, world) && world.config == origin.config
      && worker in world.workers && worker < world.nextWorker && world.workers[worker].role == role
      && (role.Runner? ==> token == worker)
    }

    ghost predicate Valid()
      reads this, store
    {
      Follows() && store.Docs() == world.docs && store.caseId == world.caseId
    }

    ghost predicate At(pc: Pc)
      reads this, store
    {
      Valid() && world.workers[worker].pc == pc
    }

    /** The adapter has accepted and the action is to be settled. */
    ghost predicate AtSettle(item: CaseRun, receiptId: string)
      reads this, store
    {
      Valid() && var pc := world.workers[worker].pc; pc.Settle? && pc.item == item && pc.receiptId == receiptId
    }

    /** The key is to be freed, whether or not the adapter has accepted. */
    ghost predicate AtRelease(item: CaseRun)
      reads this, store
    {
      Valid() && var pc := world.workers[worker].pc; pc.Release? && pc.item == item
    }

    /** Whatever the rest of the world does before this worker's next call. */
    method Interfere() returns (ghost labels: seq<Label>)
      requires Valid()
      modifies this`world, this`trace, store
      ensures store.Docs() == world.docs
      ensures Leads(old(world), labels, world) && trace == old(trace) + labels
      ensures forall l <- labels :: !Touches(l, worker)
    {
      labels := [];
      assert trace + [] == trace;
    }

    /** The rest of the world, once more: this worker has not moved, and no step is taken back. */
    method OthersKeep()
      requires Valid()
      modifies this`world, this`trace, store
      ensures At(old(world.workers[worker].pc))
      ensures Undisturbed(old(world), world, worker) && old(trace) <= trace
    {
      ghost var before, sofar := world, trace;
      ghost var labels := Interfere();
      OthersLeave(before, labels, world, worker);
      LeadsAppend(origin, sofar, before, labels, world);
    }

    method Others()
      requires Valid()
      modifies this`world, this`trace, store
      ensures At(old(world.workers[worker].pc))
    {
      OthersKeep();
    }

    ghost method Step(o: Outcome)
      requires Follows() && !world.workers[worker].pc.Finish?
      modifies this`world, this`trace, this`committed
      ensures Follows() && world == WorkerStep(old(world), worker, o) && world.caseId == old(world.caseId)
      ensures trace == old(trace) + [Work(worker, o)]
      ensures var effect := MoveOf(old(world), worker, o).effect;
              committed == old(committed) + if effect.Commits? then [effect.writer] else []
    {
      var l := Work(worker, o);
      OwnStepKeeps(world, worker, o);
      LeadsOne(world, l);
      LeadsAppend(origin, trace, world, [l], Next(world, l));
      var effect := MoveOf(world, worker, o).effect;
      committed := committed + if effect.Commits? then [effect.writer] else [];
      world, trace := Next(world, l), trace + [l];
    }

    // Every call may throw instead of answering; it then has had no effect.

    /** `store.get`. */
    method Get() returns (found: Option<Option<CaseRun>>)
      requires At(if role.Controller? then LoadRun else Load) && !role.Dispatcher?
      modifies this`world, this`trace, this`committed, this`read, store
      ensures At(AfterGet(role, found)) && committed == old(committed)
      ensures read == if found.Some? then found.value else None
    {
      Others();
      var answers: bool := *;
      if !answers {
        Step(Throws);
        read := None;
        return None;
      }
      var item := store.Get();
      found := Some(item);
      read := item;
      Step(Returns);
    }

    // The calls of a runner.

    method Reserve(item: CaseRun) returns (reservation: Option<Reservation>)
      requires role.Runner? && At(Pc.Reserve(item))
      modifies this`world, this`trace, this`committed, store
      ensures committed == old(committed)
      ensures At(match reservation
                 case None => Recover(item)
                 case Some(Fresh) => Charge(item)
                 case Some(InFlight) => Finish(true)
                 case Some(AlreadySucceeded(receipt)) => Publish(item, receipt.receiptId))
    {
      Others();
      var answers: bool := *;
      if !answers {
        Step(Throws);
        return None;
      }
      var answer := store.Reserve(KeyOf(item), token);
      Step(Returns);
      reservation := Some(answer);
    }

    method ReserveExternalSend(item: CaseRun) returns (granted: bool)
      requires role.Runner? && At(Charge(item))
      modifies this`world, this`trace, this`committed, store
      ensures committed == old(committed) && if granted then At(Call(item)) else AtRelease(item)
    {
      Others();
      granted := *;
      Step(if granted then Returns else Throws);
    }

    /** The adapter is called and answers; others may act in between. */
    method Execute(item: CaseRun) returns (provided: Provided)
      requires role.Runner? && At(Call(item))
      modifies this`world, this`trace, this`committed, store
      ensures committed == old(committed)
      ensures match provided
              case Receipted(receiptId) => AtSettle(item, receiptId)
              case OutcomeUnknown => At(Doubt(item))
              case Failure => AtRelease(item)
    {
      Begin(item);
      provided := Receive(item);
    }

    method Begin(item: CaseRun)
      requires role.Runner? && At(Call(item))
      modifies this`world, this`trace, this`committed, store
      ensures committed == old(committed) && Valid()
      ensures world.workers[worker].pc.Calling? && world.workers[worker].pc.item == item
    {
      Others();
      Step(Returns);
    }

    method Receive(item: CaseRun) returns (provided: Provided)
      requires role.Runner? && Valid() && world.workers[worker].pc.Calling? && world.workers[worker].pc.item == item
      modifies this`world, this`trace, this`committed, store
      ensures committed == old(committed)
      ensures match provided
              case Receipted(receiptId) => AtSettle(item, receiptId)
              case OutcomeUnknown => At(Doubt(item))
              case Failure => AtRelease(item)
    {
      Others();
      provided := *;
      Step(match provided
           case Receipted(receiptId) => Accept(receiptId)
           case OutcomeUnknown => LoseTrack
           case Failure => Throws);
    }

    method Succeed(item: CaseRun, receiptId: string) returns (answers: bool)
      requires role.Runner? && AtSettle(item, receiptId)
      modifies this`world, this`trace, this`committed, store
      ensures committed == old(committed) && if answers then At(Publish(item, receiptId)) else AtRelease(item)
    {
      Others();
      answers := *;
      if answers {
        store.Succeed(KeyOf(item), receiptId);
      }
      Step(if answers then Returns else Throws);
    }

    method Fail(item: CaseRun)
      requires role.Runner? && AtRelease(item)
      modifies this`world, this`trace, this`committed, store
      ensures committed == old(committed) && At(Recover(item))
    {
      Others();
      var answers: bool := *;
      if answers {
        store.Fail(KeyOf(item));
      }
      Step(if answers then Returns else Throws);
    }

    method MarkUnknown(item: CaseRun)
      requires role.Runner? && At(Doubt(item))
      modifies this`world, this`trace, this`committed, store
      ensures committed == old(committed) && At(Recover(item))
    {
      Others();
      var answers: bool := *;
      if answers {
        store.MarkUnknown(KeyOf(item));
      }
      Step(if answers then Returns else Throws);
    }

    method CompareAndSet(item: CaseRun, next: CaseRun, wake: Option<IntentId>, ghost pc: Pc)
      returns (error: Option<string>)
      requires role.Runner? && Writing(pc) && pc.item == item && At(pc)
      requires var attempt := AttemptOf(origin.config, role.now, pc);
               next == Advance(origin.config, item, attempt.writer) && wake == attempt.wake
      modifies this`world, this`trace, this`committed, store
      ensures var attempt := AttemptOf(origin.config, role.now, pc);
              if error.None? then At(attempt.committed) && committed == old(committed) + [attempt.writer]
              else At(attempt.lost) && committed == old(committed)
    {
      Others();
      var answers: bool := *;
      ghost var outcome := if answers then Returns else Throws;
      AttemptIsMove(world, worker, role, pc, outcome);
      if answers {
        error := store.CompareAndSet(item.version, next, wake);
      } else {
        error := Some("UNAVAILABLE");
      }
      Step(outcome);
    }

    method Notify() returns (answers: bool)
      requires role.Runner? && At(Pc.Notify)
      modifies this`world, this`trace, this`committed, store
      ensures committed == old(committed) && At(Finish(answers))
    {
      Others();
      answers := *;
      Step(if answers then Returns else Throws);
    }

    // The calls of the wake scheduler.

    ghost method StepScheduling(o: Outcome)
      requires Follows() && (world.workers[worker].pc.Enqueue? || world.workers[worker].pc.Mark?)
      modifies this`world, this`trace, this`committed
      ensures Follows() && world.caseId == old(world.caseId) && committed == old(committed)
      ensures var move := SchedulingMove(old(world.workers[worker].pc), o);
              && world.workers[worker].pc == move.pc && world.docs == Perform(old(world), move.effect).docs
              && world.queue == Perform(old(world), move.effect).queue && world.replies == old(world.replies)
      ensures trace == old(trace) + [Work(worker, o)]
    {
      Step(o);
    }

    /** The queue accepts a task for the version. */
    method Enqueue(id: IntentId) returns (answers: bool)
      requires At(Pc.Enqueue(id.version, id.wakeAt))
      modifies this`world, this`trace, this`committed, store
      ensures committed == old(committed) && At(Mark(id.version, id.wakeAt, answers))
      ensures forall reply <- old(world.replies) :: reply in world.replies
      ensures old(trace) <= trace && (!answers ==> Work(worker, Throws) in trace)
      ensures |world.queue| >= |old(world.queue)| + if answers then 1 else 0
    {
      OthersKeep();
      answers := *;
      StepScheduling(if answers then Returns else Throws);
    }

    method MarkDispatched(id: IntentId) returns (answers: bool)
      requires At(Mark(id.version, id.wakeAt, true))
      modifies this`world, this`trace, this`committed, store
      ensures committed == old(committed)
      ensures At(if answers then Finish(true) else Mark(id.version, id.wakeAt, false))
      ensures answers ==> id in world.docs.intents && !world.docs.intents[id].pending
      ensures forall reply <- old(world.replies) :: reply in world.replies
      ensures old(trace) <= trace && (!answers ==> Work(worker, Throws) in trace)
      ensures |world.queue| >= |old(world.queue)|
    {
      OthersKeep();
      answers := *;
      if answers {
        store.MarkDispatched(id);
      }
      StepScheduling(if answers then Returns else Throws);
    }

    method MarkFailed(id: IntentId) returns (answers: bool)
      requires At(Mark(id.version, id.wakeAt, false))
      modifies this`world, this`trace, this`committed, store
      ensures committed == old(committed) && At(Finish(false))
      ensures answers ==> id in world.docs.intents && world.docs.intents[id].pending
      ensures forall reply <- old(world.replies) :: reply in world.replies
      ensures old(trace) <= trace && (!answers ==> Work(worker, Throws) in trace)
      ensures |world.queue| >= |old(world.queue)|
    {
      OthersKeep();
      answers := *;
      if answers {
        store.MarkFailed(id);
      }
      StepScheduling(if answers then Returns else Throws);
    }

    // The calls of the evidence service.

    ghost method StepRecord(item: CaseRun, record: EvidenceRecord, nextWakeAt: Option<Time>, wake: Option<IntentId>)
      requires Follows() && role.Witness? && HasRequirement(item) && world.workers[worker].pc == Pc.Record(item)
      requires record == WitnessRecord(item, role.candidate, role.now)
      requires nextWakeAt == EvidenceWake(item, record.verification, role.now)
      requires wake == if nextWakeAt.Some? then Some(IntentId(item.version + 1, nextWakeAt.value)) else None
      modifies this`world, this`trace, this`committed
      ensures Follows() && world.caseId == old(world.caseId)
      ensures match RecordEvidence(old(world.docs), item.version, EvidenceState(record.verification), nextWakeAt,
                                   record, wake)
              case Err(_) =>
                && world.docs == old(world.docs) && world.workers[worker].pc == Finish(false)
                && committed == old(committed)
              case Ok(Recorded(docs, true)) =>
                && world.docs == docs && world.workers[worker].pc == Finish(true) && committed == old(committed)
              case Ok(Recorded(docs, false)) =>
                && world.docs == docs && committed == old(committed) + [Writer.Evidence(record)]
                && world.workers[worker].pc
                     == if wake.Some? then Pc.Enqueue(wake.value.version, wake.value.wakeAt) else Finish(true)
    {
      RecordMoves(world, worker, item);
      Step(Returns);
    }

    ghost method StepRecordThrows()
      requires Follows() && role.Witness? && world.workers[worker].pc.Record?
      modifies this`world, this`trace, this`committed
      ensures Follows() && world.caseId == old(world.caseId) && world.docs == old(world.docs)
      ensures world.workers[worker].pc == Finish(false) && committed == old(committed)
    {
      Step(Throws);
    }

    method Record(item: CaseRun, record: EvidenceRecord, nextWakeAt: Option<Time>, wake: Option<IntentId>)
      returns (duplicate: Option<bool>)
      requires role.Witness? && HasRequirement(item) && At(Pc.Record(item))
      requires record == WitnessRecord(item, role.candidate, role.now)
      requires nextWakeAt == EvidenceWake(item, record.verification, role.now)
      requires wake == if nextWakeAt.Some? then Some(IntentId(item.version + 1, nextWakeAt.value)) else None
      modifies this`world, this`trace, this`committed, store
      ensures committed == old(committed) + if duplicate == Some(false) then [Writer.Evidence(record)] else []
      ensures At(if duplicate.None? then Finish(false)
                 else if duplicate.value || wake.None? then Finish(true)
                 else Pc.Enqueue(wake.value.version, wake.value.wakeAt))
    {
      Others();
      var answers: bool := *;
      if !answers {
        StepRecordThrows();
        return None;
      }
      var result := store.Record(item.version, EvidenceState(record.verification), nextWakeAt, record, wake);
      StepRecord(item, record, nextWakeAt, wake);
      duplicate := if result.Ok? then Some(result.value) else None;
    }

    // The calls of the control service.

    method GetCommandResult(request: ControlRequest) returns (prior: Result<Option<CommandResult>>)
      requires role == Controller(request) && At(Load)
      modifies this`world, this`trace, this`committed, store
      ensures committed == old(committed)
      ensures match prior
              case Err(_) => At(Finish(false))
              case Ok(None) => At(LoadRun)
              case Ok(Some(result)) =>
                && Reply(request, result) in world.replies
                && At(if request.action.Resume? && result.RunResult?
                      then Pc.Enqueue(result.run.version,
                                      result.run.nextWakeAt.GetOr(result.run.controlledAt.GetOr(request.now)))
                      else Finish(true))
    {
      Others();
      var answers: bool := *;
      if !answers {
        Step(Throws);
        return Err("UNAVAILABLE");
      }
      prior := store.GetCommandResult(request);
      Step(Returns);
    }

    /** Where a controller stands once its command has been applied, or refused. */
    ghost predicate Answered(request: ControlRequest, result: Result<CommandResult>)
      reads this, store
    {
      match result
      case Err(_) => At(Finish(false))
      case Ok(answer) =>
        && Reply(request, answer) in world.replies
        && At(if request.action.Resume? && answer.RunResult? then Pc.Enqueue(answer.run.version, request.now)
              else Finish(true))
    }

    ghost method StepThrows()
      requires Follows() && role.Controller? && world.workers[worker].pc.Control?
      modifies this`world, this`trace, this`committed
      ensures Follows() && world.caseId == old(world.caseId) && world.docs == old(world.docs)
      ensures world.workers[worker].pc == Finish(false)
    {
      Step(Throws);
    }

    ghost method StepTransition(request: ControlRequest)
      requires Follows() && role == Controller(request) && !request.action.Delete? && world.workers[worker].pc.Control?
      modifies this`world, this`trace, this`committed
      ensures Follows() && world.caseId == old(world.caseId)
      ensures var wake :=
                if request.action.Resume? then Some(IntentId(request.expectedVersion + 1, request.now)) else None;
              match Documents.Transition(old(world.docs), world.caseId, request, wake)
              case Err(_) => world.docs == old(world.docs) && world.workers[worker].pc == Finish(false)
              case Ok(Answered(docs, answer, _)) =>
                && world.docs == docs && Reply(request, answer) in world.replies
                && world.workers[worker].pc == if request.action.Resume? && answer.RunResult?
                                               then Pc.Enqueue(answer.run.version, request.now) else Finish(true)
    {
      TransitionAnswers(world, worker, request);
      Step(Returns);
    }

    method Transition(request: ControlRequest, item: CaseRun, wake: Option<IntentId>)
      returns (result: Result<CommandResult>)
      requires role == Controller(request) && !request.action.Delete? && !request.action.Revise? && At(Pc.Control(item))
      requires wake == if request.action.Resume? then Some(IntentId(request.expectedVersion + 1, request.now)) else None
      modifies this`world, this`trace, this`committed, store
      ensures Answered(request, result)
    {
      Others();
      var answers: bool := *;
      if !answers {
        StepThrows();
        return Err("UNAVAILABLE");
      }
      result := store.Transition(request, wake);
      StepTransition(request);
    }

    method BeginReapproval(request: ControlRequest, item: CaseRun) returns (result: Result<CommandResult>)
      requires role == Controller(request) && request.action.Revise? && At(Pc.Control(item))
      modifies this`world, this`trace, this`committed, store
      ensures Answered(request, result)
    {
      Others();
      var answers: bool := *;
      if !answers {
        StepThrows();
        return Err("UNAVAILABLE");
      }
      result := store.BeginReapproval(request);
      StepTransition(request);
    }

    ghost method StepDeletion(request: ControlRequest)
      requires Follows() && role == Controller(request) && request.action.Delete? && world.workers[worker].pc.Control?
      modifies this`world, this`trace, this`committed
      ensures Follows() && world.caseId == old(world.caseId)
      ensures match Documents.RequestDeletion(old(world.docs), world.caseId, request)
              case Err(_) => world.docs == old(world.docs) && world.workers[worker].pc == Finish(false)
              case Ok(Answered(docs, answer, _)) =>
                && world.docs == docs && Reply(request, answer) in world.replies
                && world.workers[worker].pc == Finish(true) && !answer.RunResult?
    {
      Step(Returns);
    }

    method RequestDeletion(request: ControlRequest, item: CaseRun) returns (result: Result<CommandResult>)
      requires role == Controller(request) && request.action.Delete? && At(Pc.Control(item))
      modifies this`world, this`trace, this`committed, store
      ensures Answered(request, result)
    {
      Others();
      var answers: bool := *;
      if !answers {
        StepThrows();
        return Err("UNAVAILABLE");
      }
      result := store.RequestDeletion(request);
      StepDeletion(request);
    }
  }
}
