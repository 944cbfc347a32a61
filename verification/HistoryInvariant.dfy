/**
 * Every commit of the machine follows from the version before it, and every run a worker holds is
 * a version that was committed and passed the worker's own gate.
 */
module HistoryInvariant {
  import opened Contracts
  import opened CaseHistory
  import opened Documents
  import opened Machine

  /** `item` is the version of the history that its own version number names. */
  ghost predicate Snapshot(history: seq<Commit>, item: CaseRun) {
    1 <= item.version <= |history| && history[item.version - 1].run == item
  }

  /** What a runner knows of the run it holds: it is the one its task names, live and due. */
  ghost predicate Held(history: seq<Commit>, role: Role, item: CaseRun)
    requires role.Runner?
  {
    Snapshot(history, item) && item.version == role.version && Runnable(item, role.now)
  }

  ghost predicate Cleared(item: CaseRun, now: Time) {
    WithinSends(item) && HasRequirement(item) && Authorized(item, now)
  }

  ghost predicate RunnerPcOk(history: seq<Commit>, role: Role, pc: Pc)
    requires role.Runner?
  {
    match pc
    case Reserve(item) => Held(history, role, item) && Cleared(item, role.now)
    case Charge(item) => Held(history, role, item) && Cleared(item, role.now)
    case Call(item) => Held(history, role, item) && Cleared(item, role.now)
    case Calling(item, _) => Held(history, role, item) && Cleared(item, role.now)
    case Settle(item, _, _) => Held(history, role, item) && Cleared(item, role.now)
    case Doubt(item) => Held(history, role, item) && Cleared(item, role.now)
    case Release(item, _) => Held(history, role, item) && Cleared(item, role.now)
    case Publish(item, _) => Held(history, role, item) && Cleared(item, role.now)
    case Recover(item) =>
      Held(history, role, item) && WithinSends(item) && (HasRequirement(item) ==> Authorized(item, role.now))
    case Deny(item) =>
      Held(history, role, item) && WithinSends(item) && HasRequirement(item) && !Authorized(item, role.now)
    case Spend(item) => Held(history, role, item) && !WithinSends(item)
    case Load | Notify | Enqueue(_, _) | Mark(_, _, _) | Finish(_) => true
    case Record(_) | LoadRun | Control(_) => false
  }

  ghost predicate PcOk(history: seq<Commit>, worker: Worker) {
    match worker.role
    case Runner(_, _, _) => RunnerPcOk(history, worker.role, worker.pc)
    case Dispatcher => worker.pc.Enqueue? || worker.pc.Mark? || worker.pc.Finish?
    case Witness(_, _) =>
      (match worker.pc
       case Record(item) =>
         Snapshot(history, item) && HasRequirement(item) && (item.state.Running? || item.state.WaitingExternal?)
       case Load | Enqueue(_, _) | Mark(_, _, _) | Finish(_) => true
       case _ => false)
    case Controller(request) =>
      (match worker.pc
       case Control(item) => Snapshot(history, item) && CommandAllowed(item, request)
       case Load | LoadRun | Enqueue(_, _) | Mark(_, _, _) | Finish(_) => true
       case _ => false)
  }

  ghost predicate RunOk(s: State) {
    && ValidHistory(s.config, s.history)
    && s.history[0].run.caseId == s.caseId
    && (s.docs.run.Some? ==> s.docs.run.value == Current(s))
  }

  ghost predicate HistoryInv(s: State) {
    && RunOk(s)
    && forall w :: w in s.workers ==> PcOk(s.history, s.workers[w])
  }

  lemma PcOkKept(history: seq<Commit>, longer: seq<Commit>, worker: Worker)
    requires history <= longer && PcOk(history, worker)
    ensures PcOk(longer, worker)
  {
  }

  lemma VersionsCount(s: State)
    requires RunOk(s)
    ensures Current(s).version == |s.history|
    ensures s.docs.run.Some? ==> Snapshot(s.history, s.docs.run.value)
  {
    IdentityKept(s.config, s.history, |s.history| - 1);
  }

  /** The intent that must accompany a commit: a live version is always due to be woken. */
  function WakeOf(run: CaseRun): Option<IntentId> {
    if Live(run.state) && run.nextWakeAt.Some? then Some(IntentId(run.version, run.nextWakeAt.value)) else None
  }

  function CommandOf(s: State, run: CaseRun, writer: Writer): map<string, Command> {
    if writer.Control?
    then s.docs.commands[writer.key := Command(s.caseId, run.ownerId, writer.action, RunResult(run))]
    else s.docs.commands
  }

  function EvidenceOf(s: State, writer: Writer): map<string, EvidenceRecord> {
    if writer.Evidence?
    then s.docs.evidence[writer.record.candidate.evidenceId := writer.record]
    else s.docs.evidence
  }

  /**
   * What a commit is: a permitted successor of the current version, with its wake intent, its
   * command or its evidence in the same transaction, and nothing else.
   */
  ghost predicate CommitSound(s: State, docs: Docs, writer: Writer)
    requires |s.history| > 0
  {
    && s.docs.run.Some?
    && Permitted(s.config, Current(s), writer)
    && docs.run == Some(Advance(s.config, Current(s), writer))
    && docs.records == s.docs.records
    && docs.draftOwner == s.docs.draftOwner
    && docs.intents == PersistWake(s.docs.intents, WakeOf(docs.run.value))
    && docs.commands == CommandOf(s, docs.run.value, writer)
    && (writer.Control? ==> writer.key !in s.docs.commands)
    && docs.evidence == EvidenceOf(s, writer)
    && (writer.Evidence? ==> writer.record.candidate.evidenceId !in s.docs.evidence)
  }

  ghost predicate EffectSound(s: State, effect: Effect)
    requires |s.history| > 0
  {
    match effect
    case Commits(docs, writer, _) => CommitSound(s, docs, writer)
    case Deletes(docs, _) =>
      && docs.run.None? && docs.records == s.docs.records && docs.intents == s.docs.intents
      && docs.evidence == s.docs.evidence
    case _ => true
  }

  ghost predicate MoveSound(s: State, role: Role, move: Move)
    requires |s.history| > 0
  {
    EffectSound(s, move.effect) && PcOk(s.history, Worker(role, move.pc))
  }

  /** A compare-and-set that succeeds replaces the current version by its successor. */
  lemma CompareAndSetSound(s: State, item: CaseRun, writer: Writer, wake: Option<IntentId>, docs: Docs)
    requires RunOk(s) && Snapshot(s.history, item)
    requires Permitted(s.config, item, writer) && !writer.Control? && !writer.Evidence?
    requires wake == WakeOf(Advance(s.config, item, writer))
    requires CompareAndSet(s.docs, item.version, Advance(s.config, item, writer), wake) == Ok(docs)
    ensures CommitSound(s, docs, writer)
  {
    VersionsCount(s);
    assert item == Current(s);
  }

  lemma RunnerCommitSound(s: State, role: Role, item: CaseRun, writer: Writer, wake: Option<IntentId>,
                          committed: Pc, lost: Pc)
    requires RunOk(s) && role.Runner? && Snapshot(s.history, item)
    requires Permitted(s.config, item, writer) && !writer.Control? && !writer.Evidence?
    requires wake == WakeOf(Advance(s.config, item, writer))
    requires PcOk(s.history, Worker(role, committed)) && PcOk(s.history, Worker(role, lost))
    ensures MoveSound(s, role, RunnerCommit(s, item, writer, wake, committed, lost))
  {
    var result := CompareAndSet(s.docs, item.version, Advance(s.config, item, writer), wake);
    if result.Ok? {
      CompareAndSetSound(s, item, writer, wake, result.value);
    }
  }

  lemma RunnerExhaustedSound(s: State, role: Role, item: CaseRun)
    requires RunOk(s) && role.Runner? && RunnerPcOk(s.history, role, Recover(item))
    requires s.config.maxAttempts <= item.attemptCount + 1
    ensures MoveSound(s, role, RunnerRecover(s, item, role.now))
  {
    RunnerCommitSound(s, role, item, RunnerExhausted(role.now), None, Notify, Finish(false));
  }

  lemma RunnerRetrySound(s: State, role: Role, item: CaseRun)
    requires RunOk(s) && role.Runner? && RunnerPcOk(s.history, role, Recover(item))
    requires item.attemptCount + 1 < s.config.maxAttempts
    ensures MoveSound(s, role, RunnerRecover(s, item, role.now))
  {
    var wakeAt := role.now + s.config.retryDelayMillis;
    RunnerCommitSound(s, role, item, RunnerRetry(role.now), Some(IntentId(item.version + 1, wakeAt)),
                      Enqueue(item.version + 1, wakeAt), Finish(false));
  }

  lemma RunnerPublishSound(s: State, role: Role, item: CaseRun, receiptId: string)
    requires RunOk(s) && role.Runner? && RunnerPcOk(s.history, role, Publish(item, receiptId))
    ensures MoveSound(s, role, RunnerPublish(s, item, role.now, receiptId))
  {
    var wakeAt := role.now + FollowUpMillis(item.plan);
    RunnerCommitSound(s, role, item, RunnerSent(role.now, receiptId), Some(IntentId(item.version + 1, wakeAt)),
                      Enqueue(item.version + 1, wakeAt), Recover(item));
  }

  ghost predicate Publishing(pc: Pc) {
    pc.Publish? || pc.Recover? || pc.Deny? || pc.Spend?
  }

  lemma RunnerDenySound(s: State, role: Role, item: CaseRun)
    requires RunOk(s) && role.Runner? && RunnerPcOk(s.history, role, Deny(item))
    ensures MoveSound(s, role, RunnerCommit(s, item, RunnerDenied(role.now), None, Notify, Finish(false)))
  {
    RunnerCommitSound(s, role, item, RunnerDenied(role.now), None, Notify, Finish(false));
  }

  lemma RunnerSpendSound(s: State, role: Role, item: CaseRun)
    requires RunOk(s) && role.Runner? && RunnerPcOk(s.history, role, Spend(item))
    ensures MoveSound(s, role, RunnerCommit(s, item, RunnerSpent(role.now), None, Notify, Finish(false)))
  {
    RunnerCommitSound(s, role, item, RunnerSpent(role.now), None, Notify, Finish(false));
  }

  lemma RunnerPublishingSound(s: State, w: nat, role: Role, pc: Pc, o: Outcome)
    requires RunOk(s) && role.Runner? && RunnerPcOk(s.history, role, pc) && Publishing(pc)
    ensures MoveSound(s, role, RunnerMove(s, w, role, pc, o))
  {
    if pc.Publish? {
      RunnerPublishSound(s, role, pc.item, pc.receiptId);
    } else if pc.Recover? {
      if s.config.maxAttempts <= pc.item.attemptCount + 1 {
        RunnerExhaustedSound(s, role, pc.item);
      } else {
        RunnerRetrySound(s, role, pc.item);
      }
    } else if pc.Deny? {
      RunnerDenySound(s, role, pc.item);
    } else {
      RunnerSpendSound(s, role, pc.item);
    }
  }

  ghost predicate Entering(pc: Pc) {
    pc.Load? || pc.Reserve? || pc.Charge? || pc.Call?
  }

  ghost predicate Executing(pc: Pc) {
    pc.Calling? || pc.Settle? || pc.Doubt? || pc.Release?
  }

  lemma RunnerLoadSound(s: State, w: nat, role: Role, o: Outcome)
    requires RunOk(s) && role.Runner? && RunnerPcOk(s.history, role, Load)
    ensures MoveSound(s, role, RunnerMove(s, w, role, Load, o))
  {
    VersionsCount(s);
  }

  lemma RunnerEnteringSound(s: State, w: nat, role: Role, pc: Pc, o: Outcome)
    requires RunOk(s) && role.Runner? && RunnerPcOk(s.history, role, pc) && Entering(pc)
    ensures MoveSound(s, role, RunnerMove(s, w, role, pc, o))
  {
    if pc.Load? {
      RunnerLoadSound(s, w, role, o);
    }
  }

  /** Before it publishes, a runner commits nothing. */
  lemma RunnerMoveSound(s: State, w: nat, role: Role, pc: Pc, o: Outcome)
    requires RunOk(s) && role.Runner? && RunnerPcOk(s.history, role, pc)
    ensures MoveSound(s, role, RunnerMove(s, w, role, pc, o))
  {
    if Publishing(pc) {
      RunnerPublishingSound(s, w, role, pc, o);
    } else if Entering(pc) {
      RunnerEnteringSound(s, w, role, pc, o);
    }
  }

  lemma WitnessReconcileSound(s: State, role: Role, item: CaseRun)
    requires RunOk(s) && role.Witness? && Snapshot(s.history, item)
    requires HasRequirement(item) && (item.state.Running? || item.state.WaitingExternal?)
    ensures MoveSound(s, role, WitnessReconcile(s, item, role.candidate, role.now))
  {
    VersionsCount(s);
  }

  lemma ControllerTransitionSound(s: State, role: Role, item: CaseRun)
    requires RunOk(s) && role.Controller? && Snapshot(s.history, item) && CommandAllowed(item, role.request)
    requires !role.request.action.Delete?
    ensures MoveSound(s, role, ControllerTransition(s, role.request))
  {
    VersionsCount(s);
  }

  lemma WitnessMoveSound(s: State, role: Role, pc: Pc, o: Outcome)
    requires RunOk(s) && role.Witness? && PcOk(s.history, Worker(role, pc))
    ensures MoveSound(s, role, WitnessMove(s, role, pc, o))
  {
    VersionsCount(s);
    if pc.Record? && !o.Throws? {
      WitnessReconcileSound(s, role, pc.item);
    }
  }

  lemma ControllerMoveSound(s: State, role: Role, pc: Pc, o: Outcome)
    requires RunOk(s) && role.Controller? && PcOk(s.history, Worker(role, pc))
    ensures MoveSound(s, role, ControllerMove(s, role, pc, o))
  {
    VersionsCount(s);
    if pc.Control? && !o.Throws? && !role.request.action.Delete? {
      ControllerTransitionSound(s, role, pc.item);
    }
  }

  lemma MoveOfSound(s: State, w: nat, o: Outcome)
    requires HistoryInv(s) && w in s.workers
    ensures MoveSound(s, s.workers[w].role, MoveOf(s, w, o))
  {
    var Worker(role, pc) := s.workers[w];
    assert PcOk(s.history, s.workers[w]);
    match role
    case Runner(_, _, _) => RunnerMoveSound(s, w, role, pc, o);
    case Witness(_, _) => WitnessMoveSound(s, role, pc, o);
    case Controller(request) => ControllerMoveSound(s, role, pc, o);
    case Dispatcher =>
  }

  /** A sound effect keeps the history valid and at most appends to it. */
  lemma PerformKept(s: State, effect: Effect)
    requires RunOk(s) && EffectSound(s, effect)
    ensures RunOk(Perform(s, effect))
    ensures s.history <= Perform(s, effect).history
    ensures Perform(s, effect).workers == s.workers && Perform(s, effect).nextWorker == s.nextWorker
    ensures Perform(s, effect).config == s.config && Perform(s, effect).caseId == s.caseId
  {
    if effect.Commits? {
      var history := Perform(s, effect).history;
      forall i | 0 < i < |history|
        ensures Follows(s.config, history[i - 1], history[i])
      {
        if i < |s.history| {
          assert Follows(s.config, s.history[i - 1], s.history[i]);
        }
      }
    }
  }

  lemma BounceSound(s: State)
    requires RunOk(s) && RecordBounce(s.docs) != s.docs
    ensures EffectSound(s, Commits(RecordBounce(s.docs), Transport, []))
  {
  }

  lemma WorkerStepKept(s: State, w: nat, o: Outcome)
    requires HistoryInv(s) && w in s.workers
    ensures HistoryInv(WorkerStep(s, w, o))
    ensures s.history <= WorkerStep(s, w, o).history
    ensures WorkerStep(s, w, o).config == s.config && WorkerStep(s, w, o).caseId == s.caseId
  {
    MoveOfSound(s, w, o);
    var move := MoveOf(s, w, o);
    PerformKept(s, move.effect);
    var s' := WorkerStep(s, w, o);
    forall v | v in s'.workers
      ensures PcOk(s'.history, s'.workers[v])
    {
      if v == w {
        PcOkKept(s.history, s'.history, Worker(s.workers[w].role, move.pc));
      } else {
        PcOkKept(s.history, s'.history, s.workers[v]);
      }
    }
  }

  /** Every step keeps the invariant and at most appends to the history. */
  lemma HistoryStep(s: State, l: Label)
    requires HistoryInv(s) && Enabled(s, l)
    ensures HistoryInv(Next(s, l))
    ensures s.history <= Next(s, l).history
    ensures Next(s, l).config == s.config && Next(s, l).caseId == s.caseId
  {
    match l
    case Work(w, o) => WorkerStepKept(s, w, o);
    case Bounce =>
      if RecordBounce(s.docs) != s.docs {
        BounceSound(s);
        PerformKept(s, Commits(RecordBounce(s.docs), Transport, []));
        forall w | w in s.workers
          ensures PcOk(Next(s, l).history, s.workers[w])
        {
          PcOkKept(s.history, Next(s, l).history, s.workers[w]);
        }
      }
    case _ =>
  }
}
