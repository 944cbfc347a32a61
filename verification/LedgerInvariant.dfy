/**
 * The action ledger: a reservation belongs to the one worker that created it, and an execution that
 * may have reached the provider keeps its key taken.
 */
module LedgerInvariant {
  import opened Contracts
  import opened CaseHistory
  import opened Documents
  import opened Machine
  import opened HistoryInvariant

  type Ledger = map<ActionKey, ActionRecord>

  ghost predicate Owns(records: Ledger, w: nat, item: CaseRun) {
    KeyOf(item) in records && records[KeyOf(item)] == Reserved(w)
  }

  ghost predicate SettledAs(records: Ledger, key: ActionKey, receiptId: string) {
    key in records && records[key].Succeeded? && records[key].receipt.receiptId == receiptId
  }

  ghost predicate NoExecutionBy(executions: seq<Execution>, w: nat) {
    forall i :: 0 <= i < |executions| ==> executions[i].worker != w
  }

  /** Nothing that `w` has started can have reached the provider. */
  ghost predicate Harmless(executions: seq<Execution>, w: nat) {
    forall i :: 0 <= i < |executions| && executions[i].worker == w ==> executions[i].status.Rejected?
  }

  /** `e` is the execution of `key` by `w`, and was accepted. */
  ghost predicate AcceptedBy(executions: seq<Execution>, e: nat, w: nat, key: ActionKey) {
    e < |executions| && executions[e].worker == w && executions[e].key == key && executions[e].status.Accepted?
  }

  ghost predicate OnlyFor(executions: seq<Execution>, w: nat, key: ActionKey) {
    forall i :: 0 <= i < |executions| && executions[i].worker == w ==> executions[i].key == key
  }

  ghost predicate RunnerLedgerOk(records: Ledger, executions: seq<Execution>, w: nat, role: Role, pc: Pc)
    requires role.Runner?
  {
    match pc
    case Load | Reserve(_) => NoExecutionBy(executions, w)
    case Charge(item) => Owns(records, w, item) && NoExecutionBy(executions, w)
    case Call(item) => Owns(records, w, item) && NoExecutionBy(executions, w)
    case Calling(item, e) =>
      && Owns(records, w, item) && OnlyFor(executions, w, KeyOf(item))
      && e < |executions| && executions[e] == Execution(KeyOf(item), w, item.version, role.now, InProgress)
    case Settle(item, _, e) => Owns(records, w, item) && AcceptedBy(executions, e, w, KeyOf(item))
    case Doubt(item) => Owns(records, w, item)
    case Release(item, accepted) =>
      && Owns(records, w, item)
      && if accepted.Some? then AcceptedBy(executions, accepted.value, w, KeyOf(item)) else Harmless(executions, w)
    case Publish(item, receiptId) => SettledAs(records, KeyOf(item), receiptId)
    case _ => true
  }

  ghost predicate WorkerLedgerOk(s: State, w: nat, worker: Worker) {
    worker.role.Runner? ==> RunnerLedgerOk(s.docs.records, s.executions, w, worker.role, worker.pc)
  }

  /** The run an execution acted for was live, due and cleared when it was read. */
  ghost predicate ExecutionOk(history: seq<Commit>, execution: Execution) {
    && 1 <= execution.version <= |history|
    && var run := history[execution.version - 1].run;
       execution.key == KeyOf(run) && Runnable(run, execution.now) && Cleared(run, execution.now)
  }

  ghost predicate Backed(records: Ledger, forgotten: bool, execution: Execution) {
    !forgotten && !execution.status.Rejected? ==>
      && execution.key in records
      && (records[execution.key].Reserved? ==> records[execution.key].holder == execution.worker)
  }

  /** Another execution of a key follows only one that was rejected or forgotten. */
  ghost predicate AtMostOnce(executions: seq<Execution>, forgotten: set<nat>) {
    forall i, j | 0 <= i < j < |executions| && executions[i].key == executions[j].key ::
      i in forgotten || executions[i].status.Rejected?
  }

  ghost predicate ForgottenOk(executions: seq<Execution>, forgotten: set<nat>) {
    forall i <- forgotten :: i < |executions| && executions[i].status.Accepted?
  }

  ghost predicate OneEach(executions: seq<Execution>) {
    forall i, j :: 0 <= i < j < |executions| ==> executions[i].worker != executions[j].worker
  }

  ghost predicate ReceiptKept(records: Ledger, history: seq<Commit>, i: nat)
    requires 0 < i < |history|
  {
    history[i].writer.RunnerSent? ==> SettledAs(records, KeyOf(history[i - 1].run), history[i].writer.receiptId)
  }

  ghost predicate FreshIds(s: State) {
    && (forall w :: w in s.workers ==> w < s.nextWorker)
    && (forall i :: 0 <= i < |s.executions| ==> s.executions[i].worker < s.nextWorker)
    && (forall key :: key in s.docs.records && s.docs.records[key].Reserved? ==>
          s.docs.records[key].holder < s.nextWorker)
  }

  ghost predicate SharedLedgerOk(s: State) {
    && (forall i :: 0 <= i < |s.executions| ==> ExecutionOk(s.history, s.executions[i]))
    && (forall i :: 0 <= i < |s.executions| ==> Backed(s.docs.records, i in s.forgotten, s.executions[i]))
    && AtMostOnce(s.executions, s.forgotten)
    && ForgottenOk(s.executions, s.forgotten)
    && OneEach(s.executions)
    && (forall i :: 0 < i < |s.history| ==> ReceiptKept(s.docs.records, s.history, i))
  }

  ghost predicate LedgerInv(s: State) {
    && FreshIds(s)
    && SharedLedgerOk(s)
    && forall w :: w in s.workers ==> WorkerLedgerOk(s, w, s.workers[w])
  }

  /** What the ledger needs of an effect that worker `w` has on the shared state. */
  ghost predicate EffectBy(s: State, w: nat, effect: Effect)
    requires |s.history| > 0
  {
    match effect
    case Writes(key, record) =>
      if record.Some? && record.value.Reserved? then key !in s.docs.records && record.value.holder == w
      else
        && key in s.docs.records && s.docs.records[key] == Reserved(w)
        && (record.None? ==> Harmless(s.executions, w))
    case Forgets(key, e) =>
      key in s.docs.records && s.docs.records[key] == Reserved(w) && AcceptedBy(s.executions, e, w, key)
    case Begins(execution) =>
      && execution.worker == w && execution.status.InProgress?
      && NoExecutionBy(s.executions, w)
      && ExecutionOk(s.history, execution)
      && execution.key in s.docs.records && s.docs.records[execution.key] == Reserved(w)
    case Concludes(i, status) =>
      i < |s.executions| && s.executions[i].worker == w && s.executions[i].status.InProgress?
    case Commits(docs, writer, _) =>
      writer.RunnerSent? ==> SettledAs(s.docs.records, KeyOf(Current(s)), writer.receiptId)
    case Silent | Pushes(_) | Marks(_, _) | Deletes(_, _) | Answers(_) => true
  }

  /** A publishing runner commits over the version it holds, whose action has its receipt. */
  lemma PublishingEffect(s: State, w: nat, role: Role, pc: Pc, o: Outcome)
    requires RunOk(s) && role.Runner? && RunnerPcOk(s.history, role, pc) && Publishing(pc)
    requires RunnerLedgerOk(s.docs.records, s.executions, w, role, pc)
    ensures EffectBy(s, w, RunnerMove(s, w, role, pc, o).effect)
  {
    VersionsCount(s);
  }

  lemma RunnerEffect(s: State, w: nat, role: Role, pc: Pc, o: Outcome)
    requires RunOk(s) && role.Runner? && RunnerPcOk(s.history, role, pc)
    requires RunnerLedgerOk(s.docs.records, s.executions, w, role, pc)
    ensures EffectBy(s, w, RunnerMove(s, w, role, pc, o).effect)
  {
    if Publishing(pc) {
      PublishingEffect(s, w, role, pc, o);
    } else {
      assert !RunnerMove(s, w, role, pc, o).effect.Commits?;
    }
  }

  lemma ControllerEffect(s: State, w: nat, role: Role, pc: Pc, o: Outcome)
    requires |s.history| > 0 && role.Controller?
    ensures EffectBy(s, w, ControllerMove(s, role, pc, o).effect)
  {
  }

  lemma MoveEffect(s: State, w: nat, o: Outcome)
    requires HistoryInv(s) && w in s.workers && WorkerLedgerOk(s, w, s.workers[w])
    ensures EffectBy(s, w, MoveOf(s, w, o).effect)
  {
    var Worker(role, pc) := s.workers[w];
    assert PcOk(s.history, s.workers[w]);
    match role
    case Runner(_, _, _) => RunnerEffect(s, w, role, pc, o);
    case Witness(_, _) =>
    case Controller(_) => ControllerEffect(s, w, role, pc, o);
    case Dispatcher =>
  }

  lemma WrittenReceipt(s: State, w: nat, effect: Effect, i: nat)
    requires 0 < i < |s.history| && effect.Writes? && EffectBy(s, w, effect)
    requires ReceiptKept(s.docs.records, s.history, i)
    ensures ReceiptKept(Perform(s, effect).docs.records, s.history, i)
  {
  }

  lemma WritesKeepShared(s: State, w: nat, effect: Effect)
    requires |s.history| > 0 && SharedLedgerOk(s) && effect.Writes? && EffectBy(s, w, effect)
    ensures SharedLedgerOk(Perform(s, effect))
  {
    var s' := Perform(s, effect);
    forall i | 0 <= i < |s.executions|
      ensures Backed(s'.docs.records, i in s'.forgotten, s.executions[i])
    {
    }
    forall i | 0 < i < |s.history|
      ensures ReceiptKept(s'.docs.records, s'.history, i)
    {
      WrittenReceipt(s, w, effect, i);
    }
  }

  /** Whoever owns a key and has executed nothing finds only rejected executions of it. */
  lemma NoneBefore(s: State, w: nat, execution: Execution)
    requires |s.history| > 0 && SharedLedgerOk(s) && EffectBy(s, w, Begins(execution))
    ensures forall i | 0 <= i < |s.executions| && s.executions[i].key == execution.key ::
              i in s.forgotten || s.executions[i].status.Rejected?
  {
    forall i | 0 <= i < |s.executions| && s.executions[i].key == execution.key
      ensures i in s.forgotten || s.executions[i].status.Rejected?
    {
      assert Backed(s.docs.records, i in s.forgotten, s.executions[i]);
    }
  }

  lemma BeginsKeepsShared(s: State, w: nat, effect: Effect)
    requires |s.history| > 0 && SharedLedgerOk(s) && effect.Begins? && EffectBy(s, w, effect)
    ensures SharedLedgerOk(Perform(s, effect))
  {
    NoneBefore(s, w, effect.execution);
    var executions := Perform(s, effect).executions;
    assert OneEach(executions);
    assert AtMostOnce(executions, s.forgotten);
  }

  lemma FreedReceipt(records: Ledger, key: ActionKey, history: seq<Commit>, i: nat)
    requires 0 < i < |history| && key in records && records[key].Reserved? && ReceiptKept(records, history, i)
    ensures ReceiptKept(records - {key}, history, i)
  {
  }

  lemma ForgetsKeepsShared(s: State, w: nat, effect: Effect)
    requires |s.history| > 0 && SharedLedgerOk(s) && effect.Forgets? && EffectBy(s, w, effect)
    ensures SharedLedgerOk(Perform(s, effect))
  {
    forall i | 0 <= i < |s.executions|
      ensures Backed(s.docs.records - {effect.key}, i in s.forgotten + {effect.forgotten}, s.executions[i])
    {
    }
    forall i | 0 < i < |s.history|
      ensures ReceiptKept(s.docs.records - {effect.key}, s.history, i)
    {
      FreedReceipt(s.docs.records, effect.key, s.history, i);
    }
  }

  lemma ConcludedOnce(s: State, effect: Effect)
    requires effect.Concludes? && effect.index < |s.executions| && s.executions[effect.index].status.InProgress?
    requires OneEach(s.executions)
    requires AtMostOnce(s.executions, s.forgotten) && ForgottenOk(s.executions, s.forgotten)
    ensures OneEach(Perform(s, effect).executions)
    ensures AtMostOnce(Perform(s, effect).executions, s.forgotten)
    ensures ForgottenOk(Perform(s, effect).executions, s.forgotten)
  {
  }

  lemma ConcludesKeepsShared(s: State, w: nat, effect: Effect)
    requires |s.history| > 0 && SharedLedgerOk(s) && effect.Concludes? && EffectBy(s, w, effect)
    ensures SharedLedgerOk(Perform(s, effect))
  {
    var executions := Perform(s, effect).executions;
    forall i | 0 <= i < |s.executions|
      ensures ExecutionOk(s.history, executions[i]) && Backed(s.docs.records, i in s.forgotten, executions[i])
    {
    }
    ConcludedOnce(s, effect);
  }

  lemma CommitsKeepsShared(s: State, w: nat, effect: Effect)
    requires HistoryInv(s) && SharedLedgerOk(s) && effect.Commits? && EffectBy(s, w, effect) && EffectSound(s, effect)
    ensures SharedLedgerOk(Perform(s, effect))
  {
    var s' := Perform(s, effect);
    forall i | 0 <= i < |s.executions|
      ensures ExecutionOk(s'.history, s.executions[i])
    {
      assert ExecutionOk(s.history, s.executions[i]);
    }
    forall i | 0 < i < |s'.history|
      ensures ReceiptKept(s'.docs.records, s'.history, i)
    {
      if i < |s.history| {
        assert ReceiptKept(s.docs.records, s.history, i);
      }
    }
  }

  lemma PerformKeepsShared(s: State, w: nat, effect: Effect)
    requires HistoryInv(s) && SharedLedgerOk(s) && EffectBy(s, w, effect) && EffectSound(s, effect)
    ensures SharedLedgerOk(Perform(s, effect))
  {
    match effect
    case Writes(_, _) => WritesKeepShared(s, w, effect);
    case Begins(_) => BeginsKeepsShared(s, w, effect);
    case Concludes(_, _) => ConcludesKeepsShared(s, w, effect);
    case Commits(_, _, _) => CommitsKeepsShared(s, w, effect);
    case Forgets(_, _) => ForgetsKeepsShared(s, w, effect);
    case Silent | Pushes(_) | Marks(_, _) | Deletes(_, _) | Answers(_) =>
  }

  lemma PerformKeepsFresh(s: State, w: nat, effect: Effect)
    requires HistoryInv(s) && FreshIds(s) && w < s.nextWorker && EffectBy(s, w, effect) && EffectSound(s, effect)
    ensures FreshIds(Perform(s, effect))
  {
  }

  /** Another worker's standing in the ledger is not disturbed by what `w` does. */
  lemma OthersKept(s: State, w: nat, effect: Effect, v: nat, worker: Worker)
    requires |s.history| > 0 && v != w && EffectBy(s, w, effect) && EffectSound(s, effect)
    requires WorkerLedgerOk(s, v, worker)
    ensures WorkerLedgerOk(Perform(s, effect), v, worker)
  {
    match effect
    case Writes(_, _) | Forgets(_, _) =>
    case Begins(_) | Concludes(_, _) =>
    case Commits(_, _, _) | Deletes(_, _) =>
    case Silent | Pushes(_) | Marks(_, _) | Answers(_) =>
  }

  lemma LeavingKept(s: State, w: nat, role: Role, pc: Pc, o: Outcome)
    requires role.Runner? && !Entering(pc) && !Executing(pc) && !pc.Finish?
    ensures var move := RunnerMove(s, w, role, pc, o);
            RunnerLedgerOk(s.docs.records, s.executions, w, role, move.pc)
            && !Entering(move.pc) && !Executing(move.pc) && !move.pc.Publish?
  {
  }

  /** A runner's own standing after its move. */
  lemma RunnerKept(s: State, w: nat, role: Role, pc: Pc, o: Outcome)
    requires role.Runner? && !pc.Finish? && OneEach(s.executions)
    requires RunnerLedgerOk(s.docs.records, s.executions, w, role, pc)
    ensures var move := RunnerMove(s, w, role, pc, o);
            WorkerLedgerOk(Perform(s, move.effect), w, Worker(role, move.pc))
  {
    if Entering(pc) {
    } else if Executing(pc) {
    } else {
      LeavingKept(s, w, role, pc, o);
    }
  }

  lemma WorkerStepKeepsLedger(s: State, w: nat, o: Outcome)
    requires HistoryInv(s) && LedgerInv(s) && w in s.workers
    ensures LedgerInv(WorkerStep(s, w, o))
  {
    var Worker(role, pc) := s.workers[w];
    if !pc.Finish? {
      var move := MoveOf(s, w, o);
      assert WorkerLedgerOk(s, w, s.workers[w]);
      MoveOfSound(s, w, o);
      MoveEffect(s, w, o);
      PerformKept(s, move.effect);
      PerformKeepsShared(s, w, move.effect);
      PerformKeepsFresh(s, w, move.effect);
      if role.Runner? {
        RunnerKept(s, w, role, pc, o);
      }
      var s' := WorkerStep(s, w, o);
      forall v | v in s'.workers
        ensures WorkerLedgerOk(s', v, s'.workers[v])
      {
        if v != w {
          OthersKept(s, w, move.effect, v, s.workers[v]);
        }
      }
    }
  }

  lemma StampKeepsLedger(s: State, key: ActionKey, status: TransportStatus)
    requires LedgerInv(s)
    ensures LedgerInv(s.(docs := StampReceipt(s.docs, key, status)))
  {
    var s' := s.(docs := StampReceipt(s.docs, key, status));
    forall i | 0 <= i < |s.executions|
      ensures Backed(s'.docs.records, i in s'.forgotten, s.executions[i])
    {
      assert Backed(s.docs.records, i in s.forgotten, s.executions[i]);
    }
    forall i | 0 < i < |s.history|
      ensures ReceiptKept(s'.docs.records, s'.history, i)
    {
      assert ReceiptKept(s.docs.records, s.history, i);
    }
    forall w | w in s.workers
      ensures WorkerLedgerOk(s', w, s.workers[w])
    {
      assert WorkerLedgerOk(s, w, s.workers[w]);
    }
  }

  lemma BounceKeepsLedger(s: State)
    requires Enabled(s, Bounce) && HistoryInv(s) && LedgerInv(s)
    ensures LedgerInv(Next(s, Bounce))
  {
    if RecordBounce(s.docs) != s.docs {
      var effect := Commits(RecordBounce(s.docs), Transport, []);
      BounceSound(s);
      PerformKept(s, effect);
      PerformKeepsShared(s, s.nextWorker, effect);
      forall w | w in s.workers
        ensures WorkerLedgerOk(Perform(s, effect), w, s.workers[w])
      {
        assert WorkerLedgerOk(s, w, s.workers[w]);
      }
    }
  }

  /** A worker other than a runner starts. */
  lemma ArrivalKeepsLedger(s: State, l: Label)
    requires LedgerInv(s) && Enabled(s, l)
    requires l.Redispatch? || l.Arrive? || l.Request? || l.ScheduleFirst?
    ensures LedgerInv(Next(s, l))
  {
    match l
    case Redispatch(id) =>
    case Arrive(candidate, now) =>
    case Request(request) =>
    case ScheduleFirst(wakeAt) =>
  }

  lemma LedgerStep(s: State, l: Label)
    requires HistoryInv(s) && LedgerInv(s) && Enabled(s, l)
    ensures LedgerInv(Next(s, l))
  {
    match l
    case Work(w, o) => WorkerStepKeepsLedger(s, w, o);
    case Stamp(key, status) => StampKeepsLedger(s, key, status);
    case Bounce => BounceKeepsLedger(s);
    case Deliver(t, now) =>
    case Redispatch(_) | Arrive(_, _) | Request(_) | ScheduleFirst(_) => ArrivalKeepsLedger(s, l);
    case Duplicate(_) | DropDraft | Foreign(_, _) | Crash(_) =>
  }

  /** Every ordinal below the current one has a SUCCEEDED record with a receipt. */
  lemma OrdinalsSettled(s: State, ordinal: nat)
    requires HistoryInv(s) && LedgerInv(s)
    requires 1 <= ordinal < Current(s).actionOrdinal
    ensures var key := KeyOf(Current(s).(actionOrdinal := ordinal));
            key in s.docs.records && s.docs.records[key].Succeeded?
  {
    var last := |s.history| - 1;
    var k := OrdinalsSent(s.config, s.history, last, ordinal);
    IdentityKept(s.config, s.history, k - 1);
    IdentityKept(s.config, s.history, last);
    assert ReceiptKept(s.docs.records, s.history, k);
  }
}
