/**
 * No wake is lost: a live version keeps a pending intent, a task that will be delivered again, or an
 * action whose outcome is still open.
 */
module WakeInvariant {
  import opened Contracts
  import opened CaseHistory
  import opened Documents
  import opened Machine
  import opened HistoryInvariant
  import opened LedgerInvariant
  import opened CommandInvariant

  /** A task for `version` has been enqueued at some time. */
  ghost predicate Created(queue: seq<Task>, version: nat) {
    exists t :: 0 <= t < |queue| && queue[t].version == version
  }

  ghost predicate HasIntent(intents: map<IntentId, Intent>, version: nat) {
    exists id <- intents.Keys :: id.version == version && intents[id].persisted
  }

  ghost predicate DispatchCreated(intents: map<IntentId, Intent>, queue: seq<Task>) {
    forall id <- intents.Keys :: !intents[id].pending ==> Created(queue, id.version)
  }

  /** A runner here has nothing left to do but to acknowledge its task. */
  ghost predicate Idle(pc: Pc) {
    (pc.Mark? && pc.enqueued) || pc.Notify? || (pc.Finish? && pc.acknowledge)
  }

  /** The task will be delivered again, or its handler will still act for it. */
  ghost predicate Counts(queue: seq<Task>, workers: map<nat, Worker>, t: nat) {
    && t < |queue| && !queue[t].acknowledged
    && (queue[t].handler.Some? ==> queue[t].handler.value in workers && !Idle(workers[queue[t].handler.value].pc))
  }

  ghost predicate InFlight(records: Ledger, key: ActionKey) {
    key in records && !records[key].Succeeded?
  }

  ghost predicate PcWakeOk(versions: nat, queue: seq<Task>, pc: Pc) {
    match pc
    case Enqueue(version, _) => 1 <= version <= versions
    case Mark(version, _, enqueued) => 1 <= version <= versions && (enqueued ==> Created(queue, version))
    case _ => true
  }

  ghost predicate Handles(queue: seq<Task>, w: nat, role: Role) {
    role.Runner? ==>
      && role.task < |queue| && queue[role.task].handler == Some(w)
      && queue[role.task].version == role.version && !queue[role.task].acknowledged
  }

  ghost predicate Handled(workers: map<nat, Worker>, t: nat, task: Task) {
    task.handler.Some? ==>
      && task.handler.value in workers
      && workers[task.handler.value].role.Runner?
      && workers[task.handler.value].role.task == t
  }

  ghost predicate QueueOk(s: State) {
    && (forall t :: 0 <= t < |s.queue| ==> 1 <= s.queue[t].version <= |s.history|)
    && (forall t :: 0 <= t < |s.queue| ==> Handled(s.workers, t, s.queue[t]))
    && (forall w :: w in s.workers ==> w < s.nextWorker && Handles(s.queue, w, s.workers[w].role))
    && (forall w :: w in s.workers ==> PcWakeOk(|s.history|, s.queue, s.workers[w].pc))
  }

  ghost predicate IntentsOk(s: State) {
    && (forall id <- s.docs.intents.Keys :: s.docs.intents[id].persisted ==> 1 <= id.version <= |s.history|)
    && DispatchCreated(s.docs.intents, s.queue)
    && (forall i :: 0 <= i < |s.history| && Live(s.history[i].run.state) ==> HasIntent(s.docs.intents, i + 1))
  }

  ghost predicate Covered(s: State)
    requires |s.history| > 0
  {
    s.docs.run.Some? && Live(Current(s).state) && Created(s.queue, |s.history|) ==>
      (exists t: nat :: Counts(s.queue, s.workers, t)) || InFlight(s.docs.records, KeyOf(Current(s)))
  }

  ghost predicate WakeInv(s: State) {
    |s.history| > 0 && QueueOk(s) && IntentsOk(s) && Covered(s)
  }

  // Where a move leads in scheduling.

  lemma SchedulingWake(s: State, pc: Pc, o: Outcome)
    requires PcWakeOk(|s.history|, s.queue, pc)
    ensures var move := SchedulingMove(pc, o);
            PcWakeOk(|Perform(s, move.effect).history|, Perform(s, move.effect).queue, move.pc)
  {
    if pc.Enqueue? {
      assert (s.queue + [Task(pc.version, None, false)])[|s.queue|].version == pc.version;
    }
  }

  lemma PublishingWake(s: State, w: nat, role: Role, pc: Pc, o: Outcome)
    requires RunOk(s) && role.Runner? && RunnerPcOk(s.history, role, pc) && Publishing(pc)
    ensures var move := RunnerMove(s, w, role, pc, o);
            PcWakeOk(|Perform(s, move.effect).history|, Perform(s, move.effect).queue, move.pc)
  {
    VersionsCount(s);
  }

  lemma RunnerWake(s: State, w: nat, role: Role, pc: Pc, o: Outcome)
    requires RunOk(s) && role.Runner? && RunnerPcOk(s.history, role, pc) && PcWakeOk(|s.history|, s.queue, pc)
    ensures var move := RunnerMove(s, w, role, pc, o);
            PcWakeOk(|Perform(s, move.effect).history|, Perform(s, move.effect).queue, move.pc)
  {
    if Publishing(pc) {
      PublishingWake(s, w, role, pc, o);
    } else if pc.Enqueue? || pc.Mark? || pc.Finish? {
      SchedulingWake(s, pc, o);
    } else {
      VersionsCount(s);
      assert !RunnerMove(s, w, role, pc, o).pc.Mark?;
    }
  }

  lemma WitnessWake(s: State, role: Role, pc: Pc, o: Outcome)
    requires RunOk(s) && role.Witness? && PcOk(s.history, Worker(role, pc)) && PcWakeOk(|s.history|, s.queue, pc)
    ensures var move := WitnessMove(s, role, pc, o);
            PcWakeOk(|Perform(s, move.effect).history|, Perform(s, move.effect).queue, move.pc)
  {
    VersionsCount(s);
    SchedulingWake(s, pc, o);
  }

  lemma ControlWake(s: State, role: Role, item: CaseRun, o: Outcome)
    requires RunOk(s) && CommandInv(s) && role.Controller? && PcOk(s.history, Worker(role, Pc.Control(item)))
    ensures var move := ControllerMove(s, role, Pc.Control(item), o);
            PcWakeOk(|Perform(s, move.effect).history|, s.queue, move.pc) && !move.pc.Mark?
            && !move.effect.Pushes?
  {
    VersionsCount(s);
    if role.request.key in s.docs.commands && s.docs.commands[role.request.key].caseId == s.caseId {
      assert RecordCommitted(s.history, role.request.key, s.docs.commands[role.request.key]);
    }
  }

  lemma ControllerWake(s: State, role: Role, pc: Pc, o: Outcome)
    requires RunOk(s) && CommandInv(s) && role.Controller?
    requires PcOk(s.history, Worker(role, pc)) && PcWakeOk(|s.history|, s.queue, pc)
    ensures var move := ControllerMove(s, role, pc, o);
            PcWakeOk(|Perform(s, move.effect).history|, Perform(s, move.effect).queue, move.pc)
  {
    match pc
    case Load =>
    case Control(item) => ControlWake(s, role, item, o);
    case LoadRun =>
    case _ => SchedulingWake(s, pc, o);
  }

  lemma MoveWake(s: State, w: nat, o: Outcome)
    requires HistoryInv(s) && CommandInv(s) && w in s.workers
    requires PcWakeOk(|s.history|, s.queue, s.workers[w].pc)
    ensures var move := MoveOf(s, w, o);
            PcWakeOk(|Perform(s, move.effect).history|, Perform(s, move.effect).queue, move.pc)
  {
    var Worker(role, pc) := s.workers[w];
    assert PcOk(s.history, s.workers[w]);
    match role
    case Runner(_, _, _) => RunnerWake(s, w, role, pc, o);
    case Witness(_, _) => WitnessWake(s, role, pc, o);
    case Controller(_) => ControllerWake(s, role, pc, o);
    case Dispatcher => SchedulingWake(s, pc, o);
  }

  // The queue and the intents.

  lemma CreatedKept(queue: seq<Task>, longer: seq<Task>, version: nat)
    requires Created(queue, version) && |queue| <= |longer|
    requires forall t :: 0 <= t < |queue| ==> longer[t].version == queue[t].version
    ensures Created(longer, version)
  {
    var t :| 0 <= t < |queue| && queue[t].version == version;
    assert longer[t].version == version;
  }

  ghost predicate SameVersions(queue: seq<Task>, longer: seq<Task>) {
    |queue| <= |longer| && forall t :: 0 <= t < |queue| ==> longer[t].version == queue[t].version
  }

  lemma PcWakeKept(versions: nat, more: nat, queue: seq<Task>, longer: seq<Task>, pc: Pc)
    requires PcWakeOk(versions, queue, pc) && versions <= more && SameVersions(queue, longer)
    ensures PcWakeOk(more, longer, pc)
  {
    if pc.Mark? && pc.enqueued {
      CreatedKept(queue, longer, pc.version);
    }
  }

  /** What the intents need of an effect. */
  ghost predicate MarksSound(s: State, effect: Effect) {
    effect.Marks? && !effect.pending ==> Created(s.queue, effect.id.version)
  }

  lemma MoveMarks(s: State, w: nat, o: Outcome)
    requires w in s.workers && PcWakeOk(|s.history|, s.queue, s.workers[w].pc)
    ensures MarksSound(s, MoveOf(s, w, o).effect)
  {
    var Worker(role, pc) := s.workers[w];
    match role
    case Runner(_, _, _) =>
    case Witness(_, _) =>
    case Controller(_) =>
    case Dispatcher =>
  }

  lemma CommitKeepsIntents(s: State, effect: Effect)
    requires HistoryInv(s) && IntentsOk(s) && effect.Commits? && EffectSound(s, effect)
    ensures IntentsOk(Perform(s, effect))
  {
    VersionsCount(s);
    var s' := Perform(s, effect);
    PerformKept(s, effect);
    var run := effect.docs.run.value;
    forall i | 0 <= i < |s'.history| && Live(s'.history[i].run.state)
      ensures HasIntent(s'.docs.intents, i + 1)
    {
      if i < |s.history| {
      } else {
        LiveHasWake(s'.config, s'.history, i);
        assert WakeOf(run).value in s'.docs.intents.Keys;
      }
    }
  }

  lemma MarksKeepsIntents(s: State, effect: Effect)
    requires IntentsOk(s) && effect.Marks? && MarksSound(s, effect)
    ensures IntentsOk(Perform(s, effect))
  {
    var s' := Perform(s, effect);
    forall i | 0 <= i < |s'.history| && Live(s'.history[i].run.state)
      ensures HasIntent(s'.docs.intents, i + 1)
    {
    }
  }

  lemma PerformKeepsIntents(s: State, effect: Effect)
    requires HistoryInv(s) && IntentsOk(s) && EffectSound(s, effect) && MarksSound(s, effect)
    ensures IntentsOk(Perform(s, effect))
  {
    match effect
    case Commits(_, _, _) => CommitKeepsIntents(s, effect);
    case Marks(_, _) => MarksKeepsIntents(s, effect);
    case Pushes(version) =>
      var s' := Perform(s, effect);
      forall id | id in s'.docs.intents && !s'.docs.intents[id].pending
        ensures Created(s'.queue, id.version)
      {
        CreatedKept(s.queue, s'.queue, id.version);
      }
    case _ =>
  }

  /** The queue may gain one task and the history versions, while worker `w` moves on. */
  lemma GrownQueueOk(s: State, s': State, w: nat, pc: Pc, added: seq<Task>)
    requires QueueOk(s) && w in s.workers
    requires s'.workers == s.workers[w := Worker(s.workers[w].role, pc)] && s'.nextWorker == s.nextWorker
    requires |s.history| <= |s'.history| && s'.queue == s.queue + added
    requires forall task <- added :: task.handler.None? && 1 <= task.version <= |s.history|
    requires PcWakeOk(|s'.history|, s'.queue, pc)
    ensures QueueOk(s')
  {
    forall v | v in s'.workers
      ensures PcWakeOk(|s'.history|, s'.queue, s'.workers[v].pc)
    {
      if v != w {
        PcWakeKept(|s.history|, |s'.history|, s.queue, s'.queue, s.workers[v].pc);
      }
    }
  }

  lemma PerformKeepsQueue(s: State, w: nat, effect: Effect, pc: Pc)
    requires HistoryInv(s) && QueueOk(s) && EffectSound(s, effect) && w in s.workers
    requires effect.Pushes? ==> 1 <= effect.version <= |s.history|
    requires PcWakeOk(|Perform(s, effect).history|, Perform(s, effect).queue, pc)
    ensures QueueOk(Goto(Perform(s, effect), w, s.workers[w].role, pc))
  {
    var added := if effect.Pushes? then [Task(effect.version, None, false)] else [];
    assert s.queue + [] == s.queue;
    GrownQueueOk(s, Goto(Perform(s, effect), w, s.workers[w].role, pc), w, pc, added);
  }

  lemma EndKeepsQueue(s: State, w: nat, acknowledge: bool)
    requires HistoryInv(s) && QueueOk(s) && IntentsOk(s) && w in s.workers
    ensures QueueOk(End(s, w, acknowledge)) && IntentsOk(End(s, w, acknowledge))
  {
    var s' := End(s, w, acknowledge);
    assert SameVersions(s.queue, s'.queue);
    forall v | v in s'.workers
      ensures PcWakeOk(|s'.history|, s'.queue, s'.workers[v].pc) && Handles(s'.queue, v, s'.workers[v].role)
    {
      PcWakeKept(|s.history|, |s'.history|, s.queue, s'.queue, s.workers[v].pc);
      assert Handles(s.queue, v, s.workers[v].role) && Handles(s.queue, w, s.workers[w].role);
    }
    forall t | 0 <= t < |s'.queue|
      ensures Handled(s'.workers, t, s'.queue[t])
    {
      assert Handled(s.workers, t, s.queue[t]) && Handles(s.queue, w, s.workers[w].role);
    }
    forall id | id in s'.docs.intents && !s'.docs.intents[id].pending
      ensures Created(s'.queue, id.version)
    {
      CreatedKept(s.queue, s'.queue, id.version);
    }
  }

  // Coverage.

  /** A runner whose next move is not idle keeps its own task alive. */
  lemma BusyCovers(s: State, w: nat)
    requires QueueOk(s) && |s.history| > 0 && w in s.workers && s.workers[w].role.Runner? && !Idle(s.workers[w].pc)
    ensures Covered(s)
  {
    assert Handles(s.queue, w, s.workers[w].role);
    assert Counts(s.queue, s.workers, s.workers[w].role.task);
  }

  /** A step that disturbs neither tasks, ledger nor run, by a worker that did not count, keeps coverage. */
  lemma QuietCovers(s: State, s': State, w: nat)
    requires |s.history| > 0 && s'.history == s.history && QueueOk(s)
    requires s'.docs.run == s.docs.run && s'.docs.records == s.docs.records
    requires Covered(s) && |s.queue| <= |s'.queue|
    requires forall t :: 0 <= t < |s.queue| && s.queue[t].handler != Some(w) ==> s'.queue[t] == s.queue[t]
    requires forall t :: 0 <= t < |s.queue| ==> s'.queue[t].version == s.queue[t].version
    requires forall t :: |s.queue| <= t < |s'.queue| ==> s'.queue[t].handler.None? && !s'.queue[t].acknowledged
    requires forall v :: v in s.workers && v != w ==> v in s'.workers && s'.workers[v].pc == s.workers[v].pc
    requires w in s.workers ==> s.workers[w].role.Runner? ==> Idle(s.workers[w].pc)
    ensures Covered(s')
  {
    if s'.docs.run.Some? && Live(Current(s').state) && Created(s'.queue, |s'.history|) {
      if |s.queue| < |s'.queue| {
        assert Counts(s'.queue, s'.workers, |s.queue|);
      } else {
        CreatedKept(s'.queue, s.queue, |s.history|);
        if !InFlight(s.docs.records, KeyOf(Current(s))) {
          var t: nat :| Counts(s.queue, s.workers, t);
          assert Handled(s.workers, t, s.queue[t]);
          assert Counts(s'.queue, s'.workers, t);
        }
      }
    }
  }

  /** The action of a version that is still unsettled is that of the current ordinal. */
  lemma OpenActionIsCurrent(s: State, item: CaseRun)
    requires HistoryInv(s) && LedgerInv(s) && Snapshot(s.history, item)
    requires InFlight(s.docs.records, KeyOf(item))
    ensures KeyOf(item) == KeyOf(Current(s))
  {
    var last := |s.history| - 1;
    OrdinalsMonotone(s.config, s.history, item.version - 1, last);
    OrdinalsBounded(s.config, s.history, item.version - 1);
    IdentityKept(s.config, s.history, item.version - 1);
    IdentityKept(s.config, s.history, last);
    if item.actionOrdinal < Current(s).actionOrdinal {
      OrdinalsSettled(s, item.actionOrdinal);
    }
  }

  /** A task that is acknowledged as stale without rescheduling finds no live version waiting. */
  lemma StaleIsNotLive(s: State, version: nat, now: Time)
    requires RunOk(s) && 1 <= version <= |s.history|
    requires Idle(AfterLoad(version, now, s.docs.run))
    ensures !Live(Current(s).state)
  {
    VersionsCount(s);
    LiveHasWake(s.config, s.history, |s.history| - 1);
  }

  /** Acknowledging at once is safe: no live version is waiting, or its action is in flight. */
  lemma AcknowledgedCovers(s: State, w: nat, role: Role, pc: Pc, o: Outcome, s': State)
    requires HistoryInv(s) && LedgerInv(s) && WakeInv(s) && w in s.workers && s.workers[w] == Worker(role, pc)
    requires role.Runner? && (pc.Load? || pc.Reserve?)
    requires Idle(RunnerMove(s, w, role, pc, o).pc)
    requires s' == Goto(s, w, role, RunnerMove(s, w, role, pc, o).pc)
    ensures Covered(s')
  {
    assert Handles(s.queue, w, role) && PcOk(s.history, s.workers[w]);
    if pc.Load? {
      StaleIsNotLive(s, role.version, role.now);
    } else {
      OpenActionIsCurrent(s, pc.item);
    }
  }

  lemma RunnerTurnsIdle(s: State, w: nat, role: Role, pc: Pc, o: Outcome)
    requires role.Runner? && !pc.Finish? && Idle(RunnerMove(s, w, role, pc, o).pc)
    ensures var effect := RunnerMove(s, w, role, pc, o).effect;
            || ((pc.Load? || pc.Reserve?) && effect.Silent?)
            || effect.Commits?
            || effect.Pushes?
            || (Idle(pc) && (effect.Silent? || effect.Marks?))
  {
  }

  lemma RunnerCovers(s: State, w: nat, o: Outcome, s': State)
    requires w in s.workers && s.workers[w].role.Runner? && !s.workers[w].pc.Finish?
    requires HistoryInv(s) && LedgerInv(s) && WakeInv(s)
    requires EffectSound(s, MoveOf(s, w, o).effect)
    requires |s'.history| > 0 && s' == WorkerStep(s, w, o) && QueueOk(s')
    ensures Covered(s')
  {
    var Worker(role, pc) := s.workers[w];
    var move := RunnerMove(s, w, role, pc, o);
    PerformKept(s, move.effect);
    if !Idle(move.pc) {
      BusyCovers(s', w);
    } else {
      RunnerTurnsIdle(s, w, role, pc, o);
      if (pc.Load? || pc.Reserve?) && move.effect.Silent? {
        AcknowledgedCovers(s, w, role, pc, o, s');
      } else if move.effect.Commits? {
      } else if move.effect.Pushes? {
        assert Counts(s'.queue, s'.workers, |s.queue|);
      } else {
        QuietCovers(s, s', w);
      }
    }
  }

  ghost predicate OutsideLedger(effect: Effect) {
    effect.Silent? || effect.Commits? || effect.Pushes? || effect.Marks? || effect.Deletes? || effect.Answers?
  }

  lemma OthersStayOutside(s: State, w: nat, o: Outcome)
    requires w in s.workers && !s.workers[w].role.Runner?
    ensures OutsideLedger(MoveOf(s, w, o).effect)
  {
  }

  lemma OtherCovers(s: State, w: nat, role: Role, pc: Pc, move: Move, s': State)
    requires HistoryInv(s) && WakeInv(s) && w in s.workers && s.workers[w] == Worker(role, pc)
    requires !role.Runner? && OutsideLedger(move.effect) && EffectSound(s, move.effect)
    requires s' == Goto(Perform(s, move.effect), w, role, move.pc)
    ensures Covered(s')
  {
    PerformKept(s, move.effect);
    if move.effect.Commits? {
    } else if !move.effect.Deletes? {
      QuietCovers(s, s', w);
    }
  }

  lemma EndCovers(s: State, w: nat, acknowledge: bool)
    requires HistoryInv(s) && WakeInv(s) && w in s.workers
    requires acknowledge ==> Idle(s.workers[w].pc)
    ensures Covered(End(s, w, acknowledge))
  {
    var s' := End(s, w, acknowledge);
    var role := s.workers[w].role;
    assert Handles(s.queue, w, role);
    if role.Runner? && !acknowledge {
      assert Counts(s'.queue, s'.workers, role.task);
    } else {
      forall t | 0 <= t < |s.queue| && s.queue[t].handler != Some(w)
        ensures s'.queue[t] == s.queue[t]
      {
      }
      QuietCovers(s, s', w);
    }
  }

  lemma WorkerStepKeepsWakes(s: State, w: nat, o: Outcome)
    requires HistoryInv(s) && LedgerInv(s) && CommandInv(s) && WakeInv(s) && w in s.workers
    requires !s.workers[w].pc.Finish?
    ensures WakeInv(WorkerStep(s, w, o))
  {
    var Worker(role, pc) := s.workers[w];
    var move := MoveOf(s, w, o);
    var s' := Goto(Perform(s, move.effect), w, role, move.pc);
    MoveOfSound(s, w, o);
    MoveMarks(s, w, o);
    MoveWake(s, w, o);
    PerformKept(s, move.effect);
    PerformKeepsIntents(s, move.effect);
    PushesWithinBounds(s, w, o);
    PerformKeepsQueue(s, w, move.effect, move.pc);
    if role.Runner? {
      RunnerCovers(s, w, o, s');
    } else {
      OthersStayOutside(s, w, o);
      OtherCovers(s, w, role, pc, move, s');
    }
  }

  lemma PushesWithinBounds(s: State, w: nat, o: Outcome)
    requires w in s.workers && PcWakeOk(|s.history|, s.queue, s.workers[w].pc)
    ensures MoveOf(s, w, o).effect.Pushes? ==> 1 <= MoveOf(s, w, o).effect.version <= |s.history|
  {
    assert MoveOf(s, w, o).effect.Pushes? ==>
      s.workers[w].pc.Enqueue? && MoveOf(s, w, o).effect.version == s.workers[w].pc.version;
  }

  lemma SpawnKeepsWakes(s: State, role: Role, pc: Pc)
    requires HistoryInv(s) && WakeInv(s) && !role.Runner? && PcWakeOk(|s.history|, s.queue, pc)
    ensures WakeInv(Spawn(s, role, pc))
  {
    var s' := Spawn(s, role, pc);
    forall t | 0 <= t < |s'.queue|
      ensures Handled(s'.workers, t, s'.queue[t])
    {
      assert Handled(s.workers, t, s.queue[t]);
    }
    QuietCovers(s, s', s.nextWorker);
  }

  lemma DeliverKeepsWakes(s: State, t: nat, now: Time)
    requires HistoryInv(s) && WakeInv(s) && Enabled(s, Deliver(t, now))
    ensures WakeInv(Next(s, Deliver(t, now)))
  {
    var s' := Next(s, Deliver(t, now));
    assert SameVersions(s.queue, s'.queue);
    forall w | w in s'.workers
      ensures PcWakeOk(|s'.history|, s'.queue, s'.workers[w].pc) && Handles(s'.queue, w, s'.workers[w].role)
    {
      if w != s.nextWorker {
        assert Handles(s.queue, w, s.workers[w].role);
        PcWakeKept(|s.history|, |s'.history|, s.queue, s'.queue, s.workers[w].pc);
      }
    }
    forall u | 0 <= u < |s'.queue|
      ensures Handled(s'.workers, u, s'.queue[u])
    {
      assert Handled(s.workers, u, s.queue[u]);
    }
    forall id | id in s'.docs.intents && !s'.docs.intents[id].pending
      ensures Created(s'.queue, id.version)
    {
      CreatedKept(s.queue, s'.queue, id.version);
    }
    assert Counts(s'.queue, s'.workers, t);
  }

  lemma DuplicateKeepsWakes(s: State, t: nat)
    requires HistoryInv(s) && WakeInv(s) && Enabled(s, Duplicate(t))
    ensures WakeInv(Next(s, Duplicate(t)))
  {
    var s' := Next(s, Duplicate(t));
    assert SameVersions(s.queue, s'.queue);
    PerformKeepsIntents(s, Pushes(s.queue[t].version));
    forall w | w in s'.workers
      ensures PcWakeOk(|s'.history|, s'.queue, s'.workers[w].pc)
    {
      PcWakeKept(|s.history|, |s'.history|, s.queue, s'.queue, s.workers[w].pc);
    }
    forall u | 0 <= u < |s'.queue|
      ensures Handled(s'.workers, u, s'.queue[u])
    {
      assert u < |s.queue| ==> Handled(s.workers, u, s.queue[u]);
    }
    assert Counts(s'.queue, s'.workers, |s.queue|);
  }

  lemma BounceKeepsWakes(s: State)
    requires Enabled(s, Bounce) && HistoryInv(s) && WakeInv(s)
    ensures WakeInv(Next(s, Bounce))
  {
    if RecordBounce(s.docs) != s.docs {
      var effect := Commits(RecordBounce(s.docs), Transport, []);
      var s' := Perform(s, effect);
      BounceSound(s);
      PerformKept(s, effect);
      PerformKeepsIntents(s, effect);
      forall w | w in s'.workers
        ensures PcWakeOk(|s'.history|, s'.queue, s'.workers[w].pc)
      {
        PcWakeKept(|s.history|, |s'.history|, s.queue, s'.queue, s.workers[w].pc);
      }
    }
  }

  /** A worker other than a runner starts. */
  lemma ArrivalKeepsWakes(s: State, l: Label)
    requires HistoryInv(s) && WakeInv(s) && Enabled(s, l)
    requires l.Redispatch? || l.Arrive? || l.Request? || l.ScheduleFirst?
    ensures WakeInv(Next(s, l))
  {
    match l
    case Redispatch(id) => SpawnKeepsWakes(s, Dispatcher, Enqueue(id.version, id.wakeAt));
    case Arrive(candidate, now) => SpawnKeepsWakes(s, Witness(candidate, now), Load);
    case Request(request) => SpawnKeepsWakes(s, Controller(request), Load);
    case ScheduleFirst(wakeAt) => SpawnKeepsWakes(s, Dispatcher, Enqueue(1, wakeAt));
  }

  lemma WakeStep(s: State, l: Label)
    requires HistoryInv(s) && LedgerInv(s) && CommandInv(s) && WakeInv(s) && Enabled(s, l)
    ensures WakeInv(Next(s, l))
  {
    match l
    case Work(w, o) =>
      if s.workers[w].pc.Finish? {
        EndKeepsQueue(s, w, s.workers[w].pc.acknowledge);
        EndCovers(s, w, s.workers[w].pc.acknowledge);
      } else {
        WorkerStepKeepsWakes(s, w, o);
      }
    case Crash(w) =>
      EndKeepsQueue(s, w, false);
      EndCovers(s, w, false);
    case Deliver(t, now) => DeliverKeepsWakes(s, t, now);
    case Duplicate(t) => DuplicateKeepsWakes(s, t);
    case Bounce => BounceKeepsWakes(s);
    case Redispatch(_) | Arrive(_, _) | Request(_) | ScheduleFirst(_) => ArrivalKeepsWakes(s, l);
    case Stamp(_, _) | DropDraft | Foreign(_, _) =>
  }

  /** A live version always has a way to be woken. */
  lemma NeverUncovered(s: State)
    requires HistoryInv(s) && WakeInv(s) && s.docs.run.Some? && Live(Current(s).state)
    ensures || (exists id <- s.docs.intents.Keys ::
                  id.version == Current(s).version && s.docs.intents[id].pending && s.docs.intents[id].persisted)
            || (exists t :: 0 <= t < |s.queue| && !s.queue[t].acknowledged && s.queue[t].version <= Current(s).version)
            || InFlight(s.docs.records, KeyOf(Current(s)))
  {
    VersionsCount(s);
    assert HasIntent(s.docs.intents, |s.history| - 1 + 1);
    var id :| id in s.docs.intents && id.version == |s.history| && s.docs.intents[id].persisted;
    if !s.docs.intents[id].pending {
      assert Created(s.queue, |s.history|);
    }
  }
}
