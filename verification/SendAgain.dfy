/**
 * When an action whose key is free again can be sent once more, and when it never will be: a reachable
 * state decides which, by its workers and its run alone.
 */
module SendAgain {
  import opened Contracts
  import opened CaseHistory
  import opened Documents
  import opened Machine
  import opened HistoryInvariant
  import opened LedgerInvariant
  import opened WakeInvariant
  import opened FollowThrough
  import opened DoubleSend
  import Policy

  /** A worker that has been authorised for the action of `key` and reserves it next. */
  predicate PoisedWorker(worker: Worker, key: ActionKey) {
    worker.role.Runner? && worker.pc.Reserve? && KeyOf(worker.pc.item) == key
  }

  predicate Poised(s: State, key: ActionKey) {
    exists w <- s.workers.Keys :: PoisedWorker(s.workers[w], key)
  }

  function WakeAt(run: CaseRun): Time {
    run.nextWakeAt.GetOr(run.dueAt)
  }

  predicate HasReceipt(records: map<ActionKey, ActionRecord>) {
    exists key <- records.Keys :: records[key].Succeeded?
  }

  /**
   * The run is at this action, unrevoked, and can be brought to take it: it is due before the approval
   * expires, it can be resumed, or a send that has its receipt may bounce, after which it can be resumed.
   */
  predicate Ahead(s: State, key: ActionKey) {
    s.docs.run.Some? &&
    var run := s.docs.run.value;
    && KeyOf(run) == key && !Revoked(run)
    && (HasReceipt(s.docs.records) || run.state.NeedsAttention?
        || (Live(run.state) && WakeAt(run) < run.approval.expiresAt))
  }

  ghost predicate AcceptedSince(s: State, key: ActionKey, u: State) {
    exists j :: |s.executions| <= j < |u.executions|
                && u.executions[j].key == key && u.executions[j].status.Accepted?
  }

  ghost predicate CanBeResent(s: State, key: ActionKey) {
    exists labels: seq<Label>, u: State :: Leads(s, labels, u) && AcceptedSince(s, key, u)
  }

  // What can be sent again.

  lemma ResentLater(s: State, labels: seq<Label>, t: State, key: ActionKey)
    requires Leads(s, labels, t) && |s.executions| <= |t.executions| && CanBeResent(t, key)
    ensures CanBeResent(s, key)
  {
    var more: seq<Label>, u: State :| Leads(t, more, u) && AcceptedSince(t, key, u);
    LeadsAppend(s, labels, t, more, u);
    var j :| |t.executions| <= j < |u.executions| && u.executions[j].key == key && u.executions[j].status.Accepted?;
    assert AcceptedSince(s, key, u);
  }

  lemma FromReserve(s: State, w: nat, key: ActionKey)
    requires w in s.workers && PoisedWorker(s.workers[w], key) && key !in s.docs.records
    ensures CanBeResent(s, key)
  {
    var item := s.workers[w].pc.item;
    var l0, s0 := Reserves(s, w, item);
    var l1, s1 := Sends(s0, w, item);
    LeadsAppend(s, l0, s0, l1, s1);
    assert s1.executions[|s.executions|].key == key;
    assert AcceptedSince(s, key, s1);
  }

  lemma LiveHasIntent(s: State, run: CaseRun) returns (id: IntentId)
    requires Invariant(s) && s.docs.run == Some(run) && Live(run.state)
    ensures id in s.docs.intents && id.version == run.version && s.docs.intents[id].persisted
    ensures s.nextWorker !in s.workers && s.nextWorker + 1 !in s.workers
  {
    VersionsCount(s);
    assert HasIntent(s.docs.intents, |s.history| - 1 + 1);
    id :| id in s.docs.intents.Keys && id.version == run.version && s.docs.intents[id].persisted;
  }

  lemma Redispatches(s: State, id: IntentId) returns (labels: seq<Label>, u: State)
    requires Enabled(s, Redispatch(id)) && s.nextWorker + 1 !in s.workers
    ensures Leads(s, labels, u)
    ensures u.docs == s.docs && u.executions == s.executions && u.nextWorker !in u.workers
    ensures u.queue == s.queue + [Task(id.version, None, false)]
  {
    var a := Next(s, Redispatch(id));
    var step := Work(s.nextWorker, Returns);
    u := Next(a, step);
    labels := [Redispatch(id)] + [step];
    LeadsOne(s, Redispatch(id));
    LeadsOne(a, step);
    LeadsAppend(s, [Redispatch(id)], a, [step], u);
  }

  lemma FromLive(s: State, run: CaseRun, now: Time)
    requires Invariant(s) && s.docs.run == Some(run) && Runnable(run, now) && Cleared(run, now)
    requires KeyOf(run) !in s.docs.records
    ensures CanBeResent(s, KeyOf(run))
  {
    var id := LiveHasIntent(s, run);
    var l0, s0 := Redispatches(s, id);
    var l1, s1 := Accepts(s0, run, |s.queue|, now);
    assert s1.executions[|s.executions|].key == KeyOf(run);
    assert AcceptedSince(s0, KeyOf(run), s1);
    ResentLater(s, l0, s0, KeyOf(run));
  }

  /** An action that was executed is licensed on every unrevoked version of its ordinal until it expires. */
  lemma StillLicensed(s: State, e: nat, run: CaseRun, now: Time)
    requires Invariant(s) && e < |s.executions| && s.docs.run == Some(run)
    requires KeyOf(run) == s.executions[e].key && !Revoked(run) && now < run.approval.expiresAt
    ensures Cleared(run, now)
  {
    assert ExecutionOk(s.history, s.executions[e]);
    var v := s.executions[e].version - 1;
    var executed := s.history[v].run;
    IdentityKept(s.config, s.history, v);
    IdentityKept(s.config, s.history, |s.history| - 1);
    Policy.AuthorizedIffLicensed(PolicyOf(executed), ProposalOf(executed), s.executions[e].now);
    Policy.AuthorizedIffLicensed(PolicyOf(run), ProposalOf(run), now);
  }

  lemma {:induction false} LongerThan(keys: set<string>) returns (n: nat)
    ensures forall key <- keys :: |key| < n
  {
    if keys == {} {
      n := 0;
    } else {
      var some :| some in keys;
      n := LongerThan(keys - {some});
      n := if |some| < n then n else |some| + 1;
      assert forall key <- keys :: key == some || key in keys - {some};
    }
  }

  lemma UnusedKey(keys: set<string>) returns (key: string)
    ensures key !in keys
  {
    var n := LongerThan(keys);
    key := seq(n, _ => 'k');
  }

  /** An allowed command that nobody interrupts gets to its transaction. */
  lemma Commands(s: State, run: CaseRun, request: ControlRequest) returns (labels: seq<Label>, u: State)
    requires s.docs.run == Some(run) && CommandAllowed(run, request) && request.key !in s.docs.commands
    ensures Leads(s, labels, u) && u.docs == s.docs && u.executions == s.executions && s.nextWorker in u.workers
    ensures u.workers[s.nextWorker] == Worker(Controller(request), Pc.Control(run))
  {
    var step := Work(s.nextWorker, Returns);
    var a := Next(s, Request(request));
    var b := Next(a, step);
    assert b.workers[s.nextWorker].pc == LoadRun;
    u := Next(b, step);
    labels := [Request(request)] + [step] + [step];
    LeadsOne(s, Request(request));
    LeadsOne(a, step);
    LeadsAppend(s, [Request(request)], a, [step], b);
    LeadsOne(b, step);
    LeadsAppend(s, [Request(request)] + [step], b, [step], u);
  }

  /** There it is committed. */
  lemma CommandCommits(s: State, w: nat, run: CaseRun, request: ControlRequest) returns (u: State)
    requires w in s.workers && s.workers[w] == Worker(Controller(request), Pc.Control(run))
    requires s.docs.run == Some(run) && CommandAllowed(run, request) && request.key !in s.docs.commands
    requires request.action.Resume? || request.action.Reopen?
    ensures Leads(s, [Work(w, Returns)], u) && u.docs.run == Some(ControlledRun(run, request))
    ensures u.docs.records == s.docs.records && u.executions == s.executions
  {
    u := Next(s, Work(w, Returns));
    LeadsOne(s, Work(w, Returns));
  }

  lemma Controls(s: State, run: CaseRun, request: ControlRequest) returns (labels: seq<Label>, u: State)
    requires s.docs.run == Some(run) && CommandAllowed(run, request) && request.key !in s.docs.commands
    requires request.action.Resume? || request.action.Reopen?
    ensures Leads(s, labels, u) && u.docs.run == Some(ControlledRun(run, request))
    ensures u.docs.records == s.docs.records && u.executions == s.executions
  {
    var l0, s0 := Commands(s, run, request);
    u := CommandCommits(s0, s.nextWorker, run, request);
    labels := l0 + [Work(s.nextWorker, Returns)];
    LeadsAppend(s, l0, s0, [Work(s.nextWorker, Returns)], u);
  }

  lemma FromAttention(s: State, e: nat, run: CaseRun)
    requires Invariant(s) && e < |s.executions| && s.docs.run == Some(run) && run.state.NeedsAttention?
    requires KeyOf(run) == s.executions[e].key && !Revoked(run) && KeyOf(run) !in s.docs.records
    ensures CanBeResent(s, KeyOf(run))
  {
    var now := run.approval.expiresAt - 1;
    var key := UnusedKey(s.docs.commands.Keys);
    var request := ControlRequest(run.ownerId, run.version, Resume, false, now, key);
    var labels, u := Controls(s, run, request);
    InvariantKept(s, labels, u);
    var resumed := ControlledRun(run, request);
    StillLicensed(u, e, resumed, now);
    FromLive(u, resumed, now);
    ResentLater(s, labels, u, KeyOf(run));
  }

  lemma FromDone(s: State, e: nat, run: CaseRun)
    requires Invariant(s) && e < |s.executions| && s.docs.run == Some(run) && run.state.Done?
    requires KeyOf(run) == s.executions[e].key && !Revoked(run) && KeyOf(run) !in s.docs.records
    ensures CanBeResent(s, KeyOf(run))
  {
    var key := UnusedKey(s.docs.commands.Keys);
    var request := ControlRequest(run.ownerId, run.version, Reopen, true, 0, key);
    var labels, u := Controls(s, run, request);
    InvariantKept(s, labels, u);
    FromAttention(u, e, ControlledRun(run, request));
    ResentLater(s, labels, u, KeyOf(run));
  }

  lemma Bounces(s: State, run: CaseRun) returns (u: State)
    requires s.docs.run == Some(run) && HasReceipt(s.docs.records) && !run.state.Done? && !run.state.Cancelled?
    ensures Leads(s, [Bounce], u) && u.docs.records == s.docs.records && u.executions == s.executions
    ensures u.docs.run == Some(run.(state := NeedsAttention, version := run.version + 1))
  {
    u := Next(s, Bounce);
    LeadsOne(s, Bounce);
  }

  /** The delivery of a receipt may turn out to have bounced. */
  lemma FromBounce(s: State, e: nat, run: CaseRun)
    requires Invariant(s) && e < |s.executions| && s.docs.run == Some(run)
    requires KeyOf(run) == s.executions[e].key && !Revoked(run) && KeyOf(run) !in s.docs.records
    requires HasReceipt(s.docs.records) && !run.state.Done? && !run.state.Cancelled?
    ensures CanBeResent(s, KeyOf(run))
  {
    var u := Bounces(s, run);
    InvariantKept(s, [Bounce], u);
    FromAttention(u, e, run.(state := NeedsAttention, version := run.version + 1));
    ResentLater(s, [Bounce], u, KeyOf(run));
  }

  lemma AheadIsResent(s: State, e: nat)
    requires Invariant(s) && e < |s.executions| && s.executions[e].key !in s.docs.records
    requires Ahead(s, s.executions[e].key)
    ensures CanBeResent(s, s.executions[e].key)
  {
    var run := s.docs.run.value;
    StatesEarned(s.config, s.history, |s.history| - 1);
    if Live(run.state) && WakeAt(run) < run.approval.expiresAt {
      StillLicensed(s, e, run, WakeAt(run));
      FromLive(s, run, WakeAt(run));
    } else if run.state.NeedsAttention? {
      FromAttention(s, e, run);
    } else if run.state.Done? {
      FromDone(s, e, run);
    } else {
      FromBounce(s, e, run);
    }
  }

  // What never is.

  /** Never again both due and licensed, unless a receipt bounces. */
  predicate Stuck(run: CaseRun) {
    || run.state.Failed?
    || ((run.state.Ready? || run.state.WaitingRetry?) && run.approval.expiresAt <= WakeAt(run))
  }

  predicate RunBarred(docs: Docs, key: ActionKey) {
    docs.run.Some? ==>
      || Revoked(docs.run.value) || key.ordinal < docs.run.value.actionOrdinal
      || (Stuck(docs.run.value) && !HasReceipt(docs.records))
  }

  /** Nobody is about to reserve the free key, and no version to come is authorised for it. */
  predicate Barred(s: State, key: ActionKey) {
    key !in s.docs.records && !Poised(s, key) && RunBarred(s.docs, key)
  }

  /** Executed actions have the identity of the run and an ordinal it has reached. */
  lemma ExecutedBefore(s: State, i: nat)
    requires Invariant(s) && i < |s.executions|
    ensures s.executions[i].key == KeyOf(Current(s).(actionOrdinal := s.executions[i].key.ordinal))
    ensures 1 <= s.executions[i].key.ordinal <= Current(s).actionOrdinal && HasRequirement(Current(s))
    ensures s.executions[i].key.ordinal <= MaxSends(Current(s).plan)
  {
    ExecutionOrdinal(s, i);
    assert ExecutionOk(s.history, s.executions[i]);
    var v := s.executions[i].version - 1;
    OrdinalsMonotone(s.config, s.history, v, |s.history| - 1);
    IdentityKept(s.config, s.history, v);
    IdentityKept(s.config, s.history, |s.history| - 1);
  }

  lemma NoReceiptIsFirst(s: State)
    requires Invariant(s) && !HasReceipt(s.docs.records)
    ensures Current(s).actionOrdinal == 1 && !Current(s).state.Done? && !Current(s).state.WaitingExternal?
  {
    var last := |s.history| - 1;
    StatesEarned(s.config, s.history, last);
    OrdinalsBounded(s.config, s.history, last);
    if Current(s).actionOrdinal > 1 {
      OrdinalsSettled(s, 1);
    }
  }

  lemma BehindIsBarred(s: State, e: nat)
    requires Invariant(s) && e < |s.executions| && s.executions[e].key !in s.docs.records
    requires !Poised(s, s.executions[e].key) && !Ahead(s, s.executions[e].key)
    ensures Barred(s, s.executions[e].key)
  {
    ExecutedBefore(s, e);
    var last := |s.history| - 1;
    StatesEarned(s.config, s.history, last);
    LiveHasWake(s.config, s.history, last);
    if !HasReceipt(s.docs.records) {
      NoReceiptIsFirst(s);
    }
  }

  // Where a move leads.

  lemma ReservesWhenPoised(s: State, w: nat, o: Outcome)
    requires w in s.workers
    ensures var effect := MoveOf(s, w, o).effect;
            effect.Writes? && effect.record.Some? && effect.record.value.Reserved? ==>
              PoisedWorker(s.workers[w], effect.key)
  {
  }

  lemma SettlesWhenAccepted(s: State, w: nat, o: Outcome)
    requires w in s.workers
    ensures var effect, worker := MoveOf(s, w, o).effect, s.workers[w];
            effect.Writes? && effect.record.Some? && effect.record.value.Succeeded? ==>
              worker.role.Runner? && worker.pc.Settle? && effect.key == KeyOf(worker.pc.item)
  {
  }

  lemma WorkIsNoTransport(s: State, w: nat, o: Outcome)
    requires w in s.workers
    ensures var effect := MoveOf(s, w, o).effect; effect.Commits? ==> !effect.writer.Transport?
  {
    var Worker(role, pc) := s.workers[w];
  }

  // What a barred run can become.

  lemma StuckAdvances(config: Config, run: CaseRun, writer: Writer)
    requires Stuck(run) && HasRequirement(run) && WithinSends(run) && Permitted(config, run, writer)
    requires !writer.Transport?
    ensures var next := Advance(config, run, writer); Revoked(next) || Stuck(next)
  {
    if Live(run.state) && (writer.RunnerSent? || writer.RunnerRetry? || writer.RunnerExhausted?) {
      ClearedIsNotRevoked(run, writer.now);
      assert false;
    }
  }

  lemma CommitStaysBarred(s: State, effect: Effect, key: ActionKey)
    requires |s.history| > 0 && s.docs.run == Some(Current(s)) && RunBarred(s.docs, key)
    requires effect.Commits? && EffectSound(s, effect) && HasRequirement(Current(s))
    requires Current(s).actionOrdinal <= key.ordinal ==> WithinSends(Current(s))
    requires effect.writer.Transport? ==> HasReceipt(s.docs.records)
    ensures RunBarred(Perform(s, effect).docs, key)
  {
    if Stuck(Current(s)) && Current(s).actionOrdinal <= key.ordinal && !effect.writer.Transport? {
      StuckAdvances(s.config, Current(s), effect.writer);
    }
  }

  // What one step keeps.

  /** Only a poised worker takes a free key, and only who has taken it executes. */
  lemma KeyStaysFree(s: State, w: nat, o: Outcome, key: ActionKey)
    requires HistoryInv(s) && LedgerInv(s) && w in s.workers && !s.workers[w].pc.Finish?
    requires key !in s.docs.records && !PoisedWorker(s.workers[w], key)
    ensures var effect := MoveOf(s, w, o).effect;
            key !in Perform(s, effect).docs.records && (effect.Begins? ==> effect.execution.key != key)
  {
    assert WorkerLedgerOk(s, w, s.workers[w]);
    MoveOfSound(s, w, o);
    MoveEffect(s, w, o);
    ReservesWhenPoised(s, w, o);
  }

  /** Without a receipt the only action is the first, so while its key is free no other is settled. */
  lemma NothingSettles(s: State, w: nat, e: nat)
    requires Invariant(s) && w in s.workers && s.workers[w].role.Runner? && s.workers[w].pc.Settle?
    requires e < |s.executions| && !HasReceipt(s.docs.records)
    ensures s.executions[e].key in s.docs.records
  {
    assert WorkerLedgerOk(s, w, s.workers[w]);
    NoReceiptIsFirst(s);
    ExecutedBefore(s, e);
    ExecutedBefore(s, s.workers[w].pc.execution);
  }

  lemma NoReceiptComes(s: State, w: nat, o: Outcome, e: nat)
    requires Invariant(s) && w in s.workers && !s.workers[w].pc.Finish?
    requires e < |s.executions| && s.executions[e].key !in s.docs.records && !HasReceipt(s.docs.records)
    ensures !HasReceipt(Perform(s, MoveOf(s, w, o).effect).docs.records)
  {
    var effect := MoveOf(s, w, o).effect;
    if s.workers[w].role.Runner? && s.workers[w].pc.Settle? {
      NothingSettles(s, w, e);
    }
    MoveOfSound(s, w, o);
    SettlesWhenAccepted(s, w, o);
    EffectBringsNone(s, effect);
  }

  lemma EffectBringsNone(s: State, effect: Effect)
    requires |s.history| > 0 && EffectSound(s, effect) && !HasReceipt(s.docs.records)
    requires effect.Writes? && effect.record.Some? ==> !effect.record.value.Succeeded?
    ensures !HasReceipt(Perform(s, effect).docs.records)
  {
  }

  lemma RunStaysBarred(s: State, w: nat, o: Outcome, e: nat)
    requires Invariant(s) && w in s.workers && !s.workers[w].pc.Finish?
    requires e < |s.executions| && s.executions[e].key !in s.docs.records && RunBarred(s.docs, s.executions[e].key)
    ensures RunBarred(Perform(s, MoveOf(s, w, o).effect).docs, s.executions[e].key)
  {
    var effect, key := MoveOf(s, w, o).effect, s.executions[e].key;
    MoveOfSound(s, w, o);
    if effect.Commits? {
      WorkIsNoTransport(s, w, o);
      ExecutedBefore(s, e);
      CommitStaysBarred(s, effect, key);
    } else {
      if !HasReceipt(s.docs.records) {
        NoReceiptComes(s, w, o, e);
      }
    }
  }

  lemma WorkStaysBarred(s: State, w: nat, o: Outcome, e: nat)
    requires Invariant(s) && w in s.workers && !s.workers[w].pc.Finish?
    requires e < |s.executions| && Barred(s, s.executions[e].key)
    ensures Barred(WorkerStep(s, w, o), s.executions[e].key)
    ensures NoneSince(s, s.executions[e].key, WorkerStep(s, w, o))
  {
    var key := s.executions[e].key;
    assert !PoisedWorker(s.workers[w], key);
    KeyStaysFree(s, w, o, key);
    RunStaysBarred(s, w, o, e);
    NobodyPoised(s, w, o, key);
    OthersNotPoised(s, w, MoveOf(s, w, o), key);
    OnlyAppends(s, MoveOf(s, w, o).effect, key);
  }

  lemma OthersNotPoised(s: State, w: nat, move: Move, key: ActionKey)
    requires w in s.workers && !Poised(s, key) && !PoisedWorker(Worker(s.workers[w].role, move.pc), key)
    ensures !Poised(Goto(Perform(s, move.effect), w, s.workers[w].role, move.pc), key)
  {
    var s' := Goto(Perform(s, move.effect), w, s.workers[w].role, move.pc);
    forall v | v in s'.workers
      ensures !PoisedWorker(s'.workers[v], key)
    {
      assert v in s.workers && !PoisedWorker(s.workers[v], key);
    }
  }

  /** Since `s`, no execution of the key has begun. */
  ghost predicate NoneSince(s: State, key: ActionKey, u: State) {
    |s.executions| <= |u.executions|
    && (forall i :: 0 <= i < |s.executions| ==> u.executions[i].key == s.executions[i].key)
    && (forall j :: |s.executions| <= j < |u.executions| ==> u.executions[j].key != key)
  }

  lemma OnlyAppends(s: State, effect: Effect, key: ActionKey)
    requires effect.Begins? ==> effect.execution.key != key
    ensures NoneSince(s, key, Perform(s, effect))
  {
  }

  /** A worker comes to reserve only what the run it has read authorises. */
  lemma NobodyPoised(s: State, w: nat, o: Outcome, key: ActionKey)
    requires w in s.workers && !s.workers[w].pc.Finish? && RunBarred(s.docs, key)
    ensures !PoisedWorker(Worker(s.workers[w].role, MoveOf(s, w, o).pc), key)
  {
    var role, pc := s.workers[w].role, MoveOf(s, w, o).pc;
    if role.Runner? && pc.Reserve? {
      ClearedIsNotRevoked(pc.item, role.now);
    }
  }

  /** The steps that are no worker's own, and those by which a worker ends. */
  lemma OutsideStaysBarred(s: State, l: Label, key: ActionKey)
    requires |s.history| > 0 && Enabled(s, l) && Barred(s, key) && !l.Bounce?
    requires l.Work? ==> s.workers[l.worker].pc.Finish?
    ensures Barred(Next(s, l), key) && Next(s, l).executions == s.executions
  {
    var s' := Next(s, l);
    forall v | v in s'.workers
      ensures !PoisedWorker(s'.workers[v], key)
    {
      assert v in s.workers ==> !PoisedWorker(s.workers[v], key);
    }
    assert HasReceipt(s'.docs.records) ==> HasReceipt(s.docs.records) by {
      if some :| some in s'.docs.records && s'.docs.records[some].Succeeded? {
        assert some in s.docs.records && s.docs.records[some].Succeeded?;
      }
    }
  }

  lemma StepStaysBarred(s: State, l: Label, e: nat)
    requires Invariant(s) && Enabled(s, l) && e < |s.executions| && Barred(s, s.executions[e].key)
    ensures Barred(Next(s, l), s.executions[e].key) && NoneSince(s, s.executions[e].key, Next(s, l))
  {
    if l.Work? && !s.workers[l.worker].pc.Finish? {
      WorkStaysBarred(s, l.worker, l.outcome, e);
    } else if l.Bounce? {
    } else {
      OutsideStaysBarred(s, l, s.executions[e].key);
    }
  }

  lemma {:induction false} NeverResent(s: State, labels: seq<Label>, u: State, e: nat)
    requires Invariant(s) && Leads(s, labels, u) && e < |s.executions| && Barred(s, s.executions[e].key)
    ensures NoneSince(s, s.executions[e].key, u)
    decreases |labels|
  {
    if labels != [] {
      StepInvariant(s, labels[0]);
      StepStaysBarred(s, labels[0], e);
      NeverResent(Next(s, labels[0]), labels[1..], u, e);
    }
  }

  /**
   * In every reachable state in which the key of an executed action is free, the action can be sent and
   * accepted again if and only if a worker is about to reserve the key, or the run is still at it and can
   * be brought to take it. Otherwise no execution of it ever begins again.
   */
  lemma ResentIff(s: State, e: nat)
    requires Invariant(s) && e < |s.executions| && s.executions[e].key !in s.docs.records
    ensures var key := s.executions[e].key;
            CanBeResent(s, key) <==> Poised(s, key) || Ahead(s, key)
    ensures var key := s.executions[e].key;
            !Poised(s, key) && !Ahead(s, key) ==>
              forall labels: seq<Label>, u: State | Leads(s, labels, u) :: NoneSince(s, key, u)
  {
    var key := s.executions[e].key;
    if w :| w in s.workers.Keys && PoisedWorker(s.workers[w], key) {
      FromReserve(s, w, key);
    } else if Ahead(s, key) {
      AheadIsResent(s, e);
    } else {
      BehindIsBarred(s, e);
      forall labels: seq<Label>, u: State | Leads(s, labels, u)
        ensures NoneSince(s, key, u) && !AcceptedSince(s, key, u)
      {
        NeverResent(s, labels, u, e);
      }
    }
  }
}
