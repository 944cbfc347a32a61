/**
 * Why `AtMostOneEffect` sets forgotten executions apart: the broker frees the key of an accepted action
 * exactly when settling it has thrown and releasing it does not, and the next worker that starts on
 * that action then sends it again.
 */
module DoubleSend {
  import opened Contracts
  import opened CaseHistory
  import opened Documents
  import opened Machine
  import opened HistoryInvariant
  import opened LedgerInvariant
  import opened FollowThrough

  /** Task `t` names the version the run document holds, is free, and that version may be sent. */
  ghost predicate Sendable(s: State, run: CaseRun, t: nat, now: Time) {
    && s.docs.run == Some(run) && Runnable(run, now) && Cleared(run, now)
    && KeyOf(run) !in s.docs.records
    && t < |s.queue| && s.queue[t] == Task(run.version, None, false)
    && s.nextWorker !in s.workers
  }

  /** A worker that starts on a sendable version finds it authorised. */
  lemma Starts(s: State, run: CaseRun, t: nat, now: Time) returns (labels: seq<Label>, u: State)
    requires Sendable(s, run, t, now)
    ensures Leads(s, labels, u)
    ensures u.workers == s.workers[s.nextWorker := Worker(Runner(t, run.version, now), Pc.Reserve(run))]
    ensures u.docs == s.docs && u.queue == s.queue[t := Task(run.version, Some(s.nextWorker), false)]
    ensures u.executions == s.executions && u.nextWorker == s.nextWorker + 1
  {
    var step := Work(s.nextWorker, Returns);
    var a := Next(s, Deliver(t, now));
    u := Next(a, step);
    labels := [Deliver(t, now)] + [step];
    LeadsOne(s, Deliver(t, now));
    LeadsOne(a, step);
    LeadsAppend(s, [Deliver(t, now)], a, [step], u);
  }

  /** It then reserves the free key and is granted the send. */
  lemma Reserves(s: State, w: nat, run: CaseRun) returns (labels: seq<Label>, u: State)
    requires w in s.workers && s.workers[w].role.Runner? && s.workers[w].pc == Pc.Reserve(run)
    requires KeyOf(run) !in s.docs.records
    ensures Leads(s, labels, u)
    ensures u.workers == s.workers[w := Worker(s.workers[w].role, Call(run))]
    ensures u.docs == s.docs.(records := s.docs.records[KeyOf(run) := Reserved(w)]) && u.queue == s.queue
    ensures u.executions == s.executions && u.nextWorker == s.nextWorker
  {
    var step := Work(w, Returns);
    var a := Next(s, step);
    assert a.workers[w].pc == Charge(run);
    u := Next(a, step);
    labels := [step] + [step];
    LeadsOne(s, step);
    LeadsOne(a, step);
    LeadsAppend(s, [step], a, [step], u);
  }

  /** So it reaches the adapter. */
  lemma Reaches(s: State, run: CaseRun, t: nat, now: Time) returns (labels: seq<Label>, u: State)
    requires Sendable(s, run, t, now)
    ensures Leads(s, labels, u)
    ensures u.workers == s.workers[s.nextWorker := Worker(Runner(t, run.version, now), Call(run))]
    ensures u.docs == s.docs.(records := s.docs.records[KeyOf(run) := Reserved(s.nextWorker)])
    ensures u.queue == s.queue[t := Task(run.version, Some(s.nextWorker), false)]
    ensures u.executions == s.executions && u.nextWorker == s.nextWorker + 1
  {
    var l0, s0 := Starts(s, run, t, now);
    var l1, s1 := Reserves(s0, s.nextWorker, run);
    LeadsAppend(s, l0, s0, l1, s1);
    labels, u := l0 + l1, s1;
  }

  /** A worker about to call the adapter may have its action accepted. */
  lemma Sends(s: State, w: nat, run: CaseRun) returns (labels: seq<Label>, u: State)
    requires w in s.workers && s.workers[w].role.Runner? && s.workers[w].pc == Call(run)
    ensures Leads(s, labels, u)
    ensures u.workers == s.workers[w := Worker(s.workers[w].role, Settle(run, "receipt", |s.executions|))]
    ensures u.docs == s.docs && u.queue == s.queue && u.nextWorker == s.nextWorker
    ensures u.executions == s.executions + [Execution(KeyOf(run), w, run.version, s.workers[w].role.now, Accepted)]
  {
    var a := Next(s, Work(w, Returns));
    assert a.workers[w].pc == Calling(run, |s.executions|);
    u := Next(a, Work(w, Accept("receipt")));
    labels := [Work(w, Returns)] + [Work(w, Accept("receipt"))];
    LeadsOne(s, Work(w, Returns));
    LeadsOne(a, Work(w, Accept("receipt")));
    LeadsAppend(s, [Work(w, Returns)], a, [Work(w, Accept("receipt"))], u);
  }

  /** Settling throws, freeing succeeds: the key is gone though the provider has accepted. */
  lemma Frees(s: State, w: nat, run: CaseRun, e: nat) returns (labels: seq<Label>, u: State)
    requires w in s.workers && s.workers[w].role.Runner? && s.workers[w].pc == Settle(run, "receipt", e)
    ensures Leads(s, labels, u)
    ensures u.workers == s.workers[w := Worker(s.workers[w].role, Recover(run))]
    ensures u.docs == s.docs.(records := s.docs.records - {KeyOf(run)})
    ensures u.queue == s.queue && u.nextWorker == s.nextWorker && u.executions == s.executions
  {
    var a := Next(s, Work(w, Throws));
    assert a.workers[w].pc == Release(run, Some(e));
    u := Next(a, Work(w, Returns));
    labels := [Work(w, Throws)] + [Work(w, Returns)];
    LeadsOne(s, Work(w, Throws));
    LeadsOne(a, Work(w, Returns));
    LeadsAppend(s, [Work(w, Throws)], a, [Work(w, Returns)], u);
  }

  /** The first wake is enqueued and its task duplicated. */
  lemma Queues(s: State, run: CaseRun, wakeAt: Time) returns (labels: seq<Label>, u: State)
    requires Init(s, run, wakeAt)
    ensures Leads(s, labels, u)
    ensures u.docs == s.docs && u.executions == [] && u.nextWorker == 1 && 1 !in u.workers && 2 !in u.workers
    ensures u.queue == [Task(1, None, false), Task(1, None, false)]
  {
    var a := Next(s, ScheduleFirst(wakeAt));
    var b := Next(a, Work(0, Returns));
    u := Next(b, Duplicate(0));
    labels := [ScheduleFirst(wakeAt)] + [Work(0, Returns)] + [Duplicate(0)];
    LeadsOne(s, ScheduleFirst(wakeAt));
    LeadsOne(a, Work(0, Returns));
    LeadsAppend(s, [ScheduleFirst(wakeAt)], a, [Work(0, Returns)], b);
    LeadsOne(b, Duplicate(0));
    LeadsAppend(s, [ScheduleFirst(wakeAt)] + [Work(0, Returns)], b, [Duplicate(0)], u);
  }

  /** A sendable version is sent by a new worker, and accepted. */
  lemma Accepts(s: State, run: CaseRun, t: nat, now: Time) returns (labels: seq<Label>, u: State)
    requires Sendable(s, run, t, now)
    ensures Leads(s, labels, u)
    ensures u.workers ==
              s.workers[s.nextWorker := Worker(Runner(t, run.version, now), Settle(run, "receipt", |s.executions|))]
    ensures u.docs == s.docs.(records := s.docs.records[KeyOf(run) := Reserved(s.nextWorker)])
    ensures u.queue == s.queue[t := Task(run.version, Some(s.nextWorker), false)] && u.nextWorker == s.nextWorker + 1
    ensures u.executions == s.executions + [Execution(KeyOf(run), s.nextWorker, run.version, now, Accepted)]
  {
    var l0, s0 := Reaches(s, run, t, now);
    var l1, s1 := Sends(s0, s.nextWorker, run);
    LeadsAppend(s, l0, s0, l1, s1);
    labels, u := l0 + l1, s1;
  }

  /** Wherever the key of an accepted action is free and its version can be sent, it can be sent again. */
  lemma SecondEffect(s: State, run: CaseRun, t: nat, now: Time, i: nat) returns (labels: seq<Label>, u: State)
    requires Sendable(s, run, t, now)
    requires i < |s.executions| && s.executions[i].key == KeyOf(run) && s.executions[i].status.Accepted?
    ensures Leads(s, labels, u)
    ensures var j := |s.executions|;
            && |u.executions| == j + 1 && u.executions[i] == s.executions[i]
            && u.executions[j].status.Accepted? && u.executions[j].key == u.executions[i].key
  {
    labels, u := Accepts(s, run, t, now);
  }

  /**
   * Every activated run whose first action is due and authorised has a behaviour in which the provider
   * accepts that action twice under one key.
   */
  lemma FirstActionTwice(s: State, run: CaseRun, wakeAt: Time, now: Time) returns (labels: seq<Label>, t: State)
    requires Init(s, run, wakeAt) && Runnable(run, now) && Cleared(run, now)
    ensures Leads(s, labels, t)
    ensures |t.executions| == 2 && t.executions[0].status.Accepted? && t.executions[1].status.Accepted?
    ensures t.executions[0].key == t.executions[1].key == KeyOf(run)
  {
    var l0, s0 := Queues(s, run, wakeAt);
    var l1, s1 := Accepts(s0, run, 0, now);
    LeadsAppend(s, l0, s0, l1, s1);
    var l2, s2 := Frees(s1, 1, run, 0);
    LeadsAppend(s, l0 + l1, s1, l2, s2);
    var l3, s3 := SecondEffect(s2, run, 1, now, 0);
    LeadsAppend(s, l0 + l1 + l2, s2, l3, s3);
    labels, t := l0 + l1 + l2 + l3, s3;
  }

  /** The label by which the broker frees the key of execution `e`, whose settlement has thrown. */
  ghost predicate FreesKeyOf(s: State, l: Label, e: nat) {
    && l.Work? && !l.outcome.Throws? && l.worker in s.workers && s.workers[l.worker].role.Runner?
    && s.workers[l.worker].pc.Release? && s.workers[l.worker].pc.accepted == Some(e)
  }

  lemma ForgetsIff(s: State, w: nat, o: Outcome)
    requires w in s.workers && !s.workers[w].pc.Finish?
    ensures var effect := MoveOf(s, w, o).effect;
            forall e: nat :: effect.Forgets? && effect.forgotten == e <==> FreesKeyOf(s, Work(w, o), e)
  {
  }

  lemma WorkFreesIff(s: State, w: nat, o: Outcome, e: nat)
    requires HistoryInv(s) && LedgerInv(s) && w in s.workers && !s.workers[w].pc.Finish?
    requires e < |s.executions| && s.executions[e].status.Accepted? && e !in s.forgotten
    ensures s.executions[e].key !in WorkerStep(s, w, o).docs.records <==> FreesKeyOf(s, Work(w, o), e)
    ensures e in WorkerStep(s, w, o).forgotten <==> FreesKeyOf(s, Work(w, o), e)
  {
    assert WorkerLedgerOk(s, w, s.workers[w]);
    MoveOfSound(s, w, o);
    MoveEffect(s, w, o);
    ForgetsIff(s, w, o);
  }

  /** No other label touches which keys are taken. */
  lemma OthersFreeNothing(s: State, l: Label)
    requires |s.history| > 0 && Enabled(s, l) && (l.Work? ==> s.workers[l.worker].pc.Finish?)
    ensures Next(s, l).docs.records.Keys == s.docs.records.Keys && Next(s, l).forgotten == s.forgotten
  {
  }

  /** The key of an accepted action is freed exactly by releasing it after its settlement has thrown. */
  lemma KeyFreedIff(s: State, l: Label, e: nat)
    requires Invariant(s) && Enabled(s, l)
    requires e < |s.executions| && s.executions[e].status.Accepted? && e !in s.forgotten
    ensures s.executions[e].key in s.docs.records
    ensures s.executions[e].key !in Next(s, l).docs.records <==> FreesKeyOf(s, l, e)
    ensures e in Next(s, l).forgotten <==> FreesKeyOf(s, l, e)
  {
    assert Backed(s.docs.records, false, s.executions[e]);
    if l.Work? && !s.workers[l.worker].pc.Finish? {
      WorkFreesIff(s, l.worker, l.outcome, e);
    } else {
      OthersFreeNothing(s, l);
    }
  }
}
