/**
 * What every behaviour of the follow-through protocol keeps, whatever workers, deliveries, crashes,
 * evidence, bounces and commands interleave.
 */
module FollowThrough {
  import opened Contracts
  import opened Verifier
  import opened CaseHistory
  import opened Documents
  import opened Machine
  import opened HistoryInvariant
  import opened LedgerInvariant
  import opened CommandInvariant
  import opened WakeInvariant
  import opened EvidenceInvariant

  ghost predicate Invariant(s: State) {
    HistoryInv(s) && LedgerInv(s) && CommandInv(s) && WakeInv(s) && EvidenceInv(s)
  }

  lemma InitInvariant(s: State, run: CaseRun, wakeAt: Time)
    requires Init(s, run, wakeAt)
    ensures Invariant(s)
  {
    assert IntentId(1, wakeAt) in s.docs.intents.Keys;
    assert HasIntent(s.docs.intents, 1);
  }

  lemma StepInvariant(s: State, l: Label)
    requires Invariant(s) && Enabled(s, l)
    ensures Invariant(Next(s, l))
    ensures s.history <= Next(s, l).history && Next(s, l).config == s.config && Next(s, l).caseId == s.caseId
  {
    HistoryStep(s, l);
    LedgerStep(s, l);
    CommandStep(s, l);
    WakeStep(s, l);
    EvidenceStep(s, l);
  }

  lemma {:induction false} InvariantKept(s: State, labels: seq<Label>, t: State)
    requires Invariant(s) && Leads(s, labels, t)
    ensures Invariant(t)
    ensures s.history <= t.history && t.config == s.config && t.caseId == s.caseId
    decreases |labels|
  {
    if labels != [] {
      StepInvariant(s, labels[0]);
      InvariantKept(Next(s, labels[0]), labels[1..], t);
    }
  }

  /** No lost wake, in every interleaving with crashes. */
  lemma NoLostWake(s: State, run: CaseRun, wakeAt: Time, labels: seq<Label>, t: State)
    requires Init(s, run, wakeAt) && Leads(s, labels, t)
    requires t.docs.run.Some?
    requires var state := t.docs.run.value.state; state.Ready? || state.WaitingRetry? || state.WaitingExternal?
    ensures var current := t.docs.run.value;
            || (exists id <- t.docs.intents.Keys ::
                  id.version == current.version && t.docs.intents[id].pending && t.docs.intents[id].persisted)
            || (exists i :: 0 <= i < |t.queue| && !t.queue[i].acknowledged && t.queue[i].version <= current.version)
            || (KeyOf(current) in t.docs.records && !t.docs.records[KeyOf(current)].Succeeded?)
  {
    InitInvariant(s, run, wakeAt);
    InvariantKept(s, labels, t);
    NeverUncovered(t);
  }

  /**
   * At most one effect per idempotency key: of two executions of a key the earlier was rejected, or it
   * was accepted, its settlement threw, and the broker then freed the key.
   */
  lemma AtMostOneEffect(s: State, run: CaseRun, wakeAt: Time, labels: seq<Label>, t: State, i: nat, j: nat)
    requires Init(s, run, wakeAt) && Leads(s, labels, t)
    requires i < j < |t.executions| && t.executions[i].key == t.executions[j].key
    ensures t.executions[i].status.Rejected? || (i in t.forgotten && t.executions[i].status.Accepted?)
  {
    InitInvariant(s, run, wakeAt);
    InvariantKept(s, labels, t);
    assert AtMostOnce(t.executions, t.forgotten) && ForgottenOk(t.executions, t.forgotten);
  }

  /** The executions that may have reached the provider. */
  ghost function Effects(t: State): set<nat> {
    set i: nat | i < |t.executions| && !t.executions[i].status.Rejected?
  }

  ghost predicate OrdinalIn(executions: seq<Execution>, i: nat, n: nat) {
    i < |executions| && 1 <= executions[i].key.ordinal <= n
  }

  /** Executions with distinct ordinals in 1..n are at most n. */
  lemma {:induction false} Pigeonhole(executions: seq<Execution>, indices: set<nat>, n: nat)
    requires forall i <- indices :: OrdinalIn(executions, i, n)
    requires forall i, j | i in indices && j in indices && i < j < |executions| ::
      executions[i].key.ordinal != executions[j].key.ordinal
    ensures |indices| <= n
    decreases n
  {
    if indices != {} {
      var some :| some in indices;
      assert OrdinalIn(executions, some, n);
      if top :| top in indices && executions[top].key.ordinal == n {
        Pigeonhole(executions, indices - {top}, n - 1);
      } else {
        Pigeonhole(executions, indices, n - 1);
      }
    }
  }

  lemma ExecutionOrdinal(t: State, i: nat)
    requires Invariant(t) && i < |t.executions|
    ensures t.executions[i].key == KeyOf(Current(t).(actionOrdinal := t.executions[i].key.ordinal))
    ensures 1 <= t.executions[i].key.ordinal <= MaxSends(t.history[0].run.plan)
  {
    assert ExecutionOk(t.history, t.executions[i]);
    var v := t.executions[i].version - 1;
    IdentityKept(t.config, t.history, v);
    IdentityKept(t.config, t.history, |t.history| - 1);
    OrdinalsBounded(t.config, t.history, v);
  }

  /** Two executions that may have reached the provider, neither of them forgotten, differ in their ordinal. */
  lemma KeptOrdinalsDiffer(t: State, i: nat, j: nat)
    requires Invariant(t) && i < j < |t.executions| && i !in t.forgotten && !t.executions[i].status.Rejected?
    ensures t.executions[i].key.ordinal != t.executions[j].key.ordinal
  {
    ExecutionOrdinal(t, i);
    ExecutionOrdinal(t, j);
    assert AtMostOnce(t.executions, t.forgotten);
  }

  lemma KeptEffectsBounded(t: State)
    requires Invariant(t)
    ensures |Effects(t) - t.forgotten| <= MaxSends(t.history[0].run.plan)
  {
    var kept, n := Effects(t) - t.forgotten, MaxSends(t.history[0].run.plan);
    forall i | i in kept
      ensures OrdinalIn(t.executions, i, n)
    {
      ExecutionOrdinal(t, i);
    }
    forall i, j | i in kept && j in kept && i < j < |t.executions|
      ensures t.executions[i].key.ordinal != t.executions[j].key.ordinal
    {
      KeptOrdinalsDiffer(t, i, j);
    }
    Pigeonhole(t.executions, kept, n);
  }

  /**
   * Bounded sends: across the whole run the executions that can have reached the provider are at most
   * maxLogicalSends, and one more for each accepted one whose key was freed; every ordinal passed has
   * its receipt.
   */
  lemma SendsBounded(s: State, run: CaseRun, wakeAt: Time, labels: seq<Label>, t: State)
    requires Init(s, run, wakeAt) && Leads(s, labels, t)
    ensures |Effects(t)|
         <= |t.forgotten| + match run.plan.body.maxLogicalSends case Some(n) => n case None => 3
    ensures t.history != [] && forall ordinal | 1 <= ordinal < Current(t).actionOrdinal ::
      var key := KeyOf(Current(t).(actionOrdinal := ordinal));
      key in t.docs.records && t.docs.records[key].Succeeded?
  {
    InitInvariant(s, run, wakeAt);
    InvariantKept(s, labels, t);
    assert t.history[0] == s.history[0];
    KeptEffectsBounded(t);
    assert Effects(t) <= (Effects(t) - t.forgotten) + t.forgotten;
    forall n | 1 <= n < Current(t).actionOrdinal
      ensures var key := KeyOf(Current(t).(actionOrdinal := n));
              key in t.docs.records && t.docs.records[key].Succeeded?
    {
      OrdinalsSettled(t, n);
    }
  }

  lemma ExecutionPrecedes(u: State, first: nat, i: nat)
    requires Invariant(u) && first < |u.history| && Revoked(u.history[first].run) && i < |u.executions|
    ensures 1 <= u.executions[i].version <= first && !Revoked(u.history[u.executions[i].version - 1].run)
  {
    assert ExecutionOk(u.history, u.executions[i]);
    var v := u.executions[i].version - 1;
    ClearedIsNotRevoked(u.history[v].run, u.executions[i].now);
    if first <= v {
      RevocationPermanent(u.config, u.history, first, v);
    }
  }

  lemma RevokedStays(u: State, first: nat)
    requires Invariant(u) && first < |u.history| && Revoked(u.history[first].run)
    ensures u.docs.run.Some? ==> Revoked(u.docs.run.value) && OutOfReach(u.docs.run.value.state)
  {
    RevocationPermanent(u.config, u.history, first, |u.history| - 1);
  }

  /**
   * Every adapter call was made for a version that was live, due, within the approved sends and under an
   * approval of that very plan, neither expired nor revoked, that allows the action; and under its key.
   */
  lemma ExecutionsLicensed(s: State, run: CaseRun, wakeAt: Time, labels: seq<Label>, t: State, i: nat)
    requires Init(s, run, wakeAt) && Leads(s, labels, t) && i < |t.executions|
    ensures 1 <= t.executions[i].version <= |t.history|
    ensures var Execution(key, _, version, now, _) := t.executions[i];
            var acted := t.history[version - 1].run;
            && (acted.state.Ready? || acted.state.WaitingRetry? || acted.state.WaitingExternal?)
            && (match acted.nextWakeAt case Some(at) => at case None => acted.dueAt) <= now < acted.approval.expiresAt
            && acted.actionOrdinal <= (match run.plan.body.maxLogicalSends case Some(n) => n case None => 3)
            && acted.approval.revokedAt.None? && acted.approval.ownerId == run.ownerId
            && acted.approval.planVersion == run.plan.body.version && acted.approval.planHash == run.plan.planHash
            && SendFollowUp in run.plan.body.allowedActions
            && key == ActionKey(run.caseId, run.plan.body.version, SendFollowUp, acted.actionOrdinal)
  {
    InitInvariant(s, run, wakeAt);
    InvariantKept(s, labels, t);
    assert t.history[0] == s.history[0] && ExecutionOk(t.history, t.executions[i]);
    var acted := t.history[t.executions[i].version - 1].run;
    IdentityKept(t.config, t.history, t.executions[i].version - 1);
    Policy.AuthorizedIffLicensed(PolicyOf(acted), ProposalOf(acted), t.executions[i].now);
  }

  /**
   * Revocation is permanent: after a revoking commit no writer loses it, the run never becomes live
   * or done again, and any execution acts on a version read before that commit.
   */
  lemma RevocationHolds(s: State, run: CaseRun, wakeAt: Time, before: seq<Label>, t: State, after: seq<Label>, u: State)
    requires Init(s, run, wakeAt) && Leads(s, before, t) && Leads(t, after, u)
    requires t.history != [] && Revoked(Current(t))
    ensures u.docs.run.Some? ==>
      var state := u.docs.run.value.state;
      Revoked(u.docs.run.value) && (state.Cancelled? || state.Expired? || state.NeedsAttention?)
    ensures forall i | 0 <= i < |u.executions| ::
      1 <= u.executions[i].version < |t.history| && !Revoked(t.history[u.executions[i].version - 1].run)
  {
    InitInvariant(s, run, wakeAt);
    InvariantKept(s, before, t);
    InvariantKept(t, after, u);
    var first := |t.history| - 1;
    RevokedStays(u, first);
    forall i | 0 <= i < |u.executions|
      ensures 1 <= u.executions[i].version < |t.history| && !Revoked(t.history[u.executions[i].version - 1].run)
    {
      ExecutionPrecedes(u, first, i);
    }
  }

  lemma ClearedIsNotRevoked(run: CaseRun, now: Time)
    requires Cleared(run, now)
    ensures !Revoked(run) && now < run.approval.expiresAt
  {
    Policy.AuthorizedIffLicensed(PolicyOf(run), ProposalOf(run), now);
  }

  /**
   * A run that is DONE came from WAITING_EXTERNAL by evidence that meets every fact of the approved
   * plan, and whose accepted record is stored.
   */
  lemma DoneHasProof(s: State, run: CaseRun, wakeAt: Time, labels: seq<Label>, t: State)
    requires Init(s, run, wakeAt) && Leads(s, labels, t)
    requires t.docs.run.Some? && t.docs.run.value.state.Done?
    ensures |t.history| >= 2 && t.history[|t.history| - 2].run.state.WaitingExternal?
    ensures t.history[|t.history| - 1].writer.Evidence? && HasRequirement(run)
    ensures var record := t.history[|t.history| - 1].writer.record;
            && record.candidate.evidenceId in t.docs.evidence
            && t.docs.evidence[record.candidate.evidenceId] == record && record.verification.accepted
            && Satisfies(run.caseId, run.plan.body.requirements[0], record.candidate, record.recordedAt)
            && t.docs.run.value.completedLevel == Some(record.candidate.level)
  {
    InitInvariant(s, run, wakeAt);
    InvariantKept(s, labels, t);
    DoneEarned(t.config, t.history, |t.history| - 1);
  }

  lemma CommitAnswered(t: State, i: nat)
    requires Invariant(t) && 0 < i < |t.history| && t.history[i].writer.Control?
    ensures t.history[i].run.version == t.history[i - 1].run.version + 1
    ensures t.history[i].writer.key in t.docs.commands
    ensures t.docs.commands[t.history[i].writer.key].result == RunResult(t.history[i].run)
  {
    assert CommitRecorded(t.caseId, t.docs.commands, t.history[i]);
    IdentityKept(t.config, t.history, i);
    IdentityKept(t.config, t.history, i - 1);
  }

  /** Control commands are exactly-once per key, and every answer for a key is the recorded one. */
  lemma CommandsExactlyOnce(s: State, run: CaseRun, wakeAt: Time, labels: seq<Label>, t: State)
    requires Init(s, run, wakeAt) && Leads(s, labels, t)
    ensures forall i, j | 0 <= i < |t.history| && 0 <= j < |t.history|
              && t.history[i].writer.Control? && t.history[j].writer.Control?
              && t.history[i].writer.key == t.history[j].writer.key :: i == j
    ensures forall i | 0 < i < |t.history| && t.history[i].writer.Control? ::
      && t.history[i].run.version == t.history[i - 1].run.version + 1
      && t.history[i].writer.key in t.docs.commands
      && t.docs.commands[t.history[i].writer.key].result == RunResult(t.history[i].run)
    ensures forall i | 0 <= i < |t.replies| && !t.replies[i].request.action.Delete? ::
      && t.replies[i].request.key in t.docs.commands
      && SameCommand(t.docs.commands[t.replies[i].request.key], t.caseId, t.replies[i].request)
      && t.docs.commands[t.replies[i].request.key].result == t.replies[i].result
  {
    InitInvariant(s, run, wakeAt);
    InvariantKept(s, labels, t);
    forall i, j | 0 <= i < |t.history| && 0 <= j < |t.history|
        && t.history[i].writer.Control? && t.history[j].writer.Control?
        && t.history[i].writer.key == t.history[j].writer.key
      ensures i == j
    {
      OneCommitPerKey(t, i, j);
    }
    forall i | 0 < i < |t.history| && t.history[i].writer.Control?
      ensures t.history[i].run.version == t.history[i - 1].run.version + 1
      ensures t.history[i].writer.key in t.docs.commands
      ensures t.docs.commands[t.history[i].writer.key].result == RunResult(t.history[i].run)
    {
      CommitAnswered(t, i);
    }
    forall i | 0 <= i < |t.replies| && !t.replies[i].request.action.Delete?
      ensures ReplyOk(t.caseId, t.docs.commands, t.replies[i])
    {
    }
  }

  /** What an answer to a command says: where the command has led, and since when. */
  ghost predicate AnswerStands(request: ControlRequest, result: CommandResult) {
    if request.action.Delete? then result.DeletionAccepted?
    else
      && result.RunResult?
      && result.run.state == (match request.action
                              case Stop | Revoke | Revise | Delete => Cancelled
                              case Expire => Expired
                              case Reopen => NeedsAttention
                              case Resume => Ready)
      && result.run.controlledAt.Some?
      && (request.action.Resume? ==> result.run.nextWakeAt == result.run.controlledAt)
      && (!request.action.Resume? && !request.action.Reopen? ==>
            result.run.approval.revokedAt == result.run.controlledAt)
  }

  lemma RepliesStand(t: State, reply: Reply)
    requires Invariant(t) && reply in t.replies
    ensures AnswerStands(reply.request, reply.result)
  {
    assert ReplyOk(t.caseId, t.docs.commands, reply);
    if !reply.request.action.Delete? {
      var key := reply.request.key;
      assert RecordCommitted(t.history, key, t.docs.commands[key]);
      ControlCommit(t.config, t.history, reply.result.run.version - 1);
    }
  }

  /** Runner commits are bounded by the approved sends, the attempts and the RESUMEs. */
  lemma RunnerTerminates(s: State, run: CaseRun, wakeAt: Time, labels: seq<Label>, t: State)
    requires Init(s, run, wakeAt) && Leads(s, labels, t)
    ensures var sends := match run.plan.body.maxLogicalSends case Some(n) => n case None => 3;
            var attempts := if s.config.maxAttempts == 0 then 1 else s.config.maxAttempts;
            RunnerCommits(t.history) <= sends * attempts + Resumes(t.history) + 1
  {
    InitInvariant(s, run, wakeAt);
    InvariantKept(s, labels, t);
    assert t.history[0] == s.history[0];
    RunnerCommitsBounded(t.config, t.history);
  }
}
