/**
 * The life of one case run as the sequence of its committed versions.
 *
 * Every writer of the run document commits through a transaction that checks or reads the current
 * version, so the document is always the last element of a history in which each commit follows
 * from the one before. What a writer may do to the version it replaces is `Permitted`, and what it
 * then writes is `Advance`.
 */
module CaseHistory {
  import opened Contracts
  import opened Policy
  import opened Verifier

  /** `attemptCount` is 0 where the document has no such field. */
  datatype CaseRun = CaseRun(
    caseId: string,
    ownerId: string,
    state: CaseState,
    version: nat,
    plan: Plan,
    approval: Approval,
    actionOrdinal: nat,
    dueAt: Time,
    nextWakeAt: Option<Time>,
    lastReceiptId: Option<string>,
    controlledAt: Option<Time>,
    attemptCount: nat,
    completedLevel: Option<EvidenceLevel>)

  datatype Config = Config(maxAttempts: nat, retryDelayMillis: nat)

  datatype ControlAction = Stop | Revoke | Expire | Reopen | Resume | Revise | Delete

  datatype EvidenceRecord = EvidenceRecord(candidate: Candidate, verification: Verification, recordedAt: Time)

  /** Who committed a version, with what it brought along. */
  datatype Writer =
    | Activation
    | RunnerSent(now: Time, receiptId: string)
    | RunnerRetry(now: Time)
    | RunnerExhausted(now: Time)
    | RunnerDenied(now: Time)
    | RunnerSpent(now: Time)
    | Evidence(record: EvidenceRecord)
    | Control(action: ControlAction, key: string, now: Time)
    | Transport

  datatype Commit = Commit(run: CaseRun, writer: Writer)

  predicate Live(state: CaseState) {
    state.Ready? || state.WaitingRetry? || state.WaitingExternal?
  }

  predicate Revoked(run: CaseRun) {
    run.approval.revokedAt.Some?
  }

  function PolicyOf(run: CaseRun): ApprovedPolicy {
    ApprovedPolicy(run.ownerId, run.plan.body.version, run.plan.planHash, run.plan.body.allowedActions,
                   run.plan.body.allowedRecipient, run.plan.body.channelType, run.plan.body.sharedFields, run.approval)
  }

  /** The values are the requirement's facts; the policy looks at the field names only. */
  function SharedFieldsOf(requirement: Requirement): map<string, string> {
    map["transactionRef" := requirement.transactionRef]
    + (if requirement.amountMinor.Some? then map["amountMinor" := Decimal(requirement.amountMinor.value)] else map[])
    + (if requirement.currency.Some? then map["currency" := requirement.currency.value] else map[])
    + (if requirement.subject.Some? then map["subject" := requirement.subject.value] else map[])
    + (if requirement.billPeriod.Some? then map["billPeriod" := requirement.billPeriod.value] else map[])
  }

  function Decimal(n: nat): string {
    if n < 10 then ['0' + n as char] else Decimal(n / 10) + ['0' + (n % 10) as char]
  }

  /** The fields a follow-up shares: the reference, and of the other facts those that are known. */
  lemma SharedFieldsExact(requirement: Requirement, name: string)
    ensures name in SharedFieldsOf(requirement) <==>
      || name == "transactionRef"
      || (name == "amountMinor" && requirement.amountMinor.Some?)
      || (name == "currency" && requirement.currency.Some?)
      || (name == "subject" && requirement.subject.Some?)
      || (name == "billPeriod" && requirement.billPeriod.Some?)
  {
  }

  function ProposalOf(run: CaseRun): Proposal
    requires |run.plan.body.requirements| > 0
  {
    Proposal(run.ownerId, run.plan.body.version, run.plan.planHash, SendFollowUp, run.plan.body.allowedRecipient,
             run.plan.body.channelType, SharedFieldsOf(run.plan.body.requirements[0]))
  }

  predicate HasRequirement(run: CaseRun) {
    |run.plan.body.requirements| > 0
  }

  predicate Authorized(run: CaseRun, now: Time)
    requires HasRequirement(run)
  {
    Denials(PolicyOf(run), ProposalOf(run), now) == []
  }

  /**
   * A follow-up is authorised exactly while the owner's approval of this very plan is in force, the plan
   * allows follow-ups, and each fact of its requirement that is known may be shared.
   */
  lemma FollowUpAuthorizedIff(run: CaseRun, now: Time)
    requires HasRequirement(run)
    ensures Authorized(run, now) <==>
      var body, requirement, approval := run.plan.body, run.plan.body.requirements[0], run.approval;
      && approval.ownerId == run.ownerId && approval.planVersion == body.version
      && approval.planHash == run.plan.planHash && now < approval.expiresAt && approval.revokedAt.None?
      && SendFollowUp in body.allowedActions && "transactionRef" in body.sharedFields
      && (requirement.amountMinor.Some? ==> "amountMinor" in body.sharedFields)
      && (requirement.currency.Some? ==> "currency" in body.sharedFields)
      && (requirement.subject.Some? ==> "subject" in body.sharedFields)
      && (requirement.billPeriod.Some? ==> "billPeriod" in body.sharedFields)
  {
    var body, requirement := run.plan.body, run.plan.body.requirements[0];
    AuthorizedIffLicensed(PolicyOf(run), ProposalOf(run), now);
    SharedFieldsExact(requirement, "transactionRef");
    SharedFieldsExact(requirement, "amountMinor");
    SharedFieldsExact(requirement, "currency");
    SharedFieldsExact(requirement, "subject");
    SharedFieldsExact(requirement, "billPeriod");
    if exists field <- SharedFieldsOf(requirement).Keys :: field !in body.sharedFields {
      var field :| field in SharedFieldsOf(requirement).Keys && field !in body.sharedFields;
      SharedFieldsExact(requirement, field);
    }
  }

  predicate DueBy(run: CaseRun, now: Time) {
    run.nextWakeAt.GetOr(run.dueAt) <= now
  }

  /** The gate every runner commit has passed on the version it replaces. */
  predicate Runnable(run: CaseRun, now: Time) {
    Live(run.state) && DueBy(run, now)
  }

  predicate WithinSends(run: CaseRun) {
    run.actionOrdinal <= MaxSends(run.plan)
  }

  predicate Revokes(action: ControlAction) {
    action.Stop? || action.Revoke? || action.Expire? || action.Revise?
  }

  predicate Permitted(config: Config, run: CaseRun, writer: Writer) {
    match writer
    case Activation => false
    case RunnerSent(now, _) => Runnable(run, now) && WithinSends(run) && HasRequirement(run) && Authorized(run, now)
    case RunnerRetry(now) =>
      && Runnable(run, now) && WithinSends(run)
      && (HasRequirement(run) ==> Authorized(run, now))
      && run.attemptCount + 1 < config.maxAttempts
    case RunnerExhausted(now) =>
      && Runnable(run, now) && WithinSends(run)
      && (HasRequirement(run) ==> Authorized(run, now))
      && config.maxAttempts <= run.attemptCount + 1
    case RunnerDenied(now) => Runnable(run, now) && WithinSends(run) && HasRequirement(run) && !Authorized(run, now)
    case RunnerSpent(now) => Runnable(run, now) && !WithinSends(run)
    case Evidence(record) =>
      && (run.state.Running? || run.state.WaitingExternal?)
      && HasRequirement(run)
      && record.verification == Verify(run.caseId, run.plan.body.requirements[0], record.candidate, record.recordedAt)
    case Control(action, _, now) => ControlAllowed(run, action, now)
    case Transport => !run.state.Done? && !run.state.Cancelled?
  }

  predicate ControlAllowed(run: CaseRun, action: ControlAction, now: Time) {
    match action
    case Stop | Revoke | Expire => !run.state.Done?
    case Reopen => run.state.Done?
    case Resume => run.state.NeedsAttention? && !Revoked(run) && now < run.approval.expiresAt
    case Revise => !run.state.Done? && !run.state.Cancelled? && !run.state.Expired?
    case Delete => false
  }

  function EvidenceState(verification: Verification): CaseState {
    if verification.accepted then Done else if IsConflict(verification) then NeedsAttention else WaitingExternal
  }

  function ControlState(action: ControlAction): CaseState {
    match action
    case Reopen => NeedsAttention
    case Resume => Ready
    case Expire => Expired
    case Stop | Revoke | Revise | Delete => Cancelled
  }

  function Advance(config: Config, run: CaseRun, writer: Writer): CaseRun {
    var next := run.(version := run.version + 1);
    match writer
    case Activation => run
    case RunnerSent(now, receiptId) =>
      // A fresh document: only these fields are carried over.
      CaseRun(run.caseId, run.ownerId, WaitingExternal, run.version + 1, run.plan, run.approval,
              run.actionOrdinal + 1, run.dueAt, Some(now + FollowUpMillis(run.plan)), Some(receiptId), None, 0, None)
    case RunnerRetry(now) =>
      next.(state := WaitingRetry, nextWakeAt := Some(now + config.retryDelayMillis),
            attemptCount := run.attemptCount + 1)
    case RunnerExhausted(_) => next.(state := NeedsAttention, attemptCount := run.attemptCount + 1)
    case RunnerDenied(_) => next.(state := Failed)
    case RunnerSpent(_) => next.(state := NeedsAttention, nextWakeAt := None)
    case Evidence(record) =>
      var verification := record.verification;
      next.(state := EvidenceState(verification),
            nextWakeAt := if EvidenceState(verification).WaitingExternal?
                          then Some(record.recordedAt + FollowUpMillis(run.plan)) else None,
            completedLevel := if verification.accepted then Some(record.candidate.level) else run.completedLevel)
    case Control(action, _, now) =>
      next.(state := ControlState(action),
            controlledAt := Some(now),
            nextWakeAt := if action.Resume? then Some(now) else run.nextWakeAt,
            approval := if Revokes(action) then run.approval.(revokedAt := Some(now)) else run.approval)
    case Transport => next.(state := NeedsAttention)
  }

  /** The first version, as plan approval creates it. */
  predicate Activated(run: CaseRun) {
    && run.state.Ready? && run.version == 1 && run.actionOrdinal == 1 && run.attemptCount == 0
    && run.nextWakeAt.None? && run.lastReceiptId.None? && run.completedLevel.None? && run.controlledAt.None?
    && !Revoked(run)
  }

  predicate Follows(config: Config, before: Commit, after: Commit) {
    Permitted(config, before.run, after.writer) && after.run == Advance(config, before.run, after.writer)
  }

  predicate ValidHistory(config: Config, history: seq<Commit>) {
    && |history| > 0
    && Activated(history[0].run) && history[0].writer.Activation?
    && forall i | 0 < i < |history| :: Follows(config, history[i - 1], history[i])
  }

  lemma PrefixValid(config: Config, history: seq<Commit>, n: nat)
    requires ValidHistory(config, history) && 0 < n <= |history|
    ensures ValidHistory(config, history[..n])
  {
  }

  // What each writer commits, and over what, in the terms of the documents.

  /** A send that is published was due, within the approved number, and under an approval in force. */
  lemma SentCommit(config: Config, history: seq<Commit>, i: nat)
    requires ValidHistory(config, history) && 0 < i < |history| && history[i].writer.RunnerSent?
    ensures var before, now := history[i - 1].run, history[i].writer.now;
            && (before.state.Ready? || before.state.WaitingRetry? || before.state.WaitingExternal?)
            && before.actionOrdinal <= (match before.plan.body.maxLogicalSends case Some(n) => n case None => 3)
            && (match before.nextWakeAt case Some(at) => at case None => before.dueAt) <= now
            && now < before.approval.expiresAt && before.approval.revokedAt.None?
    ensures var before, after, now := history[i - 1].run, history[i].run, history[i].writer.now;
            && after.state.WaitingExternal? && after.lastReceiptId == Some(history[i].writer.receiptId)
            && after.actionOrdinal == before.actionOrdinal + 1 && after.attemptCount == 0
            && after.nextWakeAt == match before.plan.body.followUpIntervalSeconds
                                   case Some(n) => Some(now + 1000 * n)
                                   case None => Some(now + 172_800_000)
  {
    assert Follows(config, history[i - 1], history[i]);
    AuthorizedIffLicensed(PolicyOf(history[i - 1].run), ProposalOf(history[i - 1].run), history[i].writer.now);
  }

  /** A failed attempt is retried after the delay while attempts are left, and given up otherwise. */
  lemma RecoveredCommit(config: Config, history: seq<Commit>, i: nat)
    requires ValidHistory(config, history) && 0 < i < |history|
    requires history[i].writer.RunnerRetry? || history[i].writer.RunnerExhausted?
    ensures var before, after, now := history[i - 1].run, history[i].run, history[i].writer.now;
            && before.actionOrdinal <= (match before.plan.body.maxLogicalSends case Some(n) => n case None => 3)
            && after.actionOrdinal == before.actionOrdinal && after.attemptCount == before.attemptCount + 1
            && (history[i].writer.RunnerRetry? <==> after.attemptCount < config.maxAttempts)
            && if history[i].writer.RunnerRetry? then
                 after.state.WaitingRetry? && after.nextWakeAt == Some(now + config.retryDelayMillis)
               else
                 after.state.NeedsAttention? && after.nextWakeAt == before.nextWakeAt
  {
    assert Follows(config, history[i - 1], history[i]);
  }

  /** Beyond the approved sends the run needs attention; within them an action without licence fails it. */
  lemma EndedCommit(config: Config, history: seq<Commit>, i: nat)
    requires ValidHistory(config, history) && 0 < i < |history|
    requires history[i].writer.RunnerSpent? || history[i].writer.RunnerDenied?
    ensures var before, after := history[i - 1].run, history[i].run;
            var sends := match before.plan.body.maxLogicalSends case Some(n) => n case None => 3;
            && (history[i].writer.RunnerSpent? <==> sends < before.actionOrdinal)
            && after.actionOrdinal == before.actionOrdinal && after.attemptCount == before.attemptCount
            && if history[i].writer.RunnerSpent? then after.state.NeedsAttention? && after.nextWakeAt.None?
               else
                 && after.state.Failed? && after.nextWakeAt == before.nextWakeAt && HasRequirement(before)
                 && !Licensed(PolicyOf(before), ProposalOf(before), history[i].writer.now)
  {
    assert Follows(config, history[i - 1], history[i]);
    if history[i].writer.RunnerDenied? {
      AuthorizedIffLicensed(PolicyOf(history[i - 1].run), ProposalOf(history[i - 1].run), history[i].writer.now);
    }
  }

  /**
   * Evidence that satisfies the requirement closes the case; of the rest, what is of too low a level
   * leaves it waiting for another interval, and what contradicts it needs attention.
   */
  lemma EvidenceCommit(config: Config, history: seq<Commit>, i: nat)
    requires ValidHistory(config, history) && 0 < i < |history| && history[i].writer.Evidence?
    ensures HasRequirement(history[i - 1].run) && history[i - 1].run.state.WaitingExternal?
    ensures var before, after, record := history[i - 1].run, history[i].run, history[i].writer.record;
            var requirement := before.plan.body.requirements[0];
            var satisfied := Satisfies(before.caseId, requirement, record.candidate, record.recordedAt);
            var reaches := Reaches(record.candidate.level, requirement.minimumLevel);
            && (record.verification.accepted <==> satisfied)
            && (after.state.Done? <==> satisfied)
            && (after.state.WaitingExternal? <==> !satisfied && !reaches)
            && (after.state.NeedsAttention? <==> !satisfied && reaches)
    ensures var before, after, record := history[i - 1].run, history[i].run, history[i].writer.record;
            && after.nextWakeAt == (if !after.state.WaitingExternal? then None
                                    else match before.plan.body.followUpIntervalSeconds
                                         case Some(n) => Some(record.recordedAt + 1000 * n)
                                         case None => Some(record.recordedAt + 172_800_000))
            && after.completedLevel
                 == (if after.state.Done? then Some(record.candidate.level) else before.completedLevel)
            && after.actionOrdinal == before.actionOrdinal && after.attemptCount == before.attemptCount
            && after.approval == before.approval
  {
    assert Follows(config, history[i - 1], history[i]);
    LiveHasWake(config, history, i - 1);
    var before, record := history[i - 1].run, history[i].writer.record;
    AcceptedIffSatisfied(before.caseId, before.plan.body.requirements[0], record.candidate, record.recordedAt);
  }

  /** When a command is let through, where it leads, and what it leaves alone. */
  lemma ControlCommit(config: Config, history: seq<Commit>, i: nat)
    requires ValidHistory(config, history) && 0 < i < |history| && history[i].writer.Control?
    ensures var before, Control(action, _, now) := history[i - 1].run, history[i].writer;
            match action
            case Stop | Revoke | Expire => !before.state.Done?
            case Reopen => before.state.Done?
            case Resume =>
              before.state.NeedsAttention? && before.approval.revokedAt.None? && now < before.approval.expiresAt
            case Revise => !before.state.Done? && !before.state.Cancelled? && !before.state.Expired?
            case Delete => false
    ensures history[i].run.state == match history[i].writer.action
                                    case Stop | Revoke | Revise | Delete => Cancelled
                                    case Expire => Expired
                                    case Reopen => NeedsAttention
                                    case Resume => Ready
    ensures var before, after, Control(action, _, now) := history[i - 1].run, history[i].run, history[i].writer;
            && after.controlledAt == Some(now)
            && after.nextWakeAt == (if action.Resume? then Some(now) else before.nextWakeAt)
            && after.approval.revokedAt
                 == (if action.Reopen? || action.Resume? then before.approval.revokedAt else Some(now))
            && after.actionOrdinal == before.actionOrdinal && after.attemptCount == before.attemptCount
            && after.completedLevel == before.completedLevel && after.lastReceiptId == before.lastReceiptId
  {
    assert Follows(config, history[i - 1], history[i]);
  }

  /** A delivery that does not arrive needs attention, unless the case is done or cancelled. */
  lemma BouncedCommit(config: Config, history: seq<Commit>, i: nat)
    requires ValidHistory(config, history) && 0 < i < |history| && history[i].writer.Transport?
    ensures var before, after := history[i - 1].run, history[i].run;
            && !before.state.Done? && !before.state.Cancelled? && after.state.NeedsAttention?
            && after == before.(state := NeedsAttention, version := before.version + 1)
  {
    assert Follows(config, history[i - 1], history[i]);
  }

  /** What no writer ever changes, and the version as a count of commits. */
  lemma {:induction false} IdentityKept(config: Config, history: seq<Commit>, i: nat)
    requires ValidHistory(config, history) && i < |history|
    ensures history[i].run.version == i + 1
    ensures history[i].run.caseId == history[0].run.caseId
    ensures history[i].run.ownerId == history[0].run.ownerId
    ensures history[i].run.plan == history[0].run.plan
    ensures history[i].run.dueAt == history[0].run.dueAt
    ensures history[i].run.approval.(revokedAt := None) == history[0].run.approval
  {
    if i > 0 {
      IdentityKept(config, history, i - 1);
      assert Follows(config, history[i - 1], history[i]);
    }
  }

  predicate OutOfReach(state: CaseState) {
    state.Cancelled? || state.Expired? || state.NeedsAttention?
  }

  /**
   * Revocation is permanent: once a version is revoked, every later one is, and no later version
   * is live or done.
   */
  lemma {:induction false} RevocationPermanent(config: Config, history: seq<Commit>, i: nat, j: nat)
    requires ValidHistory(config, history) && i <= j < |history|
    requires Revoked(history[i].run)
    ensures Revoked(history[j].run)
    ensures var state := history[j].run.state; state.Cancelled? || state.Expired? || state.NeedsAttention?
  {
    if i < j {
      RevocationPermanent(config, history, i, j - 1);
      assert Follows(config, history[j - 1], history[j]);
    } else {
      RevokedOutOfReach(config, history, i);
    }
  }

  lemma {:induction false} RevokedOutOfReach(config: Config, history: seq<Commit>, i: nat)
    requires ValidHistory(config, history) && i < |history|
    requires Revoked(history[i].run)
    ensures OutOfReach(history[i].run.state)
  {
    if i > 0 {
      assert Follows(config, history[i - 1], history[i]);
      if Revoked(history[i - 1].run) {
        RevokedOutOfReach(config, history, i - 1);
      }
    }
  }

  /** A version is revoked exactly when one of the revoking commands has been committed by then. */
  lemma {:induction false} RevokedExactly(config: Config, history: seq<Commit>, i: nat)
    requires ValidHistory(config, history) && i < |history|
    ensures Revoked(history[i].run) <==>
      exists k :: 0 <= k <= i && history[k].writer.Control?
                  && var action := history[k].writer.action;
                     action.Stop? || action.Revoke? || action.Expire? || action.Revise?
  {
    if i > 0 {
      RevokedExactly(config, history, i - 1);
      assert Follows(config, history[i - 1], history[i]);
    }
  }

  /** The states a run can be in, and the wake time a live one past its first version always has. */
  lemma {:induction false} LiveHasWake(config: Config, history: seq<Commit>, i: nat)
    requires ValidHistory(config, history) && i < |history|
    ensures !history[i].run.state.Running? && !history[i].run.state.Draft? && !history[i].run.state.AwaitingApproval?
    ensures var state := history[i].run.state;
            i > 0 && (state.Ready? || state.WaitingRetry? || state.WaitingExternal?) ==> history[i].run.nextWakeAt.Some?
  {
    if i > 0 {
      LiveHasWake(config, history, i - 1);
      assert Follows(config, history[i - 1], history[i]);
    }
  }

  /** A run waits for an answer only past its first action, and is cancelled or expired only if revoked. */
  lemma {:induction false} StatesEarned(config: Config, history: seq<Commit>, i: nat)
    requires ValidHistory(config, history) && i < |history|
    ensures history[i].run.state.WaitingExternal? || history[i].run.state.Done? ==> history[i].run.actionOrdinal > 1
    ensures history[i].run.state.Cancelled? || history[i].run.state.Expired? ==> Revoked(history[i].run)
  {
    if i > 0 {
      StatesEarned(config, history, i - 1);
      LiveHasWake(config, history, i - 1);
      OrdinalsBounded(config, history, i - 1);
      assert Follows(config, history[i - 1], history[i]);
    }
  }

  /**
   * DONE is earned: a run in DONE was put there, out of WAITING_EXTERNAL, by evidence that meets
   * every fact of the plan that was approved.
   */
  lemma DoneEarned(config: Config, history: seq<Commit>, i: nat)
    requires ValidHistory(config, history) && i < |history|
    requires history[i].run.state.Done?
    ensures i > 0 && history[i - 1].run.state.WaitingExternal?
    ensures history[i].writer.Evidence? && HasRequirement(history[0].run)
    ensures var record := history[i].writer.record;
            && Satisfies(history[0].run.caseId, history[0].run.plan.body.requirements[0],
                         record.candidate, record.recordedAt)
            && history[i].run.completedLevel == Some(record.candidate.level)
            && !Revoked(history[i].run)
  {
    assert Follows(config, history[i - 1], history[i]);
    LiveHasWake(config, history, i - 1);
    IdentityKept(config, history, i - 1);
    var record := history[i].writer.record;
    AcceptedIffSatisfied(history[i - 1].run.caseId, history[i - 1].run.plan.body.requirements[0],
                         record.candidate, record.recordedAt);
    if Revoked(history[i].run) {
      RevokedOutOfReach(config, history, i);
    }
  }

  /** Ordinals never go back, and never pass one beyond the approved number of sends. */
  lemma {:induction false} OrdinalsBounded(config: Config, history: seq<Commit>, i: nat)
    requires ValidHistory(config, history) && i < |history|
    ensures var sends := match history[0].run.plan.body.maxLogicalSends case Some(n) => n case None => 3;
            && 1 <= history[i].run.actionOrdinal <= sends + 1
            && (history[i].run.actionOrdinal == sends + 1 ==> history[i].run.attemptCount == 0)
  {
    if i > 0 {
      OrdinalsBounded(config, history, i - 1);
      IdentityKept(config, history, i - 1);
      assert Follows(config, history[i - 1], history[i]);
    }
  }

  lemma {:induction false} OrdinalsMonotone(config: Config, history: seq<Commit>, i: nat, j: nat)
    requires ValidHistory(config, history) && i <= j < |history|
    ensures history[i].run.actionOrdinal <= history[j].run.actionOrdinal
  {
    if i < j {
      OrdinalsMonotone(config, history, i, j - 1);
      assert Follows(config, history[j - 1], history[j]);
    }
  }

  /** The key of every ordinal below the current one was spent by a commit that sent it. */
  lemma {:induction false} OrdinalsSent(config: Config, history: seq<Commit>, i: nat, ordinal: nat) returns (k: nat)
    requires ValidHistory(config, history) && i < |history|
    requires 1 <= ordinal < history[i].run.actionOrdinal
    ensures 0 < k <= i && history[k].writer.RunnerSent? && history[k - 1].run.actionOrdinal == ordinal
  {
    assert Follows(config, history[i - 1], history[i]);
    if ordinal < history[i - 1].run.actionOrdinal {
      k := OrdinalsSent(config, history, i - 1, ordinal);
    } else {
      k := i;
    }
  }

  predicate ByRunner(writer: Writer) {
    writer.RunnerSent? || writer.RunnerRetry? || writer.RunnerExhausted? || writer.RunnerDenied? || writer.RunnerSpent?
  }

  /** Lexicographic order on (sends left, attempts left). */
  predicate CloserToEnd(config: Config, before: CaseRun, after: CaseRun) {
    || (before.actionOrdinal < after.actionOrdinal
        && after.actionOrdinal <= 1 + match before.plan.body.maxLogicalSends case Some(n) => n case None => 3)
    || (before.actionOrdinal == after.actionOrdinal && before.attemptCount < after.attemptCount < config.maxAttempts)
  }

  /**
   * The runner's termination measure: each of its commits moves strictly closer to the end or
   * leaves the live states, and no other writer undoes that progress.
   */
  lemma MeasureDecreases(config: Config, history: seq<Commit>, i: nat)
    requires ValidHistory(config, history) && 0 < i < |history|
    ensures ByRunner(history[i].writer) ==>
      var state := history[i].run.state;
      || CloserToEnd(config, history[i - 1].run, history[i].run)
      || !(state.Ready? || state.WaitingRetry? || state.WaitingExternal?)
    ensures !ByRunner(history[i].writer) ==>
      && history[i].run.actionOrdinal == history[i - 1].run.actionOrdinal
      && history[i].run.attemptCount == history[i - 1].run.attemptCount
  {
    assert Follows(config, history[i - 1], history[i]);
    OrdinalsBounded(config, history, i);
    IdentityKept(config, history, i - 1);
  }

  function RunnerCommits(history: seq<Commit>): nat {
    if history == [] then 0
    else RunnerCommits(history[..|history| - 1]) + if ByRunner(history[|history| - 1].writer) then 1 else 0
  }

  predicate IsResume(writer: Writer) {
    writer.Control? && writer.action.Resume?
  }

  function Resumes(history: seq<Commit>): nat {
    if history == [] then 0
    else Resumes(history[..|history| - 1]) + if IsResume(history[|history| - 1].writer) then 1 else 0
  }

  /** At least one attempt is always made. */
  function Attempts(config: Config): nat {
    if config.maxAttempts == 0 then 1 else config.maxAttempts
  }

  function Progress(config: Config, run: CaseRun): int {
    (run.actionOrdinal - 1) * Attempts(config)
    + if run.attemptCount < Attempts(config) then run.attemptCount else Attempts(config) - 1
  }

  /**
   * Whatever evidence, transport and control events interleave, a case with R RESUMEs sees at most
   * maxLogicalSends * maxAttempts + R + 1 commits by the runner.
   */
  lemma RunnerCommitsBounded(config: Config, history: seq<Commit>)
    requires ValidHistory(config, history)
    ensures var sends := match history[0].run.plan.body.maxLogicalSends case Some(n) => n case None => 3;
            var attempts := if config.maxAttempts == 0 then 1 else config.maxAttempts;
            RunnerCommits(history) <= sends * attempts + Resumes(history) + 1
  {
    RunnerCommitsTracked(config, history);
    var last := |history| - 1;
    OrdinalsBounded(config, history, last);
    ProgressBounded(config, history[last].run, MaxSends(history[0].run.plan));
  }

  lemma ProgressBounded(config: Config, run: CaseRun, sends: nat)
    requires 1 <= run.actionOrdinal <= sends + 1
    requires run.actionOrdinal == sends + 1 ==> run.attemptCount == 0
    ensures Progress(config, run) <= sends * Attempts(config)
  {
    var ordinal, attempts := run.actionOrdinal, Attempts(config);
    if ordinal <= sends {
      assert (ordinal - 1) * attempts + attempts == ordinal * attempts;
      assert (sends - ordinal) * attempts >= 0;
      assert ordinal * attempts + (sends - ordinal) * attempts == sends * attempts;
    }
  }

  lemma {:induction false} RunnerCommitsTracked(config: Config, history: seq<Commit>)
    requires ValidHistory(config, history)
    ensures RunnerCommits(history) + (if Live(history[|history| - 1].run.state) then 1 else 0)
         <= Progress(config, history[|history| - 1].run) + Resumes(history) + 1
  {
    var last := |history| - 1;
    if last == 0 {
      assert history[..last] == [];
      ProgressAtStart(config, history[0].run);
    } else {
      var before := history[..last];
      PrefixValid(config, history, last);
      RunnerCommitsTracked(config, before);
      assert Follows(config, history[last - 1], history[last]);
      OrdinalsBounded(config, history, last - 1);
      ProgressMade(config, history[last - 1].run, history[last].writer);
      assert before[|before| - 1] == history[last - 1];
    }
  }

  lemma ProgressAtStart(config: Config, run: CaseRun)
    requires Activated(run)
    ensures Progress(config, run) == 0
  {
  }

  lemma ProgressMade(config: Config, run: CaseRun, writer: Writer)
    requires Permitted(config, run, writer)
    requires run.actionOrdinal >= 1
    ensures Progress(config, run) + (if writer.RunnerSent? || writer.RunnerRetry? then 1 else 0)
         <= Progress(config, Advance(config, run, writer))
  {
    var attempts := Attempts(config);
    if writer.RunnerSent? {
      assert run.actionOrdinal * attempts == (run.actionOrdinal - 1) * attempts + attempts;
    }
  }
}
