/**
 * What plan commands keep, however their reads and writes interleave, from intake to the activated
 * run, and what the run then proves about the promise that was approved.
 */
module PlanChain {
  import opened Contracts
  import opened Drafts
  import opened Plans
  import opened CaseHistory
  import Machine
  import FollowThrough
  import Policy
  import Verifier

  /** Plan and promise agree, the hash is that of the plan, and the blocking fields are current. */
  ghost predicate DraftSound(first: PlanBody, draft: DraftCase) {
    var body := draft.plan.body;
    && draft.plan.planHash == Sha256(body) && SchemaAllows(body)
    && body.caseId == draft.caseId == first.caseId && body.ownerId == draft.ownerId == first.ownerId
    && body.allowedActions == [SendFollowUp] && body.channelType.Some?
    && body.sharedFields == first.sharedFields
    && |body.requirements| == 1 && FactsOf(draft.promise, first, body.requirements[0])
    && draft.blockingFields == Blocking(draft.promise, body.followUpAt, body.allowedRecipient)
    && body.version >= 1
  }

  /** The requirement asks for exactly what the promise says. */
  predicate FactsOf(promise: PromiseDraft, first: PlanBody, requirement: Requirement) {
    && requirement.amountMinor == ValueOf(promise.amountMinor)
    && requirement.currency == ValueOf(promise.currency)
    && requirement.transactionRef == promise.transactionRef.value
    && requirement.minimumLevel == MerchantConfirmed
    && requirement.billPeriod.None?
    && |first.requirements| == 1 && requirement.subject == first.requirements[0].subject
  }

  /** The run was activated from this very draft, unblocked, with an approval for exactly its plan. */
  ghost predicate RunSound(draft: DraftCase, run: CaseRun) {
    && CaseHistory.Activated(run) && run.caseId == draft.caseId && run.ownerId == draft.ownerId
    && run.plan == draft.plan && run.dueAt == FirstRunDueAt(draft)
    && run.approval == Approval(draft.ownerId, run.plan.body.version, run.plan.planHash, run.plan.body.expiresAt, None)
    && draft.blockingFields == []
  }

  ghost predicate DeskSound(first: PlanBody, desk: Desk) {
    && DraftSound(first, desk.draft)
    && (desk.active.Some? ==>
          var Start(approved, run, wakeAt) := desk.active.value;
          DraftSound(first, approved) && RunSound(approved, run) && DueBy(run, wakeAt))
  }

  /** A call acts on a sound draft from some earlier time, and on the current plan if the version is. */
  ghost predicate CallSound(first: PlanBody, desk: Desk, call: Call) {
    && DraftSound(first, call.copy)
    && call.copy.plan.body.version <= desk.draft.plan.body.version
    && (call.copy.plan.body.version == desk.draft.plan.body.version ==> SamePlan(call.copy, desk.draft))
  }

  predicate SamePlan(draft: DraftCase, other: DraftCase) {
    draft.plan == other.plan && draft.promise == other.promise
  }

  ghost predicate WorldSound(first: PlanBody, w: World) {
    DeskSound(first, w.desk) && forall caller <- w.calls.Keys :: CallSound(first, w.desk, w.calls[caller])
  }

  function Started(draft: DraftCase): World {
    World(Desk(draft, None), map[])
  }

  lemma IntakeIsSound(planId: string, caseId: string, ownerId: string, promise: PromiseDraft, recipient: string,
                      now: Time, channel: ContactChannel, draft: DraftCase)
    requires Intake(planId, caseId, ownerId, promise, recipient, now, channel) == Ok(draft)
    ensures WorldSound(draft.plan.body, Started(draft)) && draft.plan.body.version == 1
  {
  }

  lemma RevisedIsSound(first: PlanBody, draft: DraftCase, promise: PromiseDraft, revision: Revision,
                       selected: Option<Selection>, next: DraftCase)
    requires DraftSound(first, draft) && Revised(draft, promise, revision, selected) == Ok(next)
    ensures DraftSound(first, next) && next.plan.body.version == draft.plan.body.version + 1
    ensures next.state == draft.state && next.promise == promise && next.approval == draft.approval
  {
  }

  /** An approved draft has a time to start, which has come when its first wake is due. */
  lemma FirstWakeIsDue(draft: DraftCase, now: Time)
    requires draft.blockingFields == []
    requires Blocking(draft.promise, draft.plan.body.followUpAt, draft.plan.body.allowedRecipient) == []
    ensures FirstRunDueAt(draft) <= ActivationWakeAt(draft, now)
  {
    UnblockedIffResolved(draft.promise, draft.plan.body.followUpAt, draft.plan.body.allowedRecipient);
  }

  /** What a command decides to write is sound, and has the plan it has read or the next version. */
  lemma DecidedIsSound(first: PlanBody, draft: DraftCase, command: Command, next: DraftCase)
    requires DraftSound(first, draft) && Decide(draft, command) == Ok(Some(next))
    ensures DraftSound(first, next) && command.expectedVersion == draft.plan.body.version
    ensures if command.Revise? || command.SelectChannel?
            then next.plan.body.version == draft.plan.body.version + 1 && next.approval == draft.approval
            else SamePlan(next, draft)
    ensures command.Approve? ==> next == Approved(draft, command.ownerId) && next.blockingFields == []
  {
    match command
    case Revise(_, _, revision) =>
      RevisedIsSound(first, draft, RevisedDraft(draft.promise, revision), revision, None, next);
    case SelectChannel(_, _, selection) =>
      RevisedIsSound(first, draft, draft.promise, UNREVISED, Some(selection), next);
    case Approve(_, _, _, _) =>
    case Reject(_, _) =>
  }

  /** A write at the version it expects meets the very plan it was decided on. */
  lemma AppliedIsSound(first: PlanBody, desk: Desk, call: Call, next: Desk)
    requires DeskSound(first, desk) && CallSound(first, desk, call) && Applied(desk, call) == Ok(next)
    ensures DeskSound(first, next)
    ensures SamePlan(next.draft, desk.draft) || next.draft.plan.body.version == desk.draft.plan.body.version + 1
  {
    if next != desk {
      var written := Decide(call.copy, call.command).value.value;
      DecidedIsSound(first, call.copy, call.command, written);
      assert next.draft == written;
      if call.command.Approve? {
        FirstWakeIsDue(written, call.command.now);
      }
    }
  }

  /** A later desk keeps what held of a call. */
  lemma CallStaysSound(first: PlanBody, desk: Desk, call: Call, next: Desk)
    requires CallSound(first, desk, call)
    requires SamePlan(next.draft, desk.draft) || next.draft.plan.body.version == desk.draft.plan.body.version + 1
    ensures CallSound(first, next, call)
  {
  }

  lemma DeskStaysSound(first: PlanBody, w: World, step: Step)
    requires WorldSound(first, w)
    ensures DeskSound(first, Take(w, step).desk)
    ensures var before, after := w.desk.draft, Take(w, step).desk.draft;
            SamePlan(after, before) || after.plan.body.version == before.plan.body.version + 1
  {
    if step.Write? && step.caller in w.calls {
      var call := w.calls[step.caller];
      assert CallSound(first, w.desk, call);
      if Applied(w.desk, call).Ok? {
        AppliedIsSound(first, w.desk, call, Applied(w.desk, call).value);
      }
    }
  }

  lemma StepKeepsSound(first: PlanBody, w: World, step: Step)
    requires WorldSound(first, w)
    ensures WorldSound(first, Take(w, step))
    ensures var before, after := w.desk.draft, Take(w, step).desk.draft;
            SamePlan(after, before) || after.plan.body.version == before.plan.body.version + 1
  {
    var next := Take(w, step);
    DeskStaysSound(first, w, step);
    forall caller | caller in next.calls
      ensures CallSound(first, next.desk, next.calls[caller])
    {
      if caller in w.calls && next.calls[caller] == w.calls[caller] {
        assert CallSound(first, w.desk, w.calls[caller]);
        CallStaysSound(first, w.desk, w.calls[caller], next.desk);
      }
    }
  }

  /**
   * After intake and any interleaving of commands the plan is hashed, agrees with its promise, and the
   * run, if there is one, carries an approval for exactly its own plan.
   */
  lemma {:induction false} PlansStaySound(first: PlanBody, w: World, steps: seq<Step>)
    requires WorldSound(first, w)
    ensures WorldSound(first, After(w, steps))
  {
    if steps != [] {
      PlansStaySound(first, w, steps[..|steps| - 1]);
      StepKeepsSound(first, After(w, steps[..|steps| - 1]), steps[|steps| - 1]);
    }
  }

  /**
   * A case is activated once: the run, its wake and the draft that was approved never change again,
   * so a draft that REVISE has reopened can be edited but not activated.
   */
  lemma {:induction false} ActivationIsFinal(w: World, steps: seq<Step>)
    requires w.desk.active.Some?
    ensures var desk := After(w, steps).desk;
            && desk.active == w.desk.active
            && forall call: Call | call.command.Approve? && Applied(desk, call).Ok? :: Applied(desk, call).value == desk
  {
    if steps != [] {
      ActivationIsFinal(w, steps[..|steps| - 1]);
    }
  }

  /** REVISE does reopen an activated draft, and then no approval changes it, whatever is done first. */
  lemma ReopenedIsStuck(draft: DraftCase, now: Time, steps: seq<Step>, call: Call)
    requires draft.state.AwaitingOwner? && draft.blockingFields == [] && now < draft.plan.body.expiresAt
    requires call.command.Approve?
    ensures var approve := Approve(draft.ownerId, draft.plan.body.version, draft.plan.planHash, now);
            var reopened := After(Started(draft), [Read(0, approve), Write(0), Reapprove(draft.ownerId)]);
            && reopened.desk.active.Some? && reopened.desk.draft.state.AwaitingOwner?
            && OrSame(After(reopened, steps).desk, Applied(After(reopened, steps).desk, call))
                 == After(reopened, steps).desk
  {
    var approve := Approve(draft.ownerId, draft.plan.body.version, draft.plan.planHash, now);
    var w := CommandRuns(Started(draft), approve);
    var both := [Read(0, approve), Write(0)];
    AfterOne(Started(draft), both, Reapprove(draft.ownerId));
    assert both + [Reapprove(draft.ownerId)] == [Read(0, approve), Write(0), Reapprove(draft.ownerId)];
    ActivationIsFinal(After(Started(draft), both + [Reapprove(draft.ownerId)]), steps);
  }

  lemma AfterOne(w: World, steps: seq<Step>, last: Step)
    ensures After(w, steps + [last]) == Take(After(w, steps), last)
  {
    assert (steps + [last])[..|steps|] == steps;
  }

  /** A command that nobody interrupts. */
  lemma CommandRuns(w: World, command: Command) returns (next: World)
    ensures next == After(w, [Read(0, command), Write(0)])
    ensures next == World(OrSame(w.desk, Applied(w.desk, Call(command, w.desk.draft))), w.calls - {0})
  {
    AfterOne(w, [], Read(0, command));
    AfterOne(w, [Read(0, command)], Write(0));
    assert [] + [Read(0, command)] == [Read(0, command)];
    assert [Read(0, command)] + [Write(0)] == [Read(0, command), Write(0)];
    next := After(w, [Read(0, command), Write(0)]);
    assert w.calls[0 := Call(command, w.desk.draft)] - {0} == w.calls - {0};
  }

  /** The version grows by one with every change, so it identifies the plan. */
  lemma {:induction false} VersionIdentifiesPlan(first: PlanBody, w: World, steps: seq<Step>, i: nat)
    requires WorldSound(first, w) && i <= |steps|
    ensures var before, after := After(w, steps[..i]).desk.draft, After(w, steps).desk.draft;
            && before.plan.body.version <= after.plan.body.version
            && (before.plan.body.version == after.plan.body.version ==> SamePlan(before, after))
    decreases |steps|
  {
    if i == |steps| {
      assert steps[..i] == steps;
    } else {
      var front := steps[..|steps| - 1];
      VersionIdentifiesPlan(first, w, front, i);
      assert front[..i] == steps[..i];
      PlansStaySound(first, w, front);
      StepKeepsSound(first, After(w, front), steps[|steps| - 1]);
    }
  }

  // Rejections.

  /** A pending call that will undo a rejection. */
  predicate Overwrites(desk: Desk, call: Call) {
    Applied(desk, call).Ok? && !Applied(desk, call).value.draft.state.Rejected?
  }

  ghost predicate StaysRejected(w: World) {
    forall steps: seq<Step> :: After(w, steps).desk.draft.state.Rejected?
  }

  /** The draft is rejected, no run has started, and no pending call undoes the rejection. */
  ghost predicate Settled(w: World) {
    && w.desk.draft.state.Rejected? && w.desk.active.None?
    && forall caller <- w.calls.Keys :: !Overwrites(w.desk, w.calls[caller])
  }

  /** The desk is rejected at the same version, and nothing has started. */
  predicate StillRejected(before: Desk, after: Desk) {
    && after.draft.state.Rejected? && after.active.None?
    && after.draft.plan.body.version == before.draft.plan.body.version
  }

  lemma HarmlessStays(before: Desk, after: Desk, call: Call)
    requires before.active.None? && StillRejected(before, after) && !Overwrites(before, call)
    ensures !Overwrites(after, call)
  {
  }

  lemma StepKeepsSettled(w: World, step: Step)
    requires Settled(w)
    ensures Settled(Take(w, step))
  {
    var next := Take(w, step);
    assert StillRejected(w.desk, next.desk);
    forall caller | caller in next.calls
      ensures !Overwrites(next.desk, next.calls[caller])
    {
      if caller in w.calls && next.calls[caller] == w.calls[caller] {
        HarmlessStays(w.desk, next.desk, w.calls[caller]);
      }
    }
  }

  lemma {:induction false} SettledForGood(w: World, steps: seq<Step>)
    requires Settled(w)
    ensures Settled(After(w, steps))
  {
    if steps != [] {
      SettledForGood(w, steps[..|steps| - 1]);
      StepKeepsSettled(After(w, steps[..|steps| - 1]), steps[|steps| - 1]);
    }
  }

  /**
   * Before activation a rejection is final if and only if no call that has read the draft before it is
   * still to be written over it.
   */
  lemma RejectionIsFinalIff(w: World)
    requires w.desk.draft.state.Rejected? && w.desk.active.None?
    ensures StaysRejected(w) <==> forall caller <- w.calls.Keys :: !Overwrites(w.desk, w.calls[caller])
  {
    if StaysRejected(w) {
      forall caller | caller in w.calls
        ensures !Overwrites(w.desk, w.calls[caller])
      {
        AfterOne(w, [], Write(caller));
        assert [] + [Write(caller)] == [Write(caller)];
        assert After(w, [Write(caller)]).desk.draft.state.Rejected?;
      }
    }
    if Settled(w) {
      forall steps: seq<Step>
        ensures After(w, steps).desk.draft.state.Rejected?
      {
        SettledForGood(w, steps);
      }
    }
  }

  /** Any draft that can be approved can be approved over its rejection. */
  lemma RejectionCanBeLost(draft: DraftCase, now: Time) returns (steps: seq<Step>)
    requires draft.state.AwaitingOwner? && draft.blockingFields == [] && now < draft.plan.body.expiresAt
    ensures |steps| == 4 && After(Started(draft), steps[..3]).desk == Desk(draft.(state := Rejected), None)
    ensures After(Started(draft), steps).desk.active.Some?
  {
    var approve := Approve(draft.ownerId, draft.plan.body.version, draft.plan.planHash, now);
    var reject := Reject(draft.ownerId, draft.plan.body.version);
    var w := Started(draft);
    var s1, s2 := [Read(0, approve)], [Read(0, approve)] + [Read(1, reject)];
    var s3 := s2 + [Write(1)];
    steps := s3 + [Write(0)];
    assert [] + s1 == s1;
    AfterOne(w, [], Read(0, approve));
    AfterOne(w, s1, Read(1, reject));
    AfterOne(w, s2, Write(1));
    AfterOne(w, s3, Write(0));
    assert steps[..3] == s3;
  }

  // What the runner's proposals meet.

  /** No amount and no currency has been added since intake. */
  predicate NothingAdded(original: PromiseDraft, promise: PromiseDraft) {
    && (promise.amountMinor.Some? ==> original.amountMinor.Some?)
    && (promise.currency.Some? ==> original.currency.Some?)
  }

  /** A later version of an activated run: the same plan and approval, revoked or not. */
  predicate LaterVersion(run: CaseRun, later: CaseRun) {
    && later.plan == run.plan && later.ownerId == run.ownerId && later.caseId == run.caseId
    && later.approval.(revokedAt := None) == run.approval
  }

  /** The proposal shares only approved fields exactly when no amount or currency was added. */
  lemma SharesMoreIffAdded(first: PlanBody, original: PromiseDraft, draft: DraftCase, run: CaseRun)
    requires DraftSound(first, draft) && run.plan == draft.plan
    requires "transactionRef" in first.sharedFields
    requires "amountMinor" in first.sharedFields <==> original.amountMinor.Some?
    requires "currency" in first.sharedFields <==> original.currency.Some?
    requires |first.requirements| == 1
    requires "subject" in first.sharedFields <==> first.requirements[0].subject.Some?
    ensures Policy.SharesMore(PolicyOf(run), ProposalOf(run)) <==> !NothingAdded(original, draft.promise)
  {
    var requirement := run.plan.body.requirements[0];
    forall field
      ensures field in SharedFieldsOf(requirement) <==>
        || field == "transactionRef"
        || (field == "amountMinor" && requirement.amountMinor.Some?)
        || (field == "currency" && requirement.currency.Some?)
        || (field == "subject" && requirement.subject.Some?)
    {
    }
    if !NothingAdded(original, draft.promise) {
      var field := if requirement.amountMinor.Some? && original.amountMinor.None? then "amountMinor" else "currency";
      assert field in ProposalOf(run).sharedFields.Keys && field !in PolicyOf(run).sharedFields;
    }
  }

  lemma SharedAtIntake(planId: string, caseId: string, ownerId: string, promise: PromiseDraft, recipient: string,
                       now: Time, channel: ContactChannel)
    ensures var body := FirstBody(planId, caseId, ownerId, promise, recipient, now, channel);
            && "transactionRef" in body.sharedFields
            && ("amountMinor" in body.sharedFields <==> promise.amountMinor.Some?)
            && ("currency" in body.sharedFields <==> promise.currency.Some?)
            && ("subject" in body.sharedFields <==> body.requirements[0].subject.Some?)
  {
  }

  /**
   * Plans stay actionable: from intake through any commands, the proposals of the activated run, in
   * all its versions, are denied for nothing but expiry or revocation exactly when no amount and no
   * currency was added after intake. Otherwise they are always denied for a field not allowed.
   */
  lemma DeniedOnlyForExpiry(planId: string, caseId: string, ownerId: string, promise: PromiseDraft, recipient: string,
                            at: Time, channel: ContactChannel, draft: DraftCase, steps: seq<Step>,
                            later: CaseRun, now: Time, denial: Policy.Denial)
    requires Intake(planId, caseId, ownerId, promise, recipient, at, channel) == Ok(draft)
    requires var desk := After(Started(draft), steps).desk;
             desk.active.Some? && LaterVersion(desk.active.value.run, later)
    ensures HasRequirement(later)
    ensures var approved := After(Started(draft), steps).desk.active.value.approved.promise;
            var denials := Policy.Denials(PolicyOf(later), ProposalOf(later), now);
            denial in denials <==>
              || (denial.ApprovalExpired? && (later.approval.expiresAt <= now || Revoked(later)))
              || (denial.FieldNotAllowed? && !NothingAdded(promise, approved))
  {
    var desk := After(Started(draft), steps).desk;
    var first := draft.plan.body;
    IntakeIsSound(planId, caseId, ownerId, promise, recipient, at, channel, draft);
    SharedAtIntake(planId, caseId, ownerId, promise, recipient, at, channel);
    PlansStaySound(first, Started(draft), steps);
    SharesMoreIffAdded(first, promise, desk.active.value.approved, later);
    Policy.DenialsExact(PolicyOf(later), ProposalOf(later), now, denial);
  }

  /**
   * DONE is earned end to end: whatever revisions led to the approved draft, a run of it that is DONE
   * was closed by evidence of its reference, its amount and its currency, signed and at the level it
   * demands, whose accepted record is stored.
   */
  lemma DoneMatchesPromise(planId: string, caseId: string, ownerId: string, promise: PromiseDraft, recipient: string,
                           at: Time, channel: ContactChannel, draft: DraftCase, steps: seq<Step>,
                           s: Machine.State, labels: seq<Machine.Label>, t: Machine.State)
    requires Intake(planId, caseId, ownerId, promise, recipient, at, channel) == Ok(draft)
    requires var desk := After(Started(draft), steps).desk;
             desk.active.Some? && Machine.Init(s, desk.active.value.run, desk.active.value.wakeAt)
    requires Machine.Leads(s, labels, t) && t.docs.run.Some? && t.docs.run.value.state.Done?
    ensures |t.history| > 0 && t.history[|t.history| - 1].writer.Evidence?
    ensures var record := t.history[|t.history| - 1].writer.record;
            && record.candidate.evidenceId in t.docs.evidence
            && t.docs.evidence[record.candidate.evidenceId] == record && record.verification.accepted
    ensures var evidence := t.history[|t.history| - 1].writer.record.candidate;
            var approved := After(Started(draft), steps).desk.active.value.approved.promise;
            && evidence.caseId == caseId
            && evidence.transactionRef == Some(approved.transactionRef.value)
            && (approved.amountMinor.Some? ==> evidence.amountMinor == Some(approved.amountMinor.value.value))
            && (approved.currency.Some? ==> evidence.currency == Some(approved.currency.value.value))
            && (evidence.level.MerchantConfirmed? || evidence.level.FundsSettled?)
            && evidence.signatureValid
  {
    var desk := After(Started(draft), steps).desk;
    IntakeIsSound(planId, caseId, ownerId, promise, recipient, at, channel, draft);
    PlansStaySound(draft.plan.body, Started(draft), steps);
    var Start(approved, run, wakeAt) := desk.active.value;
    FollowThrough.DoneHasProof(s, run, wakeAt, labels, t);
  }

  /** An unblocked draft that has not expired can be approved. */
  lemma ApprovalRuns(w: World, now: Time) returns (approve: Command, next: World)
    requires w.desk.active.None? && w.desk.draft.state.AwaitingOwner? && w.desk.draft.blockingFields == []
    requires now < w.desk.draft.plan.body.expiresAt
    ensures next == After(w, [Read(0, approve), Write(0)])
    ensures next.desk.active.Some? && next.desk.active.value.approved.promise == w.desk.draft.promise
  {
    var draft := w.desk.draft;
    approve := Approve(draft.ownerId, draft.plan.body.version, draft.plan.planHash, now);
    next := CommandRuns(w, approve);
  }

  /** Money can be added to any unblocked draft that has none. */
  lemma MoneyRuns(draft: DraftCase, amount: nat, currency: string) returns (revise: Command, next: World)
    requires DraftSound(draft.plan.body, draft) && draft.state.AwaitingOwner? && draft.blockingFields == []
    requires draft.promise.amountMinor.None? && draft.promise.currency.None?
    ensures next == After(Started(draft), [Read(0, revise), Write(0)]) && next.desk.active.None?
    ensures next.desk.draft.state.AwaitingOwner? && next.desk.draft.blockingFields == []
    ensures next.desk.draft.plan.body.expiresAt == draft.plan.body.expiresAt
    ensures next.desk.draft.promise.amountMinor.Some?
  {
    var revision := UNREVISED.(amountMinor := Set(amount), currency := Set(currency));
    revise := Command.Revise(draft.ownerId, draft.plan.body.version, revision);
    MoneyFitsAnySchema(draft, revision);
    next := CommandRuns(Started(draft), revise);
    RevisedStaysUnblocked(draft, revision, next.desk.draft);
  }

  /**
   * The condition fails for real: any promise without money can be given an amount and a currency in
   * review and be approved; its run can then never send.
   */
  lemma AddedMoneyIsApprovable(draft: DraftCase, amount: nat, currency: string, now: Time)
      returns (steps: seq<Step>, desk: Desk)
    requires DraftSound(draft.plan.body, draft) && draft.state.AwaitingOwner? && draft.blockingFields == []
    requires now < draft.plan.body.expiresAt && draft.promise.amountMinor.None? && draft.promise.currency.None?
    ensures desk == After(Started(draft), steps).desk && desk.active.Some?
    ensures !NothingAdded(draft.promise, desk.active.value.approved.promise)
  {
    var revise, first := MoneyRuns(draft, amount, currency);
    var approve, second := ApprovalRuns(first, now);
    desk := second.desk;
    steps := [Read(0, revise), Write(0)] + [Read(0, approve), Write(0)];
    AfterTwo(Started(draft), [Read(0, revise), Write(0)], Read(0, approve), Write(0));
  }

  lemma AfterTwo(w: World, steps: seq<Step>, first: Step, second: Step)
    ensures After(w, steps + [first, second]) == After(After(w, steps), [first, second])
  {
    assert steps + [first, second] == (steps + [first]) + [second] && [first, second] == [first] + [second];
    AfterOne(w, steps + [first], second);
    AfterOne(w, steps, first);
    AfterOne(After(w, steps), [first], second);
    AfterOne(After(w, steps), [], first);
    assert [] + [first] == [first];
  }

  /** A type that the plan has without money demands nothing that money takes away. */
  lemma MoneyFitsAnySchema(draft: DraftCase, revision: Revision)
    requires DraftSound(draft.plan.body, draft) && draft.promise.amountMinor.None?
    requires revision == UNREVISED.(amountMinor := revision.amountMinor, currency := revision.currency)
    requires revision.amountMinor.Set? && revision.currency.Set?
    ensures Revised(draft, RevisedDraft(draft.promise, revision), revision, None).Ok?
  {
    var body := draft.plan.body;
    var promiseType, requirement := body.promiseType.GetOr(Refund), body.requirements[0];
    assert requirement in body.requirements && RequirementAllowed(promiseType, requirement);
    assert !promiseType.Refund? && !promiseType.BillCredit?;
  }

  lemma RevisedStaysUnblocked(draft: DraftCase, revision: Revision, next: DraftCase)
    requires DraftSound(draft.plan.body, draft) && draft.blockingFields == []
    requires revision == UNREVISED.(amountMinor := revision.amountMinor, currency := revision.currency)
    requires revision.amountMinor.Set? && revision.currency.Set?
    requires Revised(draft, RevisedDraft(draft.promise, revision), revision, None) == Ok(next)
    ensures next.blockingFields == [] && next.plan.body.expiresAt == draft.plan.body.expiresAt
  {
    UnblockedIffResolved(draft.promise, draft.plan.body.followUpAt, draft.plan.body.allowedRecipient);
    UnblockedIffResolved(next.promise, next.plan.body.followUpAt, next.plan.body.allowedRecipient);
  }
}
