/**
 * Revising, selecting a channel for, approving and rejecting a plan. Each command reads the draft,
 * decides on its copy, and replaces the draft later, at the plan version it expects.
 */
module Plans {
  import opened Contracts
  import opened Drafts
  import opened CaseHistory

  datatype Change<+T> = Keep | Clear | Set(value: T)

  datatype Revision = Revision(
    promisor: Option<string>,
    result: Option<string>,
    amountMinor: Change<nat>,
    currency: Change<string>,
    transactionRef: Option<string>,
    dueAt: Change<Time>,
    followUpAt: Option<Time>,
    goal: Option<string>,
    expiresAt: Option<Time>,
    allowedRecipient: Option<string>)

  datatype Selection = Selection(channel: ContactChannel, allowedRecipient: string, trustedIssuer: string)

  const UNREVISED := Revision(None, None, Keep, Keep, None, Keep, None, None, None, None)

  // Pure revisions.

  function Corrected<T>(current: Extracted<T>, value: Option<T>): Extracted<T> {
    if value.Some? then Extracted(value.value, Certain) else current
  }

  function Changed<T>(current: Option<Extracted<T>>, change: Change<T>): Option<Extracted<T>> {
    match change
    case Keep => current
    case Clear => None
    case Set(value) => Some(Extracted(value, Certain))
  }

  function RevisedDraft(current: PromiseDraft, revision: Revision): PromiseDraft {
    current.(
      promisor := Corrected(current.promisor, revision.promisor),
      result := Corrected(current.result, revision.result),
      amountMinor := Changed(current.amountMinor, revision.amountMinor),
      currency := Changed(current.currency, revision.currency),
      transactionRef := Corrected(current.transactionRef, revision.transactionRef),
      dueAt := Changed(current.dueAt, revision.dueAt))
  }

  function RevisedFollowUp(current: Option<Time>, revision: Revision): Option<Time> {
    if revision.followUpAt.Some? then revision.followUpAt
    else if revision.dueAt.Set? then Some(revision.dueAt.value)
    else current
  }

  /** `sharedFields` is carried over as it is. */
  function RevisedBody(current: PlanBody, promise: PromiseDraft, revision: Revision, selected: Option<Selection>)
    : PlanBody
    requires |current.requirements| > 0
  {
    current.(
      version := current.version + 1,
      goal := revision.goal.GetOr(promise.result.value),
      allowedRecipient :=
        if selected.Some? then selected.value.allowedRecipient
        else revision.allowedRecipient.GetOr(current.allowedRecipient),
      channelType := if selected.Some? then Some(selected.value.channel.channelType) else current.channelType,
      senderIdentity := if selected.Some? then Some(selected.value.channel.senderIdentity) else current.senderIdentity,
      replyRoute := if selected.Some? then Some(selected.value.channel.replyRoute) else current.replyRoute,
      messageSubject := Some("Follow-up for " + promise.transactionRef.value),
      followUpAt := RevisedFollowUp(current.followUpAt, revision),
      expiresAt := revision.expiresAt.GetOr(current.expiresAt),
      requirements := [current.requirements[0].(
        amountMinor := ValueOf(promise.amountMinor),
        currency := ValueOf(promise.currency),
        transactionRef := promise.transactionRef.value,
        trustedIssuer := if selected.Some? then selected.value.trustedIssuer
                         else current.requirements[0].trustedIssuer)])
  }

  // Commands on the draft, and the run that approval creates.

  /** How the one activation of a case started its run, with the draft as it was approved. */
  datatype Start = Start(approved: DraftCase, run: CaseRun, wakeAt: Time)

  datatype Desk = Desk(draft: DraftCase, active: Option<Start>)

  datatype Command =
    | Revise(ownerId: string, expectedVersion: nat, revision: Revision)
    | SelectChannel(ownerId: string, expectedVersion: nat, selection: Selection)
    | Approve(ownerId: string, expectedVersion: nat, expectedHash: PlanHash, now: Time)
    | Reject(ownerId: string, expectedVersion: nat)

  function WithPlan(draft: DraftCase, promise: PromiseDraft, plan: Plan): DraftCase {
    draft.(promise := promise, plan := plan,
           blockingFields := Blocking(promise, plan.body.followUpAt, plan.body.allowedRecipient))
  }

  function Revised(draft: DraftCase, promise: PromiseDraft, revision: Revision, selected: Option<Selection>)
    : Result<DraftCase>
  {
    if |draft.plan.body.requirements| == 0 then Err("PLAN_SCHEMA_INVALID")
    else
      match Hashed(RevisedBody(draft.plan.body, promise, revision, selected))
      case Err(e) => Err(e)
      case Ok(plan) => Ok(WithPlan(draft, promise, plan))
  }

  function FirstRunDueAt(draft: DraftCase): Time {
    if draft.plan.body.followUpAt.Some? then draft.plan.body.followUpAt.value
    else ValueOf(draft.promise.dueAt).GetOr(draft.createdAt + 1000)
  }

  function ActivationWakeAt(draft: DraftCase, now: Time): Time {
    var requestedAt :=
      if draft.plan.body.followUpAt.Some? then draft.plan.body.followUpAt else ValueOf(draft.promise.dueAt);
    if requestedAt.Some? && now < requestedAt.value then requestedAt.value else now
  }

  /** The run document that `replace` writes beside an approved draft. */
  function RunOf(draft: DraftCase, approval: Approval): CaseRun {
    CaseRun(draft.caseId, draft.ownerId, Ready, 1, draft.plan, approval, 1, FirstRunDueAt(draft),
            None, None, None, 0, None)
  }

  function Approved(draft: DraftCase, ownerId: string): DraftCase {
    draft.(state := Activated,
           approval := Some(Approval(ownerId, draft.plan.body.version, draft.plan.planHash,
                                     draft.plan.body.expiresAt, None)))
  }

  predicate AlreadyApproved(draft: DraftCase, version: nat, hash: PlanHash) {
    && draft.state.Activated? && draft.approval.Some?
    && draft.approval.value.planVersion == version && draft.approval.value.planHash == hash
  }

  /** What a command makes of the draft it has read: the draft to write, if any. */
  function Decide(draft: DraftCase, command: Command): Result<Option<DraftCase>> {
    if draft.ownerId != command.ownerId then Err("CASE_OWNERSHIP_REQUIRED")
    else
      match command
      case Revise(_, _, _) => Edit(draft, command)
      case SelectChannel(_, _, _) => Edit(draft, command)
      case Approve(_, _, _, _) => ApproveDraft(draft, command)
      case Reject(_, expectedVersion) =>
        if draft.plan.body.version != expectedVersion then Err("STALE_PLAN_VERSION")
        else Ok(Some(draft.(state := Rejected)))
  }

  function Edit(draft: DraftCase, command: Command): Result<Option<DraftCase>>
    requires command.Revise? || command.SelectChannel?
  {
    if draft.plan.body.version != command.expectedVersion then Err("STALE_PLAN_VERSION")
    else if !draft.state.AwaitingOwner? then Err("PLAN_NOT_EDITABLE")
    else if command.SelectChannel? && draft.plan.body.channelType == Some(command.selection.channel.channelType) then
      Ok(None)
    else
      var revised :=
        if command.Revise? then Revised(draft, RevisedDraft(draft.promise, command.revision), command.revision, None)
        else Revised(draft, draft.promise, UNREVISED, Some(command.selection));
      match revised
      case Err(e) => Err(e)
      case Ok(next) => Ok(Some(next))
  }

  function ApproveDraft(draft: DraftCase, command: Command): Result<Option<DraftCase>>
    requires command.Approve?
  {
    if AlreadyApproved(draft, command.expectedVersion, command.expectedHash) then Ok(None)
    else if draft.plan.body.version != command.expectedVersion || draft.plan.planHash != command.expectedHash then
      Err("STALE_PLAN_APPROVAL")
    else if !draft.state.AwaitingOwner? then Err("PLAN_NOT_APPROVABLE")
    else if draft.blockingFields != [] then Err("CRITICAL_FIELDS_UNRESOLVED")
    else if draft.plan.body.expiresAt <= command.now then Err("PLAN_EXPIRED")
    else Ok(Some(Approved(draft, command.ownerId)))
  }

  /** `replace`: a version check, then the draft; with an approved one the run and its wake, once. */
  function Replaced(desk: Desk, command: Command, next: DraftCase): Result<Desk> {
    if desk.draft.plan.body.version != command.expectedVersion then Err("STALE_PLAN_VERSION")
    else if !command.Approve? || next.approval.None? then Ok(desk.(draft := next))
    else if desk.active.Some? then Err("ALREADY_EXISTS")
    else Ok(Desk(next, Some(Start(next, RunOf(next, next.approval.value), ActivationWakeAt(next, command.now)))))
  }

  /** A command that has read the draft and has not yet written. */
  datatype Call = Call(command: Command, copy: DraftCase)

  function Applied(desk: Desk, call: Call): Result<Desk> {
    match Decide(call.copy, call.command)
    case Err(e) => Err(e)
    case Ok(None) => Ok(desk)
    case Ok(Some(next)) => Replaced(desk, call.command, next)
  }

  /** The draft's part of REVISE, a transaction of its own that only an activated case can have. */
  function Reopened(desk: Desk, ownerId: string): Result<Desk> {
    if desk.active.None? then Err("CASE_NOT_FOUND")
    else if desk.draft.ownerId != ownerId then Err("CASE_OWNERSHIP_REQUIRED")
    else Ok(desk.(draft := desk.draft.(state := AwaitingOwner, approval := None)))
  }

  // Commands that interleave between their read and their write.

  datatype World = World(desk: Desk, calls: map<nat, Call>)

  datatype Step = Read(caller: nat, command: Command) | Write(caller: nat) | Reapprove(ownerId: string)

  function OrSame(desk: Desk, result: Result<Desk>): Desk {
    if result.Ok? then result.value else desk
  }

  function Take(w: World, step: Step): World {
    match step
    case Read(caller, command) => w.(calls := w.calls[caller := Call(command, w.desk.draft)])
    case Write(caller) =>
      if caller in w.calls then World(OrSame(w.desk, Applied(w.desk, w.calls[caller])), w.calls - {caller}) else w
    case Reapprove(ownerId) => w.(desk := OrSame(w.desk, Reopened(w.desk, ownerId)))
  }

  /** The world after the steps of any number of commands, refused ones included. */
  function After(w: World, steps: seq<Step>): World {
    if steps == [] then w else Take(After(w, steps[..|steps| - 1]), steps[|steps| - 1])
  }

  /** What a call that has read `call.copy` answers, and what it does to the stored draft and run. */
  ghost predicate Answers(before: (Option<DraftCase>, Option<Start>), call: Call, error: Option<string>,
                          after: (Option<DraftCase>, Option<Start>))
  {
    match Decide(call.copy, call.command)
    case Err(reason) => error == Some(reason) && after == before
    case Ok(None) => error.None? && after == before
    case Ok(Some(_)) =>
      if before.0.None? then error == Some("CASE_NOT_FOUND") && after == before
      else
        match Applied(Desk(before.0.value, before.1), call)
        case Err(reason) => error == Some(reason) && after == before
        case Ok(next) => error.None? && after == (Some(next.draft), next.active)
  }

  // What the commands decide, in the terms of the plan and the promise.

  /** A fact after a revision: as given and then certain, cleared, or left alone. */
  ghost predicate Settles<T>(change: Change<T>, before: Option<Extracted<T>>, after: Option<Extracted<T>>) {
    match change
    case Set(value) => after.Some? && after.value.value == value && after.value.uncertainty.Certain?
    case Clear => after.None?
    case Keep => after == before
  }

  ghost predicate Replaces<T>(given: Option<T>, before: Extracted<T>, after: Extracted<T>) {
    if given.Some? then after.value == given.value && after.uncertainty.Certain? else after == before
  }

  /** A revision sets what the owner asked for, in the promise and in the plan, and nothing else. */
  lemma RevisionApplied(draft: DraftCase, command: Command, next: DraftCase)
    requires command.Revise? && Decide(draft, command) == Ok(Some(next))
    ensures var revision, before, after := command.revision, draft.promise, next.promise;
            && Settles(revision.amountMinor, before.amountMinor, after.amountMinor)
            && Settles(revision.currency, before.currency, after.currency)
            && Settles(revision.dueAt, before.dueAt, after.dueAt)
            && Replaces(revision.promisor, before.promisor, after.promisor)
            && Replaces(revision.result, before.result, after.result)
            && Replaces(revision.transactionRef, before.transactionRef, after.transactionRef)
            && after.promiseType == before.promiseType
    ensures var revision, before, after, promise := command.revision, draft.plan.body, next.plan.body, next.promise;
            && after.version == before.version + 1
            && after.goal == (match revision.goal case Some(goal) => goal case None => promise.result.value)
            && after.allowedRecipient
                 == (match revision.allowedRecipient case Some(given) => given case None => before.allowedRecipient)
            && after.followUpAt == (if revision.followUpAt.Some? then revision.followUpAt
                                    else if revision.dueAt.Set? then Some(revision.dueAt.value) else before.followUpAt)
            && after.expiresAt == (match revision.expiresAt case Some(at) => at case None => before.expiresAt)
            && after.messageSubject == Some("Follow-up for " + promise.transactionRef.value)
            && after.channelType == before.channelType && after.senderIdentity == before.senderIdentity
            && after.replyRoute == before.replyRoute && OthersSame(before, after)
    ensures var revision, before, after := command.revision, draft.plan.body, next.plan.body;
            && |before.requirements| > 0 && |after.requirements| == 1
            && var was, demands := before.requirements[0], after.requirements[0];
               && Demands(demands, next.promise) && demands.trustedIssuer == was.trustedIssuer && RestSame(was, demands)
    ensures next.state == draft.state && next.approval == draft.approval && next.ownerId == draft.ownerId
  {
  }

  /** The plan asks for what the promise says. */
  ghost predicate Demands(requirement: Requirement, promise: PromiseDraft) {
    && requirement.transactionRef == promise.transactionRef.value
    && requirement.amountMinor == (match promise.amountMinor case Some(given) => Some(given.value) case None => None)
    && requirement.currency == (match promise.currency case Some(given) => Some(given.value) case None => None)
  }

  /** What no revision and no selection touches. */
  ghost predicate OthersSame(before: PlanBody, after: PlanBody) {
    && after.planId == before.planId && after.caseId == before.caseId && after.ownerId == before.ownerId
    && after.promiseType == before.promiseType && after.allowedActions == before.allowedActions
    && after.followUpIntervalSeconds == before.followUpIntervalSeconds
    && after.maxLogicalSends == before.maxLogicalSends && after.sharedFields == before.sharedFields
  }

  ghost predicate RestSame(before: Requirement, after: Requirement) {
    && after.minimumLevel == before.minimumLevel && after.subject == before.subject
    && after.billPeriod == before.billPeriod && after.requiredFields == before.requiredFields
    && after.maxAgeSeconds == before.maxAgeSeconds
  }

  /** A selection moves the plan to its channel, recipient and issuer, and changes no fact of the promise. */
  lemma SelectionApplied(draft: DraftCase, command: Command, next: DraftCase)
    requires command.SelectChannel? && Decide(draft, command) == Ok(Some(next))
    ensures next.promise == draft.promise && next.state == draft.state && next.approval == draft.approval
    ensures var Selection(channel, recipient, issuer) := command.selection;
            var before, after := draft.plan.body, next.plan.body;
            && after.version == before.version + 1 && after.goal == draft.promise.result.value
            && after.allowedRecipient == recipient && after.channelType == Some(channel.channelType)
            && after.senderIdentity == Some(channel.senderIdentity) && after.replyRoute == Some(channel.replyRoute)
            && after.followUpAt == before.followUpAt && after.expiresAt == before.expiresAt && OthersSame(before, after)
            && |before.requirements| > 0 && |after.requirements| == 1
            && after.requirements[0].trustedIssuer == issuer && Demands(after.requirements[0], draft.promise)
            && RestSame(before.requirements[0], after.requirements[0])
  {
  }

  /** Exactly when an approval writes: its owner, this very plan, still open, nothing unsettled, not expired. */
  lemma ApprovesIff(draft: DraftCase, command: Command)
    requires command.Approve?
    ensures var decided := Decide(draft, command);
            && (decided.Ok? && decided.value.Some? <==>
                  && draft.ownerId == command.ownerId && draft.state.AwaitingOwner?
                  && draft.plan.body.version == command.expectedVersion && draft.plan.planHash == command.expectedHash
                  && draft.blockingFields == [] && command.now < draft.plan.body.expiresAt)
            && (decided == Ok(None) <==>
                  && draft.ownerId == command.ownerId && draft.state.Activated? && draft.approval.Some?
                  && draft.approval.value.planVersion == command.expectedVersion
                  && draft.approval.value.planHash == command.expectedHash)
  {
  }

  /** Whether a fact is there after a change. */
  predicate Stays<T>(change: Change<T>, before: Option<Extracted<T>>) {
    match change
    case Set(_) => true
    case Clear => false
    case Keep => before.Some?
  }

  /** Exactly when a revision writes: by the owner, at this version, still open, and in keeping with its type. */
  lemma RevisesIff(draft: DraftCase, command: Command)
    requires command.Revise?
    ensures var decided, body, promise := Decide(draft, command), draft.plan.body, draft.promise;
            var money := Stays(command.revision.amountMinor, promise.amountMinor)
                         && Stays(command.revision.currency, promise.currency);
            decided.Ok? <==>
              && draft.ownerId == command.ownerId && body.version == command.expectedVersion
              && draft.state.AwaitingOwner? && |body.requirements| > 0
              && match body.promiseType
                 case None | Some(Refund) => money
                 case Some(BillCredit) =>
                   money && body.requirements[0].billPeriod.Some? && body.requirements[0].billPeriod.value != ""
                 case Some(Replacement) =>
                   && body.requirements[0].subject.Some? && body.requirements[0].subject.value != ""
                   && TrackingField in body.requirements[0].requiredFields
                 case Some(General) => true
  {
    if |draft.plan.body.requirements| > 0 {
      var promise := RevisedDraft(draft.promise, command.revision);
      var body := RevisedBody(draft.plan.body, promise, command.revision, None);
      assert body.requirements[0] in body.requirements;
    }
  }

  /** What an approval writes, and the run that starts with it: when it is due and when it is first woken. */
  lemma ApprovalApplied(desk: Desk, call: Call, next: Desk)
    requires call.command.Approve? && Applied(desk, call) == Ok(next) && next != desk
    ensures var Approve(ownerId, version, hash, now), body := call.command, call.copy.plan.body;
            && next.draft == call.copy.(state := Activated, approval := next.draft.approval)
            && next.draft.approval == Some(Approval(ownerId, version, hash, body.expiresAt, None))
    ensures desk.active.None? && next.active.Some? && next.active.value.approved == next.draft
    ensures var Start(approved, run, wakeAt), now := next.active.value, call.command.now;
            var body := approved.plan.body;
            var promised := match approved.promise.dueAt case Some(given) => Some(given.value) case None => None;
            var asked := if body.followUpAt.Some? then body.followUpAt else promised;
            && run == CaseRun(approved.caseId, approved.ownerId, Ready, 1, approved.plan, approved.approval.value, 1,
                              (match asked case Some(at) => at case None => approved.createdAt + 1000),
                              None, None, None, 0, None)
            && wakeAt == (match asked case Some(at) => if now < at then at else now case None => now)
  {
  }

  class PlanService {
    var draft: Option<DraftCase>
    var run: Option<CaseRun>
    var wakeAt: Option<Time>
    ghost var approved: Option<DraftCase>

    constructor (draft: Option<DraftCase>)
      ensures this.draft == draft && Valid() && run == None
    {
      this.draft, run, wakeAt, approved := draft, None, None, None;
    }

    ghost predicate Valid()
      reads this
    {
      run.Some? == wakeAt.Some? == approved.Some?
    }

    ghost function Stored(): (Option<DraftCase>, Option<Start>)
      requires Valid()
      reads this
    {
      (draft, if run.Some? then Some(Start(approved.value, run.value, wakeAt.value)) else None)
    }

    /** `replace` of an edited draft: a version check, then the draft. */
    method Replace(expectedVersion: nat, next: DraftCase) returns (error: Option<string>)
      requires !next.state.Activated?
      modifies this`draft
      ensures if old(draft).None? then error == Some("CASE_NOT_FOUND") && draft == old(draft)
              else if old(draft).value.plan.body.version != expectedVersion
              then error == Some("STALE_PLAN_VERSION") && draft == old(draft)
              else error.None? && draft == Some(next)
    {
      if draft.None? { return Some("CASE_NOT_FOUND"); }
      if draft.value.plan.body.version != expectedVersion { return Some("STALE_PLAN_VERSION"); }
      draft := Some(next);
      error := None;
    }

    /**
     * `replace` of an approved draft: the run, its first event and its wake come with it, and the
     * event can be created only once, so a second activation changes nothing.
     */
    method Activate(expectedVersion: nat, next: DraftCase, wake: Time) returns (error: Option<string>)
      requires Valid() && next.state.Activated? && next.approval.Some?
      modifies this
      ensures Valid()
      ensures error.Some? ==>
        draft == old(draft) && run == old(run) && wakeAt == old(wakeAt) && approved == old(approved)
      ensures if old(draft).None? then error == Some("CASE_NOT_FOUND")
              else if old(draft).value.plan.body.version != expectedVersion then error == Some("STALE_PLAN_VERSION")
              else if old(run).Some? then error == Some("ALREADY_EXISTS")
              else
                error.None? && draft == Some(next)
                && Stored() == (Some(next), Some(Start(next, RunOf(next, next.approval.value), wake)))
    {
      if draft.None? { return Some("CASE_NOT_FOUND"); }
      if draft.value.plan.body.version != expectedVersion { return Some("STALE_PLAN_VERSION"); }
      if run.Some? { return Some("ALREADY_EXISTS"); }
      draft, wakeAt, run := Some(next), Some(wake), Some(RunOf(next, next.approval.value));
      approved := Some(next);
      error := None;
    }

    method Inspect(ownerId: string) returns (result: Result<DraftCase>)
      ensures if draft.None? then result == Err("CASE_NOT_FOUND")
              else if draft.value.ownerId != ownerId then result == Err("CASE_OWNERSHIP_REQUIRED")
              else result == Ok(draft.value)
    {
      if draft.None? { return Err("CASE_NOT_FOUND"); }
      if draft.value.ownerId != ownerId { return Err("CASE_OWNERSHIP_REQUIRED"); }
      result := Ok(draft.value);
    }

    /** Revise and SelectChannel, from the draft that `Inspect` has returned at some time before. */
    method Change(current: DraftCase, command: Command) returns (error: Option<string>)
      requires Valid() && (command.Revise? || command.SelectChannel?) && current.ownerId == command.ownerId
      modifies this`draft
      ensures Valid() && Answers(old(Stored()), Call(command, current), error, Stored())
    {
      if current.plan.body.version != command.expectedVersion { return Some("STALE_PLAN_VERSION"); }
      if !current.state.AwaitingOwner? { return Some("PLAN_NOT_EDITABLE"); }
      var revised;
      if command.Revise? {
        revised := Revised(current, RevisedDraft(current.promise, command.revision), command.revision, None);
      } else {
        if current.plan.body.channelType == Some(command.selection.channel.channelType) { return None; }
        revised := Revised(current, current.promise, UNREVISED, Some(command.selection));
      }
      if revised.Err? { return Some(revised.error); }
      error := Replace(command.expectedVersion, revised.value);
    }

    method Approve(current: DraftCase, command: Command) returns (error: Option<string>)
      requires Valid() && command.Approve? && current.ownerId == command.ownerId
      modifies this
      ensures Valid() && Answers(old(Stored()), Call(command, current), error, Stored())
    {
      if AlreadyApproved(current, command.expectedVersion, command.expectedHash) { return None; }
      if current.plan.body.version != command.expectedVersion || current.plan.planHash != command.expectedHash {
        return Some("STALE_PLAN_APPROVAL");
      }
      if !current.state.AwaitingOwner? { return Some("PLAN_NOT_APPROVABLE"); }
      if current.blockingFields != [] { return Some("CRITICAL_FIELDS_UNRESOLVED"); }
      if current.plan.body.expiresAt <= command.now { return Some("PLAN_EXPIRED"); }
      var approval := Approval(command.ownerId, current.plan.body.version, current.plan.planHash,
                               current.plan.body.expiresAt, None);
      var next := current.(state := Activated, approval := Some(approval));
      error := Activate(command.expectedVersion, next, ActivationWakeAt(next, command.now));
    }

    method Reject(current: DraftCase, command: Command) returns (error: Option<string>)
      requires Valid() && command.Reject? && current.ownerId == command.ownerId
      modifies this`draft
      ensures Valid() && Answers(old(Stored()), Call(command, current), error, Stored())
    {
      if current.plan.body.version != command.expectedVersion { return Some("STALE_PLAN_VERSION"); }
      error := Replace(command.expectedVersion, current.(state := Rejected));
    }
  }
}
