/** The closed action policy (packages/domain/src/policy.ts). */
module Policy {
  import opened Contracts
  import opened Findings

  datatype ApprovedPolicy = ApprovedPolicy(
    ownerId: string,
    planVersion: nat,
    planHash: PlanHash,
    allowedActions: seq<ActionType>,
    allowedRecipient: string,
    allowedChannel: Option<ChannelType>,
    sharedFields: seq<string>,
    approval: Approval)

  datatype Proposal = Proposal(
    ownerId: string,
    planVersion: nat,
    planHash: PlanHash,
    actionType: ActionType,
    recipient: string,
    channelType: Option<ChannelType>,
    sharedFields: map<string, string>)

  datatype Denial =
    | OwnerMismatch
    | PlanMismatch
    | ApprovalExpired
    | ActionNotAllowed
    | RecipientNotAllowed
    | ChannelNotAllowed
    | FieldNotAllowed

  /** An empty list of denials is the AUTHORIZED decision. */
  datatype Decision = Decision(authorized: bool, denials: seq<Denial>)

  /** The proposal carries a field the owner did not agree to share. */
  predicate SharesMore(policy: ApprovedPolicy, proposal: Proposal) {
    exists field <- proposal.sharedFields.Keys :: field !in policy.sharedFields
  }

  /** When each denial is due. */
  predicate Due(denial: Denial, policy: ApprovedPolicy, proposal: Proposal, now: Time) {
    match denial
    case OwnerMismatch => proposal.ownerId != policy.ownerId || policy.approval.ownerId != policy.ownerId
    case PlanMismatch =>
      || proposal.planVersion != policy.planVersion
      || proposal.planHash != policy.planHash
      || policy.approval.planVersion != policy.planVersion
      || policy.approval.planHash != policy.planHash
    case ApprovalExpired => policy.approval.expiresAt <= now || policy.approval.revokedAt.Some?
    case ActionNotAllowed => proposal.actionType !in policy.allowedActions
    case RecipientNotAllowed => proposal.recipient != policy.allowedRecipient
    case ChannelNotAllowed => policy.allowedChannel.Some? && proposal.channelType != policy.allowedChannel
    case FieldNotAllowed => SharesMore(policy, proposal)
  }

  /** `done`, then the checks of who approved what, and until when. */
  function WithAuthorityChecks(done: seq<Check<Denial>>, policy: ApprovedPolicy, proposal: Proposal, now: Time)
    : seq<Check<Denial>>
  {
    done
    + [Check(OwnerMismatch, proposal.ownerId != policy.ownerId || policy.approval.ownerId != policy.ownerId)]
    + [Check(PlanMismatch,
             || proposal.planVersion != policy.planVersion
             || proposal.planHash != policy.planHash
             || policy.approval.planVersion != policy.planVersion
             || policy.approval.planHash != policy.planHash)]
    + [Check(ApprovalExpired, policy.approval.expiresAt <= now || policy.approval.revokedAt.Some?)]
  }

  /** `done`, then the checks of the action itself. */
  function WithActionChecks(done: seq<Check<Denial>>, policy: ApprovedPolicy, proposal: Proposal): seq<Check<Denial>> {
    done
    + [Check(ActionNotAllowed, proposal.actionType !in policy.allowedActions)]
    + [Check(RecipientNotAllowed, proposal.recipient != policy.allowedRecipient)]
    + [Check(ChannelNotAllowed, policy.allowedChannel.Some? && proposal.channelType != policy.allowedChannel)]
    + [Check(FieldNotAllowed, SharesMore(policy, proposal))]
  }

  function WithChecks(policy: ApprovedPolicy, proposal: Proposal, now: Time): seq<Check<Denial>> {
    WithActionChecks(WithAuthorityChecks([], policy, proposal, now), policy, proposal)
  }

  function Denials(policy: ApprovedPolicy, proposal: Proposal, now: Time): seq<Denial> {
    FailedReasons(WithChecks(policy, proposal, now))
  }

  lemma DenialsExact(policy: ApprovedPolicy, proposal: Proposal, now: Time, denial: Denial)
    ensures denial in Denials(policy, proposal, now) <==> Due(denial, policy, proposal, now)
  {
    var checks := WithChecks(policy, proposal, now);
    FailedReasonsExact(checks, denial);
    match denial
    case OwnerMismatch => assert checks[0].reason == denial;
    case PlanMismatch => assert checks[1].reason == denial;
    case ApprovalExpired => assert checks[2].reason == denial;
    case ActionNotAllowed => assert checks[3].reason == denial;
    case RecipientNotAllowed => assert checks[4].reason == denial;
    case ChannelNotAllowed => assert checks[5].reason == denial;
    case FieldNotAllowed => assert checks[6].reason == denial;
  }

  /** What an approval licenses: everything the owner agreed to, and nothing else. */
  predicate Licensed(policy: ApprovedPolicy, proposal: Proposal, now: Time) {
    && proposal.ownerId == policy.ownerId == policy.approval.ownerId
    && proposal.planVersion == policy.planVersion == policy.approval.planVersion
    && proposal.planHash == policy.planHash == policy.approval.planHash
    && now < policy.approval.expiresAt
    && policy.approval.revokedAt.None?
    && proposal.actionType in policy.allowedActions
    && proposal.recipient == policy.allowedRecipient
    && (policy.allowedChannel.Some? ==> proposal.channelType == policy.allowedChannel)
    && (forall field <- proposal.sharedFields.Keys :: field in policy.sharedFields)
  }

  lemma AuthorizedIffLicensed(policy: ApprovedPolicy, proposal: Proposal, now: Time)
    ensures Denials(policy, proposal, now) == [] <==> Licensed(policy, proposal, now)
  {
    var denials := Denials(policy, proposal, now);
    DenialsExact(policy, proposal, now, OwnerMismatch);
    DenialsExact(policy, proposal, now, PlanMismatch);
    DenialsExact(policy, proposal, now, ApprovalExpired);
    DenialsExact(policy, proposal, now, ActionNotAllowed);
    DenialsExact(policy, proposal, now, RecipientNotAllowed);
    DenialsExact(policy, proposal, now, ChannelNotAllowed);
    DenialsExact(policy, proposal, now, FieldNotAllowed);
    if denials != [] {
      DenialsExact(policy, proposal, now, denials[0]);
    }
  }

  method PushAuthorityDenials(policy: ApprovedPolicy, proposal: Proposal, now: Time)
    returns (reasons: seq<Denial>, ghost checks: seq<Check<Denial>>)
    ensures reasons == FailedReasons(checks)
    ensures checks == WithAuthorityChecks([], policy, proposal, now)
  {
    reasons, checks := [], [];
    reasons, checks := PushIf(
      proposal.ownerId != policy.ownerId || policy.approval.ownerId != policy.ownerId, OwnerMismatch, reasons, checks);
    reasons, checks := PushIf(
      || proposal.planVersion != policy.planVersion
      || proposal.planHash != policy.planHash
      || policy.approval.planVersion != policy.planVersion
      || policy.approval.planHash != policy.planHash, PlanMismatch, reasons, checks);
    reasons, checks := PushIf(
      policy.approval.expiresAt <= now || policy.approval.revokedAt.Some?, ApprovalExpired, reasons, checks);
  }

  method PushActionDenials(policy: ApprovedPolicy, proposal: Proposal,
                           sofar: seq<Denial>, ghost done: seq<Check<Denial>>)
    returns (reasons: seq<Denial>, ghost checks: seq<Check<Denial>>)
    requires sofar == FailedReasons(done)
    ensures reasons == FailedReasons(checks)
    ensures checks == WithActionChecks(done, policy, proposal)
  {
    reasons, checks := sofar, done;
    reasons, checks := PushIf(proposal.actionType !in policy.allowedActions, ActionNotAllowed, reasons, checks);
    reasons, checks := PushIf(proposal.recipient != policy.allowedRecipient, RecipientNotAllowed, reasons, checks);
    reasons, checks := PushIf(
      policy.allowedChannel.Some? && proposal.channelType != policy.allowedChannel, ChannelNotAllowed, reasons, checks);
    reasons, checks := PushIf(SharesMore(policy, proposal), FieldNotAllowed, reasons, checks);
  }

  /** The policy as written: push each failed check, then decide. */
  method AuthorizeAction(policy: ApprovedPolicy, proposal: Proposal, now: Time) returns (decision: Decision)
    ensures decision.denials == Denials(policy, proposal, now)
    ensures decision.authorized <==> Licensed(policy, proposal, now)
  {
    var reasons, checks := PushAuthorityDenials(policy, proposal, now);
    reasons, checks := PushActionDenials(policy, proposal, reasons, checks);
    decision := Decision(|reasons| == 0, reasons);
    AuthorizedIffLicensed(policy, proposal, now);
  }
}
