/** Shared vocabulary: the records that plans, runs, approvals and evidence are made of. */
module Contracts {

  datatype Option<+T> = None | Some(value: T) {
    function GetOr(default: T): T {
      match this
      case Some(v) => v
      case None => default
    }
  }

  datatype Result<+T> = Ok(value: T) | Err(error: string)

  /** Instants, in milliseconds since the epoch. */
  type Time = int

  datatype EvidenceLevel =
    | PromiseRecorded
    | RequestAcknowledged
    | MerchantCommitted
    | MerchantConfirmed
    | FundsSettled

  datatype CaseState =
    | Draft
    | AwaitingApproval
    | Ready
    | Running
    | WaitingExternal
    | WaitingRetry
    | NeedsAttention
    | Done
    | Failed
    | Cancelled
    | Expired

  datatype PromiseType = Refund | BillCredit | Replacement | General

  datatype ChannelType = ControlledSandbox | ManagedEmail | GmailConnected | PartnerApi

  datatype ActionType = SendFollowUp | CheckStatus

  datatype EvidenceField = AmountField | CurrencyField | SubjectField | BillPeriodField | TrackingField

  /** What counts as proof. Only the first requirement of a plan is ever consulted. */
  datatype Requirement = Requirement(
    minimumLevel: EvidenceLevel,
    amountMinor: Option<nat>,
    currency: Option<string>,
    transactionRef: string,
    subject: Option<string>,
    billPeriod: Option<string>,
    requiredFields: seq<EvidenceField>,
    maxAgeSeconds: int,
    trustedIssuer: string)

  /** Everything in a resolution plan except its hash. */
  datatype PlanBody = PlanBody(
    planId: string,
    caseId: string,
    ownerId: string,
    version: nat,
    goal: string,
    promiseType: Option<PromiseType>,
    allowedActions: seq<ActionType>,
    allowedRecipient: string,
    channelType: Option<ChannelType>,
    senderIdentity: Option<string>,
    replyRoute: Option<string>,
    messageSubject: Option<string>,
    followUpIntervalSeconds: Option<nat>,
    maxLogicalSends: Option<nat>,
    sharedFields: seq<string>,
    followUpAt: Option<Time>,
    requirements: seq<Requirement>,
    expiresAt: Time)

  /** The canonical hash of a plan body, taken to be injective. */
  datatype PlanHash = Sha256(preimage: PlanBody)

  datatype Plan = Plan(body: PlanBody, planHash: PlanHash)

  datatype Approval = Approval(
    ownerId: string,
    planVersion: nat,
    planHash: PlanHash,
    expiresAt: Time,
    revokedAt: Option<Time>)

  /** A candidate's `issuedAt` is None when it does not parse as a date. */
  datatype Candidate = Candidate(
    evidenceId: string,
    caseId: string,
    level: EvidenceLevel,
    amountMinor: Option<nat>,
    currency: Option<string>,
    transactionRef: Option<string>,
    subject: Option<string>,
    billPeriod: Option<string>,
    trackingNumber: Option<string>,
    issuedAt: Option<Time>,
    issuer: string,
    signatureValid: bool)

  const DEFAULT_MAX_SENDS: nat := 3

  const DEFAULT_FOLLOW_UP_SECONDS: nat := 2 * 24 * 60 * 60

  function MaxSends(plan: Plan): nat {
    plan.body.maxLogicalSends.GetOr(DEFAULT_MAX_SENDS)
  }

  function FollowUpMillis(plan: Plan): nat {
    plan.body.followUpIntervalSeconds.GetOr(DEFAULT_FOLLOW_UP_SECONDS) * 1000
  }
}
