/** From an extracted promise to a first plan, and what keeps a plan from being approved. */
module Drafts {
  import opened Contracts

  datatype Uncertainty = Certain | Ambiguous | Missing | Contradictory

  datatype Extracted<T> = Extracted(value: T, uncertainty: Uncertainty)

  datatype PromiseDraft = PromiseDraft(
    promiseType: Option<PromiseType>,
    promisor: Extracted<string>,
    result: Extracted<string>,
    amountMinor: Option<Extracted<nat>>,
    currency: Option<Extracted<string>>,
    transactionRef: Extracted<string>,
    dueAt: Option<Extracted<Time>>)

  datatype ContactChannel = ContactChannel(channelType: ChannelType, senderIdentity: string, replyRoute: string)

  datatype DraftState = AwaitingOwner | Activated | Rejected

  datatype DraftCase = DraftCase(
    caseId: string,
    ownerId: string,
    state: DraftState,
    promise: PromiseDraft,
    plan: Plan,
    blockingFields: seq<string>,
    createdAt: Time,
    approval: Option<Approval>)

  const DAY_MILLIS := 24 * 60 * 60 * 1000

  // What blocks approval.

  predicate Resolved<T>(field: Option<Extracted<T>>) {
    field.Some? && field.value.uncertainty.Certain?
  }

  predicate NeedsMoney(promise: PromiseDraft) {
    || promise.promiseType == Some(Refund) || promise.promiseType == Some(BillCredit)
    || promise.amountMinor.Some? || promise.currency.Some?
  }

  function CertainDeadline(promise: PromiseDraft): Option<Time> {
    if Resolved(promise.dueAt) then Some(promise.dueAt.value.value) else None
  }

  predicate EndsWith(s: string, suffix: string) {
    |suffix| <= |s| && s[|s| - |suffix|..] == suffix
  }

  function If(condition: bool, name: string): seq<string> {
    if condition then [name] else []
  }

  /** A fact that must be certain, by name; a missing one has no uncertainty to look at. */
  datatype CriticalField = CriticalField(name: string, uncertainty: Option<Uncertainty>)

  predicate Sure(field: CriticalField) {
    field.uncertainty == Some(Certain)
  }

  function UncertaintyOf<T>(field: Option<Extracted<T>>): Option<Uncertainty> {
    if field.Some? then Some(field.value.uncertainty) else None
  }

  function CriticalFields(promise: PromiseDraft): seq<CriticalField> {
    [CriticalField("promisor", Some(promise.promisor.uncertainty)),
     CriticalField("result", Some(promise.result.uncertainty)),
     CriticalField("transactionRef", Some(promise.transactionRef.uncertainty))]
    + if !NeedsMoney(promise) then []
      else [CriticalField("amountMinor", UncertaintyOf(promise.amountMinor)),
            CriticalField("currency", UncertaintyOf(promise.currency))]
  }

  function UnsureNames(fields: seq<CriticalField>): seq<string> {
    if fields == [] then [] else If(!Sure(fields[0]), fields[0].name) + UnsureNames(fields[1..])
  }

  lemma {:induction false} UnsureNamesAppend(fields: seq<CriticalField>, last: CriticalField)
    ensures UnsureNames(fields + [last]) == UnsureNames(fields) + If(!Sure(last), last.name)
  {
    if fields == [] {
      assert (fields + [last])[1..] == [];
    } else {
      UnsureNamesAppend(fields[1..], last);
      assert (fields + [last])[1..] == fields[1..] + [last];
    }
  }

  lemma {:induction false} UnsureNamesExact(fields: seq<CriticalField>, name: string)
    ensures name in UnsureNames(fields) <==> exists field <- fields :: field.name == name && !Sure(field)
  {
    if fields != [] {
      UnsureNamesExact(fields[1..], name);
      assert forall field :: field in fields <==> field == fields[0] || field in fields[1..];
    }
  }

  function Blocking(promise: PromiseDraft, followUpAt: Option<Time>, allowedRecipient: string): seq<string> {
    UnsureNames(CriticalFields(promise))
    + If(followUpAt.None? && CertainDeadline(promise).None?, "followUpAt")
    + If(EndsWith(allowedRecipient, ".invalid"), "allowedRecipient")
  }

  /** By its type, or because money is mentioned. */
  predicate AboutMoney(promise: PromiseDraft) {
    || promise.amountMinor.Some? || promise.currency.Some?
    || match promise.promiseType
       case Some(Refund) | Some(BillCredit) => true
       case Some(Replacement) | Some(General) | None => false
  }

  /** What the owner still has to settle under this name. */
  predicate Unsettled(promise: PromiseDraft, followUpAt: Option<Time>, allowedRecipient: string, name: string) {
    || (name == "promisor" && !promise.promisor.uncertainty.Certain?)
    || (name == "result" && !promise.result.uncertainty.Certain?)
    || (name == "transactionRef" && !promise.transactionRef.uncertainty.Certain?)
    || (name == "amountMinor" && AboutMoney(promise)
        && (promise.amountMinor.Some? ==> !promise.amountMinor.value.uncertainty.Certain?))
    || (name == "currency" && AboutMoney(promise)
        && (promise.currency.Some? ==> !promise.currency.value.uncertainty.Certain?))
    || (name == "followUpAt" && followUpAt.None?
        && (promise.dueAt.Some? ==> !promise.dueAt.value.uncertainty.Certain?))
    || (name == "allowedRecipient" && |allowedRecipient| >= 8
        && allowedRecipient[|allowedRecipient| - 8..] == ".invalid")
  }

  lemma CriticalExactly(promise: PromiseDraft, field: CriticalField)
    ensures field in CriticalFields(promise) <==>
      || field == CriticalField("promisor", Some(promise.promisor.uncertainty))
      || field == CriticalField("result", Some(promise.result.uncertainty))
      || field == CriticalField("transactionRef", Some(promise.transactionRef.uncertainty))
      || (AboutMoney(promise) && field == CriticalField("amountMinor", UncertaintyOf(promise.amountMinor)))
      || (AboutMoney(promise) && field == CriticalField("currency", UncertaintyOf(promise.currency)))
  {
    var fields := CriticalFields(promise);
    assert NeedsMoney(promise) ==> fields[3] in fields && fields[4] in fields;
    assert fields[0] in fields && fields[1] in fields && fields[2] in fields;
  }

  lemma UnsureExactly(promise: PromiseDraft, name: string)
    ensures name in UnsureNames(CriticalFields(promise)) <==>
      || (name == "promisor" && !promise.promisor.uncertainty.Certain?)
      || (name == "result" && !promise.result.uncertainty.Certain?)
      || (name == "transactionRef" && !promise.transactionRef.uncertainty.Certain?)
      || (name == "amountMinor" && AboutMoney(promise) && UncertaintyOf(promise.amountMinor) != Some(Certain))
      || (name == "currency" && AboutMoney(promise) && UncertaintyOf(promise.currency) != Some(Certain))
  {
    UnsureNamesExact(CriticalFields(promise), name);
    CriticalExactly(promise, CriticalField("promisor", Some(promise.promisor.uncertainty)));
    CriticalExactly(promise, CriticalField("result", Some(promise.result.uncertainty)));
    CriticalExactly(promise, CriticalField("transactionRef", Some(promise.transactionRef.uncertainty)));
    CriticalExactly(promise, CriticalField("amountMinor", UncertaintyOf(promise.amountMinor)));
    CriticalExactly(promise, CriticalField("currency", UncertaintyOf(promise.currency)));
    forall field <- CriticalFields(promise) | field.name == name && !Sure(field)
      ensures field.name in ["promisor", "result", "transactionRef", "amountMinor", "currency"]
    {
      CriticalExactly(promise, field);
    }
  }

  lemma BlockedExactly(promise: PromiseDraft, followUpAt: Option<Time>, allowedRecipient: string, name: string)
    ensures name in Blocking(promise, followUpAt, allowedRecipient) <==>
      Unsettled(promise, followUpAt, allowedRecipient, name)
  {
    UnsureExactly(promise, name);
  }

  lemma AllBlocked(promise: PromiseDraft, followUpAt: Option<Time>, allowedRecipient: string)
    ensures forall name ::
      name in Blocking(promise, followUpAt, allowedRecipient) <==>
      Unsettled(promise, followUpAt, allowedRecipient, name)
  {
    forall name
      ensures name in Blocking(promise, followUpAt, allowedRecipient) <==>
        Unsettled(promise, followUpAt, allowedRecipient, name)
    {
      BlockedExactly(promise, followUpAt, allowedRecipient, name);
    }
  }

  /** A name is returned exactly if something is unsettled under it, in the order the facts are listed in. */
  method BlockingCriticalFields(promise: PromiseDraft, followUpAt: Option<Time>, allowedRecipient: string)
    returns (blocked: seq<string>)
    ensures forall name :: name in blocked <==> Unsettled(promise, followUpAt, allowedRecipient, name)
    ensures blocked == Blocking(promise, followUpAt, allowedRecipient)
  {
    var fields := [CriticalField("promisor", Some(promise.promisor.uncertainty)),
                   CriticalField("result", Some(promise.result.uncertainty)),
                   CriticalField("transactionRef", Some(promise.transactionRef.uncertainty))];
    if NeedsMoney(promise) {
      fields := fields + [CriticalField("amountMinor", UncertaintyOf(promise.amountMinor)),
                          CriticalField("currency", UncertaintyOf(promise.currency))];
    }
    blocked := [];
    for i := 0 to |fields|
      invariant blocked == UnsureNames(fields[..i])
    {
      UnsureNamesAppend(fields[..i], fields[i]);
      assert fields[..i] + [fields[i]] == fields[..i + 1];
      if !Sure(fields[i]) {
        blocked := blocked + [fields[i].name];
      }
    }
    assert fields[..|fields|] == fields == CriticalFields(promise);
    if followUpAt.None? && CertainDeadline(promise).None? {
      blocked := blocked + ["followUpAt"];
    }
    if EndsWith(allowedRecipient, ".invalid") {
      blocked := blocked + ["allowedRecipient"];
    }
    AllBlocked(promise, followUpAt, allowedRecipient);
  }

  /** Nothing blocks exactly when every critical fact is known for certain, with a time and a recipient. */
  lemma UnblockedIffResolved(promise: PromiseDraft, followUpAt: Option<Time>, allowedRecipient: string)
    ensures Blocking(promise, followUpAt, allowedRecipient) == [] <==>
      && promise.promisor.uncertainty.Certain? && promise.result.uncertainty.Certain?
      && promise.transactionRef.uncertainty.Certain?
      && (AboutMoney(promise) ==>
            && promise.amountMinor.Some? && promise.amountMinor.value.uncertainty.Certain?
            && promise.currency.Some? && promise.currency.value.uncertainty.Certain?)
      && (followUpAt.Some? || (promise.dueAt.Some? && promise.dueAt.value.uncertainty.Certain?))
      && !(|allowedRecipient| >= 8 && allowedRecipient[|allowedRecipient| - 8..] == ".invalid")
  {
    var blocked := Blocking(promise, followUpAt, allowedRecipient);
    BlockedExactly(promise, followUpAt, allowedRecipient, "promisor");
    BlockedExactly(promise, followUpAt, allowedRecipient, "result");
    BlockedExactly(promise, followUpAt, allowedRecipient, "transactionRef");
    BlockedExactly(promise, followUpAt, allowedRecipient, "amountMinor");
    BlockedExactly(promise, followUpAt, allowedRecipient, "currency");
    BlockedExactly(promise, followUpAt, allowedRecipient, "followUpAt");
    BlockedExactly(promise, followUpAt, allowedRecipient, "allowedRecipient");
    if blocked != [] {
      BlockedExactly(promise, followUpAt, allowedRecipient, blocked[0]);
    }
  }

  // The first plan.

  function ValueOf<T>(field: Option<Extracted<T>>): Option<T> {
    if field.Some? then Some(field.value.value) else None
  }

  /** A bill credit needs a bill period that intake cannot extract, so it becomes a general promise. */
  function PlannedType(promise: PromiseDraft): PromiseType {
    match promise.promiseType
    case Some(BillCredit) => General
    case Some(other) => other
    case None => if promise.amountMinor.Some? || promise.currency.Some? then Refund else General
  }

  /** `toLowerCase` on the letters of ASCII. */
  function Lower(s: string): string {
    seq(|s|, i requires 0 <= i < |s| => if 'A' <= s[i] <= 'Z' then s[i] - 'A' + 'a' else s[i])
  }

  /** Managed email trusts its recipient, by the hash of the address, taken to be injective. */
  function FirstIssuer(channelType: ChannelType, recipient: string): string {
    if channelType.ManagedEmail? then "managed-email:" + Lower(recipient) else "merchant-sandbox"
  }

  function FirstRequirement(promise: PromiseDraft, channelType: ChannelType, recipient: string): Requirement {
    var replacement := PlannedType(promise).Replacement?;
    Requirement(
      MerchantConfirmed, ValueOf(promise.amountMinor), ValueOf(promise.currency), promise.transactionRef.value,
      if replacement then Some(promise.result.value) else None, None,
      if replacement then [SubjectField, TrackingField] else [],
      30 * 24 * 60 * 60, FirstIssuer(channelType, recipient))
  }

  function FirstBody(planId: string, caseId: string, ownerId: string, promise: PromiseDraft, recipient: string,
                     now: Time, channel: ContactChannel): PlanBody
  {
    var sandbox := channel.channelType.ControlledSandbox?;
    PlanBody(
      planId, caseId, ownerId, 1, promise.result.value, Some(PlannedType(promise)), [SendFollowUp], recipient,
      Some(channel.channelType), Some(channel.senderIdentity), Some(channel.replyRoute),
      Some("Follow-up for " + promise.transactionRef.value),
      Some(if sandbox then 8 else DEFAULT_FOLLOW_UP_SECONDS), Some(3),
      ["transactionRef"] + If(promise.amountMinor.Some?, "amountMinor") + If(promise.currency.Some?, "currency")
      + If(PlannedType(promise).Replacement?, "subject"),
      if sandbox then Some(now + 2_000) else CertainDeadline(promise),
      [FirstRequirement(promise, channel.channelType, recipient)], now + 7 * DAY_MILLIS)
  }

  /** What the plan schema demands of a requirement beyond its shape. */
  predicate RequirementAllowed(promiseType: PromiseType, requirement: Requirement) {
    && (promiseType.Refund? || promiseType.BillCredit? ==> requirement.amountMinor.Some? && requirement.currency.Some?)
    && (promiseType.BillCredit? ==> requirement.billPeriod.Some? && requirement.billPeriod.value != "")
    && (promiseType.Replacement? ==>
          requirement.subject.Some? && requirement.subject.value != "" && TrackingField in requirement.requiredFields)
  }

  predicate SchemaAllows(body: PlanBody) {
    |body.requirements| > 0
    && forall requirement <- body.requirements :: RequirementAllowed(body.promiseType.GetOr(Refund), requirement)
  }

  /** `resolutionPlanSchema.parse({ ...body, planHash: stableHash(body) })`. */
  function Hashed(body: PlanBody): Result<Plan> {
    if SchemaAllows(body) then Ok(Plan(body, Sha256(body))) else Err("PLAN_SCHEMA_INVALID")
  }

  function Intake(planId: string, caseId: string, ownerId: string, promise: PromiseDraft, recipient: string,
                  now: Time, channel: ContactChannel): Result<DraftCase>
  {
    match Hashed(FirstBody(planId, caseId, ownerId, promise, recipient, now, channel))
    case Err(e) => Err(e)
    case Ok(plan) =>
      Ok(DraftCase(caseId, ownerId, AwaitingOwner, promise, plan,
                   Blocking(promise, plan.body.followUpAt, plan.body.allowedRecipient), now, None))
  }

  /**
   * The first plan in the terms of the promise: what it asks for, what it may share, when it starts, and
   * three follow-ups within a week. A bill credit is followed up as a general promise.
   */
  lemma FirstPlan(planId: string, caseId: string, ownerId: string, promise: PromiseDraft, recipient: string,
                  now: Time, channel: ContactChannel, draft: DraftCase)
    requires Intake(planId, caseId, ownerId, promise, recipient, now, channel) == Ok(draft)
    ensures draft.caseId == caseId && draft.ownerId == ownerId && draft.state.AwaitingOwner?
    ensures draft.promise == promise && draft.approval.None? && draft.createdAt == now
    ensures var body, money := draft.plan.body, promise.amountMinor.Some? || promise.currency.Some?;
            && body.version == 1 && body.goal == promise.result.value && body.allowedActions == [SendFollowUp]
            && body.promiseType == Some(match promise.promiseType
                                        case Some(Refund) => Refund
                                        case Some(Replacement) => Replacement
                                        case Some(BillCredit) | Some(General) => General
                                        case None => if money then Refund else General)
            && body.maxLogicalSends == Some(3) && body.expiresAt == now + 604_800_000
    ensures var body := draft.plan.body;
            && body.allowedRecipient == recipient && body.channelType == Some(channel.channelType)
            && body.senderIdentity == Some(channel.senderIdentity) && body.replyRoute == Some(channel.replyRoute)
            && body.messageSubject == Some("Follow-up for " + promise.transactionRef.value)
            && if channel.channelType.ControlledSandbox? then
                 body.followUpIntervalSeconds == Some(8) && body.followUpAt == Some(now + 2_000)
               else
                 && body.followUpIntervalSeconds == Some(172_800)
                 && body.followUpAt == (if promise.dueAt.Some? && promise.dueAt.value.uncertainty.Certain?
                                        then Some(promise.dueAt.value.value) else None)
    ensures var body := draft.plan.body;
            && |body.requirements| == 1
            && body.requirements[0] == Requirement(
                 MerchantConfirmed,
                 match promise.amountMinor case Some(given) => Some(given.value) case None => None,
                 match promise.currency case Some(given) => Some(given.value) case None => None,
                 promise.transactionRef.value,
                 if body.promiseType == Some(Replacement) then Some(promise.result.value) else None,
                 None,
                 if body.promiseType == Some(Replacement) then [SubjectField, TrackingField] else [],
                 2_592_000,
                 body.requirements[0].trustedIssuer)
            && (!channel.channelType.ManagedEmail? ==> body.requirements[0].trustedIssuer == "merchant-sandbox")
    ensures forall field :: field in draft.plan.body.sharedFields <==>
      || field == "transactionRef" || (field == "amountMinor" && promise.amountMinor.Some?)
      || (field == "currency" && promise.currency.Some?)
      || (field == "subject" && promise.promiseType == Some(Replacement))
  {
  }

  /** Intake fails only where the plan schema does: a refund without money, a replacement without a subject. */
  lemma IntakeIff(planId: string, caseId: string, ownerId: string, promise: PromiseDraft, recipient: string,
                  now: Time, channel: ContactChannel)
    ensures Intake(planId, caseId, ownerId, promise, recipient, now, channel).Ok? <==>
      var money, both := promise.amountMinor.Some? || promise.currency.Some?,
                         promise.amountMinor.Some? && promise.currency.Some?;
      match promise.promiseType
      case Some(Refund) => both
      case Some(Replacement) => promise.result.value != ""
      case Some(BillCredit) | Some(General) => true
      case None => money ==> both
  {
    var body := FirstBody(planId, caseId, ownerId, promise, recipient, now, channel);
    assert body.requirements[0] in body.requirements;
  }
}
