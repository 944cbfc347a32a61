/** The deterministic evidence verifier (packages/domain/src/verifier.ts). */
module Verifier {
  import opened Contracts
  import opened Findings

  datatype Reason =
    | Accepted
    | WrongCase
    | InsufficientLevel
    | WrongAmount
    | WrongCurrency
    | WrongReference
    | WrongSubject
    | WrongBillPeriod
    | MissingTracking
    | StaleEvidence
    | UntrustedIssuer
    | InvalidSignature

  datatype Verification = Verification(accepted: bool, level: Option<EvidenceLevel>, reasons: seq<Reason>)

  function LevelRank(level: EvidenceLevel): nat {
    match level
    case PromiseRecorded => 0
    case RequestAcknowledged => 1
    case MerchantCommitted => 2
    case MerchantConfirmed => 3
    case FundsSettled => 4
  }

  /** The order of the levels, told for each level demanded. */
  predicate Reaches(level: EvidenceLevel, minimum: EvidenceLevel) {
    match minimum
    case PromiseRecorded => true
    case RequestAcknowledged => !level.PromiseRecorded?
    case MerchantCommitted => level.MerchantCommitted? || level.MerchantConfirmed? || level.FundsSettled?
    case MerchantConfirmed => level.MerchantConfirmed? || level.FundsSettled?
    case FundsSettled => level.FundsSettled?
  }

  predicate HasText(text: Option<string>) {
    text.Some? && text.value != ""
  }

  predicate Fresh(candidate: Candidate, maxAgeSeconds: int, now: Time) {
    && candidate.issuedAt.Some?
    && 0 <= now - candidate.issuedAt.value <= maxAgeSeconds * 1000
  }

  /** Declarative meaning of the verifier: when a reason code is due. */
  predicate Due(reason: Reason, caseId: string, requirement: Requirement, candidate: Candidate, now: Time) {
    match reason
    case Accepted => false
    case WrongCase => candidate.caseId != caseId
    case InsufficientLevel => !Reaches(candidate.level, requirement.minimumLevel)
    case WrongAmount => requirement.amountMinor.Some? && candidate.amountMinor != requirement.amountMinor
    case WrongCurrency => requirement.currency.Some? && candidate.currency != requirement.currency
    case WrongReference => candidate.transactionRef != Some(requirement.transactionRef)
    case WrongSubject => requirement.subject.Some? && candidate.subject != requirement.subject
    case WrongBillPeriod => requirement.billPeriod.Some? && candidate.billPeriod != requirement.billPeriod
    case MissingTracking =>
      && TrackingField in requirement.requiredFields
      && (candidate.trackingNumber.Some? ==> candidate.trackingNumber.value == "")
    case StaleEvidence =>
      candidate.issuedAt.Some? ==>
        now < candidate.issuedAt.value || candidate.issuedAt.value + requirement.maxAgeSeconds * 1000 < now
    case UntrustedIssuer => candidate.issuer != requirement.trustedIssuer
    case InvalidSignature => !candidate.signatureValid
  }

  /** `done`, then the checks of case, level and money. */
  function WithMoneyChecks(done: seq<Check<Reason>>, caseId: string, requirement: Requirement, candidate: Candidate)
    : seq<Check<Reason>>
  {
    done
    + [Check(WrongCase, candidate.caseId != caseId)]
    + [Check(InsufficientLevel, LevelRank(candidate.level) < LevelRank(requirement.minimumLevel))]
    + [Check(WrongAmount, requirement.amountMinor.Some? && candidate.amountMinor != requirement.amountMinor)]
    + [Check(WrongCurrency, requirement.currency.Some? && candidate.currency != requirement.currency)]
  }

  /** `done`, then the checks of the other claimed facts. */
  function WithFactChecks(done: seq<Check<Reason>>, requirement: Requirement, candidate: Candidate)
    : seq<Check<Reason>>
  {
    done
    + [Check(WrongReference, candidate.transactionRef != Some(requirement.transactionRef))]
    + [Check(WrongSubject, requirement.subject.Some? && candidate.subject != requirement.subject)]
    + [Check(WrongBillPeriod, requirement.billPeriod.Some? && candidate.billPeriod != requirement.billPeriod)]
    + [Check(MissingTracking, TrackingField in requirement.requiredFields && !HasText(candidate.trackingNumber))]
  }

  /** `done`, then the checks of issuer, signature and age with their outcomes. */
  function WithOriginChecks(done: seq<Check<Reason>>, requirement: Requirement, candidate: Candidate, now: Time)
    : seq<Check<Reason>>
  {
    done
    + [Check(UntrustedIssuer, candidate.issuer != requirement.trustedIssuer)]
    + [Check(InvalidSignature, !candidate.signatureValid)]
    + [Check(StaleEvidence, !Fresh(candidate, requirement.maxAgeSeconds, now))]
  }

  /** Every check of the verifier, in the order made. */
  function Checks(caseId: string, requirement: Requirement, candidate: Candidate, now: Time): seq<Check<Reason>> {
    WithOriginChecks(
      WithFactChecks(WithMoneyChecks([], caseId, requirement, candidate), requirement, candidate),
      requirement, candidate, now)
  }

  function Verify(caseId: string, requirement: Requirement, candidate: Candidate, now: Time): Verification {
    var reasons := FailedReasons(Checks(caseId, requirement, candidate, now));
    if reasons == [] then Verification(true, Some(candidate.level), [Accepted])
    else Verification(false, None, reasons)
  }

  predicate IsConflict(verification: Verification) {
    !verification.accepted && InsufficientLevel !in verification.reasons
  }

  lemma FactChecksExact(done: seq<Check<Reason>>, caseId: string, requirement: Requirement, candidate: Candidate,
                        now: Time, reason: Reason)
    ensures Check(reason, true) in WithFactChecks(done, requirement, candidate)
       <==> || Check(reason, true) in done
            || ((reason.WrongReference? || reason.WrongSubject? || reason.WrongBillPeriod? || reason.MissingTracking?)
                && Due(reason, caseId, requirement, candidate, now))
  {
  }

  lemma DueReasonsExact(caseId: string, requirement: Requirement, candidate: Candidate, now: Time)
    ensures forall reason: Reason :: reason in FailedReasons(Checks(caseId, requirement, candidate, now))
                                <==> Due(reason, caseId, requirement, candidate, now)
  {
    var money := WithMoneyChecks([], caseId, requirement, candidate);
    forall reason: Reason
      ensures reason in FailedReasons(Checks(caseId, requirement, candidate, now))
         <==> Due(reason, caseId, requirement, candidate, now)
    {
      FailedReasonsExact(Checks(caseId, requirement, candidate, now), reason);
      FactChecksExact(money, caseId, requirement, candidate, now, reason);
    }
  }

  /** Evidence closes a case exactly when every fact of the requirement is met; an absent one is left open. */
  predicate Satisfies(caseId: string, requirement: Requirement, candidate: Candidate, now: Time) {
    && candidate.caseId == caseId
    && Reaches(candidate.level, requirement.minimumLevel)
    && (requirement.amountMinor.Some? ==> candidate.amountMinor == requirement.amountMinor)
    && (requirement.currency.Some? ==> candidate.currency == requirement.currency)
    && candidate.transactionRef == Some(requirement.transactionRef)
    && (requirement.subject.Some? ==> candidate.subject == requirement.subject)
    && (requirement.billPeriod.Some? ==> candidate.billPeriod == requirement.billPeriod)
    && (TrackingField in requirement.requiredFields ==>
          candidate.trackingNumber.Some? && candidate.trackingNumber.value != "")
    && candidate.issuer == requirement.trustedIssuer
    && candidate.signatureValid
    && candidate.issuedAt.Some?
    && candidate.issuedAt.value <= now <= candidate.issuedAt.value + requirement.maxAgeSeconds * 1000
  }

  lemma AcceptedIffSatisfied(caseId: string, requirement: Requirement, candidate: Candidate, now: Time)
    ensures Verify(caseId, requirement, candidate, now).accepted
       <==> Satisfies(caseId, requirement, candidate, now)
    ensures Verify(caseId, requirement, candidate, now).accepted
       ==> Verify(caseId, requirement, candidate, now).level == Some(candidate.level)
    ensures InsufficientLevel in Verify(caseId, requirement, candidate, now).reasons
       <==> !Reaches(candidate.level, requirement.minimumLevel)
  {
    var reasons := FailedReasons(Checks(caseId, requirement, candidate, now));
    DueReasonsExact(caseId, requirement, candidate, now);
    if reasons == [] {
      assert forall reason: Reason :: reason !in reasons;
      assert !Due(WrongCase, caseId, requirement, candidate, now);
      assert !Due(InsufficientLevel, caseId, requirement, candidate, now);
      assert !Due(WrongAmount, caseId, requirement, candidate, now);
      assert !Due(WrongCurrency, caseId, requirement, candidate, now);
      assert !Due(WrongReference, caseId, requirement, candidate, now);
      assert !Due(WrongSubject, caseId, requirement, candidate, now);
      assert !Due(WrongBillPeriod, caseId, requirement, candidate, now);
      assert !Due(MissingTracking, caseId, requirement, candidate, now);
      assert !Due(UntrustedIssuer, caseId, requirement, candidate, now);
      assert !Due(InvalidSignature, caseId, requirement, candidate, now);
      assert !Due(StaleEvidence, caseId, requirement, candidate, now);
    } else {
      assert reasons[0] in reasons;
      assert Due(reasons[0], caseId, requirement, candidate, now);
    }
  }

  /** The checks of case, level and money, in the order written. */
  method PushMoneyFailures(
      caseId: string, requirement: Requirement, candidate: Candidate,
      sofar: seq<Reason>, ghost done: seq<Check<Reason>>)
    returns (reasons: seq<Reason>, ghost checks: seq<Check<Reason>>)
    requires sofar == FailedReasons(done)
    ensures reasons == FailedReasons(checks)
    ensures checks == WithMoneyChecks(done, caseId, requirement, candidate)
  {
    reasons, checks := sofar, done;
    reasons, checks := PushIf(candidate.caseId != caseId, WrongCase, reasons, checks);
    reasons, checks := PushIf(
      LevelRank(candidate.level) < LevelRank(requirement.minimumLevel), InsufficientLevel, reasons, checks);
    reasons, checks := PushIf(
      requirement.amountMinor.Some? && candidate.amountMinor != requirement.amountMinor, WrongAmount, reasons, checks);
    reasons, checks := PushIf(
      requirement.currency.Some? && candidate.currency != requirement.currency, WrongCurrency, reasons, checks);
  }

  /** The checks of the other claimed facts, in the order written. */
  method PushFactFailures(
      requirement: Requirement, candidate: Candidate,
      sofar: seq<Reason>, ghost done: seq<Check<Reason>>)
    returns (reasons: seq<Reason>, ghost checks: seq<Check<Reason>>)
    requires sofar == FailedReasons(done)
    ensures reasons == FailedReasons(checks)
    ensures checks == WithFactChecks(done, requirement, candidate)
  {
    reasons, checks := sofar, done;
    reasons, checks := PushIf(
      candidate.transactionRef != Some(requirement.transactionRef), WrongReference, reasons, checks);
    reasons, checks := PushIf(
      requirement.subject.Some? && candidate.subject != requirement.subject, WrongSubject, reasons, checks);
    reasons, checks := PushIf(
      requirement.billPeriod.Some? && candidate.billPeriod != requirement.billPeriod, WrongBillPeriod, reasons, checks);
    reasons, checks := PushIf(
      TrackingField in requirement.requiredFields && !HasText(candidate.trackingNumber), MissingTracking,
      reasons, checks);
  }

  /** The checks of where the evidence comes from, in the order written. */
  method PushOriginFailures(requirement: Requirement, candidate: Candidate, now: Time,
                            sofar: seq<Reason>, ghost done: seq<Check<Reason>>)
    returns (reasons: seq<Reason>, ghost checks: seq<Check<Reason>>)
    requires sofar == FailedReasons(done)
    ensures reasons == FailedReasons(checks)
    ensures checks == WithOriginChecks(done, requirement, candidate, now)
  {
    reasons, checks := sofar, done;
    reasons, checks := PushIf(candidate.issuer != requirement.trustedIssuer, UntrustedIssuer, reasons, checks);
    reasons, checks := PushIf(!candidate.signatureValid, InvalidSignature, reasons, checks);
    reasons, checks := PushIf(!Fresh(candidate, requirement.maxAgeSeconds, now), StaleEvidence, reasons, checks);
  }

  /** The verifier as written: push each failed check, then decide. */
  method VerifyEvidence(caseId: string, requirement: Requirement, candidate: Candidate, now: Time)
    returns (verification: Verification)
    ensures verification == Verify(caseId, requirement, candidate, now)
    ensures verification.accepted <==> Satisfies(caseId, requirement, candidate, now)
    ensures !verification.accepted ==>
      forall reason: Reason :: reason in verification.reasons <==> Due(reason, caseId, requirement, candidate, now)
  {
    var reasons, checks := PushMoneyFailures(caseId, requirement, candidate, [], []);
    reasons, checks := PushFactFailures(requirement, candidate, reasons, checks);
    reasons, checks := PushOriginFailures(requirement, candidate, now, reasons, checks);
    verification := if |reasons| > 0 then Verification(false, None, reasons)
                    else Verification(true, Some(candidate.level), [Accepted]);
    AcceptedIffSatisfied(caseId, requirement, candidate, now);
    DueReasonsExact(caseId, requirement, candidate, now);
  }
}
