/** The daily budget of external sends: three buckets a request, one charge an idempotency key. */
module SendBudget {
  import opened Contracts

  /** Document ids are built from hashes, taken to be injective. */
  datatype Bucket =
    | Recipient(ownerId: string, day: string, recipient: string)
    | Domain(ownerId: string, day: string, domain: string)
    | Channel(ownerId: string, day: string, channel: string)

  /** `recipient` is in lower case already, which leaves every `@` where it is. */
  datatype SendRequest = SendRequest(ownerId: string, day: string, recipient: string, channelType: string, key: string)

  /** What follows the last `@`, or "none". */
  function DomainOf(recipient: string): string {
    if '@' !in recipient then "none" else AfterLastAt(recipient)
  }

  function AfterLastAt(recipient: string): string {
    if recipient == [] || recipient[|recipient| - 1] == '@' then []
    else AfterLastAt(recipient[..|recipient| - 1]) + [recipient[|recipient| - 1]]
  }

  function BucketsOf(request: SendRequest): seq<Bucket> {
    [Recipient(request.ownerId, request.day, request.recipient),
     Domain(request.ownerId, request.day, DomainOf(request.recipient)),
     Channel(request.ownerId, request.day, request.channelType)]
  }

  function LimitOf(bucket: Bucket): nat {
    if bucket.Recipient? then 3 else 10
  }

  /** `charged` remembers the request behind every reservation. */
  datatype Budget = Budget(counts: map<Bucket, nat>, charged: map<string, SendRequest>)

  function CountOf(counts: map<Bucket, nat>, bucket: Bucket): nat {
    if bucket in counts then counts[bucket] else 0
  }

  function Increment(counts: map<Bucket, nat>, bucket: Bucket): map<Bucket, nat> {
    counts[bucket := CountOf(counts, bucket) + 1]
  }

  function IncrementAll(counts: map<Bucket, nat>, buckets: seq<Bucket>): map<Bucket, nat> {
    if buckets == [] then counts
    else Increment(IncrementAll(counts, buckets[..|buckets| - 1]), buckets[|buckets| - 1])
  }

  predicate Exhausted(counts: map<Bucket, nat>, buckets: seq<Bucket>) {
    exists i | 0 <= i < |buckets| :: CountOf(counts, buckets[i]) >= LimitOf(buckets[i])
  }

  /** One transaction. A key charged before is not charged again. */
  function Charge(budget: Budget, request: SendRequest): Result<Budget> {
    if request.key in budget.charged then Ok(budget)
    else if Exhausted(budget.counts, BucketsOf(request)) then Err("EXTERNAL_SEND_BUDGET_EXHAUSTED")
    else Ok(Budget(IncrementAll(budget.counts, BucketsOf(request)), budget.charged[request.key := request]))
  }

  class BudgetStore {
    var counts: map<Bucket, nat>
    var reservations: set<string>
    ghost var charged: map<string, SendRequest>

    constructor ()
      ensures Valid() && Value() == Budget(map[], map[])
    {
      counts, reservations, charged := map[], {}, map[];
    }

    ghost predicate Valid()
      reads this
    {
      reservations == charged.Keys
    }

    ghost function Value(): Budget
      reads this
    {
      Budget(counts, charged)
    }

    method ReserveExternalSend(request: SendRequest) returns (error: Option<string>)
      requires Valid()
      modifies this
      ensures Valid()
      ensures match Charge(old(Value()), request)
              case Ok(budget) => error.None? && Value() == budget
              case Err(reason) => error == Some(reason) && Value() == old(Value())
    {
      var references := BucketsOf(request);
      if request.key in reservations {
        return None;
      }
      for i := 0 to |references|
        invariant Value() == old(Value())
        invariant forall k | 0 <= k < i :: CountOf(counts, references[k]) < LimitOf(references[k])
      {
        if CountOf(counts, references[i]) >= LimitOf(references[i]) {
          return Some("EXTERNAL_SEND_BUDGET_EXHAUSTED");
        }
      }
      for i := 0 to |references|
        invariant charged == old(charged) && reservations == old(reservations)
        invariant counts == IncrementAll(old(counts), references[..i])
      {
        assert references[..i + 1][..i] == references[..i];
        counts := Increment(counts, references[i]);
      }
      assert references[..|references|] == references;
      reservations := reservations + {request.key};
      charged := charged[request.key := request];
      error := None;
    }
  }

  // Conservation.

  ghost function KeysCharged(charged: map<string, SendRequest>, bucket: Bucket): set<string> {
    set key | key in charged && bucket in BucketsOf(charged[key])
  }

  /** The sum of the counts of the buckets that satisfy `p`. */
  ghost function Total(counts: map<Bucket, nat>, p: Bucket -> bool): nat
    decreases |counts|
  {
    if counts == map[] then 0
    else
      var bucket :| bucket in counts;
      (if p(bucket) then counts[bucket] else 0) + Total(counts - {bucket}, p)
  }

  lemma {:induction false} TotalSplits(counts: map<Bucket, nat>, p: Bucket -> bool, bucket: Bucket)
    requires bucket in counts
    ensures Total(counts, p) == (if p(bucket) then counts[bucket] else 0) + Total(counts - {bucket}, p)
    decreases |counts|
  {
    var first :| first in counts
      && Total(counts, p) == (if p(first) then counts[first] else 0) + Total(counts - {first}, p);
    if first != bucket {
      TotalSplits(counts - {first}, p, bucket);
      TotalSplits(counts - {bucket}, p, first);
      assert counts - {first} - {bucket} == counts - {bucket} - {first};
    }
  }

  lemma TotalGrows(counts: map<Bucket, nat>, p: Bucket -> bool, bucket: Bucket)
    ensures Total(Increment(counts, bucket), p) == Total(counts, p) + if p(bucket) then 1 else 0
  {
    var next := Increment(counts, bucket);
    TotalSplits(next, p, bucket);
    if bucket in counts {
      TotalSplits(counts, p, bucket);
      assert next - {bucket} == counts - {bucket};
    } else {
      assert next - {bucket} == counts;
    }
  }

  function RecipientsAt(ownerId: string, day: string, domain: string): Bucket -> bool {
    (b: Bucket) => b.Recipient? && b.ownerId == ownerId && b.day == day && DomainOf(b.recipient) == domain
  }

  function Domains(ownerId: string, day: string): Bucket -> bool {
    (b: Bucket) => b.Domain? && b.ownerId == ownerId && b.day == day
  }

  function Channels(ownerId: string, day: string): Bucket -> bool {
    (b: Bucket) => b.Channel? && b.ownerId == ownerId && b.day == day
  }

  ghost predicate CountsKeys(budget: Budget, bucket: Bucket) {
    CountOf(budget.counts, bucket) == |KeysCharged(budget.charged, bucket)| <= LimitOf(bucket)
  }

  ghost predicate RecipientsAddUp(counts: map<Bucket, nat>, ownerId: string, day: string, domain: string) {
    Total(counts, RecipientsAt(ownerId, day, domain)) == CountOf(counts, Domain(ownerId, day, domain))
  }

  ghost predicate DomainsAddUp(counts: map<Bucket, nat>, ownerId: string, day: string) {
    Total(counts, Domains(ownerId, day)) == Total(counts, Channels(ownerId, day))
  }

  /**
   * Each count is the number of distinct keys charged to its bucket and within its limit; per owner
   * and day the recipients of a domain add up to that domain, and all domains to all channels.
   */
  ghost predicate Conserved(budget: Budget) {
    && (forall bucket :: CountsKeys(budget, bucket))
    && (forall ownerId, day, domain :: RecipientsAddUp(budget.counts, ownerId, day, domain))
    && (forall ownerId, day :: DomainsAddUp(budget.counts, ownerId, day))
  }

  lemma ThreeIncrements(counts: map<Bucket, nat>, request: SendRequest)
    ensures var b := BucketsOf(request);
            IncrementAll(counts, b) == Increment(Increment(Increment(counts, b[0]), b[1]), b[2])
  {
    var b := BucketsOf(request);
    assert b[..2][..1] == b[..1] && b[..2][1] == b[1] && b[..1][..0] == [] && b[..1][0] == b[0];
    assert IncrementAll(counts, b[..1]) == Increment(counts, b[0]);
    assert IncrementAll(counts, b[..2]) == Increment(IncrementAll(counts, b[..1]), b[1]);
  }

  lemma TotalAfterCharge(counts: map<Bucket, nat>, request: SendRequest, p: Bucket -> bool)
    ensures var b := BucketsOf(request);
            Total(IncrementAll(counts, b), p)
              == Total(counts, p) + (if p(b[0]) then 1 else 0) + (if p(b[1]) then 1 else 0) + (if p(b[2]) then 1 else 0)
  {
    var b := BucketsOf(request);
    ThreeIncrements(counts, request);
    TotalGrows(counts, p, b[0]);
    TotalGrows(Increment(counts, b[0]), p, b[1]);
    TotalGrows(Increment(Increment(counts, b[0]), b[1]), p, b[2]);
  }

  lemma CountAfterCharge(counts: map<Bucket, nat>, request: SendRequest, bucket: Bucket)
    ensures CountOf(IncrementAll(counts, BucketsOf(request)), bucket)
              == CountOf(counts, bucket) + if bucket in BucketsOf(request) then 1 else 0
  {
    ThreeIncrements(counts, request);
  }

  lemma KeysAfterCharge(charged: map<string, SendRequest>, request: SendRequest, bucket: Bucket)
    requires request.key !in charged
    ensures |KeysCharged(charged[request.key := request], bucket)|
              == |KeysCharged(charged, bucket)| + if bucket in BucketsOf(request) then 1 else 0
  {
    var before, after := KeysCharged(charged, bucket), KeysCharged(charged[request.key := request], bucket);
    if bucket in BucketsOf(request) {
      assert after == before + {request.key};
    } else {
      assert after == before;
    }
  }

  lemma ChargeConserves(budget: Budget, request: SendRequest, next: Budget)
    requires Conserved(budget) && Charge(budget, request) == Ok(next)
    ensures Conserved(next)
  {
    if request.key !in budget.charged {
      var b := BucketsOf(request);
      forall bucket
        ensures CountsKeys(next, bucket)
      {
        assert CountsKeys(budget, bucket);
        CountAfterCharge(budget.counts, request, bucket);
        KeysAfterCharge(budget.charged, request, bucket);
        if bucket in b {
          var i :| 0 <= i < |b| && b[i] == bucket;
        }
      }
      forall ownerId, day, domain
        ensures RecipientsAddUp(next.counts, ownerId, day, domain)
      {
        assert RecipientsAddUp(budget.counts, ownerId, day, domain);
        TotalAfterCharge(budget.counts, request, RecipientsAt(ownerId, day, domain));
        CountAfterCharge(budget.counts, request, Domain(ownerId, day, domain));
      }
      forall ownerId, day
        ensures DomainsAddUp(next.counts, ownerId, day)
      {
        assert DomainsAddUp(budget.counts, ownerId, day);
        TotalAfterCharge(budget.counts, request, Domains(ownerId, day));
        TotalAfterCharge(budget.counts, request, Channels(ownerId, day));
      }
    }
  }

  /** The budget after a run of requests, refused ones included. */
  function After(requests: seq<SendRequest>): Budget {
    if requests == [] then Budget(map[], map[])
    else
      var before := After(requests[..|requests| - 1]);
      match Charge(before, requests[|requests| - 1])
      case Err(_) => before
      case Ok(next) => next
  }

  /** Conservation over every run, whatever is retried or refused. */
  lemma {:induction false} RunConserves(requests: seq<SendRequest>)
    ensures Conserved(After(requests))
  {
    if requests == [] {
      forall bucket
        ensures CountsKeys(Budget(map[], map[]), bucket)
      {
        assert KeysCharged(map[], bucket) == {};
      }
    } else {
      var before, last := After(requests[..|requests| - 1]), requests[|requests| - 1];
      RunConserves(requests[..|requests| - 1]);
      if Charge(before, last).Ok? {
        ChargeConserves(before, last, Charge(before, last).value);
      }
    }
  }

  /** A retry of a charged key might as well not have been sent, whatever is requested after it. */
  lemma {:induction false} RetriesAreFree(requests: seq<SendRequest>, retry: SendRequest, more: seq<SendRequest>)
    requires retry.key in After(requests).charged
    ensures After(requests + [retry] + more) == After(requests + more)
    decreases |more|
  {
    if more == [] {
      assert (requests + [retry])[..|requests|] == requests;
      assert requests + [retry] + more == requests + [retry] && requests + more == requests;
    } else {
      var front, last := more[..|more| - 1], more[|more| - 1];
      RetriesAreFree(requests, retry, front);
      assert requests + [retry] + more == (requests + [retry] + front) + [last];
      assert requests + more == (requests + front) + [last];
      assert (requests + [retry] + front + [last])[..|requests| + 1 + |front|] == requests + [retry] + front;
      assert (requests + front + [last])[..|requests| + |front|] == requests + front;
    }
  }

  lemma {:induction false} AfterLastAtExact(prefix: string, domain: string)
    requires '@' !in domain
    ensures AfterLastAt(prefix + "@" + domain) == domain
  {
    var recipient := prefix + "@" + domain;
    if domain != [] {
      var last := |domain| - 1;
      assert recipient[..|recipient| - 1] == prefix + "@" + domain[..last];
      AfterLastAtExact(prefix, domain[..last]);
      assert domain[..last] + [domain[last]] == domain;
    }
  }

  /** The domain is what follows the last @, and "none" without one. */
  lemma DomainExact(prefix: string, domain: string)
    requires '@' !in domain
    ensures DomainOf(prefix + "@" + domain) == domain && DomainOf(domain) == "none"
  {
    AfterLastAtExact(prefix, domain);
    assert (prefix + "@" + domain)[|prefix|] == '@';
  }

  /** The keys charged to the same owner on the same day, and of these those alike in one more respect. */
  ghost function SameDay(charged: map<string, SendRequest>, request: SendRequest): set<string> {
    set key | key in charged && charged[key].ownerId == request.ownerId && charged[key].day == request.day
  }

  ghost function ToRecipient(charged: map<string, SendRequest>, request: SendRequest): set<string> {
    set key | key in SameDay(charged, request) && charged[key].recipient == request.recipient
  }

  ghost function ToDomain(charged: map<string, SendRequest>, request: SendRequest): set<string> {
    set key | key in SameDay(charged, request) && DomainOf(charged[key].recipient) == DomainOf(request.recipient)
  }

  ghost function OverChannel(charged: map<string, SendRequest>, request: SendRequest): set<string> {
    set key | key in SameDay(charged, request) && charged[key].channelType == request.channelType
  }

  lemma BucketsCounted(charged: map<string, SendRequest>, request: SendRequest)
    ensures var b := BucketsOf(request);
            && KeysCharged(charged, b[0]) == ToRecipient(charged, request)
            && KeysCharged(charged, b[1]) == ToDomain(charged, request)
            && KeysCharged(charged, b[2]) == OverChannel(charged, request)
  {
    forall key | key in charged
      ensures var other, b := BucketsOf(charged[key]), BucketsOf(request);
              && (b[0] in other <==> b[0] == other[0]) && (b[1] in other <==> b[1] == other[1])
              && (b[2] in other <==> b[2] == other[2])
    {
    }
  }

  /**
   * A new key is refused exactly when, of the keys charged to this owner on this day, three went to the same
   * recipient, or ten to the same domain, or ten over the same channel; and there are never more.
   */
  lemma RefusedIffFull(requests: seq<SendRequest>, request: SendRequest)
    ensures var charged := After(requests).charged;
            var recipient, domain, channel :=
              |ToRecipient(charged, request)|, |ToDomain(charged, request)|, |OverChannel(charged, request)|;
            && recipient <= 3 && domain <= 10 && channel <= 10
            && (Charge(After(requests), request).Err? <==>
                  request.key !in charged && (recipient == 3 || domain == 10 || channel == 10))
  {
    var budget, b := After(requests), BucketsOf(request);
    RunConserves(requests);
    BucketsCounted(budget.charged, request);
    assert CountsKeys(budget, b[0]) && CountsKeys(budget, b[1]) && CountsKeys(budget, b[2]);
    assert Exhausted(budget.counts, b) <==>
      || CountOf(budget.counts, b[0]) >= LimitOf(b[0]) || CountOf(budget.counts, b[1]) >= LimitOf(b[1])
      || CountOf(budget.counts, b[2]) >= LimitOf(b[2]);
  }
}
