/** The lease on an analysis job: one worker at a time, three attempts between two resets. */
module AnalysisLease {
  import opened Contracts

  const LEASE_MILLIS := 90_000
  const MAX_ATTEMPTS := 3

  datatype JobStatus = Queued | Analyzing | AnalysisReady | AnalysisFailed

  datatype Job = Job(ownerId: string, status: JobStatus, attemptCount: nat, leaseUntil: Option<Time>)

  datatype StartResult = Started | Busy | AlreadyReady | AlreadyFailed

  function StartJob(job: Job, now: Time): (StartResult, Job) {
    if job.status.AnalysisReady? then (AlreadyReady, job)
    else if job.status.AnalysisFailed? then (AlreadyFailed, job)
    else if job.status.Analyzing? && job.leaseUntil.Some? && now < job.leaseUntil.value then (Busy, job)
    else if job.attemptCount >= MAX_ATTEMPTS then
      (AlreadyFailed, job.(status := AnalysisFailed, leaseUntil := None))
    else
      (Started, job.(status := Analyzing, attemptCount := job.attemptCount + 1,
                     leaseUntil := Some(now + LEASE_MILLIS)))
  }

  function FailAttempt(job: Job): Job {
    job.(status := if job.attemptCount >= MAX_ATTEMPTS then AnalysisFailed else Queued, leaseUntil := None)
  }

  /** What a retry writes over the FAILED job it has read, whatever the job has become since. */
  function Requeue(job: Job): Job {
    job.(status := Queued, attemptCount := 0, leaseUntil := None)
  }

  function FinishJob(job: Job): Job {
    job.(status := AnalysisReady, leaseUntil := None)
  }

  /** A merge onto a document that does not exist leaves a fragment of one, which does not parse. */
  datatype Document = Absent | Fragment | Whole(job: Job)

  /** The store of one job. */
  class AnalysisStore {
    var document: Document

    constructor ()
      ensures document == Absent
    {
      document := Absent;
    }

    method Create(ownerId: string) returns (duplicate: Result<bool>)
      modifies this
      ensures match old(document)
              case Absent => duplicate == Ok(false) && document == Whole(Job(ownerId, Queued, 0, None))
              case Fragment => duplicate.Err? && document == Fragment
              case Whole(_) => duplicate == Ok(true) && document == old(document)
    {
      match document
      case Whole(_) => return Ok(true);
      case Fragment => return Err("ANALYSIS_DOCUMENT_INVALID");
      case Absent =>
        document := Whole(Job(ownerId, Queued, 0, None));
        duplicate := Ok(false);
    }

    /** `parseAnalysisDocument`. */
    method Parse() returns (result: Result<Job>)
      ensures match document
              case Absent => result == Err("ANALYSIS_JOB_NOT_FOUND")
              case Fragment => result.Err?
              case Whole(job) => result == Ok(job)
    {
      match document
      case Absent => return Err("ANALYSIS_JOB_NOT_FOUND");
      case Fragment => return Err("ANALYSIS_DOCUMENT_INVALID");
      case Whole(job) => return Ok(job);
    }

    method Start(now: Time) returns (result: Result<StartResult>)
      modifies this
      ensures old(document).Absent? ==> result == Err("ANALYSIS_JOB_NOT_FOUND")
      ensures !old(document).Whole? ==> result.Err? && document == old(document)
      ensures old(document).Whole? ==>
        result.Ok? && document.Whole? && (result.value, document.job) == StartJob(old(document).job, now)
      ensures old(document).Whole? ==>
        var Job(ownerId, status, attempts, lease) := old(document).job;
        var leased := status.Analyzing? && lease.Some? && now < lease.value;
        && (result == Ok(AlreadyReady) <==> status.AnalysisReady?)
        && (result == Ok(Busy) <==> leased)
        && (result == Ok(AlreadyFailed) <==>
              status.AnalysisFailed? || (!status.AnalysisReady? && !leased && 3 <= attempts))
        && document.job == (match result.value
                            case Started => Job(ownerId, Analyzing, attempts + 1, Some(now + 90_000))
                            case AlreadyFailed => if status.AnalysisFailed? then old(document).job
                                                  else Job(ownerId, AnalysisFailed, attempts, None)
                            case AlreadyReady | Busy => old(document).job)
    {
      var parsed := Parse();
      if parsed.Err? { return Err(parsed.error); }
      var current := parsed.value;
      if current.status.AnalysisReady? { return Ok(AlreadyReady); }
      if current.status.AnalysisFailed? { return Ok(AlreadyFailed); }
      if current.status.Analyzing? && current.leaseUntil.Some? && current.leaseUntil.value > now { return Ok(Busy); }
      if current.attemptCount >= MAX_ATTEMPTS {
        document := Whole(current.(status := AnalysisFailed, leaseUntil := None));
        return Ok(AlreadyFailed);
      }
      document := Whole(current.(status := Analyzing, attemptCount := current.attemptCount + 1,
                                 leaseUntil := Some(now + LEASE_MILLIS)));
      result := Ok(Started);
    }

    method MarkReady()
      modifies this
      ensures document == match old(document)
                          case Whole(job) => Whole(job.(status := AnalysisReady, leaseUntil := None))
                          case _ => Fragment
    {
      document := match document
                  case Whole(job) => Whole(job.(status := AnalysisReady, leaseUntil := None))
                  case _ => Fragment;
    }

    method MarkAttemptFailed() returns (result: Result<Job>)
      modifies this
      ensures old(document).Absent? ==> result == Err("ANALYSIS_JOB_NOT_FOUND")
      ensures !old(document).Whole? ==> result.Err? && document == old(document)
      ensures old(document).Whole? ==>
        result == Ok(FailAttempt(old(document).job)) && document == Whole(FailAttempt(old(document).job))
      ensures old(document).Whole? ==>
        var Job(ownerId, _, attempts, _) := old(document).job;
        document.job == Job(ownerId, if attempts < 3 then Queued else AnalysisFailed, attempts, None)
    {
      result := Parse();
      if result.Ok? {
        var terminal := result.value.attemptCount >= MAX_ATTEMPTS;
        var next := result.value.(status := if terminal then AnalysisFailed else Queued, leaseUntil := None);
        document := Whole(next);
        result := Ok(next);
      }
    }

    /** The query finds a document by its case, which a fragment does not name. */
    method GetOwnedCase(ownerId: string) returns (found: Option<Job>)
      ensures found == if document.Whole? && document.job.ownerId == ownerId then Some(document.job) else None
    {
      found := if document.Whole? && document.job.ownerId == ownerId then Some(document.job) else None;
    }

    /** The second half of a retry: a plain write, not a transaction with the read. */
    method WriteRetry(existing: Job) returns (next: Job)
      modifies this
      ensures next == Requeue(existing) == Job(existing.ownerId, Queued, 0, None) && document == Whole(next)
    {
      next := existing.(status := Queued, attemptCount := 0, leaseUntil := None);
      document := Whole(next);
    }

    method RetryOwned(ownerId: string) returns (result: Result<Job>)
      modifies this
      ensures if !old(document).Whole? || old(document).job.ownerId != ownerId
              then result == Err("ANALYSIS_JOB_NOT_FOUND") && document == old(document)
              else result.Ok? && document == Whole(result.value)
                   && result.value == if old(document).job.status.AnalysisFailed? then Requeue(old(document).job)
                                      else old(document).job
    {
      var existing := GetOwnedCase(ownerId);
      if existing.None? { return Err("ANALYSIS_JOB_NOT_FOUND"); }
      if !existing.value.status.AnalysisFailed? { return Ok(existing.value); }
      var next := WriteRetry(existing.value);
      result := Ok(next);
    }
  }

  // Runs: any deliveries, crashes, reports and retries, at times that do not go back.

  /** A retry reads the job and, when it has found it FAILED, writes it at some later time. */
  datatype Step =
    | Deliver(worker: nat, now: Time)
    | ReportReady(worker: nat, now: Time)
    | ReportFailed(worker: nat, now: Time)
    | RetryRead(now: Time)
    | RetryWrite(now: Time)

  /**
   * `holders` are the workers told STARTED that have not reported, with the end of their lease;
   * `retries` counts the retries that have found the job FAILED and have not yet written it.
   */
  datatype World = World(job: Job, holders: map<nat, Time>, retries: nat, started: nat, resets: nat, clock: Time)

  function Fresh(ownerId: string, clock: Time): World {
    World(Job(ownerId, Queued, 0, None), map[], 0, 0, 0, clock)
  }

  predicate Holds(w: World, worker: nat, at: Time) {
    worker in w.holders && at < w.holders[worker]
  }

  /** Any worker may report at any time: early, late, twice, or without having been told STARTED. */
  predicate Feasible(w: World, step: Step) {
    && w.clock <= step.now
    && (step.Deliver? ==> step.worker !in w.holders)
    && (step.RetryWrite? ==> w.retries > 0)
  }

  /** A worker other than the one that acts holds the job at the time of the step. */
  predicate Disturbs(w: World, step: Step) {
    exists v <- w.holders.Keys :: Holds(w, v, step.now) && (step.ReportFailed? ==> v != step.worker)
  }

  /** No failure is reported over another holder, and no stale retry is written over one. */
  predicate Safe(w: World, step: Step) {
    && (step.ReportFailed? ==> !Disturbs(w, step))
    && (step.RetryWrite? ==> w.job.status.AnalysisFailed? || !Disturbs(w, step))
  }

  function Take(w: World, step: Step): World {
    match step
    case Deliver(worker, now) =>
      var (result, job) := StartJob(w.job, now);
      if result.Started?
      then w.(job := job, holders := w.holders[worker := now + LEASE_MILLIS], started := w.started + 1, clock := now)
      else w.(job := job, clock := now)
    case ReportReady(worker, now) => w.(job := FinishJob(w.job), holders := w.holders - {worker}, clock := now)
    case ReportFailed(worker, now) => w.(job := FailAttempt(w.job), holders := w.holders - {worker}, clock := now)
    case RetryRead(now) => w.(retries := w.retries + (if w.job.status.AnalysisFailed? then 1 else 0), clock := now)
    case RetryWrite(now) =>
      w.(job := Requeue(w.job), retries := if w.retries > 0 then w.retries - 1 else 0, resets := w.resets + 1,
         clock := now)
  }

  /** The steps, taken in order, lead from `w` to `t`. */
  ghost predicate Run(w: World, steps: seq<Step>, t: World)
    decreases |steps|
  {
    if steps == [] then w == t
    else Feasible(w, steps[0]) && Run(Take(w, steps[0]), steps[1..], t)
  }

  /** The same, every step being safe where it is taken. */
  ghost predicate SafeRun(w: World, steps: seq<Step>, t: World)
    decreases |steps|
  {
    if steps == [] then w == t
    else Feasible(w, steps[0]) && Safe(w, steps[0]) && SafeRun(Take(w, steps[0]), steps[1..], t)
  }

  // Attempts, in every run.

  ghost predicate AttemptsOk(w: World) {
    w.job.attemptCount <= MAX_ATTEMPTS && w.started + MAX_ATTEMPTS - w.job.attemptCount <= MAX_ATTEMPTS * (1 + w.resets)
  }

  lemma {:induction false} RunKeepsAttempts(w: World, steps: seq<Step>, t: World)
    requires AttemptsOk(w) && Run(w, steps, t)
    ensures AttemptsOk(t)
    decreases |steps|
  {
    if steps != [] {
      RunKeepsAttempts(Take(w, steps[0]), steps[1..], t);
    }
  }

  /** Attempts stay within three, and at most three are started for every reset and the first. */
  lemma AttemptsBounded(ownerId: string, clock: Time, steps: seq<Step>, t: World)
    requires Run(Fresh(ownerId, clock), steps, t)
    ensures t.job.attemptCount <= 3 && t.started <= 3 * (1 + t.resets)
  {
    RunKeepsAttempts(Fresh(ownerId, clock), steps, t);
  }

  // The lease.

  /** A worker whose lease has not ended is the one the job is leased to, or the job is READY. */
  ghost predicate Exclusive(w: World) {
    && (forall v <- w.holders.Keys :: w.clock < w.holders[v] ==>
          w.job.status.AnalysisReady? || (w.job.status.Analyzing? && w.job.leaseUntil == Some(w.holders[v])))
    && AtMostOne(w, w.clock)
  }

  ghost predicate AtMostOne(w: World, at: Time) {
    forall u, v | Holds(w, u, at) && Holds(w, v, at) :: u == v
  }

  lemma StepKeepsExclusive(w: World, step: Step)
    requires Exclusive(w) && Feasible(w, step) && Safe(w, step)
    ensures Exclusive(Take(w, step))
  {
    var after := Take(w, step);
    forall u, v | Holds(after, u, after.clock) && Holds(after, v, after.clock)
      ensures u == v
    {
      assert u in w.holders && Holds(w, u, step.now) ==> Holds(w, u, w.clock);
      assert v in w.holders && Holds(w, v, step.now) ==> Holds(w, v, w.clock);
    }
  }

  lemma {:induction false} RunKeepsExclusive(w: World, steps: seq<Step>, t: World)
    requires Exclusive(w) && SafeRun(w, steps, t)
    ensures Exclusive(t)
    decreases |steps|
  {
    if steps != [] {
      StepKeepsExclusive(w, steps[0]);
      RunKeepsExclusive(Take(w, steps[0]), steps[1..], t);
    }
  }

  /** While no report and no retry disturbs a holder, no two workers hold the job at one time. */
  lemma OneHolder(ownerId: string, clock: Time, steps: seq<Step>, t: World, u: nat, v: nat, at: Time)
    requires SafeRun(Fresh(ownerId, clock), steps, t) && t.clock <= at
    ensures Holds(t, u, at) && Holds(t, v, at) ==> u == v
    ensures Holds(t, u, at) ==> t.job.status.Analyzing? || t.job.status.AnalysisReady?
  {
    RunKeepsExclusive(Fresh(ownerId, clock), steps, t);
    assert Holds(t, u, at) && Holds(t, v, at) ==> Holds(t, u, t.clock) && Holds(t, v, t.clock);
  }

  /** While every step is safe and a worker holds the job, no delivery starts it and no new retry is let through. */
  lemma HolderIsAlone(ownerId: string, clock: Time, steps: seq<Step>, t: World, u: nat, now: Time)
    requires SafeRun(Fresh(ownerId, clock), steps, t) && t.clock <= now && Holds(t, u, now)
    ensures StartJob(t.job, now) == (if t.job.status.AnalysisReady? then AlreadyReady else Busy, t.job)
    ensures Take(t, RetryRead(now)).retries == t.retries
  {
    RunKeepsExclusive(Fresh(ownerId, clock), steps, t);
  }

  /** Whatever follows safely, no two workers ever hold the job at one time. */
  ghost predicate StaysExclusive(w: World) {
    forall rest: seq<Step>, t: World | SafeRun(w, rest, t) :: AtMostOne(t, t.clock)
  }

  lemma {:induction false} Unused(workers: set<nat>) returns (worker: nat)
    ensures forall v <- workers :: v < worker
  {
    if workers == {} {
      worker := 0;
    } else {
      var some :| some in workers;
      var rest := Unused(workers - {some});
      worker := if rest <= some then some + 1 else rest;
      assert forall v <- workers :: v == some || v in workers - {some};
    }
  }

  /** A job that is queued while a worker holds it is started by a second one. */
  lemma QueuedBreaks(w: World, v: nat, now: Time) returns (step: Step)
    requires w.clock <= now && w.job.status.Queued? && w.job.attemptCount < MAX_ATTEMPTS && Holds(w, v, now)
    ensures step.Deliver? && step.now == now && Feasible(w, step) && Safe(w, step)
    ensures !AtMostOne(Take(w, step), now)
  {
    var second := Unused(w.holders.Keys);
    step := Deliver(second, now);
    assert Holds(Take(w, step), v, now) && Holds(Take(w, step), second, now);
  }

  lemma QueuedIsUnsafe(w: World, v: nat)
    requires w.job.status.Queued? && w.job.attemptCount < MAX_ATTEMPTS && Holds(w, v, w.clock)
    ensures !StaysExclusive(w)
  {
    var step := QueuedBreaks(w, v, w.clock);
    var t := Take(w, step);
    assert SafeRun(t, [step][1..], t);
    assert SafeRun(w, [step], t) && !AtMostOne(t, t.clock);
  }

  lemma FailedIsUnsafe(w: World, v: nat)
    requires w.job.status.AnalysisFailed? && Holds(w, v, w.clock)
    ensures !StaysExclusive(w)
  {
    var read, write := RetryRead(w.clock), RetryWrite(w.clock);
    var a := Take(w, read);
    var b := Take(a, write);
    var step := QueuedBreaks(b, v, w.clock);
    var t := Take(b, step);
    var steps := [read, write, step];
    assert steps[1..] == [write, step] && steps[1..][1..] == [step] && [step][1..] == [];
    assert SafeRun(b, [step], t);
    assert SafeRun(a, steps[1..], t);
    assert SafeRun(w, steps, t) && !AtMostOne(t, t.clock);
  }

  /**
   * In every world, however it was reached, a failure report, or the late write of a retry, leaves the
   * lease exclusive in every safe continuation if and only if no other worker holds the job at that time.
   */
  lemma ReleaseIsSafeIff(w: World, step: Step)
    requires Feasible(w, step) && (step.ReportFailed? || step.RetryWrite?)
    ensures StaysExclusive(Take(w, step)) <==> !Disturbs(w, step)
  {
    var after := Take(w, step);
    if Disturbs(w, step) {
      var v :| v in w.holders.Keys && Holds(w, v, step.now) && (step.ReportFailed? ==> v != step.worker);
      assert Holds(after, v, after.clock);
      if after.job.status.Queued? && after.job.attemptCount < MAX_ATTEMPTS {
        QueuedIsUnsafe(after, v);
      } else {
        FailedIsUnsafe(after, v);
      }
    } else {
      assert forall v :: Holds(after, v, after.clock) ==> Holds(w, v, step.now);
      assert forall v :: !Holds(after, v, after.clock);
      forall rest: seq<Step>, t: World | SafeRun(after, rest, t)
        ensures AtMostOne(t, t.clock)
      {
        RunKeepsExclusive(after, rest, t);
      }
    }
  }

  // Finality.

  /** The job is READY before, between and after the steps. */
  ghost predicate StaysReady(w: World, steps: seq<Step>)
    decreases |steps|
  {
    w.job.status.AnalysisReady? && (steps == [] || StaysReady(Take(w, steps[0]), steps[1..]))
  }

  /**
   * READY is final exactly while nobody reports a failure and no retry from before is written: neither
   * of the two looks at the status.
   */
  lemma {:induction false} ReadyIsFinalIff(w: World, steps: seq<Step>, t: World)
    requires w.job.status.AnalysisReady? && Run(w, steps, t)
    ensures StaysReady(w, steps) <==> forall step <- steps :: !step.ReportFailed? && !step.RetryWrite?
    decreases |steps|
  {
    if steps != [] {
      var step := steps[0];
      if !step.ReportFailed? && !step.RetryWrite? {
        ReadyIsFinalIff(Take(w, step), steps[1..], t);
        assert forall other :: other in steps <==> other == step || other in steps[1..];
      }
    }
  }
}
