/**
  The job table and its one worker cycle: src/assistant/jobs/models.py, repository.py, worker.py.
  Timestamps are stored as the text `isoformat()` prints, and compared as text.
 */
module JobTable {
  import opened Common
  import opened IsoTime

  datatype JobStatus = Queued | Running | WaitingConfirmation | Succeeded | Failed | Cancelled | Cancelling

  function ValidTransitions(s: JobStatus): set<JobStatus> {
    match s
    case Queued => {Running, Cancelled}
    case Running => {WaitingConfirmation, Succeeded, Failed, Cancelling}
    case WaitingConfirmation => {Running, Cancelled, Failed}
    case Failed => {Queued, Cancelled}
    case Cancelling => {Cancelled}
    case Succeeded => {}
    case Cancelled => {}
  }

  datatype JobRecord = JobRecord(
    sessionId: string,
    runId: string,
    status: JobStatus,
    reminder: bool,
    content: string,
    scheduledFor: Option<Instant>,
    createdAt: Instant,
    updatedAt: Instant,
    attempts: nat,
    lastError: Option<string>)

  datatype JobError = JobNotFound(id: string) | InvalidJobTransition(from: JobStatus, to: JobStatus) | DuplicateJob(id: string)

  type Jobs = map<string, JobRecord>

  // ----- one checked status change -----

  function Moved(job: JobRecord, target: JobStatus, error: Option<string>, now: Instant): JobRecord {
    job.(status := target, updatedAt := now,
         attempts := if target == Running then job.attempts + 1 else job.attempts,
         lastError := if target == Failed then error else None)
  }

  function TransitionJob(jobs: Jobs, id: string, target: JobStatus, error: Option<string>, now: Instant): Result<Jobs, JobError> {
    if id !in jobs then Err(JobNotFound(id))
    else if target !in ValidTransitions(jobs[id].status) then Err(InvalidJobTransition(jobs[id].status, target))
    else Ok(jobs[id := Moved(jobs[id], target, error, now)])
  }

  // ----- selection -----

  function DueText(job: JobRecord): string {
    if job.scheduledFor.Some? then Iso(job.scheduledFor.value) else Iso(job.createdAt)
  }

  /** The WHERE clause, on text. */
  predicate SelectedText(job: JobRecord, now: Instant) {
    job.status == Queued && (job.scheduledFor.Some? ==> TextLeq(Iso(job.scheduledFor.value), Iso(now)))
  }

  /** The ORDER BY clause, on text: `a` may come before `b`. */
  predicate OrderedText(a: JobRecord, b: JobRecord) {
    TextLess(DueText(a), DueText(b)) || (DueText(a) == DueText(b) && TextLeq(Iso(a.createdAt), Iso(b.createdAt)))
  }

  /** The same in terms of instants. */
  function Due(job: JobRecord): Instant {
    if job.scheduledFor.Some? then job.scheduledFor.value else job.createdAt
  }

  predicate IsDue(job: JobRecord, now: Instant) {
    job.status == Queued && (job.scheduledFor.Some? ==> NotAfter(job.scheduledFor.value, now))
  }

  predicate NotLater(a: JobRecord, b: JobRecord) {
    Before(Due(a), Due(b)) || (Due(a) == Due(b) && NotAfter(a.createdAt, b.createdAt))
  }

  lemma TextSelectsByTime(a: JobRecord, b: JobRecord, now: Instant)
    ensures SelectedText(a, now) <==> IsDue(a, now)
    ensures OrderedText(a, b) <==> NotLater(a, b)
  {
    if a.scheduledFor.Some? {
      IsoOrder(a.scheduledFor.value, now);
    }
    IsoOrder(Due(a), Due(b));
    IsoOrder(a.createdAt, b.createdAt);
  }

  predicate TimeHasCome(job: JobRecord, now: Instant) {
    job.status == Queued && (job.scheduledFor.Some? ==> job.scheduledFor.value.Micros() <= now.Micros())
  }

  /** By the time it was scheduled for, or else created, and at equal times by the time of creation. */
  predicate ComesFirst(a: JobRecord, b: JobRecord) {
    var mine := if a.scheduledFor.Some? then a.scheduledFor.value else a.createdAt;
    var its := if b.scheduledFor.Some? then b.scheduledFor.value else b.createdAt;
    mine.Micros() < its.Micros() || (mine == its && a.createdAt.Micros() <= b.createdAt.Micros())
  }

  /** The next job is one whose time has come, and no other such job comes before it. */
  lemma NextExactly(jobs: Jobs, now: Instant, id: string)
    ensures IsNext(jobs, now, id) <==>
      && id in jobs && TimeHasCome(jobs[id], now)
      && forall other :: other in jobs && TimeHasCome(jobs[other], now) ==> ComesFirst(jobs[id], jobs[other])
  {
    assert forall other :: other in jobs ==> (IsDue(jobs[other], now) <==> TimeHasCome(jobs[other], now));
    assert forall other :: id in jobs && other in jobs ==> (NotLater(jobs[id], jobs[other]) <==> ComesFirst(jobs[id], jobs[other]));
  }

  lemma NotLaterChains(a: JobRecord, b: JobRecord, c: JobRecord)
    ensures NotLater(a, b) || NotLater(b, a)
    ensures NotLater(a, b) && NotLater(b, c) ==> NotLater(a, c)
  {
    MicrosOrder(Due(a), Due(b));
  }

  lemma NotLaterIsAnOrder()
    ensures forall a, b :: NotLater(a, b) || NotLater(b, a)
    ensures forall a, b, c :: NotLater(a, b) && NotLater(b, c) ==> NotLater(a, c)
  {
    forall a, b ensures NotLater(a, b) || NotLater(b, a) {
      NotLaterChains(a, b, b);
    }
    forall a, b, c | NotLater(a, b) && NotLater(b, c) ensures NotLater(a, c) {
      NotLaterChains(a, b, c);
    }
  }

  /** What `next_queued` may return: a queued job that is due, and none that is due comes before it. */
  predicate IsNext(jobs: Jobs, now: Instant, id: string) {
    && id in jobs && IsDue(jobs[id], now)
    && forall other :: other in jobs && IsDue(jobs[other], now) ==> NotLater(jobs[id], jobs[other])
  }

  class JobRepository {
    var jobs: Jobs

    constructor ()
      ensures jobs == map[]
    {
      jobs := map[];
    }

    /** `create`; a second insert under one primary key is refused by the database. */
    method Create(id: string, sessionId: string, runId: string, reminder: bool, content: string,
                  scheduledFor: Option<Instant>, now: Instant) returns (r: Result<JobRecord, JobError>)
      modifies this`jobs
      ensures id in old(jobs) ==> r == Err(DuplicateJob(id)) && jobs == old(jobs)
      ensures id !in old(jobs) ==>
        && r == Ok(JobRecord(sessionId, runId, Queued, reminder, content, scheduledFor, now, now, 0, None))
        && jobs == old(jobs)[id := r.value]
    {
      if id in jobs {
        return Err(DuplicateJob(id));
      }
      var job := JobRecord(sessionId, runId, Queued, reminder, content, scheduledFor, now, now, 0, None);
      jobs := jobs[id := job];
      r := Ok(job);
    }

    /** Whether a row is selected, and may come before the best row so far. */
    static method ComesNext(job: JobRecord, best: Option<JobRecord>, now: Instant) returns (b: bool)
      ensures b == (IsDue(job, now) && (best.None? || NotLater(job, best.value)))
    {
      TextSelectsByTime(job, if best.Some? then best.value else job, now);
      b := SelectedText(job, now) && (best.None? || OrderedText(job, best.value));
    }

    /** `next_queued`: the table is scanned once and the texts are compared. */
    method NextQueued(now: Instant) returns (next: Option<string>)
      ensures next.Some? ==> IsNext(jobs, now, next.value)
      ensures next.None? ==> forall id :: id in jobs ==> !IsDue(jobs[id], now)
    {
      next := None;
      var rest := jobs.Keys;
      while rest != {}
        invariant rest <= jobs.Keys
        invariant next.Some? ==> next.value in jobs && IsDue(jobs[next.value], now)
        invariant forall id :: id in jobs && id !in rest && IsDue(jobs[id], now) ==>
          next.Some? && NotLater(jobs[next.value], jobs[id])
        decreases rest
      {
        var id :| id in rest;
        var better := ComesNext(jobs[id], if next.Some? then Some(jobs[next.value]) else None, now);
        NotLaterIsAnOrder();
        if better {
          next := Some(id);
        }
        rest := rest - {id};
      }
    }

    /** `transition`. */
    method Transition(id: string, target: JobStatus, error: Option<string>, now: Instant) returns (r: Result<JobRecord, JobError>)
      modifies this`jobs
      ensures
        match TransitionJob(old(jobs), id, target, error, now)
        case Ok(after) => jobs == after && id in after && r == Ok(after[id])
        case Err(e) => jobs == old(jobs) && r == Err(e)
    {
      if id !in jobs {
        return Err(JobNotFound(id));
      }
      var current := jobs[id];
      if target !in ValidTransitions(current.status) {
        return Err(InvalidJobTransition(current.status, target));
      }
      var attempts := current.attempts;
      if target == Running {
        attempts := attempts + 1;
      }
      var lastError := if target == Failed then error else None;
      jobs := jobs[id := current.(status := target, updatedAt := now, attempts := attempts, lastError := lastError)];
      r := Ok(jobs[id]);
    }
  }

  // ----- the worker -----

  /** What handling a request gives, or that it raises. */
  datatype Handled = Raised(exception: string) | Response(waiting: bool, ok: bool)

  /** The status a worker closes a handled job with. */
  function Closing(h: Handled): (JobStatus, Option<string>) {
    match h
    case Raised(e) => (Failed, Some(e))
    case Response(waiting, ok) =>
      if waiting then (WaitingConfirmation, None)
      else if ok then (Succeeded, None)
      else (Failed, Some("agent_response_failed"))
  }

  /** How a job ends: a reminder is done; any other waits if its response waits, and else succeeds or fails as it says. */
  predicate ClosesAs(reminder: bool, h: Handled, target: JobStatus, error: Option<string>) {
    if reminder then target == Succeeded && error == None
    else
      match h
      case Raised(e) => target == Failed && error == Some(e)
      case Response(waiting, ok) =>
        && (waiting ==> target == WaitingConfirmation && error == None)
        && (!waiting && ok ==> target == Succeeded && error == None)
        && (!waiting && !ok ==> target == Failed && error == Some("agent_response_failed"))
  }

  /** A reminder is notified and closed as done; anything else goes to the service. */
  function ClosingOf(job: JobRecord, h: Handled): (JobStatus, Option<string>) {
    if job.reminder then (Succeeded, None) else Closing(h)
  }

  lemma ClosingIsRight(job: JobRecord, h: Handled)
    ensures ClosesAs(job.reminder, h, ClosingOf(job, h).0, ClosingOf(job, h).1)
  {
  }

  lemma ClosingIsLegal(job: JobRecord, h: Handled)
    ensures ClosingOf(job, h).0 in ValidTransitions(Running)
  {
  }

  /**
    Which orders are carried out: a queued or waiting job can be started, only a failed one queued again, and one that
    neither runs nor has ended well can be cancelled; only a running job can be closed, except that a waiting one can fail.
   */
  lemma OrdersSucceedExactly(jobs: Jobs, id: string, target: JobStatus, error: Option<string>, now: Instant)
    ensures TransitionJob(jobs, id, target, error, now).Ok? <==>
      id in jobs &&
      var s := jobs[id].status;
      match target
      case Queued => s == Failed
      case Running => s == Queued || s == WaitingConfirmation
      case WaitingConfirmation => s == Running
      case Succeeded => s == Running
      case Failed => s == Running || s == WaitingConfirmation
      case Cancelled => s == Queued || s == WaitingConfirmation || s == Failed || s == Cancelling
      case Cancelling => s == Running
  {
  }

  /** What an order that is carried out does: it counts the starts, and keeps an error only for a failure. */
  lemma OrdersDoExactly(jobs: Jobs, id: string, target: JobStatus, error: Option<string>, now: Instant)
    requires TransitionJob(jobs, id, target, error, now).Ok?
    ensures
      var before, after := jobs[id], TransitionJob(jobs, id, target, error, now).value;
      && after == jobs[id := after[id]] && id in after
      && after[id].status == target && after[id].updatedAt == now
      && after[id].attempts == before.attempts + (if target == Running then 1 else 0)
      && after[id].lastError == (if target == Failed then error else None)
      && after[id].(status := before.status, updatedAt := before.updatedAt, attempts := before.attempts, lastError := before.lastError) == before
  {
  }

  class JobWorker {
    const repository: JobRepository

    constructor (repository: JobRepository)
      ensures this.repository == repository
    {
      this.repository := repository;
    }

    /**
      `run_once` with nobody else using the table: the least due job, if any, is run and closed.
      `h` is what handling the request gives; a reminder whose notification raises is not closed.
     */
    method RunOnce(selected: Instant, claimed: Instant, closed: Instant, h: Handled, notifyRaises: bool)
      returns (id: Option<string>)
      modifies repository
      ensures id.None? ==>
        repository.jobs == old(repository.jobs) &&
        forall other :: other in repository.jobs ==> !IsDue(repository.jobs[other], selected)
      ensures id.Some? ==>
        var before := old(repository.jobs);
        && IsNext(before, selected, id.value)
        && var job := before[id.value];
           var started := job.(status := Running, attempts := job.attempts + 1, lastError := None);
           if job.reminder && notifyRaises then repository.jobs == before[id.value := started.(updatedAt := claimed)]
           else
             id.value in repository.jobs &&
             var end := repository.jobs[id.value];
             && ClosesAs(job.reminder, h, end.status, end.lastError)
             && repository.jobs == before[id.value := started.(status := end.status, lastError := end.lastError, updatedAt := closed)]
    {
      id := repository.NextQueued(selected);
      if id.Some? {
        var running := repository.Transition(id.value, Running, None, claimed);
        var job := running.value;
        if job.reminder {
          if !notifyRaises {
            var _ := repository.Transition(id.value, Succeeded, None, closed);
          }
        } else {
          var end := Closing(h);
          var _ := repository.Transition(id.value, end.0, end.1, closed);
        }
      }
    }
  }
}
