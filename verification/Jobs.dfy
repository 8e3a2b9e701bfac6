/** What a job is, as a value, and what each statement of the job store does to one row
    (core/jobs.py, and the predicates and `values` clauses of adapters/postgres/job_store.py). */
module Jobs {
  import opened Basics

  datatype JobState = Queued | Running | Done | Failed | Dead | Cancelled
  {
    predicate Terminal() {
      this in {Done, Dead, Cancelled}
    }
  }

  datatype JobRequest = JobRequest(
    kind: string,
    payload: string,
    sessionId: Option<Uuid>,
    idempotencyKey: string,
    maxAttempts: int,
    delay: Time)

  datatype Job = Job(
    id: Uuid,
    kind: string,
    payload: string,
    state: JobState,
    attempts: int,
    maxAttempts: int,
    sessionId: Option<Uuid>,
    idempotencyKey: string,
    resultRef: Option<string>,
    error: Option<string>,
    cancelRequested: bool)

  /** A claim on a job. Its `id` is the fencing token. */
  datatype Lease = Lease(id: Uuid, job: Job, owner: string, expiresAt: Time)
  {
    predicate Expired(now: Time) {
      now >= expiresAt
    }
  }

  /** One state transition, as a numbered row of a session's log. */
  datatype JobEvent = JobEvent(seqNo: nat, jobId: Uuid, state: JobState)

  /** One row of the `jobs` table: the job, and the columns that never leave the store. */
  datatype Row = Row(
    job: Job,
    runAfter: Time,
    createdAt: Time,
    publishedAt: Option<Time>,
    leaseId: Option<Uuid>,
    leaseExpiresAt: Option<Time>,
    leaseOwner: Option<string>)

  const LEASE_EXPIRED: string := "lease expired with no attempts remaining"

  // ----- which rows a statement selects

  /** Queued, or failed and therefore queued again behind its backoff. */
  predicate InQueue(r: Row) {
    r.job.state in {Queued, Failed}
  }

  predicate Waiting(r: Row, now: Time) {
    InQueue(r) && r.runAfter <= now
  }

  /** The deadline test alone; a null deadline compares as false. */
  predicate PastDeadline(r: Row, now: Time) {
    r.job.state == Running && r.leaseExpiresAt.Some? && r.leaseExpiresAt.value < now
  }

  predicate Lapsed(r: Row, now: Time) {
    PastDeadline(r, now) && r.job.attempts < r.job.maxAttempts && !r.job.cancelRequested
  }

  predicate Claimable(r: Row, now: Time) {
    Waiting(r, now) || Lapsed(r, now)
  }

  predicate RetireDue(r: Row, now: Time) {
    PastDeadline(r, now) && (r.job.attempts >= r.job.maxAttempts || r.job.cancelRequested)
  }

  predicate Unpublished(r: Row, olderThan: Time, now: Time) {
    r.publishedAt.None? && InQueue(r) && r.runAfter < now - olderThan
  }

  predicate Holds(r: Row, token: Uuid) {
    r.leaseId == Some(token)
  }

  // ----- what a statement writes

  function NewRow(id: Uuid, q: JobRequest, now: Time): Row {
    Row(Job(id, q.kind, q.payload, Queued, 0, q.maxAttempts, q.sessionId, q.idempotencyKey, None, None, false),
        now + q.delay, now, None, None, None, None)
  }

  function Claimed(r: Row, token: Uuid, owner: string, lease: Time, now: Time): Row {
    r.(job := r.job.(state := Running, attempts := r.job.attempts + 1),
       leaseId := Some(token), leaseExpiresAt := Some(now + lease), leaseOwner := Some(owner))
  }

  function Unleased(r: Row): Row {
    r.(leaseId := None, leaseExpiresAt := None, leaseOwner := None)
  }

  function Extended(r: Row, span: Time, now: Time): Row {
    r.(leaseExpiresAt := Some(now + span))
  }

  function Acked(r: Row, resultRef: Option<string>): Row {
    Unleased(r.(job := r.job.(state := Done, resultRef := resultRef)))
  }

  /** The state a returned job goes to: cancelled beats dead, and dead beats another attempt. */
  function ReturnState(j: Job): JobState {
    if j.cancelRequested then Cancelled
    else if j.attempts >= j.maxAttempts then Dead
    else Failed
  }

  function Nacked(r: Row, error: string, retryIn: Option<Time>, now: Time): Row {
    var delay := if retryIn.Some? then retryIn.value else 0;
    Unleased(r.(
      job := r.job.(state := ReturnState(r.job), error := Some(error)),
      runAfter := now + delay,
      publishedAt := if !r.job.cancelRequested && r.job.attempts < r.job.maxAttempts then None else r.publishedAt))
  }

  function CancelAsked(r: Row): Row {
    if r.job.state.Terminal() then r
    else r.(job := r.job.(cancelRequested := true,
                          state := if r.job.state == Running then Running else Cancelled))
  }

  function Retired(r: Row): Row {
    Unleased(r.(job :=
      if r.job.cancelRequested then r.job.(state := Cancelled)
      else r.job.(state := Dead, error := if r.job.error.Some? then r.job.error else Some(LEASE_EXPIRED))))
  }

  // ----- what is true of every row

  /** The invariant every reachable row satisfies. */
  predicate RowInv(r: Row) {
    && 0 <= r.job.attempts <= r.job.maxAttempts
    && 0 < r.job.maxAttempts
    && (r.job.state == Running <==> r.leaseId.Some?)
    && (r.leaseId.Some? <==> r.leaseExpiresAt.Some?)
    && (r.leaseId.Some? <==> r.leaseOwner.Some?)
    && (r.job.state == Running ==> 1 <= r.job.attempts)
    && (r.job.state == Queued ==> r.job.attempts == 0)
    && (InQueue(r) ==> r.job.attempts < r.job.maxAttempts)
    && (r.job.cancelRequested ==> r.job.state in {Running, Cancelled, Done})
    && (r.job.state == Cancelled ==> r.job.cancelRequested)
    && (r.job.resultRef.Some? ==> r.job.state == Done)
  }
}
