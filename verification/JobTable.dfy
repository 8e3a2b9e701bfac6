/** The `jobs` table as a transition system: every statement of the store as one operation,
    and what holds in every run of them (adapters/postgres/job_store.py). */
module JobTable {
  import opened Basics
  import opened Jobs

  type JobMap = map<Uuid, Row>

  datatype JobOp =
    | Insert(id: Uuid, request: JobRequest, now: Time)
    | MarkPublished(id: Uuid, now: Time)
    | Cancel(id: Uuid)
    | Claim(id: Uuid, token: Uuid, owner: string, lease: Time, now: Time)
    | RetireLapsed(now: Time)
    | Extend(id: Uuid, token: Uuid, span: Time, now: Time)
    | Ack(id: Uuid, token: Uuid, resultRef: Option<string>)
    | Nack(id: Uuid, token: Uuid, error: string, retryIn: Option<Time>, now: Time)

  /** What one operation makes of the row `r` stored under `id`. */
  function RowAfter(id: Uuid, r: Row, op: JobOp): Row {
    match op
    case Insert(_, _, _) => r
    case MarkPublished(j, now) => if id == j then r.(publishedAt := Some(now)) else r
    case Cancel(j) => if id == j then CancelAsked(r) else r
    case Claim(j, token, owner, lease, now) =>
      if id == j && Claimable(r, now) then Claimed(r, token, owner, lease, now) else r
    case RetireLapsed(now) => if RetireDue(r, now) then Retired(r) else r
    case Extend(j, token, span, now) => if id == j && Holds(r, token) then Extended(r, span, now) else r
    case Ack(j, token, ref) => if id == j && Holds(r, token) then Acked(r, ref) else r
    case Nack(j, token, error, retryIn, now) =>
      if id == j && Holds(r, token) then Nacked(r, error, retryIn, now) else r
  }

  /** The unique key on (session_id, idempotency_key), which treats nulls as equal. */
  predicate KeyTaken(jobs: JobMap, session: Option<Uuid>, key: string) {
    exists id :: id in jobs && SameKey(jobs[id], session, key)
  }

  predicate SameKey(r: Row, session: Option<Uuid>, key: string) {
    r.job.sessionId == session && r.job.idempotencyKey == key
  }

  /** An insert adds a row only under a fresh id and key, and only if the check on
      max_attempts lets it. */
  predicate Inserts(jobs: JobMap, op: JobOp) {
    && op.Insert?
    && op.id !in jobs
    && op.request.maxAttempts > 0
    && !KeyTaken(jobs, op.request.sessionId, op.request.idempotencyKey)
  }

  /** The rows an operation leaves, without the one it may add. */
  function Kept(jobs: JobMap, op: JobOp): JobMap {
    map id | id in jobs :: RowAfter(id, jobs[id], op)
  }

  function After(jobs: JobMap, op: JobOp): JobMap {
    var kept := Kept(jobs, op);
    if Inserts(jobs, op) then kept[op.id := NewRow(op.id, op.request, op.now)] else kept
  }

  function Exec(jobs: JobMap, ops: seq<JobOp>): JobMap {
    if ops == [] then jobs else After(Exec(jobs, ops[..|ops| - 1]), ops[|ops| - 1])
  }

  lemma {:induction false} ExecThenExec(jobs: JobMap, ops: seq<JobOp>, more: seq<JobOp>)
    ensures Exec(jobs, ops + more) == Exec(Exec(jobs, ops), more)
    decreases |more|
  {
    hide After;
    if more == [] {
      assert ops + more == ops;
    } else {
      ExecThenExec(jobs, ops, more[..|more| - 1]);
      assert (ops + more)[..|ops + more| - 1] == ops + more[..|more| - 1];
    }
  }

  /** No statement deletes a row. */
  lemma {:induction false} ExecKeepsRows(jobs: JobMap, ops: seq<JobOp>)
    ensures jobs.Keys <= Exec(jobs, ops).Keys
  {
    if ops != [] {
      ExecKeepsRows(jobs, ops[..|ops| - 1]);
      forall id | id in Exec(jobs, ops[..|ops| - 1])
        ensures id in Exec(jobs, ops)
      {
        OldRowAfter(Exec(jobs, ops[..|ops| - 1]), ops[|ops| - 1], id);
      }
      hide After;
    }
  }

  /** Distinct jobs carry distinct keys. */
  ghost predicate KeysUnique(jobs: JobMap) {
    forall i, j :: i in jobs && j in jobs && SameKey(jobs[i], jobs[j].job.sessionId, jobs[j].job.idempotencyKey)
      ==> i == j
  }

  ghost predicate TableInv(jobs: JobMap) {
    && (forall id :: id in jobs ==> RowInv(jobs[id]) && jobs[id].job.id == id)
    && KeysUnique(jobs)
  }

  // ----- one operation

  predicate Targets(op: JobOp, id: Uuid) {
    !op.Insert? && !op.RetireLapsed? && op.id == id
  }

  lemma OneRowChanges(jobs: JobMap, op: JobOp, id: Uuid)
    requires Targets(op, id)
    ensures After(jobs, op) == if id in jobs then jobs[id := RowAfter(id, jobs[id], op)] else jobs
  {
  }

  lemma OldRowAfter(jobs: JobMap, op: JobOp, id: Uuid)
    requires id in jobs
    ensures id in After(jobs, op) && After(jobs, op)[id] == RowAfter(id, jobs[id], op)
  {
    hide RowAfter;
    hide KeyTaken;
  }

  lemma NewRowAfter(jobs: JobMap, op: JobOp, id: Uuid)
    requires id !in jobs && id in After(jobs, op)
    ensures Inserts(jobs, op) && op.id == id && After(jobs, op)[id] == NewRow(id, op.request, op.now)
  {
    hide RowAfter;
    hide KeyTaken;
  }

  lemma RowAfterKeepsInv(id: Uuid, r: Row, op: JobOp)
    requires RowInv(r)
    ensures RowInv(RowAfter(id, r, op))
    ensures RowAfter(id, r, op).job.id == r.job.id
    ensures RowAfter(id, r, op).job.sessionId == r.job.sessionId
    ensures RowAfter(id, r, op).job.idempotencyKey == r.job.idempotencyKey
    ensures RowAfter(id, r, op).job.maxAttempts == r.job.maxAttempts
  {
  }

  lemma KeptKeepsInv(jobs: JobMap, op: JobOp)
    requires TableInv(jobs)
    ensures TableInv(Kept(jobs, op))
    ensures forall session, key :: KeyTaken(Kept(jobs, op), session, key) ==> KeyTaken(jobs, session, key)
  {
    forall id | id in jobs
      ensures RowInv(Kept(jobs, op)[id]) && Kept(jobs, op)[id].job.id == id
      ensures Kept(jobs, op)[id].job.sessionId == jobs[id].job.sessionId
      ensures Kept(jobs, op)[id].job.idempotencyKey == jobs[id].job.idempotencyKey
    {
      RowAfterKeepsInv(id, jobs[id], op);
    }
    hide RowAfter;
    hide RowInv;
    SameKeysStayUnique(jobs, Kept(jobs, op));
  }

  lemma SameKeysStayUnique(jobs: JobMap, jobs': JobMap)
    requires KeysUnique(jobs) && jobs'.Keys == jobs.Keys
    requires forall id :: id in jobs ==> jobs'[id].job.sessionId == jobs[id].job.sessionId
                                         && jobs'[id].job.idempotencyKey == jobs[id].job.idempotencyKey
    ensures KeysUnique(jobs')
    ensures forall session, key :: KeyTaken(jobs', session, key) ==> KeyTaken(jobs, session, key)
  {
    forall i, j | i in jobs' && j in jobs' && SameKey(jobs'[i], jobs'[j].job.sessionId, jobs'[j].job.idempotencyKey)
      ensures i == j
    {
      assert SameKey(jobs[i], jobs[j].job.sessionId, jobs[j].job.idempotencyKey);
    }
    forall session, key | KeyTaken(jobs', session, key)
      ensures KeyTaken(jobs, session, key)
    {
      var id :| id in jobs' && SameKey(jobs'[id], session, key);
      assert SameKey(jobs[id], session, key);
    }
  }

  lemma InsertKeepsKeys(jobs: JobMap, id: Uuid, request: JobRequest, now: Time)
    requires KeysUnique(jobs) && !KeyTaken(jobs, request.sessionId, request.idempotencyKey)
    ensures KeysUnique(jobs[id := NewRow(id, request, now)])
  {
  }

  lemma AfterKeepsInv(jobs: JobMap, op: JobOp)
    requires TableInv(jobs)
    ensures TableInv(After(jobs, op))
  {
    KeptKeepsInv(jobs, op);
    hide RowAfter;
    hide KeysUnique;
    hide KeyTaken;
    if Inserts(jobs, op) {
      InsertKeepsKeys(Kept(jobs, op), op.id, op.request, op.now);
    }
  }

  // ----- whole runs

  lemma {:induction false} ExecInv(jobs: JobMap, ops: seq<JobOp>)
    requires TableInv(jobs)
    ensures TableInv(Exec(jobs, ops))
  {
    if ops != [] {
      ExecInv(jobs, ops[..|ops| - 1]);
      AfterKeepsInv(Exec(jobs, ops[..|ops| - 1]), ops[|ops| - 1]);
    }
  }

  /** Every row of every reachable table satisfies the row invariant, and no two rows share a key. */
  lemma {:induction false} ReachableTable(ops: seq<JobOp>)
    ensures TableInv(Exec(map[], ops))
  {
    ExecInv(map[], ops);
  }

  /** What a later table keeps of an earlier one, row by row. */
  predicate Later(r: Row, r': Row) {
    && r.job.attempts <= r'.job.attempts
    && r.job.maxAttempts == r'.job.maxAttempts
    && r.job.sessionId == r'.job.sessionId
    && r.createdAt == r'.createdAt
    && (r.job.cancelRequested ==> r'.job.cancelRequested && r'.job.attempts == r.job.attempts)
    && (r.job.state.Terminal() ==> r' == r.(publishedAt := r'.publishedAt))
  }

  lemma StepIsLater(id: Uuid, r: Row, op: JobOp)
    requires RowInv(r)
    ensures Later(r, RowAfter(id, r, op))
  {
  }

  lemma LaterIsTransitive(r: Row, r': Row, r'': Row)
    requires Later(r, r') && Later(r', r'')
    ensures Later(r, r'')
  {
  }

  /** Along any run: attempts never decrease, a raised cancel flag stays and stops further claims,
      and a terminal row changes in nothing but `published_at`. */
  lemma {:induction false} RunIsMonotone(jobs: JobMap, ops: seq<JobOp>, id: Uuid)
    requires TableInv(jobs) && id in jobs
    ensures id in Exec(jobs, ops)
    ensures Later(jobs[id], Exec(jobs, ops)[id])
  {
    if ops != [] {
      var before := Exec(jobs, ops[..|ops| - 1]);
      RunIsMonotone(jobs, ops[..|ops| - 1], id);
      ExecInv(jobs, ops[..|ops| - 1]);
      StepIsLater(id, before[id], ops[|ops| - 1]);
      LaterIsTransitive(jobs[id], before[id], After(before, ops[|ops| - 1])[id]);
    }
  }

  /** A job somebody asked to cancel is running, cancelled, or done: never queued, failed, or dead.
      No claim takes it, although the queued half of the claim predicate does not look at the flag. */
  lemma {:induction false} CancelIsNeverAFailure(ops: seq<JobOp>, id: Uuid, now: Time)
    requires id in Exec(map[], ops) && Exec(map[], ops)[id].job.cancelRequested
    ensures Exec(map[], ops)[id].job.state in {Running, Cancelled, Done}
    ensures !Claimable(Exec(map[], ops)[id], now)
  {
    ReachableTable(ops);
  }

  /** Once lapsed, a running row is picked by exactly one of the two maintenance queries. */
  lemma {:induction false} LapsedIsPickedOnce(ops: seq<JobOp>, id: Uuid, now: Time)
    requires id in Exec(map[], ops)
    ensures var r := Exec(map[], ops)[id];
            r.job.state == Running ==>
              && r.leaseExpiresAt.Some?
              && (r.leaseExpiresAt.value < now <==> Lapsed(r, now) != RetireDue(r, now))
              && !(Lapsed(r, now) && RetireDue(r, now))
  {
    ReachableTable(ops);
  }

  // ----- when a job carries an error

  /** A consumer gave this job back: a `nack` under the token the row carried. */
  predicate GivesBack(jobs: JobMap, op: JobOp, id: Uuid) {
    op.Nack? && op.id == id && id in jobs && Holds(jobs[id], op.token)
  }

  predicate GivenBack(ops: seq<JobOp>, id: Uuid) {
    ops != [] && (GivenBack(ops[..|ops| - 1], id) || GivesBack(Exec(map[], ops[..|ops| - 1]), ops[|ops| - 1], id))
  }

  lemma ErrorOfStep(id: Uuid, r: Row, op: JobOp)
    requires RowInv(r)
    ensures var r' := RowAfter(id, r, op);
            var returned := op.Nack? && op.id == id && Holds(r, op.token);
            && (returned ==> r'.job.error == Some(op.error))
            && (!returned && r'.job.state != Dead ==> r'.job.error == r.job.error)
            && (r'.job.state == Dead && r.job.state != Dead ==> r'.job.error.Some?)
            && (r.job.state == Dead ==> r'.job.state == Dead && r'.job.error == r.job.error && !returned)
  {
  }

  /** A job carries an error exactly when a consumer has given it back or it is dead. So a cancelled job,
      which is not to be reported as a failure, carries one exactly when some consumer gave it back. */
  lemma {:induction false} ErrorExactlyWhen(ops: seq<JobOp>, id: Uuid)
    requires id in Exec(map[], ops)
    ensures var j := Exec(map[], ops)[id].job;
            j.error.Some? <==> GivenBack(ops, id) || j.state == Dead
  {
    if ops != [] {
      var before, op := Exec(map[], ops[..|ops| - 1]), ops[|ops| - 1];
      ReachableTable(ops[..|ops| - 1]);
      hide RowAfter;
      if id in before {
        ErrorExactlyWhen(ops[..|ops| - 1], id);
        ErrorOfStep(id, before[id], op);
      } else {
        NothingGivenBack(ops[..|ops| - 1], id);
      }
    }
  }

  lemma {:induction false} NothingGivenBack(ops: seq<JobOp>, id: Uuid)
    requires id !in Exec(map[], ops)
    ensures !GivenBack(ops, id)
  {
    if ops != [] { NothingGivenBack(ops[..|ops| - 1], id); }
  }

  const CANCELLED_WHILE_RUNNING: seq<JobOp> := [
    Insert(1, JobRequest("k", "{}", None, "key", 3, 0), 0), Claim(1, 7, "w", 60, 0), Cancel(1),
    Nack(1, 7, "cancelled while running", None, 1)]

  /** The worker's own way of cancelling a running job, and the error it leaves. */
  lemma ACancelledJobCarriesAnError()
    ensures var jobs := Exec(map[], CANCELLED_WHILE_RUNNING);
            1 in jobs && jobs[1].job.state == Cancelled && jobs[1].job.error == Some("cancelled while running")
  {
    var ops := CANCELLED_WHILE_RUNNING;
    assert ops[..3][..2] == ops[..2] && ops[..2][..1] == ops[..1] && ops[..1][..0] == [] && ops[..4] == ops;
    var r := NewRow(1, ops[0].request, 0);
    var r1, r2 := Claimed(r, 7, "w", 60, 0), CancelAsked(Claimed(r, 7, "w", 60, 0));
    FourSteps(r, r1, r2);
    hide After;
    hide RowAfter;
    assert Exec(map[], ops[..1]) == map[1 := r];
    assert Exec(map[], ops[..2]) == map[1 := r1];
    assert Exec(map[], ops[..3]) == map[1 := r2];
  }

  lemma FourSteps(r: Row, r1: Row, r2: Row)
    requires r == NewRow(1, CANCELLED_WHILE_RUNNING[0].request, 0) && r1 == Claimed(r, 7, "w", 60, 0)
             && r2 == CancelAsked(r1)
    ensures var ops := CANCELLED_WHILE_RUNNING;
            && After(map[], ops[0]) == map[1 := r] && After(map[1 := r], ops[1]) == map[1 := r1]
            && After(map[1 := r1], ops[2]) == map[1 := r2]
            && After(map[1 := r2], ops[3]) == map[1 := Nacked(r2, "cancelled while running", None, 1)]
  {
    var ops := CANCELLED_WHILE_RUNNING;
    OneRowChanges(map[1 := r], ops[1], 1);
    OneRowChanges(map[1 := r1], ops[2], 1);
    OneRowChanges(map[1 := r2], ops[3], 1);
  }
}
