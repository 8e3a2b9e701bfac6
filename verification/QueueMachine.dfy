/** The abstract job machine that the row store and the in-memory queue both refine, stated as relations over
    rows. It leaves open what the two decide differently: whether a lease lapses at its deadline or just after
    it, what becomes of an empty error text at retirement, and whether a job with no attempts at all may be
    submitted (core/jobs.py, adapters/postgres/job_store.py, tests/MemoryJobQueue.py). */
module QueueMachine {
  import opened Basics
  import opened Jobs
  import opened JobTable

  /** The weaker deadline test: at the deadline, or after it. */
  predicate AtDeadline(r: Row, now: Time) {
    r.job.state == Running && r.leaseExpiresAt.Some? && r.leaseExpiresAt.value <= now
  }

  predicate Reservable(r: Row, now: Time) {
    || Waiting(r, now)
    || (AtDeadline(r, now) && r.job.attempts < r.job.maxAttempts && !r.job.cancelRequested)
  }

  predicate Finishable(r: Row, now: Time) {
    AtDeadline(r, now) && (r.job.attempts >= r.job.maxAttempts || r.job.cancelRequested)
  }

  /** What the two implementations share of a row: everything but the broker's mark. */
  function View(jobs: JobMap): JobMap {
    map id | id in jobs :: jobs[id].(publishedAt := None)
  }

  // ----- what each operation may make of one row

  /** What no operation ever changes. */
  predicate SameRequest(r: Row, r': Row) {
    && r'.job.id == r.job.id && r'.job.kind == r.job.kind && r'.job.payload == r.job.payload
    && r'.job.maxAttempts == r.job.maxAttempts && r'.job.sessionId == r.job.sessionId
    && r'.job.idempotencyKey == r.job.idempotencyKey && r'.createdAt == r.createdAt && r'.publishedAt == r.publishedAt
  }

  predicate SameLease(r: Row, r': Row) {
    r'.leaseId == r.leaseId && r'.leaseExpiresAt == r.leaseExpiresAt && r'.leaseOwner == r.leaseOwner
  }

  predicate NoLease(r: Row) {
    r.leaseId.None? && r.leaseExpiresAt.None? && r.leaseOwner.None?
  }

  /** A waiting job is cancelled outright, a running one only asked to stop. */
  predicate MayCancel(r: Row, r': Row) {
    if r.job.state.Terminal() then r' == r
    else
      && SameRequest(r, r') && SameLease(r, r') && r'.runAfter == r.runAfter
      && r'.job.attempts == r.job.attempts && r'.job.error == r.job.error && r'.job.resultRef == r.job.resultRef
      && r'.job.cancelRequested
      && r'.job.state == if r.job.state == Running then Running else Cancelled
  }

  predicate MayClaim(r: Row, token: Uuid, owner: string, lease: Time, now: Time, r': Row) {
    && SameRequest(r, r') && r'.runAfter == r.runAfter
    && r'.job.state == Running && r'.job.attempts == r.job.attempts + 1
    && r'.job.error == r.job.error && r'.job.resultRef == r.job.resultRef
    && r'.job.cancelRequested == r.job.cancelRequested
    && r'.leaseId == Some(token) && r'.leaseExpiresAt == Some(now + lease) && r'.leaseOwner == Some(owner)
  }

  predicate MayExtend(r: Row, span: Time, now: Time, r': Row) {
    && SameRequest(r, r') && r'.runAfter == r.runAfter && r'.job == r.job
    && r'.leaseId == r.leaseId && r'.leaseOwner == r.leaseOwner && r'.leaseExpiresAt == Some(now + span)
  }

  predicate MayFinish(r: Row, resultRef: Option<string>, r': Row) {
    && SameRequest(r, r') && NoLease(r') && r'.runAfter == r.runAfter
    && r'.job.state == Done && r'.job.resultRef == resultRef
    && r'.job.attempts == r.job.attempts && r'.job.error == r.job.error
    && r'.job.cancelRequested == r.job.cancelRequested
  }

  /** A job given back goes round again only if it was not cancelled and has attempts left. */
  predicate MayReturn(r: Row, error: string, retryIn: Option<Time>, now: Time, r': Row) {
    && SameRequest(r, r') && NoLease(r')
    && r'.runAfter == now + (if retryIn.Some? then retryIn.value else 0)
    && r'.job.attempts == r.job.attempts && r'.job.resultRef == r.job.resultRef
    && r'.job.cancelRequested == r.job.cancelRequested
    && r'.job.error == Some(error)
    && (r'.job.state == Cancelled <==> r.job.cancelRequested)
    && (r'.job.state == Dead <==> !r.job.cancelRequested && r.job.attempts >= r.job.maxAttempts)
    && (r'.job.state == JobState.Failed <==> !r.job.cancelRequested && r.job.attempts < r.job.maxAttempts)
  }

  /** A lapsed job that no claim may take: cancelled if that was asked, and otherwise dead with some error. An
      empty error text may count as none. */
  predicate MayGiveUp(r: Row, r': Row) {
    && SameRequest(r, r') && NoLease(r') && r'.runAfter == r.runAfter
    && r'.job.attempts == r.job.attempts && r'.job.resultRef == r.job.resultRef
    && r'.job.cancelRequested == r.job.cancelRequested
    && r'.job.state == (if r.job.cancelRequested then Cancelled else Dead)
    && (r.job.cancelRequested ==> r'.job.error == r.job.error)
    && (!r.job.cancelRequested && r.job.error.None? ==> r'.job.error == Some(LEASE_EXPIRED))
    && (!r.job.cancelRequested && r.job.error.Some? ==>
          r'.job.error == r.job.error || (r.job.error == Some("") && r'.job.error == Some(LEASE_EXPIRED)))
  }

  ghost predicate MayRetire(r: Row, now: Time, r': Row) {
    || (r' == r && !RetireDue(r, now))
    || (Finishable(r, now) && MayGiveUp(r, r'))
  }

  predicate IsFresh(id: Uuid, q: JobRequest, now: Time, r: Row) {
    && r.job.id == id && r.job.kind == q.kind && r.job.payload == q.payload && r.job.sessionId == q.sessionId
    && r.job.idempotencyKey == q.idempotencyKey && r.job.maxAttempts == q.maxAttempts
    && r.job.state == Queued && r.job.attempts == 0 && !r.job.cancelRequested
    && r.job.error.None? && r.job.resultRef.None?
    && r.runAfter == now + q.delay && r.createdAt == now && r.publishedAt.None? && NoLease(r)
  }

  // ----- the machine

  /** Only this row moved. */
  predicate OnlyRow(a: JobMap, id: Uuid, a': JobMap) {
    a'.Keys == a.Keys && forall other :: other in a && other != id ==> a'[other] == a[other]
  }

  /** A fenced operation moves the row that carries its token, and otherwise nothing. */
  predicate Misses(a: JobMap, id: Uuid, token: Uuid) {
    id !in a || !Holds(a[id], token)
  }

  /** One step of the abstract machine. */
  ghost predicate Step(a: JobMap, op: JobOp, a': JobMap) {
    match op
    case Insert(id, q, now) =>
      if id in a || KeyTaken(a, q.sessionId, q.idempotencyKey) then a' == a
      else
        || (q.maxAttempts <= 0 && a' == a)
        || (a'.Keys == a.Keys + {id} && IsFresh(id, q, now, a'[id])
            && forall other :: other in a ==> a'[other] == a[other])
    case MarkPublished(_, _) => a' == a
    case Cancel(id) => if id in a then OnlyRow(a, id, a') && MayCancel(a[id], a'[id]) else a' == a
    case Claim(id, token, owner, lease, now) =>
      || (id in a && Reservable(a[id], now) && OnlyRow(a, id, a') && MayClaim(a[id], token, owner, lease, now, a'[id]))
      || (!(id in a && Claimable(a[id], now)) && a' == a)
    case RetireLapsed(now) =>
      a'.Keys == a.Keys && forall id :: id in a ==> MayRetire(a[id], now, a'[id])
    case Extend(id, token, span, now) =>
      if Misses(a, id, token) then a' == a else OnlyRow(a, id, a') && MayExtend(a[id], span, now, a'[id])
    case Ack(id, token, ref) =>
      if Misses(a, id, token) then a' == a else OnlyRow(a, id, a') && MayFinish(a[id], ref, a'[id])
    case Nack(id, token, error, retryIn, now) =>
      if Misses(a, id, token) then a' == a else OnlyRow(a, id, a') && MayReturn(a[id], error, retryIn, now, a'[id])
  }

  /** A run of the machine, with every state it passes through. */
  ghost predicate Behaviour(states: seq<JobMap>, ops: seq<JobOp>) {
    && |states| == |ops| + 1
    && states[0] == map[]
    && forall i :: 0 <= i < |ops| ==> Step(states[i], ops[i], states[i + 1])
  }

  // ----- what every run of it keeps

  /** True of every row, even one submitted with no attempts to make. */
  predicate MachineRow(r: Row) {
    && r.publishedAt.None?
    && (r.job.state == Running <==> r.leaseId.Some?)
    && (r.leaseId.Some? <==> r.leaseExpiresAt.Some?)
    && (r.leaseId.Some? <==> r.leaseOwner.Some?)
    && (r.job.cancelRequested ==> r.job.state in {Running, Cancelled, Done})
    && (r.job.state == Cancelled ==> r.job.cancelRequested)
    && (r.job.resultRef.Some? ==> r.job.state == Done)
    && (r.job.maxAttempts > 0 ==> RowInv(r))
  }

  ghost predicate MachineInv(a: JobMap) {
    forall id :: id in a ==> MachineRow(a[id])
  }

  /** What one step does to one row. */
  ghost predicate RowStep(id: Uuid, r: Row, op: JobOp, r': Row) {
    match op
    case Insert(_, _, _) => r' == r
    case MarkPublished(_, _) => r' == r
    case Cancel(j) => if id == j then MayCancel(r, r') else r' == r
    case Claim(j, token, owner, lease, now) =>
      || (r' == r && !(id == j && Claimable(r, now)))
      || (id == j && Reservable(r, now) && MayClaim(r, token, owner, lease, now, r'))
    case RetireLapsed(now) => MayRetire(r, now, r')
    case Extend(j, token, span, now) => if id == j && Holds(r, token) then MayExtend(r, span, now, r') else r' == r
    case Ack(j, token, ref) => if id == j && Holds(r, token) then MayFinish(r, ref, r') else r' == r
    case Nack(j, token, error, retryIn, now) =>
      if id == j && Holds(r, token) then MayReturn(r, error, retryIn, now, r') else r' == r
  }

  lemma StepMovesRows(a: JobMap, op: JobOp, a': JobMap, id: Uuid)
    requires Step(a, op, a') && id in a
    ensures id in a' && RowStep(id, a[id], op, a'[id])
  {
    hide MayCancel;
    hide MayClaim;
    hide MayExtend;
    hide MayFinish;
    hide MayReturn;
    hide MayRetire;
    hide Reservable;
    hide Claimable;
    hide KeyTaken;
    hide IsFresh;
  }

  lemma StepAddsFreshRows(a: JobMap, op: JobOp, a': JobMap, id: Uuid)
    requires Step(a, op, a') && id in a' && id !in a
    ensures op.Insert? && op.id == id && IsFresh(id, op.request, op.now, a'[id])
  {
    hide MayRetire;
    hide KeyTaken;
    hide IsFresh;
  }

  lemma RowStepKeepsInv(id: Uuid, r: Row, op: JobOp, r': Row)
    requires MachineRow(r) && RowStep(id, r, op, r')
    ensures MachineRow(r') && SameRequest(r, r')
  {
  }

  /** The row invariant holds of the abstract machine, so it holds of whatever refines it. */
  lemma StepKeepsInv(a: JobMap, op: JobOp, a': JobMap)
    requires MachineInv(a) && Step(a, op, a')
    ensures MachineInv(a')
  {
    forall id | id in a'
      ensures MachineRow(a'[id])
    {
      if id in a {
        StepMovesRows(a, op, a', id);
        RowStepKeepsInv(id, a[id], op, a'[id]);
      } else {
        StepAddsFreshRows(a, op, a', id);
      }
      hide Step;
      hide RowStep;
    }
  }

  lemma {:induction false} BehaviourInv(states: seq<JobMap>, ops: seq<JobOp>, i: nat)
    requires Behaviour(states, ops) && i < |states|
    ensures MachineInv(states[i])
  {
    hide Step;
    hide MachineRow;
    if i > 0 {
      BehaviourInv(states, ops, i - 1);
      StepKeepsInv(states[i - 1], ops[i - 1], states[i]);
    }
  }

  lemma RowStepIsLater(id: Uuid, r: Row, op: JobOp, r': Row)
    requires MachineRow(r) && RowStep(id, r, op, r')
    ensures Later(r, r')
  {
  }

  /** Along any run of the machine, and so of either queue: attempts never decrease, a raised cancel flag stays and
      stops further claims, and a terminal row never changes. */
  lemma {:induction false} MachineIsMonotone(states: seq<JobMap>, ops: seq<JobOp>, i: nat, j: nat, id: Uuid)
    requires Behaviour(states, ops) && i <= j < |states| && id in states[i]
    ensures id in states[j] && Later(states[i][id], states[j][id])
    ensures states[i][id].job.state.Terminal() ==> states[j][id] == states[i][id]
    decreases j - i
  {
    BehaviourInv(states, ops, i);
    BehaviourInv(states, ops, j);
    hide Step;
    hide RowStep;
    hide MachineRow;
    if i < j {
      MachineIsMonotone(states, ops, i, j - 1, id);
      BehaviourInv(states, ops, j - 1);
      StepMovesRows(states[j - 1], ops[j - 1], states[j], id);
      RowStepIsLater(id, states[j - 1][id], ops[j - 1], states[j][id]);
      hide Later;
      LaterIsTransitive(states[i][id], states[j - 1][id], states[j][id]);
    }
    LaterTerminal(states[i][id], states[j][id]);
  }

  lemma LaterTerminal(r: Row, r': Row)
    requires MachineRow(r) && MachineRow(r') && (Later(r, r') || r == r')
    ensures r.job.state.Terminal() ==> r' == r
    ensures Later(r, r')
  {
    hide RowInv;
  }

  /** In every state of every run of the machine, a job asked to cancel is running, cancelled or done, and cannot be
      claimed, whatever its attempts. */
  lemma MachineNeverFailsACancel(states: seq<JobMap>, ops: seq<JobOp>, i: nat, id: Uuid, now: Time)
    requires Behaviour(states, ops) && i < |states| && id in states[i] && states[i][id].job.cancelRequested
    ensures states[i][id].job.state in {Running, Cancelled, Done}
    ensures !Reservable(states[i][id], now)
  {
    BehaviourInv(states, ops, i);
    hide Behaviour;
    hide RowInv;
  }

  /** A terminal row of the abstract machine never changes. */
  lemma TerminalIsFinal(a: JobMap, op: JobOp, a': JobMap, id: Uuid)
    requires MachineInv(a) && Step(a, op, a') && id in a && a[id].job.state.Terminal()
    ensures id in a' && a'[id] == a[id]
  {
    StepMovesRows(a, op, a', id);
    assert MachineRow(a[id]);
    hide MachineInv;
    hide RowInv;
    hide Step;
  }

  // ----- the row store

  /** The mark is all that a view forgets, so it commutes with every statement. */
  lemma ViewOfStep(id: Uuid, r: Row, op: JobOp)
    ensures var seen := RowAfter(id, r.(publishedAt := None), op);
            RowAfter(id, r, op).(publishedAt := None)
            == if op.MarkPublished? then r.(publishedAt := None) else seen.(publishedAt := None)
    ensures !op.MarkPublished? ==> RowAfter(id, r.(publishedAt := None), op).publishedAt.None?
  {
  }

  lemma ViewKeepsKeys(jobs: JobMap, session: Option<Uuid>, key: string)
    ensures KeyTaken(View(jobs), session, key) <==> KeyTaken(jobs, session, key)
  {
    assert forall id :: id in jobs ==> (SameKey(View(jobs)[id], session, key) <==> SameKey(jobs[id], session, key));
  }

  /** What a statement makes of a viewed row is what the machine allows. */
  lemma StatementIsAllowed(id: Uuid, r: Row, op: JobOp)
    requires !op.MarkPublished? && r.publishedAt.None?
    ensures RowStep(id, r, op, RowAfter(id, r, op).(publishedAt := None))
  {
    match op
    case RetireLapsed(_) => RetirementIsAllowed(id, r, op);
    case Nack(_, _, _, _, _) => ReturnIsAllowed(id, r, op);
    case _ =>
  }

  lemma RetirementIsAllowed(id: Uuid, r: Row, op: JobOp)
    requires op.RetireLapsed? && r.publishedAt.None?
    ensures RowStep(id, r, op, RowAfter(id, r, op).(publishedAt := None))
  {
  }

  lemma ReturnIsAllowed(id: Uuid, r: Row, op: JobOp)
    requires op.Nack? && r.publishedAt.None?
    ensures RowStep(id, r, op, RowAfter(id, r, op).(publishedAt := None))
  {
  }

  /** The view after a statement, row by row. */
  lemma ViewedRow(jobs: JobMap, op: JobOp, id: Uuid)
    requires id in jobs
    ensures id in View(After(jobs, op)) && RowStep(id, View(jobs)[id], op, View(After(jobs, op))[id])
  {
    OldRowAfter(jobs, op, id);
    ViewOfStep(id, jobs[id], op);
    if !op.MarkPublished? { StatementIsAllowed(id, View(jobs)[id], op); }
    hide After;
    hide RowAfter;
    hide RowStep;
    if op.MarkPublished? { MarkIsInvisible(id, View(jobs)[id], op); }
  }

  lemma MarkIsInvisible(id: Uuid, r: Row, op: JobOp)
    requires op.MarkPublished?
    ensures RowStep(id, r, op, r)
  {
  }

  lemma ViewedKeys(jobs: JobMap, op: JobOp)
    ensures View(After(jobs, op)).Keys == jobs.Keys + if Inserts(jobs, op) then {op.id} else {}
    ensures View(jobs).Keys == jobs.Keys
    ensures Inserts(jobs, op) ==> View(After(jobs, op))[op.id] == NewRow(op.id, op.request, op.now)
  {
    hide RowAfter;
    hide KeyTaken;
  }

  /** Steps are row by row, so a table that keeps its rows and moves each as allowed has made one. */
  lemma RowStepsMakeStep(a: JobMap, op: JobOp, a': JobMap)
    requires !op.Insert? && a'.Keys == a.Keys && forall id :: id in a ==> RowStep(id, a[id], op, a'[id])
    ensures Step(a, op, a')
  {
    hide MayCancel;
    hide MayClaim;
    hide MayExtend;
    hide MayFinish;
    hide MayReturn;
    hide MayRetire;
    hide Reservable;
    hide Claimable;
    if forall id :: id in a ==> a'[id] == a[id] { assert a' == a; }
  }

  lemma InsertStep(a: JobMap, op: JobOp, a': JobMap)
    requires op.Insert? && forall id :: id in a ==> id in a' && a'[id] == a[id]
    requires if Inserts(a, op) then a'.Keys == a.Keys + {op.id} && a'[op.id] == NewRow(op.id, op.request, op.now)
             else a'.Keys == a.Keys
    ensures Step(a, op, a')
  {
    hide KeyTaken;
    if !Inserts(a, op) { assert a' == a; }
  }

  /** The row store refines the machine: every statement, seen without its mark, is a step of it. */
  lemma RowStoreRefines(jobs: JobMap, op: JobOp)
    ensures Step(View(jobs), op, View(After(jobs, op)))
  {
    hide RowStep;
    hide RowAfter;
    ViewedKeys(jobs, op);
    forall id | id in jobs
      ensures id in View(After(jobs, op)) && RowStep(id, View(jobs)[id], op, View(After(jobs, op))[id])
    {
      ViewedRow(jobs, op, id);
    }
    if op.Insert? {
      InsertRefines(jobs, op);
    } else {
      hide View;
      hide After;
      RowStepsMakeStep(View(jobs), op, View(After(jobs, op)));
    }
    hide Step;
  }

  lemma InsertRefines(jobs: JobMap, op: JobOp)
    requires op.Insert?
    ensures Step(View(jobs), op, View(After(jobs, op)))
  {
    ViewedKeys(jobs, op);
    ViewKeepsKeys(jobs, op.request.sessionId, op.request.idempotencyKey);
    hide KeyTaken;
    hide Step;
    InsertStep(View(jobs), op, View(After(jobs, op)));
  }
}
