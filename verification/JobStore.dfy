/** The row half of the queue: every statement against `jobs`, one transaction a method, on a database
    that it updates in place (adapters/postgres/job_store.py, adapters/postgres/seq.py). */
module JobStore {
  import opened Basics
  import opened Jobs
  import opened JobTable
  import opened SessionLog
  import opened Tables

  datatype InsertError = CheckViolation | NoSuchSession

  datatype StaleLease = StaleLease

  datatype LookupError = NoSuchChatSession

  /** What the schema itself guarantees: rows sit under their own id, keys are unique, and a job's session
      exists. */
  ghost predicate Sound(t: Committed) {
    (forall id :: id in t.jobs ==> t.jobs[id].job.id == id) && KeysUnique(t.jobs) && SessionsKnown(t.jobs, t.sessions)
  }

  lemma RowsKnowTheirIds(t: Committed)
    requires Sound(t)
    ensures forall id :: id in t.jobs ==> t.jobs[id].job.id == id
  {
  }

  /** The database every store and repository of the process shares. */
  class Database {
    var jobs: JobMap
    var sessions: SessionMap

    ghost function State(): Committed
      reads this
    {
      Committed(jobs, sessions)
    }

    ghost predicate Valid()
      reads this
    {
      Sound(State())
    }

    constructor ()
      ensures State() == NO_TABLES && Valid()
    {
      jobs := map[];
      sessions := map[];
    }

    /** Draws the session's next number. The counter is updated in place, in the caller's transaction. */
    method AllocateSeq(session: Uuid) returns (r: Result<nat, LookupError>)
      modifies this`sessions
      ensures session in old(sessions) ==>
                r == Ok(old(sessions)[session].nextSeq)
                && var was := old(sessions);
                   sessions == was[session := was[session].(nextSeq := was[session].nextSeq + 1)]
      ensures session !in old(sessions) ==> r == Err(NoSuchChatSession) && sessions == old(sessions)
    {
      if session !in sessions {
        return Err(NoSuchChatSession);
      }
      var s := sessions[session];
      sessions := sessions[session := s.(nextSeq := s.nextSeq + 1)];
      r := Ok(s.nextSeq);
    }
  }

  /** The rows one statement on one job records, in order. */
  function OrderOf(jobs: JobMap, op: JobOp, id: Uuid): seq<Uuid> {
    if Transitions(jobs, op, id) then [id] else []
  }

  /** `op` ran on `t`, as one transaction, and left `t'`. */
  ghost predicate Ran(t: Committed, op: JobOp, order: seq<Uuid>, t': Committed) {
    SessionsKnown(t.jobs, t.sessions) && Enabled(t, OnJobs(op, order)) && t' == Tables.After(t, OnJobs(op, order))
  }

  lemma RanMoves(t: Committed, op: JobOp, order: seq<Uuid>, t': Committed)
    requires Ran(t, op, order, t')
    ensures t'.jobs == JobTable.After(t.jobs, op)
    ensures !op.Insert? ==> t'.jobs.Keys == t.jobs.Keys
    ensures t'.sessions.Keys == t.sessions.Keys
  {
    JobsKeepSessions(t, op, order);
  }

  lemma NoRowNoChange(jobs: JobMap, op: JobOp)
    requires !op.RetireLapsed?
    requires if op.Insert? then !Inserts(jobs, op) else op.id !in jobs
    ensures JobTable.After(jobs, op) == jobs
  {
  }

  /** Statements that can land: an insert names a session that exists. */
  predicate Lands(op: JobOp, sessions: SessionMap) {
    op.Insert? && op.request.sessionId.Some? ==> op.request.sessionId.value in sessions
  }

  predicate AllLand(ops: seq<JobOp>, sessions: SessionMap) {
    forall i :: 0 <= i < |ops| ==> Lands(ops[i], sessions)
  }

  ghost predicate EachLands(lists: nat -> seq<JobOp>, sessions: SessionMap) {
    forall n :: AllLand(lists(n), sessions)
  }

  lemma StillLand(lists: nat -> seq<JobOp>, sessions: SessionMap, sessions': SessionMap)
    requires EachLands(lists, sessions) && sessions'.Keys == sessions.Keys
    ensures EachLands(lists, sessions')
  {
  }

  /** A statement on one job rewrites that row and records it if its state moved. */
  lemma OneRow(t: Committed, op: JobOp, id: Uuid)
    requires SessionsKnown(t.jobs, t.sessions) && Targets(op, id)
    ensures Enabled(t, OnJobs(op, OrderOf(t.jobs, op, id)))
    ensures id !in t.jobs ==> Tables.After(t, OnJobs(op, [])) == t && OrderOf(t.jobs, op, id) == []
    ensures id in t.jobs ==>
              var r := RowAfter(id, t.jobs[id], op);
              && SessionsKnown(t.jobs[id := r], t.sessions)
              && Tables.After(t, OnJobs(op, OrderOf(t.jobs, op, id))) ==
                 Committed(t.jobs[id := r],
                           if Records(id, t.jobs[id], op) then Recorded(t.sessions, r.job) else t.sessions)
  {
    var order := OrderOf(t.jobs, op, id);
    assert Lists(order, t.jobs, op);
    JobsKeepSessions(t, op, order);
    OneRowChanges(t.jobs, op, id);
    if id in t.jobs {
      RecordOne(t.sessions, JobTable.After(t.jobs, op), id);
    }
  }

  lemma RecordOne(sessions: SessionMap, jobs: JobMap, id: Uuid)
    requires SessionsKnown(jobs, sessions) && id in jobs
    ensures RecordAll(sessions, jobs, []) == sessions
    ensures RecordAll(sessions, jobs, [id]) == Recorded(sessions, jobs[id].job)
  {
    assert [id][..0] == [];
    assert RecordAll(sessions, jobs, [id][..0]) == sessions;
  }

  /** No statement but an insert touches a row's id or its key. */
  lemma KeysStay(jobs: JobMap, op: JobOp)
    requires (forall id :: id in jobs ==> jobs[id].job.id == id) && KeysUnique(jobs) && !op.Insert?
    ensures forall id :: id in JobTable.After(jobs, op) ==> JobTable.After(jobs, op)[id].job.id == id
    ensures KeysUnique(JobTable.After(jobs, op))
  {
    var jobs' := JobTable.After(jobs, op);
    forall id | id in jobs
      ensures jobs'[id].job.id == id
      ensures jobs'[id].job.sessionId == jobs[id].job.sessionId
              && jobs'[id].job.idempotencyKey == jobs[id].job.idempotencyKey
    {
    }
    forall i, j | i in jobs' && j in jobs' && SameKey(jobs'[i], jobs'[j].job.sessionId, jobs'[j].job.idempotencyKey)
      ensures i == j
    {
      assert SameKey(jobs[i], jobs[j].job.sessionId, jobs[j].job.idempotencyKey);
    }
  }

  lemma OneRowRuns(t: Committed, op: JobOp, id: Uuid)
    requires Sound(t) && Targets(op, id)
    ensures id !in t.jobs ==> Ran(t, op, OrderOf(t.jobs, op, id), t) && OrderOf(t.jobs, op, id) == []
    ensures id in t.jobs ==>
              var r := RowAfter(id, t.jobs[id], op);
              && (r.job.sessionId.Some? ==> r.job.sessionId.value in t.sessions)
              && var t' := Committed(t.jobs[id := r],
                                     if Records(id, t.jobs[id], op) then Recorded(t.sessions, r.job) else t.sessions);
                 Ran(t, op, OrderOf(t.jobs, op, id), t') && Sound(t')
  {
    hide KeysUnique;
    OneRow(t, op, id);
    KeysStay(t.jobs, op);
    if id in t.jobs {
      assert SessionsKnown(t.jobs[id := RowAfter(id, t.jobs[id], op)], t.sessions);
    }
    OneRowChanges(t.jobs, op, id);
    hide RowAfter;
    hide JobTable.After;
  }

  lemma InsertRuns(t: Committed, id: Uuid, request: JobRequest, now: Time)
    requires Sound(t) && id !in t.jobs && request.maxAttempts > 0
    requires !KeyTaken(t.jobs, request.sessionId, request.idempotencyKey)
    requires request.sessionId.Some? ==> request.sessionId.value in t.sessions
    ensures var r := NewRow(id, request, now);
            var t' := Committed(t.jobs[id := r], Recorded(t.sessions, r.job));
            Ran(t, Insert(id, request, now), [id], t') && Sound(t')
  {
    InsertKeepsKeys(t.jobs, id, request, now);
    hide KeysUnique;
    hide KeyTaken;
    var op := Insert(id, request, now);
    assert Lists([id], t.jobs, op);
    JobsKeepSessions(t, op, [id]);
    RecordOne(t.sessions, JobTable.After(t.jobs, op), id);
    assert t.jobs[id := NewRow(id, request, now)] == JobTable.After(t.jobs, op);
  }

  function RetiredAll(jobs: JobMap, now: Time): JobMap {
    map id | id in jobs :: if RetireDue(jobs[id], now) then Retired(jobs[id]) else jobs[id]
  }

  lemma RetireRuns(t: Committed, order: seq<Uuid>, now: Time)
    requires Sound(t)
    requires forall id :: id in order <==> id in t.jobs && RetireDue(t.jobs[id], now)
    requires forall i, j :: 0 <= i < j < |order| ==> order[i] != order[j]
    ensures var swept := RetiredAll(t.jobs, now);
            && SessionsKnown(swept, t.sessions)
            && (forall id :: id in order ==> id in swept)
            && var t' := Committed(swept, RecordAll(t.sessions, swept, order));
               Ran(t, JobOp.RetireLapsed(now), order, t') && Sound(t')
  {
    var op := JobOp.RetireLapsed(now);
    RetiredAllIsAfter(t, order, now);
    JobsKeepSessions(t, op, order);
    KeysStay(t.jobs, op);
    assert Enabled(t, OnJobs(op, order));
    hide *;
    SoundStays(RetiredAll(t.jobs, now), t.sessions, RecordAll(t.sessions, RetiredAll(t.jobs, now), order));
    RunsTo(t, op, order);
  }

  lemma SoundStays(jobs: JobMap, sessions: SessionMap, sessions': SessionMap)
    requires (forall id :: id in jobs ==> jobs[id].job.id == id) && KeysUnique(jobs) && SessionsKnown(jobs, sessions)
    requires sessions'.Keys == sessions.Keys
    ensures Sound(Committed(jobs, sessions'))
  {
    hide KeysUnique;
  }

  lemma RunsTo(t: Committed, op: JobOp, order: seq<Uuid>)
    requires SessionsKnown(t.jobs, t.sessions) && Enabled(t, OnJobs(op, order))
    ensures var jobs := JobTable.After(t.jobs, op);
            && SessionsKnown(jobs, t.sessions) && (forall id :: id in order ==> id in jobs)
            && Ran(t, op, order, Committed(jobs, RecordAll(t.sessions, jobs, order)))
  {
    JobsKeepSessions(t, op, order);
    hide JobTable.After;
  }

  lemma RetiredAllIsAfter(t: Committed, order: seq<Uuid>, now: Time)
    requires forall id :: id in order <==> id in t.jobs && RetireDue(t.jobs[id], now)
    requires forall i, j :: 0 <= i < j < |order| ==> order[i] != order[j]
    ensures RetiredAll(t.jobs, now) == JobTable.After(t.jobs, JobOp.RetireLapsed(now))
    ensures Lists(order, t.jobs, JobOp.RetireLapsed(now))
  {
    hide RetireDue;
    hide Retired;
  }

  lemma RetiredRows(jobs: JobMap, now: Time)
    ensures RetiredAll(jobs, now).Keys == jobs.Keys
    ensures forall id :: id in jobs ==>
              var was, row := jobs[id], RetiredAll(jobs, now)[id];
              if !RetireDue(was, now) then row == was
              else
                && row.leaseId.None? && row.leaseExpiresAt.None? && row.leaseOwner.None?
                && row.job ==
                   if was.job.cancelRequested then was.job.(state := Cancelled)
                   else was.job.(state := Dead,
                                 error := if was.job.error.Some? then was.job.error else Some(LEASE_EXPIRED))
  {
    hide RetireDue;
  }

  class PostgresJobStore {
    const db: Database

    constructor (db: Database)
      ensures this.db == db
    {
      this.db := db;
    }

    /** Numbers a transition in its session's log. A job without a session has nobody to tell. */
    method RecordEvent(j: Job)
      requires j.sessionId.Some? ==> j.sessionId.value in db.sessions
      modifies db`sessions
      ensures db.sessions == Recorded(old(db.sessions), j)
      ensures j.sessionId.None? ==> db.sessions == old(db.sessions)
      ensures j.sessionId.Some? ==>
                var s := old(db.sessions)[j.sessionId.value];
                db.sessions == old(db.sessions)[j.sessionId.value :=
                  Session(s.nextSeq + 1, s.messages, s.events + [JobEvent(s.nextSeq, j.id, j.state)])]
    {
      if j.sessionId.Some? {
        var r := db.AllocateSeq(j.sessionId.value);
        var s := db.sessions[j.sessionId.value];
        db.sessions := db.sessions[j.sessionId.value := s.(events := s.events + [JobEvent(r.value, j.id, j.state)])];
      }
    }

    /** Creates the job, or returns the one its key already created; the flag says which. */
    method InsertOrGet(request: JobRequest, id: Uuid, now: Time) returns (r: Result<(Job, bool), InsertError>)
      requires db.Valid() && id !in db.jobs
      modifies db
      ensures db.Valid()
      ensures r.Err? ==> db.State() == old(db.State())
      ensures r == Err(CheckViolation) <==> request.maxAttempts <= 0
      ensures r == Err(NoSuchSession) <==>
                request.maxAttempts > 0 && !KeyTaken(old(db.jobs), request.sessionId, request.idempotencyKey)
                && request.sessionId.Some? && request.sessionId.value !in old(db.sessions)
      ensures r.Ok? && !r.value.1 ==>
                db.State() == old(db.State())
                && exists known ::
                     known in db.jobs && SameKey(db.jobs[known], request.sessionId, request.idempotencyKey)
                                   && r.value.0 == db.jobs[known].job
      ensures r.Ok? && r.value.1 ==>
                Ran(old(db.State()), Insert(id, request, now), [id], db.State())
                && db.jobs == old(db.jobs)[id := NewRow(id, request, now)] && r.value.0 == db.jobs[id].job
                && !KeyTaken(old(db.jobs), request.sessionId, request.idempotencyKey)
      ensures r.Ok? ==>
                (r.value.1 <==>
                   forall known :: known in old(db.jobs) ==>
                     !(old(db.jobs)[known].job.sessionId == request.sessionId
                       && old(db.jobs)[known].job.idempotencyKey == request.idempotencyKey))
    {
      if request.maxAttempts <= 0 {
        return Err(CheckViolation);
      }
      if known :| known in db.jobs && SameKey(db.jobs[known], request.sessionId, request.idempotencyKey) {
        return Ok((db.jobs[known].job, false));
      }
      if request.sessionId.Some? && request.sessionId.value !in db.sessions {
        return Err(NoSuchSession);
      }
      InsertRuns(db.State(), id, request, now);
      hide Ran;
      hide KeysUnique;
      hide SessionsKnown;
      db.jobs := db.jobs[id := NewRow(id, request, now)];
      RecordEvent(db.jobs[id].job);
      r := Ok((db.jobs[id].job, true));
    }

    method MarkPublished(id: Uuid, now: Time)
      requires db.Valid()
      modifies db`jobs
      ensures db.Valid() && Ran(old(db.State()), JobOp.MarkPublished(id, now), [], db.State())
      ensures db.jobs == if id in old(db.jobs) then old(db.jobs)[id := old(db.jobs)[id].(publishedAt := Some(now))]
              else old(db.jobs)
    {
      OneRowRuns(db.State(), JobOp.MarkPublished(id, now), id);
      hide Ran;
      hide KeysUnique;
      hide SessionsKnown;
      if id in db.jobs {
        db.jobs := db.jobs[id := db.jobs[id].(publishedAt := Some(now))];
      }
    }

    method Get(id: Uuid) returns (j: Option<Job>)
      ensures j == if id in db.jobs then Some(db.jobs[id].job) else None
    {
      j := if id in db.jobs then Some(db.jobs[id].job) else None;
    }

    /** Cancels a job nobody holds, and only raises the flag on one somebody does. */
    method Cancel(id: Uuid) returns (j: Option<Job>)
      requires db.Valid()
      modifies db
      ensures db.Valid()
      ensures Ran(old(db.State()), JobOp.Cancel(id), OrderOf(old(db.jobs), JobOp.Cancel(id), id), db.State())
      ensures j == if id in db.jobs then Some(db.jobs[id].job) else None
    {
      OneRowRuns(db.State(), JobOp.Cancel(id), id);
      hide Ran;
      hide KeysUnique;
      hide SessionsKnown;
      if id in db.jobs && !db.jobs[id].job.state.Terminal() {
        db.jobs := db.jobs[id := CancelAsked(db.jobs[id])];
        if db.jobs[id].job.state != Running {
          RecordEvent(db.jobs[id].job);
        }
      }
      j := Get(id);
    }

    /** Takes this job if it is reservable; `None` is the ordinary answer for one that is not. */
    method Claim(id: Uuid, token: Uuid, owner: string, lease: Time, now: Time) returns (r: Option<Lease>)
      requires db.Valid()
      modifies db
      ensures db.Valid()
      ensures var op := JobOp.Claim(id, token, owner, lease, now);
              Ran(old(db.State()), op, OrderOf(old(db.jobs), op, id), db.State())
      ensures r.Some? <==> id in old(db.jobs) && Claimable(old(db.jobs)[id], now)
      ensures r.Some? ==>
                id in db.jobs && r.value == Lease(token, db.jobs[id].job, owner, now + lease) && r.value.job.id == id
      ensures r.None? ==> db.State() == old(db.State())
      ensures r.Some? <==>
                id in old(db.jobs)
                && var row := old(db.jobs)[id];
                   || (row.job.state in {Queued, JobState.Failed} && row.runAfter <= now)
                   || (row.job.state == Running && row.leaseExpiresAt.Some? && row.leaseExpiresAt.value < now
                       && row.job.attempts < row.job.maxAttempts && !row.job.cancelRequested)
    {
      OneRowRuns(db.State(), JobOp.Claim(id, token, owner, lease, now), id);
      hide Ran;
      hide KeysUnique;
      hide SessionsKnown;
      if id in db.jobs && Claimable(db.jobs[id], now) {
        db.jobs := db.jobs[id := Claimed(db.jobs[id], token, owner, lease, now)];
        RecordEvent(db.jobs[id].job);
        return Some(Lease(token, db.jobs[id].job, owner, now + lease));
      }
      r := None;
    }

    /** The rows of a set, in whatever order the database returns them. */
    method Listed(ids: set<Uuid>) returns (order: seq<Uuid>)
      ensures forall id :: id in order <==> id in ids
      ensures forall i, j :: 0 <= i < j < |order| ==> order[i] != order[j]
    {
      order := [];
      var left := ids;
      while left != {}
        invariant left <= ids
        invariant forall id :: id in order <==> id in ids && id !in left
        invariant forall i, j :: 0 <= i < j < |order| ==> order[i] != order[j]
        decreases left
      {
        var id :| id in left;
        order := order + [id];
        left := left - {id};
      }
    }

    method LapsedReservable(now: Time) returns (order: seq<Uuid>)
      ensures forall id :: id in order <==> id in db.jobs && Lapsed(db.jobs[id], now)
      ensures forall id :: id in order <==>
                id in db.jobs
                && var row := db.jobs[id];
                   && row.job.state == Running && row.leaseExpiresAt.Some? && row.leaseExpiresAt.value < now
                   && row.job.attempts < row.job.maxAttempts && !row.job.cancelRequested
      ensures forall i, j :: 0 <= i < j < |order| ==> order[i] != order[j]
    {
      order := Listed(set id | id in db.jobs && Lapsed(db.jobs[id], now));
    }

    method Unpublished(olderThan: Time, now: Time) returns (order: seq<Uuid>)
      ensures forall id :: id in order <==> id in db.jobs && Jobs.Unpublished(db.jobs[id], olderThan, now)
      ensures forall id :: id in order <==>
                id in db.jobs
                && var row := db.jobs[id];
                   && row.publishedAt.None? && row.job.state in {Queued, JobState.Failed}
                   && row.runAfter < now - olderThan
      ensures forall i, j :: 0 <= i < j < |order| ==> order[i] != order[j]
    {
      order := Listed(set id | id in db.jobs && Jobs.Unpublished(db.jobs[id], olderThan, now));
    }

    /** Records each listed row, one number after another, inside the transaction that changed them. */
    method RecordEvents(order: seq<Uuid>)
      requires SessionsKnown(db.jobs, db.sessions) && forall id :: id in order ==> id in db.jobs
      modifies db`sessions
      ensures db.sessions == RecordAll(old(db.sessions), db.jobs, order)
    {
      var i := 0;
      while i < |order|
        invariant 0 <= i <= |order|
        invariant forall id :: id in order[..i] ==> id in db.jobs
        invariant db.sessions == RecordAll(old(db.sessions), db.jobs, order[..i])
      {
        assert order[..i + 1][..i] == order[..i];
        RecordEvent(db.jobs[order[i]].job);
        i := i + 1;
      }
      assert order[..i] == order;
    }

    /** The statement, and then the loop that records. */
    method RetireAll(now: Time) returns (order: seq<Uuid>)
      requires db.Valid()
      modifies db
      ensures db.Valid()
      ensures Ran(old(db.State()), JobOp.RetireLapsed(now), order, db.State())
      ensures forall id :: id in order <==> id in old(db.jobs) && RetireDue(old(db.jobs)[id], now)
      ensures db.jobs == RetiredAll(old(db.jobs), now)
    {
      order := Listed(set id | id in db.jobs && RetireDue(db.jobs[id], now));
      RetireRuns(db.State(), order, now);
      hide Ran;
      hide Sound;
      hide SessionsKnown;
      hide RecordAll;
      db.jobs := RetiredAll(db.jobs, now);
      RecordEvents(order);
    }

    /** Finishes the lapsed rows that no claim may take, then records each in its session's log. */
    method RetireLapsed(now: Time) returns (order: seq<Uuid>)
      requires db.Valid()
      modifies db
      ensures db.Valid()
      ensures Ran(old(db.State()), JobOp.RetireLapsed(now), order, db.State())
      ensures forall id :: id in order <==> id in old(db.jobs) && RetireDue(old(db.jobs)[id], now)
      ensures forall id :: id in order <==>
                id in old(db.jobs)
                && var row := old(db.jobs)[id];
                   && row.job.state == Running && row.leaseExpiresAt.Some? && row.leaseExpiresAt.value < now
                   && (row.job.attempts >= row.job.maxAttempts || row.job.cancelRequested)
      ensures db.jobs.Keys == old(db.jobs).Keys
      ensures forall id :: id in db.jobs ==>
                var was, row := old(db.jobs)[id], db.jobs[id];
                if id !in order then row == was
                else
                  && row.leaseId.None? && row.leaseExpiresAt.None? && row.leaseOwner.None?
                  && row.job ==
                     if was.job.cancelRequested then was.job.(state := Cancelled)
                     else was.job.(state := Dead,
                                   error := if was.job.error.Some? then was.job.error
                                            else Some("lease expired with no attempts remaining"))
    {
      hide Ran;
      hide Sound;
      hide RetiredAll;
      hide Retired;
      RetiredRows(db.jobs, now);
      order := RetireAll(now);
    }

    /** Renews the lease if the row still carries its token, and answers with the row's own job. */
    method Extend(lease: Lease, span: Time, now: Time) returns (r: Result<Lease, StaleLease>)
      requires db.Valid()
      modifies db`jobs
      ensures db.Valid()
      ensures Ran(old(db.State()), JobOp.Extend(lease.job.id, lease.id, span, now), [], db.State())
      ensures r.Ok? <==> lease.job.id in old(db.jobs) && Holds(old(db.jobs)[lease.job.id], lease.id)
      ensures r.Ok? ==> r.value == Lease(lease.id, db.jobs[lease.job.id].job, lease.owner, now + span)
      ensures r.Ok? <==> lease.job.id in old(db.jobs) && old(db.jobs)[lease.job.id].leaseId == Some(lease.id)
    {
      var id := lease.job.id;
      OneRowRuns(db.State(), JobOp.Extend(id, lease.id, span, now), id);
      hide Ran;
      hide KeysUnique;
      hide SessionsKnown;
      if id !in db.jobs || !Holds(db.jobs[id], lease.id) {
        return Err(StaleLease);
      }
      db.jobs := db.jobs[id := Extended(db.jobs[id], span, now)];
      r := Ok(Lease(lease.id, db.jobs[id].job, lease.owner, now + span));
    }

    method Ack(lease: Lease, resultRef: Option<string>) returns (r: Result<(), StaleLease>)
      requires db.Valid()
      modifies db
      ensures db.Valid()
      ensures var op := JobOp.Ack(lease.job.id, lease.id, resultRef);
              Ran(old(db.State()), op, OrderOf(old(db.jobs), op, lease.job.id), db.State())
      ensures r.Ok? <==> lease.job.id in old(db.jobs) && Holds(old(db.jobs)[lease.job.id], lease.id)
      ensures r.Ok? <==> lease.job.id in old(db.jobs) && old(db.jobs)[lease.job.id].leaseId == Some(lease.id)
    {
      var id := lease.job.id;
      OneRowRuns(db.State(), JobOp.Ack(id, lease.id, resultRef), id);
      hide Ran;
      hide KeysUnique;
      hide SessionsKnown;
      if id !in db.jobs || !Holds(db.jobs[id], lease.id) {
        return Err(StaleLease);
      }
      db.jobs := db.jobs[id := Acked(db.jobs[id], resultRef)];
      RecordEvent(db.jobs[id].job);
      r := Ok(());
    }

    /** Gives the job back, and answers with what it became. */
    method Nack(lease: Lease, error: string, retryIn: Option<Time>, now: Time) returns (r: Result<Job, StaleLease>)
      requires db.Valid()
      modifies db
      ensures db.Valid()
      ensures var op := JobOp.Nack(lease.job.id, lease.id, error, retryIn, now);
              Ran(old(db.State()), op, OrderOf(old(db.jobs), op, lease.job.id), db.State())
      ensures r.Ok? <==> lease.job.id in old(db.jobs) && Holds(old(db.jobs)[lease.job.id], lease.id)
      ensures r.Ok? ==> r.value == db.jobs[lease.job.id].job
      ensures r.Ok? <==> lease.job.id in old(db.jobs) && old(db.jobs)[lease.job.id].leaseId == Some(lease.id)
      ensures r.Ok? ==>
                var was, row := old(db.jobs)[lease.job.id], db.jobs[lease.job.id];
                row.publishedAt == if row.job.state == JobState.Failed then None else was.publishedAt
    {
      var id := lease.job.id;
      OneRowRuns(db.State(), JobOp.Nack(id, lease.id, error, retryIn, now), id);
      hide Ran;
      hide KeysUnique;
      hide SessionsKnown;
      if id !in db.jobs || !Holds(db.jobs[id], lease.id) {
        return Err(StaleLease);
      }
      db.jobs := db.jobs[id := Nacked(db.jobs[id], error, retryIn, now)];
      RecordEvent(db.jobs[id].job);
      r := Ok(db.jobs[id].job);
    }

    /** One statement of anybody's, by the method that runs it. */
    method Land(op: JobOp)
      requires db.Valid() && Lands(op, db.sessions)
      modifies db
      ensures db.Valid() && db.jobs == JobTable.After(old(db.jobs), op) && db.sessions.Keys == old(db.sessions.Keys)
    {
      hide Ran;
      hide Sound;
      hide JobTable.After;
      ghost var t := db.State();
      match op
      case Insert(id, request, now) => LandInsert(id, request, now);
      case MarkPublished(id, now) =>
        MarkPublished(id, now);
        RanMoves(t, op, [], db.State());
      case Cancel(id) =>
        var _ := Cancel(id);
        RanMoves(t, op, OrderOf(t.jobs, op, id), db.State());
      case Claim(id, token, owner, lease, now) =>
        var _ := Claim(id, token, owner, lease, now);
        RanMoves(t, op, OrderOf(t.jobs, op, id), db.State());
      case RetireLapsed(now) =>
        var order := RetireLapsed(now);
        RanMoves(t, op, order, db.State());
      case _ => LandFenced(op);
    }

    method LandInsert(id: Uuid, request: JobRequest, now: Time)
      requires db.Valid() && Lands(Insert(id, request, now), db.sessions)
      modifies db
      ensures db.Valid() && db.jobs == JobTable.After(old(db.jobs), Insert(id, request, now))
      ensures db.sessions.Keys == old(db.sessions.Keys)
    {
      hide Ran;
      hide Sound;
      hide JobTable.After;
      ghost var t, op := db.State(), Insert(id, request, now);
      if id in db.jobs {
        NoRowNoChange(db.jobs, op);
        return;
      }
      var r := InsertOrGet(request, id, now);
      if r.Err? {
        assert r.error == CheckViolation;
        NoRowNoChange(t.jobs, op);
      } else if !r.value.1 {
        assert KeyTaken(t.jobs, request.sessionId, request.idempotencyKey);
        NoRowNoChange(t.jobs, op);
      } else {
        RanMoves(t, op, [id], db.State());
      }
    }

    method LandFenced(op: JobOp)
      requires db.Valid() && (op.Extend? || op.Ack? || op.Nack?)
      modifies db
      ensures db.Valid() && db.jobs == JobTable.After(old(db.jobs), op) && db.sessions.Keys == old(db.sessions.Keys)
    {
      hide Ran;
      hide JobTable.After;
      ghost var t := db.State();
      if op.id !in db.jobs {
        NoRowNoChange(db.jobs, op);
        return;
      }
      RowsKnowTheirIds(t);
      hide Sound;
      var lease := Lease(op.token, db.jobs[op.id].job, "", 0);
      match op
      case Extend(id, token, span, now) =>
        var _ := Extend(lease, span, now);
        RanMoves(t, op, [], db.State());
      case Ack(id, token, ref) =>
        var _ := Ack(lease, ref);
        RanMoves(t, op, OrderOf(t.jobs, op, id), db.State());
      case Nack(id, token, error, retryIn, now) =>
        var _ := Nack(lease, error, retryIn, now);
        RanMoves(t, op, OrderOf(t.jobs, op, id), db.State());
    }

    /** What other processes do to the table while this one waits. */
    method Meanwhile(ops: seq<JobOp>)
      requires db.Valid() && AllLand(ops, db.sessions)
      modifies db
      ensures db.Valid() && db.jobs == Exec(old(db.jobs), ops) && db.sessions.Keys == old(db.sessions.Keys)
    {
      hide Sound;
      hide JobTable.After;
      assert ops[..0] == [];
      for i := 0 to |ops|
        invariant db.Valid() && db.jobs == Exec(old(db.jobs), ops[..i]) && db.sessions.Keys == old(db.sessions.Keys)
      {
        assert ops[..i + 1][..i] == ops[..i];
        Land(ops[i]);
      }
      assert ops[..|ops|] == ops;
    }
  }
}
