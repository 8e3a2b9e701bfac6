/** Any number of supervisors over one job table and one object store. Each works from its own copy of
    its lease; statements, replies and uploads may land late, or land without the caller hearing of it
    (worker/supervisor.py over adapters/postgres/job_store.py and core/artifacts.py). */
module Execution {
  import opened Basics
  import opened Jobs
  import opened JobTable
  import opened Artifacts

  newtype Byte = b: int | 0 <= b < 256
  type Bytes = seq<Byte>

  /** Where one attempt is: watching its child, uploading, its `ack` sent, its `nack` sent, or done with. */
  datatype Phase = Watching | Uploading | Acking | Nacking | Over

  /** One attempt at a job, known by its token. `copy` is the supervisor's own idea of the deadline,
      `replies` the deadlines its renewals have written, and `output` what its child solved. */
  datatype Attempt = Attempt(job: Uuid, span: Time, copy: Time, replies: set<Time>, phase: Phase, output: Option<Bytes>)

  datatype World = World(now: Time, jobs: JobMap, attempts: map<Uuid, Attempt>, objects: map<string, Bytes>)

  datatype Event =
    | Tick(to: Time)
    | Others(op: JobOp)
    | ClaimLands(id: Uuid, token: Uuid, owner: string, span: Time)
    | ExtendLands(token: Uuid)
    | ExtendAnswers(token: Uuid, deadline: Time)
    | ChildSolved(token: Uuid, output: Bytes)
    | GiveBack(token: Uuid)
    | Discard(token: Uuid)
    | PutLands(token: Uuid)
    | PutReturns(token: Uuid)
    | PutFails(token: Uuid)
    | AckLands(token: Uuid)
    | NackLands(token: Uuid, error: string, retryIn: Option<Time>)
    | ReportLost(token: Uuid)

  function Key(w: World, token: Uuid): string
    requires token in w.attempts
  {
    ArtifactKey(w.attempts[token].job, token)
  }

  predicate Enabled(w: World, e: Event) {
    match e
    case Tick(to) => w.now <= to
    case Others(op) =>
      || (op.Insert? && op.now == w.now)
      || (op.MarkPublished? && op.now == w.now)
      || (op.RetireLapsed? && op.now == w.now)
      || op.Cancel?
    case ClaimLands(id, token, _, _) => id in w.jobs && Claimable(w.jobs[id], w.now) && token !in w.attempts
    case ExtendLands(token) => token in w.attempts
    case ExtendAnswers(token, deadline) =>
      token in w.attempts && w.attempts[token].phase == Watching && deadline in w.attempts[token].replies
    case ChildSolved(token, _) => token in w.attempts && w.attempts[token].phase == Watching
    case GiveBack(token) => token in w.attempts && w.attempts[token].phase == Watching
    case Discard(token) => token in w.attempts && w.attempts[token].phase == Watching
    case PutLands(token) => token in w.attempts && w.attempts[token].output.Some?
    case PutReturns(token) =>
      && token in w.attempts && w.attempts[token].phase == Uploading && w.attempts[token].output.Some?
      && Key(w, token) in w.objects && w.objects[Key(w, token)] == w.attempts[token].output.value
    case PutFails(token) => token in w.attempts && w.attempts[token].phase == Uploading
    case AckLands(token) => token in w.attempts && w.attempts[token].phase == Acking
    case NackLands(token, _, _) => token in w.attempts && w.attempts[token].phase == Nacking
    case ReportLost(token) => token in w.attempts && w.attempts[token].phase in {Acking, Nacking}
  }

  /** The statement an event lands in the table, if it lands one. */
  function Statement(w: World, e: Event): Option<JobOp>
    requires Enabled(w, e)
  {
    match e
    case Others(op) => Some(op)
    case ClaimLands(id, token, owner, span) => Some(Claim(id, token, owner, span, w.now))
    case ExtendLands(token) => Some(Extend(w.attempts[token].job, token, w.attempts[token].span, w.now))
    case AckLands(token) => Some(Ack(w.attempts[token].job, token, Some(Key(w, token))))
    case NackLands(token, error, retryIn) => Some(Nack(w.attempts[token].job, token, error, retryIn, w.now))
    case _ => None
  }

  function JobsAfter(w: World, e: Event): JobMap
    requires Enabled(w, e)
  {
    match Statement(w, e)
    case Some(op) => JobTable.After(w.jobs, op)
    case None => w.jobs
  }

  /** What an event does to the attempt it names. */
  function AttemptAfter(w: World, e: Event, a: Attempt): Attempt {
    match e
    case ExtendLands(token) =>
      if a.job in w.jobs && Holds(w.jobs[a.job], token) then a.(replies := a.replies + {w.now + a.span}) else a
    case ExtendAnswers(_, deadline) => a.(copy := deadline)
    case ChildSolved(_, output) => a.(phase := Uploading, output := Some(output))
    case GiveBack(_) => a.(phase := Nacking)
    case Discard(_) => a.(phase := Over)
    case PutReturns(_) => a.(phase := Acking)
    case PutFails(_) => a.(phase := Nacking)
    case AckLands(_) => a.(phase := Over)
    case NackLands(_, _, _) => a.(phase := Over)
    case ReportLost(_) => a.(phase := Over)
    case _ => a
  }

  predicate OfAttempt(e: Event) {
    !e.Tick? && !e.Others? && !e.ClaimLands?
  }

  function AttemptsAfter(w: World, e: Event): map<Uuid, Attempt>
    requires Enabled(w, e)
  {
    if e.ClaimLands? then
      w.attempts[e.token := Attempt(e.id, e.span, w.now + e.span, {w.now + e.span}, Watching, None)]
    else if OfAttempt(e) then w.attempts[e.token := AttemptAfter(w, e, w.attempts[e.token])]
    else w.attempts
  }

  function ObjectsAfter(w: World, e: Event): map<string, Bytes>
    requires Enabled(w, e)
  {
    if e.PutLands? then w.objects[Key(w, e.token) := w.attempts[e.token].output.value] else w.objects
  }

  function After(w: World, e: Event): World
    requires Enabled(w, e)
  {
    World(if e.Tick? then e.to else w.now, JobsAfter(w, e), AttemptsAfter(w, e), ObjectsAfter(w, e))
  }

  predicate Run(w: World, events: seq<Event>, w': World)
    decreases |events|
  {
    if events == [] then w == w'
    else Enabled(w, events[0]) && Run(After(w, events[0]), events[1..], w')
  }

  function Start(now: Time): World {
    World(now, map[], map[], map[])
  }

  // ----- the invariant

  /** The row still carries the token, with a deadline no earlier than `deadline`. */
  predicate Backed(w: World, token: Uuid, a: Attempt, deadline: Time) {
    && a.job in w.jobs
    && Holds(w.jobs[a.job], token)
    && w.jobs[a.job].leaseExpiresAt.Some?
    && deadline <= w.jobs[a.job].leaseExpiresAt.value
  }

  /** Every deadline an unreported attempt has ever been given is backed by the row, or past. */
  predicate LeaseInv(w: World, token: Uuid, a: Attempt) {
    && a.copy in a.replies
    && a.job in w.jobs
    && (a.phase != Over ==> forall d :: d in a.replies ==> Backed(w, token, a, d) || d < w.now)
    && (Holds(w.jobs[a.job], token) && w.jobs[a.job].leaseExpiresAt.Some?
        ==> w.jobs[a.job].leaseExpiresAt.value <= w.now + a.span)
  }

  /** What an attempt solved is fixed, and its `ack` is sent only after the bytes are in place. */
  predicate OutputInv(w: World, token: Uuid)
    requires token in w.attempts
  {
    var a := w.attempts[token];
    && (a.phase == Watching ==> a.output.None?)
    && (a.phase in {Uploading, Acking} ==> a.output.Some?)
    && (a.phase == Acking ==> Key(w, token) in w.objects)
  }

  /** The attempt that wrote an object. */
  predicate Wrote(w: World, token: Uuid, key: string)
    requires key in w.objects
  {
    token in w.attempts && key == Key(w, token) && w.attempts[token].output == Some(w.objects[key])
  }

  /** The attempt behind a result: its key, its bytes. */
  predicate ResultOf(w: World, id: Uuid, token: Uuid) {
    && id in w.jobs && token in w.attempts
    && w.attempts[token].job == id
    && w.jobs[id].job.resultRef == Some(ArtifactKey(id, token))
    && ArtifactKey(id, token) in w.objects
    && w.attempts[token].output == Some(w.objects[ArtifactKey(id, token)])
  }

  /** Every lease on a row is that of an attempt at its job. */
  predicate LeasesAttempted(w: World) {
    forall id :: id in w.jobs && w.jobs[id].leaseId.Some? ==>
      w.jobs[id].leaseId.value in w.attempts && w.attempts[w.jobs[id].leaseId.value].job == id
  }

  ghost predicate AttemptsInv(w: World) {
    forall token :: token in w.attempts ==> LeaseInv(w, token, w.attempts[token]) && OutputInv(w, token)
  }

  ghost predicate ObjectsWritten(w: World) {
    forall key :: key in w.objects ==> exists token :: Wrote(w, token, key)
  }

  ghost predicate ResultsOwned(w: World) {
    forall id :: id in w.jobs && w.jobs[id].job.resultRef.Some? ==> exists token :: ResultOf(w, id, token)
  }

  ghost predicate WorldInv(w: World) {
    && TableInv(w.jobs)
    && LeasesAttempted(w)
    && AttemptsInv(w)
    && ObjectsWritten(w)
    && ResultsOwned(w)
  }

  // ----- one event

  lemma JobsStepKeepsTable(w: World, e: Event)
    requires TableInv(w.jobs) && Enabled(w, e)
    ensures TableInv(JobsAfter(w, e))
  {
    hide TableInv;
    hide JobTable.After;
    if Statement(w, e).Some? {
      AfterKeepsInv(w.jobs, Statement(w, e).value);
    }
  }

  /** A statement takes a lease away only from its holder, or after its deadline. */
  lemma LeaseIsTakenOnlyLate(id: Uuid, r: Row, op: JobOp, token: Uuid)
    requires RowInv(r) && Holds(r, token) && !Holds(RowAfter(id, r, op), token)
    ensures ((op.Ack? || op.Nack?) && op.id == id && op.token == token)
            || ((op.Claim? || op.RetireLapsed?) && r.leaseExpiresAt.value < op.now)
  {
  }

  /** While a lease stays, its deadline moves only by its holder's renewal. */
  lemma DeadlineMovesByRenewal(id: Uuid, r: Row, op: JobOp, token: Uuid)
    requires RowInv(r) && Holds(r, token) && Holds(RowAfter(id, r, op), token)
    requires !(op.Claim? && op.token == token)
    ensures RowAfter(id, r, op).leaseExpiresAt == r.leaseExpiresAt
            || (op.Extend? && op.id == id && op.token == token
                && RowAfter(id, r, op).leaseExpiresAt == Some(op.now + op.span))
  {
  }

  /** A token appears on a row only by the claim that minted it. */
  lemma LeaseIsGivenByClaim(id: Uuid, r: Row, op: JobOp, token: Uuid)
    requires RowInv(r) && !Holds(r, token) && Holds(RowAfter(id, r, op), token)
    ensures op.Claim? && op.id == id && op.token == token
    ensures RowAfter(id, r, op).leaseExpiresAt == Some(op.now + op.lease)
  {
  }

  /** What one event does to the row under an existing attempt. */
  predicate RowMoves(w: World, e: Event, token: Uuid, r: Row, r': Row)
    requires token in w.attempts
  {
    && r.leaseId.Some? == r.leaseExpiresAt.Some?
    && r'.leaseId.Some? == r'.leaseExpiresAt.Some?
    && (Holds(r, token) && !Holds(r', token) ==>
          r.leaseExpiresAt.value < w.now || e == AckLands(token) || (e.NackLands? && e.token == token))
    && (Holds(r, token) && Holds(r', token) && r'.leaseExpiresAt != r.leaseExpiresAt ==> e == ExtendLands(token))
    && (e == ExtendLands(token) && Holds(r, token) ==> r' == Extended(r, w.attempts[token].span, w.now))
    && (!Holds(r, token) ==> !Holds(r', token))
  }

  lemma StatementMoves(w: World, e: Event, token: Uuid, r: Row)
    requires Enabled(w, e) && token in w.attempts && RowInv(r)
    ensures Statement(w, e).Some? ==>
              RowMoves(w, e, token, r, RowAfter(w.attempts[token].job, r, Statement(w, e).value))
    ensures RowMoves(w, e, token, r, r) || e == ExtendLands(token)
  {
    if Statement(w, e).Some? {
      var id, op := w.attempts[token].job, Statement(w, e).value;
      RowAfterKeepsInv(id, r, op);
      if e == ExtendLands(token) && Holds(r, token) { RenewalWrites(id, r, op); }
      hide RowAfter;
      if Holds(r, token) && !Holds(RowAfter(id, r, op), token) { LeaseIsTakenOnlyLate(id, r, op, token); }
      if Holds(r, token) && Holds(RowAfter(id, r, op), token) { DeadlineMovesByRenewal(id, r, op, token); }
      if !Holds(r, token) && Holds(RowAfter(id, r, op), token) { LeaseIsGivenByClaim(id, r, op, token); }
    }
  }

  lemma RowUnderAttempt(w: World, e: Event, token: Uuid)
    requires WorldInv(w) && Enabled(w, e) && token in w.attempts
    ensures w.attempts[token].job in w.jobs && w.attempts[token].job in JobsAfter(w, e)
    ensures RowMoves(w, e, token, w.jobs[w.attempts[token].job], JobsAfter(w, e)[w.attempts[token].job])
  {
    assert LeaseInv(w, token, w.attempts[token]);
    var id := w.attempts[token].job;
    assert RowInv(w.jobs[id]);
    hide WorldInv;
    hide RowInv;
    hide RowAfter;
    hide JobTable.After;
    hide RowMoves;
    StatementMoves(w, e, token, w.jobs[id]);
    if Statement(w, e).Some? { OldRowAfter(w.jobs, Statement(w, e).value, id); }
  }

  lemma RenewalWrites(id: Uuid, r: Row, op: JobOp)
    requires op.Extend? && op.id == id && Holds(r, op.token)
    ensures RowAfter(id, r, op) == Extended(r, op.span, op.now)
  {
  }

  /** What one event does to the attempt itself. */
  lemma AttemptMoves(w: World, e: Event, token: Uuid)
    requires Enabled(w, e) && token in w.attempts && w.attempts[token].job in w.jobs
    ensures token in AttemptsAfter(w, e)
    ensures var a, a' := w.attempts[token], AttemptsAfter(w, e)[token];
            && a'.job == a.job && a'.span == a.span
            && (a'.phase != Over ==>
                  a.phase != Over && e != AckLands(token) && !(e.NackLands? && e.token == token))
            && (a'.copy == a.copy || a'.copy in a.replies)
            && (a'.replies == a.replies
                || (e == ExtendLands(token) && Holds(w.jobs[a.job], token)
                    && a'.replies == a.replies + {w.now + a.span}))
  {
  }

  lemma BackingStays(w: World, e: Event, token: Uuid, a: Attempt, a': Attempt, deadline: Time)
    requires Enabled(w, e) && token in w.attempts && a == w.attempts[token] && a.job in w.jobs
             && a.job in JobsAfter(w, e)
    requires RowMoves(w, e, token, w.jobs[a.job], JobsAfter(w, e)[a.job])
    requires a'.job == a.job && e != AckLands(token) && !(e.NackLands? && e.token == token)
    requires Backed(w, token, a, deadline) || deadline < w.now
    requires Holds(w.jobs[a.job], token) && w.jobs[a.job].leaseExpiresAt.Some? ==>
               w.jobs[a.job].leaseExpiresAt.value <= w.now + a.span
    ensures Backed(After(w, e), token, a', deadline) || deadline < After(w, e).now
  {
    hide JobsAfter;
    hide AttemptsAfter;
    hide ObjectsAfter;
  }

  lemma RenewalBacks(w: World, token: Uuid, a: Attempt, a': Attempt)
    requires token in w.attempts && a == w.attempts[token] && a.job in w.jobs && a'.job == a.job
    requires Holds(w.jobs[a.job], token)
    ensures Backed(After(w, ExtendLands(token)), token, a', w.now + a.span)
  {
    OldRowAfter(w.jobs, Extend(a.job, token, a.span, w.now), a.job);
    RenewalWrites(a.job, w.jobs[a.job], Extend(a.job, token, a.span, w.now));
    hide JobTable.After;
    hide RowAfter;
    hide AttemptsAfter;
  }

  lemma LeaseStays(w: World, e: Event, token: Uuid)
    requires WorldInv(w) && Enabled(w, e) && token in w.attempts
    ensures LeaseInv(After(w, e), token, After(w, e).attempts[token])
  {
    RowUnderAttempt(w, e, token);
    assert LeaseInv(w, token, w.attempts[token]);
    hide WorldInv;
    hide JobsAfter;
    var a := w.attempts[token];
    AttemptMoves(w, e, token);
    hide AttemptsAfter;
    hide AttemptAfter;
    hide ObjectsAfter;
    var a' := After(w, e).attempts[token];
    if a'.phase != Over {
      forall d | d in a'.replies
        ensures Backed(After(w, e), token, a', d) || d < After(w, e).now
      {
        if d in a.replies {
          BackingStays(w, e, token, a, a', d);
        } else {
          RenewalBacks(w, token, a, a');
        }
      }
    }
    hide Backed;
  }

  lemma NewLease(w: World, e: Event)
    requires WorldInv(w) && Enabled(w, e) && e.ClaimLands?
    ensures LeaseInv(After(w, e), e.token, After(w, e).attempts[e.token])
    ensures OutputInv(After(w, e), e.token)
  {
    hide KeysUnique;
    var w' := After(w, e);
    assert w'.jobs[e.id] == Claimed(w.jobs[e.id], e.token, e.owner, e.span, w.now);
    assert w'.attempts[e.token] == Attempt(e.id, e.span, w.now + e.span, {w.now + e.span}, Watching, None);
  }

  /** An attempt's job never changes, and what it solved, once solved, never changes. */
  lemma AttemptKeeps(w: World, e: Event, token: Uuid)
    requires Enabled(w, e) && token in w.attempts
    requires w.attempts[token].phase == Watching ==> w.attempts[token].output.None?
    ensures token in After(w, e).attempts
    ensures After(w, e).attempts[token].job == w.attempts[token].job
    ensures w.attempts[token].output.Some? ==> After(w, e).attempts[token].output == w.attempts[token].output
  {
    hide JobsAfter;
  }

  lemma OutputStays(w: World, e: Event, token: Uuid)
    requires Enabled(w, e) && token in w.attempts && OutputInv(w, token)
    ensures OutputInv(After(w, e), token)
  {
    hide JobsAfter;
  }

  lemma WroteStays(w: World, e: Event, key: string)
    requires WorldInv(w) && Enabled(w, e) && key in ObjectsAfter(w, e)
    ensures exists token :: Wrote(After(w, e), token, key)
  {
    hide JobsAfter;
    hide TableInv;
    hide LeaseInv;
    if e.PutLands? && key == Key(w, e.token) {
      AttemptKeeps(w, e, e.token);
      assert Wrote(After(w, e), e.token, key);
    } else {
      var token :| Wrote(w, token, key);
      assert OutputInv(w, token);
      AttemptKeeps(w, e, token);
      assert Wrote(After(w, e), token, key);
    }
  }

  /** Only the attempt itself can write its object, and it always writes the same bytes. */
  lemma ObjectStays(w: World, e: Event, token: Uuid)
    requires Enabled(w, e) && token in w.attempts
    requires Key(w, token) in w.objects && w.attempts[token].output == Some(w.objects[Key(w, token)])
    ensures Key(w, token) in ObjectsAfter(w, e)
    ensures ObjectsAfter(w, e)[Key(w, token)] == w.objects[Key(w, token)]
  {
    if e.PutLands? {
      ArtifactKeyInjective(w.attempts[e.token].job, e.token, w.attempts[token].job, token);
    }
  }

  lemma ResultStays(w: World, e: Event, id: Uuid, token: Uuid)
    requires WorldInv(w) && Enabled(w, e) && ResultOf(w, id, token)
    ensures ResultOf(After(w, e), id, token)
  {
    assert OutputInv(w, token) && RowInv(w.jobs[id]);
    hide WorldInv;
    AttemptKeeps(w, e, token);
    ObjectStays(w, e, token);
    hide RowAfter;
    hide JobTable.After;
    hide AttemptsAfter;
    hide ObjectsAfter;
    if Statement(w, e).Some? {
      OldRowAfter(w.jobs, Statement(w, e).value, id);
      StepIsLater(id, w.jobs[id], Statement(w, e).value);
    }
  }

  /** A row gets a result only by an `ack` under its token. */
  lemma ResultNeedsAck(id: Uuid, r: Row, op: JobOp)
    requires r.job.resultRef.None? && RowAfter(id, r, op).job.resultRef.Some?
    ensures op.Ack? && op.id == id && Holds(r, op.token) && RowAfter(id, r, op).job.resultRef == op.resultRef
  {
  }

  lemma StatementNeedsAck(w: World, e: Event, id: Uuid)
    requires Enabled(w, e) && id in JobsAfter(w, e) && JobsAfter(w, e)[id].job.resultRef.Some?
    requires id !in w.jobs || w.jobs[id].job.resultRef.None?
    ensures e.AckLands? && w.attempts[e.token].job == id && id in w.jobs && Holds(w.jobs[id], e.token)
    ensures JobsAfter(w, e)[id].job.resultRef == Some(Key(w, e.token))
  {
    hide RowAfter;
    hide JobTable.After;
    var op := Statement(w, e).value;
    if id in w.jobs {
      OldRowAfter(w.jobs, op, id);
      ResultNeedsAck(id, w.jobs[id], op);
    } else {
      NewRowAfter(w.jobs, op, id);
    }
  }

  /** What is under an attempt's key is what the attempt solved. */
  lemma OwnBytes(w: World, token: Uuid)
    requires WorldInv(w) && token in w.attempts && Key(w, token) in w.objects
    ensures w.attempts[token].output == Some(w.objects[Key(w, token)])
  {
    hide TableInv;
    hide LeaseInv;
    hide OutputInv;
    hide ResultOf;
    var writer :| Wrote(w, writer, Key(w, token));
    ArtifactKeyInjective(w.attempts[token].job, token, w.attempts[writer].job, writer);
  }

  /** A result appears only by the `ack` of the attempt whose key it is, after its upload. */
  lemma ResultAppears(w: World, e: Event, id: Uuid)
    requires WorldInv(w) && Enabled(w, e) && id in JobsAfter(w, e) && JobsAfter(w, e)[id].job.resultRef.Some?
    requires id !in w.jobs || w.jobs[id].job.resultRef.None?
    ensures e.AckLands? && w.attempts[e.token].job == id && ResultOf(After(w, e), id, e.token)
  {
    StatementNeedsAck(w, e, id);
    assert OutputInv(w, e.token);
    OwnBytes(w, e.token);
    AttemptKeeps(w, e, e.token);
    hide WorldInv;
    hide JobsAfter;
    hide AttemptsAfter;
  }

  lemma LeasesHaveAttempts(w: World, e: Event, id: Uuid)
    requires WorldInv(w) && Enabled(w, e) && id in JobsAfter(w, e) && JobsAfter(w, e)[id].leaseId.Some?
    ensures var token := JobsAfter(w, e)[id].leaseId.value;
            token in AttemptsAfter(w, e) && AttemptsAfter(w, e)[token].job == id
  {
    assert id in w.jobs ==> RowInv(w.jobs[id]);
    assert id in w.jobs && w.jobs[id].leaseId.Some? ==>
             w.jobs[id].leaseId.value in w.attempts && w.attempts[w.jobs[id].leaseId.value].job == id;
    hide WorldInv;
    hide RowInv;
    LeaseHolder(w, e, id);
    hide JobsAfter;
    hide AttemptAfter;
    AttemptsKeepJobs(w, e);
  }

  lemma AttemptsKeepJobs(w: World, e: Event)
    requires Enabled(w, e)
    ensures forall token :: token in w.attempts ==>
              token in AttemptsAfter(w, e) && AttemptsAfter(w, e)[token].job == w.attempts[token].job
    ensures e.ClaimLands? ==> e.token in AttemptsAfter(w, e) && AttemptsAfter(w, e)[e.token].job == e.id
  {
  }

  lemma LeaseHolder(w: World, e: Event, id: Uuid)
    requires Enabled(w, e) && id in JobsAfter(w, e) && JobsAfter(w, e)[id].leaseId.Some?
    requires id in w.jobs ==> RowInv(w.jobs[id])
    ensures var token := JobsAfter(w, e)[id].leaseId.value;
            (id in w.jobs && Holds(w.jobs[id], token)) || (e.ClaimLands? && e.id == id && e.token == token)
  {
    hide RowAfter;
    hide RowInv;
    hide JobTable.After;
    var token := JobsAfter(w, e)[id].leaseId.value;
    if Statement(w, e).Some? {
      var op := Statement(w, e).value;
      if id in w.jobs {
        OldRowAfter(w.jobs, op, id);
        if !Holds(w.jobs[id], token) { LeaseIsGivenByClaim(id, w.jobs[id], op, token); }
      } else {
        NewRowAfter(w.jobs, op, id);
      }
    }
  }

  lemma LeasesStayAttempted(w: World, e: Event)
    requires WorldInv(w) && Enabled(w, e)
    ensures LeasesAttempted(After(w, e))
  {
    hide WorldInv;
    hide JobsAfter;
    hide AttemptsAfter;
    hide ObjectsAfter;
    forall id | id in JobsAfter(w, e) && JobsAfter(w, e)[id].leaseId.Some? {
      LeasesHaveAttempts(w, e, id);
    }
  }

  lemma AttemptStays(w: World, e: Event, token: Uuid)
    requires WorldInv(w) && Enabled(w, e) && token in After(w, e).attempts
    ensures LeaseInv(After(w, e), token, After(w, e).attempts[token]) && OutputInv(After(w, e), token)
  {
    if token in w.attempts {
      assert OutputInv(w, token);
      hide *;
      LeaseStays(w, e, token);
      OutputStays(w, e, token);
    } else {
      assert e.ClaimLands? && token == e.token;
      hide *;
      NewLease(w, e);
    }
  }

  lemma AttemptsStay(w: World, e: Event)
    requires WorldInv(w) && Enabled(w, e)
    ensures AttemptsInv(After(w, e))
  {
    hide WorldInv;
    hide LeaseInv;
    hide OutputInv;
    hide After;
    forall token | token in After(w, e).attempts
      ensures LeaseInv(After(w, e), token, After(w, e).attempts[token]) && OutputInv(After(w, e), token)
    {
      AttemptStays(w, e, token);
    }
  }

  lemma ObjectsStayWritten(w: World, e: Event)
    requires WorldInv(w) && Enabled(w, e)
    ensures ObjectsWritten(After(w, e))
  {
    hide WorldInv;
    hide Wrote;
    hide JobsAfter;
    hide AttemptsAfter;
    hide ObjectsAfter;
    forall key | key in ObjectsAfter(w, e)
      ensures exists token :: Wrote(After(w, e), token, key)
    {
      WroteStays(w, e, key);
    }
  }

  lemma ResultStaysOwned(w: World, e: Event, id: Uuid)
    requires WorldInv(w) && Enabled(w, e) && id in JobsAfter(w, e) && JobsAfter(w, e)[id].job.resultRef.Some?
    ensures exists token :: ResultOf(After(w, e), id, token)
  {
    if id in w.jobs && w.jobs[id].job.resultRef.Some? {
      var token :| ResultOf(w, id, token);
      hide *;
      ResultStays(w, e, id, token);
    } else {
      hide *;
      ResultAppears(w, e, id);
    }
  }

  lemma ResultsStayOwned(w: World, e: Event)
    requires WorldInv(w) && Enabled(w, e)
    ensures ResultsOwned(After(w, e))
  {
    hide WorldInv;
    hide ResultOf;
    hide JobsAfter;
    hide AttemptsAfter;
    hide ObjectsAfter;
    forall id | id in JobsAfter(w, e) && JobsAfter(w, e)[id].job.resultRef.Some?
      ensures exists token :: ResultOf(After(w, e), id, token)
    {
      ResultStaysOwned(w, e, id);
    }
  }

  lemma StepKeepsInv(w: World, e: Event)
    requires WorldInv(w) && Enabled(w, e)
    ensures WorldInv(After(w, e))
  {
    hide TableInv;
    hide LeasesAttempted;
    hide AttemptsInv;
    hide ObjectsWritten;
    hide ResultsOwned;
    hide JobsAfter;
    hide AttemptsAfter;
    hide ObjectsAfter;
    JobsStepKeepsTable(w, e);
    LeasesStayAttempted(w, e);
    AttemptsStay(w, e);
    ObjectsStayWritten(w, e);
    ResultsStayOwned(w, e);
  }

  // ----- whole runs

  lemma {:induction false} RunInv(w: World, events: seq<Event>, w': World)
    requires WorldInv(w) && Run(w, events, w')
    ensures WorldInv(w')
    decreases |events|
  {
    hide WorldInv;
    if events != [] {
      StepKeepsInv(w, events[0]);
      RunInv(After(w, events[0]), events[1..], w');
    }
  }

  lemma ReachableInv(start: Time, events: seq<Event>, w: World)
    requires Run(Start(start), events, w)
    ensures WorldInv(w)
  {
    RunInv(Start(start), events, w);
    hide WorldInv;
  }

  /** While a supervisor's own copy of its lease has not expired and it has not reported, the row still
      carries its token, with a deadline no earlier than the copy's. */
  lemma CopyIsHonest(start: Time, events: seq<Event>, w: World, token: Uuid)
    requires Run(Start(start), events, w) && token in w.attempts
    requires w.attempts[token].phase != Over && w.now < w.attempts[token].copy
    ensures Backed(w, token, w.attempts[token], w.attempts[token].copy)
  {
    ReachableInv(start, events, w);
    assert LeaseInv(w, token, w.attempts[token]);
  }

  lemma {:induction false} RepliesStay(w: World, events: seq<Event>, w': World, token: Uuid, deadline: Time)
    requires Run(w, events, w') && token in w.attempts && deadline in w.attempts[token].replies
    ensures token in w'.attempts && deadline in w'.attempts[token].replies
    decreases |events|
  {
    if events != [] {
      ReplyStays(w, events[0], token, deadline);
      hide After;
      RepliesStay(After(w, events[0]), events[1..], w', token, deadline);
    }
  }

  lemma ReplyStays(w: World, e: Event, token: Uuid, deadline: Time)
    requires Enabled(w, e) && token in w.attempts && deadline in w.attempts[token].replies
    ensures token in After(w, e).attempts && deadline in After(w, e).attempts[token].replies
  {
    hide JobsAfter;
    hide ObjectsAfter;
  }

  /** The event that writes a deadline for the token: its claim, or a renewal the row accepts. */
  predicate Grants(w: World, e: Event, token: Uuid, deadline: Time) {
    && Enabled(w, e)
    && ((e.ClaimLands? && e.token == token && deadline == w.now + e.span)
        || (e == ExtendLands(token) && w.attempts[token].job in w.jobs && Holds(w.jobs[w.attempts[token].job], token)
            && deadline == w.now + w.attempts[token].span))
  }

  lemma GrantReplies(w: World, e: Event, token: Uuid, deadline: Time)
    requires Grants(w, e, token, deadline)
    ensures token in After(w, e).attempts && deadline in After(w, e).attempts[token].replies
  {
    hide JobsAfter;
  }

  /** Every deadline the row was ever given for a token is honest: until it passes, or the attempt reports, the
      row carries the token with a deadline no earlier. A supervisor believes in one of these and in no other. */
  lemma EveryDeadlineIsHonest(start: Time, before: seq<Event>, w: World, grant: Event, after: seq<Event>, w': World,
                              token: Uuid, deadline: Time)
    requires Run(Start(start), before, w) && Grants(w, grant, token, deadline) && Run(After(w, grant), after, w')
    requires token in w'.attempts && w'.attempts[token].phase != Over && w'.now <= deadline
    ensures Backed(w', token, w'.attempts[token], deadline)
  {
    ReachableInv(start, before, w);
    StepKeepsInv(w, grant);
    RunInv(After(w, grant), after, w');
    GrantReplies(w, grant, token, deadline);
    RepliesStay(After(w, grant), after, w', token, deadline);
    assert LeaseInv(w', token, w'.attempts[token]);
    hide WorldInv;
    hide Run;
    hide After;
  }

  /** Two unexpired, unreported leases on one job are one lease. */
  lemma LeasesAreExclusive(start: Time, events: seq<Event>, w: World, token: Uuid, token': Uuid)
    requires Run(Start(start), events, w) && token in w.attempts && token' in w.attempts
    requires w.attempts[token].job == w.attempts[token'].job
    requires w.attempts[token].phase != Over && w.now < w.attempts[token].copy
    requires w.attempts[token'].phase != Over && w.now < w.attempts[token'].copy
    ensures token == token'
  {
    CopyIsHonest(start, events, w, token);
    CopyIsHonest(start, events, w, token');
  }

  lemma {:induction false} ResultForever(w: World, events: seq<Event>, w': World, id: Uuid, token: Uuid)
    requires WorldInv(w) && Run(w, events, w') && ResultOf(w, id, token)
    ensures ResultOf(w', id, token)
    ensures w'.objects[ArtifactKey(id, token)] == w.objects[ArtifactKey(id, token)]
    decreases |events|
  {
    hide WorldInv;
    if events != [] {
      ResultStays(w, events[0], id, token);
      StepKeepsInv(w, events[0]);
      ObjectStays(w, events[0], token);
      ResultForever(After(w, events[0]), events[1..], w', id, token);
    }
  }

  /** The event that makes a result: an `ack` whose token is on the row. */
  predicate Wins(w: World, e: Event, id: Uuid) {
    && Enabled(w, e)
    && e.AckLands?
    && w.attempts[e.token].job == id
    && id in w.jobs
    && Holds(w.jobs[id], e.token)
  }

  function WinsIn(w: World, events: seq<Event>, id: Uuid): nat
    requires exists w' :: Run(w, events, w')
    decreases |events|
  {
    if events == [] then 0
    else
      RunTail(w, events);
      (if Wins(w, events[0], id) then 1 else 0) + WinsIn(After(w, events[0]), events[1..], id)
  }

  lemma RunTail(w: World, events: seq<Event>)
    requires events != [] && exists w' :: Run(w, events, w')
    ensures Enabled(w, events[0]) && exists w' :: Run(After(w, events[0]), events[1..], w')
  {
    var w' :| Run(w, events, w');
    assert Run(After(w, events[0]), events[1..], w');
  }

  predicate HasResult(w: World, id: Uuid) {
    id in w.jobs && w.jobs[id].job.resultRef.Some?
  }

  lemma WinWrites(w: World, e: Event, id: Uuid)
    requires Wins(w, e, id) && RowInv(w.jobs[id])
    ensures id in JobsAfter(w, e) && JobsAfter(w, e)[id].job.resultRef.Some? && w.jobs[id].job.resultRef.None?
  {
    OldRowAfter(w.jobs, Statement(w, e).value, id);
    hide JobTable.After;
    hide ArtifactKey;
  }

  lemma WinMakesResult(w: World, e: Event, id: Uuid)
    requires WorldInv(w) && Enabled(w, e)
    ensures HasResult(After(w, e), id) <==> HasResult(w, id) || Wins(w, e, id)
    ensures !(HasResult(w, id) && Wins(w, e, id))
    ensures Wins(w, e, id) ==> ResultOf(After(w, e), id, e.token)
  {
    if Wins(w, e, id) {
      assert RowInv(w.jobs[id]);
      WinWrites(w, e, id);
      ResultAppears(w, e, id);
    } else if HasResult(w, id) {
      var token :| ResultOf(w, id, token);
      ResultStays(w, e, id, token);
    } else if HasResult(After(w, e), id) {
      StatementNeedsAck(w, e, id);
    }
    hide WorldInv;
    hide JobsAfter;
    hide AttemptsAfter;
    hide ObjectsAfter;
  }

  lemma {:induction false} WinsCount(w: World, events: seq<Event>, w': World, id: Uuid)
    requires WorldInv(w) && Run(w, events, w')
    ensures (if HasResult(w, id) then 1 else 0) + WinsIn(w, events, id) == if HasResult(w', id) then 1 else 0
    decreases |events|
  {
    hide WorldInv;
    hide HasResult;
    if events != [] {
      RunTail(w, events);
      WinMakesResult(w, events[0], id);
      StepKeepsInv(w, events[0]);
      WinsCount(After(w, events[0]), events[1..], w', id);
    }
  }

  /** Two executions, one effect: over any run of any number of supervisors, a job has a result exactly
      when one fenced `ack` has won, and no run has two such. */
  lemma AtMostOneWin(start: Time, events: seq<Event>, w: World, id: Uuid)
    requires Run(Start(start), events, w)
    ensures WinsIn(Start(start), events, id) == if HasResult(w, id) then 1 else 0
  {
    WinsCount(Start(start), events, w, id);
  }

  lemma WinLasts(w: World, win: Event, after: seq<Event>, w': World, id: Uuid)
    requires WorldInv(w) && Wins(w, win, id) && Run(After(w, win), after, w')
    ensures ResultOf(After(w, win), id, win.token) && ResultOf(w', id, win.token)
    ensures w'.objects[ArtifactKey(id, win.token)] == After(w, win).objects[ArtifactKey(id, win.token)]
  {
    assert Enabled(w, win);
    hide *;
    WinMakesResult(w, win, id);
    StepKeepsInv(w, win);
    ResultForever(After(w, win), after, w', id, win.token);
    ResultIsStored(After(w, win), id, win.token);
    ResultIsStored(w', id, win.token);
  }

  lemma ResultIsStored(w: World, id: Uuid, token: Uuid)
    requires ResultOf(w, id, token)
    ensures id in w.jobs && w.jobs[id].job.resultRef == Some(ArtifactKey(id, token))
    ensures ArtifactKey(id, token) in w.objects
  {
  }

  lemma AckKeepsOutput(w: World, win: Event, id: Uuid)
    requires Wins(w, win, id)
    ensures win.token in w.attempts && win.token in After(w, win).attempts
    ensures After(w, win).attempts[win.token].output == w.attempts[win.token].output
  {
    hide JobsAfter;
  }

  lemma SameOutput(w: World, w': World, id: Uuid, token: Uuid)
    requires ResultOf(w, id, token) && ResultOf(w', id, token)
    requires w'.objects[ArtifactKey(id, token)] == w.objects[ArtifactKey(id, token)]
    ensures token in w.attempts && token in w'.attempts && w'.attempts[token].output == w.attempts[token].output
  {
  }

  lemma OnlyItsOwnKey(w: World, id: Uuid, winner: Uuid)
    ensures forall token :: token in w.attempts && Key(w, token) == ArtifactKey(id, winner) ==> token == winner
  {
    forall token | token in w.attempts && Key(w, token) == ArtifactKey(id, winner)
      ensures token == winner
    {
      ArtifactKeyInjective(w.attempts[token].job, token, id, winner);
    }
  }

  /** What the winner leaves behind stays: the row names the winner's key, the store holds exactly the
      bytes the winner's child solved, no other attempt can write that key, and nothing later
      changes any of it. */
  lemma TheWinnerStays(start: Time, before: seq<Event>, w: World, win: Event, after: seq<Event>, w': World, id: Uuid)
    requires Run(Start(start), before, w) && Wins(w, win, id) && Run(After(w, win), after, w')
    ensures ResultOf(w', id, win.token)
    ensures w'.attempts[win.token].output == w.attempts[win.token].output
    ensures forall token :: token in w'.attempts && Key(w', token) == ArtifactKey(id, win.token) ==> token == win.token
  {
    assert Enabled(w, win) && win.AckLands?;
    hide *;
    ReachableInv(start, before, w);
    WinLasts(w, win, after, w', id);
    AckKeepsOutput(w, win, id);
    SameOutput(After(w, win), w', id, win.token);
    OnlyItsOwnKey(w', id, win.token);
  }
}
