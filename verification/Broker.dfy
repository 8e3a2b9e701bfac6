/** The job rows beside the broker. Every await point of the RabbitMQ adapter is a step of its own,
    so producers, consumers and maintenance loops interleave freely and may stop anywhere
    (adapters/rabbitmq/job_queue.py). */
module Broker {
  import opened Basics
  import opened Jobs
  import opened JobTable

  /** A job id on the wire; it is not delivered before `readyAt`. */
  datatype Message = Message(job: Uuid, readyAt: Time)

  /** Where a consumer keeps an unacked delivery: not yet reserved, behind a lease, or nowhere. */
  datatype Keeping = Incoming | Held(token: Uuid) | Stray

  datatype Delivery = Delivery(consumer: nat, message: Message, keeping: Keeping)

  /** What some process still means to do about a job. `epoch` is the number of attempts the row had
      when the process decided it. */
  datatype Intent =
    | ToPublish(job: Uuid, delay: Time, epoch: int)
    | ToOffer(job: Uuid)
    | ToMark(job: Uuid, epoch: int)

  datatype System = System(
    now: Time,
    jobs: JobMap,
    queue: multiset<Message>,
    unacked: map<nat, Delivery>,
    intents: multiset<Intent>)

  datatype Step =
    | Tick(to: Time)
    | Enqueue(id: Uuid, request: JobRequest)
    | Publish(intent: Intent, readyAt: Time)
    | Mark(intent: Intent)
    | Drop(intent: Intent)
    | Deliver(consumer: nat, message: Message, tag: nat)
    | Reserve(tag: nat, token: Uuid, owner: string, lease: Time)
    | ReserveFails(tag: nat, token: Uuid, owner: string, lease: Time, committed: bool)
    | Release(consumer: nat, id: Uuid, guard: Option<Uuid>)
    | Requeue(tag: nat)
    | CancelJob(id: Uuid)
    | ExtendLease(id: Uuid, token: Uuid, span: Time)
    | AckJob(id: Uuid, token: Uuid, resultRef: Option<string>)
    | NackJob(id: Uuid, token: Uuid, error: string, retryIn: Option<Time>)
    | Retire
    | FindLapsed(id: Uuid)
    | FindOrphan(id: Uuid, olderThan: Time)

  function Start(now: Time): System {
    System(now, map[], multiset{}, map[], multiset{})
  }

  function RetryDelay(retryIn: Option<Time>): Time {
    if retryIn.Some? then retryIn.value else 0
  }

  predicate Enabled(s: System, step: Step) {
    match step
    case Tick(to) => s.now <= to
    case Enqueue(_, _) => true
    case Publish(intent, readyAt) =>
      && intent in s.intents
      && !intent.ToMark?
      && readyAt >= s.now + Max(if intent.ToPublish? then intent.delay else 0, 0)
    case Mark(intent) => intent in s.intents && intent.ToMark?
    case Drop(intent) => intent in s.intents
    case Deliver(_, m, tag) => m in s.queue && m.readyAt <= s.now && tag !in s.unacked
    case Reserve(tag, _, _, _) => tag in s.unacked && s.unacked[tag].keeping.Incoming?
    case ReserveFails(tag, _, _, _, _) => tag in s.unacked && s.unacked[tag].keeping.Incoming?
    case Release(_, _, _) => true
    case Requeue(tag) => tag in s.unacked
    case CancelJob(_) => true
    case ExtendLease(_, _, _) => true
    case AckJob(_, _, _) => true
    case NackJob(_, _, _, _) => true
    case Retire => true
    case FindLapsed(id) => id in s.jobs && Lapsed(s.jobs[id], s.now)
    case FindOrphan(id, olderThan) => olderThan >= 0 && id in s.jobs && Unpublished(s.jobs[id], olderThan, s.now)
  }

  /** The statement a step runs against the table, if it runs one. */
  function Statement(s: System, step: Step): Option<JobOp>
    requires Enabled(s, step)
  {
    match step
    case Enqueue(id, request) => Some(Insert(id, request, s.now))
    case Mark(intent) => Some(MarkPublished(intent.job, s.now))
    case Reserve(tag, token, owner, lease) => Some(Claim(s.unacked[tag].message.job, token, owner, lease, s.now))
    case ReserveFails(tag, token, owner, lease, committed) =>
      if committed then Some(Claim(s.unacked[tag].message.job, token, owner, lease, s.now)) else None
    case CancelJob(id) => Some(Cancel(id))
    case ExtendLease(id, token, span) => Some(Extend(id, token, span, s.now))
    case AckJob(id, token, ref) => Some(Ack(id, token, ref))
    case NackJob(id, token, error, retryIn) => Some(Nack(id, token, error, retryIn, s.now))
    case Retire => Some(RetireLapsed(s.now))
    case _ => None
  }

  function JobsAfter(s: System, step: Step): JobMap
    requires Enabled(s, step)
  {
    match Statement(s, step)
    case Some(op) => JobTable.After(s.jobs, op)
    case None => s.jobs
  }

  /** Does a release settle this delivery? It must be the one held for the job, and, when guarded,
      for that very lease. */
  predicate Settles(d: Delivery, consumer: nat, id: Uuid, guard: Option<Uuid>) {
    && d.consumer == consumer
    && d.message.job == id
    && d.keeping.Held?
    && (guard.None? || guard.value == d.keeping.token)
  }

  /** Holding a delivery for a job forgets the one the consumer held for it before. */
  function Hold(unacked: map<nat, Delivery>, tag: nat, token: Uuid): map<nat, Delivery>
    requires tag in unacked
  {
    var d := unacked[tag];
    map t | t in unacked ::
      if t == tag then d.(keeping := Held(token))
      else if Settles(unacked[t], d.consumer, d.message.job, None) then unacked[t].(keeping := Stray)
      else unacked[t]
  }

  function UnackedAfter(s: System, step: Step): map<nat, Delivery>
    requires Enabled(s, step)
  {
    match step
    case Deliver(c, m, tag) => s.unacked[tag := Delivery(c, m, Incoming)]
    case Reserve(tag, token, _, _) =>
      var id := s.unacked[tag].message.job;
      if id in s.jobs && Claimable(s.jobs[id], s.now) then Hold(s.unacked, tag, token) else s.unacked - {tag}
    case ReserveFails(tag, _, _, _, _) => s.unacked[tag := s.unacked[tag].(keeping := Stray)]
    case Release(c, id, guard) => map t | t in s.unacked && !Settles(s.unacked[t], c, id, guard) :: s.unacked[t]
    case Requeue(tag) => s.unacked - {tag}
    case _ => s.unacked
  }

  function QueueAfter(s: System, step: Step): multiset<Message>
    requires Enabled(s, step)
  {
    match step
    case Publish(intent, readyAt) => s.queue + multiset{Message(intent.job, readyAt)}
    case Deliver(_, m, _) => s.queue - multiset{m}
    case Requeue(tag) => s.queue + multiset{s.unacked[tag].message}
    case _ => s.queue
  }

  function IntentsAfter(s: System, step: Step): multiset<Intent>
    requires Enabled(s, step)
  {
    match step
    case Enqueue(id, request) =>
      if Inserts(s.jobs, Insert(id, request, s.now)) then s.intents + multiset{ToPublish(id, request.delay, 0)}
        else s.intents
    case Publish(intent, _) =>
      var rest := s.intents - multiset{intent};
      if intent.ToPublish? then rest + multiset{ToMark(intent.job, intent.epoch)} else rest
    case Mark(intent) => s.intents - multiset{intent}
    case Drop(intent) => s.intents - multiset{intent}
    case NackJob(id, token, _, retryIn) =>
      if id in s.jobs && Holds(s.jobs[id], token) && ReturnState(s.jobs[id].job) == Failed
      then s.intents + multiset{ToPublish(id, RetryDelay(retryIn), s.jobs[id].job.attempts)} else s.intents
    case FindLapsed(id) => s.intents + multiset{ToOffer(id)}
    case FindOrphan(id, _) => s.intents + multiset{ToPublish(id, 0, s.jobs[id].job.attempts)}
    case _ => s.intents
  }

  function After(s: System, step: Step): System
    requires Enabled(s, step)
  {
    System(if step.Tick? then step.to else s.now,
           JobsAfter(s, step), QueueAfter(s, step), UnackedAfter(s, step), IntentsAfter(s, step))
  }

  // ----- what it means for a job not to be lost

  /** A message that will still be claimable when it is delivered. */
  predicate Covers(m: Message, id: Uuid, r: Row) {
    m.job == id && m.readyAt >= r.runAfter
  }

  ghost predicate Covered(s: System, id: Uuid, r: Row) {
    || (exists m :: m in s.queue && Covers(m, id, r))
    || (exists tag :: tag in s.unacked && !s.unacked[tag].keeping.Held? && Covers(s.unacked[tag].message, id, r))
  }

  /** A row waiting its turn is one the orphan sweep will find, or one with a live message. */
  ghost predicate Safe(s: System, id: Uuid)
    requires id in s.jobs
  {
    InQueue(s.jobs[id]) ==> s.jobs[id].publishedAt.None? || Covered(s, id, s.jobs[id])
  }

  /** No claim has happened since the intent was formed. */
  predicate Current(r: Row, epoch: int) {
    InQueue(r) && r.job.attempts == epoch
  }

  ghost predicate IntentInv(s: System, i: Intent) {
    && (i.ToPublish? || i.ToMark? ==> i.job in s.jobs && Behind(s.jobs[i.job].job, i.epoch))
    && (i.ToPublish? && Current(s.jobs[i.job], i.epoch) ==> s.jobs[i.job].runAfter <= s.now + i.delay)
    && (i.ToMark? && Current(s.jobs[i.job], i.epoch) ==> Covered(s, i.job, s.jobs[i.job]))
  }

  /** What holds in every reachable system, whatever marks land late: the table is in order, a delivered
      message was due, and a half-done dual write is honest about what it has done. */
  ghost predicate SystemInv(s: System) {
    && TableInv(s.jobs)
    && (forall tag :: tag in s.unacked ==> s.unacked[tag].message.readyAt <= s.now)
    && (forall i :: i in s.intents ==> IntentInv(s, i))
  }

  /** The statement that marks a row published is not fenced. This is the fence it lacks: it must not
      mark an unpublished row that has been claimed since. */
  predicate Fenced(s: System, step: Step) {
    step.Mark? && step.intent.ToMark? && step.intent.job in s.jobs
    && InQueue(s.jobs[step.intent.job]) && s.jobs[step.intent.job].publishedAt.None?
    ==> s.jobs[step.intent.job].job.attempts == step.intent.epoch
  }

  /** A mark of this job lands in time, or lands late while another message covers the job. */
  ghost predicate MarkHarmless(s: System, step: Step, id: Uuid) {
    step.Mark? && step.intent.job == id && id in s.jobs ==> Fenced(s, step) || Covered(s, id, s.jobs[id])
  }

  predicate Run(s: System, steps: seq<Step>, s': System)
    decreases |steps|
  {
    if steps == [] then s == s'
    else Enabled(s, steps[0]) && Run(After(s, steps[0]), steps[1..], s')
  }

  /** Every mark of this job in the run is harmless. Nothing is asked of the marks of other jobs. */
  ghost predicate MarksHarmless(s: System, steps: seq<Step>, id: Uuid)
    decreases |steps|
  {
    steps != [] ==>
      Enabled(s, steps[0]) && MarkHarmless(s, steps[0], id) && MarksHarmless(After(s, steps[0]), steps[1..], id)
  }

  /** The job is safe in every state the run passes through. */
  ghost predicate SafeThroughout(s: System, steps: seq<Step>, id: Uuid)
    decreases |steps|
  {
    && (id in s.jobs ==> Safe(s, id))
    && (steps != [] ==> Enabled(s, steps[0]) && SafeThroughout(After(s, steps[0]), steps[1..], id))
  }

  lemma {:induction false} RunThenRun(s: System, steps: seq<Step>, m: System, more: seq<Step>, s': System)
    requires Run(s, steps, m) && Run(m, more, s')
    ensures Run(s, steps + more, s')
    decreases |steps|
  {
    hide Enabled;
    hide After;
    if steps == [] {
      assert steps + more == more;
    } else {
      RunThenRun(After(s, steps[0]), steps[1..], m, more, s');
      assert (steps + more)[0] == steps[0] && (steps + more)[1..] == steps[1..] + more;
    }
  }

  lemma OneStep(s: System, step: Step)
    requires Enabled(s, step)
    ensures Run(s, [step], After(s, step))
  {
    hide Enabled;
    hide After;
    assert [step][1..] == [];
  }

  // ----- one step keeps every job

  lemma JobsStepKeepsTable(s: System, step: Step)
    requires TableInv(s.jobs) && Enabled(s, step)
    ensures TableInv(JobsAfter(s, step))
  {
    hide TableInv;
    hide JobTable.After;
    if Statement(s, step).Some? {
      AfterKeepsInv(s.jobs, Statement(s, step).value);
    }
  }

  /** One statement on a row that waits afterwards: it was waiting already, and has not moved its `run_after`
      or its attempt count, or it has just been returned. */
  lemma WaitingAfter(id: Uuid, r: Row, op: JobOp)
    requires RowInv(r) && InQueue(RowAfter(id, r, op))
    ensures var r' := RowAfter(id, r, op);
            if InQueue(r) then
              && r'.runAfter == r.runAfter && r'.job.attempts == r.job.attempts
              && (r'.publishedAt != r.publishedAt ==> op.MarkPublished? && op.id == id)
            else
              && op.Nack? && op.id == id && Holds(r, op.token) && r'.publishedAt.None?
              && r'.runAfter == op.now + RetryDelay(op.retryIn)
              && r'.job.attempts == r.job.attempts && r.job.state == Running
  {
  }

  lemma NewRowWaits(s: System, step: Step, id: Uuid)
    requires Enabled(s, step) && id in JobsAfter(s, step) && id !in s.jobs
    ensures step.Enqueue? && step.id == id && Inserts(s.jobs, Insert(id, step.request, s.now))
    ensures JobsAfter(s, step)[id] == NewRow(id, step.request, s.now)
  {
    hide RowAfter;
    hide KeyTaken;
  }

  lemma OldRowAfter(s: System, step: Step, id: Uuid)
    requires Enabled(s, step) && id in s.jobs
    ensures id in JobsAfter(s, step)
    ensures JobsAfter(s, step)[id] ==
            if Statement(s, step).Some? then RowAfter(id, s.jobs[id], Statement(s, step).value) else s.jobs[id]
  {
    hide RowAfter;
    hide KeyTaken;
  }

  /** A row that is waiting after the step, and was waiting before it, has not moved its `run_after`
      or its attempt count; one that was not waiting before is new, or has just been returned. */
  lemma RowOfStep(s: System, step: Step, id: Uuid)
    requires TableInv(s.jobs) && Enabled(s, step) && id in JobsAfter(s, step)
    requires InQueue(JobsAfter(s, step)[id])
    ensures var r' := JobsAfter(s, step)[id];
            && (id in s.jobs && InQueue(s.jobs[id]) ==>
                  && r'.runAfter == s.jobs[id].runAfter
                  && r'.job.attempts == s.jobs[id].job.attempts
                  && (r'.publishedAt != s.jobs[id].publishedAt ==> step.Mark? && step.intent.job == id))
            && (id in s.jobs && !InQueue(s.jobs[id]) ==>
                  && step.NackJob? && step.id == id && Holds(s.jobs[id], step.token)
                  && r'.publishedAt.None? && r'.runAfter == s.now + RetryDelay(step.retryIn)
                  && r'.job.attempts == s.jobs[id].job.attempts && s.jobs[id].job.state == Running)
            && (id !in s.jobs ==>
                  && step.Enqueue? && step.id == id && Inserts(s.jobs, Insert(id, step.request, s.now))
                  && r'.publishedAt.None? && r'.job.attempts == 0 && r'.runAfter == s.now + step.request.delay)
  {
    if id in s.jobs {
      assert RowInv(s.jobs[id]);
      OldRowAfter(s, step, id);
      hide TableInv;
      hide RowInv;
      hide RowAfter;
      hide JobsAfter;
      if Statement(s, step).Some? { WaitingAfter(id, s.jobs[id], Statement(s, step).value); }
    } else {
      NewRowWaits(s, step, id);
      hide JobsAfter;
    }
  }

  lemma QueuedCoverStays(s: System, step: Step, id: Uuid, m: Message, r: Row)
    requires Enabled(s, step) && m in s.queue && Covers(m, id, r)
    ensures Covered(After(s, step), id, r)
  {
    hide JobsAfter;
    hide IntentsAfter;
    var s' := After(s, step);
    if step.Deliver? && step.message == m {
      assert s'.unacked[step.tag] == Delivery(step.consumer, m, Incoming);
    } else {
      assert m in s'.queue;
    }
  }

  /** An unacked delivery is settled only if it is held, or if its claim was refused. */
  lemma DeliveredCoverStays(s: System, step: Step, id: Uuid, tag: nat, r: Row)
    requires Enabled(s, step) && tag in s.unacked && !s.unacked[tag].keeping.Held?
             && Covers(s.unacked[tag].message, id, r)
    requires !(step.Reserve? && step.tag == tag)
    ensures Covered(After(s, step), id, r)
  {
    hide JobsAfter;
    hide IntentsAfter;
    var s', m := After(s, step), s.unacked[tag].message;
    if step.Requeue? && step.tag == tag {
      assert m in s'.queue;
    } else {
      assert tag in s'.unacked && s'.unacked[tag].message == m && !s'.unacked[tag].keeping.Held?;
    }
  }

  /** Trying a delivery that covers a waiting job takes the job out of its wait. */
  lemma CoverClaims(s: System, step: Step, id: Uuid)
    requires TableInv(s.jobs) && Enabled(s, step) && step.Reserve? && id in s.jobs && InQueue(s.jobs[id])
    requires var m := s.unacked[step.tag].message; Covers(m, id, s.jobs[id]) && m.readyAt <= s.now
    ensures id in JobsAfter(s, step) && !InQueue(JobsAfter(s, step)[id])
  {
    hide KeysUnique;
  }

  /** A live message for a row that stays waiting is still there after any step: the only deliveries
      that are settled are held ones, and ones whose claim was refused. */
  lemma CoverStays(s: System, step: Step, id: Uuid)
    requires SystemInv(s) && Enabled(s, step)
    requires id in s.jobs && InQueue(s.jobs[id]) && Covered(s, id, s.jobs[id])
    requires id in JobsAfter(s, step) && InQueue(JobsAfter(s, step)[id])
    ensures Covered(After(s, step), id, JobsAfter(s, step)[id])
  {
    var r, r' := s.jobs[id], JobsAfter(s, step)[id];
    RowOfStep(s, step, id);
    if m :| m in s.queue && Covers(m, id, r) {
      QueuedCoverStays(s, step, id, m, r');
    } else {
      var tag :| tag in s.unacked && !s.unacked[tag].keeping.Held? && Covers(s.unacked[tag].message, id, r);
      TriedCoverIsNotRefused(s, step, id, tag);
      DeliveredCoverStays(s, step, id, tag, r');
    }
  }

  lemma TriedCoverIsNotRefused(s: System, step: Step, id: Uuid, tag: nat)
    requires SystemInv(s) && Enabled(s, step) && id in s.jobs && InQueue(s.jobs[id])
    requires tag in s.unacked && Covers(s.unacked[tag].message, id, s.jobs[id])
    requires id in JobsAfter(s, step) && InQueue(JobsAfter(s, step)[id])
    ensures !(step.Reserve? && step.tag == tag)
  {
    hide TableInv;
    hide IntentInv;
    hide JobsAfter;
    if step.Reserve? && step.tag == tag { CoverClaims(s, step, id); }
  }

  lemma PublishCovers(s: System, step: Step, r: Row)
    requires Enabled(s, step) && step.Publish? && step.intent.ToPublish?
    requires r.runAfter <= s.now + step.intent.delay
    ensures Covered(After(s, step), step.intent.job, r)
  {
    assert Message(step.intent.job, step.readyAt) in After(s, step).queue;
  }

  /** The exact step: a safe job stays safe if and only if the step is no harmful mark of it. */
  lemma StepKeepsSafe(s: System, step: Step, id: Uuid)
    requires SystemInv(s) && Enabled(s, step)
    requires id in s.jobs ==> Safe(s, id)
    ensures id in JobsAfter(s, step) ==> (Safe(After(s, step), id) <==> MarkHarmless(s, step, id))
  {
    hide TableInv;
    hide Covered;
    hide IntentInv;
    if id in JobsAfter(s, step) && InQueue(JobsAfter(s, step)[id]) {
      if step.Mark? && step.intent.job == id && id in s.jobs {
        MarkIsSafeExactlyWhen(s, step.intent);
      } else {
        OtherStepsKeepSafe(s, step, id);
      }
    } else if step.Mark? && step.intent.job == id && id in s.jobs {
      MarkLeavesJob(s, step);
    }
  }

  lemma OtherStepsKeepSafe(s: System, step: Step, id: Uuid)
    requires SystemInv(s) && Enabled(s, step) && !(step.Mark? && step.intent.job == id)
    requires id in s.jobs ==> Safe(s, id)
    requires id in JobsAfter(s, step) && InQueue(JobsAfter(s, step)[id])
    ensures Safe(After(s, step), id)
  {
    RowOfStep(s, step, id);
    hide TableInv;
    hide IntentInv;
    hide Covered;
    hide Enabled;
    if id in s.jobs && InQueue(s.jobs[id]) && Covered(s, id, s.jobs[id]) { CoverStays(s, step, id); }
  }

  lemma MarkLeavesJob(s: System, step: Step)
    requires Enabled(s, step) && step.Mark? && step.intent.job in s.jobs
    ensures var id := step.intent.job;
            id in JobsAfter(s, step) && JobsAfter(s, step)[id] == s.jobs[id].(publishedAt := Some(s.now))
  {
  }

  lemma CoverOfMarked(s: System, intent: Intent)
    requires Enabled(s, Mark(intent)) && intent.job in s.jobs
    ensures var s', id := After(s, Mark(intent)), intent.job;
            id in s'.jobs && (Covered(s', id, s'.jobs[id]) <==> Covered(s, id, s.jobs[id]))
  {
    var s', id := After(s, Mark(intent)), intent.job;
    MarkLeavesJob(s, Mark(intent));
    assert s'.queue == s.queue && s'.unacked == s.unacked;
    assert forall m :: Covers(m, id, s.jobs[id]) <==> Covers(m, id, s'.jobs[id]);
  }

  /** A mark keeps its job safe exactly when the fence holds or another message covers the job anyway.
      Nothing is asked of any other job. */
  lemma MarkIsSafeExactlyWhen(s: System, intent: Intent)
    requires SystemInv(s) && Enabled(s, Mark(intent)) && intent.job in s.jobs && Safe(s, intent.job)
    ensures Safe(After(s, Mark(intent)), intent.job) <==>
            Fenced(s, Mark(intent)) || Covered(s, intent.job, s.jobs[intent.job])
  {
    assert IntentInv(s, intent);
    hide SystemInv;
    hide IntentInv;
    MarkLeavesJob(s, Mark(intent));
    CoverOfMarked(s, intent);
    var r := s.jobs[intent.job];
    if InQueue(r) && r.publishedAt.None? && Fenced(s, Mark(intent)) { FencedMarkIsCovered(s, intent); }
    hide After;
    hide Covered;
  }

  lemma FencedMarkIsCovered(s: System, intent: Intent)
    requires SystemInv(s) && Enabled(s, Mark(intent)) && intent.job in s.jobs
    requires InQueue(s.jobs[intent.job]) && s.jobs[intent.job].publishedAt.None? && Fenced(s, Mark(intent))
    ensures Covered(s, intent.job, s.jobs[intent.job])
  {
    assert IntentInv(s, intent);
  }

  /** An intent never runs ahead of its row, and a claim leaves it behind. */
  predicate Behind(j: Job, epoch: int) {
    epoch <= j.attempts && (j.state == Running ==> epoch < j.attempts)
  }

  lemma StaysBehind(id: Uuid, r: Row, op: JobOp, epoch: int)
    requires RowInv(r) && Behind(r.job, epoch)
    ensures Behind(RowAfter(id, r, op).job, epoch)
  {
  }

  lemma StepStaysBehind(s: System, step: Step, id: Uuid, epoch: int)
    requires TableInv(s.jobs) && Enabled(s, step) && id in s.jobs && Behind(s.jobs[id].job, epoch)
    ensures id in JobsAfter(s, step) && Behind(JobsAfter(s, step)[id].job, epoch)
  {
    assert RowInv(s.jobs[id]);
    OldRowAfter(s, step, id);
    hide TableInv;
    hide RowInv;
    hide RowAfter;
    hide Behind;
    hide JobsAfter;
    if Statement(s, step).Some? {
      StaysBehind(id, s.jobs[id], Statement(s, step).value, epoch);
    }
  }

  lemma KeptIntent(s: System, step: Step, i: Intent)
    requires SystemInv(s) && Enabled(s, step) && i in s.intents
    ensures IntentInv(After(s, step), i)
  {
    hide Covered;
    hide TableInv;
    hide InQueue;
    hide JobsAfter;
    assert IntentInv(s, i);
    if !i.ToOffer? {
      StepStaysBehind(s, step, i.job, i.epoch);
      var r' := JobsAfter(s, step)[i.job];
      if Current(r', i.epoch) {
        RowOfStep(s, step, i.job);
        if i.ToMark? { CoverStays(s, step, i.job); }
      }
    }
  }

  lemma NewMark(s: System, step: Step)
    requires SystemInv(s) && Enabled(s, step) && step.Publish? && step.intent.ToPublish?
    ensures IntentInv(After(s, step), ToMark(step.intent.job, step.intent.epoch))
  {
    hide Covered;
    hide Safe;
    hide TableInv;
    hide Behind;
    assert IntentInv(s, step.intent);
    var i := step.intent;
    assert After(s, step).jobs == s.jobs;
    if Current(s.jobs[i.job], i.epoch) { PublishCovers(s, step, s.jobs[i.job]); }
  }

  /** An enqueue, a returned attempt, and an orphan found all promise a message that covers the row. */
  lemma NewPublish(s: System, step: Step, i: Intent)
    requires SystemInv(s) && Enabled(s, step) && i.ToPublish? && i in IntentsAfter(s, step) && i !in s.intents
    ensures IntentInv(After(s, step), i)
  {
    assert step.Enqueue? || step.NackJob? || step.FindOrphan?;
    AfterJobs(s, step);
    if step.Enqueue? {
      EnqueuedIntent(s, step, i);
    } else if step.NackJob? {
      ReturnedIntent(s, step, i);
    } else {
      OrphanIntent(s, step, i);
    }
    hide *;
    NewPublishInv(After(s, step), i);
  }

  lemma EnqueuedIntent(s: System, step: Step, i: Intent)
    requires Enabled(s, step) && step.Enqueue? && i in IntentsAfter(s, step) && i !in s.intents
    ensures i.ToPublish? && Promised(JobsAfter(s, step), s.now, i)
  {
    hide JobsAfter;
    InsertedRow(s, step);
  }

  lemma ReturnedIntent(s: System, step: Step, i: Intent)
    requires SystemInv(s) && Enabled(s, step) && step.NackJob? && i in IntentsAfter(s, step) && i !in s.intents
    ensures i.ToPublish? && Promised(JobsAfter(s, step), s.now, i)
  {
    assert TableInv(s.jobs);
    hide SystemInv;
    hide KeysUnique;
    var r := s.jobs[i.job];
    assert RowInv(r);
    hide JobsAfter;
    OldRowAfter(s, step, i.job);
    ReturnedRow(i.job, r, Statement(s, step).value);
    hide RowAfter;
  }

  lemma OrphanIntent(s: System, step: Step, i: Intent)
    requires SystemInv(s) && Enabled(s, step) && step.FindOrphan? && i in IntentsAfter(s, step) && i !in s.intents
    ensures i.ToPublish? && Promised(JobsAfter(s, step), s.now, i)
  {
    assert TableInv(s.jobs);
    hide SystemInv;
    hide KeysUnique;
    assert RowInv(s.jobs[i.job]);
  }

  /** What a publish that has been decided says of its row. */
  predicate Promised(jobs: JobMap, now: Time, i: Intent)
    requires i.ToPublish?
  {
    i.job in jobs && Behind(jobs[i.job].job, i.epoch) && jobs[i.job].runAfter <= now + i.delay
  }

  lemma ReturnedRow(id: Uuid, r: Row, op: JobOp)
    requires op.Nack? && op.id == id && Holds(r, op.token)
    ensures RowAfter(id, r, op) == Nacked(r, op.error, op.retryIn, op.now)
  {
  }

  lemma InsertedRow(s: System, step: Step)
    requires step.Enqueue? && Inserts(s.jobs, Insert(step.id, step.request, s.now))
    ensures step.id in JobsAfter(s, step) && JobsAfter(s, step)[step.id] == NewRow(step.id, step.request, s.now)
  {
  }

  lemma NewPublishInv(s: System, i: Intent)
    requires i.ToPublish? && Promised(s.jobs, s.now, i)
    ensures IntentInv(s, i)
  {
  }

  lemma OfferInv(s: System, i: Intent)
    requires i.ToOffer?
    ensures IntentInv(s, i)
  {
  }

  lemma NewIntent(s: System, step: Step, i: Intent)
    requires SystemInv(s) && Enabled(s, step) && i in IntentsAfter(s, step) && i !in s.intents
    ensures IntentInv(After(s, step), i)
  {
    hide SystemInv;
    hide IntentInv;
    hide After;
    hide Inserts;
    match i
    case ToOffer(_) => OfferInv(After(s, step), i);
    case ToMark(_, _) =>
      assert step.Publish? && step.intent.ToPublish? && i == ToMark(step.intent.job, step.intent.epoch);
      NewMark(s, step);
    case ToPublish(_, _, _) => NewPublish(s, step, i);
  }

  /** Every step of every process keeps the table and the half-done dual writes in order, fenced or not. */
  lemma StepKeepsInv(s: System, step: Step)
    requires SystemInv(s) && Enabled(s, step)
    ensures SystemInv(After(s, step))
  {
    var s' := After(s, step);
    JobsStepKeepsTable(s, step);
    hide IntentInv;
    forall i | i in s'.intents
      ensures IntentInv(s', i)
    {
      if i in s.intents { KeptIntent(s, step, i); } else { NewIntent(s, step, i); }
    }
    DeliveriesStayDue(s, step);
    hide TableInv;
    hide JobsAfter;
    hide UnackedAfter;
    hide IntentsAfter;
  }

  lemma DeliveriesStayDue(s: System, step: Step)
    requires SystemInv(s) && Enabled(s, step)
    ensures forall tag :: tag in UnackedAfter(s, step) ==>
              UnackedAfter(s, step)[tag].message.readyAt <= After(s, step).now
  {
    hide IntentInv;
    hide TableInv;
  }

  // ----- whole runs

  lemma {:induction false} RunInv(s: System, steps: seq<Step>, s': System)
    requires SystemInv(s) && Run(s, steps, s')
    ensures SystemInv(s')
    decreases |steps|
  {
    hide SystemInv;
    if steps != [] {
      StepKeepsInv(s, steps[0]);
      RunInv(After(s, steps[0]), steps[1..], s');
    }
  }

  lemma {:induction false} SafeExactlyWhen(s: System, steps: seq<Step>, s': System, id: Uuid)
    requires SystemInv(s) && Run(s, steps, s') && (id in s.jobs ==> Safe(s, id))
    ensures SafeThroughout(s, steps, id) <==> MarksHarmless(s, steps, id)
    decreases |steps|
  {
    hide SystemInv;
    hide Safe;
    hide MarkHarmless;
    hide Enabled;
    hide After;
    if steps != [] {
      StepKeepsInv(s, steps[0]);
      StepKeepsSafe(s, steps[0], id);
      AfterJobs(s, steps[0]);
      if MarkHarmless(s, steps[0], id) {
        SafeExactlyWhen(After(s, steps[0]), steps[1..], s', id);
      } else {
        HarmKeepsJob(s, steps[0], id);
      }
    }
  }

  lemma AfterJobs(s: System, step: Step)
    requires Enabled(s, step)
    ensures After(s, step).jobs == JobsAfter(s, step)
  {
  }

  lemma HarmKeepsJob(s: System, step: Step, id: Uuid)
    requires Enabled(s, step) && !MarkHarmless(s, step, id)
    ensures id in JobsAfter(s, step)
  {
    MarkLeavesJob(s, step);
  }

  /** No job is lost, and exactly why: over every run of every producer, consumer and sweep, whatever
      crashes, repeats or overtakes, a job is safe in every state if and only if every mark of it, when
      it landed, was fenced or found another message covering the job. */
  lemma NoJobIsLostExactlyWhen(start: Time, steps: seq<Step>, s: System, id: Uuid)
    requires Run(Start(start), steps, s)
    ensures SafeThroughout(Start(start), steps, id) <==> MarksHarmless(Start(start), steps, id)
  {
    SafeExactlyWhen(Start(start), steps, s, id);
  }

  lemma {:induction false} SafeAtTheEnd(s: System, steps: seq<Step>, s': System, id: Uuid)
    requires Run(s, steps, s') && SafeThroughout(s, steps, id)
    ensures id in s'.jobs ==> Safe(s', id)
    decreases |steps|
  {
    hide Safe;
    if steps != [] { SafeAtTheEnd(After(s, steps[0]), steps[1..], s', id); }
  }

  /** So as long as no mark of this job does harm: when it is unfinished it is running under a lease, or
      will be found by the orphan sweep, or has an unsettled message that is due no earlier than itself. */
  lemma NoJobIsLost(start: Time, steps: seq<Step>, s: System, id: Uuid)
    requires Run(Start(start), steps, s) && MarksHarmless(Start(start), steps, id)
    requires id in s.jobs && !s.jobs[id].job.state.Terminal()
    ensures var r := s.jobs[id];
            || (r.job.state == Running && r.leaseId.Some? && r.leaseExpiresAt.Some?)
            || (InQueue(r) && r.publishedAt.None?)
            || (InQueue(r) && Covered(s, id, r))
  {
    ReachableRow(start, steps, s, id);
    hide Run;
    hide SafeThroughout;
    hide MarksHarmless;
    NoJobIsLostExactlyWhen(start, steps, s, id);
    SafeAtTheEnd(Start(start), steps, s, id);
  }

  lemma ReachableRow(start: Time, steps: seq<Step>, s: System, id: Uuid)
    requires Run(Start(start), steps, s) && id in s.jobs
    ensures RowInv(s.jobs[id])
  {
    RunInv(Start(start), steps, s);
  }

  // ----- what being lost would mean

  /** A job that waits, is marked published, and has no message anywhere and nobody about to send one. */
  ghost predicate Lost(s: System, id: Uuid) {
    && id in s.jobs
    && InQueue(s.jobs[id])
    && s.jobs[id].publishedAt.Some?
    && (forall m :: m in s.queue ==> m.job != id)
    && (forall tag :: tag in s.unacked ==> s.unacked[tag].message.job != id)
    && (forall i :: i in s.intents && !i.ToMark? ==> i.job != id)
  }

  lemma OnlyAClaimOrACancelMoves(id: Uuid, r: Row, op: JobOp)
    requires RowInv(r) && InQueue(r)
    requires op != Cancel(id) && !(op.Claim? && op.id == id)
    ensures RowAfter(id, r, op) == r || (op.MarkPublished? && RowAfter(id, r, op) == r.(publishedAt := Some(op.now)))
  {
  }

  lemma LostRowStays(s: System, step: Step, id: Uuid)
    requires TableInv(s.jobs) && Enabled(s, step) && Lost(s, id) && step != CancelJob(id)
    ensures id in JobsAfter(s, step)
    ensures var r, r' := s.jobs[id], JobsAfter(s, step)[id]; r' == r || r' == r.(publishedAt := Some(s.now))
  {
    assert RowInv(s.jobs[id]);
    OldRowAfter(s, step, id);
    hide TableInv;
    hide RowAfter;
    hide RowInv;
    hide JobsAfter;
    if Statement(s, step).Some? {
      OnlyAClaimOrACancelMoves(id, s.jobs[id], Statement(s, step).value);
    }
  }

  lemma LostQueueStays(s: System, step: Step, id: Uuid)
    requires Enabled(s, step) && Lost(s, id)
    ensures forall m :: m in QueueAfter(s, step) ==> m.job != id
  {
    hide JobsAfter;
    hide UnackedAfter;
  }

  lemma LostDeliveriesStay(s: System, step: Step, id: Uuid)
    requires Enabled(s, step) && Lost(s, id)
    ensures forall tag :: tag in UnackedAfter(s, step) ==> UnackedAfter(s, step)[tag].message.job != id
  {
    hide JobsAfter;
    hide QueueAfter;
  }

  lemma LostIntentsStay(s: System, step: Step, id: Uuid)
    requires TableInv(s.jobs) && Enabled(s, step) && Lost(s, id)
    ensures forall i :: i in IntentsAfter(s, step) && !i.ToMark? ==> i.job != id
  {
    hide KeysUnique;
    assert RowInv(s.jobs[id]);
    hide RowInv;
    if step.Publish? || step.Mark? || step.Drop? {
      assert forall i :: i in IntentsAfter(s, step) && !i.ToMark? ==> i in s.intents;
    }
  }

  lemma LostStays(s: System, step: Step, id: Uuid)
    requires TableInv(s.jobs) && Enabled(s, step) && Lost(s, id) && step != CancelJob(id)
    ensures Lost(After(s, step), id)
    ensures After(s, step).jobs[id].job == s.jobs[id].job
  {
    hide TableInv;
    hide JobsAfter;
    hide QueueAfter;
    hide UnackedAfter;
    hide IntentsAfter;
    LostRowStays(s, step, id);
    LostQueueStays(s, step, id);
    LostDeliveriesStay(s, step, id);
    LostIntentsStay(s, step, id);
  }

  /** A lost job is never run again: short of the user cancelling it, its row never changes state. */
  lemma {:induction false} LostForever(s: System, steps: seq<Step>, s': System, id: Uuid)
    requires TableInv(s.jobs) && Lost(s, id) && Run(s, steps, s') && CancelJob(id) !in steps
    ensures Lost(s', id) && s'.jobs[id].job == s.jobs[id].job
    decreases |steps|
  {
    hide Lost;
    if steps != [] {
      JobsStepKeepsTable(s, steps[0]);
      LostStays(s, steps[0], id);
      LostForever(After(s, steps[0]), steps[1..], s', id);
    }
  }

  // ----- the other side of "lost": every other unfinished job can still be brought on

  /** What the adapter and the passing of time do by themselves; a requeue is a consumer's crash. */
  predicate Own(step: Step) {
    step.Tick? || step.Publish? || step.Deliver? || step.Reserve? || step.Requeue? || step.Retire? || step.FindLapsed?
    || step.FindOrphan?
  }

  predicate OwnRun(s: System, steps: seq<Step>, s': System) {
    Run(s, steps, s') && forall i :: 0 <= i < |steps| ==> Own(steps[i])
  }

  /** The job has been attempted again, or finished. */
  predicate Moved(s: System, s': System, id: Uuid)
    requires id in s.jobs
  {
    id in s'.jobs
    && (s'.jobs[id].job.state.Terminal()
        || (s'.jobs[id].job.state == Running && s'.jobs[id].job.attempts == s.jobs[id].job.attempts + 1))
  }

  lemma RunCons(s: System, step: Step, rest: seq<Step>, s': System)
    requires Enabled(s, step) && Own(step) && OwnRun(After(s, step), rest, s')
    ensures OwnRun(s, [step] + rest, s')
  {
    hide After;
    hide Enabled;
    hide Own;
    assert ([step] + rest)[1..] == rest;
  }

  lemma NothingIsOwn(s: System)
    ensures OwnRun(s, [], s)
  {
  }

  lemma DeliverGives(s: System, m: Message, tag: nat)
    requires m in s.queue && m.readyAt <= s.now && tag !in s.unacked
    ensures var s' := After(s, Deliver(0, m, tag));
            s'.jobs == s.jobs && s'.now == s.now && tag in s'.unacked && s'.unacked[tag] == Delivery(0, m, Incoming)
  {
  }

  lemma ReserveClaims(s: System, tag: nat, token: Uuid)
    requires tag in s.unacked && s.unacked[tag].keeping.Incoming?
    requires var id := s.unacked[tag].message.job; id in s.jobs && Claimable(s.jobs[id], s.now)
    ensures var id, s' := s.unacked[tag].message.job, After(s, Reserve(tag, token, "w", 1));
            id in s'.jobs && s'.jobs[id] == Claimed(s.jobs[id], token, "w", 1, s.now)
  {
  }

  /** A message that is ready, for a row that is claimable now, leads to a new attempt. */
  lemma ClaimFromQueue(s: System, id: Uuid, m: Message, tag: nat, token: Uuid) returns (steps: seq<Step>, s': System)
    requires id in s.jobs && Claimable(s.jobs[id], s.now)
    requires m in s.queue && m.job == id && m.readyAt <= s.now && tag !in s.unacked
    ensures OwnRun(s, steps, s') && Moved(s, s', id)
  {
    var s1 := After(s, Deliver(0, m, tag));
    DeliverGives(s, m, tag);
    s' := After(s1, Reserve(tag, token, "w", 1));
    ReserveClaims(s1, tag, token);
    hide After;
    hide OwnRun;
    hide Claimable;
    NothingIsOwn(s');
    RunCons(s1, Reserve(tag, token, "w", 1), [], s');
    RunCons(s, Deliver(0, m, tag), [Reserve(tag, token, "w", 1)] + [], s');
    steps := [Deliver(0, m, tag)] + ([Reserve(tag, token, "w", 1)] + []);
  }

  lemma TickKeeps(s: System, to: Time)
    requires s.now <= to
    ensures After(s, Tick(to)) == System(to, s.jobs, s.queue, s.unacked, s.intents)
  {
  }

  /** Any message of a waiting job only has to be waited for. */
  lemma ClaimWaiting(s: System, id: Uuid, m: Message, tag: nat, token: Uuid) returns (steps: seq<Step>, s': System)
    requires id in s.jobs && InQueue(s.jobs[id]) && m in s.queue && m.job == id && tag !in s.unacked
    ensures OwnRun(s, steps, s') && Moved(s, s', id)
  {
    var late := Max(s.now, Max(m.readyAt, s.jobs[id].runAfter));
    TickKeeps(s, late);
    var s1 := After(s, Tick(late));
    hide OwnRun;
    hide After;
    steps, s' := ClaimFromQueue(s1, id, m, tag, token);
    RunCons(s, Tick(late), steps, s');
    steps := [Tick(late)] + steps;
  }

  lemma PublishGives(s: System, i: Intent, readyAt: Time)
    requires Enabled(s, Publish(i, readyAt))
    ensures var s' := After(s, Publish(i, readyAt));
            && s'.jobs == s.jobs && s'.now == s.now && s'.unacked == s.unacked
            && Message(i.job, readyAt) in s'.queue
  {
  }

  /** Somebody about to publish becomes a message. */
  lemma ClaimIntended(s: System, i: Intent, tag: nat, token: Uuid) returns (steps: seq<Step>, s': System)
    requires i in s.intents && !i.ToMark? && i.job in s.jobs && InQueue(s.jobs[i.job]) && tag !in s.unacked
    ensures OwnRun(s, steps, s') && Moved(s, s', i.job)
  {
    var readyAt := s.now + Max(if i.ToPublish? then i.delay else 0, 0);
    PublishGives(s, i, readyAt);
    var s1 := After(s, Publish(i, readyAt));
    hide OwnRun;
    hide After;
    steps, s' := ClaimWaiting(s1, i.job, Message(i.job, readyAt), tag, token);
    RunCons(s, Publish(i, readyAt), steps, s');
    steps := [Publish(i, readyAt)] + steps;
  }

  lemma OrphanGives(s: System, id: Uuid)
    requires Enabled(s, FindOrphan(id, 0))
    ensures var s' := After(s, FindOrphan(id, 0));
            && s'.jobs == s.jobs && s'.now == s.now && s'.unacked == s.unacked
            && ToPublish(id, 0, s.jobs[id].job.attempts) in s'.intents
  {
  }

  lemma ClaimOrphan(s: System, id: Uuid, tag: nat, token: Uuid) returns (steps: seq<Step>, s': System)
    requires id in s.jobs && InQueue(s.jobs[id]) && s.jobs[id].publishedAt.None? && tag !in s.unacked
    ensures OwnRun(s, steps, s') && Moved(s, s', id)
  {
    var late := Max(s.now, s.jobs[id].runAfter + 1);
    TickKeeps(s, late);
    var s1 := After(s, Tick(late));
    OrphanGives(s1, id);
    var s2 := After(s1, FindOrphan(id, 0));
    hide OwnRun;
    hide After;
    steps, s' := ClaimIntended(s2, ToPublish(id, 0, s.jobs[id].job.attempts), tag, token);
    RunCons(s1, FindOrphan(id, 0), steps, s');
    steps := [FindOrphan(id, 0)] + steps;
    RunCons(s, Tick(late), steps, s');
    steps := [Tick(late)] + steps;
  }

  lemma LapsedGives(s: System, id: Uuid)
    requires Enabled(s, FindLapsed(id))
    ensures var s' := After(s, FindLapsed(id));
            s'.jobs == s.jobs && s'.now == s.now && s'.unacked == s.unacked && ToOffer(id) in s'.intents
  {
  }

  /** A lapsed lease is offered again, and claimed. */
  lemma ClaimLapsed(s: System, id: Uuid, tag: nat, token: Uuid) returns (steps: seq<Step>, s': System)
    requires id in s.jobs && Lapsed(s.jobs[id], s.now) && tag !in s.unacked
    ensures OwnRun(s, steps, s') && Moved(s, s', id)
  {
    LapsedGives(s, id);
    var s1 := After(s, FindLapsed(id));
    PublishGives(s1, ToOffer(id), s.now);
    var s2 := After(s1, Publish(ToOffer(id), s.now));
    hide OwnRun;
    hide After;
    steps, s' := ClaimFromQueue(s2, id, Message(id, s.now), tag, token);
    RunCons(s1, Publish(ToOffer(id), s.now), steps, s');
    steps := [Publish(ToOffer(id), s.now)] + steps;
    RunCons(s, FindLapsed(id), steps, s');
    steps := [FindLapsed(id)] + steps;
  }

  lemma RetireFinishes(s: System, id: Uuid)
    requires id in s.jobs && RetireDue(s.jobs[id], s.now)
    ensures var s' := After(s, Retire); id in s'.jobs && s'.jobs[id].job.state.Terminal()
  {
  }

  /** A lease that nobody renews is found by one maintenance query or the other. */
  lemma MoveRunning(s: System, id: Uuid, tag: nat, token: Uuid) returns (steps: seq<Step>, s': System)
    requires id in s.jobs && RowInv(s.jobs[id]) && s.jobs[id].job.state == Running && tag !in s.unacked
    ensures OwnRun(s, steps, s') && Moved(s, s', id)
  {
    var late := Max(s.now, s.jobs[id].leaseExpiresAt.value + 1);
    TickKeeps(s, late);
    var s1 := After(s, Tick(late));
    hide OwnRun;
    hide After;
    if Lapsed(s1.jobs[id], s1.now) {
      steps, s' := ClaimLapsed(s1, id, tag, token);
    } else {
      RetireFinishes(s1, id);
      s' := After(s1, Retire);
      NothingIsOwn(s');
      RunCons(s1, Retire, [], s');
      steps := [Retire] + [];
    }
    RunCons(s, Tick(late), steps, s');
    steps := [Tick(late)] + steps;
  }

  lemma RequeueGives(s: System, t: nat)
    requires t in s.unacked
    ensures var s' := After(s, Requeue(t));
            && s'.jobs == s.jobs && s'.now == s.now && s'.unacked == s.unacked - {t} && s.unacked[t].message in s'.queue
  {
  }

  /** A delivery of a waiting job, wherever it is kept, comes back when its consumer goes away. */
  lemma ClaimDelivered(s: System, id: Uuid, t: nat, tag: nat, token: Uuid) returns (steps: seq<Step>, s': System)
    requires id in s.jobs && InQueue(s.jobs[id]) && t in s.unacked && s.unacked[t].message.job == id
             && tag !in s.unacked
    ensures OwnRun(s, steps, s') && Moved(s, s', id)
  {
    RequeueGives(s, t);
    var s1 := After(s, Requeue(t));
    hide OwnRun;
    hide After;
    steps, s' := ClaimWaiting(s1, id, s.unacked[t].message, tag, token);
    RunCons(s, Requeue(t), steps, s');
    steps := [Requeue(t)] + steps;
  }

  /** Every unfinished job that is not lost has a continuation, made only of what the adapter does by
      itself, in which it is attempted again or finished. */
  lemma UnlostJobCanMove(s: System, id: Uuid, tag: nat, token: Uuid) returns (steps: seq<Step>, s': System)
    requires SystemInv(s) && id in s.jobs && !s.jobs[id].job.state.Terminal() && !Lost(s, id) && tag !in s.unacked
    ensures OwnRun(s, steps, s') && Moved(s, s', id)
  {
    assert RowInv(s.jobs[id]);
    hide SystemInv;
    hide OwnRun;
    hide Moved;
    if s.jobs[id].job.state == Running {
      steps, s' := MoveRunning(s, id, tag, token);
    } else if s.jobs[id].publishedAt.None? {
      steps, s' := ClaimOrphan(s, id, tag, token);
    } else if m :| m in s.queue && m.job == id {
      steps, s' := ClaimWaiting(s, id, m, tag, token);
    } else if t :| t in s.unacked && s.unacked[t].message.job == id {
      steps, s' := ClaimDelivered(s, id, t, tag, token);
    } else {
      var i :| i in s.intents && !i.ToMark? && i.job == id;
      steps, s' := ClaimIntended(s, i, tag, token);
    }
  }

  lemma OwnRunsDoNotCancel(s: System, steps: seq<Step>, s': System, id: Uuid)
    requires OwnRun(s, steps, s')
    ensures Run(s, steps, s') && CancelJob(id) !in steps
  {
  }

  /** Some continuation without a cancel of the job moves it. */
  ghost predicate CanMove(s: System, id: Uuid)
    requires id in s.jobs
  {
    exists steps, s' :: Run(s, steps, s') && CancelJob(id) !in steps && Moved(s, s', id)
  }

  lemma LostCannotMove(s: System, id: Uuid)
    requires SystemInv(s) && Lost(s, id)
    ensures !CanMove(s, id)
  {
    assert id in s.jobs;
    hide SystemInv;
    hide Moved;
    hide Lost;
    forall steps, s' | Run(s, steps, s') && CancelJob(id) !in steps
      ensures !Moved(s, s', id)
    {
      LostNeverMoves(s, steps, s', id);
    }
  }

  lemma LostNeverMoves(s: System, steps: seq<Step>, s': System, id: Uuid)
    requires SystemInv(s) && Lost(s, id) && Run(s, steps, s') && CancelJob(id) !in steps
    ensures !Moved(s, s', id)
  {
    LostForever(s, steps, s', id);
    hide Run;
  }

  lemma UnlostCanMove(s: System, id: Uuid, tag: nat, token: Uuid)
    requires SystemInv(s) && id in s.jobs && !s.jobs[id].job.state.Terminal() && !Lost(s, id) && tag !in s.unacked
    ensures CanMove(s, id)
  {
    var steps, s' := UnlostJobCanMove(s, id, tag, token);
    OwnRunsDoNotCancel(s, steps, s', id);
    hide SystemInv;
    hide OwnRun;
    hide Moved;
    hide Lost;
  }

  /** Being lost is exactly being unable to move: in every reachable system, whatever marks landed late, an
      unfinished job has some continuation without a cancel in which it is attempted again or finished if
      and only if it is not lost. */
  lemma JobCanMoveExactlyWhen(start: Time, past: seq<Step>, s: System, id: Uuid)
    requires Run(Start(start), past, s) && id in s.jobs && !s.jobs[id].job.state.Terminal()
    ensures CanMove(s, id) <==> !Lost(s, id)
  {
    RunInv(Start(start), past, s);
    hide Run;
    hide Lost;
    hide SystemInv;
    if Lost(s, id) {
      LostCannotMove(s, id);
    } else {
      var tag := FreeNumber(s.unacked.Keys);
      UnlostCanMove(s, id, tag, 0);
    }
  }

  lemma SafeIsNotLost(s: System, id: Uuid)
    requires id in s.jobs && Safe(s, id)
    ensures !Lost(s, id)
  {
  }

  /** As long as no mark of this job does harm, then, it can always be attempted again or finished. */
  lemma UnharmedJobCanMove(start: Time, past: seq<Step>, s: System, id: Uuid)
    requires Run(Start(start), past, s) && MarksHarmless(Start(start), past, id)
    requires id in s.jobs && !s.jobs[id].job.state.Terminal()
    ensures CanMove(s, id)
  {
    hide *;
    NoJobIsLostExactlyWhen(start, past, s, id);
    SafeAtTheEnd(Start(start), past, s, id);
    SafeIsNotLost(s, id);
    JobCanMoveExactlyWhen(start, past, s, id);
  }
}
