/** A publish is marked after the fact, and by then the row may have moved on: the runs in which a late mark
    loses a job, one for every pair of attempt counts the missing fence would tell apart
    (adapters/postgres/job_store.py, adapters/rabbitmq/job_queue.py). */
module LateMarks {
  import opened Basics
  import opened Jobs
  import opened JobTable
  import opened Broker

  // ----- how late a mark must be

  /** The fence cannot be relaxed: for every unpublished waiting row that has been claimed since the
      publish was decided, there is a system in order in which marking it loses the job. */
  lemma FenceIsNeeded(now: Time, id: Uuid, r: Row, epoch: int)
    requires RowInv(r) && r.job.id == id && InQueue(r) && r.publishedAt.None? && epoch < r.job.attempts
    ensures var s := System(now, map[id := r], multiset{}, map[], multiset{ToMark(id, epoch)});
            SystemInv(s) && Enabled(s, Mark(ToMark(id, epoch))) && Lost(Broker.After(s, Mark(ToMark(id, epoch))), id)
  {
    var intent := ToMark(id, epoch);
    var s := System(now, map[id := r], multiset{}, map[], multiset{intent});
    OneIntent(s, intent);
    MarkLeavesJob(s, Mark(intent));
    assert Broker.After(s, Mark(intent)).intents == multiset{};
    hide Broker.After;
    hide IntentInv;
    hide TableInv;
    hide JobsAfter;
    assert Broker.After(s, Mark(intent)) == System(now, JobsAfter(s, Mark(intent)), multiset{}, map[], multiset{});
  }

  lemma OneIntent(s: System, intent: Intent)
    requires s.intents == multiset{intent} && s.unacked == map[] && intent.ToMark?
    requires s.jobs.Keys == {intent.job} && s.jobs[intent.job].job.id == intent.job
    requires var r := s.jobs[intent.job]; RowInv(r) && InQueue(r) && intent.epoch < r.job.attempts
    ensures SystemInv(s)
  {
    assert forall i :: i in s.intents ==> i == intent;
  }

  // ----- every such mark can really come about

  function Asked(budget: int): JobRequest {
    JobRequest("k", "{}", None, "key", budget, 0)
  }

  /** The row after so many attempts, each failed at once and returned without a backoff. */
  function Tried(budget: int, tokens: nat -> Uuid, attempts: nat): Row {
    if attempts == 0 then NewRow(1, Asked(budget), 0)
    else Nacked(Claimed(Tried(budget, tokens, attempts - 1), tokens(attempts - 1), "w", 60, 0), "boom", None, 0)
  }

  /** A mark outstanding for each of those publishes. */
  function Unmarked(attempts: nat): multiset<Intent> {
    if attempts == 0 then multiset{} else Unmarked(attempts - 1) + multiset{ToMark(1, attempts - 1)}
  }

  function BeforeRound(budget: int, tokens: nat -> Uuid, attempts: nat): System {
    System(0, map[1 := Tried(budget, tokens, attempts)], multiset{}, map[],
           Unmarked(attempts) + multiset{ToPublish(1, 0, attempts)})
  }

  /** One attempt: published but not marked, delivered, claimed, failed, and its delivery let go. */
  function Round(tokens: nat -> Uuid, attempts: nat): seq<Step> {
    [Publish(ToPublish(1, 0, attempts), 0), Deliver(0, Message(1, 0), 0), Reserve(0, tokens(attempts), "w", 60),
     NackJob(1, tokens(attempts), "boom", None), Release(0, 1, Some(tokens(attempts)))]
  }

  function Rounds(budget: int, tokens: nat -> Uuid, attempts: nat): seq<Step> {
    if attempts == 0 then [Enqueue(1, Asked(budget))]
    else Rounds(budget, tokens, attempts - 1) + Round(tokens, attempts - 1)
  }

  lemma {:induction false} TriedRow(budget: int, tokens: nat -> Uuid, attempts: nat)
    requires attempts < budget
    ensures var r := Tried(budget, tokens, attempts);
            && r.job.id == 1 && InQueue(r) && r.job.attempts == attempts && r.job.maxAttempts == budget
            && !r.job.cancelRequested && r.runAfter == 0 && r.publishedAt.None? && r.leaseId.None?
  {
    if attempts > 0 { TriedRow(budget, tokens, attempts - 1); }
  }

  // The states a round passes through.
  function Published(r: Row, intents: multiset<Intent>): System {
    System(0, map[1 := r], multiset{Message(1, 0)}, map[], intents)
  }

  function Carried(r: Row, keeping: Keeping, intents: multiset<Intent>): System {
    System(0, map[1 := r], multiset{}, map[0 := Delivery(0, Message(1, 0), keeping)], intents)
  }

  lemma Publishes(r: Row, before: multiset<Intent>, attempts: nat)
    ensures var s := System(0, map[1 := r], multiset{}, map[], before + multiset{ToPublish(1, 0, attempts)});
            Run(s, [Publish(ToPublish(1, 0, attempts), 0)], Published(r, before + multiset{ToMark(1, attempts)}))
  {
    var s := System(0, map[1 := r], multiset{}, map[], before + multiset{ToPublish(1, 0, attempts)});
    var step := Publish(ToPublish(1, 0, attempts), 0);
    assert s.intents - multiset{ToPublish(1, 0, attempts)} == before;
    OneStep(s, step);
    assert Broker.After(s, step) == Published(r, before + multiset{ToMark(1, attempts)});
    hide Run;
  }

  lemma Delivers(r: Row, intents: multiset<Intent>)
    ensures Run(Published(r, intents), [Deliver(0, Message(1, 0), 0)], Carried(r, Incoming, intents))
  {
    var step := Deliver(0, Message(1, 0), 0);
    OneStep(Published(r, intents), step);
    assert Broker.After(Published(r, intents), step) == Carried(r, Incoming, intents);
    hide Run;
  }

  lemma Reserves(r: Row, token: Uuid, intents: multiset<Intent>)
    requires InQueue(r) && r.runAfter == 0
    ensures Run(Carried(r, Incoming, intents), [Reserve(0, token, "w", 60)],
                Carried(Claimed(r, token, "w", 60, 0), Held(token), intents))
  {
    var s, step := Carried(r, Incoming, intents), Reserve(0, token, "w", 60);
    OneRowChanges(s.jobs, Claim(1, token, "w", 60, 0), 1);
    OneStep(s, step);
    hide Run;
    hide JobTable.After;
    assert Claimable(r, 0);
    assert RowAfter(1, r, Claim(1, token, "w", 60, 0)) == Claimed(r, token, "w", 60, 0);
    assert s.jobs[1 := Claimed(r, token, "w", 60, 0)] == map[1 := Claimed(r, token, "w", 60, 0)];
    assert UnackedAfter(s, step) == map[0 := Delivery(0, Message(1, 0), Held(token))];
    hide Claimed;
  }

  lemma ReturnWrites(jobs: JobMap, r: Row, token: Uuid)
    requires jobs == map[1 := r] && Holds(r, token)
    ensures JobTable.After(jobs, Nack(1, token, "boom", None, 0)) == map[1 := Nacked(r, "boom", None, 0)]
  {
    OneRowChanges(jobs, Nack(1, token, "boom", None, 0), 1);
    hide JobTable.After;
    assert jobs[1 := Nacked(r, "boom", None, 0)] == map[1 := Nacked(r, "boom", None, 0)];
    hide Nacked;
  }

  lemma ReturnLeaves(r: Row, token: Uuid, intents: multiset<Intent>)
    requires Holds(r, token) && !r.job.cancelRequested && r.job.attempts < r.job.maxAttempts
    ensures var s, step := Carried(r, Held(token), intents), NackJob(1, token, "boom", None);
            && Enabled(s, step)
            && Broker.After(s, step) == Carried(Nacked(r, "boom", None, 0), Held(token),
                                                intents + multiset{ToPublish(1, 0, r.job.attempts)})
  {
    ReturnWrites(map[1 := r], r, token);
    assert ReturnState(r.job) == Failed;
    hide JobTable.After;
    hide Nacked;
  }

  lemma Returns(r: Row, token: Uuid, intents: multiset<Intent>)
    requires Holds(r, token) && !r.job.cancelRequested && r.job.attempts < r.job.maxAttempts
    ensures Run(Carried(r, Held(token), intents), [NackJob(1, token, "boom", None)],
                Carried(Nacked(r, "boom", None, 0), Held(token),
                        intents + multiset{ToPublish(1, 0, r.job.attempts)}))
  {
    var step := NackJob(1, token, "boom", None);
    hide *;
    ReturnLeaves(r, token, intents);
    OneStep(Carried(r, Held(token), intents), step);
  }

  lemma Releases(r: Row, token: Uuid, intents: multiset<Intent>)
    ensures Run(Carried(r, Held(token), intents), [Release(0, 1, Some(token))],
                System(0, map[1 := r], multiset{}, map[], intents))
  {
    var s, step := Carried(r, Held(token), intents), Release(0, 1, Some(token));
    OneStep(s, step);
    assert UnackedAfter(s, step) == map[];
    hide Run;
  }

  lemma FiveSteps(s0: System, s1: System, s2: System, s3: System, s4: System, s5: System, steps: seq<Step>)
    requires |steps| == 5 && Run(s0, [steps[0]], s1) && Run(s1, [steps[1]], s2) && Run(s2, [steps[2]], s3)
    requires Run(s3, [steps[3]], s4) && Run(s4, [steps[4]], s5)
    ensures Run(s0, steps, s5)
  {
    hide Run;
    RunThenRun(s0, [steps[0]], s1, [steps[1]], s2);
    RunThenRun(s0, [steps[0]] + [steps[1]], s2, [steps[2]], s3);
    RunThenRun(s0, [steps[0]] + [steps[1]] + [steps[2]], s3, [steps[3]], s4);
    RunThenRun(s0, [steps[0]] + [steps[1]] + [steps[2]] + [steps[3]], s4, [steps[4]], s5);
    assert [steps[0]] + [steps[1]] + [steps[2]] + [steps[3]] + [steps[4]] == steps;
  }

  lemma TriedOnceMore(budget: int, tokens: nat -> Uuid, attempts: nat)
    requires attempts + 1 < budget
    ensures var r := Tried(budget, tokens, attempts);
            var taken := Claimed(r, tokens(attempts), "w", 60, 0);
            && InQueue(r) && r.runAfter == 0
            && Holds(taken, tokens(attempts)) && !taken.job.cancelRequested
            && taken.job.attempts == attempts + 1 < taken.job.maxAttempts
            && Nacked(taken, "boom", None, 0) == Tried(budget, tokens, attempts + 1)
    ensures Unmarked(attempts) + multiset{ToMark(1, attempts)} == Unmarked(attempts + 1)
  {
    TriedRow(budget, tokens, attempts);
  }

  lemma RoundRuns(budget: int, tokens: nat -> Uuid, attempts: nat)
    requires attempts + 1 < budget
    ensures Run(BeforeRound(budget, tokens, attempts), Round(tokens, attempts),
                BeforeRound(budget, tokens, attempts + 1))
  {
    hide Run;
    hide Tried;
    hide Unmarked;
    hide Claimed;
    hide Nacked;
    hide Published;
    hide Carried;
    hide InQueue;
    hide Holds;
    TriedOnceMore(budget, tokens, attempts);
    var r, token, marks := Tried(budget, tokens, attempts), tokens(attempts), Unmarked(attempts + 1);
    var taken, again := Claimed(r, token, "w", 60, 0), Tried(budget, tokens, attempts + 1);
    var left := marks + multiset{ToPublish(1, 0, attempts + 1)};
    Publishes(r, Unmarked(attempts), attempts);
    Delivers(r, marks);
    Reserves(r, token, marks);
    Returns(taken, token, marks);
    Releases(again, token, left);
    FiveSteps(BeforeRound(budget, tokens, attempts), Published(r, marks), Carried(r, Incoming, marks),
              Carried(taken, Held(token), marks), Carried(again, Held(token), left),
              BeforeRound(budget, tokens, attempts + 1), Round(tokens, attempts));
  }

  lemma FirstEnqueued(budget: int, tokens: nat -> Uuid)
    requires budget > 0
    ensures Run(Start(0), [Enqueue(1, Asked(budget))], BeforeRound(budget, tokens, 0))
  {
    var step := Enqueue(1, Asked(budget));
    OneStep(Start(0), step);
    assert Broker.After(Start(0), step) == BeforeRound(budget, tokens, 0);
    hide Run;
  }

  lemma {:induction false} RoundsRun(budget: int, tokens: nat -> Uuid, attempts: nat)
    requires attempts < budget
    ensures Run(Start(0), Rounds(budget, tokens, attempts), BeforeRound(budget, tokens, attempts))
  {
    hide Run;
    hide BeforeRound;
    hide Round;
    if attempts == 0 {
      FirstEnqueued(budget, tokens);
    } else {
      RoundsRun(budget, tokens, attempts - 1);
      RoundRuns(budget, tokens, attempts - 1);
      RunThenRun(Start(0), Rounds(budget, tokens, attempts - 1), BeforeRound(budget, tokens, attempts - 1),
                 Round(tokens, attempts - 1), BeforeRound(budget, tokens, attempts));
    }
  }

  lemma {:induction false} StillUnmarked(attempts: nat, epoch: nat)
    requires epoch < attempts
    ensures ToMark(1, epoch) in Unmarked(attempts)
  {
    if epoch < attempts - 1 { StillUnmarked(attempts - 1, epoch); }
  }

  lemma {:induction false} OnlyMarks(attempts: nat)
    ensures forall i :: i in Unmarked(attempts) ==> i.ToMark?
  {
    if attempts > 0 { OnlyMarks(attempts - 1); }
  }

  /** What is left once the last retry is forgotten: a waiting row nobody published, and marks outstanding. */
  function Forgotten(budget: int, tokens: nat -> Uuid, attempts: nat): System {
    System(0, map[1 := Tried(budget, tokens, attempts)], multiset{}, map[], Unmarked(attempts))
  }

  lemma Forgets(budget: int, tokens: nat -> Uuid, attempts: nat)
    ensures Run(BeforeRound(budget, tokens, attempts), [Drop(ToPublish(1, 0, attempts))],
                Forgotten(budget, tokens, attempts))
  {
    var s, step := BeforeRound(budget, tokens, attempts), Drop(ToPublish(1, 0, attempts));
    OneStep(s, step);
    assert s.intents - multiset{ToPublish(1, 0, attempts)} == Unmarked(attempts);
    assert Broker.After(s, step) == Forgotten(budget, tokens, attempts);
    hide Run;
  }

  lemma MarkLoses(budget: int, tokens: nat -> Uuid, attempts: nat, epoch: nat)
    requires epoch < attempts < budget
    ensures var s := Forgotten(budget, tokens, attempts);
            Enabled(s, Mark(ToMark(1, epoch))) && Lost(Broker.After(s, Mark(ToMark(1, epoch))), 1)
  {
    var s, step := Forgotten(budget, tokens, attempts), Mark(ToMark(1, epoch));
    TriedRow(budget, tokens, attempts);
    StillUnmarked(attempts, epoch);
    OnlyMarks(attempts);
    OneRowChanges(s.jobs, MarkPublished(1, 0), 1);
    hide JobTable.After;
    hide Tried;
    hide Unmarked;
  }

  /** The fence is needed in runs: for every number of attempts and every earlier one there is a run, with room
      for any budget above it, in which a mark decided at the earlier number lands at the later and loses the job. */
  lemma FenceIsNeededInRuns(budget: int, tokens: nat -> Uuid, attempts: nat, epoch: nat)
    requires epoch < attempts < budget
    ensures var past := Rounds(budget, tokens, attempts) + [Drop(ToPublish(1, 0, attempts))];
            var s := Forgotten(budget, tokens, attempts);
            && Run(Start(0), past, s)
            && s.jobs[1].job.attempts == attempts && InQueue(s.jobs[1]) && s.jobs[1].publishedAt.None?
            && Enabled(s, Mark(ToMark(1, epoch))) && Lost(Broker.After(s, Mark(ToMark(1, epoch))), 1)
  {
    TriedRow(budget, tokens, attempts);
    MarkLoses(budget, tokens, attempts, epoch);
    RoundsRun(budget, tokens, attempts);
    Forgets(budget, tokens, attempts);
    hide Run;
    hide Enabled;
    hide Broker.After;
    hide Lost;
    hide Tried;
    RunThenRun(Start(0), Rounds(budget, tokens, attempts), BeforeRound(budget, tokens, attempts),
               [Drop(ToPublish(1, 0, attempts))], Forgotten(budget, tokens, attempts));
  }

  /** The shortest of these runs. A producer publishes a job and is slow to mark it; the job is claimed and fails,
      and its consumer dies before publishing the retry; then the mark lands. */
  function Story(token: Uuid): seq<Step> {
    [Enqueue(1, Asked(3)), Publish(ToPublish(1, 0, 0), 0), Deliver(0, Message(1, 0), 0),
     Reserve(0, token, "w", 60), NackJob(1, token, "boom", None), Release(0, 1, Some(token)),
     Drop(ToPublish(1, 0, 1)), Mark(ToMark(1, 0))]
  }

  lemma StoryIsOneRound(tokens: nat -> Uuid)
    ensures Rounds(3, tokens, 1) + [Drop(ToPublish(1, 0, 1))] + [Mark(ToMark(1, 0))] == Story(tokens(0))
  {
    assert Rounds(3, tokens, 0) == [Enqueue(1, Asked(3))];
  }

  lemma ALateMarkLosesAJob(token: Uuid) returns (s: System)
    ensures Run(Start(0), Story(token), s) && Lost(s, 1)
  {
    var tokens := (n: nat) => token;
    var late, left := Mark(ToMark(1, 0)), Forgotten(3, tokens, 1);
    hide *;
    FenceIsNeededInRuns(3, tokens, 1, 0);
    StoryIsOneRound(tokens);
    s := Broker.After(left, late);
    OneStep(left, late);
    RunThenRun(Start(0), Rounds(3, tokens, 1) + [Drop(ToPublish(1, 0, 1))], left, [late], s);
  }
}
