/** The deliveries one consumer owes the broker, and the three places it keeps them
    (adapters/rabbitmq/job_queue.py, `_incoming`, `_held`, and the delivery a `reserve` has in hand). */
module Deliveries {
  import opened Basics

  datatype Delivered = Delivered(tag: nat, job: Uuid)

  datatype Behind = Behind(token: Uuid, delivery: Delivered)

  type HeldMap = map<Uuid, Behind>

  /** `next` is the first delivery tag the channel has not used; `settled` lists the acks, in order. */
  datatype Slots = Slots(
    incoming: seq<Delivered>,
    inHand: Option<Delivered>,
    held: HeldMap,
    unacked: set<nat>,
    settled: seq<nat>,
    next: nat)

  datatype Step =
    | Arrive(job: Uuid)
    | Take
    | Refused
    | Keep(token: Uuid)
    | ClaimRaises
    | LetGo(job: Uuid, guard: Option<Uuid>)

  const IDLE := Slots([], None, map[], {}, [], 0)

  function Settle(s: Slots, tag: nat): Slots {
    s.(unacked := s.unacked - {tag}, settled := s.settled + [tag])
  }

  /** A settle names a job, and a lease too when its own consumer does the settling. */
  predicate Releases(held: HeldMap, job: Uuid, guard: Option<Uuid>) {
    job in held && (guard.None? || held[job].token == guard.value)
  }

  /** With a window of `prefetch`, the broker holds back while that many deliveries are unacked. */
  predicate Enabled(s: Slots, step: Step, prefetch: nat) {
    match step
    case Arrive(_) => |s.unacked| < prefetch
    case Take => s.inHand.None? && s.incoming != []
    case Refused => s.inHand.Some?
    case Keep(_) => s.inHand.Some?
    case ClaimRaises => s.inHand.Some?
    case LetGo(_, _) => true
  }

  function After(s: Slots, step: Step): Slots
    requires step.Take? ==> s.incoming != []
    requires step.Refused? || step.Keep? || step.ClaimRaises? ==> s.inHand.Some?
  {
    match step
    case Arrive(job) =>
      s.(incoming := s.incoming + [Delivered(s.next, job)], unacked := s.unacked + {s.next}, next := s.next + 1)
    case Take => s.(incoming := s.incoming[1..], inHand := Some(s.incoming[0]))
    case Refused => Settle(s, s.inHand.value.tag).(inHand := None)
    case Keep(token) => s.(held := s.held[s.inHand.value.job := Behind(token, s.inHand.value)], inHand := None)
    case ClaimRaises => s.(inHand := None)
    case LetGo(job, guard) =>
      if Releases(s.held, job, guard) then Settle(s, s.held[job].delivery.tag).(held := s.held - {job}) else s
  }

  // ----- conservation

  predicate Waits(s: Slots, tag: nat) {
    exists i :: 0 <= i < |s.incoming| && s.incoming[i].tag == tag
  }

  predicate InHand(s: Slots, tag: nat) {
    s.inHand.Some? && s.inHand.value.tag == tag
  }

  predicate IsHeld(s: Slots, tag: nat) {
    exists job :: job in s.held && s.held[job].delivery.tag == tag
  }

  /** Every unacked delivery is in exactly one place, and nothing else is anywhere. */
  ghost predicate Located(s: Slots) {
    && (forall tag :: tag in s.unacked <==> Waits(s, tag) || InHand(s, tag) || IsHeld(s, tag))
    && (forall tag :: !(Waits(s, tag) && InHand(s, tag)) && !(Waits(s, tag) && IsHeld(s, tag)))
    && (forall tag :: !(InHand(s, tag) && IsHeld(s, tag)))
  }

  /** No place keeps a delivery twice, and what is held is held for its own job. */
  ghost predicate Unrepeated(s: Slots) {
    && (forall i, j :: 0 <= i < j < |s.incoming| ==> s.incoming[i].tag != s.incoming[j].tag)
    && (forall a, b :: a in s.held && b in s.held && s.held[a].delivery.tag == s.held[b].delivery.tag ==> a == b)
    && (forall job :: job in s.held ==> s.held[job].delivery.job == job)
  }

  /** Nothing is settled twice, or settled and still unacked. */
  ghost predicate SettledOnce(s: Slots) {
    && (forall tag :: tag in s.unacked ==> tag < s.next)
    && (forall i :: 0 <= i < |s.settled| ==> s.settled[i] < s.next && s.settled[i] !in s.unacked)
    && (forall i, j :: 0 <= i < j < |s.settled| ==> s.settled[i] != s.settled[j])
  }

  ghost predicate Conserved(s: Slots) {
    Located(s) && Unrepeated(s) && SettledOnce(s)
  }

  /** The two ways to drop a delivery on the floor: a claim that raises, and a claim on a job whose
      earlier delivery is still held. */
  predicate Leaks(s: Slots, step: Step) {
    step.ClaimRaises? || (step.Keep? && s.inHand.Some? && s.inHand.value.job in s.held)
  }

  lemma ArrivalWaits(s: Slots, job: Uuid, tag: nat)
    ensures Waits(After(s, Arrive(job)), tag) <==> Waits(s, tag) || tag == s.next
    ensures IsHeld(After(s, Arrive(job)), tag) <==> IsHeld(s, tag)
    ensures InHand(After(s, Arrive(job)), tag) <==> InHand(s, tag)
  {
    var s' := After(s, Arrive(job));
    if Waits(s, tag) {
      var i :| 0 <= i < |s.incoming| && s.incoming[i].tag == tag;
      assert s'.incoming[i].tag == tag;
    }
    assert s'.incoming[|s.incoming|].tag == s.next;
  }

  lemma ArriveConserves(s: Slots, job: Uuid)
    requires Conserved(s)
    ensures Conserved(After(s, Arrive(job)))
  {
    var s' := After(s, Arrive(job));
    forall tag
      ensures Waits(s', tag) <==> Waits(s, tag) || tag == s.next
      ensures IsHeld(s', tag) <==> IsHeld(s, tag)
      ensures InHand(s', tag) <==> InHand(s, tag)
    {
      ArrivalWaits(s, job, tag);
    }
    assert forall i :: 0 <= i < |s.incoming| ==> Waits(s, s.incoming[i].tag);
    hide Waits;
    hide IsHeld;
    hide InHand;
  }

  lemma TakeMovesOne(s: Slots, tag: nat)
    requires Unrepeated(s) && s.inHand.None? && s.incoming != []
    ensures Waits(After(s, Take), tag) <==> Waits(s, tag) && tag != s.incoming[0].tag
  {
    var s' := After(s, Take);
    if Waits(s, tag) && tag != s.incoming[0].tag {
      var i :| 0 <= i < |s.incoming| && s.incoming[i].tag == tag;
      assert s'.incoming[i - 1].tag == tag;
    }
    if Waits(s', tag) {
      var i :| 0 <= i < |s'.incoming| && s'.incoming[i].tag == tag;
      assert s.incoming[i + 1].tag == tag;
    }
  }

  lemma TakeLocates(s: Slots)
    requires Located(s) && Unrepeated(s) && s.inHand.None? && s.incoming != []
    ensures Located(After(s, Take))
  {
    var s' := After(s, Take);
    assert Waits(s, s.incoming[0].tag);
    forall tag
      ensures IsHeld(s', tag) <==> IsHeld(s, tag)
      ensures InHand(s', tag) <==> tag == s.incoming[0].tag
      ensures !InHand(s, tag)
    {
    }
    hide Waits;
    hide IsHeld;
    hide InHand;
    forall tag
      ensures Waits(s', tag) <==> Waits(s, tag) && tag != s.incoming[0].tag
    {
      TakeMovesOne(s, tag);
    }
    hide Unrepeated;
  }

  lemma TakeConserves(s: Slots)
    requires Conserved(s) && s.inHand.None? && s.incoming != []
    ensures Conserved(After(s, Take))
  {
    TakeLocates(s);
    hide Located;
  }

  lemma KeptIsHeld(s: Slots, token: Uuid, tag: nat)
    requires s.inHand.Some? && s.inHand.value.job !in s.held
    ensures var s' := After(s, Keep(token));
            && (Waits(s', tag) <==> Waits(s, tag))
            && (IsHeld(s', tag) <==> IsHeld(s, tag) || InHand(s, tag))
            && !InHand(s', tag)
  {
    var s', d := After(s, Keep(token)), s.inHand.value;
    if IsHeld(s, tag) {
      var job :| job in s.held && s.held[job].delivery.tag == tag;
      assert s'.held[job].delivery.tag == tag;
    }
    assert s'.held[d.job].delivery.tag == d.tag;
  }

  lemma KeepLocates(s: Slots, token: Uuid)
    requires Located(s) && s.inHand.Some? && s.inHand.value.job !in s.held
    ensures Located(After(s, Keep(token)))
  {
    var s' := After(s, Keep(token));
    hide Waits;
    hide IsHeld;
    hide InHand;
    forall tag
      ensures Waits(s', tag) <==> Waits(s, tag)
      ensures IsHeld(s', tag) <==> IsHeld(s, tag) || InHand(s, tag)
      ensures !InHand(s', tag)
    {
      KeptIsHeld(s, token, tag);
    }
  }

  lemma KeepRepeatsNothing(s: Slots, token: Uuid)
    requires Located(s) && Unrepeated(s) && s.inHand.Some? && s.inHand.value.job !in s.held
    ensures Unrepeated(After(s, Keep(token)))
  {
    assert forall job :: job in s.held ==> IsHeld(s, s.held[job].delivery.tag);
    assert InHand(s, s.inHand.value.tag);
    hide Waits;
    hide IsHeld;
    hide InHand;
  }

  lemma KeepConserves(s: Slots, token: Uuid)
    requires Conserved(s) && s.inHand.Some? && s.inHand.value.job !in s.held
    ensures Conserved(After(s, Keep(token)))
  {
    KeepLocates(s, token);
    KeepRepeatsNothing(s, token);
    hide Located;
    hide Unrepeated;
  }

  lemma LetGoHolds(s: Slots, job: Uuid, tag: nat)
    requires job in s.held
    requires forall a, b :: a in s.held && b in s.held && s.held[a].delivery.tag == s.held[b].delivery.tag ==> a == b
    ensures var s' := Settle(s, s.held[job].delivery.tag).(held := s.held - {job});
            IsHeld(s', tag) <==> IsHeld(s, tag) && tag != s.held[job].delivery.tag
  {
    var s' := Settle(s, s.held[job].delivery.tag).(held := s.held - {job});
    if IsHeld(s, tag) && tag != s.held[job].delivery.tag {
      var other :| other in s.held && s.held[other].delivery.tag == tag;
      assert s'.held[other].delivery.tag == tag;
    }
  }

  lemma LetGoLocates(s: Slots, job: Uuid)
    requires Located(s) && Unrepeated(s) && job in s.held
    ensures Located(Settle(s, s.held[job].delivery.tag).(held := s.held - {job}))
  {
    var s' := Settle(s, s.held[job].delivery.tag).(held := s.held - {job});
    assert IsHeld(s, s.held[job].delivery.tag);
    forall tag
      ensures Waits(s', tag) <==> Waits(s, tag)
      ensures InHand(s', tag) <==> InHand(s, tag)
    {
    }
    hide Waits;
    hide IsHeld;
    hide InHand;
    forall tag
      ensures IsHeld(s', tag) <==> IsHeld(s, tag) && tag != s.held[job].delivery.tag
    {
      LetGoHolds(s, job, tag);
    }
    hide Unrepeated;
  }

  lemma LetGoConserves(s: Slots, job: Uuid)
    requires Conserved(s) && job in s.held
    ensures Conserved(Settle(s, s.held[job].delivery.tag).(held := s.held - {job}))
  {
    LetGoLocates(s, job);
    assert IsHeld(s, s.held[job].delivery.tag);
    assert s.held[job].delivery.tag in s.unacked;
    hide Located;
    hide IsHeld;
  }

  lemma RefusedConserves(s: Slots)
    requires Conserved(s) && s.inHand.Some?
    ensures Conserved(After(s, Refused))
  {
    var s' := After(s, Refused);
    assert InHand(s, s.inHand.value.tag);
    forall tag
      ensures Waits(s', tag) <==> Waits(s, tag)
      ensures IsHeld(s', tag) <==> IsHeld(s, tag)
      ensures InHand(s, tag) <==> tag == s.inHand.value.tag
      ensures !InHand(s', tag)
    {
    }
    hide Waits;
    hide IsHeld;
    hide InHand;
  }

  lemma SettlesConserve(s: Slots, step: Step)
    requires Conserved(s) && (step.LetGo? || (step.Refused? && s.inHand.Some?))
    ensures Conserved(After(s, step))
  {
    hide Conserved;
    if step.Refused? {
      RefusedConserves(s);
    } else if Releases(s.held, step.job, step.guard) {
      LetGoConserves(s, step.job);
    }
  }

  /** A leaking step leaves one unacked delivery in no place at all. */
  lemma LeakBreaks(s: Slots, step: Step, prefetch: nat)
    requires Conserved(s) && Enabled(s, step, prefetch) && Leaks(s, step)
    ensures !Conserved(After(s, step))
  {
    var s' := After(s, step);
    var lost := if step.ClaimRaises? then s.inHand.value.tag else s.held[s.inHand.value.job].delivery.tag;
    assert step.ClaimRaises? ==> InHand(s, lost);
    assert step.Keep? ==> IsHeld(s, lost);
    assert InHand(s, s.inHand.value.tag);
    assert lost in s'.unacked;
    assert Waits(s', lost) <==> Waits(s, lost);
    forall job | job in s'.held
      ensures s'.held[job].delivery.tag != lost
    {
      assert job in s.held ==> IsHeld(s, s.held[job].delivery.tag);
    }
  }

  /** A step conserves the deliveries exactly when it does not leak. */
  lemma ConservesExactlyWhen(s: Slots, step: Step, prefetch: nat)
    requires Conserved(s) && Enabled(s, step, prefetch)
    ensures Conserved(After(s, step)) <==> !Leaks(s, step)
  {
    hide Conserved;
    if Leaks(s, step) {
      LeakBreaks(s, step, prefetch);
    } else {
      match step
      case Arrive(job) => ArriveConserves(s, job);
      case Take => TakeConserves(s);
      case Keep(token) => KeepConserves(s, token);
      case _ => SettlesConserve(s, step);
    }
  }

  predicate Run(s: Slots, steps: seq<Step>, prefetch: nat, s': Slots)
    decreases |steps|
  {
    if steps == [] then s == s'
    else Enabled(s, steps[0], prefetch) && Run(After(s, steps[0]), steps[1..], prefetch, s')
  }

  lemma InWindow(s: Slots, step: Step)
    requires |s.unacked| <= 1 && Enabled(s, step, 1)
    ensures |After(s, step).unacked| <= 1
  {
    var s' := After(s, step);
    if step.LetGo? || step.Refused? {
      assert s'.unacked <= s.unacked;
      if s'.unacked != s.unacked { assert |s'.unacked| + |s.unacked - s'.unacked| == |s.unacked|; }
    }
  }

  lemma TwoAreTwo(u: set<nat>, a: nat, b: nat)
    requires a in u && b in u && a != b
    ensures |u| >= 2
  {
    assert |u| == |u - {a, b}| + |{a, b}|;
  }

  /** To find its job already held, a claim needs a window of at least two. */
  lemma OverwriteNeedsTwo(s: Slots)
    requires Conserved(s) && s.inHand.Some? && s.inHand.value.job in s.held
    ensures |s.unacked| >= 2
  {
    var a, b := s.inHand.value.tag, s.held[s.inHand.value.job].delivery.tag;
    assert InHand(s, a) && IsHeld(s, b);
    TwoAreTwo(s.unacked, a, b);
  }

  /** At a prefetch of one, as long as every claim returns: the consumer never has more than one
      delivery, it is always in exactly one of its three places, and none is settled twice. */
  lemma {:induction false} OneSlotIsConserved(s: Slots, steps: seq<Step>, s': Slots)
    requires Conserved(s) && |s.unacked| <= 1 && Run(s, steps, 1, s') && ClaimRaises !in steps
    ensures Conserved(s') && |s'.unacked| <= 1
    decreases |steps|
  {
    hide Conserved;
    if steps != [] {
      if s.inHand.Some? && s.inHand.value.job in s.held { OverwriteNeedsTwo(s); }
      ConservesExactlyWhen(s, steps[0], 1);
      InWindow(s, steps[0]);
      OneSlotIsConserved(After(s, steps[0]), steps[1..], s');
    }
  }

  lemma OneSlot(steps: seq<Step>, s: Slots)
    requires Run(IDLE, steps, 1, s) && ClaimRaises !in steps
    ensures Conserved(s) && |s.unacked| <= 1
  {
    OneSlotIsConserved(IDLE, steps, s);
  }

  /** A duplicate of a lapsed job, delivered and claimed while the first delivery is still held. */
  function Duplicate(job: Uuid, first: Uuid, second: Uuid): seq<Step> {
    [Arrive(job), Arrive(job), Take, Keep(first), Take, Keep(second)]
  }

  lemma RunOfStep(s: Slots, steps: seq<Step>, k: nat, prefetch: nat, s': Slots)
    requires k < |steps| && Enabled(s, steps[k], prefetch) && Run(After(s, steps[k]), steps[k + 1..], prefetch, s')
    ensures Run(s, steps[k..], prefetch, s')
  {
    hide After;
    assert steps[k..][1..] == steps[k + 1..];
  }

  // The states of that run: two deliveries arrive, the first is claimed, then the second.
  function OneWaiting(job: Uuid): Slots {
    Slots([Delivered(0, job)], None, map[], {0}, [], 1)
  }

  function TwoWaiting(job: Uuid): Slots {
    Slots([Delivered(0, job), Delivered(1, job)], None, map[], {0, 1}, [], 2)
  }

  function OneBehind(job: Uuid, first: Uuid, tag: nat, inHand: Option<Delivered>, incoming: seq<Delivered>): Slots {
    Slots(incoming, inHand, map[job := Behind(first, Delivered(tag, job))], {0, 1}, [], 2)
  }

  lemma TwoArrive(job: Uuid)
    ensures Enabled(IDLE, Arrive(job), 2) && After(IDLE, Arrive(job)) == OneWaiting(job)
    ensures Enabled(OneWaiting(job), Arrive(job), 2) && After(OneWaiting(job), Arrive(job)) == TwoWaiting(job)
  {
  }

  lemma FirstIsKept(job: Uuid, first: Uuid)
    ensures var s := After(TwoWaiting(job), Take);
            && Enabled(s, Keep(first), 2)
            && After(s, Keep(first)) == OneBehind(job, first, 0, None, [Delivered(1, job)])
  {
  }

  lemma SecondIsKept(job: Uuid, first: Uuid, second: Uuid)
    ensures var s := OneBehind(job, first, 0, None, [Delivered(1, job)]);
            && After(s, Take) == OneBehind(job, first, 0, Some(Delivered(1, job)), [])
            && After(After(s, Take), Keep(second)) == OneBehind(job, second, 1, None, [])
  {
  }

  /** A window of two is not safe: a run of the broker's own making, in which the same job is delivered twice
      and claimed twice, leaves the first delivery unacked and out of reach. */
  lemma TwoSlotsLeak(job: Uuid, first: Uuid, second: Uuid) returns (s: Slots)
    ensures Run(IDLE, Duplicate(job, first, second), 2, s)
    ensures 0 in s.unacked && !Waits(s, 0) && !InHand(s, 0) && !IsHeld(s, 0)
    ensures !Conserved(s)
  {
    var steps := Duplicate(job, first, second);
    var s2, s4 := TwoWaiting(job), OneBehind(job, first, 0, None, [Delivered(1, job)]);
    s := OneBehind(job, second, 1, None, []);
    TwoArrive(job);
    FirstIsKept(job, first);
    SecondIsKept(job, first, second);
    var s3, s5 := After(s2, Take), After(s4, Take);
    hide After;
    hide Conserved;
    assert steps[6..] == [] && steps[0..] == steps;
    RunOfStep(s5, steps, 5, 2, s);
    RunOfStep(s4, steps, 4, 2, s);
    RunOfStep(s3, steps, 3, 2, s);
    RunOfStep(s2, steps, 2, 2, s);
    RunOfStep(OneWaiting(job), steps, 1, 2, s);
    RunOfStep(IDLE, steps, 0, 2, s);
    NowhereIsNotConserved(s, 0);
  }

  lemma NowhereIsNotConserved(s: Slots, tag: nat)
    requires tag in s.unacked && !Waits(s, tag) && !InHand(s, tag) && !IsHeld(s, tag)
    ensures !Conserved(s)
  {
  }
}
