/** The queue object and the interleaved system are one thing seen twice: each call of `RabbitMQJobQueue` leaves
    the rows, the messages and the deliveries that a run of `Broker` leaves, so what holds of all runs there holds
    of it (adapters/rabbitmq/job_queue.py). */
module QueueRuns {
  import opened Basics
  import opened Jobs
  import opened JobTable
  import opened Broker
  import JobQueue
  import D = Deliveries

  // ----- one channel's deliveries among everyone's

  /** Where the system has what this consumer keeps: delivery `t` of its channel is delivery `at(t)` of the system. */
  ghost predicate Mirrors(s: System, who: nat, p: D.Slots, at: nat -> nat) {
    && p.inHand.None?
    && Mapped(s, who, p, at)
    && Placed(s, p, at)
    && Known(s, p, at)
  }

  ghost predicate Mapped(s: System, who: nat, p: D.Slots, at: nat -> nat) {
    && (forall t, u :: at(t) == at(u) ==> t == u)
    && (forall t :: t in p.unacked ==> at(t) in s.unacked && s.unacked[at(t)].consumer == who)
    && (forall b :: b in s.unacked && s.unacked[b].consumer == who ==> exists t :: t in p.unacked && at(t) == b)
  }

  predicate Placed(s: System, p: D.Slots, at: nat -> nat) {
    && (forall i :: 0 <= i < |p.incoming| ==> KeptAs(s, p, at, p.incoming[i], Incoming))
    && (forall job :: job in p.held ==> KeptAs(s, p, at, p.held[job].delivery, Held(p.held[job].token)))
  }

  ghost predicate Known(s: System, p: D.Slots, at: nat -> nat) {
    forall t :: t in p.unacked && at(t) in s.unacked ==>
      && (s.unacked[at(t)].keeping.Incoming? ==> D.Waits(p, t))
      && (s.unacked[at(t)].keeping.Held? ==> D.IsHeld(p, t))
  }

  predicate KeptAs(s: System, p: D.Slots, at: nat -> nat, d: D.Delivered, keeping: Keeping) {
    && d.tag in p.unacked && at(d.tag) in s.unacked
    && s.unacked[at(d.tag)].message.job == d.job && s.unacked[at(d.tag)].keeping == keeping
  }

  lemma SameDeliveries(s: System, s': System, who: nat, p: D.Slots, at: nat -> nat)
    requires Mirrors(s, who, p, at) && s'.unacked == s.unacked
    ensures Mirrors(s', who, p, at)
  {
  }

  lemma ArrivedMapped(s: System, s': System, who: nat, p: D.Slots, p': D.Slots, at: nat -> nat, m: Message)
    requires Mapped(s, who, p, at) && p'.unacked == p.unacked + {p.next}
    requires at(p.next) !in s.unacked && s'.unacked == s.unacked[at(p.next) := Delivery(who, m, Incoming)]
    ensures Mapped(s', who, p', at)
  {
    forall b | b in s'.unacked && s'.unacked[b].consumer == who
      ensures exists t :: t in p'.unacked && at(t) == b
    {
      if b == at(p.next) {
        assert p.next in p'.unacked;
      } else {
        var t :| t in p.unacked && at(t) == b;
        assert t in p'.unacked;
      }
    }
  }

  lemma ArrivedPlaced(s: System, s': System, p: D.Slots, p': D.Slots, at: nat -> nat, who: nat, m: Message)
    requires Placed(s, p, at) && p'.unacked == p.unacked + {p.next} && p'.held == p.held
    requires p'.incoming == p.incoming + [D.Delivered(p.next, m.job)]
    requires at(p.next) !in s.unacked && s'.unacked == s.unacked[at(p.next) := Delivery(who, m, Incoming)]
    ensures Placed(s', p', at)
  {
    forall i | 0 <= i < |p'.incoming|
      ensures KeptAs(s', p', at, p'.incoming[i], Incoming)
    {
      if i < |p.incoming| { assert KeptAs(s, p, at, p.incoming[i], Incoming); }
    }
    forall job | job in p'.held
      ensures KeptAs(s', p', at, p'.held[job].delivery, Held(p'.held[job].token))
    {
      assert KeptAs(s, p, at, p.held[job].delivery, Held(p.held[job].token));
    }
  }

  lemma ArrivedKnown(s: System, s': System, p: D.Slots, at: nat -> nat, who: nat, m: Message)
    requires Known(s, p, at) && (forall t, u :: at(t) == at(u) ==> t == u)
    requires at(p.next) !in s.unacked && s'.unacked == s.unacked[at(p.next) := Delivery(who, m, Incoming)]
    ensures Known(s', D.After(p, D.Arrive(m.job)), at)
  {
    var p' := D.After(p, D.Arrive(m.job));
    assert p'.unacked == p.unacked + {p.next};
    hide D.Waits;
    hide D.IsHeld;
    forall t | t in p'.unacked && at(t) in s'.unacked
      ensures s'.unacked[at(t)].keeping.Incoming? ==> D.Waits(p', t)
      ensures s'.unacked[at(t)].keeping.Held? ==> D.IsHeld(p', t)
    {
      D.ArrivalWaits(p, m.job, t);
    }
  }

  lemma DeliveredUnacked(s: System, who: nat, m: Message, tag: nat)
    requires m in s.queue && m.readyAt <= s.now && tag !in s.unacked
    ensures var step := Deliver(who, m, tag);
            && Enabled(s, step)
            && Broker.After(s, step) == s.(queue := s.queue - multiset{m},
                                           unacked := s.unacked[tag := Delivery(who, m, Incoming)])
  {
  }

  /** A delivery that reaches the channel. */
  lemma ArrivalIsAStep(s: System, who: nat, p: D.Slots, at: nat -> nat, m: Message)
    requires Mirrors(s, who, p, at) && m in s.queue && m.readyAt <= s.now && at(p.next) !in s.unacked
    ensures var step := Deliver(who, m, at(p.next));
            Enabled(s, step) && Mirrors(Broker.After(s, step), who, D.After(p, D.Arrive(m.job)), at)
  {
    var step, p' := Deliver(who, m, at(p.next)), D.After(p, D.Arrive(m.job));
    DeliveredUnacked(s, who, m, at(p.next));
    assert forall t, u :: at(t) == at(u) ==> t == u;
    hide Broker.After;
    hide Mapped;
    hide Placed;
    hide Known;
    hide Enabled;
    var s' := Broker.After(s, step);
    ArrivedMapped(s, s', who, p, p', at, m);
    ArrivedPlaced(s, s', p, p', at, who, m);
    ArrivedKnown(s, s', p, at, who, m);
  }

  /** What a try does to the channel: the delivery is held behind its new lease, or settled. */
  function Tried(p: D.Slots, claimed: bool, token: Uuid): D.Slots
    requires p.incoming != []
  {
    D.After(D.After(p, D.Take), if claimed then D.Keep(token) else D.Refused)
  }

  lemma TakenSlots(p: D.Slots, claimed: bool, token: Uuid)
    requires p.inHand.None? && p.incoming != []
    ensures var d, p' := p.incoming[0], Tried(p, claimed, token);
            && p'.incoming == p.incoming[1..] && p'.inHand.None?
            && p'.held == (if claimed then p.held[d.job := D.Behind(token, d)] else p.held)
            && p'.unacked == if claimed then p.unacked else p.unacked - {d.tag}
  {
  }

  lemma TriedUnacked(s: System, tag: nat, token: Uuid, owner: string, lease: Time)
    requires tag in s.unacked && s.unacked[tag].keeping.Incoming?
    ensures var step, id := Reserve(tag, token, owner, lease), s.unacked[tag].message.job;
            && Enabled(s, step)
            && Broker.After(s, step).jobs == JobTable.After(s.jobs, Claim(id, token, owner, lease, s.now))
            && Broker.After(s, step).queue == s.queue && Broker.After(s, step).intents == s.intents
            && Broker.After(s, step).now == s.now
            && Broker.After(s, step).unacked ==
               if id in s.jobs && Claimable(s.jobs[id], s.now) then Hold(s.unacked, tag, token) else s.unacked - {tag}
  {
  }

  /** The same channel with one delivery settled. */
  ghost predicate Without(p: D.Slots, p': D.Slots, tag: nat) {
    && p'.inHand.None? && tag in p.unacked && p'.unacked == p.unacked - {tag}
    && (forall i :: 0 <= i < |p'.incoming| ==> p'.incoming[i] in p.incoming && p'.incoming[i].tag != tag)
    && (forall job :: job in p'.held ==>
          job in p.held && p'.held[job] == p.held[job] && p'.held[job].delivery.tag != tag)
    && (forall t :: t != tag ==> (D.Waits(p, t) ==> D.Waits(p', t)) && (D.IsHeld(p, t) ==> D.IsHeld(p', t)))
  }

  lemma SettledMapped(s: System, s': System, who: nat, p: D.Slots, p': D.Slots, at: nat -> nat, tag: nat)
    requires Mapped(s, who, p, at) && Without(p, p', tag) && s'.unacked == s.unacked - {at(tag)}
    ensures Mapped(s', who, p', at)
  {
    assert p'.unacked == p.unacked - {tag};
    hide Without;
    forall b | b in s'.unacked && s'.unacked[b].consumer == who
      ensures exists t :: t in p'.unacked && at(t) == b
    {
      var t :| t in p.unacked && at(t) == b;
      assert t in p'.unacked;
    }
  }

  lemma StillKept(s: System, s': System, who: nat, p: D.Slots, p': D.Slots, at: nat -> nat, tag: nat, d: D.Delivered,
                  keeping: Keeping)
    requires Mapped(s, who, p, at) && KeptAs(s, p, at, d, keeping) && d.tag != tag
    requires p'.unacked == p.unacked - {tag} && s'.unacked == s.unacked - {at(tag)}
    ensures KeptAs(s', p', at, d, keeping)
  {
  }

  lemma SettledPlaced(s: System, s': System, who: nat, p: D.Slots, p': D.Slots, at: nat -> nat, tag: nat)
    requires Mapped(s, who, p, at) && Placed(s, p, at) && Without(p, p', tag) && s'.unacked == s.unacked - {at(tag)}
    ensures Placed(s', p', at)
  {
    hide Mapped;
    hide KeptAs;
    forall i | 0 <= i < |p'.incoming|
      ensures KeptAs(s', p', at, p'.incoming[i], Incoming)
    {
      assert p'.incoming[i] in p.incoming;
      var k :| 0 <= k < |p.incoming| && p.incoming[k] == p'.incoming[i];
      StillKept(s, s', who, p, p', at, tag, p.incoming[k], Incoming);
    }
    forall job | job in p'.held
      ensures KeptAs(s', p', at, p'.held[job].delivery, Held(p'.held[job].token))
    {
      StillKept(s, s', who, p, p', at, tag, p.held[job].delivery, Held(p.held[job].token));
    }
  }

  lemma SettledKnown(s: System, s': System, who: nat, p: D.Slots, p': D.Slots, at: nat -> nat, tag: nat)
    requires Known(s, p, at) && Without(p, p', tag) && s'.unacked == s.unacked - {at(tag)}
    ensures Known(s', p', at)
  {
    hide D.Waits;
    hide D.IsHeld;
  }

  lemma SettledMirrors(s: System, s': System, who: nat, p: D.Slots, p': D.Slots, at: nat -> nat, tag: nat)
    requires Mirrors(s, who, p, at) && Without(p, p', tag) && s'.unacked == s.unacked - {at(tag)}
    ensures Mirrors(s', who, p', at)
  {
    assert p'.inHand.None?;
    hide Mapped;
    hide Placed;
    hide Known;
    hide Without;
    SettledMapped(s, s', who, p, p', at, tag);
    SettledPlaced(s, s', who, p, p', at, tag);
    SettledKnown(s, s', who, p, p', at, tag);
  }

  lemma StillWaits(p: D.Slots, rest: seq<D.Delivered>, t: nat)
    requires p.incoming != [] && rest == p.incoming[1..] && D.Waits(p, t) && t != p.incoming[0].tag
    ensures exists i :: 0 <= i < |rest| && rest[i].tag == t
  {
    var i :| 0 <= i < |p.incoming| && p.incoming[i].tag == t;
    assert rest[i - 1].tag == t;
  }

  lemma RefusedIsWithout(p: D.Slots, token: Uuid)
    requires D.Conserved(p) && p.inHand.None? && p.incoming != []
    ensures Without(p, Tried(p, false, token), p.incoming[0].tag)
  {
    var tag, p' := p.incoming[0].tag, Tried(p, false, token);
    TakenSlots(p, false, token);
    hide Tried;
    assert D.Waits(p, tag);
    forall i | 0 <= i < |p'.incoming|
      ensures p'.incoming[i] in p.incoming && p'.incoming[i].tag != tag
    {
      assert p'.incoming[i] == p.incoming[i + 1];
    }
    forall job | job in p'.held
      ensures p'.held[job].delivery.tag != tag
    {
      assert D.IsHeld(p, p.held[job].delivery.tag);
    }
    forall t | t != tag && D.Waits(p, t)
      ensures D.Waits(p', t)
    {
      StillWaits(p, p'.incoming, t);
    }
    forall t | D.IsHeld(p, t)
      ensures D.IsHeld(p', t)
    {
      var job :| job in p.held && p.held[job].delivery.tag == t;
    }
  }

  /** A try that the row refuses. */
  lemma RefusalIsAStep(s: System, who: nat, p: D.Slots, at: nat -> nat, token: Uuid, owner: string, lease: Time)
    requires Mirrors(s, who, p, at) && D.Conserved(p) && p.incoming != []
    requires var id := p.incoming[0].job; !(id in s.jobs && Claimable(s.jobs[id], s.now))
    ensures var step := Reserve(at(p.incoming[0].tag), token, owner, lease);
            Enabled(s, step) && Mirrors(Broker.After(s, step), who, Tried(p, false, token), at)
  {
    var step := Reserve(at(p.incoming[0].tag), token, owner, lease);
    assert KeptAs(s, p, at, p.incoming[0], Incoming);
    RefusedIsWithout(p, token);
    TriedUnacked(s, at(p.incoming[0].tag), token, owner, lease);
    hide Mirrors;
    hide Without;
    hide Broker.After;
    hide Enabled;
    hide Tried;
    SettledMirrors(s, Broker.After(s, step), who, p, Tried(p, false, token), at, p.incoming[0].tag);
  }

  /** What holding a delivery does to the system's view of each of the consumer's deliveries. */
  lemma HoldChanges(s: System, b: nat, tag: nat, token: Uuid)
    requires tag in s.unacked && b in s.unacked
    ensures Hold(s.unacked, tag, token).Keys == s.unacked.Keys
    ensures var d, d', e := s.unacked[b], Hold(s.unacked, tag, token)[b], s.unacked[tag];
            && d'.consumer == d.consumer && d'.message == d.message
            && d'.keeping == if b == tag then Held(token)
                             else if Settles(d, e.consumer, e.message.job, None) then Stray
                             else d.keeping
  {
  }

  lemma HeldMapped(s: System, s': System, who: nat, p: D.Slots, p': D.Slots, at: nat -> nat, tag: nat, token: Uuid)
    requires Mapped(s, who, p, at) && p'.unacked == p.unacked
    requires tag in s.unacked && s'.unacked == Hold(s.unacked, tag, token)
    ensures Mapped(s', who, p', at)
  {
    assert s'.unacked.Keys == s.unacked.Keys;
    forall b | b in s.unacked
      ensures s'.unacked[b].consumer == s.unacked[b].consumer
    {
      HoldChanges(s, b, tag, token);
    }
    hide Hold;
  }

  lemma HeldPlaced(s: System, s': System, who: nat, p: D.Slots, p': D.Slots, at: nat -> nat, token: Uuid)
    requires Mirrors(s, who, p, at) && D.Conserved(p) && p.incoming != []
    requires p'.incoming == p.incoming[1..] && p'.unacked == p.unacked
    requires var d := p.incoming[0]; p'.held == p.held[d.job := D.Behind(token, d)]
    requires var tag := at(p.incoming[0].tag); tag in s.unacked && s'.unacked == Hold(s.unacked, tag, token)
    ensures Placed(s', p', at)
  {
    var d := p.incoming[0];
    assert KeptAs(s, p, at, d, Incoming) && D.Waits(p, d.tag);
    hide Hold;
    forall i | 0 <= i < |p'.incoming|
      ensures KeptAs(s', p', at, p'.incoming[i], Incoming)
    {
      assert p'.incoming[i] == p.incoming[i + 1] && p.incoming[i + 1].tag != d.tag;
      assert KeptAs(s, p, at, p.incoming[i + 1], Incoming);
      HoldChanges(s, at(p.incoming[i + 1].tag), at(d.tag), token);
    }
    forall job | job in p'.held
      ensures KeptAs(s', p', at, p'.held[job].delivery, Held(p'.held[job].token))
    {
      if job == d.job {
        HoldChanges(s, at(d.tag), at(d.tag), token);
      } else {
        var e := p.held[job].delivery;
        assert KeptAs(s, p, at, e, Held(p.held[job].token)) && D.IsHeld(p, e.tag) && e.job == job;
        HoldChanges(s, at(e.tag), at(d.tag), token);
      }
    }
  }

  lemma HeldKnown(s: System, s': System, who: nat, p: D.Slots, p': D.Slots, at: nat -> nat, token: Uuid)
    requires Mirrors(s, who, p, at) && D.Conserved(p) && p.incoming != []
    requires p'.incoming == p.incoming[1..] && p'.unacked == p.unacked
    requires var d := p.incoming[0]; p'.held == p.held[d.job := D.Behind(token, d)]
    requires var tag := at(p.incoming[0].tag); tag in s.unacked && s'.unacked == Hold(s.unacked, tag, token)
    ensures Known(s', p', at)
  {
    var d := p.incoming[0];
    assert KeptAs(s, p, at, d, Incoming) && s.unacked[at(d.tag)].consumer == who;
    hide Hold;
    forall t | t in p'.unacked && at(t) in s'.unacked
      ensures s'.unacked[at(t)].keeping.Incoming? ==> D.Waits(p', t)
      ensures s'.unacked[at(t)].keeping.Held? ==> D.IsHeld(p', t)
    {
      HoldChanges(s, at(t), at(d.tag), token);
      if t == d.tag {
        assert p'.held[d.job].delivery.tag == t;
      } else if s'.unacked[at(t)].keeping.Incoming? {
        StillWaits(p, p'.incoming, t);
      } else if s'.unacked[at(t)].keeping.Held? {
        var job :| job in p.held && p.held[job].delivery.tag == t;
        assert KeptAs(s, p, at, p.held[job].delivery, Held(p.held[job].token)) && p.held[job].delivery.job == job;
        assert p'.held[job].delivery.tag == t;
      }
    }
  }

  /** A try that takes the row. */
  lemma ClaimIsAStep(s: System, who: nat, p: D.Slots, at: nat -> nat, token: Uuid, owner: string, lease: Time)
    requires Mirrors(s, who, p, at) && D.Conserved(p) && p.incoming != []
    requires var id := p.incoming[0].job; id in s.jobs && Claimable(s.jobs[id], s.now)
    ensures var step := Reserve(at(p.incoming[0].tag), token, owner, lease);
            Enabled(s, step) && Mirrors(Broker.After(s, step), who, Tried(p, true, token), at)
  {
    var tag, p' := at(p.incoming[0].tag), Tried(p, true, token);
    assert KeptAs(s, p, at, p.incoming[0], Incoming);
    TakenSlots(p, true, token);
    TriedUnacked(s, tag, token, owner, lease);
    hide D.Conserved;
    hide Placed;
    hide Known;
    hide Mapped;
    hide Broker.After;
    hide Enabled;
    hide Tried;
    hide Hold;
    var s' := Broker.After(s, Reserve(tag, token, owner, lease));
    HeldMapped(s, s', who, p, p', at, tag, token);
    HeldPlaced(s, s', who, p, p', at, token);
    HeldKnown(s, s', who, p, p', at, token);
  }

  /** One try of `reserve`, taken or refused. */
  lemma TryIsAStep(s: System, who: nat, p: D.Slots, at: nat -> nat, token: Uuid, owner: string, lease: Time)
    requires Mirrors(s, who, p, at) && D.Conserved(p) && p.incoming != []
    ensures var id, step := p.incoming[0].job, Reserve(at(p.incoming[0].tag), token, owner, lease);
            && Enabled(s, step)
            && Broker.After(s, step).jobs == JobTable.After(s.jobs, Claim(id, token, owner, lease, s.now))
            && Broker.After(s, step).queue == s.queue && Broker.After(s, step).intents == s.intents
            && Mirrors(Broker.After(s, step), who, Tried(p, id in s.jobs && Claimable(s.jobs[id], s.now), token), at)
  {
    var id := p.incoming[0].job;
    assert KeptAs(s, p, at, p.incoming[0], Incoming);
    TriedUnacked(s, at(p.incoming[0].tag), token, owner, lease);
    hide Mirrors;
    hide Broker.After;
    hide Enabled;
    hide Tried;
    hide D.Conserved;
    if id in s.jobs && Claimable(s.jobs[id], s.now) {
      ClaimIsAStep(s, who, p, at, token, owner, lease);
    } else {
      RefusalIsAStep(s, who, p, at, token, owner, lease);
    }
  }

  // ----- letting go

  /** The deliveries a release settles are those the channel's own release settles: one or none. */
  lemma SettledHere(s: System, who: nat, p: D.Slots, at: nat -> nat, job: Uuid, guard: Option<Uuid>, b: nat)
    requires Mirrors(s, who, p, at) && D.Conserved(p) && b in s.unacked
    ensures Settles(s.unacked[b], who, job, guard) <==>
            D.Releases(p.held, job, guard) && b == at(p.held[job].delivery.tag)
  {
    if Settles(s.unacked[b], who, job, guard) {
      var t :| t in p.unacked && at(t) == b;
      var j :| j in p.held && p.held[j].delivery.tag == t;
      assert KeptAs(s, p, at, p.held[j].delivery, Held(p.held[j].token)) && p.held[j].delivery.job == j;
    }
    if D.Releases(p.held, job, guard) {
      assert KeptAs(s, p, at, p.held[job].delivery, Held(p.held[job].token)) && p.held[job].delivery.job == job;
    }
  }

  lemma LetGoIsWithout(p: D.Slots, job: Uuid, guard: Option<Uuid>)
    requires D.Conserved(p) && p.inHand.None? && D.Releases(p.held, job, guard)
    ensures Without(p, D.After(p, D.LetGo(job, guard)), p.held[job].delivery.tag)
  {
    var tag, p' := p.held[job].delivery.tag, D.After(p, D.LetGo(job, guard));
    assert D.IsHeld(p, tag);
    forall i | 0 <= i < |p'.incoming|
      ensures p'.incoming[i] in p.incoming && p'.incoming[i].tag != tag
    {
      assert D.Waits(p, p.incoming[i].tag);
    }
    forall t | t != tag && D.IsHeld(p, t)
      ensures D.IsHeld(p', t)
    {
      var j :| j in p.held && p.held[j].delivery.tag == t;
      assert j in p'.held && p'.held[j].delivery.tag == t;
    }
    forall t | D.Waits(p, t)
      ensures D.Waits(p', t)
    {
    }
  }

  lemma ReleasedUnacked(s: System, who: nat, job: Uuid, guard: Option<Uuid>)
    ensures var step := Release(who, job, guard);
            && Enabled(s, step)
            && Broker.After(s, step) ==
               s.(unacked := map t | t in s.unacked && !Settles(s.unacked[t], who, job, guard) :: s.unacked[t])
  {
  }

  lemma ReleaseSettles(s: System, who: nat, p: D.Slots, at: nat -> nat, job: Uuid, guard: Option<Uuid>)
    requires Mirrors(s, who, p, at) && D.Conserved(p)
    ensures Broker.After(s, Release(who, job, guard)).unacked ==
            if D.Releases(p.held, job, guard) then s.unacked - {at(p.held[job].delivery.tag)} else s.unacked
  {
    ReleasedUnacked(s, who, job, guard);
    hide Broker.After;
    hide Mirrors;
    hide D.Conserved;
    forall b | b in s.unacked
      ensures Settles(s.unacked[b], who, job, guard) <==>
              D.Releases(p.held, job, guard) && b == at(p.held[job].delivery.tag)
    {
      SettledHere(s, who, p, at, job, guard, b);
    }
    hide Settles;
  }

  lemma NothingLetGo(p: D.Slots, job: Uuid, guard: Option<Uuid>)
    ensures !D.Releases(p.held, job, guard) ==> D.After(p, D.LetGo(job, guard)) == p
    ensures D.Releases(p.held, job, guard) ==> job in p.held
  {
  }

  /** A release, guarded or not. */
  lemma LetGoIsAStep(s: System, who: nat, p: D.Slots, at: nat -> nat, job: Uuid, guard: Option<Uuid>)
    requires Mirrors(s, who, p, at) && D.Conserved(p)
    ensures var step := Release(who, job, guard);
            && Enabled(s, step)
            && Broker.After(s, step) == s.(unacked := Broker.After(s, step).unacked)
            && Mirrors(Broker.After(s, step), who, D.After(p, D.LetGo(job, guard)), at)
  {
    assert p.inHand.None?;
    hide *;
    var s' := Broker.After(s, Release(who, job, guard));
    ReleasedUnacked(s, who, job, guard);
    ReleaseSettles(s, who, p, at, job, guard);
    NothingLetGo(p, job, guard);
    if D.Releases(p.held, job, guard) {
      LetGoIsWithout(p, job, guard);
      SettledMirrors(s, s', who, p, D.After(p, D.LetGo(job, guard)), at, p.held[job].delivery.tag);
    } else {
      SameDeliveries(s, s', who, p, at);
    }
  }

  // ----- the calls

  /** The steps of one offer that has been decided: the message and the mark, or as much of them as lands. */
  function OfferSteps(id: Uuid, delay: Time, epoch: int, now: Time, publish: Fault, mark: Fault): seq<Step> {
    if publish == NeverArrives then [Drop(ToPublish(id, delay, epoch))]
    else [Publish(ToPublish(id, delay, epoch), now + Max(delay, 0))] + [MarkStep(id, epoch, publish, mark)]
  }

  function MarkStep(id: Uuid, epoch: int, publish: Fault, mark: Fault): Step {
    if publish == Answers && mark != NeverArrives then Mark(ToMark(id, epoch)) else Drop(ToMark(id, epoch))
  }

  /** What the offer leaves. */
  function Offered(s: System, id: Uuid, delay: Option<Time>, epoch: int, publish: Fault, mark: Fault): System {
    s.(jobs := JobQueue.AfterOffer(s.jobs, id, s.now, publish, mark),
       queue := s.queue + JobQueue.WireOf(id, delay, s.now, publish),
       intents := s.intents - multiset{ToPublish(id, RetryDelay(delay), epoch)})
  }

  /** Its message is on the wire, and its mark not yet made. */
  function Sent(s: System, id: Uuid, delay: Option<Time>, epoch: int): System {
    s.(queue := s.queue + multiset{JobQueue.Wire(id, delay, s.now)},
       intents := s.intents - multiset{ToPublish(id, RetryDelay(delay), epoch)} + multiset{ToMark(id, epoch)})
  }

  lemma MarkRuns(s: System, id: Uuid, epoch: int)
    requires ToMark(id, epoch) in s.intents
    ensures Run(s, [Mark(ToMark(id, epoch))],
                s.(jobs := JobQueue.MarkedRow(s.jobs, id, s.now), intents := s.intents - multiset{ToMark(id, epoch)}))
  {
    OneRowChanges(s.jobs, MarkPublished(id, s.now), id);
    OneStep(s, Mark(ToMark(id, epoch)));
    hide Run;
    hide JobTable.After;
  }

  lemma DropLeaves(s: System, i: Intent)
    requires i in s.intents
    ensures Enabled(s, Drop(i)) && Broker.After(s, Drop(i)) == s.(intents := s.intents - multiset{i})
  {
  }

  lemma DropRuns(s: System, i: Intent)
    requires i in s.intents
    ensures Run(s, [Drop(i)], s.(intents := s.intents - multiset{i}))
  {
    hide *;
    DropLeaves(s, i);
    OneStep(s, Drop(i));
  }

  lemma PublishLeaves(s: System, i: Intent, at: Time)
    requires i.ToPublish? && i in s.intents && at >= s.now + Max(i.delay, 0)
    ensures var step := Publish(i, at);
            && Enabled(s, step)
            && Broker.After(s, step) ==
               s.(queue := s.queue + multiset{Message(i.job, at)},
                  intents := s.intents - multiset{i} + multiset{ToMark(i.job, i.epoch)})
  {
  }

  lemma SentLeaves(s: System, id: Uuid, delay: Option<Time>, epoch: int)
    ensures Sent(s, id, delay, epoch) ==
            s.(queue := s.queue + multiset{Message(id, s.now + Max(RetryDelay(delay), 0))},
               intents := s.intents - multiset{ToPublish(id, RetryDelay(delay), epoch)} + multiset{ToMark(id, epoch)})
  {
  }

  lemma PublishRuns(s: System, id: Uuid, delay: Option<Time>, epoch: int)
    requires ToPublish(id, RetryDelay(delay), epoch) in s.intents
    ensures Run(s, [Publish(ToPublish(id, RetryDelay(delay), epoch), s.now + Max(RetryDelay(delay), 0))],
                Sent(s, id, delay, epoch))
  {
    hide *;
    SentLeaves(s, id, delay, epoch);
    PublishLeaves(s, ToPublish(id, RetryDelay(delay), epoch), s.now + Max(RetryDelay(delay), 0));
    OneStep(s, Publish(ToPublish(id, RetryDelay(delay), epoch), s.now + Max(RetryDelay(delay), 0)));
  }

  /** The message is on the wire; the mark lands or is given up. */
  lemma SentRuns(s: System, id: Uuid, delay: Option<Time>, epoch: int, publish: Fault, mark: Fault)
    requires publish != NeverArrives && ToPublish(id, RetryDelay(delay), epoch) in s.intents
    ensures Run(Sent(s, id, delay, epoch), [MarkStep(id, epoch, publish, mark)],
                Offered(s, id, delay, epoch, publish, mark))
  {
    var s1, rest := Sent(s, id, delay, epoch), s.intents - multiset{ToPublish(id, RetryDelay(delay), epoch)};
    assert s1.intents - multiset{ToMark(id, epoch)} == rest;
    hide Run;
    hide JobQueue.MarkedRow;
    hide JobQueue.Wire;
    if publish == Answers && mark != NeverArrives {
      MarkRuns(s1, id, epoch);
    } else {
      DropRuns(s1, ToMark(id, epoch));
    }
  }

  lemma UnsentRuns(s: System, id: Uuid, delay: Option<Time>, epoch: int, mark: Fault)
    requires ToPublish(id, RetryDelay(delay), epoch) in s.intents
    ensures Run(s, OfferSteps(id, RetryDelay(delay), epoch, s.now, NeverArrives, mark),
                Offered(s, id, delay, epoch, NeverArrives, mark))
  {
    hide Run;
    DropRuns(s, ToPublish(id, RetryDelay(delay), epoch));
    assert s.queue + JobQueue.WireOf(id, delay, s.now, NeverArrives) == s.queue;
  }

  lemma SentSteps(id: Uuid, delay: Time, epoch: int, now: Time, publish: Fault, mark: Fault)
    requires publish != NeverArrives
    ensures OfferSteps(id, delay, epoch, now, publish, mark) ==
            [Publish(ToPublish(id, delay, epoch), now + Max(delay, 0))] + [MarkStep(id, epoch, publish, mark)]
  {
  }

  /** An offer leaves the row and the message it says, and nothing half done. */
  lemma OfferRuns(s: System, id: Uuid, delay: Option<Time>, epoch: int, publish: Fault, mark: Fault)
    requires ToPublish(id, RetryDelay(delay), epoch) in s.intents
    ensures Run(s, OfferSteps(id, RetryDelay(delay), epoch, s.now, publish, mark),
                Offered(s, id, delay, epoch, publish, mark))
  {
    hide *;
    if publish == NeverArrives {
      UnsentRuns(s, id, delay, epoch, mark);
    } else {
      PublishRuns(s, id, delay, epoch);
      SentRuns(s, id, delay, epoch, publish, mark);
      SentSteps(id, RetryDelay(delay), epoch, s.now, publish, mark);
      RunThenRun(s, [Publish(ToPublish(id, RetryDelay(delay), epoch), s.now + Max(RetryDelay(delay), 0))],
                 Sent(s, id, delay, epoch), [MarkStep(id, epoch, publish, mark)],
                 Offered(s, id, delay, epoch, publish, mark));
    }
  }

  /** An offer that was only just decided. */
  lemma DecidedRuns(s: System, first: seq<Step>, s1: System, id: Uuid, delay: Option<Time>, epoch: int, publish: Fault,
                    mark: Fault, intents: multiset<Intent>)
    returns (steps: seq<Step>, s': System)
    requires Run(s, first, s1) && s1.intents == intents + multiset{ToPublish(id, RetryDelay(delay), epoch)}
    ensures Run(s, steps, s')
    ensures s' == s1.(jobs := JobQueue.AfterOffer(s1.jobs, id, s1.now, publish, mark),
                      queue := s1.queue + JobQueue.WireOf(id, delay, s1.now, publish), intents := intents)
  {
    var offer := OfferSteps(id, RetryDelay(delay), epoch, s1.now, publish, mark);
    assert s1.intents - multiset{ToPublish(id, RetryDelay(delay), epoch)} == intents;
    steps, s' := first + offer, Offered(s1, id, delay, epoch, publish, mark);
    hide Run;
    hide OfferSteps;
    hide JobQueue.AfterOffer;
    hide JobQueue.WireOf;
    hide RetryDelay;
    OfferRuns(s1, id, delay, epoch, publish, mark);
    RunThenRun(s, first, s1, offer, s');
  }

  /** `enqueue` of a new key: the rows and the messages are those the call leaves, however its broker calls go. */
  lemma EnqueueIsARun(s: System, who: nat, p: D.Slots, at: nat -> nat, id: Uuid, request: JobRequest,
                      publish: Fault, mark: Fault)
    returns (steps: seq<Step>, s': System)
    requires Mirrors(s, who, p, at) && Inserts(s.jobs, Insert(id, request, s.now))
    ensures Run(s, steps, s') && Mirrors(s', who, p, at) && s'.intents == s.intents
    ensures s'.jobs ==
            JobQueue.AfterOffer(JobTable.After(s.jobs, Insert(id, request, s.now)), id, s.now, publish, mark)
    ensures s'.queue == s.queue + JobQueue.WireOf(id, Some(request.delay), s.now, publish)
  {
    var inserted := JobTable.After(s.jobs, Insert(id, request, s.now));
    var s1 := s.(jobs := inserted, intents := s.intents + multiset{ToPublish(id, request.delay, 0)});
    OneStep(s, Broker.Enqueue(id, request));
    assert Broker.After(s, Broker.Enqueue(id, request)) == s1;
    hide *;
    SomeDelay(request.delay);
    steps, s' := DecidedRuns(s, [Broker.Enqueue(id, request)], s1, id, Some(request.delay), 0, publish, mark,
                             s.intents);
    SameDeliveries(s, s', who, p, at);
  }

  lemma SomeDelay(delay: Time)
    ensures RetryDelay(Some(delay)) == delay
  {
  }

  /** What the statement of a return leaves, with the publish it decides on, if any. */
  function Returned(s: System, id: Uuid, token: Uuid, error: string, retryIn: Option<Time>): System {
    s.(jobs := JobTable.After(s.jobs, Nack(id, token, error, retryIn, s.now)),
       intents := if JobQueue.GoesRound(s.jobs, id, token, Answers)
                  then s.intents + multiset{ToPublish(id, RetryDelay(retryIn), s.jobs[id].job.attempts)}
                  else s.intents)
  }

  lemma ReturnRuns(s: System, id: Uuid, token: Uuid, error: string, retryIn: Option<Time>)
    ensures Run(s, [NackJob(id, token, error, retryIn)], Returned(s, id, token, error, retryIn))
  {
    OneStep(s, NackJob(id, token, error, retryIn));
    hide Run;
    hide JobTable.After;
    hide ReturnState;
  }

  lemma ReleaseRuns(s: System, who: nat, p: D.Slots, at: nat -> nat, id: Uuid, token: Uuid) returns (s': System)
    requires Mirrors(s, who, p, at) && D.Conserved(p)
    ensures Run(s, [Release(who, id, Some(token))], s') && s' == s.(unacked := s'.unacked)
    ensures Mirrors(s', who, D.After(p, D.LetGo(id, Some(token))), at)
  {
    ReleasedUnacked(s, who, id, Some(token));
    s' := Broker.After(s, Release(who, id, Some(token)));
    hide *;
    LetGoIsAStep(s, who, p, at, id, Some(token));
    OneStep(s, Release(who, id, Some(token)));
  }

  /** `nack`: the row hears the return unless the call never arrived, the delivery is let go either way, and a job
      that goes round again is offered. */
  lemma NackIsARun(s: System, who: nat, p: D.Slots, at: nat -> nat, id: Uuid, token: Uuid, error: string,
                   retryIn: Option<Time>, fault: Fault, publish: Fault, mark: Fault)
    returns (steps: seq<Step>, s': System)
    requires Mirrors(s, who, p, at) && D.Conserved(p)
    ensures Run(s, steps, s') && Mirrors(s', who, D.After(p, D.LetGo(id, Some(token))), at) && s'.intents == s.intents
    ensures var again := JobQueue.GoesRound(s.jobs, id, token, fault);
            var jobs := JobTable.After(s.jobs, Nack(id, token, error, retryIn, s.now));
            && s'.jobs == (if fault == NeverArrives then s.jobs
                           else if again then JobQueue.AfterOffer(jobs, id, s.now, publish, mark) else jobs)
            && s'.queue == s.queue + if again then JobQueue.WireOf(id, retryIn, s.now, publish) else multiset{}
  {
    hide *;
    RoundNeedsAnAnswer(s.jobs, id, token, fault);
    if fault == NeverArrives {
      s' := ReleaseRuns(s, who, p, at, id, token);
      steps := [Release(who, id, Some(token))];
    } else {
      steps, s' := ReturnAndOffer(s, who, p, at, id, token, error, retryIn, fault, publish, mark);
    }
  }

  /** A publish that was decided and forgotten. */
  lemma ForgottenRuns(s: System, first: seq<Step>, s1: System, i: Intent, intents: multiset<Intent>)
    returns (steps: seq<Step>, s': System)
    requires Run(s, first, s1) && s1.intents == intents + multiset{i}
    ensures Run(s, steps, s') && s' == s1.(intents := intents)
  {
    hide Run;
    DropRuns(s1, i);
    assert s1.intents - multiset{i} == intents;
    steps, s' := first + [Drop(i)], s1.(intents := intents);
    RunThenRun(s, first, s1, [Drop(i)], s');
  }

  lemma RoundNeedsAnAnswer(jobs: JobMap, id: Uuid, token: Uuid, fault: Fault)
    ensures JobQueue.GoesRound(jobs, id, token, fault) <==>
            fault == Answers && JobQueue.GoesRound(jobs, id, token, Answers)
    ensures JobQueue.GoesRound(jobs, id, token, Answers) ==> id in jobs
  {
  }

  lemma ReturnAndOffer(s: System, who: nat, p: D.Slots, at: nat -> nat, id: Uuid, token: Uuid, error: string,
                       retryIn: Option<Time>, fault: Fault, publish: Fault, mark: Fault)
    returns (steps: seq<Step>, s': System)
    requires Mirrors(s, who, p, at) && D.Conserved(p) && fault != NeverArrives
    ensures Run(s, steps, s') && Mirrors(s', who, D.After(p, D.LetGo(id, Some(token))), at) && s'.intents == s.intents
    ensures var again := JobQueue.GoesRound(s.jobs, id, token, fault);
            var jobs := JobTable.After(s.jobs, Nack(id, token, error, retryIn, s.now));
            && s'.jobs == (if again then JobQueue.AfterOffer(jobs, id, s.now, publish, mark) else jobs)
            && s'.queue == s.queue + if again then JobQueue.WireOf(id, retryIn, s.now, publish) else multiset{}
  {
    var s1 := Returned(s, id, token, error, retryIn);
    assert s1.unacked == s.unacked && s1.queue == s.queue && s1.now == s.now;
    assert s1.jobs == JobTable.After(s.jobs, Nack(id, token, error, retryIn, s.now));
    RoundNeedsAnAnswer(s.jobs, id, token, fault);
    var round := JobQueue.GoesRound(s.jobs, id, token, Answers);
    assert !round ==> s1.intents == s.intents;
    assert round ==>
        s1.intents == s.intents + multiset{ToPublish(id, RetryDelay(retryIn), s.jobs[id].job.attempts)};
    hide *;
    ReturnRuns(s, id, token, error, retryIn);
    SameDeliveries(s, s1, who, p, at);
    var s2 := ReleaseRuns(s1, who, p, at, id, token);
    var two := [NackJob(id, token, error, retryIn)] + [Release(who, id, Some(token))];
    RunThenRun(s, [NackJob(id, token, error, retryIn)], s1, [Release(who, id, Some(token))], s2);
    steps, s' := two, s2;
    if round {
      var epoch := s.jobs[id].job.attempts;
      if fault == Answers {
        steps, s' := DecidedRuns(s, two, s2, id, retryIn, epoch, publish, mark, s.intents);
      } else {
        steps, s' := ForgottenRuns(s, two, s2, ToPublish(id, RetryDelay(retryIn), epoch), s.intents);
      }
      SameDeliveries(s2, s', who, D.After(p, D.LetGo(id, Some(token))), at);
    }
  }

  /** `ack`: the row hears it unless the call never arrived, and the delivery is let go either way. */
  lemma AckIsARun(s: System, who: nat, p: D.Slots, at: nat -> nat, id: Uuid, token: Uuid, ref: Option<string>,
                  fault: Fault)
    returns (steps: seq<Step>, s': System)
    requires Mirrors(s, who, p, at) && D.Conserved(p)
    ensures Run(s, steps, s') && Mirrors(s', who, D.After(p, D.LetGo(id, Some(token))), at)
    ensures s'.jobs == if fault == NeverArrives then s.jobs else JobTable.After(s.jobs, Ack(id, token, ref))
    ensures s'.queue == s.queue && s'.intents == s.intents
  {
    var s1 := if fault == NeverArrives then s else s.(jobs := JobTable.After(s.jobs, Ack(id, token, ref)));
    var first := if fault == NeverArrives then [] else [AckJob(id, token, ref)];
    assert Run(s, first, s1) by {
      OneStep(s, AckJob(id, token, ref));
    }
    hide *;
    SameDeliveries(s, s1, who, p, at);
    s' := ReleaseRuns(s1, who, p, at, id, token);
    steps := first + [Release(who, id, Some(token))];
    RunThenRun(s, first, s1, [Release(who, id, Some(token))], s');
  }

  // ----- the two halves of a maintenance pass

  /** An orphan: found, published and marked, or as much of that as lands. */
  lemma OrphanIsARun(s: System, who: nat, p: D.Slots, at: nat -> nat, id: Uuid, olderThan: Time,
                     publish: Fault, mark: Fault)
    returns (steps: seq<Step>, s': System)
    requires Mirrors(s, who, p, at)
    requires olderThan >= 0 && id in s.jobs && Unpublished(s.jobs[id], olderThan, s.now)
    ensures Run(s, steps, s') && Mirrors(s', who, p, at) && s'.intents == s.intents
    ensures s'.jobs == JobQueue.AfterOffer(s.jobs, id, s.now, publish, mark)
    ensures s'.queue == s.queue + JobQueue.WireOf(id, None, s.now, publish)
  {
    var step, epoch := FindOrphan(id, olderThan), s.jobs[id].job.attempts;
    var s1 := s.(intents := s.intents + multiset{ToPublish(id, 0, epoch)});
    OneStep(s, step);
    assert Broker.After(s, step) == s1;
    hide *;
    NoDelay();
    steps, s' := DecidedRuns(s, [step], s1, id, None, epoch, publish, mark, s.intents);
    SameDeliveries(s, s', who, p, at);
  }

  lemma NoDelay()
    ensures RetryDelay(None) == 0
  {
  }

  /** A lapsed job: let go of, and published again unless it was lately or the call never arrives. The row stays. */
  lemma LapsedIsARun(s: System, who: nat, p: D.Slots, at: nat -> nat, id: Uuid, publishes: bool)
    returns (steps: seq<Step>, s': System)
    requires Mirrors(s, who, p, at) && D.Conserved(p) && id in s.jobs && Lapsed(s.jobs[id], s.now)
    ensures Run(s, steps, s') && Mirrors(s', who, D.After(p, D.LetGo(id, None)), at)
    ensures s'.jobs == s.jobs && s'.intents == s.intents
    ensures s'.queue == s.queue + if publishes then multiset{JobQueue.Wire(id, None, s.now)} else multiset{}
  {
    var found := s.(intents := s.intents + multiset{ToOffer(id)});
    OneStep(s, FindLapsed(id));
    assert Broker.After(s, FindLapsed(id)) == found;
    ReleasedUnacked(found, who, id, None);
    var let := Release(who, id, None);
    var s2 := Broker.After(found, let);
    hide *;
    SameDeliveries(s, found, who, p, at);
    LetGoIsAStep(found, who, p, at, id, None);
    OneStep(found, let);
    RunThenRun(s, [FindLapsed(id)], found, [let], s2);
    if publishes {
      steps, s' := OfferedRuns(s, [FindLapsed(id)] + [let], s2, id, s.intents);
    } else {
      steps, s' := ForgottenRuns(s, [FindLapsed(id)] + [let], s2, ToOffer(id), s.intents);
    }
    SameDeliveries(s2, s', who, D.After(p, D.LetGo(id, None)), at);
  }

  lemma OfferedRuns(s: System, first: seq<Step>, s1: System, id: Uuid, intents: multiset<Intent>)
    returns (steps: seq<Step>, s': System)
    requires Run(s, first, s1) && s1.intents == intents + multiset{ToOffer(id)}
    ensures Run(s, steps, s')
    ensures s' == s1.(queue := s1.queue + multiset{JobQueue.Wire(id, None, s1.now)}, intents := intents)
  {
    var step := Publish(ToOffer(id), s1.now);
    hide Run;
    OneStep(s1, step);
    assert s1.intents - multiset{ToOffer(id)} == intents;
    steps, s' := first + [step], Broker.After(s1, step);
    RunThenRun(s, first, s1, [step], s');
    assert JobQueue.Wire(id, None, s1.now) == Message(id, s1.now);
  }
}
