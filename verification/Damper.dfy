/** The damper on republishing lapsed jobs: which of them one maintenance pass offers again
    (adapters/rabbitmq/job_queue.py, `_sweep`). */
module Damper {
  import opened Basics

  /** When each job was last republished by this process. */
  type Memory = map<Uuid, Time>

  const QUIET_PASSES := 4

  /** One publication. */
  datatype Offer = Offer(at: Time, job: Uuid)

  /** One maintenance pass: the lapsed jobs it got through, and whether it reached its pruning step. A
      pass that fails part-way is logged and abandoned, so it may reach fewer jobs and prune nothing. */
  datatype Pass = Pass(now: Time, reached: seq<Uuid>, pruned: bool)

  predicate Damped(m: Memory, id: Uuid, now: Time, quiet: Time) {
    id in m && now - m[id] < quiet
  }

  /** The memory after a pass has got through `ids`. */
  function Noted(m: Memory, ids: seq<Uuid>, now: Time, quiet: Time): Memory {
    if ids == [] then m
    else
      var before, id := Noted(m, ids[..|ids| - 1], now, quiet), ids[|ids| - 1];
      if Damped(before, id, now, quiet) then before else before[id := now]
  }

  /** What the pass publishes on the way. */
  function Offered(m: Memory, ids: seq<Uuid>, now: Time, quiet: Time): seq<Offer> {
    if ids == [] then []
    else
      var init, id := ids[..|ids| - 1], ids[|ids| - 1];
      Offered(m, init, now, quiet) + if Damped(Noted(m, init, now, quiet), id, now, quiet) then [] else [Offer(now, id)]
  }

  function Pruned(m: Memory, now: Time, quiet: Time): Memory {
    map id | id in m && now - m[id] < quiet :: m[id]
  }

  function AfterPass(m: Memory, p: Pass, quiet: Time): Memory {
    var noted := Noted(m, p.reached, p.now, quiet);
    if p.pruned then Pruned(noted, p.now, quiet) else noted
  }

  /** Everything a process publishes over its passes, in order. */
  function Offers(m: Memory, passes: seq<Pass>, quiet: Time): seq<Offer>
    decreases |passes|
  {
    if passes == [] then []
    else Offered(m, passes[0].reached, passes[0].now, quiet)
         + Offers(AfterPass(m, passes[0], quiet), passes[1..], quiet)
  }

  /** The same passes by a process that never prunes. */
  function OffersUnpruned(m: Memory, passes: seq<Pass>, quiet: Time): seq<Offer>
    decreases |passes|
  {
    if passes == [] then []
    else
      Offered(m, passes[0].reached, passes[0].now, quiet)
      + OffersUnpruned(Noted(m, passes[0].reached, passes[0].now, quiet), passes[1..], quiet)
  }

  ghost predicate InTime(from: Time, passes: seq<Pass>) {
    && (forall i :: 0 <= i < |passes| ==> from <= passes[i].now)
    && (forall i, j :: 0 <= i < j < |passes| ==> passes[i].now <= passes[j].now)
  }

  /** From `now` on, the two memories damp the same jobs. */
  ghost predicate Alike(small: Memory, full: Memory, now: Time, quiet: Time) {
    && (forall id :: id in small ==> id in full && full[id] == small[id])
    && (forall id :: id in full && id !in small ==> now - full[id] >= quiet)
  }

  lemma {:induction false} AlikeThroughPass(small: Memory, full: Memory, ids: seq<Uuid>, now: Time, quiet: Time)
    requires Alike(small, full, now, quiet)
    ensures Alike(Noted(small, ids, now, quiet), Noted(full, ids, now, quiet), now, quiet)
    ensures Offered(small, ids, now, quiet) == Offered(full, ids, now, quiet)
  {
    if ids != [] {
      AlikeThroughPass(small, full, ids[..|ids| - 1], now, quiet);
    }
  }

  lemma {:induction false} PruningIsInvisibleFrom(small: Memory, full: Memory, passes: seq<Pass>, now: Time,
                                                  quiet: Time)
    requires Alike(small, full, now, quiet) && InTime(now, passes)
    ensures Offers(small, passes, quiet) == OffersUnpruned(full, passes, quiet)
    decreases |passes|
  {
    if passes != [] {
      var p := passes[0];
      AlikeThroughPass(small, full, p.reached, p.now, quiet);
      hide Noted;
      hide Offered;
      assert Alike(AfterPass(small, p, quiet), Noted(full, p.reached, p.now, quiet), p.now, quiet);
      assert InTime(p.now, passes[1..]);
      PruningIsInvisibleFrom(AfterPass(small, p, quiet), Noted(full, p.reached, p.now, quiet), passes[1..], p.now,
                             quiet);
    }
  }

  /** Forgetting what has gone quiet changes no publication of any run. */
  lemma PruningIsInvisible(start: Time, passes: seq<Pass>, quiet: Time)
    requires InTime(start, passes)
    ensures Offers(map[], passes, quiet) == OffersUnpruned(map[], passes, quiet)
  {
    PruningIsInvisibleFrom(map[], map[], passes, start, quiet);
  }

  // ----- never twice within the quiet time

  ghost predicate Spaced(offers: seq<Offer>, quiet: Time) {
    forall i, j :: 0 <= i < j < |offers| && offers[i].job == offers[j].job ==> offers[j].at - offers[i].at >= quiet
  }

  /** The memory knows the latest publication of every job published so far. */
  ghost predicate Remembers(m: Memory, offers: seq<Offer>) {
    forall i :: 0 <= i < |offers| ==> offers[i].job in m && offers[i].at <= m[offers[i].job]
  }

  lemma OfferKeepsSpacing(m: Memory, past: seq<Offer>, id: Uuid, now: Time, quiet: Time)
    requires Spaced(past, quiet) && Remembers(m, past) && !Damped(m, id, now, quiet)
             && forall j :: j in m ==> m[j] <= now
    ensures Spaced(past + [Offer(now, id)], quiet) && Remembers(m[id := now], past + [Offer(now, id)])
    ensures var m' := m[id := now]; forall j :: j in m' ==> m'[j] <= now
  {
  }

  lemma {:induction false} PassKeepsSpacing(m: Memory, past: seq<Offer>, ids: seq<Uuid>, now: Time, quiet: Time)
    requires Spaced(past, quiet) && Remembers(m, past) && forall id :: id in m ==> m[id] <= now
    ensures Spaced(past + Offered(m, ids, now, quiet), quiet)
    ensures Remembers(Noted(m, ids, now, quiet), past + Offered(m, ids, now, quiet))
    ensures forall id :: id in Noted(m, ids, now, quiet) ==> Noted(m, ids, now, quiet)[id] <= now
  {
    if ids == [] {
      assert past + [] == past;
    } else {
      var init, id := ids[..|ids| - 1], ids[|ids| - 1];
      PassKeepsSpacing(m, past, init, now, quiet);
      var before, so := Noted(m, init, now, quiet), past + Offered(m, init, now, quiet);
      if Damped(before, id, now, quiet) {
        assert past + Offered(m, ids, now, quiet) == so && Noted(m, ids, now, quiet) == before;
      } else {
        assert past + Offered(m, ids, now, quiet) == so + [Offer(now, id)]
               && Noted(m, ids, now, quiet) == before[id := now];
        hide Noted;
        hide Offered;
        OfferKeepsSpacing(before, so, id, now, quiet);
      }
      hide Spaced;
      hide Remembers;
    }
  }

  lemma {:induction false} RunKeepsSpacing(m: Memory, past: seq<Offer>, passes: seq<Pass>, now: Time, quiet: Time)
    requires Spaced(past, quiet) && Remembers(m, past) && InTime(now, passes)
    requires forall id :: id in m ==> m[id] <= now
    ensures Spaced(past + OffersUnpruned(m, passes, quiet), quiet)
    decreases |passes|
  {
    if passes == [] {
      assert past + [] == past;
    } else {
      var p := passes[0];
      PassKeepsSpacing(m, past, p.reached, p.now, quiet);
      var offered, noted := Offered(m, p.reached, p.now, quiet), Noted(m, p.reached, p.now, quiet);
      assert InTime(p.now, passes[1..]);
      hide Spaced;
      hide Remembers;
      hide InTime;
      hide Noted;
      hide Offered;
      RunKeepsSpacing(noted, past + offered, passes[1..], p.now, quiet);
      assert past + OffersUnpruned(m, passes, quiet) == (past + offered) + OffersUnpruned(noted, passes[1..], quiet);
    }
  }

  /** One process never republishes the same job twice within four maintenance intervals. */
  lemma NeverTwiceWithinQuiet(start: Time, passes: seq<Pass>, interval: Time)
    requires InTime(start, passes)
    ensures var offers := Offers(map[], passes, 4 * interval);
            forall i, j :: 0 <= i < j < |offers| && offers[i].job == offers[j].job ==>
              offers[j].at - offers[i].at >= 4 * interval
  {
    PruningIsInvisible(start, passes, 4 * interval);
    RunKeepsSpacing(map[], [], passes, start, 4 * interval);
    assert [] + OffersUnpruned(map[], passes, 4 * interval) == OffersUnpruned(map[], passes, 4 * interval);
  }

  // ----- and always once it has been quiet for so long

  /** What one pass makes of the memory, said of each job: the ones it comes to and that have not been published for
      `quiet` are now, and nothing else is touched. */
  lemma {:induction false} NotedIsLatest(m: Memory, ids: seq<Uuid>, now: Time, quiet: Time)
    ensures forall id :: id in ids ==>
              && id in Noted(m, ids, now, quiet)
              && Noted(m, ids, now, quiet)[id] == if id in m && now - m[id] < quiet then m[id] else now
    ensures forall id :: id !in ids ==>
              && (id in Noted(m, ids, now, quiet) <==> id in m)
              && (id in m ==> Noted(m, ids, now, quiet)[id] == m[id])
  {
    if ids != [] {
      NotedIsLatest(m, ids[..|ids| - 1], now, quiet);
      assert ids == ids[..|ids| - 1] + [ids[|ids| - 1]];
    }
  }

  /** The memory after some passes, never pruned. */
  function Memorised(m: Memory, passes: seq<Pass>, quiet: Time): Memory
    decreases |passes|
  {
    if passes == [] then m else Memorised(Noted(m, passes[0].reached, passes[0].now, quiet), passes[1..], quiet)
  }

  lemma {:induction false} OneMorePass(m: Memory, passes: seq<Pass>, p: Pass, quiet: Time)
    ensures OffersUnpruned(m, passes + [p], quiet) ==
            OffersUnpruned(m, passes, quiet) + Offered(Memorised(m, passes, quiet), p.reached, p.now, quiet)
    decreases |passes|
  {
    if passes == [] {
      assert (passes + [p])[1..] == [];
      assert Offered(m, p.reached, p.now, quiet) + [] == [] + Offered(m, p.reached, p.now, quiet);
    } else {
      var noted, offered := Noted(m, passes[0].reached, passes[0].now, quiet),
                            Offered(m, passes[0].reached, passes[0].now, quiet);
      OneMorePass(noted, passes[1..], p, quiet);
      assert (passes + [p])[1..] == passes[1..] + [p];
      assert (passes + [p])[0] == passes[0];
      hide Noted;
      hide Offered;
      assert offered + (OffersUnpruned(noted, passes[1..], quiet)
                        + Offered(Memorised(noted, passes[1..], quiet), p.reached, p.now, quiet))
             == offered + OffersUnpruned(noted, passes[1..], quiet)
                + Offered(Memorised(noted, passes[1..], quiet), p.reached, p.now, quiet);
    }
  }

  /** Nothing is remembered but publications. */
  ghost predicate Knows(m: Memory, offers: seq<Offer>) {
    forall id :: id in m ==> Offer(m[id], id) in offers
  }

  lemma {:induction false} PassKeepsKnowing(m: Memory, past: seq<Offer>, ids: seq<Uuid>, now: Time, quiet: Time)
    requires Knows(m, past)
    ensures Knows(Noted(m, ids, now, quiet), past + Offered(m, ids, now, quiet))
  {
    if ids != [] {
      PassKeepsKnowing(m, past, ids[..|ids| - 1], now, quiet);
    }
  }

  lemma {:induction false} RunKeepsMemory(m: Memory, past: seq<Offer>, passes: seq<Pass>, now: Time, quiet: Time)
    requires Remembers(m, past) && Knows(m, past) && Spaced(past, quiet) && InTime(now, passes)
    requires forall id :: id in m ==> m[id] <= now
    ensures Remembers(Memorised(m, passes, quiet), past + OffersUnpruned(m, passes, quiet))
    ensures Knows(Memorised(m, passes, quiet), past + OffersUnpruned(m, passes, quiet))
    decreases |passes|
  {
    if passes == [] {
      assert past + [] == past;
    } else {
      var p := passes[0];
      PassKeepsSpacing(m, past, p.reached, p.now, quiet);
      PassKeepsKnowing(m, past, p.reached, p.now, quiet);
      var offered, noted := Offered(m, p.reached, p.now, quiet), Noted(m, p.reached, p.now, quiet);
      assert InTime(p.now, passes[1..]);
      hide Spaced;
      hide Remembers;
      hide Knows;
      hide InTime;
      hide Noted;
      hide Offered;
      RunKeepsMemory(noted, past + offered, passes[1..], p.now, quiet);
      assert past + OffersUnpruned(m, passes, quiet) == (past + offered) + OffersUnpruned(noted, passes[1..], quiet);
    }
  }

  /** A job a pass comes to is published by it if it was not lately. */
  lemma {:induction false} OfferedUnlessDamped(m: Memory, ids: seq<Uuid>, now: Time, quiet: Time, id: Uuid)
    requires id in ids
    ensures Offer(now, id) in Offered(m, ids, now, quiet) <==> !(id in m && now - m[id] < quiet)
  {
    var init, last := ids[..|ids| - 1], ids[|ids| - 1];
    assert ids == init + [last];
    if id in init {
      OfferedUnlessDamped(m, init, now, quiet, id);
      NotedIsLatest(m, init, now, quiet);
    } else {
      OthersOnly(m, init, now, quiet, id);
    }
  }

  lemma {:induction false} OthersOnly(m: Memory, ids: seq<Uuid>, now: Time, quiet: Time, id: Uuid)
    requires id !in ids
    ensures id in Noted(m, ids, now, quiet) <==> id in m
    ensures id in m ==> Noted(m, ids, now, quiet)[id] == m[id]
    ensures forall o :: o in Offered(m, ids, now, quiet) ==> o.job != id
  {
    if ids != [] { OthersOnly(m, ids[..|ids| - 1], now, quiet, id); }
  }

  lemma LatelyMeansPublished(m: Memory, past: seq<Offer>, now: Time, quiet: Time, id: Uuid)
    requires Remembers(m, past) && Knows(m, past)
    ensures id in m && now - m[id] < quiet <==>
            exists i :: 0 <= i < |past| && past[i].job == id && now - past[i].at < quiet
  {
    if id in m {
      var i :| 0 <= i < |past| && past[i] == Offer(m[id], id);
    }
  }

  /** The damper damps nothing else: in every run of one process, complete passes or abandoned ones, a pass publishes
      a lapsed job it comes to if and only if the process did not publish it within the last four intervals. */
  lemma PublishedExactlyWhenQuiet(start: Time, passes: seq<Pass>, p: Pass, interval: Time, id: Uuid)
    requires InTime(start, passes + [p]) && id in p.reached
    ensures var before := Offers(map[], passes, 4 * interval);
            var after := Offers(map[], passes + [p], 4 * interval);
            && before <= after
            && (Offer(p.now, id) in after[|before|..] <==>
                forall i :: 0 <= i < |before| && before[i].job == id ==> p.now - before[i].at >= 4 * interval)
  {
    var quiet := 4 * interval;
    assert InTime(start, passes) by {
      assert forall i :: 0 <= i < |passes| ==> (passes + [p])[i] == passes[i];
    }
    PruningIsInvisible(start, passes, quiet);
    PruningIsInvisible(start, passes + [p], quiet);
    OneMorePass(map[], passes, p, quiet);
    RunKeepsMemory(map[], [], passes, start, quiet);
    var before, m := OffersUnpruned(map[], passes, quiet), Memorised(map[], passes, quiet);
    assert [] + before == before;
    LatelyMeansPublished(m, before, p.now, quiet, id);
    OfferedUnlessDamped(m, p.reached, p.now, quiet, id);
  }
}
