/** One lease, one child, and the six ways a solve can end (worker/supervisor.py, worker/config.py).
    The child, the stop signal and the database are an adversary; the event loop itself is prompt: a wait
    ends at its timeout at the latest, and a timed call at its own. */
module Supervisor {
  import opened Basics
  import opened Jobs
  import opened JobTable
  import opened Tables
  import opened JobStore
  import opened Deliveries
  import opened JobQueue
  import opened Artifacts
  import Execution

  type Bytes = Execution.Bytes

  /** The worker's clock; `solveTimeoutText` is how the cap is spelled in an error. */
  datatype WorkerConfig = WorkerConfig(
    lease: Time,
    extendEvery: Time,
    solveTimeout: Time,
    grace: Time,
    retryIn: Time,
    solveTimeoutText: string)
  {
    /** What construction checks. */
    predicate Accepted() {
      extendEvery < lease && grace > 0 && solveTimeout > 0
    }

    /** A heartbeat needs a period, which construction does not check. */
    predicate Beats() {
      Accepted() && extendEvery > 0
    }
  }

  datatype Outcome =
    | Solved(data: Bytes, contentType: string)
    | ChildFailed(error: string, permanent: bool)
    | ChildDied(error: string)

  datatype Ending = Completed | CancelSeen | TimedOut | LeaseTaken | Undefendable | Released
  {
    /** Does a renewal end the watch so, rather than a wait? */
    predicate OfRenewal() {
      LeaseTaken? || CancelSeen? || Undefendable?
    }
  }

  /** What one job came to. Every ending has an outcome: a child that is stopped reports one too, and it may
      even have solved its job in the meantime. */
  datatype Handled = Handled(lease: Lease, outcome: Outcome, ending: Ending)

  /** What a renewal answers: a fresh copy of the job, refusal, or nothing usable. */
  datatype Renewal = Renewed(landed: nat, job: Job) | TokenGone | Unreachable

  /** One turn of the loop as the adversary plays it: after `after`, the child has reported or a stop was
      asked for, or neither; and the renewal that follows takes `took` and answers. */
  datatype Turn = Turn(after: nat, child: Option<Outcome>, stopping: bool, took: nat, renewal: Renewal)
  {
    predicate Wakes(timeout: Time) {
      (child.Some? || stopping) && after <= timeout
    }

    /** A renewal that takes a whole interval is cut off, and says nothing. */
    function Answer(limit: Time): Renewal {
      if took >= limit then Unreachable else renewal
    }
  }

  /** Does the loop go on after this turn's renewal, as far as its answer tells? */
  predicate GoesOn(t: Turn, limit: Time) {
    t.took < limit ==> !t.renewal.TokenGone? && (t.renewal.Renewed? ==> !t.renewal.job.cancelRequested)
  }

  /** Was the turn waited out: nothing woke the loop, and the cap had not come when its beat did? */
  predicate WaitedOut(cfg: WorkerConfig, cap: Time, before: Time, t: Turn) {
    && !((t.child.Some? || t.stopping) && t.after <= Max(Min(cfg.extendEvery, cap - before), 0))
    && before + Max(cfg.extendEvery, 0) < cap
  }

  /** How long the loop waits before its next beat; a wait for less than nothing ends at once. */
  function Patience(cfg: WorkerConfig, cap: Time, now: Time): Time {
    Max(Min(cfg.extendEvery, Max(cap - now, 0)), 0)
  }

  /** How long a renewal keeps the loop. */
  function Spent(cfg: WorkerConfig, t: Turn): Time {
    Max(Min(t.took, cfg.extendEvery), 0)
  }

  /** When turn `n` begins, if none before it ended the watch. */
  function TurnStart(cfg: WorkerConfig, start: Time, turns: nat -> Turn, spin: nat, n: nat): Time
    decreases n, 0
  {
    if n == 0 then start
    else AskedAt(cfg, start, turns, spin, n - 1) + Spent(cfg, turns(n - 1)) + if cfg.extendEvery <= 0 then spin else 0
  }

  /** When its renewal is asked for: one interval later. */
  function AskedAt(cfg: WorkerConfig, start: Time, turns: nat -> Turn, spin: nat, n: nat): Time
    decreases n, 1
  {
    TurnStart(cfg, start, turns, spin, n) + Max(cfg.extendEvery, 0)
  }

  /** When a renewal that is heard wrote its deadline. */
  function WrittenAt(cfg: WorkerConfig, start: Time, turns: nat -> Turn, spin: nat, n: nat): Time
    requires turns(n).Answer(cfg.extendEvery).Renewed?
  {
    AskedAt(cfg, start, turns, spin, n) + Min(turns(n).Answer(cfg.extendEvery).landed, turns(n).took)
  }

  /** The lease the loop believes in after its first `n` renewals: that of the last one heard. */
  function CopyAfter(cfg: WorkerConfig, lease: Lease, start: Time, turns: nat -> Turn, spin: nat, n: nat): Lease {
    if n == 0 then lease
    else
      match turns(n - 1).Answer(cfg.extendEvery)
      case Renewed(_, job) =>
        Lease(lease.id, job.(id := lease.job.id), lease.owner,
              WrittenAt(cfg, start, turns, spin, n - 1) + cfg.lease)
      case _ => CopyAfter(cfg, lease, start, turns, spin, n - 1)
  }

  /** What runs against the table while the loop makes `n` renewals: each that is heard, and before it whatever
      `besides` lists, which is others' statements and renewals of this attempt that nobody hears of. */
  function WatchOps(cfg: WorkerConfig, lease: Lease, start: Time, turns: nat -> Turn, spin: nat,
                    besides: nat -> seq<JobOp>, n: nat): seq<JobOp>
  {
    if n == 0 then []
    else
      WatchOps(cfg, lease, start, turns, spin, besides, n - 1) + besides(n - 1)
      + if !turns(n - 1).Answer(cfg.extendEvery).Renewed? then []
        else [JobOp.Extend(lease.job.id, lease.id, cfg.lease, WrittenAt(cfg, start, turns, spin, n - 1))]
  }

  /** What a report finds has run: all of that, and whatever came after the last renewal. */
  function ShiftOps(cfg: WorkerConfig, lease: Lease, start: Time, turns: nat -> Turn, spin: nat,
                    besides: nat -> seq<JobOp>, n: nat): seq<JobOp>
  {
    WatchOps(cfg, lease, start, turns, spin, besides, n) + besides(n)
  }

  lemma BothLand(a: seq<JobOp>, b: seq<JobOp>, sessions: SessionMap)
    requires AllLand(a, sessions) && AllLand(b, sessions)
    ensures AllLand(a + b, sessions)
  {
  }

  lemma {:induction false} WatchOpsLand(cfg: WorkerConfig, lease: Lease, start: Time, turns: nat -> Turn, spin: nat,
                                        besides: nat -> seq<JobOp>, n: nat, sessions: SessionMap)
    requires EachLands(besides, sessions)
    ensures AllLand(WatchOps(cfg, lease, start, turns, spin, besides, n), sessions)
  {
    if n > 0 {
      WatchOpsLand(cfg, lease, start, turns, spin, besides, n - 1, sessions);
      var so, turn := WatchOps(cfg, lease, start, turns, spin, besides, n - 1), turns(n - 1);
      var last := if !turn.Answer(cfg.extendEvery).Renewed? then []
                  else [JobOp.Extend(lease.job.id, lease.id, cfg.lease, WrittenAt(cfg, start, turns, spin, n - 1))];
      assert AllLand(last, sessions);
      BothLand(so, besides(n - 1), sessions);
      BothLand(so + besides(n - 1), last, sessions);
    }
  }

  lemma ShiftOpsLand(cfg: WorkerConfig, lease: Lease, start: Time, turns: nat -> Turn, spin: nat,
                     besides: nat -> seq<JobOp>, n: nat, sessions: SessionMap)
    requires EachLands(besides, sessions)
    ensures AllLand(ShiftOps(cfg, lease, start, turns, spin, besides, n), sessions)
  {
    WatchOpsLand(cfg, lease, start, turns, spin, besides, n, sessions);
    BothLand(WatchOps(cfg, lease, start, turns, spin, besides, n), besides(n), sessions);
  }

  /** None of the first turns ended the watch. */
  ghost predicate AllGoOn(turns: nat -> Turn, limit: Time, beats: nat) {
    forall i :: 0 <= i < beats ==> GoesOn(turns(i), limit)
  }

  ghost predicate AllWaitedOut(cfg: WorkerConfig, start: Time, turns: nat -> Turn, spin: nat, beats: nat) {
    forall i :: 0 <= i < beats ==>
      WaitedOut(cfg, start + cfg.solveTimeout, TurnStart(cfg, start, turns, spin, i), turns(i))
  }

  lemma NoneEnded(cfg: WorkerConfig, start: Time, turns: nat -> Turn, spin: nat)
    ensures AllGoOn(turns, cfg.extendEvery, 0) && AllWaitedOut(cfg, start, turns, spin, 0)
  {
  }

  lemma OneMoreWaited(cfg: WorkerConfig, start: Time, turns: nat -> Turn, spin: nat, beats: nat)
    ensures AllWaitedOut(cfg, start, turns, spin, beats + 1) <==>
            && AllWaitedOut(cfg, start, turns, spin, beats)
            && WaitedOut(cfg, start + cfg.solveTimeout, TurnStart(cfg, start, turns, spin, beats), turns(beats))
  {
    hide WaitedOut;
    hide TurnStart;
  }

  /** What it means that earlier turns did not end the watch, said of the turns themselves. */
  lemma EarlierTurns(cfg: WorkerConfig, start: Time, turns: nat -> Turn, spin: nat, waited: nat, heard: nat)
    requires AllWaitedOut(cfg, start, turns, spin, waited) && AllGoOn(turns, cfg.extendEvery, heard)
    ensures forall i :: 0 <= i < waited ==>
              var before := TurnStart(cfg, start, turns, spin, i);
              && !((turns(i).child.Some? || turns(i).stopping)
                   && turns(i).after <= Max(Min(cfg.extendEvery, start + cfg.solveTimeout - before), 0))
              && before + Max(cfg.extendEvery, 0) < start + cfg.solveTimeout
    ensures forall i :: 0 <= i < heard && turns(i).took < cfg.extendEvery ==>
              !turns(i).renewal.TokenGone? && (turns(i).renewal.Renewed? ==> !turns(i).renewal.job.cancelRequested)
  {
    hide TurnStart;
  }

  lemma OneMoreGoesOn(turns: nat -> Turn, limit: Time, beats: nat)
    ensures AllGoOn(turns, limit, beats + 1) <==> AllGoOn(turns, limit, beats) && GoesOn(turns(beats), limit)
  {
    hide GoesOn;
  }

  /** Waits for the child, a stop, the next beat or the cap, whichever comes first. */
  method Wait(cfg: WorkerConfig, cap: Time, now: Time, turn: Turn) returns (woken: bool, later: Time)
    ensures woken <==> (turn.child.Some? || turn.stopping) && turn.after <= Max(Min(cfg.extendEvery, cap - now), 0)
    ensures later == now + if woken then turn.after else Max(Min(cfg.extendEvery, cap - now), 0)
    ensures now <= later <= Max(cap, now) && later <= now + Max(cfg.extendEvery, 0)
    ensures !woken && later < cap ==> later == now + Max(cfg.extendEvery, 0)
  {
    var timeout := Patience(cfg, cap, now);
    woken := turn.Wakes(timeout);
    later := now + if woken then turn.after else timeout;
  }

  /** A period of zero or less hears nothing, whatever the job store would have said. */
  lemma NoPeriodHearsNothing(limit: Time)
    ensures limit <= 0 <==> forall t: Turn :: t.Answer(limit) == Unreachable
  {
    assert Turn(0, None, false, 0, TokenGone).Answer(limit) == if limit <= 0 then Unreachable else TokenGone;
  }

  /** What one renewal, asked for at `asked`, makes of the lease, and whether it ends the watch. */
  method Judge(cfg: WorkerConfig, lease: Lease, turn: Turn, asked: Time, now: Time)
    returns (copy: Lease, ended: Option<Ending>)
    ensures copy.id == lease.id && copy.owner == lease.owner && copy.job.id == lease.job.id
    ensures cfg.extendEvery <= 0 ==> turn.Answer(cfg.extendEvery) == Unreachable
    ensures turn.Answer(cfg.extendEvery) != Unreachable ==> turn.took < cfg.extendEvery
    ensures var answer := turn.Answer(cfg.extendEvery);
            match answer
            case TokenGone => copy == lease && ended == Some(LeaseTaken)
            case Unreachable =>
              copy == lease && ended == if lease.Expired(now) then Some(Undefendable) else None
            case Renewed(landed, job) =>
              && copy.job == job.(id := lease.job.id) && copy.expiresAt == asked + Min(landed, turn.took) + cfg.lease
              && ended == if job.cancelRequested then Some(CancelSeen) else None
    ensures ended == Some(LeaseTaken) <==> turn.took < cfg.extendEvery && turn.renewal.TokenGone?
    ensures ended == Some(CancelSeen) <==>
              turn.took < cfg.extendEvery && turn.renewal.Renewed? && turn.renewal.job.cancelRequested
    ensures ended == Some(Undefendable) <==>
              (turn.took >= cfg.extendEvery || turn.renewal.Unreachable?) && lease.expiresAt <= now
    ensures ended.Some? ==> ended.value.OfRenewal()
    ensures if turn.took < cfg.extendEvery && turn.renewal.Renewed? then
              && copy.job == turn.renewal.job.(id := lease.job.id)
              && copy.expiresAt == asked + Min(turn.renewal.landed, turn.took) + cfg.lease
            else copy == lease
  {
    NoPeriodHearsNothing(cfg.extendEvery);
    copy, ended := lease, None;
    match turn.Answer(cfg.extendEvery)
    case TokenGone => ended := Some(LeaseTaken);
    case Unreachable =>
      if lease.Expired(now) { ended := Some(Undefendable); }
    case Renewed(landed, job) =>
      // The row was found by this job's id.
      copy := Lease(lease.id, job.(id := lease.job.id), lease.owner, asked + Min(landed, turn.took) + cfg.lease);
      if job.cancelRequested { ended := Some(CancelSeen); }
  }

  /** Where the clock may stand when a turn begins. */
  predicate OnTime(cfg: WorkerConfig, lease: Lease, start: Time, spin: nat, copy: Lease, now: Time, beats: nat) {
    && start <= now
    && (beats == 0 ==> now == start)
    && (cfg.Beats() ==>
          && start + beats * cfg.extendEvery <= now <= start + cfg.solveTimeout + cfg.extendEvery
          && beats * cfg.extendEvery < cfg.solveTimeout
          && (start < lease.expiresAt ==> now < copy.expiresAt))
    && (!cfg.Beats() ==>
          && copy == lease && now < start + cfg.solveTimeout + spin
          && (beats > 0 ==> now < lease.expiresAt + spin))
  }

  /** What the contract promises of the moment of decision. */
  predicate Prompt(cfg: WorkerConfig, lease: Lease, start: Time, spin: nat, copy: Lease, decided: Time, beats: nat) {
    && (cfg.Beats() ==>
          && beats * cfg.extendEvery < cfg.solveTimeout
          && start <= decided <= start + cfg.solveTimeout + cfg.extendEvery
          && (start < lease.expiresAt ==> decided < copy.expiresAt + 2 * cfg.extendEvery))
    && (!cfg.Beats() ==>
          && copy == lease && start <= decided < start + cfg.solveTimeout + spin
          && decided < Max(start, lease.expiresAt) + spin)
  }

  lemma DecisionInTime(cfg: WorkerConfig, lease: Lease, start: Time, spin: nat, copy: Lease, before: Time, now: Time,
                       beats: nat)
    requires cfg.Accepted() && spin > 0 && OnTime(cfg, lease, start, spin, copy, before, beats)
    requires before <= now <= Max(start + cfg.solveTimeout, before) && now <= before + Max(cfg.extendEvery, 0)
    ensures Prompt(cfg, lease, start, spin, copy, now, beats)
  {
  }

  /** A turn that waited out its beat and was not past the cap leaves the clock where the next may begin. */
  lemma TurnInTime(cfg: WorkerConfig, lease: Lease, start: Time, spin: nat, held: Lease, before: Time, asked: Time,
                   turn: Turn, copy: Lease, now: Time, beats: nat)
    requires cfg.Accepted() && spin > 0 && OnTime(cfg, lease, start, spin, held, before, beats)
    requires asked == before + Max(cfg.extendEvery, 0) && asked < start + cfg.solveTimeout
    requires now == asked + Max(Min(turn.took, cfg.extendEvery), 0)
    requires match turn.Answer(cfg.extendEvery)
             case Renewed(landed, _) => copy.expiresAt == asked + Min(landed, turn.took) + cfg.lease
             case _ => copy == held
    ensures Prompt(cfg, lease, start, spin, copy, now, beats + 1)
    ensures !turn.Answer(cfg.extendEvery).TokenGone?
            && (turn.Answer(cfg.extendEvery).Unreachable? ==> !held.Expired(now)) ==>
              OnTime(cfg, lease, start, spin, copy, now + if cfg.extendEvery <= 0 then spin else 0, beats + 1)
  {
    assert (beats + 1) * cfg.extendEvery == beats * cfg.extendEvery + cfg.extendEvery;
    var answer := turn.Answer(cfg.extendEvery);
    if cfg.Beats() {
      assert asked == before + cfg.extendEvery && now <= asked + cfg.extendEvery;
    } else {
      assert answer.Unreachable? && copy == held && now == asked == before;
    }
    hide Turn.Answer;
  }

  lemma NoTurnYet(cfg: WorkerConfig, lease: Lease, start: Time, turns: nat -> Turn, spin: nat)
    ensures TurnStart(cfg, start, turns, spin, 0) == start && CopyAfter(cfg, lease, start, turns, spin, 0) == lease
  {
  }

  lemma OneMoreTurn(cfg: WorkerConfig, lease: Lease, start: Time, turns: nat -> Turn, spin: nat, n: nat)
    ensures AskedAt(cfg, start, turns, spin, n) == TurnStart(cfg, start, turns, spin, n) + Max(cfg.extendEvery, 0)
    ensures Spent(cfg, turns(n)) == Max(Min(turns(n).took, cfg.extendEvery), 0)
    ensures TurnStart(cfg, start, turns, spin, n + 1) ==
            AskedAt(cfg, start, turns, spin, n) + Spent(cfg, turns(n)) + if cfg.extendEvery <= 0 then spin else 0
    ensures CopyAfter(cfg, lease, start, turns, spin, n + 1) ==
            match turns(n).Answer(cfg.extendEvery)
            case Renewed(landed, job) =>
              Lease(lease.id, job.(id := lease.job.id), lease.owner,
                    AskedAt(cfg, start, turns, spin, n) + Min(landed, turns(n).took) + cfg.lease)
            case _ => CopyAfter(cfg, lease, start, turns, spin, n)
  {
    hide Turn.Answer;
  }

  lemma FirstTurnOnTime(cfg: WorkerConfig, lease: Lease, start: Time, spin: nat)
    requires cfg.Accepted() && spin > 0
    ensures OnTime(cfg, lease, start, spin, lease, start, 0)
  {
  }

  /** Did the wait of a turn decide so: for a report, or a stop, that came before the next beat and the cap, or else
      for the cap? */
  predicate WaitDecided(cfg: WorkerConfig, cap: Time, before: Time, t: Turn, killed: Outcome, h: Handled,
                        decided: Time)
  {
    if (t.child.Some? || t.stopping) && t.after <= Max(Min(cfg.extendEvery, cap - before), 0)
    then
      && decided == before + t.after
      && h.ending == (if t.child.Some? then Completed else Released)
      && h.outcome == (if t.child.Some? then t.child.value else killed)
    else
      && h.ending == TimedOut && h.outcome == killed && decided == Max(cap, before)
      && decided <= before + Max(cfg.extendEvery, 0)
  }

  /** Did its renewal decide so? */
  predicate AnswerDecided(cfg: WorkerConfig, t: Turn, killed: Outcome, h: Handled, decided: Time) {
    && h.ending.OfRenewal() && h.outcome == killed
    && (h.ending == LeaseTaken <==> t.took < cfg.extendEvery && t.renewal.TokenGone?)
    && (h.ending == CancelSeen <==> t.took < cfg.extendEvery && t.renewal.Renewed? && t.renewal.job.cancelRequested)
    && (h.ending == CancelSeen ==> h.lease.job == t.renewal.job.(id := h.lease.job.id))
    && (h.ending == Undefendable ==>
          (t.took >= cfg.extendEvery || t.renewal.Unreachable?) && h.lease.expiresAt <= decided)
  }

  /** The whole watch: the earlier turns did not end it, and the deciding one did, when it says. */
  ghost predicate Watched(cfg: WorkerConfig, lease: Lease, start: Time, turns: nat -> Turn, spin: nat, killed: Outcome,
                          h: Handled, decided: Time, beats: nat)
  {
    && Prompt(cfg, lease, start, spin, h.lease, decided, beats)
    && AllWaitedOut(cfg, start, turns, spin, beats)
    && (!h.ending.OfRenewal() ==>
          && AllGoOn(turns, cfg.extendEvery, beats)
          && WaitDecided(cfg, start + cfg.solveTimeout, TurnStart(cfg, start, turns, spin, beats), turns(beats),
                         killed, h, decided)
          && TurnStart(cfg, start, turns, spin, beats) <= decided)
    && (h.ending.OfRenewal() ==>
          && beats > 0 && AllGoOn(turns, cfg.extendEvery, beats - 1)
          && AnswerDecided(cfg, turns(beats - 1), killed, h, decided)
          && decided == AskedAt(cfg, start, turns, spin, beats - 1) + Spent(cfg, turns(beats - 1)))
  }

  /** What a wait comes to. */
  lemma WaitSays(cfg: WorkerConfig, cap: Time, before: Time, t: Turn, woken: bool, now: Time, copy: Lease,
                 killed: Outcome)
    requires woken <==> (t.child.Some? || t.stopping) && t.after <= Max(Min(cfg.extendEvery, cap - before), 0)
    requires now == before + if woken then t.after else Max(Min(cfg.extendEvery, cap - before), 0)
    ensures woken && t.child.Some? ==>
              WaitDecided(cfg, cap, before, t, killed, Handled(copy, t.child.value, Completed), now)
    ensures woken && t.child.None? ==> WaitDecided(cfg, cap, before, t, killed, Handled(copy, killed, Released), now)
    ensures !woken && now >= cap ==> WaitDecided(cfg, cap, before, t, killed, Handled(copy, killed, TimedOut), now)
    ensures !woken && now < cap ==> WaitedOut(cfg, cap, before, t)
  {
  }

  /** What a renewal comes to. */
  lemma AnswerSays(cfg: WorkerConfig, t: Turn, copy: Lease, ended: Option<Ending>, now: Time, killed: Outcome)
    requires ended == Some(LeaseTaken) <==> t.took < cfg.extendEvery && t.renewal.TokenGone?
    requires ended == Some(CancelSeen) <==>
               t.took < cfg.extendEvery && t.renewal.Renewed? && t.renewal.job.cancelRequested
    requires ended == Some(Undefendable) ==>
               (t.took >= cfg.extendEvery || t.renewal.Unreachable?) && copy.expiresAt <= now
    requires ended.Some? ==> ended.value.OfRenewal()
    requires t.took < cfg.extendEvery && t.renewal.Renewed? ==> copy.job == t.renewal.job.(id := copy.job.id)
    ensures ended.Some? ==> AnswerDecided(cfg, t, killed, Handled(copy, killed, ended.value), now)
    ensures ended.None? ==> GoesOn(t, cfg.extendEvery)
  {
  }

  /** The loop itself. */
  method Watch(cfg: WorkerConfig, lease: Lease, start: Time, turns: nat -> Turn, killed: Outcome, spin: nat)
    returns (handled: Handled, decided: Time, beats: nat)
    requires cfg.Accepted() && spin > 0
    ensures handled.lease.id == lease.id && handled.lease.owner == lease.owner && handled.lease.job.id == lease.job.id
    ensures handled.lease == CopyAfter(cfg, lease, start, turns, spin, beats)
    ensures Watched(cfg, lease, start, turns, spin, killed, handled, decided, beats)
  {
    hide TurnStart;
    hide AskedAt;
    hide CopyAfter;
    hide Spent;
    hide AllGoOn;
    hide AllWaitedOut;
    hide OnTime;
    hide Prompt;
    hide Turn.Answer;
    hide WaitedOut;
    hide WaitDecided;
    hide AnswerDecided;
    hide GoesOn;
    var cap := start + cfg.solveTimeout;
    var copy, now := lease, start;
    beats := 0;
    NoneEnded(cfg, start, turns, spin);
    NoTurnYet(cfg, lease, start, turns, spin);
    FirstTurnOnTime(cfg, lease, start, spin);
    while true
      invariant OnTime(cfg, lease, start, spin, copy, now, beats)
      invariant copy.id == lease.id && copy.owner == lease.owner && copy.job.id == lease.job.id
      invariant now == TurnStart(cfg, start, turns, spin, beats)
      invariant copy == CopyAfter(cfg, lease, start, turns, spin, beats)
      invariant AllGoOn(turns, cfg.extendEvery, beats) && AllWaitedOut(cfg, start, turns, spin, beats)
      decreases cap - now
    {
      OneMoreTurn(cfg, lease, start, turns, spin, beats);
      var turn := turns(beats);
      var woken;
      ghost var before := now;
      woken, now := Wait(cfg, cap, now, turn);
      WaitSays(cfg, cap, before, turn, woken, now, copy, killed);
      DecisionInTime(cfg, lease, start, spin, copy, before, now, beats);

      if woken && turn.child.Some? {
        return Handled(copy, turn.child.value, Completed), now, beats;
      }
      if woken && turn.stopping {
        return Handled(copy, killed, Released), now, beats;
      }
      if now >= cap {
        return Handled(copy, killed, TimedOut), now, beats;
      }

      var asked := now;
      now := now + Max(Min(turn.took, cfg.extendEvery), 0);
      var ended: Option<Ending>;
      ghost var held := copy;
      copy, ended := Judge(cfg, copy, turn, asked, now);
      AnswerSays(cfg, turn, copy, ended, now, killed);
      OneMoreGoesOn(turns, cfg.extendEvery, beats);
      OneMoreWaited(cfg, start, turns, spin, beats);
      TurnInTime(cfg, lease, start, spin, held, before, asked, turn, copy, now, beats);
      beats := beats + 1;
      if ended.Some? {
        return Handled(copy, killed, ended.value), now, beats;
      }
      if cfg.extendEvery <= 0 { now := now + spin; }
    }
  }

  /** Watches the child and renews the lease until one thing decides. `beats` counts the renewals made.
      The ending says which turn decided and why, and the decision is never late. `killed` is what stopping
      the child would report. With a period of zero or less, which construction lets through, every renewal
      is cut off before it starts: none is ever heard, and an unfinished job is given up when its first lease
      or its cap runs out. `spin` is then what one turn of the loop takes. */
  method Supervise(cfg: WorkerConfig, lease: Lease, start: Time, turns: nat -> Turn, killed: Outcome, spin: nat)
    returns (handled: Handled, decided: Time, beats: nat)
    requires cfg.Accepted() && spin > 0
    ensures Prompt(cfg, lease, start, spin, handled.lease, decided, beats)
    ensures Watched(cfg, lease, start, turns, spin, killed, handled, decided, beats)
    ensures !cfg.Beats() ==> handled.ending in {Completed, Released, TimedOut, Undefendable}
    ensures handled.lease.id == lease.id && handled.lease.owner == lease.owner && handled.lease.job.id == lease.job.id
    ensures handled.lease == CopyAfter(cfg, lease, start, turns, spin, beats)
    ensures !handled.ending.OfRenewal() ==>
              TurnStart(cfg, start, turns, spin, beats) <= decided <= AskedAt(cfg, start, turns, spin, beats)
    ensures handled.ending.OfRenewal() ==>
              beats > 0 && decided == AskedAt(cfg, start, turns, spin, beats - 1) + Spent(cfg, turns(beats - 1))
    // No turn before the deciding one held a report, a stop, the cap, or an answer that ends the watch.
    ensures forall i :: 0 <= i < beats ==>
              var before := TurnStart(cfg, start, turns, spin, i);
              && !((turns(i).child.Some? || turns(i).stopping)
                   && turns(i).after <= Max(Min(cfg.extendEvery, start + cfg.solveTimeout - before), 0))
              && before + Max(cfg.extendEvery, 0) < start + cfg.solveTimeout
    ensures forall i :: 0 <= i < (if handled.ending.OfRenewal() then beats - 1 else beats)
                        && turns(i).took < cfg.extendEvery ==>
              !turns(i).renewal.TokenGone? && (turns(i).renewal.Renewed? ==> !turns(i).renewal.job.cancelRequested)
    // A report or a stop that comes before the next beat and the cap decides, at that instant, the report first;
    // and if neither does, the cap decides.
    ensures !handled.ending.OfRenewal() ==>
              var before, turn := TurnStart(cfg, start, turns, spin, beats), turns(beats);
              if (turn.child.Some? || turn.stopping)
                 && turn.after <= Max(Min(cfg.extendEvery, start + cfg.solveTimeout - before), 0)
              then
                && decided == before + turn.after
                && handled.ending == (if turn.child.Some? then Completed else Released)
                && handled.outcome == (if turn.child.Some? then turn.child.value else killed)
              else
                && handled.ending == TimedOut && decided == Max(start + cfg.solveTimeout, before)
                && decided <= before + Max(cfg.extendEvery, 0)
    ensures handled.ending != Completed ==> handled.outcome == killed
    // Otherwise the last renewal decides: refused, or heard to say that the job is cancelled, or not heard past the
    // deadline of the lease.
    ensures handled.ending.OfRenewal() ==>
              var turn := turns(beats - 1);
              && (handled.ending == LeaseTaken <==> turn.took < cfg.extendEvery && turn.renewal.TokenGone?)
              && (handled.ending == CancelSeen <==>
                    turn.took < cfg.extendEvery && turn.renewal.Renewed? && turn.renewal.job.cancelRequested)
              && (handled.ending == Undefendable ==>
                    (turn.took >= cfg.extendEvery || turn.renewal.Unreachable?) && handled.lease.expiresAt <= decided)
    ensures handled.ending == CancelSeen ==>
              var answer := turns(beats - 1).Answer(cfg.extendEvery);
              answer.Renewed? && answer.job.cancelRequested && handled.lease.job == answer.job.(id := lease.job.id)
  {
    hide Prompt;
    hide TurnStart;
    hide AskedAt;
    hide CopyAfter;
    hide Spent;
    hide AllGoOn;
    hide AllWaitedOut;
    handled, decided, beats := Watch(cfg, lease, start, turns, killed, spin);
    var heard := if handled.ending.OfRenewal() then beats - 1 else beats;
    EarlierTurns(cfg, start, turns, spin, beats, heard);
    OneMoreTurn(cfg, lease, start, turns, spin, beats);
  }

  // ----- reporting

  /** The object store: a map with an atomic put. */
  class ObjectStore {
    var objects: map<string, Bytes>

    constructor ()
      ensures objects == map[]
    {
      objects := map[];
    }

    /** Puts the bytes under the key, unless the call never arrives; it raises unless it answers. */
    method Put(key: string, data: Bytes, fault: Fault) returns (ok: bool)
      modifies this
      ensures objects == if fault == NeverArrives then old(objects) else old(objects)[key := data]
      ensures ok == (fault == Answers)
    {
      if fault != NeverArrives {
        objects := objects[key := data];
      }
      ok := fault == Answers;
    }
  }

  /** How each call of one report goes, and the text of the exception if the upload raises. */
  datatype Weather = Weather(put: Fault, putError: string, write: Fault, publish: Fault, mark: Fault)

  /** Everything around one turn of the worker that it does not decide: the deliveries that arrive while it waits,
      what others do to the table before each try and while the child runs, the times of all of it, what the child
      and the renewals do, and how the calls of the report go. */
  datatype Shift = Shift(
    arriving: seq<Uuid>,
    tries: nat -> seq<JobOp>,
    clock: nat -> Time,
    start: Time,
    turns: nat -> Turn,
    besides: nat -> seq<JobOp>,
    killed: Outcome,
    killing: nat,
    spin: nat,
    weather: Weather)

  /** The one thing the queue is told. */
  datatype Verdict =
    | Success(resultRef: string)
    | Return(error: string, retryIn: Option<Time>)
    | Silence

  /** What an ending, an outcome, and the fate of the upload amount to. */
  function VerdictOf(cfg: WorkerConfig, h: Handled, put: Fault, putError: string): Verdict {
    match h.ending
    case LeaseTaken => Silence
    case Undefendable => Return("worker lost contact with the job store", None)
    case CancelSeen => Return("cancelled while running", None)
    case Released => Return("released by a worker that is shutting down", None)
    case TimedOut => Return("solve exceeded its " + cfg.solveTimeoutText + " wall-clock cap", Some(cfg.retryIn))
    case Completed =>
      match h.outcome
      case Solved(_, _) =>
        if put == Answers then Success(ArtifactKey(h.lease.job.id, h.lease.id))
        else Return("writing the artifact failed: " + putError, Some(cfg.retryIn))
      case ChildFailed(error, _) => Return(error, Some(cfg.retryIn))
      case ChildDied(error) => Return(error, Some(cfg.retryIn))
  }

  predicate Uploads(h: Handled) {
    h.ending == Completed && h.outcome.Solved?
  }

  /** The statement a verdict sends to the row, if it sends one. */
  function StatementOf(v: Verdict, lease: Lease, now: Time): Option<JobOp> {
    match v
    case Success(ref) => Some(JobOp.Ack(lease.job.id, lease.id, Some(ref)))
    case Return(error, retryIn) => Some(JobOp.Nack(lease.job.id, lease.id, error, retryIn, now))
    case Silence => None
  }

  /** What becomes of the rows: the verdict's statement on the row its token names, and nothing at all if
      there is none or it never arrives. A job given back and republished is marked as well. */
  function Heard(v: Verdict, lease: Lease, now: Time, w: Weather, jobs: JobMap): JobMap {
    match StatementOf(v, lease, now)
    case None => jobs
    case Some(op) =>
      if w.write == NeverArrives then jobs
      else
        var id, heard := lease.job.id, JobTable.After(jobs, op);
        if v.Return? && w.write == Answers && w.publish == Answers && w.mark != NeverArrives
           && id in heard && Records(id, jobs[id], op) && heard[id].job.state == JobState.Failed
        then heard[id := heard[id].(publishedAt := Some(now))]
        else heard
  }

  /** The error text a report leaves in the row, unless it reports a success. */
  function ErrorOf(cfg: WorkerConfig, h: Handled, putError: string): string {
    match h.ending
    case LeaseTaken => ""
    case Undefendable => "worker lost contact with the job store"
    case CancelSeen => "cancelled while running"
    case Released => "released by a worker that is shutting down"
    case TimedOut => "solve exceeded its " + cfg.solveTimeoutText + " wall-clock cap"
    case Completed =>
      match h.outcome
      case Solved(_, _) => "writing the artifact failed: " + putError
      case ChildFailed(error, _) => error
      case ChildDied(error) => error
  }

  /** The row of a job whose artifact is stored: done, and it names the artifact. */
  predicate Succeeded(ref: string, r: Row, r': Row) {
    && r'.leaseId.None? && r'.leaseExpiresAt.None? && r'.leaseOwner.None? && r'.runAfter == r.runAfter
    && r'.job == r.job.(state := JobState.Done, resultRef := Some(ref))
  }

  /** The row of a job given back: with the error, and not due before `at`. */
  predicate GaveBack(error: string, at: Time, r: Row, r': Row) {
    && r'.leaseId.None? && r'.leaseExpiresAt.None? && r'.leaseOwner.None? && r'.runAfter == at
    && r'.job == r.job.(error := Some(error),
                        state := if r.job.cancelRequested then JobState.Cancelled
                                 else if r.job.attempts >= r.job.maxAttempts then JobState.Dead
                                 else JobState.Failed)
  }

  predicate Carries(jobs: JobMap, lease: Lease) {
    lease.job.id in jobs && jobs[lease.job.id].leaseId == Some(lease.id)
  }

  ghost predicate OnlyMoves(was: JobMap, id: Uuid, jobs: JobMap) {
    jobs.Keys == was.Keys && forall other :: other in was && other != id ==> jobs[other] == was[other]
  }

  /** What a report makes of the table. Only the row that carries the lease's token is touched, and only if the call
      arrives. Solved and stored, it is done and names this attempt's artifact; otherwise the job is given back with
      an error, at once if it was stopped from outside and behind the backoff if it failed. */
  ghost predicate ReportLeaves(cfg: WorkerConfig, h: Handled, now: Time, w: Weather, was: JobMap, jobs: JobMap) {
    var id := h.lease.job.id;
    if h.ending == LeaseTaken || w.write == NeverArrives || !Carries(was, h.lease) then jobs == was
    else
      && OnlyMoves(was, id, jobs)
      && if h.ending == Completed && h.outcome.Solved? && w.put == Answers
         then Succeeded(ArtifactKey(id, h.lease.id), was[id], jobs[id])
         else GaveBack(ErrorOf(cfg, h, w.putError),
                       now + if h.ending in {CancelSeen, Released, Undefendable} then 0 else cfg.retryIn,
                       was[id], jobs[id])
  }

  /** Does the consumer learn that a call of the report failed? */
  predicate Raises(gives: bool, lease: Lease, w: Weather, was: JobMap) {
    || w.write != Answers
    || (gives && Carries(was, lease) && !was[lease.job.id].job.cancelRequested
        && was[lease.job.id].job.attempts < was[lease.job.id].job.maxAttempts
        && (w.publish != Answers || w.mark != Answers))
  }

  lemma SuccessIsHeard(ref: string, lease: Lease, now: Time, w: Weather, was: JobMap)
    ensures var jobs, id := Heard(Success(ref), lease, now, w, was), lease.job.id;
            if !Carries(was, lease) || w.write == NeverArrives then jobs == was
            else OnlyMoves(was, id, jobs) && Succeeded(ref, was[id], jobs[id])
  {
    OneRowChanges(was, JobOp.Ack(lease.job.id, lease.id, Some(ref)), lease.job.id);
    hide JobTable.After;
  }

  /** What a return comes to, as the queue object says it. */
  lemma ReturnIsHeard(lease: Lease, error: string, retryIn: Option<Time>, now: Time, w: Weather, jobs: JobMap)
    ensures var id, op := lease.job.id, JobOp.Nack(lease.job.id, lease.id, error, retryIn, now);
            var left := JobTable.After(jobs, op);
            Heard(Return(error, retryIn), lease, now, w, jobs) ==
            if w.write == NeverArrives then jobs
            else if GoesRound(jobs, id, lease.id, w.write) then AfterOffer(left, id, now, w.publish, w.mark)
            else left
  {
    var op := JobOp.Nack(lease.job.id, lease.id, error, retryIn, now);
    if lease.job.id in jobs && Holds(jobs[lease.job.id], lease.id) { NackWrites(jobs, lease.job.id, op); }
    hide JobTable.After;
  }

  lemma GivenBackRow(r: Row, id: Uuid, token: Uuid, error: string, retryIn: Option<Time>, now: Time)
    requires r.leaseId == Some(token)
    ensures GaveBack(error, now + (if retryIn.Some? then retryIn.value else 0), r,
                     RowAfter(id, r, JobOp.Nack(id, token, error, retryIn, now)))
  {
  }

  lemma ReturnReaches(error: string, retryIn: Option<Time>, lease: Lease, now: Time, w: Weather, was: JobMap)
    ensures var jobs, id := Heard(Return(error, retryIn), lease, now, w, was), lease.job.id;
            if !Carries(was, lease) || w.write == NeverArrives then jobs == was
            else
              && OnlyMoves(was, id, jobs)
              && GaveBack(error, now + (if retryIn.Some? then retryIn.value else 0), was[id], jobs[id])
  {
    var id, op := lease.job.id, JobOp.Nack(lease.job.id, lease.id, error, retryIn, now);
    ReturnIsHeard(lease, error, retryIn, now, w, was);
    OneRowChanges(was, op, id);
    if Carries(was, lease) {
      GivenBackRow(was[id], id, lease.id, error, retryIn, now);
    } else {
      assert id in was ==> RowAfter(id, was[id], op) == was[id];
    }
    hide RowAfter;
    hide JobTable.After;
    hide Heard;
  }

  lemma VerdictLeaves(cfg: WorkerConfig, h: Handled, now: Time, w: Weather, was: JobMap)
    ensures ReportLeaves(cfg, h, now, w, was, Heard(VerdictOf(cfg, h, w.put, w.putError), h.lease, now, w, was))
  {
    hide Heard;
    hide ArtifactKey;
    hide Succeeded;
    hide GaveBack;
    hide Carries;
    hide OnlyMoves;
    match VerdictOf(cfg, h, w.put, w.putError)
    case Silence => SilenceIsSilent(h.lease, now, w, was);
    case Success(ref) =>
      SuccessIsHeard(ref, h.lease, now, w, was);
    case Return(error, retryIn) =>
      ReturnReaches(error, retryIn, h.lease, now, w, was);
  }

  lemma SilenceIsSilent(lease: Lease, now: Time, w: Weather, jobs: JobMap)
    ensures Heard(Silence, lease, now, w, jobs) == jobs
  {
  }

  class Supervisor {
    const queue: RabbitMQJobQueue
    const objects: ObjectStore
    const config: WorkerConfig

    constructor (queue: RabbitMQJobQueue, objects: ObjectStore, config: WorkerConfig)
      ensures this.queue == queue && this.objects == objects && this.config == config
    {
      this.queue, this.objects, this.config := queue, objects, config;
    }

    /** Gives the job back. A lease somebody else has taken since is not this worker's to fail. */
    method Nack(lease: Lease, error: string, retryIn: Option<Time>, now: Time, w: Weather) returns (raised: bool)
      requires queue.Valid()
      modifies queue`held, queue.channel, queue.store.db
      ensures queue.Valid() && !queue.Holding(lease)
      ensures queue.Places() == Deliveries.After(old(queue.Places()), LetGo(lease.job.id, Some(lease.id)))
      ensures queue.store.db.jobs == Heard(Return(error, retryIn), lease, now, w, old(queue.store.db.jobs))
      ensures raised <==> Raises(true, lease, w, old(queue.store.db.jobs))
    {
      hide Conserved;
      hide Sound;
      hide Ran;
      hide Deliveries.After;
      hide JobTable.After;
      hide AfterOffer;
      hide WireOf;
      hide GoesRound;
      hide Heard;
      ReturnIsHeard(lease, error, retryIn, now, w, queue.store.db.jobs);
      var r := queue.Nack(lease, error, retryIn, now, w.write, w.publish, w.mark);
      raised := r == Unavailable;
    }

    /** Writes the artifact, then points the row at it; a failed upload is a failed attempt. */
    method Install(lease: Lease, solved: Outcome, now: Time, w: Weather) returns (raised: bool)
      requires queue.Valid() && solved.Solved?
      modifies queue`held, queue.channel, queue.store.db, objects
      ensures queue.Valid() && !queue.Holding(lease)
      ensures queue.Places() == Deliveries.After(old(queue.Places()), LetGo(lease.job.id, Some(lease.id)))
      ensures var key := ArtifactKey(lease.job.id, lease.id);
              && objects.objects == (if w.put == NeverArrives then old(objects.objects)
                                     else old(objects.objects)[key := solved.data])
              && queue.store.db.jobs == Heard(if w.put == Answers then Success(key)
                                              else Return("writing the artifact failed: " + w.putError,
                                                          Some(config.retryIn)),
                                              lease, now, w, old(queue.store.db.jobs))
      ensures raised <==> Raises(w.put != Answers, lease, w, old(queue.store.db.jobs))
    {
      hide Conserved;
      hide Sound;
      hide ArtifactKey;
      var key := ArtifactKey(lease.job.id, lease.id);
      var stored := objects.Put(key, solved.data, w.put);
      if !stored {
        raised := Nack(lease, "writing the artifact failed: " + w.putError, Some(config.retryIn), now, w);
        return;
      }
      var r := queue.Ack(lease, Some(key), w.write);
      raised := r == Unavailable;
    }

    /** Tells the queue the one verdict, or nothing, and lets go of the delivery. */
    method Report(h: Handled, now: Time, w: Weather) returns (raised: bool)
      requires queue.Valid()
      modifies queue`held, queue.channel, queue.store.db, objects
      ensures queue.Valid() && !queue.Holding(h.lease)
      ensures queue.Places() == Deliveries.After(old(queue.Places()), LetGo(h.lease.job.id, Some(h.lease.id)))
      ensures queue.store.db.jobs == Heard(VerdictOf(config, h, w.put, w.putError), h.lease, now, w,
                                           old(queue.store.db.jobs))
      ensures objects.objects ==
                if Uploads(h) && w.put != NeverArrives
                then old(objects.objects)[ArtifactKey(h.lease.job.id, h.lease.id) := h.outcome.data]
                  else old(objects.objects)
      ensures raised <==>
                && !h.ending.LeaseTaken? && !h.ending.Undefendable?
                && Raises(!(Uploads(h) && w.put == Answers), h.lease, w, old(queue.store.db.jobs))
    {
      hide Conserved;
      hide Sound;
      hide ArtifactKey;
      hide Heard;
      hide Deliveries.After;
      raised := false;
      match h.ending
      case LeaseTaken =>
        SilenceIsSilent(h.lease, now, w, queue.store.db.jobs);
        queue.Discard(h.lease);
      case Undefendable =>
        // The row may not answer; the lapsed lease is the fallback.
        var _ := Nack(h.lease, "worker lost contact with the job store", None, now, w);
      case CancelSeen =>
        raised := Nack(h.lease, "cancelled while running", None, now, w);
      case Released =>
        raised := Nack(h.lease, "released by a worker that is shutting down", None, now, w);
      case TimedOut =>
        raised := Nack(h.lease, "solve exceeded its " + config.solveTimeoutText + " wall-clock cap",
                       Some(config.retryIn), now, w);
      case Completed =>
        match h.outcome
        case Solved(_, _) => raised := Install(h.lease, h.outcome, now, w);
        case ChildFailed(error, _) => raised := Nack(h.lease, error, Some(config.retryIn), now, w);
        case ChildDied(error) => raised := Nack(h.lease, error, Some(config.retryIn), now, w);
    }

    /** Turns an ending into a row state, or into silence. Whatever the ending, the outcome, and the calls
        that fail: the consumer holds nothing for this lease afterwards, the row has heard the one
        verdict or nothing, and only the bytes of a child that solved its job unasked go anywhere, under this
        attempt's key: what a stopped child reports is not looked at. */
    method Finish(h: Handled, now: Time, w: Weather) returns (raised: bool)
      requires queue.Valid()
      modifies queue`held, queue.channel, queue.store.db, objects
      ensures queue.Valid() && !queue.Holding(h.lease)
      ensures queue.Places() == Deliveries.After(old(queue.Places()), LetGo(h.lease.job.id, Some(h.lease.id)))
      ensures queue.store.db.jobs == Heard(VerdictOf(config, h, w.put, w.putError), h.lease, now, w,
                                           old(queue.store.db.jobs))
      ensures objects.objects ==
                if h.ending == Completed && h.outcome.Solved? && w.put != NeverArrives
                then old(objects.objects)[ArtifactKey(h.lease.job.id, h.lease.id) := h.outcome.data]
                  else old(objects.objects)
      ensures raised <==>
                && h.ending != LeaseTaken && h.ending != Undefendable
                && var id, was := h.lease.job.id, old(queue.store.db.jobs);
                   || w.write != Answers
                   || (!(h.ending == Completed && h.outcome.Solved? && w.put == Answers)
                       && id in was && was[id].leaseId == Some(h.lease.id)
                       && !was[id].job.cancelRequested && was[id].job.attempts < was[id].job.maxAttempts
                       && (w.publish != Answers || w.mark != Answers))
      ensures ReportLeaves(config, h, now, w, old(queue.store.db.jobs), queue.store.db.jobs)
      ensures var id, was, jobs := h.lease.job.id, old(queue.store.db.jobs), queue.store.db.jobs;
              var heard := id in was && was[id].leaseId == Some(h.lease.id)
                           && h.ending != LeaseTaken && w.write != NeverArrives;
              && (!heard ==> jobs == was)
              && jobs.Keys == was.Keys && (forall other :: other in was && other != id ==> jobs[other] == was[other])
              && (heard ==>
                    var r, r' := was[id], jobs[id];
                    var given := if r.job.cancelRequested then JobState.Cancelled
                                 else if r.job.attempts >= r.job.maxAttempts then JobState.Dead
                                 else JobState.Failed;
                    && r'.leaseId.None? && r'.leaseExpiresAt.None? && r'.leaseOwner.None?
                    && match h.ending
                       case Undefendable =>
                         && r'.job == r.job.(state := given, error := Some("worker lost contact with the job store"))
                         && r'.runAfter == now
                       case CancelSeen =>
                         && r'.job == r.job.(state := given, error := Some("cancelled while running"))
                         && r'.runAfter == now
                       case Released =>
                         && r'.job == r.job.(state := given,
                                             error := Some("released by a worker that is shutting down"))
                         && r'.runAfter == now
                       case TimedOut =>
                         && r'.job == r.job.(state := given, error := Some(
                              "solve exceeded its " + config.solveTimeoutText + " wall-clock cap"))
                         && r'.runAfter == now + config.retryIn
                       case Completed =>
                         match h.outcome
                         case Solved(_, _) =>
                           if w.put == Answers then
                             && r'.job == r.job.(state := JobState.Done, resultRef := Some(ArtifactKey(id, h.lease.id)))
                             && r'.runAfter == r.runAfter
                           else
                             && r'.job == r.job.(state := given,
                                                 error := Some("writing the artifact failed: " + w.putError))
                             && r'.runAfter == now + config.retryIn
                         case ChildFailed(error, _) =>
                           && r'.job == r.job.(state := given, error := Some(error))
                           && r'.runAfter == now + config.retryIn
                         case ChildDied(error) =>
                           && r'.job == r.job.(state := given, error := Some(error))
                           && r'.runAfter == now + config.retryIn)
    {
      hide Conserved;
      hide Sound;
      hide ArtifactKey;
      hide Heard;
      hide VerdictOf;
      hide Deliveries.After;
      VerdictLeaves(config, h, now, w, queue.store.db.jobs);
      raised := Report(h, now, w);
    }

    /** The watch, while others go on using the table; `reported` is when there is something to report. */
    method Attend(lease: Lease, s: Shift) returns (h: Handled, beats: nat, reported: Time)
      requires queue.Valid() && config.Accepted() && s.spin > 0
      requires EachLands(s.besides, queue.store.db.sessions)
      modifies queue.store.db
      ensures queue.Valid()
      ensures h.lease == CopyAfter(config, lease, s.start, s.turns, s.spin, beats)
      ensures h.lease.id == lease.id && h.lease.job.id == lease.job.id
      ensures Watched(config, lease, s.start, s.turns, s.spin, s.killed, h,
                      reported - (if h.ending.Completed? then 0 else s.killing), beats)
      ensures queue.store.db.jobs == Exec(old(queue.store.db.jobs),
                                          ShiftOps(config, lease, s.start, s.turns, s.spin, s.besides, beats))
    {
      hide Conserved;
      hide Sound;
      hide Exec;
      hide ShiftOps;
      hide CopyAfter;
      hide Watched;
      hide Prompt;
      hide TurnStart;
      hide AskedAt;
      hide Spent;
      hide Turn.Answer;
      var decided;
      h, decided, beats := Supervise(config, lease, s.start, s.turns, s.killed, s.spin);
      ShiftOpsLand(config, lease, s.start, s.turns, s.spin, s.besides, beats, queue.store.db.sessions);
      queue.store.Meanwhile(ShiftOps(config, lease, s.start, s.turns, s.spin, s.besides, beats));
      reported := if h.ending == Completed then decided else decided + s.killing;
    }

    /** One lease, from its claim to its report: the child is watched and the lease renewed while others go on using
        the table, and then the one verdict is reported. */
    method RunLease(lease: Lease, s: Shift) returns (h: Handled, beats: nat, reported: Time, raised: bool)
      requires queue.Valid() && queue.held.Keys == {lease.job.id} && queue.held[lease.job.id].token == lease.id
      requires config.Accepted() && s.spin > 0
      requires EachLands(s.besides, queue.store.db.sessions)
      modifies queue`held, queue.channel, queue.store.db, objects
      ensures queue.Valid() && queue.held == map[]
      ensures h.lease == CopyAfter(config, lease, s.start, s.turns, s.spin, beats)
      ensures h.lease.id == lease.id && h.lease.job.id == lease.job.id
      ensures Watched(config, lease, s.start, s.turns, s.spin, s.killed, h,
                      reported - (if h.ending.Completed? then 0 else s.killing), beats)
      ensures ReportLeaves(config, h, reported, s.weather,
                           Exec(old(queue.store.db.jobs),
                                ShiftOps(config, lease, s.start, s.turns, s.spin, s.besides, beats)),
                           queue.store.db.jobs)
      ensures queue.store.db.jobs ==
              Heard(VerdictOf(config, h, s.weather.put, s.weather.putError), h.lease, reported, s.weather,
                    Exec(old(queue.store.db.jobs),
                         ShiftOps(config, lease, s.start, s.turns, s.spin, s.besides, beats)))
      ensures objects.objects ==
              if Uploads(h) && s.weather.put != NeverArrives
              then old(objects.objects)[ArtifactKey(lease.job.id, lease.id) := h.outcome.data] else old(objects.objects)
    {
      hide Conserved;
      hide Sound;
      hide Exec;
      hide ShiftOps;
      hide CopyAfter;
      hide Heard;
      hide VerdictOf;
      hide ArtifactKey;
      hide Deliveries.After;
      hide Watched;
      hide ReportLeaves;
      h, beats, reported := Attend(lease, s);
      NothingHeldAtAll(queue.Places(), lease.job.id, lease.id);
      raised := Finish(h, reported, s.weather);
    }

    /** One job, from reserve to report, while others go on using the table. A consumer that starts with nothing
        held ends with nothing held, whatever the child, the renewals and the reports do, so its one slot is free
        again; the rows end as the others left them, with this attempt's claim and its one verdict applied when
        they landed. Stopping a child takes `killing`. */
    method RunOnce(owner: string, token: Uuid, s: Shift)
      returns (handled: Option<Handled>, beats: nat, reported: Time, raised: bool)
      requires queue.Valid() && queue.held == map[] && config.Accepted() && s.spin > 0
      requires EachLands(s.tries, queue.store.db.sessions)
      requires EachLands(s.besides, queue.store.db.sessions)
      modifies queue`incoming, queue`held, queue`next, queue.channel, queue.store.db, objects
      ensures queue.Valid() && queue.held == map[]
      ensures var jobs := JobsOf(old(queue.incoming)) + s.arriving;
              var k := FirstClaimable(jobs, old(queue.store.db.jobs), s.tries, s.clock, 0);
              && (handled.Some? <==> k < |jobs|)
              && |queue.incoming| == Max(|old(queue.incoming)| - if handled.Some? then k + 1 else k, 0)
              && (handled.None? ==>
                    && queue.store.db.jobs == TableAfterTries(old(queue.store.db.jobs), s.tries, k)
                    && objects.objects == old(objects.objects))
              && (handled.Some? ==>
                    var h, op := handled.value, JobOp.Claim(jobs[k], token, owner, config.lease, s.clock(k));
                    var claimed := JobTable.After(TableAt(old(queue.store.db.jobs), s.tries, k), op);
                    var lease := Lease(token, claimed[jobs[k]].job, owner, s.clock(k) + config.lease);
                    && h.lease == CopyAfter(config, lease, s.start, s.turns, s.spin, beats)
                    && h.lease.id == token && h.lease.job.id == jobs[k]
                    && Watched(config, lease, s.start, s.turns, s.spin, s.killed, h,
                               reported - (if h.ending.Completed? then 0 else s.killing), beats)
                    && ReportLeaves(config, h, reported, s.weather,
                                    Exec(claimed, ShiftOps(config, lease, s.start, s.turns, s.spin, s.besides, beats)),
                                    queue.store.db.jobs)
                    && queue.store.db.jobs ==
                       Heard(VerdictOf(config, h, s.weather.put, s.weather.putError), h.lease, reported, s.weather,
                             Exec(claimed, ShiftOps(config, lease, s.start, s.turns, s.spin, s.besides, beats)))
                    && objects.objects ==
                       if Uploads(h) && s.weather.put != NeverArrives
                       then old(objects.objects)[ArtifactKey(jobs[k], token) := h.outcome.data]
                         else old(objects.objects))
    {
      hide Conserved;
      hide Sound;
      hide TableAt;
      hide TableAfterTries;
      hide FirstClaimable;
      hide RefuseFirst;
      hide JobTable.After;
      hide Deliveries.After;
      hide Exec;
      hide Claiming;
      hide Takes;
      hide Heard;
      hide VerdictOf;
      hide ArtifactKey;
      hide ShiftOps;
      hide CopyAfter;
      hide Watched;
      hide ReportLeaves;
      raised, reported, beats := false, s.start, 0;
      var lease := queue.Reserve(owner, config.lease, token, s.arriving, s.tries, s.clock);
      if lease.None? {
        return None, 0, reported, false;
      }
      ghost var k := FirstClaimable(JobsOf(old(queue.incoming)) + s.arriving, old(queue.store.db.jobs), s.tries,
                                    s.clock, 0);
      ClaimingHolds(old(queue.Places()), s.arriving, k, token);
      var h;
      h, beats, reported, raised := RunLease(lease.value, s);
      handled := Some(h);
    }
  }
}
