/** What one supervisor's report does to the rows and the object store is a run of the world of many
    supervisors, so everything proved of that world holds of what `Supervisor.Finish` leaves behind
    (worker/supervisor.py). */
module Reports {
  import opened Basics
  import opened Jobs
  import opened JobTable
  import opened Artifacts
  import opened Execution
  import opened JobQueue
  import S = Supervisor
  import T = Tables

  lemma {:induction false} RunAppend(w: World, events: seq<Event>, w': World, e: Event)
    requires Run(w, events, w') && Enabled(w', e)
    ensures Run(w, events + [e], Execution.After(w', e))
    decreases |events|
  {
    hide Enabled;
    hide Execution.After;
    if events == [] {
      assert events + [e] == [e] && [e][1..] == [];
    } else {
      RunAppend(Execution.After(w, events[0]), events[1..], w', e);
      assert (events + [e])[0] == events[0] && (events + [e])[1..] == events[1..] + [e];
    }
  }

  /** The attempt behind a lease, at one point of its report. */
  predicate At(w: World, lease: Lease, phase: Phase) {
    lease.id in w.attempts && w.attempts[lease.id].job == lease.job.id && w.attempts[lease.id].phase == phase
  }

  /** An event that sends no statement touches its own attempt, and the objects if it is an upload. */
  lemma QuietEvent(w: World, e: Event)
    requires Enabled(w, e) && OfAttempt(e) && Statement(w, e).None?
    ensures Execution.After(w, e) ==
            World(w.now, w.jobs, w.attempts[e.token := AttemptAfter(w, e, w.attempts[e.token])], ObjectsAfter(w, e))
  {
  }

  lemma NackGives(w: World, lease: Lease, error: string, retryIn: Option<Time>)
    requires At(w, lease, Nacking)
    ensures var e := NackLands(lease.id, error, retryIn);
            var w' := Execution.After(w, e);
            && Enabled(w, e) && At(w', lease, Over) && w'.objects == w.objects && w'.now == w.now
            && w'.jobs == JobTable.After(w.jobs, JobOp.Nack(lease.job.id, lease.id, error, retryIn, w.now))
  {
    hide JobTable.After;
  }

  lemma MarkGives(w: World, id: Uuid)
    requires id in w.jobs
    ensures var e := Others(JobOp.MarkPublished(id, w.now));
            var w' := Execution.After(w, e);
            && Enabled(w, e) && w'.attempts == w.attempts && w'.objects == w.objects
            && w'.jobs == w.jobs[id := w.jobs[id].(publishedAt := Some(w.now))]
  {
    OneRowChanges(w.jobs, JobOp.MarkPublished(id, w.now), id);
    hide JobTable.After;
  }

  /** A job given back: the statement lands or is lost, and a retry that was published may be marked. */
  lemma ReturnRuns(w0: World, events: seq<Event>, w: World, lease: Lease, error: string, retryIn: Option<Time>,
                   weather: S.Weather)
    returns (events': seq<Event>, w': World)
    requires Run(w0, events, w) && At(w, lease, Nacking)
    ensures Run(w0, events', w') && At(w', lease, Over) && w'.objects == w.objects
    ensures w'.jobs == S.Heard(S.Return(error, retryIn), lease, w.now, weather, w.jobs)
  {
    hide Run;
    hide JobTable.After;
    hide T.Records;
    if weather.write == NeverArrives {
      QuietEvent(w, ReportLost(lease.id));
      events', w' := events + [ReportLost(lease.id)], Execution.After(w, ReportLost(lease.id));
      RunAppend(w0, events, w, ReportLost(lease.id));
    } else {
      var e := NackLands(lease.id, error, retryIn);
      NackGives(w, lease, error, retryIn);
      events', w' := events + [e], Execution.After(w, e);
      RunAppend(w0, events, w, e);
      var heard := S.Heard(S.Return(error, retryIn), lease, w.now, weather, w.jobs);
      hide Execution.After;
      hide Enabled;
      if heard != w'.jobs {
        var mark := Others(JobOp.MarkPublished(lease.job.id, w.now));
        MarkGives(w', lease.job.id);
        RunAppend(w0, events', w', mark);
        events', w' := events' + [mark], Execution.After(w', mark);
      }
    }
  }

  lemma SuccessRuns(w0: World, events: seq<Event>, w: World, lease: Lease, weather: S.Weather)
    returns (events': seq<Event>, w': World)
    requires Run(w0, events, w) && At(w, lease, Acking)
    ensures Run(w0, events', w') && At(w', lease, Over) && w'.objects == w.objects
    ensures w'.jobs == S.Heard(S.Success(ArtifactKey(lease.job.id, lease.id)), lease, w.now, weather, w.jobs)
  {
    var e := if weather.write == NeverArrives then ReportLost(lease.id) else AckLands(lease.id);
    events', w' := events + [e], Execution.After(w, e);
    RunAppend(w0, events, w, e);
  }

  lemma OneEventRuns(w: World, e: Event) returns (events: seq<Event>, w': World)
    requires Enabled(w, e)
    ensures Run(w, events, w') && w' == Execution.After(w, e)
  {
    assert Run(w, [], w);
    RunAppend(w, [], w, e);
    events, w' := [] + [e], Execution.After(w, e);
  }

  /** An upload that lands, or does not, and then answers, or raises. */
  lemma UploadRuns(w: World, lease: Lease, data: Bytes, weather: S.Weather) returns (events: seq<Event>, w': World)
    requires At(w, lease, Watching)
    ensures Run(w, events, w') && At(w', lease, if weather.put == Answers then Acking else Nacking)
    ensures w'.jobs == w.jobs && w'.now == w.now
    ensures w'.objects ==
            if weather.put == NeverArrives then w.objects else w.objects[ArtifactKey(lease.job.id, lease.id) := data]
  {
    hide ArtifactKey;
    var token := lease.id;
    hide Run;
    QuietEvent(w, ChildSolved(token, data));
    hide Execution.After;
    events, w' := OneEventRuns(w, ChildSolved(token, data));
    if weather.put != NeverArrives {
      QuietEvent(w', PutLands(token));
      RunAppend(w, events, w', PutLands(token));
      events, w' := events + [PutLands(token)], Execution.After(w', PutLands(token));
    }
    var last := if weather.put == Answers then PutReturns(token) else PutFails(token);
    QuietEvent(w', last);
    RunAppend(w, events, w', last);
    events, w' := events + [last], Execution.After(w', last);
  }

  /** Every report, of whatever ending and outcome and through whatever failing calls, is a run in which
      this attempt alone moves: the rows and the objects `Finish` leaves are those the run leaves. */
  lemma FinishIsARun(cfg: S.WorkerConfig, h: S.Handled, weather: S.Weather, w: World)
    returns (events: seq<Event>, w': World)
    requires At(w, h.lease, Watching)
    ensures Run(w, events, w') && At(w', h.lease, Over)
    ensures w'.jobs == S.Heard(S.VerdictOf(cfg, h, weather.put, weather.putError), h.lease, w.now, weather, w.jobs)
    ensures w'.objects ==
            if S.Uploads(h) && weather.put != NeverArrives
            then w.objects[ArtifactKey(h.lease.job.id, h.lease.id) := h.outcome.data] else w.objects
  {
    hide ArtifactKey;
    hide S.Heard;
    hide Run;
    var verdict := S.VerdictOf(cfg, h, weather.put, weather.putError);
    if S.Uploads(h) {
      events, w' := UploadRuns(w, h.lease, h.outcome.data, weather);
      if weather.put == Answers {
        events, w' := SuccessRuns(w, events, w', h.lease, weather);
      } else {
        events, w' := ReturnRuns(w, events, w', h.lease, verdict.error, verdict.retryIn, weather);
      }
    } else {
      var first := if verdict.Silence? then Discard(h.lease.id) else GiveBack(h.lease.id);
      events, w' := OneEventRuns(w, first);
      if verdict.Return? {
        events, w' := ReturnRuns(w, events, w', h.lease, verdict.error, verdict.retryIn, weather);
      } else {
        S.SilenceIsSilent(h.lease, w.now, weather, w.jobs);
      }
    }
  }

  /** So a report never moves a result: if the job already had one before this report, the same key with the
      same bytes is there after it, whoever reports and however late. */
  lemma LateReportChangesNothing(cfg: S.WorkerConfig, h: S.Handled, weather: S.Weather, start: Time,
                                 past: seq<Event>, w: World, id: Uuid, winner: Uuid)
    requires Run(Start(start), past, w) && ResultOf(w, id, winner)
    requires At(w, h.lease, Watching)
    ensures var jobs := S.Heard(S.VerdictOf(cfg, h, weather.put, weather.putError), h.lease, w.now, weather, w.jobs);
            id in jobs && jobs[id].job.resultRef == Some(ArtifactKey(id, winner))
    ensures var key := ArtifactKey(id, winner);
            S.Uploads(h) && weather.put != NeverArrives ==>
              w.objects[ArtifactKey(h.lease.job.id, h.lease.id) := h.outcome.data][key] == w.objects[key]
  {
    hide *;
    ReachableInv(start, past, w);
    var events, w' := FinishIsARun(cfg, h, weather, w);
    ResultForever(w, events, w', id, winner);
    ResultIsStored(w, id, winner);
    ResultIsStored(w', id, winner);
  }

  // ----- the watch

  /** Events beside a watch: others' doings, the passing of time, and renewals of its own that nobody hears of. */
  predicate Beside(events: seq<Event>, token: Uuid) {
    forall i :: 0 <= i < |events| && OfAttempt(events[i]) && events[i].token == token ==> events[i].ExtendLands?
  }

  /** The attempt is watching still, and believes in this deadline. */
  predicate Believes(w: World, lease: Lease, span: Time, copy: Time) {
    At(w, lease, Watching) && w.attempts[lease.id].copy == copy && w.attempts[lease.id].span == span
  }

  /** One turn of the watch in the world: what goes on beside it, and then its renewal, told the truth. */
  predicate Beat(cfg: S.WorkerConfig, lease: Lease, start: Time, turns: nat -> S.Turn, spin: nat, i: nat,
                 w: World, beside: seq<Event>, ops: seq<JobOp>, mid: World, w': World)
  {
    && Run(w, beside, mid) && Beside(beside, lease.id) && mid.jobs == Exec(w.jobs, ops)
    && match turns(i).Answer(cfg.extendEvery)
       case Renewed(_, job) =>
         && mid.now == S.WrittenAt(cfg, start, turns, spin, i)
         && lease.job.id in mid.jobs && Holds(mid.jobs[lease.job.id], lease.id)
         && job == mid.jobs[lease.job.id].job
         && Enabled(mid, ExtendLands(lease.id))
         && var written := Execution.After(mid, ExtendLands(lease.id));
            Enabled(written, ExtendAnswers(lease.id, mid.now + cfg.lease))
            && w' == Execution.After(written, ExtendAnswers(lease.id, mid.now + cfg.lease))
       case TokenGone => !(lease.job.id in mid.jobs && Holds(mid.jobs[lease.job.id], lease.id)) && w' == mid
       case Unreachable => w' == mid
  }

  lemma BesideStep(w: World, e: Event, lease: Lease, span: Time, copy: Time)
    requires Believes(w, lease, span, copy) && Enabled(w, e)
    requires OfAttempt(e) && e.token == lease.id ==> e.ExtendLands?
    ensures Believes(Execution.After(w, e), lease, span, copy)
  {
    hide Execution.JobsAfter;
    hide ObjectsAfter;
  }

  lemma {:induction false} BesideRuns(w: World, events: seq<Event>, w': World, lease: Lease, span: Time, copy: Time)
    requires Believes(w, lease, span, copy) && Run(w, events, w') && Beside(events, lease.id)
    ensures Believes(w', lease, span, copy)
    decreases |events|
  {
    hide Believes;
    hide Enabled;
    hide Execution.After;
    if events != [] {
      BesideStep(w, events[0], lease, span, copy);
      forall i | 0 <= i < |events[1..]| && OfAttempt(events[1..][i]) && events[1..][i].token == lease.id
        ensures events[1..][i].ExtendLands?
      {
        assert events[1..][i] == events[i + 1];
      }
      BesideRuns(Execution.After(w, events[0]), events[1..], w', lease, span, copy);
    }
  }

  /** A renewal that lands under a live token and is heard. */
  lemma RenewalGives(w: World, lease: Lease, span: Time, copy: Time)
    requires Believes(w, lease, span, copy)
    requires lease.job.id in w.jobs && Holds(w.jobs[lease.job.id], lease.id)
    ensures var first, op := ExtendLands(lease.id), JobOp.Extend(lease.job.id, lease.id, span, w.now);
            && Enabled(w, first)
            && var mid := Execution.After(w, first);
               && mid.jobs == JobTable.After(w.jobs, op)
               && Enabled(mid, ExtendAnswers(lease.id, w.now + span))
               && var w' := Execution.After(mid, ExtendAnswers(lease.id, w.now + span));
                  w'.jobs == mid.jobs && w'.objects == w.objects && Believes(w', lease, span, w.now + span)
  {
    hide JobTable.After;
  }

  lemma RunThenRun(w: World, events: seq<Event>, m: World, more: seq<Event>, w': World)
    requires Run(w, events, m) && Run(m, more, w')
    ensures Run(w, events + more, w')
    decreases |events|
  {
    hide Enabled;
    hide Execution.After;
    if events == [] {
      assert events + more == more;
    } else {
      RunThenRun(Execution.After(w, events[0]), events[1..], m, more, w');
      assert (events + more)[0] == events[0] && (events + more)[1..] == events[1..] + more;
    }
  }

  /** The believed deadline and the table one turn later. */
  lemma BeatGives(cfg: S.WorkerConfig, lease: Lease, start: Time, turns: nat -> S.Turn, spin: nat, i: nat,
                  w: World, beside: seq<Event>, ops: seq<JobOp>, mid: World, w': World)
    returns (events: seq<Event>)
    requires Beat(cfg, lease, start, turns, spin, i, w, beside, ops, mid, w')
    requires Believes(w, lease, cfg.lease, S.CopyAfter(cfg, lease, start, turns, spin, i).expiresAt)
    ensures Run(w, events, w')
    ensures Believes(w', lease, cfg.lease, S.CopyAfter(cfg, lease, start, turns, spin, i + 1).expiresAt)
    ensures w'.jobs == Exec(w.jobs, ops + RenewalOps(cfg, lease, start, turns, spin, i))
  {
    BesideRuns(w, beside, mid, lease, cfg.lease, S.CopyAfter(cfg, lease, start, turns, spin, i).expiresAt);
    hide Run;
    hide Enabled;
    hide Execution.After;
    hide Believes;
    if turns(i).Answer(cfg.extendEvery).Renewed? {
      RenewalGives(mid, lease, cfg.lease, S.CopyAfter(cfg, lease, start, turns, spin, i).expiresAt);
      var first, last := ExtendLands(lease.id), ExtendAnswers(lease.id, mid.now + cfg.lease);
      RunAppend(w, beside, mid, first);
      RunAppend(w, beside + [first], Execution.After(mid, first), last);
      events := beside + [first] + [last];
      OneMoreOp(w.jobs, ops, JobOp.Extend(lease.job.id, lease.id, cfg.lease, mid.now));
    } else {
      events := beside;
      assert ops + [] == ops;
    }
  }

  /** The heard renewal of a turn, as a statement. */
  function RenewalOps(cfg: S.WorkerConfig, lease: Lease, start: Time, turns: nat -> S.Turn, spin: nat, i: nat)
    : seq<JobOp>
  {
    if !turns(i).Answer(cfg.extendEvery).Renewed? then []
    else [JobOp.Extend(lease.job.id, lease.id, cfg.lease, S.WrittenAt(cfg, start, turns, spin, i))]
  }

  lemma OneMoreOp(jobs: JobMap, ops: seq<JobOp>, op: JobOp)
    ensures Exec(jobs, ops + [op]) == JobTable.After(Exec(jobs, ops), op)
  {
    assert (ops + [op])[..|ops|] == ops;
    hide JobTable.After;
  }

  lemma WatchOpsGrow(cfg: S.WorkerConfig, lease: Lease, start: Time, turns: nat -> S.Turn, spin: nat,
                     besides: nat -> seq<JobOp>, n: nat)
    ensures S.WatchOps(cfg, lease, start, turns, spin, besides, n + 1) ==
            S.WatchOps(cfg, lease, start, turns, spin, besides, n)
            + (besides(n) + RenewalOps(cfg, lease, start, turns, spin, n))
  {
  }

  lemma NothingWatched(cfg: S.WorkerConfig, lease: Lease, start: Time, turns: nat -> S.Turn, spin: nat,
                       besides: nat -> seq<JobOp>, w: World)
    ensures S.WatchOps(cfg, lease, start, turns, spin, besides, 0) == []
    ensures S.CopyAfter(cfg, lease, start, turns, spin, 0) == lease
    ensures Exec(w.jobs, []) == w.jobs && Run(w, [], w)
  {
  }

  /** The watch of `Supervise` is a run of the world: after its renewals the attempt believes in exactly the
      deadline the loop believes in, and the table has been through exactly `WatchOps`. */
  lemma {:induction false} WatchIsARun(cfg: S.WorkerConfig, lease: Lease, start: Time, turns: nat -> S.Turn, spin: nat,
                                       n: nat, worlds: nat -> World, beside: nat -> seq<Event>,
                                       besides: nat -> seq<JobOp>, mids: nat -> World)
    returns (events: seq<Event>)
    requires Believes(worlds(0), lease, cfg.lease, lease.expiresAt)
    requires forall i :: 0 <= i < n ==>
               Beat(cfg, lease, start, turns, spin, i, worlds(i), beside(i), besides(i), mids(i), worlds(i + 1))
    ensures Run(worlds(0), events, worlds(n))
    ensures Believes(worlds(n), lease, cfg.lease, S.CopyAfter(cfg, lease, start, turns, spin, n).expiresAt)
    ensures worlds(n).jobs == Exec(worlds(0).jobs, S.WatchOps(cfg, lease, start, turns, spin, besides, n))
    decreases n
  {
    hide *;
    if n == 0 {
      events := [];
      NothingWatched(cfg, lease, start, turns, spin, besides, worlds(0));
    } else {
      var so := WatchIsARun(cfg, lease, start, turns, spin, n - 1, worlds, beside, besides, mids);
      var more := BeatGives(cfg, lease, start, turns, spin, n - 1, worlds(n - 1), beside(n - 1), besides(n - 1),
                            mids(n - 1), worlds(n));
      events := so + more;
      RunThenRun(worlds(0), so, worlds(n - 1), more, worlds(n));
      WatchOpsGrow(cfg, lease, start, turns, spin, besides, n - 1);
      ExecThenExec(worlds(0).jobs, S.WatchOps(cfg, lease, start, turns, spin, besides, n - 1),
                   besides(n - 1) + RenewalOps(cfg, lease, start, turns, spin, n - 1));
    }
  }

  /** From its claim to its report a lease is one run of the world: the rows and the objects `RunLease` leaves are
      those the run leaves. `worlds(n)` is where its last renewal left the world, `last` what went on until the
      report, and `h` what the watch came to. */
  lemma LeaseIsARun(cfg: S.WorkerConfig, lease: Lease, start: Time, turns: nat -> S.Turn, spin: nat,
                    n: nat, worlds: nat -> World, beside: nat -> seq<Event>, besides: nat -> seq<JobOp>,
                    mids: nat -> World, reporting: World, h: S.Handled, weather: S.Weather)
    returns (events: seq<Event>, w': World)
    requires Believes(worlds(0), lease, cfg.lease, lease.expiresAt)
    requires forall i :: 0 <= i < n ==>
               Beat(cfg, lease, start, turns, spin, i, worlds(i), beside(i), besides(i), mids(i), worlds(i + 1))
    requires Run(worlds(n), beside(n), reporting) && Beside(beside(n), lease.id)
    requires reporting.jobs == Exec(worlds(n).jobs, besides(n))
    requires h.lease == S.CopyAfter(cfg, lease, start, turns, spin, n)
    requires h.lease.id == lease.id && h.lease.job.id == lease.job.id
    ensures Run(worlds(0), events, w')
    ensures w'.jobs == S.Heard(S.VerdictOf(cfg, h, weather.put, weather.putError), h.lease, reporting.now, weather,
                               Exec(worlds(0).jobs, S.ShiftOps(cfg, lease, start, turns, spin, besides, n)))
    ensures w'.objects ==
            if S.Uploads(h) && weather.put != NeverArrives
            then reporting.objects[ArtifactKey(lease.job.id, lease.id) := h.outcome.data] else reporting.objects
  {
    assert S.ShiftOps(cfg, lease, start, turns, spin, besides, n) ==
           S.WatchOps(cfg, lease, start, turns, spin, besides, n) + besides(n);
    var copy := S.CopyAfter(cfg, lease, start, turns, spin, n).expiresAt;
    hide *;
    var watch := WatchIsARun(cfg, lease, start, turns, spin, n, worlds, beside, besides, mids);
    BesideRuns(worlds(n), beside(n), reporting, lease, cfg.lease, copy);
    RunThenRun(worlds(0), watch, worlds(n), beside(n), reporting);
    ExecThenExec(worlds(0).jobs, S.WatchOps(cfg, lease, start, turns, spin, besides, n), besides(n));
    BelievesIsAt(reporting, lease, h.lease, cfg.lease, copy);
    var report;
    report, w' := FinishIsARun(cfg, h, weather, reporting);
    events := watch + beside(n) + report;
    RunThenRun(worlds(0), watch + beside(n), reporting, report, w');
  }

  lemma BelievesIsAt(w: World, lease: Lease, other: Lease, span: Time, copy: Time)
    requires Believes(w, lease, span, copy) && other.id == lease.id && other.job.id == lease.job.id
    ensures At(w, other, Watching)
  {
  }
}
