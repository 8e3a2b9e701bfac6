/** The queue a worker talks to: the job store for the truth, a broker channel for movement, and the
    unacked deliveries it holds in between (adapters/rabbitmq/job_queue.py). Statements and broker calls
    that fail are parameters. */
module JobQueue {
  import opened Basics
  import opened Jobs
  import opened JobTable
  import opened Tables
  import opened JobStore
  import opened Deliveries
  import opened Damper
  import Broker

  type Message = Broker.Message

  /** What the caller of `ack` or `nack` learns. */
  datatype Report = Reported | Stale | Unavailable

  /** One consumer's channel: what it has published, and what it has been given and not yet acked. */
  class Channel {
    var queue: multiset<Message>
    var unacked: set<nat>
    var settled: seq<nat>

    constructor ()
      ensures queue == multiset{} && unacked == {} && settled == []
    {
      queue, unacked, settled := multiset{}, {}, [];
    }
  }

  /** The message one publication puts on the wire; a delay of zero or less goes straight to work. */
  function Wire(job: Uuid, delay: Option<Time>, now: Time): Message {
    Broker.Message(job, now + Max(Broker.RetryDelay(delay), 0))
  }

  function MarkedRow(jobs: JobMap, id: Uuid, now: Time): JobMap {
    if id in jobs then jobs[id := jobs[id].(publishedAt := Some(now))] else jobs
  }

  /** The table and the message an offer leaves, however its two calls go. */
  function AfterOffer(jobs: JobMap, id: Uuid, now: Time, publish: Fault, mark: Fault): JobMap {
    if publish == Answers && mark != NeverArrives then MarkedRow(jobs, id, now) else jobs
  }

  function WireOf(id: Uuid, delay: Option<Time>, now: Time, publish: Fault): multiset<Message> {
    if publish == NeverArrives then multiset{} else multiset{Wire(id, delay, now)}
  }

  /** Does a return send the job round again, as far as its consumer learns? */
  predicate GoesRound(jobs: JobMap, id: Uuid, token: Uuid, fault: Fault) {
    fault == Answers && id in jobs && Holds(jobs[id], token) && ReturnState(jobs[id].job) == Failed
  }

  function WireAll(ids: seq<Uuid>, clock: nat -> Time): multiset<Message> {
    if ids == [] then multiset{}
    else WireAll(ids[..|ids| - 1], clock) + multiset{Wire(ids[|ids| - 1], None, clock(|ids| - 1))}
  }

  /** The messages of a pass over the lapsed jobs: one for each that is not damped. */
  function WireOffers(m: Memory, ids: seq<Uuid>, now: Time, quiet: Time): multiset<Message> {
    if ids == [] then multiset{}
    else
      var init, id := ids[..|ids| - 1], ids[|ids| - 1];
      WireOffers(m, init, now, quiet)
      + if Damped(Noted(m, init, now, quiet), id, now, quiet) then multiset{} else multiset{Wire(id, None, now)}
  }

  /** Letting go of every delivery held for the listed jobs, whatever lease is behind it. */
  function LetGoAll(s: Slots, ids: seq<Uuid>): (r: Slots)
    ensures r.incoming == s.incoming && r.inHand == s.inHand && r.next == s.next
    ensures r.held == s.held - (set id | id in ids)
  {
    if ids == [] then s else Deliveries.After(LetGoAll(s, ids[..|ids| - 1]), LetGo(ids[|ids| - 1], None))
  }

  lemma OneMoreOffer(s: Slots, m: Memory, ids: seq<Uuid>, id: Uuid, now: Time, quiet: Time)
    ensures LetGoAll(s, ids + [id]) == Deliveries.After(LetGoAll(s, ids), LetGo(id, None))
    ensures var before := Noted(m, ids, now, quiet);
            if Damped(before, id, now, quiet) then
              Noted(m, ids + [id], now, quiet) == before
              && WireOffers(m, ids + [id], now, quiet) == WireOffers(m, ids, now, quiet)
            else
              && Noted(m, ids + [id], now, quiet) == before[id := now]
              && WireOffers(m, ids + [id], now, quiet) == WireOffers(m, ids, now, quiet) + multiset{Wire(id, None, now)}
  {
    assert (ids + [id])[..|ids|] == ids;
  }

  predicate Distinct(ids: seq<Uuid>) {
    forall i, j :: 0 <= i < j < |ids| ==> ids[i] != ids[j]
  }

  lemma DistinctPrefix(ids: seq<Uuid>, n: nat)
    requires Distinct(ids) && n <= |ids|
    ensures Distinct(ids[..n])
  {
  }

  /** Is this the message of a lapsed job the pass came to, due at once, that it had not republished within four
      intervals? */
  predicate IsOffer(m: Memory, reached: seq<Uuid>, now: Time, interval: Time, msg: Message) {
    msg.readyAt == now && msg.job in reached && !(msg.job in m && now - m[msg.job] < 4 * interval)
  }

  /** What the loop over the lapsed jobs does: a job it came to that was not republished within four intervals gets one
      message, due at once, and is remembered as of now; the memory of every other job stays, and nothing else is
      published but the message of a call that raised and landed. */
  ghost predicate Republished(was: multiset<Message>, queue: multiset<Message>, m: Memory, m': Memory, ids: seq<Uuid>,
                              reached: nat, strayed: bool, now: Time, interval: Time)
    requires reached <= |ids| && (strayed ==> reached < |ids|)
  {
    && (Distinct(ids) ==>
          forall msg: Message ::
            queue[msg] == was[msg]
              + (if IsOffer(m, ids[..reached], now, interval, msg) then 1 else 0)
              + (if strayed && msg == Broker.Message(ids[reached], now) then 1 else 0))
    && (forall id :: id in ids[..reached] ==>
          id in m' && m'[id] == if id in m && now - m[id] < 4 * interval then m[id] else now)
    && (forall id :: id !in ids[..reached] ==> (id in m' <==> id in m) && (id in m ==> m'[id] == m[id]))
  }

  /** Is it the message of an orphan, due at once? */
  predicate IsOrphans(orphans: seq<Uuid>, clock: nat -> Time, msg: Message) {
    exists k :: 0 <= k < |orphans| && orphans[k] == msg.job && clock(k) == msg.readyAt
  }

  /** What a pass over the lapsed jobs publishes, message by message: one, due at once, for each job it comes to that
      was not republished within `quiet`. */
  lemma {:induction false} OffersOnTheWire(m: Memory, ids: seq<Uuid>, now: Time, quiet: Time, msg: Message)
    requires Distinct(ids)
    ensures WireOffers(m, ids, now, quiet)[msg] ==
            if msg.readyAt == now && msg.job in ids && !(msg.job in m && now - m[msg.job] < quiet) then 1 else 0
  {
    if ids != [] {
      var init, id := ids[..|ids| - 1], ids[|ids| - 1];
      assert ids == init + [id];
      assert id !in init;
      DistinctPrefix(ids, |ids| - 1);
      OffersOnTheWire(m, init, now, quiet, msg);
      OthersOnly(m, init, now, quiet, id);
      hide Distinct;
      hide Noted;
    }
  }

  /** And what it publishes for the orphans: one message for each, due at once. */
  lemma {:induction false} OrphansOnTheWire(ids: seq<Uuid>, clock: nat -> Time, msg: Message)
    requires Distinct(ids)
    ensures WireAll(ids, clock)[msg] ==
            if exists k :: 0 <= k < |ids| && ids[k] == msg.job && clock(k) == msg.readyAt then 1 else 0
  {
    if ids != [] {
      var init, last := ids[..|ids| - 1], |ids| - 1;
      assert forall k :: 0 <= k < last ==> init[k] == ids[k];
      OrphansOnTheWire(init, clock, msg);
    }
  }

  lemma PassOffers(m: Memory, lapsed: seq<Uuid>, n: nat, now: Time, interval: Time, msg: Message)
    requires Distinct(lapsed) && n <= |lapsed|
    ensures WireOffers(m, lapsed[..n], now, interval * QUIET_PASSES)[msg] ==
            if IsOffer(m, lapsed[..n], now, interval, msg) then 1 else 0
  {
    DistinctPrefix(lapsed, n);
    OffersOnTheWire(m, lapsed[..n], now, interval * QUIET_PASSES, msg);
    hide WireOffers;
    hide Distinct;
  }

  lemma PassOrphans(orphans: seq<Uuid>, n: nat, clock: nat -> Time, msg: Message)
    requires Distinct(orphans) && n <= |orphans|
    ensures WireAll(orphans[..n], clock)[msg] == if IsOrphans(orphans[..n], clock, msg) then 1 else 0
  {
    DistinctPrefix(orphans, n);
    OrphansOnTheWire(orphans[..n], clock, msg);
    hide WireAll;
    hide Distinct;
  }

  lemma ThreePublications(was: multiset<Message>, a: multiset<Message>, b: multiset<Message>, c: multiset<Message>,
                          msg: Message)
    ensures (was + a + b + c)[msg] == was[msg] + a[msg] + b[msg] + c[msg]
  {
  }

  /** All that a pass put on the wire, message by message. */
  predicate OnTheWire(was: multiset<Message>, queue: multiset<Message>, m: Memory, lapsed: seq<Uuid>,
                      orphans: seq<Uuid>, got: PassCounts, now: Time, interval: Time, clock: nat -> Time, msg: Message)
    requires InBounds(got, |lapsed|, |orphans|)
  {
    queue[msg] == was[msg]
      + (if IsOffer(m, lapsed[..got.reached], now, interval, msg) then 1 else 0)
      + (if got.strayed && msg == Broker.Message(lapsed[got.reached], now) then 1 else 0)
      + (if IsOrphans(orphans[..got.sent], clock, msg) then 1 else 0)
  }

  lemma PassOnTheWire(was: multiset<Message>, queue: multiset<Message>, m: Memory, lapsed: seq<Uuid>,
                      orphans: seq<Uuid>, got: PassCounts, now: Time, interval: Time, clock: nat -> Time, msg: Message)
    requires InBounds(got, |lapsed|, |orphans|) && Distinct(lapsed) && Distinct(orphans)
    requires queue == was + WireOffers(m, lapsed[..got.reached], now, interval * QUIET_PASSES)
                      + (if got.strayed then multiset{Wire(lapsed[got.reached], None, now)} else multiset{})
                      + WireAll(orphans[..got.sent], clock)
    ensures OnTheWire(was, queue, m, lapsed, orphans, got, now, interval, clock, msg)
  {
    hide WireOffers;
    hide WireAll;
    hide IsOffer;
    hide IsOrphans;
    hide Distinct;
    var ids, sent := lapsed[..got.reached], orphans[..got.sent];
    var a, c := WireOffers(m, ids, now, interval * QUIET_PASSES), WireAll(sent, clock);
    var stray := if got.strayed then multiset{Wire(lapsed[got.reached], None, now)} else multiset{};
    assert stray[msg] == if got.strayed && msg == Broker.Message(lapsed[got.reached], now) then 1 else 0;
    PassOffers(m, lapsed, got.reached, now, interval, msg);
    PassOrphans(orphans, got.sent, clock, msg);
    ThreePublications(was, a, stray, c, msg);
  }

  lemma PassIsRemembered(m: Memory, reached: seq<Uuid>, pruned: bool, now: Time, interval: Time)
    requires interval > 0
    ensures var m' := AfterPass(m, Pass(now, reached, pruned), interval * QUIET_PASSES);
            forall id :: id in reached ==>
              && id in m'
              && m'[id] == if id in m && now - m[id] < 4 * interval then m[id] else now
  {
    NotedIsLatest(m, reached, now, interval * QUIET_PASSES);
    hide Noted;
  }

  lemma NewRowFields(id: Uuid, request: JobRequest, now: Time)
    ensures NewRow(id, request, now).job.id == id
    ensures NewRow(id, request, now).(publishedAt := None) == NewRow(id, request, now)
  {
  }

  /** The table when a `reserve` tries its delivery number `n`: others have not stood still meanwhile. */
  function TableAt(jobs: JobMap, meanwhile: nat -> seq<JobOp>, n: nat): JobMap {
    Exec(if n == 0 then jobs else TableAt(jobs, meanwhile, n - 1), meanwhile(n))
  }

  predicate Takes(jobs: seq<Uuid>, table: JobMap, i: nat, now: Time)
    requires i < |jobs|
  {
    jobs[i] in table && Claimable(table[jobs[i]], now)
  }

  /** The first delivery whose row can be claimed when its turn comes: every earlier one cannot. */
  function FirstClaimable(jobs: seq<Uuid>, rows: JobMap, meanwhile: nat -> seq<JobOp>, clock: nat -> Time,
                          i: nat): (k: nat)
    requires i <= |jobs|
    ensures i <= k <= |jobs|
    ensures forall n :: i <= n < k ==> !Takes(jobs, TableAt(rows, meanwhile, n), n, clock(n))
    ensures k < |jobs| ==> Takes(jobs, TableAt(rows, meanwhile, k), k, clock(k))
    decreases |jobs| - i
  {
    if i == |jobs| || Takes(jobs, TableAt(rows, meanwhile, i), i, clock(i)) then i
    else FirstClaimable(jobs, rows, meanwhile, clock, i + 1)
  }

  /** The table after `n` tries that were refused. */
  function TableAfterTries(jobs: JobMap, meanwhile: nat -> seq<JobOp>, n: nat): JobMap {
    if n == 0 then jobs else TableAt(jobs, meanwhile, n - 1)
  }

  lemma NoTries(jobs: JobMap, meanwhile: nat -> seq<JobOp>)
    ensures TableAfterTries(jobs, meanwhile, 0) == jobs
  {
  }

  lemma OneMoreTry(jobs: JobMap, meanwhile: nat -> seq<JobOp>, n: nat)
    ensures TableAt(jobs, meanwhile, n) == Exec(TableAfterTries(jobs, meanwhile, n), meanwhile(n))
    ensures TableAfterTries(jobs, meanwhile, n + 1) == TableAt(jobs, meanwhile, n)
  {
  }

  function JobsOf(ds: seq<Delivered>): (jobs: seq<Uuid>)
    ensures |jobs| == |ds| && forall i :: 0 <= i < |ds| ==> jobs[i] == ds[i].job
  {
    seq(|ds|, i requires 0 <= i < |ds| => ds[i].job)
  }

  /** A `reserve` with nothing to look at waits for the next delivery to arrive. */
  function Awaited(s: Slots, arriving: seq<Uuid>, i: nat): (r: Slots)
    requires s.incoming == [] ==> i < |arriving|
    ensures r.incoming != [] && r.inHand == s.inHand && r.held == s.held
  {
    if s.incoming == [] then Deliveries.After(s, Arrive(arriving[i])) else s
  }

  /** Taking and refusing the first `k` deliveries: those that wait, and then those that arrive. */
  function RefuseFirst(s: Slots, arriving: seq<Uuid>, k: nat): (r: Slots)
    requires k <= |s.incoming| + |arriving| && s.inHand.None?
    ensures |r.incoming| == Max(|s.incoming| - k, 0) && r.inHand.None? && r.held == s.held
    ensures r.next == s.next + if k <= |s.incoming| then 0 else k - |s.incoming|
  {
    if k == 0 then s
    else
      var before := RefuseFirst(s, arriving, k - 1);
      Deliveries.After(Deliveries.After(Awaited(before, arriving, k - 1 - Min(k - 1, |s.incoming|)), Take), Refused)
  }

  lemma {:induction false} RefusedLeave(s: Slots, arriving: seq<Uuid>, k: nat)
    requires k <= |s.incoming| + |arriving| && s.inHand.None?
    ensures RefuseFirst(s, arriving, k).incoming == if k <= |s.incoming| then s.incoming[k..] else []
  {
    if k > 0 { RefusedLeave(s, arriving, k - 1); }
  }

  lemma {:induction false} LettingGoConserves(s: Slots, ids: seq<Uuid>)
    requires Conserved(s)
    ensures Conserved(LetGoAll(s, ids))
  {
    hide Conserved;
    if ids != [] {
      LettingGoConserves(s, ids[..|ids| - 1]);
      SettlesConserve(LetGoAll(s, ids[..|ids| - 1]), LetGo(ids[|ids| - 1], None));
    }
  }

  /** How each call of one maintenance pass goes. */
  datatype PassCalls = PassCalls(retire: Fault, findLapsed: Fault, offer: nat -> Fault,
                                 findOrphans: Fault, publish: nat -> Fault, mark: nat -> Fault)

  /** What goes on beside the pass: when each of its statements runs, and what others have run by then. */
  datatype Meantime = Meantime(retireAt: Time, beforeLapsed: seq<JobOp>, lapsedAt: Time,
                               beforeOrphans: seq<JobOp>, orphansAt: Time,
                               beforeMark: nat -> seq<JobOp>, markAt: nat -> Time)

  ghost predicate Landing(m: Meantime, sessions: SessionMap) {
    && AllLand(m.beforeLapsed, sessions)
    && AllLand(m.beforeOrphans, sessions)
    && EachLands(m.beforeMark, sessions)
  }

  lemma StillLanding(m: Meantime, sessions: SessionMap, sessions': SessionMap)
    requires Landing(m, sessions) && sessions'.Keys == sessions.Keys
    ensures Landing(m, sessions')
  {
    StillLand(m.beforeMark, sessions, sessions');
  }

  /** How far the pass got with the lapsed jobs and with the orphans; `strayed` if its last offer raised and
      landed nevertheless, `begun` the orphans it came to. */
  datatype PassCounts = PassCounts(released: nat, reached: nat, strayed: bool, begun: nat, sent: nat, marked: nat)

  /** What has run once the marks of these orphans have landed. */
  function Marks(ids: seq<Uuid>, m: Meantime): seq<JobOp> {
    if ids == [] then []
    else
      var n := |ids| - 1;
      Marks(ids[..n], m) + m.beforeMark(n) + [JobOp.MarkPublished(ids[n], m.markAt(n))]
  }

  /** What has run by the end of the loop over the orphans. */
  function OrphanOps(orphans: seq<Uuid>, m: Meantime, marked: nat, begun: nat): seq<JobOp>
    requires marked <= |orphans|
  {
    Marks(orphans[..marked], m) + if begun > marked then m.beforeMark(marked) else []
  }

  /** Every statement of the pass and of the others beside it, in the order in which they ran. */
  function PassOps(calls: PassCalls, m: Meantime, lapsed: seq<Uuid>, orphans: seq<Uuid>, got: PassCounts): seq<JobOp>
    requires got.marked <= |orphans|
  {
    if calls.retire == NeverArrives then []
    else if calls.retire == AnswerLost then [JobOp.RetireLapsed(m.retireAt)]
    else [JobOp.RetireLapsed(m.retireAt)] + RestOps(calls, m, lapsed, orphans, got)
  }

  function RestOps(calls: PassCalls, m: Meantime, lapsed: seq<Uuid>, orphans: seq<Uuid>, got: PassCounts): seq<JobOp>
    requires got.marked <= |orphans|
  {
    if calls.findLapsed != Answers || got.reached < |lapsed| then m.beforeLapsed
    else m.beforeLapsed + m.beforeOrphans + OrphanOps(orphans, m, got.marked, got.begun)
  }

  ghost predicate AllAnswer(calls: PassCalls) {
    && calls.retire == calls.findLapsed == calls.findOrphans == Answers
    && forall i: nat :: calls.offer(i) == calls.publish(i) == calls.mark(i) == Answers
  }

  predicate InBounds(got: PassCounts, lapsed: nat, orphans: nat) {
    && got.reached <= got.released <= lapsed && got.released <= got.reached + 1
    && (got.strayed ==> got.reached < lapsed)
    && got.marked <= got.sent <= got.begun <= orphans && got.begun <= got.marked + 1
  }

  lemma NothingYet(s: Slots, m: Memory, jobs: JobMap, now: Time, quiet: Time, clock: nat -> Time)
    ensures LetGoAll(s, []) == s && Noted(m, [], now, quiet) == m && Exec(jobs, []) == jobs
    ensures WireOffers(m, [], now, quiet) == multiset{} && WireAll([], clock) == multiset{}
  {
  }

  lemma WireOneMore(ids: seq<Uuid>, id: Uuid, clock: nat -> Time)
    ensures WireAll(ids + [id], clock) == WireAll(ids, clock) + multiset{Wire(id, None, clock(|ids|))}
  {
    assert (ids + [id])[..|ids|] == ids;
  }

  lemma MarkOneMore(jobs: JobMap, ids: seq<Uuid>, id: Uuid, m: Meantime)
    ensures var before := Exec(Exec(jobs, Marks(ids, m)), m.beforeMark(|ids|));
            && Exec(jobs, Marks(ids, m) + m.beforeMark(|ids|)) == before
            && Exec(jobs, Marks(ids + [id], m)) == MarkedRow(before, id, m.markAt(|ids|))
            && jobs.Keys <= Exec(jobs, Marks(ids, m)).Keys
  {
    var so, mark := Marks(ids, m) + m.beforeMark(|ids|), JobOp.MarkPublished(id, m.markAt(|ids|));
    assert (ids + [id])[..|ids|] == ids;
    assert Marks(ids + [id], m) == so + [mark];
    ExecThenExec(jobs, Marks(ids, m), m.beforeMark(|ids|));
    ExecKeepsRows(jobs, Marks(ids, m));
    assert (so + [mark])[..|so|] == so;
    OneRowChanges(Exec(jobs, so), mark, id);
    hide JobTable.After;
  }

  lemma NoMarks(m: Meantime)
    ensures Marks([], m) == []
  {
  }

  /** With nobody else about, the marks of the orphans are all that happens to their rows. */
  ghost predicate OnlyMarked(jobs: JobMap, after: JobMap, ids: seq<Uuid>, clock: nat -> Time) {
    && after.Keys == jobs.Keys
    && (forall k :: 0 <= k < |ids| ==>
          ids[k] in jobs && after[ids[k]] == jobs[ids[k]].(publishedAt := Some(clock(k))))
    && (forall id :: id in jobs && id !in ids ==> after[id] == jobs[id])
  }

  lemma MarkedToo(jobs: JobMap, before: JobMap, init: seq<Uuid>, last: Uuid, clock: nat -> Time)
    requires OnlyMarked(jobs, before, init, clock) && last in jobs && last !in init
    ensures OnlyMarked(jobs, MarkedRow(before, last, clock(|init|)), init + [last], clock)
  {
    var after, ids := MarkedRow(before, last, clock(|init|)), init + [last];
    forall k | 0 <= k < |ids|
      ensures ids[k] in jobs && after[ids[k]] == jobs[ids[k]].(publishedAt := Some(clock(k)))
    {
      if k < |init| { assert ids[k] == init[k]; }
    }
  }

  lemma {:induction false} MarksAlone(jobs: JobMap, ids: seq<Uuid>, m: Meantime)
    requires Distinct(ids) && (forall id :: id in ids ==> id in jobs) && forall i :: m.beforeMark(i) == []
    ensures OnlyMarked(jobs, Exec(jobs, Marks(ids, m)), ids, m.markAt)
  {
    if ids == [] {
      NoMarks(m);
    } else {
      var init, last := ids[..|ids| - 1], ids[|ids| - 1];
      assert ids == init + [last] && last !in init;
      DistinctPrefix(ids, |init|);
      MarksAlone(jobs, init, m);
      MarkOneMore(jobs, init, last, m);
      assert Exec(Exec(jobs, Marks(init, m)), []) == Exec(jobs, Marks(init, m));
      hide Exec;
      hide Marks;
      hide Distinct;
      hide OnlyMarked;
      hide MarkedRow;
      MarkedToo(jobs, Exec(jobs, Marks(init, m)), init, last, m.markAt);
    }
  }

  lemma OrphanOpsSoFar(orphans: seq<Uuid>, m: Meantime, marked: nat, begun: nat)
    requires marked <= |orphans| && marked <= begun
    ensures OrphanOps(orphans, m, marked, begun) ==
            if begun > marked then Marks(orphans[..marked], m) + m.beforeMark(marked) else Marks(orphans[..marked], m)
  {
    assert Marks(orphans[..marked], m) + [] == Marks(orphans[..marked], m);
  }

  lemma NoOrphans(m: Meantime)
    ensures OrphanOps([], m, 0, 0) == []
  {
  }

  lemma OneStatement(jobs: JobMap, op: JobOp)
    ensures Exec(jobs, [op]) == JobTable.After(jobs, op)
  {
    assert [op][..0] == [];
    hide JobTable.After;
  }

  /** A return that goes round again leaves its row unmarked until the republication is. */
  lemma RoundAgain(was: JobMap, op: JobOp, fault: Fault, publish: Fault, mark: Fault)
    requires op.Nack?
    ensures GoesRound(was, op.id, op.token, fault) <==>
            fault == Answers && op.id in was && was[op.id].leaseId == Some(op.token)
            && !was[op.id].job.cancelRequested && was[op.id].job.attempts < was[op.id].job.maxAttempts
    ensures GoesRound(was, op.id, op.token, fault) ==>
              var jobs := AfterOffer(JobTable.After(was, op), op.id, op.now, publish, mark);
              op.id in jobs
              && jobs[op.id].publishedAt == if publish == Answers && mark != NeverArrives then Some(op.now) else None
  {
    if op.id in was { OldRowAfter(was, op, op.id); }
    hide JobTable.After;
  }

  /** What a return writes, as far as its consumer learns of it. */
  lemma NackWrites(jobs: JobMap, id: Uuid, op: JobOp)
    requires op.Nack? && op.id == id && id in jobs && Holds(jobs[id], op.token)
    ensures id in JobTable.After(jobs, op)
    ensures JobTable.After(jobs, op)[id] == Nacked(jobs[id], op.error, op.retryIn, op.now)
    ensures JobTable.After(jobs, op)[id].job.state == ReturnState(jobs[id].job)
  {
    OldRowAfter(jobs, op, id);
    hide JobTable.After;
  }

  /** Letting go for a lease leaves nothing held for it. */
  lemma NothingHeldAfter(s: Slots, job: Uuid, token: Uuid)
    ensures var held := Deliveries.After(s, LetGo(job, Some(token))).held; !(job in held && held[job].token == token)
  {
  }

  /** Letting go of the one delivery that is held leaves none. */
  lemma NothingHeldAtAll(s: Slots, job: Uuid, token: Uuid)
    requires s.held.Keys == {job} && s.held[job].token == token
    ensures var s' := Deliveries.After(s, LetGo(job, Some(token))); s'.held == map[] && s'.incoming == s.incoming
  {
  }

  lemma NoneRefused(s: Slots, arriving: seq<Uuid>)
    requires s.inHand.None?
    ensures RefuseFirst(s, arriving, 0) == s
  {
  }

  lemma OneMoreRefused(s: Slots, arriving: seq<Uuid>, k: nat)
    requires k < |s.incoming| + |arriving| && s.inHand.None?
    ensures var before := Awaited(RefuseFirst(s, arriving, k), arriving, k - Min(k, |s.incoming|));
            RefuseFirst(s, arriving, k + 1) == Deliveries.After(Deliveries.After(before, Take), Refused)
  {
  }

  lemma TurnDecides(jobs: seq<Uuid>, rows: JobMap, meanwhile: nat -> seq<JobOp>, clock: nat -> Time, n: nat)
    requires n < |jobs|
    ensures FirstClaimable(jobs, rows, meanwhile, clock, n) ==
            if Takes(jobs, TableAt(rows, meanwhile, n), n, clock(n)) then n
            else FirstClaimable(jobs, rows, meanwhile, clock, n + 1)
  {
  }

  lemma AllRefused(jobs: seq<Uuid>, rows: JobMap, meanwhile: nat -> seq<JobOp>, clock: nat -> Time)
    ensures FirstClaimable(jobs, rows, meanwhile, clock, |jobs|) == |jobs|
  {
  }

  /** And then taking the next one and holding it behind a lease. */
  function Claiming(s: Slots, arriving: seq<Uuid>, k: nat, token: Uuid): Slots
    requires k < |s.incoming| + |arriving| && s.inHand.None?
  {
    var before := Awaited(RefuseFirst(s, arriving, k), arriving, k - Min(k, |s.incoming|));
    Deliveries.After(Deliveries.After(before, Take), Keep(token))
  }

  lemma ClaimingHolds(s: Slots, arriving: seq<Uuid>, k: nat, token: Uuid)
    requires k < |s.incoming| + |arriving| && s.inHand.None?
    ensures var r, job := Claiming(s, arriving, k, token), (JobsOf(s.incoming) + arriving)[k];
            && r.inHand.None? && r.held.Keys == s.held.Keys + {job} && r.held[job].token == token
            && r.incoming == if k < |s.incoming| then s.incoming[k + 1..] else []
  {
    RefusedLeave(s, arriving, k);
    hide RefuseFirst;
  }

  lemma NextTried(s: Slots, arriving: seq<Uuid>, k: nat, token: Uuid)
    requires k < |s.incoming| + |arriving| && s.inHand.None?
    ensures var before := Awaited(RefuseFirst(s, arriving, k), arriving, k - Min(k, |s.incoming|));
            && before.incoming[0].job == (JobsOf(s.incoming) + arriving)[k]
            && Claiming(s, arriving, k, token) == Deliveries.After(Deliveries.After(before, Take), Keep(token))
  {
    RefusedLeave(s, arriving, k);
    hide RefuseFirst;
  }

  lemma RefusedDelivery(s: Slots)
    requires Conserved(s) && s.inHand.None? && s.incoming != []
    ensures Conserved(Deliveries.After(Deliveries.After(s, Take), Refused))
  {
    hide Conserved;
    TakeConserves(s);
    SettlesConserve(Deliveries.After(s, Take), Refused);
  }

  lemma KeptDelivery(s: Slots, token: Uuid)
    requires Conserved(s) && s.inHand.None? && s.incoming != [] && s.incoming[0].job !in s.held
    ensures Conserved(Deliveries.After(Deliveries.After(s, Take), Keep(token)))
  {
    hide Conserved;
    TakeConserves(s);
    KeepConserves(Deliveries.After(s, Take), token);
  }

  class RabbitMQJobQueue {
    const store: PostgresJobStore
    const channel: Channel
    const interval: Time
    const orphanAfter: Time
    var incoming: seq<Delivered>
    var held: HeldMap
    var republished: Memory
    var next: nat

    constructor (store: PostgresJobStore, channel: Channel, interval: Time, orphanAfter: Time)
      requires channel.unacked == {} && channel.settled == []
      ensures this.store == store && this.channel == channel
      ensures this.interval == interval && this.orphanAfter == orphanAfter
      ensures Places() == IDLE && republished == map[]
    {
      this.store, this.channel, this.interval, this.orphanAfter := store, channel, interval, orphanAfter;
      incoming, held, republished, next := [], map[], map[], 0;
    }

    /** Every delivery the broker counts against this consumer, and where it is kept. */
    ghost function Places(): Slots
      reads this, channel
    {
      Slots(incoming, None, held, channel.unacked, channel.settled, next)
    }

    /** Does this consumer still hold a delivery behind the lease? */
    predicate Holding(lease: Lease)
      reads this
    {
      lease.job.id in held && held[lease.job.id].token == lease.id
    }

    ghost predicate Valid()
      reads this, channel, store.db
    {
      store.db.Valid() && Conserved(Places())
    }

    // ----- movement

    method Publish(job: Uuid, delay: Option<Time>, now: Time)
      modifies channel`queue
      ensures channel.queue == old(channel.queue) + multiset{Wire(job, delay, now)}
      ensures channel.queue == old(channel.queue) + multiset{
                Broker.Message(job, if delay.Some? && delay.value > 0 then now + delay.value else now)}
    {
      var wait := if delay.Some? then delay.value else 0;
      if wait > 0 {
        channel.queue := channel.queue + multiset{Broker.Message(job, now + wait)};
      } else {
        channel.queue := channel.queue + multiset{Broker.Message(job, now)};
      }
    }

    /** A delivery arrives and waits, unacked, for a `reserve`. */
    method OnDelivery(d: Delivered)
      requires Valid() && d.tag == next
      modifies this`incoming, this`next, channel`unacked
      ensures Valid() && Places() == Deliveries.After(old(Places()), Arrive(d.job))
      ensures incoming == old(incoming) + [d] && channel.unacked == old(channel.unacked) + {d.tag}
    {
      ArriveConserves(Places(), d.job);
      hide Conserved;
      hide Sound;
      channel.unacked := channel.unacked + {d.tag};
      incoming, next := incoming + [d], next + 1;
    }

    /** Settles the delivery held for a job, if one is held, and, when guarded, held for that lease. */
    method Release(job: Uuid, guard: Option<Uuid>)
      requires Conserved(Places())
      modifies this`held, channel`unacked, channel`settled
      ensures Places() == Deliveries.After(old(Places()), LetGo(job, guard)) && Conserved(Places())
      ensures if job in old(held) && (guard.None? || old(held)[job].token == guard.value) then
                var tag := old(held)[job].delivery.tag;
                && held == old(held) - {job}
                && channel.unacked == old(channel.unacked) - {tag} && channel.settled == old(channel.settled) + [tag]
              else
                && held == old(held)
                && channel.unacked == old(channel.unacked) && channel.settled == old(channel.settled)
    {
      SettlesConserve(Places(), LetGo(job, guard));
      if job !in held || (guard.Some? && held[job].token != guard.value) {
        return;
      }
      var tag := held[job].delivery.tag;
      held := held - {job};
      channel.unacked, channel.settled := channel.unacked - {tag}, channel.settled + [tag];
    }

    // ----- producing

    /** The message, and then the mark; what fails stops it. */
    method Offer(id: Uuid, delay: Option<Time>, now: Time, publish: Fault, mark: Fault) returns (raised: bool)
      requires store.db.Valid() && id in store.db.jobs
      modifies channel`queue, store.db`jobs
      ensures store.db.Valid()
      ensures channel.queue == old(channel.queue) + WireOf(id, delay, now, publish)
      ensures store.db.jobs == AfterOffer(old(store.db.jobs), id, now, publish, mark)
      ensures raised <==> publish != Answers || mark != Answers
      ensures channel.queue == old(channel.queue)
                + if publish == NeverArrives then multiset{}
                  else multiset{Broker.Message(id, if delay.Some? && delay.value > 0 then now + delay.value else now)}
      ensures store.db.jobs ==
              if publish == Answers && mark != NeverArrives
              then old(store.db.jobs)[id := old(store.db.jobs)[id].(publishedAt := Some(now))] else old(store.db.jobs)
    {
      hide Sound;
      hide Ran;
      if publish != NeverArrives {
        Publish(id, delay, now);
      }
      if publish != Answers {
        return true;
      }
      if mark != NeverArrives {
        store.MarkPublished(id, now);
      }
      raised := mark != Answers;
    }

    /** The row first, then the message, then the mark. Whatever stops it, a job it created is either
        still unpublished, for the sweep to find, or has its message on the wire. */
    method Enqueue(request: JobRequest, id: Uuid, now: Time, publish: Fault, mark: Fault)
      returns (r: Result<Job, InsertError>, raised: bool)
      requires Valid() && id !in store.db.jobs
      modifies store.db, channel`queue
      ensures store.db.Valid() && Places() == old(Places())
      ensures r.Err? || id !in store.db.jobs ==>
                store.db.State() == old(store.db.State()) && channel.queue == old(channel.queue)
      ensures id in store.db.jobs ==>
                && r == Ok(NewRow(id, request, now).job)
                && store.db.jobs[id] == NewRow(id, request, now).(publishedAt :=
                     if publish == Answers && mark != NeverArrives then Some(now) else None)
                && channel.queue == old(channel.queue) + WireOf(id, Some(request.delay), now, publish)
      ensures id in store.db.jobs ==>
                var inserted := JobTable.After(old(store.db.jobs), Insert(id, request, now));
                && Ran(old(store.db.State()), Insert(id, request, now), [id], Committed(inserted, store.db.sessions))
                && Inserts(old(store.db.jobs), Insert(id, request, now))
                && store.db.jobs == AfterOffer(inserted, id, now, publish, mark)
      ensures raised <==> r.Err? || (id in store.db.jobs && (publish != Answers || mark != Answers))
      ensures r.Ok? && id !in store.db.jobs ==>
                (exists known :: known in store.db.jobs && r.value == store.db.jobs[known].job
                                 && SameKey(store.db.jobs[known], request.sessionId, request.idempotencyKey))
    {
      hide Ran;
      hide Sound;
      hide NewRow;
      hide KeyTaken;
      hide Conserved;
      hide WireOf;
      hide JobTable.After;
      ghost var before := store.db.State();
      raised := false;
      NewRowFields(id, request, now);
      var created := store.InsertOrGet(request, id, now);
      if created.Err? {
        return Err(created.error), true;
      }
      ghost var jobs := store.db.jobs;
      var (job, isNew) := created.value;
      if isNew {
        RanMoves(before, Insert(id, request, now), [id], store.db.State());
        raised := Offer(id, Some(request.delay), now, publish, mark);
        assert store.db.jobs[id := NewRow(id, request, now)] == jobs;
      }
      r := Ok(job);
    }

    // ----- consuming

    /** Tries the oldest waiting delivery. A refused one is settled, not requeued, and moves no row; a
        claimed one is held behind its new lease. */
    method TryNext(owner: string, lease: Time, token: Uuid, now: Time) returns (r: Option<Lease>)
      requires Valid() && incoming != []
      modifies this`incoming, this`held, channel`unacked, channel`settled, store.db
      ensures store.db.Valid()
      ensures var job := old(incoming)[0].job;
              r.Some? <==> job in old(store.db.jobs) && Claimable(old(store.db.jobs)[job], now)
      ensures r.None? ==>
                && store.db.State() == old(store.db.State())
                && Places() == Deliveries.After(Deliveries.After(old(Places()), Take), Refused)
                && Conserved(Places())
      ensures r.Some? ==>
                var job := old(incoming)[0].job;
                && job in store.db.jobs && store.db.jobs[job].job.id == job
                && r.value == Lease(token, store.db.jobs[job].job, owner, now + lease)
                && Ran(old(store.db.State()), JobOp.Claim(job, token, owner, lease, now), [job], store.db.State())
                && Places() == Deliveries.After(Deliveries.After(old(Places()), Take), Keep(token))
                && (job !in old(held) ==> Conserved(Places()))
      ensures incoming == old(incoming)[1..]
      ensures var d := old(incoming)[0];
              if r.Some? then
                && held == old(held)[d.job := Behind(token, d)]
                && channel.unacked == old(channel.unacked) && channel.settled == old(channel.settled)
              else
                && held == old(held)
                && channel.unacked == old(channel.unacked) - {d.tag}
                && channel.settled == old(channel.settled) + [d.tag]
    {
      hide Conserved;
      hide Claimable;
      hide Sound;
      hide Ran;
      ghost var before := Places();
      var d := incoming[0];
      incoming := incoming[1..];
      r := store.Claim(d.job, token, owner, lease, now);
      if r.Some? {
        if d.job !in held { KeptDelivery(before, token); }
        held := held[d.job := Behind(token, d)];
      } else {
        RefusedDelivery(before);
        channel.unacked, channel.settled := channel.unacked - {d.tag}, channel.settled + [d.tag];
      }
    }

    /** One turn of `reserve`: waits for a delivery if none is there, while others run `ops`, and tries it. */
    method TryAwaited(owner: string, lease: Time, token: Uuid, arriving: seq<Uuid>, came: nat, ops: seq<JobOp>,
                      now: Time)
      returns (r: Option<Lease>)
      requires Valid() && (incoming == [] ==> came < |arriving|)
      requires AllLand(ops, store.db.sessions)
      modifies this`incoming, this`held, this`next, channel`unacked, channel`settled, store.db
      ensures store.db.Valid() && store.db.sessions.Keys == old(store.db.sessions.Keys)
      ensures var before, table := Awaited(old(Places()), arriving, came), Exec(old(store.db.jobs), ops);
              var job := before.incoming[0].job;
              && (r.Some? <==> job in table && Claimable(table[job], now))
              && (r.None? ==>
                    && store.db.jobs == table
                    && Places() == Deliveries.After(Deliveries.After(before, Take), Refused) && Conserved(Places()))
              && (r.Some? ==>
                    && job in store.db.jobs && store.db.jobs[job].job.id == job
                    && r.value == Lease(token, store.db.jobs[job].job, owner, now + lease)
                    && store.db.jobs == JobTable.After(table, JobOp.Claim(job, token, owner, lease, now))
                    && Places() == Deliveries.After(Deliveries.After(before, Take), Keep(token))
                    && (job !in old(held) ==> Conserved(Places())))
    {
      hide Conserved;
      hide Claimable;
      hide Ran;
      hide Sound;
      hide JobTable.After;
      if incoming == [] {
        OnDelivery(Delivered(next, arriving[came]));
      }
      store.Meanwhile(ops);
      ghost var t, job := store.db.State(), incoming[0].job;
      r := TryNext(owner, lease, token, now);
      if r.Some? { RanMoves(t, JobOp.Claim(job, token, owner, lease, now), [job], store.db.State()); }
    }

    /** Try number `n` of a `reserve` that began with `start` and `rows`: everything before it was refused. */
    method TryNumber(owner: string, lease: Time, token: Uuid, arriving: seq<Uuid>, n: nat, came: nat,
                     meanwhile: nat -> seq<JobOp>, clock: nat -> Time, ghost start: Slots, ghost rows: JobMap)
      returns (r: Option<Lease>)
      requires Valid() && EachLands(meanwhile, store.db.sessions)
      requires start.inHand.None? && n < |start.incoming| + |arriving| && came == n - Min(n, |start.incoming|)
      requires Places() == RefuseFirst(start, arriving, n) && store.db.jobs == TableAfterTries(rows, meanwhile, n)
      modifies this`incoming, this`held, this`next, channel`unacked, channel`settled, store.db
      ensures store.db.Valid() && store.db.sessions.Keys == old(store.db.sessions.Keys)
      ensures var jobs := JobsOf(start.incoming) + arriving;
              && (r.Some? <==> Takes(jobs, TableAt(rows, meanwhile, n), n, clock(n)))
              && (r.None? ==>
                    && Places() == RefuseFirst(start, arriving, n + 1) && Conserved(Places())
                    && store.db.jobs == TableAfterTries(rows, meanwhile, n + 1))
              && (r.Some? ==>
                    && jobs[n] in store.db.jobs && store.db.jobs[jobs[n]].job.id == jobs[n]
                    && r.value == Lease(token, store.db.jobs[jobs[n]].job, owner, clock(n) + lease)
                    && store.db.jobs == JobTable.After(TableAt(rows, meanwhile, n),
                                                       JobOp.Claim(jobs[n], token, owner, lease, clock(n)))
                    && Places() == Claiming(start, arriving, n, token)
                    && (jobs[n] !in start.held ==> Conserved(Places())))
    {
      hide Conserved;
      hide Claimable;
      hide Sound;
      hide JobTable.After;
      hide TableAt;
      hide RefuseFirst;
      hide TableAfterTries;
      hide Deliveries.After;
      hide Awaited;
      hide Claiming;
      hide Exec;
      OneMoreTry(rows, meanwhile, n);
      OneMoreRefused(start, arriving, n);
      NextTried(start, arriving, n, token);
      r := TryAwaited(owner, lease, token, arriving, came, meanwhile(n), clock(n));
    }

    /** Works through the waiting deliveries, and then through those that arrive before its deadline, until one
        can be claimed or the deadline passes. `arriving` are the jobs of the deliveries that come in time; before
        try number `n`, at `clock(n)`, others have run the statements `meanwhile(n)`. */
    method Reserve(owner: string, lease: Time, token: Uuid, arriving: seq<Uuid>, meanwhile: nat -> seq<JobOp>,
                   clock: nat -> Time)
      returns (r: Option<Lease>)
      requires Valid() && EachLands(meanwhile, store.db.sessions)
      modifies this`incoming, this`held, this`next, channel`unacked, channel`settled, store.db
      ensures store.db.Valid() && store.db.sessions.Keys == old(store.db.sessions.Keys)
      ensures var jobs := JobsOf(old(incoming)) + arriving;
              var k := FirstClaimable(jobs, old(store.db.jobs), meanwhile, clock, 0);
              if k == |jobs| then
                && r == None
                && Places() == RefuseFirst(old(Places()), arriving, k) && Conserved(Places())
                && store.db.jobs == TableAfterTries(old(store.db.jobs), meanwhile, k)
              else
                var op := JobOp.Claim(jobs[k], token, owner, lease, clock(k));
                && r.Some? && jobs[k] in store.db.jobs && store.db.jobs[jobs[k]].job.id == jobs[k]
                && r.value == Lease(token, store.db.jobs[jobs[k]].job, owner, clock(k) + lease)
                && store.db.jobs == JobTable.After(TableAt(old(store.db.jobs), meanwhile, k), op)
                && Places() == Claiming(old(Places()), arriving, k, token)
                && (jobs[k] !in old(held) ==> Conserved(Places()))
    {
      hide Conserved;
      hide Claimable;
      hide Sound;
      hide JobTable.After;
      hide TableAt;
      hide RefuseFirst;
      hide FirstClaimable;
      hide TableAfterTries;
      hide Claiming;
      hide Takes;
      hide Exec;
      hide Deliveries.After;
      hide Awaited;
      hide EachLands;
      var n, came := 0, 0;
      ghost var start, rows := Places(), store.db.jobs;
      ghost var jobs := JobsOf(incoming) + arriving;
      NoTries(rows, meanwhile);
      NoneRefused(start, arriving);
      while incoming != [] || came < |arriving|
        invariant n <= |jobs| && came == n - Min(n, |start.incoming|)
        invariant Places() == RefuseFirst(start, arriving, n) && Conserved(Places())
        invariant store.db.Valid() && store.db.jobs == TableAfterTries(rows, meanwhile, n)
        invariant store.db.sessions.Keys == old(store.db.sessions.Keys)
        invariant FirstClaimable(jobs, rows, meanwhile, clock, 0) == FirstClaimable(jobs, rows, meanwhile, clock, n)
        invariant |incoming| + |arriving| - came == |jobs| - n
        decreases |jobs| - n
      {
        StillLand(meanwhile, old(store.db.sessions), store.db.sessions);
        TurnDecides(jobs, rows, meanwhile, clock, n);
        var waited := if incoming == [] then 1 else 0;
        r := TryNumber(owner, lease, token, arriving, n, came, meanwhile, clock, start, rows);
        if r.Some? {
          return;
        }
        n, came := n + 1, came + waited;
      }
      AllRefused(jobs, rows, meanwhile, clock);
      r := None;
    }

    method Extend(lease: Lease, span: Time, now: Time) returns (r: Result<Lease, StaleLease>)
      requires store.db.Valid()
      modifies store.db`jobs
      ensures store.db.Valid()
      ensures Ran(old(store.db.State()), JobOp.Extend(lease.job.id, lease.id, span, now), [], store.db.State())
      ensures r.Ok? <==> lease.job.id in old(store.db.jobs) && Holds(old(store.db.jobs)[lease.job.id], lease.id)
      ensures r.Ok? ==> r.value == Lease(lease.id, store.db.jobs[lease.job.id].job, lease.owner, now + span)
    {
      r := store.Extend(lease, span, now);
    }

    // ----- finishing

    /** Postgres first, and the delivery settled either way. */
    method Ack(lease: Lease, resultRef: Option<string>, fault: Fault) returns (r: Report)
      requires Valid()
      modifies this`held, channel`unacked, channel`settled, store.db
      ensures Valid() && !Holding(lease)
      ensures Places() == Deliveries.After(old(Places()), LetGo(lease.job.id, Some(lease.id)))
      ensures var op := JobOp.Ack(lease.job.id, lease.id, resultRef);
              if fault == NeverArrives then store.db.State() == old(store.db.State())
              else Ran(old(store.db.State()), op, OrderOf(old(store.db.jobs), op, lease.job.id), store.db.State())
      ensures r == if fault != Answers then Unavailable
                   else if lease.job.id in old(store.db.jobs) && Holds(old(store.db.jobs)[lease.job.id], lease.id)
                     then Reported
                   else Stale
    {
      hide Conserved;
      hide Sound;
      hide Ran;
      hide Deliveries.After;
      r := Unavailable;
      NothingHeldAfter(Places(), lease.job.id, lease.id);
      if fault != NeverArrives {
        var written := store.Ack(lease, resultRef);
        if fault == Answers {
          r := if written.Ok? then Reported else Stale;
        }
      }
      Release(lease.job.id, Some(lease.id));
    }

    /** The row hears the return, and the delivery is settled either way. */
    method GiveBack(lease: Lease, error: string, retryIn: Option<Time>, now: Time)
      returns (returned: Result<Job, StaleLease>)
      requires Valid()
      modifies this`held, channel`unacked, channel`settled, store.db
      ensures Valid() && !Holding(lease)
      ensures Places() == Deliveries.After(old(Places()), LetGo(lease.job.id, Some(lease.id)))
      ensures var id, op := lease.job.id, JobOp.Nack(lease.job.id, lease.id, error, retryIn, now);
              && Ran(old(store.db.State()), op, OrderOf(old(store.db.jobs), op, id), store.db.State())
              && store.db.jobs == JobTable.After(old(store.db.jobs), op)
              && (returned.Ok? <==> id in old(store.db.jobs) && Holds(old(store.db.jobs)[id], lease.id))
              && (returned.Ok? ==>
                    && returned.value.id == id && id in store.db.jobs
                    && (returned.value.state == Failed <==> GoesRound(old(store.db.jobs), id, lease.id, Answers)))
    {
      hide Conserved;
      hide Sound;
      hide Ran;
      hide JobTable.After;
      hide Deliveries.After;
      hide ReturnState;
      ghost var t, op := store.db.State(), JobOp.Nack(lease.job.id, lease.id, error, retryIn, now);
      NothingHeldAfter(Places(), lease.job.id, lease.id);
      if lease.job.id in t.jobs && Holds(t.jobs[lease.job.id], lease.id) { NackWrites(t.jobs, lease.job.id, op); }
      returned := store.Nack(lease, error, retryIn, now);
      RanMoves(t, op, OrderOf(t.jobs, op, lease.job.id), store.db.State());
      hide OrderOf;
      RowsKnowTheirIds(store.db.State());
      Release(lease.job.id, Some(lease.id));
    }

    /** The row first, the delivery settled either way, and a job that goes round again republished
        behind its backoff and marked. */
    method Nack(lease: Lease, error: string, retryIn: Option<Time>, now: Time, fault: Fault, publish: Fault,
                mark: Fault)
      returns (r: Report)
      requires Valid()
      modifies this`held, channel, store.db
      ensures Valid() && !Holding(lease)
      ensures Places() == Deliveries.After(old(Places()), LetGo(lease.job.id, Some(lease.id)))
      ensures var id, op := lease.job.id, JobOp.Nack(lease.job.id, lease.id, error, retryIn, now);
              var jobs := JobTable.After(old(store.db.jobs), op);
              var again := GoesRound(old(store.db.jobs), id, lease.id, fault);
              if fault == NeverArrives then
                store.db.State() == old(store.db.State()) && channel.queue == old(channel.queue) && r == Unavailable
              else
                && Ran(old(store.db.State()), op, OrderOf(old(store.db.jobs), op, id),
                       Committed(jobs, store.db.sessions))
                && channel.queue ==
                   old(channel.queue) + (if again then WireOf(id, retryIn, now, publish) else multiset{})
                && store.db.jobs == (if again then AfterOffer(jobs, id, now, publish, mark) else jobs)
                && (r == Stale <==>
                      fault == Answers && !(id in old(store.db.jobs) && Holds(old(store.db.jobs)[id], lease.id)))
      ensures var id, was := lease.job.id, old(store.db.jobs);
              var again := fault == Answers && id in was && was[id].leaseId == Some(lease.id)
                           && !was[id].job.cancelRequested && was[id].job.attempts < was[id].job.maxAttempts;
              && channel.queue == old(channel.queue)
                   + (if !again || publish == NeverArrives then multiset{} else multiset{Broker.Message(
                        id, if retryIn.Some? && retryIn.value > 0 then now + retryIn.value else now)})
              && (again ==>
                    id in store.db.jobs
                    && store.db.jobs[id].publishedAt ==
                       if publish == Answers && mark != NeverArrives then Some(now) else None)
              && (r == Unavailable <==> fault != Answers || (again && (publish != Answers || mark != Answers)))
    {
      RoundAgain(store.db.jobs, JobOp.Nack(lease.job.id, lease.id, error, retryIn, now), fault, publish, mark);
      hide Conserved;
      hide Sound;
      hide Ran;
      hide JobTable.After;
      hide Deliveries.After;
      hide OrderOf;
      hide Records;
      hide ReturnState;
      if fault == NeverArrives {
        NothingHeldAfter(Places(), lease.job.id, lease.id);
        Release(lease.job.id, Some(lease.id));
        return Unavailable;
      }
      var returned := GiveBack(lease, error, retryIn, now);
      if fault == AnswerLost {
        return Unavailable;
      }
      if returned.Err? {
        return Stale;
      }
      r := Reported;
      if returned.value.state == Failed {
        var raised := Offer(returned.value.id, retryIn, now, publish, mark);
        r := if raised then Unavailable else Reported;
      }
    }

    /** Hands back the delivery of a void claim. The row is not touched, and a delivery held for a newer
        lease on the same job stays. */
    method Discard(lease: Lease)
      requires Valid()
      modifies this`held, channel`unacked, channel`settled
      ensures Valid() && !Holding(lease)
      ensures Places() == Deliveries.After(old(Places()), LetGo(lease.job.id, Some(lease.id)))
    {
      hide Conserved;
      hide Sound;
      hide Deliveries.After;
      NothingHeldAfter(Places(), lease.job.id, lease.id);
      Release(lease.job.id, Some(lease.id));
    }

    // ----- maintenance

    /** Drops every delivery held for the listed jobs. */
    method LetGoOf(ids: seq<Uuid>)
      requires Conserved(Places())
      modifies this`held, channel`unacked, channel`settled
      ensures Places() == LetGoAll(old(Places()), ids) && Conserved(Places())
    {
      hide Conserved;
      var i := 0;
      ghost var start := Places();
      while i < |ids|
        invariant 0 <= i <= |ids|
        invariant Places() == LetGoAll(start, ids[..i]) && Conserved(Places())
      {
        assert ids[..i + 1][..i] == ids[..i];
        Release(ids[i], None);
        i := i + 1;
      }
      assert ids[..i] == ids;
    }

    /** One lapsed job: its delivery is let go of, and it is offered again unless it was lately. */
    method OfferOne(id: Uuid, now: Time, offer: Fault) returns (through: bool, strayed: bool)
      requires Conserved(Places())
      modifies this`held, this`republished, channel
      ensures Places() == Deliveries.After(old(Places()), LetGo(id, None)) && Conserved(Places())
      ensures var damped := Damped(old(republished), id, now, interval * QUIET_PASSES);
              && (through <==> damped || offer == Answers)
              && (strayed <==> !damped && offer == AnswerLost)
              && republished == (if damped || offer != Answers then old(republished) else old(republished)[id := now])
              && channel.queue == old(channel.queue)
                   + if damped || offer == NeverArrives then multiset{} else multiset{Wire(id, None, now)}
    {
      hide Conserved;
      hide Deliveries.After;
      Release(id, None);
      through, strayed := true, false;
      if !(id in republished && now - republished[id] < interval * QUIET_PASSES) {
        if offer == NeverArrives {
          return false, false;
        }
        Publish(id, None, now);
        if offer == AnswerLost {
          return false, true;
        }
        republished := republished[id := now];
      }
    }

    /** The loop over the lapsed jobs. */
    method OfferEach(ids: seq<Uuid>, now: Time, offer: nat -> Fault)
      returns (released: nat, reached: nat, strayed: bool)
      requires Conserved(Places())
      modifies this`held, this`republished, channel
      ensures reached <= released <= |ids| && (reached == |ids| || released == reached + 1)
      ensures reached < |ids| ==>
                offer(reached) == (if strayed then AnswerLost else NeverArrives)
                && !Damped(republished, ids[reached], now, interval * QUIET_PASSES)
      ensures reached == |ids| ==> !strayed
      ensures (forall i :: 0 <= i < |ids| ==> offer(i) == Answers) ==> reached == |ids|
      ensures Places() == LetGoAll(old(Places()), ids[..released]) && Conserved(Places())
      ensures republished == Noted(old(republished), ids[..reached], now, interval * QUIET_PASSES)
      ensures channel.queue == old(channel.queue)
                               + WireOffers(old(republished), ids[..reached], now, interval * QUIET_PASSES)
                               + if strayed then multiset{Wire(ids[reached], None, now)} else multiset{}
    {
      hide Conserved;
      hide LetGoAll;
      hide Noted;
      hide WireOffers;
      hide Damped;
      hide Deliveries.After;
      var quiet := interval * QUIET_PASSES;
      ghost var start, memory, queue := Places(), republished, channel.queue;
      released, reached, strayed := 0, 0, false;
      NothingYet(start, memory, store.db.jobs, now, quiet, n => now);
      while reached < |ids|
        invariant 0 <= reached == released <= |ids| && !strayed
        invariant Places() == LetGoAll(start, ids[..released]) && Conserved(Places())
        invariant republished == Noted(memory, ids[..reached], now, quiet)
        invariant channel.queue == queue + WireOffers(memory, ids[..reached], now, quiet)
      {
        assert ids[..reached + 1] == ids[..reached] + [ids[reached]];
        OneMoreOffer(start, memory, ids[..reached], ids[reached], now, quiet);
        var through;
        through, strayed := OfferOne(ids[reached], now, offer(reached));
        released := released + 1;
        if !through {
          return;
        }
        reached := reached + 1;
      }
    }

    /** Drops the delivery of each lapsed job in turn, and offers again each one that has not been offered lately.
        A publication that raises ends the loop: the jobs before `reached` are through, the one there has been
        let go and not noted, and `strayed` says whether its message is on the wire all the same. */
    method OfferLapsed(ids: seq<Uuid>, now: Time, offer: nat -> Fault)
      returns (released: nat, reached: nat, strayed: bool)
      requires Conserved(Places())
      modifies this`held, this`republished, channel
      ensures reached <= released <= |ids| && (reached == |ids| || released == reached + 1)
      ensures reached < |ids| ==>
                offer(reached) == (if strayed then AnswerLost else NeverArrives)
                && !Damped(republished, ids[reached], now, interval * QUIET_PASSES)
      ensures reached == |ids| ==> !strayed
      ensures (forall i :: 0 <= i < |ids| ==> offer(i) == Answers) ==> reached == |ids|
      ensures Places() == LetGoAll(old(Places()), ids[..released]) && Conserved(Places())
      ensures republished == Noted(old(republished), ids[..reached], now, interval * QUIET_PASSES)
      ensures channel.queue == old(channel.queue)
                               + WireOffers(old(republished), ids[..reached], now, interval * QUIET_PASSES)
                               + if strayed then multiset{Wire(ids[reached], None, now)} else multiset{}
      ensures Republished(old(channel.queue), channel.queue, old(republished), republished, ids, reached, strayed, now,
                          interval)
    {
      hide Conserved;
      hide LetGoAll;
      hide Noted;
      hide WireOffers;
      hide Damped;
      hide Distinct;
      ghost var was, memory := channel.queue, republished;
      released, reached, strayed := OfferEach(ids, now, offer);
      NotedIsLatest(memory, ids[..reached], now, interval * QUIET_PASSES);
      if Distinct(ids) {
        forall msg
          ensures WireOffers(memory, ids[..reached], now, interval * QUIET_PASSES)[msg] ==
                  if IsOffer(memory, ids[..reached], now, interval, msg) then 1 else 0
        {
          PassOffers(memory, ids, reached, now, interval, msg);
        }
      }
    }

    /** One orphan, after whatever others have run by then. */
    method OfferOrphan(id: Uuid, ops: seq<JobOp>, at: Time, publish: Fault, mark: Fault) returns (raised: bool)
      requires store.db.Valid() && id in store.db.jobs
      requires AllLand(ops, store.db.sessions)
      modifies channel`queue, store.db
      ensures store.db.Valid() && store.db.sessions.Keys == old(store.db.sessions.Keys)
      ensures channel.queue == old(channel.queue) + WireOf(id, None, at, publish)
      ensures store.db.jobs == AfterOffer(Exec(old(store.db.jobs), ops), id, at, publish, mark)
      ensures raised <==> publish != Answers || mark != Answers
    {
      hide Sound;
      hide Exec;
      ExecKeepsRows(store.db.jobs, ops);
      store.Meanwhile(ops);
      raised := Offer(id, None, at, publish, mark);
    }

    /** The loop over the orphans. */
    method PublishEach(ids: seq<Uuid>, m: Meantime, publish: nat -> Fault, mark: nat -> Fault)
      returns (begun: nat, sent: nat, marked: nat, raised: bool)
      requires store.db.Valid() && Landing(m, store.db.sessions) && forall id :: id in ids ==> id in store.db.jobs
      modifies channel`queue, store.db
      ensures store.db.Valid() && store.db.sessions.Keys == old(store.db.sessions.Keys)
      ensures marked <= sent <= begun <= |ids| && begun <= marked + 1
      ensures !raised ==> begun == sent == marked == |ids|
      ensures (forall i :: 0 <= i < |ids| ==> publish(i) == Answers && mark(i) == Answers) ==> !raised
      ensures channel.queue == old(channel.queue) + WireAll(ids[..sent], m.markAt)
      ensures store.db.jobs == Exec(old(store.db.jobs), OrphanOps(ids, m, marked, begun))
    {
      hide Sound;
      hide Marks;
      hide MarkedRow;
      hide OrphanOps;
      hide WireAll;
      hide Exec;
      ghost var jobs, queue := store.db.jobs, channel.queue;
      begun, sent, marked, raised := 0, 0, 0, false;
      NothingYet(IDLE, map[], jobs, 0, 0, m.markAt);
      assert Marks([], m) == [] by { NoMarks(m); }
      while marked < |ids|
        invariant 0 <= marked == sent == begun <= |ids| && !raised
        invariant store.db.Valid() && store.db.sessions.Keys == old(store.db.sessions.Keys)
        invariant channel.queue == queue + WireAll(ids[..sent], m.markAt)
        invariant store.db.jobs == Exec(jobs, Marks(ids[..marked], m))
      {
        assert ids[..marked + 1] == ids[..marked] + [ids[marked]];
        MarkOneMore(jobs, ids[..marked], ids[marked], m);
        WireOneMore(ids[..marked], ids[marked], m.markAt);
        begun := begun + 1;
        raised := OfferOrphan(ids[marked], m.beforeMark(marked), m.markAt(marked), publish(marked), mark(marked));
        var landed := publish(marked) == Answers && mark(marked) != NeverArrives;
        sent := sent + if publish(marked) == NeverArrives then 0 else 1;
        marked := marked + if landed then 1 else 0;
        OrphanOpsSoFar(ids, m, marked, begun);
        if raised {
          return;
        }
      }
      OrphanOpsSoFar(ids, m, marked, begun);
    }

    /** Publishes each orphan in turn and marks it, until a call raises. Others run their statements beside it. */
    method PublishOrphans(ids: seq<Uuid>, m: Meantime, publish: nat -> Fault, mark: nat -> Fault)
      returns (begun: nat, sent: nat, marked: nat, raised: bool)
      requires store.db.Valid() && Landing(m, store.db.sessions) && forall id :: id in ids ==> id in store.db.jobs
      modifies channel`queue, store.db
      ensures store.db.Valid() && store.db.sessions.Keys == old(store.db.sessions.Keys)
      ensures marked <= sent <= begun <= |ids| && begun <= marked + 1
      ensures !raised ==> begun == sent == marked == |ids|
      ensures (forall i :: 0 <= i < |ids| ==> publish(i) == Answers && mark(i) == Answers) ==> !raised
      ensures channel.queue == old(channel.queue) + WireAll(ids[..sent], m.markAt)
      ensures store.db.jobs == Exec(old(store.db.jobs), OrphanOps(ids, m, marked, begun))
      ensures Distinct(ids) && (forall i :: m.beforeMark(i) == []) ==>
                && store.db.jobs.Keys == old(store.db.jobs).Keys
                && (forall k :: 0 <= k < marked ==>
                      store.db.jobs[ids[k]] == old(store.db.jobs)[ids[k]].(publishedAt := Some(m.markAt(k))))
                && (forall id :: id in store.db.jobs && id !in ids[..marked] ==>
                      store.db.jobs[id] == old(store.db.jobs)[id])
    {
      hide Sound;
      hide Marks;
      hide WireAll;
      hide Exec;
      hide Distinct;
      ghost var jobs := store.db.jobs;
      begun, sent, marked, raised := PublishEach(ids, m, publish, mark);
      OrphanOpsSoFar(ids, m, marked, begun);
      if Distinct(ids) && forall i :: m.beforeMark(i) == [] {
        assert Marks(ids[..marked], m) + [] == Marks(ids[..marked], m);
        DistinctPrefix(ids, marked);
        MarksAlone(jobs, ids[..marked], m);
      }
    }

    /** The pruning that ends a pass. */
    method ForgetQuiet(now: Time)
      modifies this`republished
      ensures republished == Pruned(old(republished), now, interval * QUIET_PASSES)
    {
      republished := map id | id in republished && now - republished[id] < interval * QUIET_PASSES :: republished[id];
    }

    /** The rest of a pass, once nothing was left that no claim may take. */
    method SweepRest(now: Time, calls: PassCalls, m: Meantime)
      returns (lapsed: seq<Uuid>, orphans: seq<Uuid>, got: PassCounts, raised: bool)
      requires Valid() && Landing(m, store.db.sessions)
      modifies this`held, this`republished, channel, store.db
      ensures Valid() && InBounds(got, |lapsed|, |orphans|) && Distinct(lapsed) && Distinct(orphans)
      ensures store.db.sessions.Keys == old(store.db.sessions.Keys)
      ensures AllAnswer(calls) ==> !raised
      ensures calls.findLapsed == Answers ==>
                var table := Exec(old(store.db.jobs), m.beforeLapsed);
                forall id :: id in lapsed <==> id in table && Lapsed(table[id], m.lapsedAt)
      ensures !raised ==>
                var table := Exec(old(store.db.jobs), m.beforeLapsed + m.beforeOrphans);
                && calls.findLapsed == Answers
                && (forall id :: id in orphans <==>
                      id in table && Jobs.Unpublished(table[id], orphanAfter, m.orphansAt))
                && got == PassCounts(|lapsed|, |lapsed|, false, |orphans|, |orphans|, |orphans|)
      ensures store.db.jobs == Exec(old(store.db.jobs), RestOps(calls, m, lapsed, orphans, got))
      ensures Places() == LetGoAll(old(Places()), lapsed[..got.released])
      ensures republished == AfterPass(old(republished), Pass(now, lapsed[..got.reached], !raised),
                                       interval * QUIET_PASSES)
      ensures channel.queue == old(channel.queue)
                + WireOffers(old(republished), lapsed[..got.reached], now, interval * QUIET_PASSES)
                + (if got.strayed then multiset{Wire(lapsed[got.reached], None, now)} else multiset{})
                + WireAll(orphans[..got.sent], m.markAt)
    {
      hide Conserved;
      hide Sound;
      hide LetGoAll;
      hide WireAll;
      hide WireOffers;
      hide Noted;
      hide Lapsed;
      hide Jobs.Unpublished;
      hide Pruned;
      hide Exec;
      hide Republished;
      hide Marks;
      hide AllLand;
      hide EachLands;
      ghost var start := store.db.jobs;
      lapsed, orphans, got, raised := [], [], PassCounts(0, 0, false, 0, 0, 0), true;
      store.Meanwhile(m.beforeLapsed);
      StillLanding(m, old(store.db.sessions), store.db.sessions);
      NothingYet(Places(), republished, store.db.jobs, now, interval * QUIET_PASSES, m.markAt);
      if calls.findLapsed != Answers {
        return;
      }
      lapsed := store.LapsedReservable(m.lapsedAt);
      var released, reached, strayed := OfferLapsed(lapsed, now, calls.offer);
      got := PassCounts(released, reached, strayed, 0, 0, 0);
      if reached < |lapsed| {
        return;
      }
      orphans, got, raised := SweepOrphans(calls, m, start, got);
      if !raised {
        assert lapsed[..|lapsed|] == lapsed;
        ForgetQuiet(now);
      }
    }
    /** Its orphans, after whatever others have done in the meantime. */
    method SweepOrphans(calls: PassCalls, m: Meantime, ghost start: JobMap, reached: PassCounts)
      returns (orphans: seq<Uuid>, got: PassCounts, raised: bool)
      requires store.db.Valid() && Landing(m, store.db.sessions) && store.db.jobs == Exec(start, m.beforeLapsed)
      modifies channel`queue, store.db
      ensures store.db.Valid() && store.db.sessions.Keys == old(store.db.sessions.Keys) && Distinct(orphans)
      ensures got == reached.(begun := got.begun, sent := got.sent, marked := got.marked)
      ensures got.marked <= got.sent <= got.begun <= |orphans| && got.begun <= got.marked + 1
      ensures AllAnswer(calls) ==> !raised
      ensures !raised ==>
                var table := Exec(start, m.beforeLapsed + m.beforeOrphans);
                && (forall id :: id in orphans <==>
                      id in table && Jobs.Unpublished(table[id], orphanAfter, m.orphansAt))
                && got.begun == got.sent == got.marked == |orphans|
      ensures store.db.jobs ==
              Exec(start, m.beforeLapsed + m.beforeOrphans + OrphanOps(orphans, m, got.marked, got.begun))
      ensures channel.queue == old(channel.queue) + WireAll(orphans[..got.sent], m.markAt)
    {
      hide Sound;
      hide WireAll;
      hide Jobs.Unpublished;
      hide Exec;
      hide OrphanOps;
      hide AllLand;
      hide EachLands;
      store.Meanwhile(m.beforeOrphans);
      StillLanding(m, old(store.db.sessions), store.db.sessions);
      ExecThenExec(start, m.beforeLapsed, m.beforeOrphans);
      orphans, got, raised := [], reached.(begun := 0, sent := 0, marked := 0), true;
      NothingYet(IDLE, map[], store.db.jobs, 0, 0, m.markAt);
      NoOrphans(m);
      ExecThenExec(start, m.beforeLapsed + m.beforeOrphans, []);
      if calls.findOrphans != Answers {
        return;
      }
      orphans := store.Unpublished(orphanAfter, m.orphansAt);
      var begun, sent, marked, failed := PublishOrphans(orphans, m, calls.publish, calls.mark);
      ExecThenExec(start, m.beforeLapsed + m.beforeOrphans, OrphanOps(orphans, m, marked, begun));
      got, raised := got.(begun := begun, sent := sent, marked := marked), failed;
    }

    /** The calls of a pass, in order. */
    method MakePass(now: Time, calls: PassCalls, m: Meantime)
      returns (freed: seq<Uuid>, lapsed: seq<Uuid>, orphans: seq<Uuid>, got: PassCounts, raised: bool,
               ghost swept: Committed)
      requires Valid() && Landing(m, store.db.sessions)
      modifies this`held, this`republished, channel, store.db
      ensures Valid() && InBounds(got, |lapsed|, |orphans|) && Distinct(lapsed) && Distinct(orphans)
      ensures AllAnswer(calls) ==> !raised
      ensures if calls.retire == NeverArrives then swept == old(store.db.State()) && freed == []
              else
                exists retired ::
                  && Ran(old(store.db.State()), JobOp.RetireLapsed(m.retireAt), retired, swept)
                  && freed == if calls.retire == Answers then retired else []
      ensures !raised ==>
                var jobs, retire := old(store.db.jobs), JobOp.RetireLapsed(m.retireAt);
                var first := Exec(jobs, [retire] + m.beforeLapsed);
                var second := Exec(jobs, [retire] + (m.beforeLapsed + m.beforeOrphans));
                && (forall id :: id in freed <==> id in jobs && RetireDue(jobs[id], m.retireAt))
                && (forall id :: id in lapsed <==> id in first && Lapsed(first[id], m.lapsedAt))
                && (forall id :: id in orphans <==>
                      id in second && Jobs.Unpublished(second[id], orphanAfter, m.orphansAt))
                && got == PassCounts(|lapsed|, |lapsed|, false, |orphans|, |orphans|, |orphans|)
      ensures store.db.jobs == Exec(old(store.db.jobs), PassOps(calls, m, lapsed, orphans, got))
      ensures Places() == LetGoAll(LetGoAll(old(Places()), freed), lapsed[..got.released])
      ensures republished == AfterPass(old(republished), Pass(now, lapsed[..got.reached], !raised),
                                       interval * QUIET_PASSES)
      ensures channel.queue == old(channel.queue)
                + WireOffers(old(republished), lapsed[..got.reached], now, interval * QUIET_PASSES)
                + (if got.strayed then multiset{Wire(lapsed[got.reached], None, now)} else multiset{})
                + WireAll(orphans[..got.sent], m.markAt)
    {
      hide Conserved;
      hide Sound;
      hide Ran;
      hide LetGoAll;
      hide WireAll;
      hide WireOffers;
      hide Noted;
      hide Exec;
      hide RestOps;
      freed, lapsed, orphans, got, raised := [], [], [], PassCounts(0, 0, false, 0, 0, 0), true;
      ghost var t, retire := store.db.State(), JobOp.RetireLapsed(m.retireAt);
      swept := t;
      NothingYet(Places(), republished, store.db.jobs, now, interval * QUIET_PASSES, m.markAt);
      if calls.retire == NeverArrives {
        return;
      }
      var retired := store.RetireLapsed(m.retireAt);
      swept := store.db.State();
      RanMoves(t, retire, retired, swept);
      OneStatement(t.jobs, retire);
      if calls.retire == AnswerLost {
        return;
      }
      freed := retired;
      LetGoOf(freed);
      lapsed, orphans, got, raised := SweepRest(now, calls, m);
      ExecThenExec(t.jobs, [retire], m.beforeLapsed);
      ExecThenExec(t.jobs, [retire], m.beforeLapsed + m.beforeOrphans);
      ExecThenExec(t.jobs, [retire], RestOps(calls, m, lapsed, orphans, got));
    }

    /** One maintenance pass: finish what no claim may take, offer what a claim may take, publish what never was,
        and forget what has gone quiet, while other processes run their statements between its own. Any call may
        raise, which ends the pass there: `freed` are the retired jobs it let go of, `lapsed` and `orphans` what the
        two queries told it, the counts how far it got, and `swept` the database its first statement left. */
    method Sweep(now: Time, calls: PassCalls, m: Meantime)
      returns (freed: seq<Uuid>, lapsed: seq<Uuid>, orphans: seq<Uuid>, got: PassCounts, raised: bool,
               ghost swept: Committed)
      requires Valid() && Landing(m, store.db.sessions)
      modifies this`held, this`republished, channel, store.db
      ensures Valid() && InBounds(got, |lapsed|, |orphans|) && Distinct(lapsed) && Distinct(orphans)
      ensures var clear := calls.retire == calls.findLapsed == calls.findOrphans == Answers
                           && forall i: nat :: calls.offer(i) == calls.publish(i) == calls.mark(i) == Answers;
              clear ==> !raised
      ensures if calls.retire == NeverArrives then swept == old(store.db.State()) && freed == []
              else
                exists retired ::
                  && Ran(old(store.db.State()), JobOp.RetireLapsed(m.retireAt), retired, swept)
                  && freed == if calls.retire == Answers then retired else []
      ensures !raised ==>
                var jobs, retire := old(store.db.jobs), JobOp.RetireLapsed(m.retireAt);
                var first := Exec(jobs, [retire] + m.beforeLapsed);
                var second := Exec(jobs, [retire] + (m.beforeLapsed + m.beforeOrphans));
                && (forall id :: id in freed <==> id in jobs && RetireDue(jobs[id], m.retireAt))
                && (forall id :: id in lapsed <==> id in first && Lapsed(first[id], m.lapsedAt))
                && (forall id :: id in orphans <==>
                      id in second && Jobs.Unpublished(second[id], orphanAfter, m.orphansAt))
                && got == PassCounts(|lapsed|, |lapsed|, false, |orphans|, |orphans|, |orphans|)
      ensures store.db.jobs == Exec(old(store.db.jobs), PassOps(calls, m, lapsed, orphans, got))
      ensures Places() == LetGoAll(LetGoAll(old(Places()), freed), lapsed[..got.released])
      ensures republished == AfterPass(old(republished), Pass(now, lapsed[..got.reached], !raised),
                                       interval * QUIET_PASSES)
      ensures channel.queue == old(channel.queue)
                + WireOffers(old(republished), lapsed[..got.reached], now, interval * QUIET_PASSES)
                + (if got.strayed then multiset{Wire(lapsed[got.reached], None, now)} else multiset{})
                + WireAll(orphans[..got.sent], m.markAt)
      ensures forall msg :: OnTheWire(old(channel.queue), channel.queue, old(republished), lapsed, orphans, got, now,
                                      interval, m.markAt, msg)
      ensures interval > 0 ==> forall id :: id in lapsed[..got.reached] ==>
                && id in republished
                && republished[id] ==
                   if id in old(republished) && now - old(republished)[id] < 4 * interval then old(republished)[id]
                   else now
    {
      hide Conserved;
      hide Sound;
      hide Ran;
      hide LetGoAll;
      hide WireAll;
      hide WireOffers;
      hide Exec;
      hide PassOps;
      hide AfterPass;
      hide OnTheWire;
      hide Distinct;
      ghost var was, memory := channel.queue, republished;
      freed, lapsed, orphans, got, raised, swept := MakePass(now, calls, m);
      forall msg { PassOnTheWire(was, channel.queue, memory, lapsed, orphans, got, now, interval, m.markAt, msg); }
      if interval > 0 { PassIsRemembered(memory, lapsed[..got.reached], !raised, now, interval); }
    }
  }
}
