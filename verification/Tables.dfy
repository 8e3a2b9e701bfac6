/** The whole database as committed: job rows, session counters, messages, and job events.
    Every job statement records its transitions in the owning session's log, in the same transaction
    (adapters/postgres/job_store.py, `_record_event`; adapters/postgres/chat_repository.py). */
module Tables {
  import opened Basics
  import opened Jobs
  import opened JobTable
  import opened SessionLog
  import opened SessionTransactions

  type SessionMap = map<Uuid, Session>

  datatype Committed = Committed(jobs: JobMap, sessions: SessionMap)

  /** `order` is the order in which the transaction records the rows it changed. */
  datatype TableOp =
    | OnJobs(op: JobOp, order: seq<Uuid>)
    | EnsureSession(session: Uuid)
    | RecordUser(session: Uuid, messageId: Uuid, key: string, text: string)
    | StartAssistant(session: Uuid, messageId: Uuid)
    | FinishMessage(messageId: Uuid, status: Status, newText: Option<string>)

  const NO_TABLES := Committed(map[], map[])

  // ----- recording transitions

  /** Draws the next number of the session and appends the transition under it. A job without a
      session writes nothing. */
  function Recorded(sessions: SessionMap, j: Job): SessionMap
    requires j.sessionId.Some? ==> j.sessionId.value in sessions
  {
    if j.sessionId.None? then sessions
    else
      var s := sessions[j.sessionId.value];
      sessions[j.sessionId.value := s.(nextSeq := s.nextSeq + 1,
                                       events := s.events + [JobEvent(s.nextSeq, j.id, j.state)])]
  }

  predicate SessionsKnown(jobs: JobMap, sessions: SessionMap) {
    forall id :: id in jobs && jobs[id].job.sessionId.Some? ==> jobs[id].job.sessionId.value in sessions
  }

  function RecordAll(sessions: SessionMap, jobs: JobMap, order: seq<Uuid>): (r: SessionMap)
    requires SessionsKnown(jobs, sessions)
    requires forall id :: id in order ==> id in jobs
    ensures r.Keys == sessions.Keys
  {
    if order == [] then sessions
    else Recorded(RecordAll(sessions, jobs, order[..|order| - 1]), jobs[order[|order| - 1]].job)
  }

  /** Does the operation change the state of this row, and therefore record it? Raising the flag on a
      running job, extending a lease, and marking a publish are not transitions. */
  predicate Records(id: Uuid, r: Row, op: JobOp) {
    match op
    case Insert(_, _, _) => false
    case MarkPublished(_, _) => false
    case Extend(_, _, _, _) => false
    case Cancel(j) => id == j && InQueue(r)
    case Claim(j, _, _, _, now) => id == j && Claimable(r, now)
    case RetireLapsed(now) => RetireDue(r, now)
    case Ack(j, token, _) => id == j && Holds(r, token)
    case Nack(j, token, _, _, _) => id == j && Holds(r, token)
  }

  predicate Transitions(jobs: JobMap, op: JobOp, id: Uuid) {
    (Inserts(jobs, op) && id == op.id) || (id in jobs && Records(id, jobs[id], op))
  }

  ghost predicate Lists(order: seq<Uuid>, jobs: JobMap, op: JobOp) {
    && (forall id :: id in order <==> Transitions(jobs, op, id))
    && (forall i, j :: 0 <= i < j < |order| ==> order[i] != order[j])
  }

  // ----- the chat statements

  predicate HasKey(s: Session, key: string) {
    exists i :: 0 <= i < |s.messages| && s.messages[i].clientMsgId == Some(key)
  }

  function Appended(s: Session, id: Uuid, role: Role, status: Status, text: string, key: Option<string>): Session {
    s.(nextSeq := s.nextSeq + 1,
       messages := s.messages + [MessageRow(StoredMessage(s.nextSeq, id, role, status, text), key)])
  }

  function WithUser(s: Session, id: Uuid, key: string, text: string): Session {
    if HasKey(s, key) then s else Appended(s, id, User, Complete, text, Some(key))
  }

  function WithAssistant(s: Session, id: Uuid): Session {
    Appended(s, id, Assistant, Streaming, "", None)
  }

  // ----- one operation

  ghost predicate Enabled(t: Committed, op: TableOp) {
    match op
    case OnJobs(o, order) =>
      && Lists(order, t.jobs, o)
      && (Inserts(t.jobs, o) && o.request.sessionId.Some? ==> o.request.sessionId.value in t.sessions)
    case EnsureSession(_) => true
    case RecordUser(session, _, _, _) => session in t.sessions
    case StartAssistant(session, _) => session in t.sessions
    case FinishMessage(_, _, _) => true
  }

  ghost function After(t: Committed, op: TableOp): Committed
    requires SessionsKnown(t.jobs, t.sessions) && Enabled(t, op)
  {
    match op
    case OnJobs(o, order) =>
      JobsKeepSessions(t, o, order);
      var jobs := JobTable.After(t.jobs, o);
      Committed(jobs, RecordAll(t.sessions, jobs, order))
    case EnsureSession(session) =>
      if session in t.sessions then t else t.(sessions := t.sessions[session := NEW_SESSION])
    case RecordUser(session, id, key, text) =>
      t.(sessions := t.sessions[session := WithUser(t.sessions[session], id, key, text)])
    case StartAssistant(session, id) =>
      t.(sessions := t.sessions[session := WithAssistant(t.sessions[session], id)])
    case FinishMessage(id, status, text) =>
      t.(sessions := FinishAll(t.sessions, id, status, text))
  }

  lemma JobsKeepSessions(t: Committed, o: JobOp, order: seq<Uuid>)
    requires SessionsKnown(t.jobs, t.sessions) && Enabled(t, OnJobs(o, order))
    ensures SessionsKnown(JobTable.After(t.jobs, o), t.sessions)
    ensures forall id :: id in order ==> id in JobTable.After(t.jobs, o)
  {
    forall id | id in t.jobs
      ensures JobTable.After(t.jobs, o)[id].job.sessionId == t.jobs[id].job.sessionId
    {
    }
  }

  ghost predicate Run(t: Committed, ops: seq<TableOp>, t': Committed)
    decreases |ops|
  {
    if ops == [] then t == t'
    else SessionsKnown(t.jobs, t.sessions) && Enabled(t, ops[0]) && Run(After(t, ops[0]), ops[1..], t')
  }

  // ----- replaying a job's events

  predicate Legal(from: JobState, to: JobState) {
    match from
    case Queued => to in {Running, Cancelled}
    case Failed => to in {Running, Cancelled}
    case Running => to in {Running, Done, JobState.Failed, Dead, Cancelled}
    case _ => false
  }

  /** The states a session's events record for one job, in `seq` order. */
  function States(events: seq<JobEvent>, id: Uuid): seq<JobState> {
    if events == [] then []
    else
      var rest, last := States(events[..|events| - 1], id), events[|events| - 1];
      if last.jobId == id then rest + [last.state] else rest
  }

  function Count(path: seq<JobState>, s: JobState): nat {
    if path == [] then 0
    else Count(path[..|path| - 1], s) + if path[|path| - 1] == s then 1 else 0
  }

  /** `path` is a complete account of the life of `j` so far. */
  ghost predicate Replays(path: seq<JobState>, j: Job) {
    && |path| > 0
    && path[0] == Queued
    && path[|path| - 1] == j.state
    && (forall i :: 0 <= i < |path| - 1 ==> Legal(path[i], path[i + 1]))
    && Count(path, Running) == j.attempts
    && |path| == 1 + j.attempts + Count(path, JobState.Failed) + (if j.state.Terminal() then 1 else 0)
    && Count(path, JobState.Failed) <= j.attempts - (if j.state == Running then 1 else 0)
    && Count(path, JobState.Failed) < j.maxAttempts
  }

  lemma StatesOfAppend(events: seq<JobEvent>, e: JobEvent, id: Uuid)
    ensures States(events + [e], id) == if e.jobId == id then States(events, id) + [e.state] else States(events, id)
  {
    assert (events + [e])[..|events|] == events;
  }

  lemma CountOfAppend(path: seq<JobState>, x: JobState, s: JobState)
    ensures Count(path + [x], s) == Count(path, s) + if x == s then 1 else 0
  {
    assert (path + [x])[..|path|] == path;
  }

  lemma PathExtends(path: seq<JobState>, j: Job, j': Job)
    requires Replays(path, j) && Legal(j.state, j'.state)
    requires j'.attempts == j.attempts + (if j'.state == Running then 1 else 0)
    requires j'.maxAttempts == j.maxAttempts
    requires j'.state == JobState.Failed ==> j'.attempts < j'.maxAttempts
    ensures Replays(path + [j'.state], j')
  {
    var path' := path + [j'.state];
    CountOfAppend(path, j'.state, Running);
    CountOfAppend(path, j'.state, JobState.Failed);
    forall i | 0 <= i < |path'| - 1
      ensures Legal(path'[i], path'[i + 1])
    {
      assert path'[i] == path[i];
    }
  }

  lemma StepIsLegal(id: Uuid, r: Row, op: JobOp)
    requires RowInv(r)
    ensures var j, j' := r.job, RowAfter(id, r, op).job;
            && j'.maxAttempts == j.maxAttempts
            && (Records(id, r, op) ==>
                  && Legal(j.state, j'.state)
                  && j'.attempts == j.attempts + (if j'.state == Running then 1 else 0)
                  && (j'.state == JobState.Failed ==> j'.attempts < j'.maxAttempts))
            && (!Records(id, r, op) ==> j'.state == j.state && j'.attempts == j.attempts)
  {
  }

  /** A row that the operation leaves in its state is still told by the same events; a row that it
      moves is told by the same events and one more. */
  lemma StepExtendsReplay(id: Uuid, r: Row, op: JobOp, path: seq<JobState>)
    requires RowInv(r) && Replays(path, r.job)
    ensures Replays(if Records(id, r, op) then path + [RowAfter(id, r, op).job.state] else path,
                    RowAfter(id, r, op).job)
  {
    StepIsLegal(id, r, op);
    if Records(id, r, op) {
      PathExtends(path, r.job, RowAfter(id, r, op).job);
    }
  }

  lemma NewRowReplays(id: Uuid, q: JobRequest, now: Time)
    requires q.maxAttempts > 0
    ensures Replays([Queued], NewRow(id, q, now).job)
  {
    CountOfAppend([], Queued, Running);
    CountOfAppend([], Queued, JobState.Failed);
    assert [Queued] == [] + [Queued];
  }

  /** Recording a list of rows appends, to the story of each listed job, its new state. */
  lemma {:induction false} RecordAllAppends(sessions: SessionMap, jobs: JobMap, order: seq<Uuid>, session: Uuid,
                                            id: Uuid)
    requires SessionsKnown(jobs, sessions) && (forall i :: i in order ==> i in jobs && jobs[i].job.id == i)
    requires forall i, j :: 0 <= i < j < |order| ==> order[i] != order[j]
    requires session in sessions
    ensures var told := States(sessions[session].events, id);
            States(RecordAll(sessions, jobs, order)[session].events, id) ==
            if id in order && jobs[id].job.sessionId == Some(session) then told + [jobs[id].job.state] else told
  {
    if order != [] {
      var init, last := order[..|order| - 1], order[|order| - 1];
      RecordAllAppends(sessions, jobs, init, session, id);
      assert order == init + [last];
      var before := RecordAll(sessions, jobs, init);
      if jobs[last].job.sessionId == Some(session) {
        StatesOfAppend(before[session].events, JobEvent(before[session].nextSeq, last, jobs[last].job.state), id);
      }
    }
  }

  // ----- the invariant of the whole database

  ghost predicate Told(t: Committed, id: Uuid)
    requires id in t.jobs
  {
    forall session :: session in t.sessions ==>
      var path := States(t.sessions[session].events, id);
      if t.jobs[id].job.sessionId == Some(session) then Replays(path, t.jobs[id].job) else path == []
  }

  ghost predicate TablesInv(t: Committed) {
    && TableInv(t.jobs)
    && SessionsKnown(t.jobs, t.sessions)
    && (forall session :: session in t.sessions ==> SessionInv(t.sessions[session]))
    && (forall session, id :: session in t.sessions && id !in t.jobs ==> States(t.sessions[session].events, id) == [])
    && (forall id :: id in t.jobs ==> Told(t, id))
  }

  lemma AppendEventKeepsSession(s: Session, e: JobEvent)
    requires SessionInv(s) && e.seqNo == s.nextSeq
    ensures SessionInv(s.(nextSeq := s.nextSeq + 1, events := s.events + [e]))
  {
    AppendKeepsGapFree(s.nextSeq, MessageEntries(s.messages), EventEntries(s.events), EventEntry(e));
  }

  lemma AppendMessageKeepsSession(s: Session, id: Uuid, role: Role, status: Status, text: string, key: Option<string>)
    requires SessionInv(s)
    ensures SessionInv(Appended(s, id, role, status, text, key))
  {
    var m := StoredMessage(s.nextSeq, id, role, status, text);
    AppendKeepsGapFree(s.nextSeq, MessageEntries(s.messages), EventEntries(s.events), MessageEntry(m));
    hide GapFree;
    assert MessageEntries(s.messages + [MessageRow(m, key)]) == MessageEntries(s.messages) + [MessageEntry(m)];
  }

  lemma {:induction false} RecordAllKeepsSessions(sessions: SessionMap, jobs: JobMap, order: seq<Uuid>)
    requires SessionsKnown(jobs, sessions) && (forall i :: i in order ==> i in jobs)
    requires forall session :: session in sessions ==> SessionInv(sessions[session])
    ensures forall session :: session in RecordAll(sessions, jobs, order) ==>
              SessionInv(RecordAll(sessions, jobs, order)[session])
  {
    hide SessionInv;
    if order != [] {
      RecordAllKeepsSessions(sessions, jobs, order[..|order| - 1]);
      var before, j := RecordAll(sessions, jobs, order[..|order| - 1]), jobs[order[|order| - 1]].job;
      if j.sessionId.Some? {
        var s := before[j.sessionId.value];
        AppendEventKeepsSession(s, JobEvent(s.nextSeq, j.id, j.state));
      }
    }
  }

  lemma JobStepKeepsStory(t: Committed, o: JobOp, order: seq<Uuid>, session: Uuid, id: Uuid)
    requires TablesInv(t) && Enabled(t, OnJobs(o, order)) && session in t.sessions
    ensures Story(After(t, OnJobs(o, order)), session, id)
  {
    hide SessionInv;
    hide Replays;
    hide Records;
    hide RowAfter;
    JobsKeepSessions(t, o, order);
    JobTable.AfterKeepsInv(t.jobs, o);
    var jobs := JobTable.After(t.jobs, o);
    RecordAllAppends(t.sessions, jobs, order, session, id);
    hide JobTable.After;
    hide RecordAll;
    if id in t.jobs {
      assert Told(t, id) && RowInv(t.jobs[id]);
      OldRowAfter(t.jobs, o, id);
      RowAfterKeepsInv(id, t.jobs[id], o);
      hide RowInv;
      if jobs[id].job.sessionId == Some(session) {
        StepExtendsReplay(id, t.jobs[id], o, States(t.sessions[session].events, id));
      }
    } else if id in jobs {
      NewRowAfter(t.jobs, o, id);
      NewRowReplays(id, o.request, o.now);
      assert [] + [Queued] == [Queued];
    }
  }

  lemma JobStepKeepsLogs(t: Committed, o: JobOp, order: seq<Uuid>)
    requires TablesInv(t) && Enabled(t, OnJobs(o, order))
    ensures var t' := After(t, OnJobs(o, order));
            && TableInv(t'.jobs)
            && SessionsKnown(t'.jobs, t'.sessions)
            && t'.sessions.Keys == t.sessions.Keys
            && forall session :: session in t'.sessions ==> SessionInv(t'.sessions[session])
  {
    hide SessionInv;
    hide TableInv;
    hide Told;
    hide Lists;
    JobsKeepSessions(t, o, order);
    JobTable.AfterKeepsInv(t.jobs, o);
    RecordAllKeepsSessions(t.sessions, JobTable.After(t.jobs, o), order);
  }

  /** What every session's events say of every job. */
  ghost predicate Stories(t: Committed) {
    forall session, id :: session in t.sessions ==> Story(t, session, id)
  }

  lemma JobStepKeepsStories(t: Committed, o: JobOp, order: seq<Uuid>)
    requires TablesInv(t) && Enabled(t, OnJobs(o, order))
    ensures Stories(After(t, OnJobs(o, order)))
  {
    JobStepKeepsLogs(t, o, order);
    hide Story;
    hide TablesInv;
    hide Enabled;
    var t' := After(t, OnJobs(o, order));
    hide After;
    forall session, id | session in t'.sessions
      ensures Story(t', session, id)
    {
      JobStepKeepsStory(t, o, order, session, id);
    }
  }

  lemma JobStepKeepsInv(t: Committed, o: JobOp, order: seq<Uuid>)
    requires TablesInv(t) && Enabled(t, OnJobs(o, order))
    ensures TablesInv(After(t, OnJobs(o, order)))
  {
    JobStepKeepsLogs(t, o, order);
    JobStepKeepsStories(t, o, order);
    hide *;
    StoriesMakeInv(After(t, OnJobs(o, order)));
  }

  /** What one session's events say of one job. */
  ghost predicate Story(t: Committed, session: Uuid, id: Uuid)
    requires session in t.sessions
  {
    var path := States(t.sessions[session].events, id);
    if id in t.jobs && t.jobs[id].job.sessionId == Some(session) then Replays(path, t.jobs[id].job) else path == []
  }

  lemma StoriesMakeInv(t: Committed)
    requires TableInv(t.jobs) && SessionsKnown(t.jobs, t.sessions)
    requires forall session :: session in t.sessions ==> SessionInv(t.sessions[session])
    requires Stories(t)
    ensures TablesInv(t)
  {
    hide SessionInv;
    hide Replays;
    hide TableInv;
    forall session, id | session in t.sessions && id !in t.jobs
      ensures States(t.sessions[session].events, id) == []
    {
      assert Story(t, session, id);
    }
    forall id | id in t.jobs
      ensures Told(t, id)
    {
      forall session | session in t.sessions
        ensures Story(t, session, id)
      {
      }
    }
  }

  /** A chat statement moves no job and writes no event, and leaves every session gap-free. */
  lemma ChatStepKeepsSession(t: Committed, op: TableOp, session: Uuid)
    requires TablesInv(t) && !op.OnJobs? && Enabled(t, op)
    requires session in After(t, op).sessions
    ensures SessionInv(After(t, op).sessions[session])
    ensures After(t, op).sessions[session].events == if session in t.sessions then t.sessions[session].events else []
  {
    hide SessionInv;
    match op
    case EnsureSession(_) => NewSessionInv();
    case RecordUser(s, id, key, text) => AppendMessageKeepsSession(t.sessions[s], id, User, Complete, text, Some(key));
    case StartAssistant(s, id) => AppendMessageKeepsSession(t.sessions[s], id, Assistant, Streaming, "", None);
    case FinishMessage(id, status, text) => FinishKeepsSession(t.sessions[session], id, status, text);
  }

  lemma ChatStepKeepsStory(t: Committed, op: TableOp, session: Uuid, id: Uuid)
    requires TablesInv(t) && !op.OnJobs? && Enabled(t, op) && session in After(t, op).sessions
    ensures Story(After(t, op), session, id)
  {
    ChatStepKeepsSession(t, op, session);
    var t' := After(t, op);
    assert t'.jobs == t.jobs;
    SameStory(t, t', session, id);
  }

  lemma SameStory(t: Committed, t': Committed, session: Uuid, id: Uuid)
    requires TablesInv(t) && t'.jobs == t.jobs && session in t'.sessions
    requires t'.sessions[session].events == if session in t.sessions then t.sessions[session].events else []
    ensures Story(t', session, id)
  {
    hide Replays;
    hide SessionInv;
    hide TableInv;
    if id in t.jobs { assert Told(t, id); }
  }

  lemma ChatStepLeavesJobs(t: Committed, op: TableOp)
    requires TablesInv(t) && !op.OnJobs? && Enabled(t, op)
    ensures SessionsKnown(t.jobs, t.sessions) && After(t, op).jobs == t.jobs
    ensures SessionsKnown(t.jobs, After(t, op).sessions) && TableInv(t.jobs)
  {
    hide TableInv;
    hide SessionInv;
    hide Told;
  }

  lemma ChatStepKeepsInv(t: Committed, op: TableOp)
    requires TablesInv(t) && !op.OnJobs? && Enabled(t, op)
    ensures TablesInv(After(t, op))
  {
    hide *;
    ChatStepLeavesJobs(t, op);
    var t' := After(t, op);
    forall session | session in t'.sessions
      ensures SessionInv(t'.sessions[session])
    {
      ChatStepKeepsSession(t, op, session);
    }
    ChatStepKeepsStories(t, op);
    StoriesMakeInv(t');
  }

  lemma ChatStepKeepsStories(t: Committed, op: TableOp)
    requires TablesInv(t) && !op.OnJobs? && Enabled(t, op)
    ensures Stories(After(t, op))
  {
    ChatStepLeavesJobs(t, op);
    hide Story;
    hide TablesInv;
    hide Enabled;
    var t' := After(t, op);
    hide After;
    forall session, id | session in t'.sessions
      ensures Story(t', session, id)
    {
      ChatStepKeepsStory(t, op, session, id);
    }
  }

  lemma {:induction false} RunInv(t: Committed, ops: seq<TableOp>, t': Committed)
    requires TablesInv(t) && Run(t, ops, t')
    ensures TablesInv(t')
    decreases |ops|
  {
    hide TablesInv;
    if ops != [] {
      if ops[0].OnJobs? {
        JobStepKeepsInv(t, ops[0].op, ops[0].order);
      } else {
        ChatStepKeepsInv(t, ops[0]);
      }
      RunInv(After(t, ops[0]), ops[1..], t');
    }
  }

  lemma ToldEnds(path: seq<JobState>, j: Job)
    requires Replays(path, j) && j.attempts <= j.maxAttempts
    ensures |path| <= 2 * j.maxAttempts + 1
    ensures forall i :: 0 <= i < |path| - 1 ==> !path[i].Terminal()
  {
    forall i | 0 <= i < |path| - 1
      ensures !path[i].Terminal()
    {
      assert Legal(path[i], path[i + 1]);
    }
  }

  /** In every reachable database, the events of a job in `seq` order replay to its row: they form a
      legal path from queued to the row's present state, with one running event for each attempt,
      no event after a terminal one, and never more than twice `max_attempts` and one in all. */
  lemma EventsReplayToTheRow(ops: seq<TableOp>, t: Committed, id: Uuid)
    requires Run(NO_TABLES, ops, t) && id in t.jobs && t.jobs[id].job.sessionId.Some?
    ensures t.jobs[id].job.sessionId.value in t.sessions
    ensures var path := States(t.sessions[t.jobs[id].job.sessionId.value].events, id);
            && Replays(path, t.jobs[id].job)
            && |path| <= 2 * t.jobs[id].job.maxAttempts + 1
            && forall i :: 0 <= i < |path| - 1 ==> !path[i].Terminal()
  {
    RunInv(NO_TABLES, ops, t);
    assert Told(t, id);
    hide Replays;
    hide Run;
    hide SessionInv;
    ToldEnds(States(t.sessions[t.jobs[id].job.sessionId.value].events, id), t.jobs[id].job);
  }

  /** In every reachable database, every session's log is gap-free across its two tables. */
  lemma SessionsStayGapFree(ops: seq<TableOp>, t: Committed, session: Uuid)
    requires Run(NO_TABLES, ops, t) && session in t.sessions
    ensures SessionInv(t.sessions[session])
  {
    RunInv(NO_TABLES, ops, t);
  }
}
