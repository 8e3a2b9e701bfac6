/** The handler of one connection: what each client frame makes it send, store and start
    (core/chat_handler.py). Every method that starts or runs a turn is a run of the machine in `ChatTurns`, with
    whatever the rest of the chat does at each of its awaits. */
module ChatHandler {
  import opened Basics
  import opened SessionLog
  import opened Frames
  import W = Connection
  import opened ChatRepository
  import opened ChatTurns
  import opened ChatWeave
  import C = ChatKeys
  import R = ChatStreams
  import O = ChatOutcomes
  import T = Tables
  import X = SessionTransactions
  import S = JobStore

  /** A frame from the client. `Malformed` failed validation; `Newer` speaks a later protocol version. */
  datatype ClientFrame = Malformed | Newer | Ping | Resume(lastSeq: nat) | UserMessage(key: string, text: string)

  // ----- resume

  /** The frame for one row of the log, and the row a replayed frame carries. */
  function Replayed(e: Entry): ServerFrame {
    match e
    case MessageEntry(m) => Message(m)
    case EventEntry(j) => JobStatus(j)
  }

  function EntryOf(f: ServerFrame): Option<Entry> {
    match f
    case Message(m) => Some(MessageEntry(m))
    case JobStatus(j) => Some(EventEntry(j))
    case _ => None
  }

  function AllReplayed(entries: seq<Entry>): (frames: seq<ServerFrame>)
    ensures |frames| == |entries|
    ensures forall i :: 0 <= i < |entries| ==> EntryOf(frames[i]) == Some(entries[i])
    ensures forall i :: 0 <= i < |entries| ==>
              frames[i] == match entries[i]
                           case MessageEntry(m) => Message(m)
                           case EventEntry(j) => JobStatus(j)
  {
    if entries == [] then [] else AllReplayed(entries[..|entries| - 1]) + [Replayed(entries[|entries| - 1])]
  }

  const TOO_OLD := Error(ResumeTooOld, false)

  /** The answer to a resume, given the whole log. */
  function Answer(log: seq<Entry>, lastSeq: nat, limit: nat): seq<ServerFrame> {
    var missed := log[Min(lastSeq, |log|)..];
    if |missed| > limit then [TOO_OLD] else AllReplayed(missed)
  }

  predicate Restores(frames: seq<ServerFrame>, entries: seq<Entry>) {
    |frames| == |entries| && forall i :: 0 <= i < |frames| ==> EntryOf(frames[i]) == Some(entries[i])
  }

  /** A resume is complete or refused, never cut short: a client that holds the log up to `lastSeq` either
      receives precisely the rest of it, consecutively numbered, or, exactly when more than the bound is
      missing, one error and nothing else. */
  lemma ResumeIsCompleteOrRefused(s: Session, lastSeq: nat, limit: nat)
    requires SessionInv(s)
    ensures var log, frames := Log(s), Answer(Log(s), lastSeq, limit);
            if s.nextSeq - 1 - lastSeq > limit then frames == [Error(ResumeTooOld, false)]
            else
              && |frames| == Max(s.nextSeq - 1 - lastSeq, 0)
              && Restores(frames, log[Min(lastSeq, |log|)..])
              && forall i :: 0 <= i < |frames| ==>
                   EntryOf(frames[i]).Some? && EntryOf(frames[i]).value.SeqNo() == lastSeq + 1 + i
  {
    LogIsNumbered(s);
    hide Merge;
    hide SessionInv;
    hide AllReplayed;
  }

  /** One past the bound is enough to tell the two cases apart. */
  lemma OnePastTheBoundDecides(s: Session, lastSeq: nat, limit: nat)
    requires SessionInv(s)
    ensures var found := SessionLog.LogSince(s, lastSeq, limit + 1);
            Answer(Log(s), lastSeq, limit) == if |found| > limit then [TOO_OLD] else AllReplayed(found)
  {
    BoundedMergeIsExact(s, lastSeq, limit + 1);
  }

  // ----- the tasks of a connection, as steps of the machine

  function Chunks(h: nat, m: Uuid, chunks: seq<string>): (steps: seq<Step>)
    ensures |steps| == |chunks|
    ensures forall i :: 0 <= i < |chunks| ==> steps[i] == Chunk(h, m, chunks[i])
  {
    seq(|chunks|, i requires 0 <= i < |chunks| => Chunk(h, m, chunks[i]))
  }

  /** How one turn goes: whether the responder ran out of chunks, or the turn was stopped before; how its final
      write went; whether what stopped it was a cancellation; and how marking it failed went. */
  datatype Fate = Fate(ranOut: bool, complete: Fault, cancelled: bool, fail: Fault)
  {
    predicate Completes() {
      ranOut && complete == Answers
    }
  }

  /** A turn from its first chunk to its last frame. */
  function WholeTurn(h: nat, m: Uuid, chunks: seq<string>, fate: Fate): seq<Step> {
    Chunks(h, m, chunks)
    + (if fate.ranOut then Completion(h, m, fate) else [])
    + (if fate.Completes() then [Announce(h, m)] else Stopping(h, m, fate))
  }

  /** The final write, and whether it lands. */
  function Completion(h: nat, m: Uuid, fate: Fate): seq<Step> {
    [AskComplete(h, m)] + if fate.complete == NeverArrives then [] else [CompleteLands(h, m)]
  }

  /** A turn that was stopped marks its row failed, if it can, and tells the client unless the client is gone. */
  function Stopping(h: nat, m: Uuid, fate: Fate): seq<Step> {
    [Break(h, m)]
    + (if fate.fail == NeverArrives then [] else [FailLands(h, m)])
    + (if fate.cancelled then [] else [Say(h, SORRY)])
  }

  /** What the read loop does with a new message, and how its two writes go. */
  function Starting(h: nat, key: string, text: string, id: Uuid, replyId: Uuid, repeated: bool, record: Fault,
                    open: Fault): seq<Step>
  {
    if record != Answers then [RecordFails(h, key, text, id, record == AnswerLost)]
    else if repeated then [RecordLands(h, key, text, id), Reack(h)]
    else if open != Answers then [RecordLands(h, key, text, id), StartFails(h, replyId, open == AnswerLost)]
    else [RecordLands(h, key, text, id), StartLands(h, replyId), StartReturns(h)]
  }

  /** Nothing but these frames was sent. */
  function Telling(c: Chat, h: nat, frames: seq<ServerFrame>): Chat
    requires h in c.handlers
  {
    c.(handlers := c.handlers[h := c.handlers[h].(sent := c.handlers[h].sent + frames)])
  }

  /** A step of one connection changes that connection, the rows, and what has been opened. */
  lemma OneMoves(c: Chat, step: Step)
    requires OfHandler(step) && step.h in c.handlers
    ensures After(c, step) == Chat(SessionsAfter(c, step),
                                   c.handlers[step.h := HandlerAfter(c, step, c.handlers[step.h])],
                                   c.openings + NewOpenings(c, step))
  {
  }

  /** The row a key stored is the one the repository finds. */
  lemma TheStored(s: Session, key: string, m: StoredMessage)
    requires C.KeysOnce(s) && T.HasKey(s, key) && Stores(s, key, m)
    ensures TheKeyed(s, key) == m
  {
    var i :| 0 <= i < |s.messages| && s.messages[i].clientMsgId == Some(key) && s.messages[i].stored == m;
    assert i == FirstKeyed(s.messages, key);
  }

  lemma RecordMoves(c: Chat, step: Step, cap: nat, message: StoredMessage, created: bool)
    requires Enabled(c, step, cap) && step.RecordLands? && C.KeysOnce(c.sessions[c.handlers[step.h].session])
    requires var s := c.sessions[c.handlers[step.h].session];
             && (created <==> !T.HasKey(s, step.key))
             && (if created then message == StoredMessage(s.nextSeq, step.id, User, Complete, step.text)
                 else Stores(s, step.key, message))
    ensures var x := c.handlers[step.h];
            && After(c, step).sessions ==
               c.sessions[x.session := T.WithUser(c.sessions[x.session], step.id, step.key, step.text)]
            && After(c, step).handlers == c.handlers[step.h := x.(reading := Recorded(step.key, message, created))]
            && After(c, step).openings == c.openings
  {
    OneMoves(c, step);
    var s := c.sessions[c.handlers[step.h].session];
    if !created { TheStored(s, step.key, message); }
    hide After;
    hide Fresh;
    hide T.WithUser;
    hide TheKeyed;
    hide C.KeysOnce;
    assert c.openings + [] == c.openings;
  }

  lemma RecordFailureMoves(c: Chat, step: Step, cap: nat)
    requires Enabled(c, step, cap) && step.RecordFails?
    ensures var x := c.handlers[step.h];
            && After(c, step).sessions ==
               (if step.landed
                then c.sessions[x.session := T.WithUser(c.sessions[x.session], step.id, step.key, step.text)]
                else c.sessions)
            && After(c, step).handlers == c.handlers[step.h := Sending(x, SORRY)]
            && After(c, step).openings == c.openings
  {
    OneMoves(c, step);
    hide After;
    hide Fresh;
    hide T.WithUser;
    assert c.openings + [] == c.openings;
  }

  lemma OpeningMoves(c: Chat, step: Step, cap: nat)
    requires Enabled(c, step, cap) && step.StartLands?
    ensures var x := c.handlers[step.h];
            var reply := StoredMessage(c.sessions[x.session].nextSeq, step.id, Assistant, Streaming, "");
            && After(c, step).sessions == c.sessions[x.session := T.WithAssistant(c.sessions[x.session], step.id)]
            && After(c, step).handlers ==
               c.handlers[step.h := x.(reading := Opened(x.reading.key, x.reading.message, reply))]
            && After(c, step).openings == c.openings + [Opening(x.session, x.reading.key, step.id)]
  {
    OneMoves(c, step);
    hide After;
    hide Fresh;
    hide T.WithAssistant;
  }

  lemma OpeningFailureMoves(c: Chat, step: Step, cap: nat)
    requires Enabled(c, step, cap) && step.StartFails?
    ensures var x := c.handlers[step.h];
            && After(c, step).sessions ==
               (if step.landed then c.sessions[x.session := T.WithAssistant(c.sessions[x.session], step.id)]
                else c.sessions)
            && After(c, step).handlers == c.handlers[step.h := Sending(x, SORRY).(reading := Between)]
            && After(c, step).openings ==
               c.openings + if step.landed then [Opening(x.session, x.reading.key, step.id)] else []
  {
    OneMoves(c, step);
    hide After;
    hide Fresh;
    hide T.WithAssistant;
  }

  /** A step that writes no message row. */
  lemma QuietMoves(c: Chat, step: Step, cap: nat)
    requires Enabled(c, step, cap) && OfHandler(step)
    requires step.Say? || step.Reack? || step.StartReturns? || step.Chunk? || step.AskComplete? || step.Announce?
             || step.Break? || step.TurnEnds?
    ensures step.h in c.handlers
    ensures After(c, step) == c.(handlers := c.handlers[step.h := HandlerAfter(c, step, c.handlers[step.h])])
  {
    C.ConnectsAfresh(c, step, cap, step.h);
    OneMoves(c, step);
    hide After;
    hide Enabled;
    hide HandlerAfter;
    assert c.openings + [] == c.openings;
  }

  /** A step of a read loop that says one thing and is done. */
  lemma ReackMoves(c: Chat, h: nat, cap: nat, key: string, message: StoredMessage)
    requires h in c.handlers && c.handlers[h].reading == Recorded(key, message, false)
    ensures var x := c.handlers[h];
            var ack := Ack(key, message.seqNo, message.messageId, if key in x.live then Some(x.live[key]) else None);
            && Enabled(c, Reack(h), cap)
            && After(c, Reack(h)) == c.(handlers := c.handlers[h := x.(sent := x.sent + [ack], reading := Between)])
  {
    QuietMoves(c, Reack(h), cap);
    hide After;
  }

  lemma SpawnMoves(c: Chat, h: nat, cap: nat, key: string, message: StoredMessage, reply: StoredMessage)
    requires h in c.handlers && c.handlers[h].reading == Opened(key, message, reply)
    ensures var x, m := c.handlers[h], reply.messageId;
            && Enabled(c, StartReturns(h), cap)
            && After(c, StartReturns(h)) ==
               c.(handlers := c.handlers[h :=
                    x.(sent := x.sent + [Ack(key, message.seqNo, message.messageId, Some(m))],
                       live := x.live[key := m], turns := x.turns[m := Turn(key, reply.seqNo, [], Speaking)],
                       tasks := x.tasks + {m}, reading := Between)])
  {
    QuietMoves(c, StartReturns(h), cap);
    hide After;
  }

  /** A final write. */
  lemma FinishingMoves(c: Chat, step: Step, cap: nat)
    requires Enabled(c, step, cap) && (step.CompleteLands? || step.FailLands?)
    ensures var x := c.handlers[step.h];
            && After(c, step).sessions ==
               (if step.CompleteLands?
                then X.FinishAll(c.sessions, step.m, Complete, Some(Concat(x.turns[step.m].chunks)))
                else X.FinishAll(c.sessions, step.m, Status.Failed, None))
            && After(c, step).handlers ==
               c.handlers[step.h := if step.CompleteLands? && x.turns[step.m].phase == Completing
                                    then InPhase(x, step.m, Stored) else x]
            && After(c, step).openings == c.openings
  {
    OneMoves(c, step);
    hide After;
    hide X.FinishAll;
    hide Concat;
    hide InPhase;
    assert c.openings + [] == c.openings;
  }

  /** A step of a running turn that writes no row: one frame at most, and the turn moves on. */
  lemma TurnMoves(c: Chat, step: Step, cap: nat, x': Handler)
    requires Enabled(c, step, cap) && (step.Chunk? || step.AskComplete? || step.Announce? || step.Break? || step.Say?)
    requires x' == HandlerAfter(c, step, c.handlers[step.h])
    ensures After(c, step) == c.(handlers := c.handlers[step.h := x'])
  {
    QuietMoves(c, step, cap);
    hide After;
  }

  lemma ChunkMoves(c: Chat, h: nat, m: Uuid, text: string, cap: nat)
    requires h in c.handlers && m in c.handlers[h].turns && m in c.handlers[h].tasks
    requires c.handlers[h].turns[m].phase == Speaking
    ensures var x, t, step := c.handlers[h], c.handlers[h].turns[m], Chunk(h, m, text);
            && Enabled(c, step, cap)
            && After(c, step) == c.(handlers := c.handlers[h :=
                 x.(sent := x.sent + [Delta(m, |t.chunks|, text)],
                    turns := x.turns[m := t.(chunks := t.chunks + [text])])])
  {
    TurnMoves(c, Chunk(h, m, text), cap, HandlerAfter(c, Chunk(h, m, text), c.handlers[h]));
    hide After;
  }

  /** A turn that only changes phase. */
  lemma PhaseMoves(c: Chat, step: Step, cap: nat)
    requires step.AskComplete? || step.Break?
    requires step.h in c.handlers && step.m in c.handlers[step.h].turns && step.m in c.handlers[step.h].tasks
    requires var phase := c.handlers[step.h].turns[step.m].phase;
             phase == Speaking || (step.Break? && phase in {Completing, Stored})
    ensures var x, t := c.handlers[step.h], c.handlers[step.h].turns[step.m];
            && Enabled(c, step, cap)
            && After(c, step) == c.(handlers := c.handlers[step.h :=
                 x.(turns := x.turns[step.m := t.(phase := if step.Break? then Broken else Completing)])])
  {
    TurnMoves(c, step, cap, HandlerAfter(c, step, c.handlers[step.h]));
    hide After;
  }

  lemma AnnounceMoves(c: Chat, h: nat, m: Uuid, cap: nat)
    requires h in c.handlers && m in c.handlers[h].turns && m in c.handlers[h].tasks
    requires c.handlers[h].turns[m].phase == Stored
    ensures var x, t, step := c.handlers[h], c.handlers[h].turns[m], Announce(h, m);
            && Enabled(c, step, cap)
            && After(c, step) == c.(handlers := c.handlers[h :=
                 x.(sent := x.sent + [Done(m, t.seqNo)], turns := x.turns[m := t.(phase := Announced)])])
  {
    TurnMoves(c, Announce(h, m), cap, HandlerAfter(c, Announce(h, m), c.handlers[h]));
    hide After;
  }

  lemma SorryMoves(c: Chat, h: nat, cap: nat)
    requires h in c.handlers
    ensures Enabled(c, ChatTurns.Say(h, SORRY), cap)
    ensures After(c, ChatTurns.Say(h, SORRY)) == Telling(c, h, [SORRY])
  {
    TurnMoves(c, ChatTurns.Say(h, SORRY), cap, Sending(c.handlers[h], SORRY));
    hide After;
  }

  lemma CompletionMoves(c: Chat, h: nat, m: Uuid, cap: nat)
    requires h in c.handlers && m in c.handlers[h].turns && c.handlers[h].turns[m].phase == Completing
    ensures var x, t, step := c.handlers[h], c.handlers[h].turns[m], CompleteLands(h, m);
            && Enabled(c, step, cap)
            && After(c, step) ==
               c.(sessions := X.FinishAll(c.sessions, m, Complete, Some(Concat(t.chunks))),
                  handlers := c.handlers[h := x.(turns := x.turns[m := t.(phase := Stored)])])
  {
    FinishingMoves(c, CompleteLands(h, m), cap);
    hide After;
    hide X.FinishAll;
    hide Concat;
  }

  lemma FailureMoves(c: Chat, h: nat, m: Uuid, cap: nat)
    requires h in c.handlers && m in c.handlers[h].turns && c.handlers[h].turns[m].phase == Broken
    ensures Enabled(c, FailLands(h, m), cap)
    ensures After(c, FailLands(h, m)) == c.(sessions := X.FinishAll(c.sessions, m, Status.Failed, None))
  {
    FinishingMoves(c, FailLands(h, m), cap);
    hide After;
    hide X.FinishAll;
    assert c.handlers[h := c.handlers[h]] == c.handlers;
  }

  // ----- the steps of a turn, by position

  lemma TurnSteps(h: nat, m: Uuid, words: seq<string>, fate: Fate)
    ensures var own, n := WholeTurn(h, m, words, fate), |words|;
            var done := n + if fate.ranOut then |Completion(h, m, fate)| else 0;
            && n <= done <= |own|
            && (forall i :: 0 <= i < n ==> own[i] == Chunk(h, m, words[i]))
            && (fate.ranOut ==> own[n..done] == Completion(h, m, fate))
            && own[done..] == if fate.Completes() then [Announce(h, m)] else Stopping(h, m, fate)
  {
  }

  /** What a gap leaves, as one connection sees it. */
  lemma GapLeaves(c: Chat, g: Gap, cap: nat, h: nat)
    requires Run(c, g.steps, cap, g.to) && h in c.handlers
    ensures h in g.to.handlers && g.to.handlers[h].session == c.handlers[h].session
    ensures c.sessions.Keys <= g.to.sessions.Keys
    ensures var sent := g.to.handlers[h].sent;
            Spoken(g.steps, h) <= |sent| && c.handlers[h].sent + sent[|sent| - Spoken(g.steps, h)..] == sent
  {
    hide *;
    C.SentIsKept(c, g.steps, cap, g.to, h);
    SessionsAreKept(c, g.steps, cap, g.to);
    SpokenIsSent(c, g.steps, cap, g.to, h);
  }

  /** A turn on its way: where it started, the steps it takes, and what happens between them. */
  datatype Track = Track(start: Chat, own: seq<Step>, gaps: seq<Gap>, m: Uuid, seqNo: nat)

  /** A turn that has taken a step and awaits finds itself as it was. */
  lemma GapKeepsTurn(start: Chat, own: seq<Step>, gaps: seq<Gap>, i: nat, cap: nat, h: nat, m: Uuid, t: Turn)
    requires Fits(start, own, gaps, cap) && TurnWaits(gaps, h, m) && i < |own| == |gaps|
    requires R.Owned(Before(start, gaps, i)) && Run(start, Woven(own, gaps, i), cap, Before(start, gaps, i))
    requires Enabled(Before(start, gaps, i), own[i], cap) && Runs(After(Before(start, gaps, i), own[i]), h, m, t)
    ensures Run(After(Before(start, gaps, i), own[i]), gaps[i].steps, cap, gaps[i].to)
    ensures Before(start, gaps, i + 1) == gaps[i].to && Run(start, Woven(own, gaps, i + 1), cap, gaps[i].to)
    ensures R.Owned(gaps[i].to) && Runs(gaps[i].to, h, m, t)
  {
    assert NoneTurns(gaps[i].steps, h, m);
    var c := Before(start, gaps, i);
    hide *;
    WeaveOneMore(start, own, gaps, i, cap);
    R.OwnedStays(c, own[i], cap);
    OwnedIsKept(After(c, own[i]), gaps[i].steps, cap, gaps[i].to);
    TurnIsKept(After(c, own[i]), gaps[i].steps, cap, gaps[i].to, h, m, t);
  }

  lemma TurnAwaits(start: Chat, own: seq<Step>, gaps: seq<Gap>, i: nat, cap: nat, h: nat, m: Uuid, t: Turn)
    requires Fits(start, own, gaps, cap) && TurnWaits(gaps, h, m) && i < |own| == |gaps|
    requires R.Owned(Before(start, gaps, i)) && Enabled(Before(start, gaps, i), own[i], cap)
    requires Runs(After(Before(start, gaps, i), own[i]), h, m, t)
    ensures O.RowsStay(After(Before(start, gaps, i), own[i]).sessions, gaps[i].to.sessions, m)
  {
    assert GapFits(start, own, gaps, i, cap) && NoneTurns(gaps[i].steps, h, m);
    var c := Before(start, gaps, i);
    assert Run(After(c, own[i]), gaps[i].steps, cap, gaps[i].to);
    hide *;
    O.AwaitKeepsRows(c, own[i], gaps[i], cap, h, m, t);
  }

  class ConnectionHandler {
    const me: nat
    const session: Uuid
    const conn: W.Connection
    const repo: PostgresChatRepository
    const cap: nat
    const resumeMax: nat
    var turns: set<Uuid>
    var liveReplies: map<string, Uuid>
    ghost var streams: map<Uuid, Turn>
    ghost var reading: Reading
    ghost var others: map<nat, Handler>
    ghost var openings: seq<Opening>

    ghost predicate Valid()
      reads this, conn, repo.db
    {
      && conn.Valid()
      && repo.db.Valid()
      && (session in repo.db.sessions ==> C.KeysOnce(repo.db.sessions[session]))
    }

    ghost function Mine(): Handler
      reads this, conn
    {
      Handler(session, conn.history.sent, streams, turns, liveReplies, reading)
    }

    /** The whole chat, with this connection in it. */
    ghost function World(): Chat
      reads this, conn, repo.db
    {
      Chat(repo.db.sessions, others[me := Mine()], openings)
    }

    constructor (me: nat, session: Uuid, conn: W.Connection, repo: PostgresChatRepository, cap: nat, resumeMax: nat,
                 ghost others: map<nat, Handler>, ghost openings: seq<Opening>)
      ensures this.me == me && this.session == session && this.conn == conn && this.repo == repo
      ensures this.cap == cap && this.resumeMax == resumeMax
      ensures this.others == others && this.openings == openings
      ensures turns == {} && liveReplies == map[] && streams == map[] && reading == Between
    {
      this.me, this.session, this.conn, this.repo, this.cap, this.resumeMax := me, session, conn, repo, cap, resumeMax;
      turns, liveReplies, streams, reading := {}, map[], map[], Between;
      this.others, this.openings := others, openings;
    }

    // ----- awaiting

    /** One frame, for the writer to send when it can. */
    method Say(f: ServerFrame)
      requires conn.Valid()
      modifies conn
      ensures conn.Valid() && conn.history.sent == old(conn.history.sent) + [f]
    {
      hide W.PipeInv;
      conn.Send(f);
    }

    /** Sends frames in order. */
    method SayAll(frames: seq<ServerFrame>)
      requires conn.Valid()
      modifies conn
      ensures conn.Valid() && conn.history.sent == old(conn.history.sent) + frames
    {
      hide W.PipeInv;
      assert frames[..0] == [];
      for i := 0 to |frames|
        invariant conn.Valid()
        invariant conn.history.sent == old(conn.history.sent) + frames[..i]
      {
        Say(frames[i]);
        assert frames[..i + 1] == frames[..i] + [frames[i]];
      }
      assert frames[..|frames|] == frames;
    }

    /** The rest of the chat has its turn: `g.to` is the state it leaves, and the frames this connection's other
        tasks send in the meantime go out here. */
    method Elsewhere(g: Gap)
      requires Valid() && Run(World(), g.steps, cap, g.to)
      modifies this, conn, repo.db`sessions
      ensures Valid() && World() == g.to && me in g.to.handlers && Mine() == g.to.handlers[me]
    {
      GapLeaves(World(), g, cap, me);
      SessionIsKept(World(), g.steps, cap, g.to, session);
      SoundGrows(repo.db.State(), g.to.sessions);
      hide Run;
      hide S.Sound;
      hide C.KeysOnce;
      hide W.PipeInv;
      hide Spoken;
      var x := g.to.handlers[me];
      SayAll(x.sent[|x.sent| - Spoken(g.steps, me)..]);
      repo.db.sessions := g.to.sessions;
      turns, liveReplies := x.tasks, x.live;
      streams, reading, others, openings := x.turns, x.reading, g.to.handlers, g.to.openings;
      assert others[me := Mine()] == others;
    }

    // ----- resume

    /** What a read of the log makes it say, after the rest of the chat had its turn. */
    method SayMissed(missed: seq<Entry>, g: Gap)
      requires Valid() && Run(World(), g.steps, cap, g.to)
      modifies this, conn, repo.db`sessions
      ensures Valid() && me in g.to.handlers
      ensures World() == Telling(g.to, me, if |missed| > resumeMax then [TOO_OLD] else AllReplayed(missed))
    {
      hide S.Sound;
      hide C.KeysOnce;
      hide Run;
      hide W.PipeInv;
      hide AllReplayed;
      Elsewhere(g);
      if |missed| > resumeMax {
        Say(TOO_OLD);
      } else {
        Replay(missed);
      }
      assert others[me := Mine()] == g.to.handlers[me := Mine()];
    }

    /** Replays what the session recorded after `lastSeq` when it was read, or refuses, or raises with nothing said.
        The chat goes on between the reading and the sending. */
    method Resume(lastSeq: nat, read: Fault, g: Gap) returns (raised: bool)
      requires Valid() && (read == Answers ==> Run(World(), g.steps, cap, g.to))
      modifies this, conn, repo.db`sessions
      ensures Valid()
      ensures raised <==> read != Answers
      ensures raised ==> World() == old(World())
      ensures !raised ==> me in g.to.handlers
      ensures !raised && session !in old(repo.db.sessions) ==> World() == Telling(g.to, me, [])
      ensures !raised && session in old(repo.db.sessions) && SessionInv(old(repo.db.sessions)[session]) ==>
                World() == Telling(g.to, me, Answer(Log(old(repo.db.sessions)[session]), lastSeq, resumeMax))
    {
      if read != Answers {
        return true;
      }
      raised := false;
      var missed := repo.LogSince(session, lastSeq, resumeMax + 1);
      if session in repo.db.sessions && SessionInv(repo.db.sessions[session]) {
        OnePastTheBoundDecides(repo.db.sessions[session], lastSeq, resumeMax);
      }
      assert session !in repo.db.sessions ==> AllReplayed(missed) == [];
      hide *;
      SayMissed(missed, g);
    }

    method Replay(entries: seq<Entry>)
      requires conn.Valid()
      modifies conn
      ensures conn.Valid() && conn.history.sent == old(conn.history.sent) + AllReplayed(entries)
    {
      hide W.PipeInv;
      assert entries[..0] == [];
      for i := 0 to |entries|
        invariant conn.Valid()
        invariant conn.history.sent == old(conn.history.sent) + AllReplayed(entries[..i])
      {
        Say(Replayed(entries[i]));
        assert entries[..i + 1][..i] == entries[..i];
      }
      assert entries[..|entries|] == entries;
    }

    // ----- the read loop, one await at a time

    /** The message is recorded, or found recorded. */
    method Record(key: string, text: string, id: Uuid) returns (r: Option<RecordedUserMessage>)
      requires Valid() && reading.Between? && |turns| < cap && Fresh(World(), id)
      modifies this`reading, repo.db`sessions
      ensures Valid()
      ensures r.None? <==> session !in old(repo.db.sessions)
      ensures r.None? ==> World() == old(World()) && reading == old(reading)
      ensures r.Some? ==>
                var step := RecordLands(me, key, text, id);
                && (r.value.created <==> !T.HasKey(old(repo.db.sessions)[session], key))
                && reading == Recorded(key, r.value.message, r.value.created)
                && Enabled(old(World()), step, cap) && World() == After(old(World()), step)
    {
      ghost var c, step := World(), RecordLands(me, key, text, id);
      hide S.Sound;
      hide W.PipeInv;
      hide T.HasKey;
      hide Stores;
      hide T.WithUser;
      hide C.KeysOnce;
      hide Fresh;
      var recorded := repo.RecordUserMessage(session, key, text, id);
      if recorded.Err? {
        return None;
      }
      r := Some(recorded.value);
      reading := Recorded(key, recorded.value.message, recorded.value.created);
      RecordMoves(c, step, cap, recorded.value.message, recorded.value.created);
      OneStepKeepsSession(c, step, cap, session);
      hide After;
      hide Enabled;
      assert World().handlers == c.handlers[me := Mine()];
    }

    /** A recording that raised: its row may be there all the same, and the client has still to be told. */
    method RecordUnheard(key: string, text: string, id: Uuid, landed: bool)
      requires Valid() && reading.Between? && |turns| < cap && Fresh(World(), id) && session in repo.db.sessions
      modifies repo.db`sessions
      ensures Valid()
      ensures var step := RecordFails(me, key, text, id, landed);
              Enabled(old(World()), step, cap) && Telling(World(), me, [SORRY]) == After(old(World()), step)
    {
      ghost var c, step := World(), RecordFails(me, key, text, id, landed);
      hide S.Sound;
      hide W.PipeInv;
      hide T.HasKey;
      hide Stores;
      hide T.WithUser;
      hide C.KeysOnce;
      hide Fresh;
      RecordFailureMoves(c, step, cap);
      OneStepKeepsSession(c, step, cap, session);
      if landed {
        var _ := repo.RecordUserMessage(session, key, text, id);
      }
      hide After;
      hide Enabled;
      assert Telling(World(), me, [SORRY]).handlers == c.handlers[me := Sending(c.handlers[me], SORRY)];
    }

    /** The same acknowledgement again, with its reply if that is still running here. */
    method AckAgain(key: string, message: StoredMessage)
      requires Valid() && reading == Recorded(key, message, false)
      modifies conn, this`reading
      ensures Valid() && reading.Between?
      ensures Enabled(old(World()), Reack(me), cap) && World() == After(old(World()), Reack(me))
    {
      ReackMoves(World(), me, cap, key, message);
      hide S.Sound;
      hide W.PipeInv;
      hide C.KeysOnce;
      hide After;
      hide Enabled;
      Say(Ack(key, message.seqNo, message.messageId,
                    if key in liveReplies then Some(liveReplies[key]) else None));
      reading := Between;
      assert World().handlers == old(World()).handlers[me := Mine()];
    }

    /** The reply's row is opened. */
    method OpenRow(replyId: Uuid) returns (reply: StoredMessage)
      requires Valid() && reading.Recorded? && reading.created && session in repo.db.sessions && Fresh(World(), replyId)
      modifies this`reading, this`openings, repo.db`sessions
      ensures Valid() && reading == Opened(old(reading).key, old(reading).message, reply)
      ensures var step := StartLands(me, replyId);
              Enabled(old(World()), step, cap) && World() == After(old(World()), step)
    {
      ghost var c, step := World(), StartLands(me, replyId);
      hide S.Sound;
      hide W.PipeInv;
      hide T.WithAssistant;
      hide C.KeysOnce;
      hide Fresh;
      OpeningMoves(c, step, cap);
      OneStepKeepsSession(c, step, cap, session);
      hide After;
      hide Enabled;
      var started := repo.StartAssistantMessage(session, replyId);
      reply := started.value;
      openings := openings + [Opening(session, reading.key, replyId)];
      reading := Opened(reading.key, reading.message, reply);
      assert World().handlers == c.handlers[me := Mine()];
    }

    /** An opening that raised: its row may be there all the same, and nobody knows of it. */
    method OpenUnheard(replyId: Uuid, landed: bool)
      requires Valid() && reading.Recorded? && reading.created && session in repo.db.sessions && Fresh(World(), replyId)
      modifies this`reading, this`openings, repo.db`sessions
      ensures Valid() && reading.Between?
      ensures var step := StartFails(me, replyId, landed);
              Enabled(old(World()), step, cap) && Telling(World(), me, [SORRY]) == After(old(World()), step)
    {
      ghost var c, step := World(), StartFails(me, replyId, landed);
      hide S.Sound;
      hide W.PipeInv;
      hide T.WithAssistant;
      hide C.KeysOnce;
      hide Fresh;
      OpeningFailureMoves(c, step, cap);
      OneStepKeepsSession(c, step, cap, session);
      hide After;
      hide Enabled;
      if landed {
        var _ := repo.StartAssistantMessage(session, replyId);
        openings := openings + [Opening(session, reading.key, replyId)];
      }
      reading := Between;
      assert openings == c.openings + if landed then [Opening(session, c.handlers[me].reading.key, replyId)] else [];
      assert Telling(World(), me, [SORRY]).handlers ==
             c.handlers[me := Sending(c.handlers[me], SORRY).(reading := Between)];
    }

    /** Both are acknowledged, and the turn is spawned. */
    method Spawn(key: string, message: StoredMessage, reply: StoredMessage)
      requires Valid() && reading == Opened(key, message, reply)
      modifies this, conn
      ensures Valid() && reading.Between?
      ensures Enabled(old(World()), StartReturns(me), cap) && World() == After(old(World()), StartReturns(me))
    {
      SpawnMoves(World(), me, cap, key, message, reply);
      hide S.Sound;
      hide W.PipeInv;
      hide C.KeysOnce;
      hide After;
      hide Enabled;
      liveReplies := liveReplies[key := reply.messageId];
      Say(Ack(key, message.seqNo, message.messageId, Some(reply.messageId)));
      turns := turns + {reply.messageId};
      streams := streams[reply.messageId := Turn(key, reply.seqNo, [], Speaking)];
      reading := Between;
      assert World().handlers == old(World()).handlers[me := Mine()];
    }

    // ----- starting a turn

    /** What a task and the gaps between its steps must be for the task to run: the read loop is never anybody
        else's, and the reply's identity is still unused when its row is opened. */
    ghost predicate ReadyToRead(own: seq<Step>, gaps: seq<Gap>, replyId: Uuid)
      reads this, conn, repo.db
    {
      && Fits(World(), own, gaps, cap) && ReadLoopWaits(gaps, me)
      && (|own| > 1 ==> Fresh(gaps[0].to, replyId))
    }

    /** The read loop's next step has been taken, and the rest of the chat has its turn. */
    method Onward(ghost start: Chat, ghost own: seq<Step>, gaps: seq<Gap>, i: nat)
      requires Valid() && Fits(start, own, gaps, cap) && ReadLoopWaits(gaps, me) && i < |own|
      requires Run(start, Woven(own, gaps, i), cap, Before(start, gaps, i))
      requires Enabled(Before(start, gaps, i), own[i], cap) && World() == After(Before(start, gaps, i), own[i])
      modifies this, conn, repo.db`sessions
      ensures Valid() && World() == gaps[i].to && World() == Before(start, gaps, i + 1)
      ensures Run(start, Woven(own, gaps, i + 1), cap, World())
      ensures reading == old(reading) && (old(session in repo.db.sessions) ==> session in repo.db.sessions)
    {
      WeaveOneMore(start, own, gaps, i, cap);
      ReadingIsKept(World(), gaps[i].steps, cap, gaps[i].to, me);
      SessionsAreKept(World(), gaps[i].steps, cap, gaps[i].to);
      hide Run;
      hide Enabled;
      hide After;
      hide Fits;
      hide Woven;
      hide S.Sound;
      hide C.KeysOnce;
      hide W.PipeInv;
      Elsewhere(gaps[i]);
    }

    /** The rest of it for a message that was stored already. */
    method AnswerAgain(ghost start: Chat, ghost own: seq<Step>, gaps: seq<Gap>, key: string, message: StoredMessage)
      requires Valid() && Fits(start, own, gaps, cap) && ReadLoopWaits(gaps, me) && |own| == |gaps| == 2
      requires own[1] == Reack(me) && reading == Recorded(key, message, false)
      requires World() == Before(start, gaps, 1) && Run(start, Woven(own, gaps, 1), cap, World())
      modifies this, conn, repo.db`sessions
      ensures Valid() && reading.Between? && Run(start, Woven(own, gaps, 2), cap, World())
    {
      hide Run;
      hide Enabled;
      hide After;
      hide Fits;
      hide Woven;
      hide ReadLoopWaits;
      hide S.Sound;
      hide C.KeysOnce;
      hide W.PipeInv;
      AckAgain(key, message);
      Onward(start, own, gaps, 1);
    }

    /** The rest of it for a new one. */
    method OpenReply(ghost start: Chat, ghost own: seq<Step>, gaps: seq<Gap>, key: string, message: StoredMessage,
                     replyId: Uuid)
      returns (reply: StoredMessage)
      requires Valid() && Fits(start, own, gaps, cap) && ReadLoopWaits(gaps, me) && |own| == |gaps| == 3
      requires own[1] == StartLands(me, replyId) && own[2] == StartReturns(me)
      requires reading == Recorded(key, message, true) && session in repo.db.sessions && Fresh(World(), replyId)
      requires World() == Before(start, gaps, 1) && Run(start, Woven(own, gaps, 1), cap, World())
      modifies this, conn, repo.db`sessions
      ensures Valid() && reading.Between? && Run(start, Woven(own, gaps, 3), cap, World())
    {
      hide Run;
      hide Enabled;
      hide After;
      hide Fresh;
      hide Fits;
      hide Woven;
      hide ReadLoopWaits;
      hide S.Sound;
      hide C.KeysOnce;
      hide W.PipeInv;
      reply := OpenRow(replyId);
      Onward(start, own, gaps, 1);
      Spawn(key, message, reply);
      Onward(start, own, gaps, 2);
    }

    /** The rest of it, whichever way the recording went. */
    method AnswerRecorded(ghost start: Chat, ghost own: seq<Step>, gaps: seq<Gap>, key: string,
                          recorded: RecordedUserMessage, replyId: Uuid, open: Fault)
      returns (started: Option<StoredMessage>, raised: bool)
      requires Valid() && Fits(start, own, gaps, cap) && ReadLoopWaits(gaps, me)
      requires |gaps| == |own| >= 2
      requires own[1..] == if !recorded.created then [Reack(me)]
                           else if open != Answers then [StartFails(me, replyId, open == AnswerLost)]
                           else [StartLands(me, replyId), StartReturns(me)]
      requires reading == Recorded(key, recorded.message, recorded.created)
      requires session in repo.db.sessions && Fresh(World(), replyId)
      requires World() == Before(start, gaps, 1) && Run(start, Woven(own, gaps, 1), cap, World())
      modifies this, conn, repo.db`sessions
      ensures Valid() && reading.Between?
      ensures raised <==> recorded.created && open != Answers
      ensures started.Some? <==> !raised && recorded.created
      ensures !raised ==> Run(start, Woven(own, gaps, |own|), cap, World())
      ensures raised ==>
                var last := Before(start, gaps, 1);
                && |own| == 2 && Run(start, Woven(own, gaps, 1), cap, last) && Enabled(last, own[1], cap)
                && Telling(World(), me, [SORRY]) == After(last, own[1])
    {
      assert forall i :: 0 <= i < |own| - 1 ==> own[1..][i] == own[i + 1];
      hide Run;
      hide Enabled;
      hide After;
      hide Fresh;
      hide Fits;
      hide Woven;
      hide ReadLoopWaits;
      hide S.Sound;
      hide C.KeysOnce;
      hide W.PipeInv;
      hide Telling;
      hide Before;
      started, raised := None, false;
      if !recorded.created {
        AnswerAgain(start, own, gaps, key, recorded.message);
      } else if open != Answers {
        OpenUnheard(replyId, open == AnswerLost);
        raised := true;
      } else {
        var reply := OpenReply(start, own, gaps, key, recorded.message, replyId);
        started := Some(reply);
      }
    }

    lemma StartingShape(key: string, text: string, id: Uuid, replyId: Uuid, repeated: bool, record: Fault, open: Fault)
      ensures var own := Starting(me, key, text, id, replyId, repeated, record, open);
              && (record != Answers ==> own == [RecordFails(me, key, text, id, record == AnswerLost)])
              && (record == Answers ==> |own| >= 2 && own[0] == RecordLands(me, key, text, id))
              && (record == Answers ==>
                    own[1..] == if repeated then [Reack(me)]
                                else if open != Answers then [StartFails(me, replyId, open == AnswerLost)]
                                else [StartLands(me, replyId), StartReturns(me)])
    {
    }

    /** Stores the message, opens a reply if the message is new, and acknowledges both; a repeated message is
        acknowledged again, with its live reply if it has one, and starts nothing. The chat goes on at every await:
        `gaps[i]` is what happens after step `i`. A write that raises ends it there, with whatever landed left
        behind and nothing said. */
    method StartTurn(key: string, text: string, id: Uuid, replyId: Uuid, record: Fault, open: Fault, gaps: seq<Gap>)
      returns (started: Option<StoredMessage>, raised: bool)
      requires Valid() && reading.Between? && |turns| < cap
      requires Fresh(World(), id) && Fresh(World(), replyId)
      requires session in repo.db.sessions ==>
                 var repeated := T.HasKey(repo.db.sessions[session], key);
                 ReadyToRead(Starting(me, key, text, id, replyId, repeated, record, open), gaps, replyId)
      modifies this, conn, repo.db`sessions
      ensures Valid() && reading.Between?
      ensures session !in old(repo.db.sessions) ==> raised && started.None? && World() == old(World())
      ensures session in old(repo.db.sessions) ==>
                var repeated := T.HasKey(old(repo.db.sessions)[session], key);
                var own := Starting(me, key, text, id, replyId, repeated, record, open);
                var n := |own| - 1;
                && (raised <==> record != Answers || (!repeated && open != Answers))
                && (started.Some? <==> !raised && !repeated)
                && (!raised ==> Run(old(World()), Woven(own, gaps, |own|), cap, World()))
                && (raised ==>
                      var last := Before(old(World()), gaps, n);
                      && Run(old(World()), Woven(own, gaps, n), cap, last) && Enabled(last, own[n], cap)
                      && Telling(World(), me, [SORRY]) == After(last, own[n]))
    {
      ghost var start := World();
      ghost var repeated := session in repo.db.sessions && T.HasKey(repo.db.sessions[session], key);
      ghost var own := Starting(me, key, text, id, replyId, repeated, record, open);
      StartingShape(key, text, id, replyId, repeated, record, open);
      assert session in repo.db.sessions ==> |gaps| == |own|;
      hide Run;
      hide Enabled;
      hide After;
      hide Fresh;
      hide Fits;
      hide Woven;
      hide Starting;
      hide ReadLoopWaits;
      hide S.Sound;
      hide C.KeysOnce;
      hide W.PipeInv;
      hide T.HasKey;
      hide Telling;
      started, raised := None, true;
      if record != Answers {
        if session in repo.db.sessions {
          NothingWoven(start, own, gaps, cap);
          RecordUnheard(key, text, id, record == AnswerLost);
        }
        return;
      }
      var r := Record(key, text, id);
      if r.None? {
        return;
      }
      NothingWoven(start, own, gaps, cap);
      Onward(start, own, gaps, 0);
      started, raised := AnswerRecorded(start, own, gaps, key, r.value, replyId, open);
    }

    // ----- one turn, one await at a time

    /** The turn of the track has taken its first `i` steps and the rest of the chat its turns between them; it is
        running, in this phase, with this much said; and nobody else has touched what is its own. */
    ghost predicate On(k: Track, i: nat, said: seq<string>, phase: Phase)
      reads this, conn, repo.db
    {
      && Valid()
      && k.m in turns && k.m in streams
      && streams[k.m].seqNo == k.seqNo && streams[k.m].chunks == said && streams[k.m].phase == phase
      && Fits(k.start, k.own, k.gaps, cap) && TurnWaits(k.gaps, me, k.m) && R.Owned(World())
      && i <= |k.own| == |k.gaps|
      && World() == Before(k.start, k.gaps, i) && Run(k.start, Woven(k.own, k.gaps, i), cap, World())
    }

    /** The turn's next step has been taken, and the rest of the chat has its turn. */
    method Awaits(ghost k: Track, i: nat, g: Gap)
      requires Valid() && k.m in turns && k.m in streams
      requires Fits(k.start, k.own, k.gaps, cap) && TurnWaits(k.gaps, me, k.m)
      requires i < |k.own| == |k.gaps| && g == k.gaps[i]
      requires R.Owned(Before(k.start, k.gaps, i))
      requires Run(k.start, Woven(k.own, k.gaps, i), cap, Before(k.start, k.gaps, i))
      requires Enabled(Before(k.start, k.gaps, i), k.own[i], cap)
      requires World() == After(Before(k.start, k.gaps, i), k.own[i]) && streams[k.m].seqNo == k.seqNo
      modifies this, conn, repo.db`sessions
      ensures On(k, i + 1, old(streams)[k.m].chunks, old(streams)[k.m].phase)
      ensures O.RowsStay(old(repo.db.sessions), repo.db.sessions, k.m)
    {
      TurnAwaits(k.start, k.own, k.gaps, i, cap, me, k.m, streams[k.m]);
      GapKeepsTurn(k.start, k.own, k.gaps, i, cap, me, k.m, streams[k.m]);
      hide Run;
      hide Enabled;
      hide After;
      hide Fits;
      hide Woven;
      hide TurnWaits;
      hide R.Owned;
      hide S.Sound;
      hide C.KeysOnce;
      hide W.PipeInv;
      Elsewhere(g);
    }

    /** One chunk, numbered. */
    method SayChunk(m: Uuid, index: nat, text: string)
      requires Valid() && m in turns && m in streams && streams[m].phase == Speaking && |streams[m].chunks| == index
      modifies this`streams, conn
      ensures Valid() && m in streams && streams[m] == old(streams)[m].(chunks := old(streams)[m].chunks + [text])
      ensures Enabled(old(World()), Chunk(me, m, text), cap) && World() == After(old(World()), Chunk(me, m, text))
    {
      ChunkMoves(World(), me, m, text, cap);
      hide S.Sound;
      hide W.PipeInv;
      hide C.KeysOnce;
      hide After;
      hide Enabled;
      Say(Delta(m, index, text));
      streams := streams[m := streams[m].(chunks := streams[m].chunks + [text])];
      assert World().handlers == old(World()).handlers[me := Mine()];
    }

    /** The turn asks for its final write, or stops. Nothing else knows of it. */
    ghost method Change(m: Uuid, step: Step)
      requires Valid() && (step == AskComplete(me, m) || step == Break(me, m)) && m in turns && m in streams
      requires streams[m].phase == Speaking || (step.Break? && streams[m].phase in {Completing, Stored})
      modifies this`streams
      ensures Valid() && m in streams
      ensures streams[m] == old(streams)[m].(phase := if step.Break? then Broken else Completing)
      ensures Enabled(old(World()), step, cap) && World() == After(old(World()), step)
    {
      PhaseMoves(World(), step, cap);
      hide S.Sound;
      hide W.PipeInv;
      hide C.KeysOnce;
      hide After;
      hide Enabled;
      streams := streams[m := streams[m].(phase := if step.Break? then Broken else Completing)];
      assert World().handlers == old(World()).handlers[me := Mine()];
    }

    /** The final write lands. */
    method WriteText(m: Uuid, chunks: seq<string>)
      requires Valid() && m in turns && m in streams && streams[m].phase == Completing && streams[m].chunks == chunks
      modifies this`streams, repo.db`sessions
      ensures Valid() && m in streams && streams[m] == old(streams)[m].(phase := Stored)
      ensures Enabled(old(World()), CompleteLands(me, m), cap)
      ensures World() == After(old(World()), CompleteLands(me, m))
      ensures O.RowsAre(repo.db.sessions, m, Status.Complete, Some(Concat(chunks)))
    {
      O.CompletionLands(World(), me, m, cap);
      CompletionMoves(World(), me, m, cap);
      OneStepKeepsSession(World(), CompleteLands(me, m), cap, session);
      hide S.Sound;
      hide W.PipeInv;
      hide C.KeysOnce;
      hide After;
      hide Enabled;
      hide X.FinishAll;
      hide Concat;
      repo.CompleteAssistantMessage(m, Concat(chunks));
      ghost var done := streams[m].(phase := Stored);
      streams := streams[m := done];
      assert World().handlers == old(World()).handlers[me := Mine()];
    }

    /** The row was written first, and only now is `done` sent. */
    method SayDone(m: Uuid, seqNo: nat)
      requires Valid() && m in turns && m in streams && streams[m].phase == Stored && streams[m].seqNo == seqNo
      modifies this`streams, conn
      ensures Valid() && m in streams && streams[m] == old(streams)[m].(phase := Announced)
      ensures Enabled(old(World()), Announce(me, m), cap) && World() == After(old(World()), Announce(me, m))
    {
      AnnounceMoves(World(), me, m, cap);
      hide S.Sound;
      hide W.PipeInv;
      hide C.KeysOnce;
      hide After;
      hide Enabled;
      Say(Done(m, seqNo));
      streams := streams[m := streams[m].(phase := Announced)];
      assert World().handlers == old(World()).handlers[me := Mine()];
    }

    method MarkFailed(m: Uuid)
      requires Valid() && m in streams && streams[m].phase == Broken
      modifies repo.db`sessions
      ensures Valid() && Enabled(old(World()), FailLands(me, m), cap)
      ensures World() == After(old(World()), FailLands(me, m))
      ensures O.RowsAre(repo.db.sessions, m, Status.Failed, None)
    {
      O.FailureLands(World(), me, m, cap);
      FailureMoves(World(), me, m, cap);
      OneStepKeepsSession(World(), FailLands(me, m), cap, session);
      hide S.Sound;
      hide W.PipeInv;
      hide C.KeysOnce;
      hide After;
      hide Enabled;
      hide X.FinishAll;
      repo.FailAssistantMessage(m);
      assert World().handlers == old(World()).handlers;
    }

    method SaySorry()
      requires Valid()
      modifies conn
      ensures Valid() && World() == Telling(old(World()), me, [SORRY])
      ensures Enabled(old(World()), ChatTurns.Say(me, SORRY), cap)
      ensures World() == After(old(World()), ChatTurns.Say(me, SORRY))
    {
      SorryMoves(World(), me, cap);
      hide S.Sound;
      hide W.PipeInv;
      hide C.KeysOnce;
      hide After;
      hide Enabled;
      Say(SORRY);
      assert World().handlers == old(World()).handlers[me := Mine()];
    }

    // Each of these takes one step of a turn and lets the rest of the chat have its turn.

    method Says(m: Uuid, text: string, ghost k: Track, at: nat, g: Gap, said: seq<string>)
      requires On(k, at, said, Speaking) && k.m == m
      requires at < |k.own| && k.own[at] == Chunk(me, m, text) && g == k.gaps[at]
      modifies this, conn, repo.db`sessions
      ensures On(k, at + 1, said + [text], Speaking)
    {
      hide W.PipeInv;
      hide S.Sound;
      hide C.KeysOnce;
      hide Run;
      hide Enabled;
      hide After;
      hide Fits;
      hide Woven;
      hide TurnWaits;
      hide R.Owned;
      hide Before;
      SayChunk(m, |said|, text);
      Awaits(k, at, g);
    }

    method Asks(m: Uuid, ghost k: Track, at: nat, g: Gap, ghost said: seq<string>)
      requires On(k, at, said, Speaking) && k.m == m
      requires at < |k.own| && k.own[at] == AskComplete(me, m) && g == k.gaps[at]
      modifies this, conn, repo.db`sessions
      ensures On(k, at + 1, said, Completing)
    {
      hide W.PipeInv;
      hide S.Sound;
      hide C.KeysOnce;
      hide Run;
      hide Enabled;
      hide After;
      hide Fits;
      hide Woven;
      hide TurnWaits;
      hide R.Owned;
      hide Before;
      Change(m, AskComplete(me, m));
      Awaits(k, at, g);
    }

    method Writes(m: Uuid, ghost k: Track, at: nat, g: Gap, said: seq<string>)
      requires On(k, at, said, Completing) && k.m == m
      requires at < |k.own| && k.own[at] == CompleteLands(me, m) && g == k.gaps[at]
      modifies this, conn, repo.db`sessions
      ensures On(k, at + 1, said, Stored)
      ensures O.RowsAre(repo.db.sessions, m, Status.Complete, Some(Concat(said)))
    {
      hide W.PipeInv;
      hide O.RowsAre;
      hide O.RowsStay;
      hide S.Sound;
      hide C.KeysOnce;
      hide Run;
      hide Enabled;
      hide After;
      hide Fits;
      hide Woven;
      hide TurnWaits;
      hide R.Owned;
      hide Before;
      hide Concat;
      WriteText(m, said);
      ghost var written := repo.db.sessions;
      Awaits(k, at, g);
      O.StillAre(written, repo.db.sessions, m, Status.Complete, Some(Concat(said)));
    }

    method Announces(m: Uuid, seqNo: nat, ghost k: Track, at: nat, g: Gap, ghost said: seq<string>)
      requires On(k, at, said, Stored) && k.m == m && k.seqNo == seqNo
      requires at < |k.own| && k.own[at] == Announce(me, m) && g == k.gaps[at]
      modifies this, conn, repo.db`sessions
      ensures On(k, at + 1, said, Announced)
      ensures O.RowsStay(old(repo.db.sessions), repo.db.sessions, m)
    {
      hide W.PipeInv;
      hide O.RowsAre;
      hide O.RowsStay;
      hide S.Sound;
      hide C.KeysOnce;
      hide Run;
      hide Enabled;
      hide After;
      hide Fits;
      hide Woven;
      hide TurnWaits;
      hide R.Owned;
      hide Before;
      SayDone(m, seqNo);
      Awaits(k, at, g);
    }

    method Stops(m: Uuid, ghost k: Track, at: nat, g: Gap, ghost said: seq<string>, ghost phase: Phase)
      requires On(k, at, said, phase) && k.m == m && phase in {Speaking, Completing, Stored}
      requires at < |k.own| && k.own[at] == Break(me, m) && g == k.gaps[at]
      modifies this, conn, repo.db`sessions
      ensures On(k, at + 1, said, Broken)
    {
      hide W.PipeInv;
      hide S.Sound;
      hide C.KeysOnce;
      hide Run;
      hide Enabled;
      hide After;
      hide Fits;
      hide Woven;
      hide TurnWaits;
      hide R.Owned;
      hide Before;
      Change(m, Break(me, m));
      Awaits(k, at, g);
    }

    method Fails(m: Uuid, ghost k: Track, at: nat, g: Gap, ghost said: seq<string>)
      requires On(k, at, said, Broken) && k.m == m
      requires at < |k.own| && k.own[at] == FailLands(me, m) && g == k.gaps[at]
      modifies this, conn, repo.db`sessions
      ensures On(k, at + 1, said, Broken)
      ensures O.RowsAre(repo.db.sessions, m, Status.Failed, None)
    {
      hide W.PipeInv;
      hide O.RowsAre;
      hide O.RowsStay;
      hide S.Sound;
      hide C.KeysOnce;
      hide Run;
      hide Enabled;
      hide After;
      hide Fits;
      hide Woven;
      hide TurnWaits;
      hide R.Owned;
      hide Before;
      MarkFailed(m);
      ghost var marked := repo.db.sessions;
      Awaits(k, at, g);
      O.StillAre(marked, repo.db.sessions, m, Status.Failed, None);
    }

    method Tells(m: Uuid, ghost k: Track, at: nat, g: Gap, ghost said: seq<string>)
      requires On(k, at, said, Broken) && k.m == m
      requires at < |k.own| && k.own[at] == ChatTurns.Say(me, SORRY) && g == k.gaps[at]
      modifies this, conn, repo.db`sessions
      ensures On(k, at + 1, said, Broken)
      ensures old(O.RowsAre(repo.db.sessions, m, Status.Failed, None)) ==>
                O.RowsAre(repo.db.sessions, m, Status.Failed, None)
    {
      hide W.PipeInv;
      hide O.RowsAre;
      hide O.RowsStay;
      hide S.Sound;
      hide C.KeysOnce;
      hide Run;
      hide Enabled;
      hide After;
      hide Fits;
      hide Woven;
      hide TurnWaits;
      hide R.Owned;
      hide Before;
      ghost var told := repo.db.sessions;
      SaySorry();
      Awaits(k, at, g);
      if O.RowsAre(told, m, Status.Failed, None) { O.StillAre(told, repo.db.sessions, m, Status.Failed, None); }
    }

    /** Streams the chunks of the responder, numbered from zero, and hands the loop over after each. */
    method Stream(m: Uuid, words: seq<string>, ghost k: Track, gaps: seq<Gap>) returns (chunks: seq<string>)
      requires On(k, 0, [], Speaking) && k.m == m && k.gaps == gaps
      requires |words| <= |k.own| == |gaps| && forall i :: 0 <= i < |words| ==> k.own[i] == Chunk(me, m, words[i])
      modifies this, conn, repo.db`sessions
      ensures chunks == words && On(k, |words|, words, Speaking)
    {
      hide *;
      chunks := [];
      assert words[..0] == [];
      for i := 0 to |words|
        invariant chunks == words[..i] && On(k, i, chunks, Speaking)
      {
        assert words[..i + 1] == words[..i] + [words[i]];
        Says(m, words[i], k, i, gaps[i], chunks);
        chunks := chunks + [words[i]];
      }
      assert words[..|words|] == words;
    }

    /** The final write. It may never arrive, or land unheard. */
    method Complete(m: Uuid, chunks: seq<string>, fate: Fate, ghost k: Track, gaps: seq<Gap>, at: nat)
      requires On(k, at, chunks, Speaking) && k.m == m && k.gaps == gaps
      requires at < |k.own| == |gaps| && k.own[at] == AskComplete(me, m)
      requires fate.complete != NeverArrives ==> at + 1 < |k.own| && k.own[at + 1] == CompleteLands(me, m)
      modifies this, conn, repo.db`sessions
      ensures if fate.complete == NeverArrives then On(k, at + 1, chunks, Completing) else On(k, at + 2, chunks, Stored)
      ensures fate.complete != NeverArrives ==> O.RowsAre(repo.db.sessions, m, Status.Complete, Some(Concat(chunks)))
    {
      hide *;
      Asks(m, k, at, gaps[at], chunks);
      if fate.complete != NeverArrives {
        Writes(m, k, at + 1, gaps[at + 1], chunks);
      }
    }

    /** The row is marked failed if that can be written. */
    method FailsUnlessLost(m: Uuid, ghost chunks: seq<string>, fail: Fault, ghost k: Track, gaps: seq<Gap>, at: nat)
      returns (next: nat)
      requires On(k, at, chunks, Broken) && k.m == m && k.gaps == gaps && at <= |k.own| == |gaps|
      requires fail != NeverArrives ==> at < |k.own| && k.own[at] == FailLands(me, m)
      modifies this, conn, repo.db`sessions
      ensures On(k, next, chunks, Broken) && next == at + if fail == NeverArrives then 0 else 1
      ensures fail != NeverArrives ==> O.RowsAre(repo.db.sessions, m, Status.Failed, None)
    {
      hide *;
      next := at;
      if fail != NeverArrives {
        Fails(m, k, at, gaps[at], chunks);
        next := at + 1;
      }
    }

    /** The client is told, unless the turn was cancelled. */
    method TellsUnlessCancelled(m: Uuid, ghost chunks: seq<string>, cancelled: bool, ghost k: Track, gaps: seq<Gap>,
                                at: nat)
      returns (next: nat)
      requires On(k, at, chunks, Broken) && k.m == m && k.gaps == gaps && at <= |k.own| == |gaps|
      requires !cancelled ==> at < |k.own| && k.own[at] == ChatTurns.Say(me, SORRY)
      modifies this, conn, repo.db`sessions
      ensures On(k, next, chunks, Broken) && next == at + if cancelled then 0 else 1
      ensures old(O.RowsAre(repo.db.sessions, m, Status.Failed, None)) ==>
                O.RowsAre(repo.db.sessions, m, Status.Failed, None)
    {
      hide *;
      next := at;
      if !cancelled {
        Tells(m, k, at, gaps[at], chunks);
        next := at + 1;
      }
    }

    /** What stops a turn: its row is marked failed if that can be written, and the client is told unless the
        turn was cancelled. */
    method GiveUp(m: Uuid, ghost chunks: seq<string>, ghost phase: Phase, fate: Fate, ghost k: Track, gaps: seq<Gap>,
                  at: nat)
      requires On(k, at, chunks, phase) && phase in {Speaking, Completing, Stored} && k.m == m && k.gaps == gaps
      requires |k.own| == |gaps| && StopsFrom(m, fate, k.own, at)
      modifies this, conn, repo.db`sessions
      ensures On(k, |k.own|, chunks, Broken)
      ensures fate.fail != NeverArrives ==> O.RowsAre(repo.db.sessions, m, Status.Failed, None)
    {
      hide *;
      StoppingStep(m, fate, k.own, at);
      Stops(m, k, at, gaps[at], chunks, phase);
      var i := FailsUnlessLost(m, chunks, fate.fail, k, gaps, at + 1);
      i := TellsUnlessCancelled(m, chunks, fate.cancelled, k, gaps, i);
    }

    /** From here on the task is `Stopping`. */
    predicate StopsFrom(m: Uuid, fate: Fate, own: seq<Step>, at: nat) {
      at <= |own| && own[at..] == Stopping(me, m, fate)
    }

    lemma StoppingStep(m: Uuid, fate: Fate, own: seq<Step>, at: nat)
      requires StopsFrom(m, fate, own, at)
      ensures var said := at + if fate.fail == NeverArrives then 1 else 2;
              && at < |own| && own[at] == Break(me, m)
              && (fate.fail != NeverArrives ==> at + 1 < |own| && own[at + 1] == FailLands(me, m))
              && |own| == said + (if fate.cancelled then 0 else 1)
              && (!fate.cancelled ==> own[said] == ChatTurns.Say(me, SORRY))
    {
      assert forall k :: 0 <= k < |own| - at ==> own[at..][k] == own[at + k];
    }

    /** How the turn ends, after its last chunk. */
    method EndTurn(m: Uuid, seqNo: nat, chunks: seq<string>, fate: Fate, ghost k: Track, gaps: seq<Gap>)
      requires On(k, |chunks|, chunks, Speaking) && k.m == m && k.seqNo == seqNo && k.gaps == gaps
      requires |k.own| == |gaps| && k.own == WholeTurn(me, m, chunks, fate)
      modifies this, conn, repo.db`sessions
      ensures On(k, |k.own|, chunks, if fate.ranOut && fate.complete == Answers then Announced else Broken)
      ensures !(fate.ranOut && fate.complete == Answers) && fate.fail != NeverArrives ==>
                O.RowsAre(repo.db.sessions, m, Status.Failed, None)
      ensures fate.ranOut && fate.complete == Answers ==>
                O.RowsAre(repo.db.sessions, m, Status.Complete, Some(Concat(chunks)))
    {
      TurnShape(m, chunks, fate);
      hide *;
      var n := |chunks|;
      if !fate.ranOut {
        GiveUp(m, chunks, Speaking, fate, k, gaps, n);
      } else {
        Complete(m, chunks, fate, k, gaps, n);
        if fate.complete == Answers {
          ghost var written := repo.db.sessions;
          Announces(m, seqNo, k, n + 2, gaps[n + 2], chunks);
          O.StillAre(written, repo.db.sessions, m, Status.Complete, Some(Concat(chunks)));
        } else if fate.complete == AnswerLost {
          GiveUp(m, chunks, Stored, fate, k, gaps, n + 2);
        } else {
          GiveUp(m, chunks, Completing, fate, k, gaps, n + 1);
        }
      }
    }

    /** One turn: streams what the responder yields, then either stores the text and announces it or, if it raised,
        was cancelled, or could not be stored, marks the row failed. Whatever its fate, and whatever the rest of the
        chat does at each of its awaits, it is a run of the chat machine. */
    method RunTurn(m: Uuid, seqNo: nat, words: seq<string>, fate: Fate, gaps: seq<Gap>)
      requires Valid() && R.Owned(World())
      requires m in turns && m in streams && streams[m].seqNo == seqNo && streams[m].chunks == []
      requires streams[m].phase == Speaking
      requires Fits(World(), WholeTurn(me, m, words, fate), gaps, cap) && TurnWaits(gaps, me, m)
      modifies this, conn, repo.db`sessions
      ensures Valid() && m in turns && m in streams && streams[m].seqNo == seqNo && streams[m].chunks == words
      ensures streams[m].phase == if fate.ranOut && fate.complete == Answers then Announced else Broken
      ensures var own := WholeTurn(me, m, words, fate);
              |own| == |gaps| && Run(old(World()), Woven(own, gaps, |own|), cap, World())
      ensures fate.ranOut && fate.complete == Answers ==>
                forall s, i :: RowAt(repo.db.sessions, s, i, m) ==>
                  var row := repo.db.sessions[s].messages[i].stored;
                  row.status == Status.Complete && row.text == Concat(words)
      ensures !(fate.ranOut && fate.complete == Answers) && fate.fail != NeverArrives ==>
                forall s, i :: RowAt(repo.db.sessions, s, i, m) ==>
                  repo.db.sessions[s].messages[i].stored.status == Status.Failed
    {
      ghost var k := Track(World(), WholeTurn(me, m, words, fate), gaps, m, seqNo);
      assert |gaps| == |k.own|;
      NothingWoven(k.start, k.own, gaps, cap);
      TurnShape(m, words, fate);
      assert On(k, 0, [], Speaking);
      hide Run;
      hide Fits;
      hide Woven;
      hide TurnWaits;
      hide R.Owned;
      hide WholeTurn;
      hide W.PipeInv;
      hide S.Sound;
      hide C.KeysOnce;
      var chunks := Stream(m, words, k, gaps);
      EndTurn(m, seqNo, chunks, fate, k, gaps);
    }

    lemma TurnShape(m: Uuid, words: seq<string>, fate: Fate)
      ensures var own, n := WholeTurn(me, m, words, fate), |words|;
              var at := n + if !fate.ranOut then 0 else if fate.complete == NeverArrives then 1 else 2;
              && n <= at <= |own|
              && (forall i :: 0 <= i < n ==> own[i] == Chunk(me, m, words[i]))
              && (fate.ranOut ==> n < |own| && own[n] == AskComplete(me, m))
              && (fate.ranOut && fate.complete != NeverArrives ==> n + 1 < |own| && own[n + 1] == CompleteLands(me, m))
              && (if fate.ranOut && fate.complete == Answers then at + 1 == |own| && own[at] == Announce(me, m)
                  else StopsFrom(m, fate, own, at))
    {
      TurnSteps(me, m, words, fate);
      CompletionShape(m, fate);
      var own, n := WholeTurn(me, m, words, fate), |words|;
      var at := n + if !fate.ranOut then 0 else if fate.complete == NeverArrives then 1 else 2;
      assert forall k :: 0 <= k < at - n ==> own[n..at][k] == own[n + k];
      assert at < |own| ==> own[at..][0] == own[at];
      hide WholeTurn;
      hide Stopping;
      hide Completion;
    }

    lemma CompletionShape(m: Uuid, fate: Fate)
      ensures var steps := Completion(me, m, fate);
              && |steps| == (if fate.complete == NeverArrives then 1 else 2)
              && steps[0] == AskComplete(me, m)
              && (fate.complete != NeverArrives ==> steps[1] == CompleteLands(me, m))
    {
    }

    /** What happens when a turn's task is done: it leaves the running turns, and its key the live replies. */
    method TurnFinished(m: Uuid, key: string)
      requires Valid() && m in turns && m in streams && streams[m].key == key && streams[m].phase in {Announced, Broken}
      modifies this`turns, this`liveReplies
      ensures Valid() && Enabled(old(World()), TurnEnds(me, m), cap)
      ensures World() == After(old(World()), TurnEnds(me, m))
      ensures turns == old(turns) - {m} && liveReplies == old(liveReplies) - {key}
    {
      QuietMoves(World(), TurnEnds(me, m), cap);
      hide After;
      hide W.PipeInv;
      hide S.Sound;
      hide C.KeysOnce;
      turns := turns - {m};
      liveReplies := liveReplies - {key};
      assert World().handlers == old(World()).handlers[me := Mine()];
    }

    // ----- frames

    /** What the rest of the chat does while one frame is served. */
    ghost predicate Served(frame: ClientFrame, id: Uuid, replyId: Uuid, read: Fault, record: Fault, open: Fault,
                           gaps: seq<Gap>)
      reads this, conn, repo.db
    {
      match frame
      case Resume(_) => read == Answers ==> |gaps| == 1 && Run(World(), gaps[0].steps, cap, gaps[0].to)
      case UserMessage(key, text) =>
        |turns| < cap && session in repo.db.sessions ==>
          var repeated := T.HasKey(repo.db.sessions[session], key);
          ReadyToRead(Starting(me, key, text, id, replyId, repeated, record, open), gaps, replyId)
      case _ => true
    }

    /** A message below the cap: the turn is started, or the client is told to send it again. */
    method Submit(key: string, text: string, id: Uuid, replyId: Uuid, record: Fault, open: Fault, gaps: seq<Gap>)
      returns (reply: Option<StoredMessage>)
      requires Valid() && reading.Between? && |turns| < cap && Fresh(World(), id) && Fresh(World(), replyId)
      requires session in repo.db.sessions ==>
                 var repeated := T.HasKey(repo.db.sessions[session], key);
                 ReadyToRead(Starting(me, key, text, id, replyId, repeated, record, open), gaps, replyId)
      modifies this, conn, repo.db`sessions
      ensures Valid()
      ensures session !in old(repo.db.sessions) ==> World() == Telling(old(World()), me, [SORRY])
      ensures session in old(repo.db.sessions) ==>
                var repeated := T.HasKey(old(repo.db.sessions)[session], key);
                var own := Starting(me, key, text, id, replyId, repeated, record, open);
                Run(old(World()), Woven(own, gaps, |own|), cap, World())
    {
      ghost var start := World();
      ghost var repeated := session in repo.db.sessions && T.HasKey(repo.db.sessions[session], key);
      ghost var own := Starting(me, key, text, id, replyId, repeated, record, open);
      StartingShape(key, text, id, replyId, repeated, record, open);
      assert session in repo.db.sessions ==> |gaps| == |own| && Fits(start, own, gaps, cap) && ReadLoopWaits(gaps, me);
      hide Run;
      hide Enabled;
      hide After;
      hide Fresh;
      hide Fits;
      hide Woven;
      hide Starting;
      hide ReadLoopWaits;
      hide S.Sound;
      hide C.KeysOnce;
      hide W.PipeInv;
      hide T.HasKey;
      hide Telling;
      var raised;
      var known := session in repo.db.sessions;
      reply, raised := StartTurn(key, text, id, replyId, record, open, gaps);
      if raised {
        SaySorry();
        if known { Onward(start, own, gaps, |gaps| - 1); }
      }
    }

    /** One frame from the client. A resume is answered even at the turn cap; a message at the cap is refused before
        anything is stored; and a database that fails is answered with one retryable error. */
    method Dispatch(frame: ClientFrame, id: Uuid, replyId: Uuid, read: Fault, record: Fault, open: Fault,
                    gaps: seq<Gap>)
      returns (reply: Option<StoredMessage>)
      requires Valid() && reading.Between? && Fresh(World(), id) && Fresh(World(), replyId)
      requires Served(frame, id, replyId, read, record, open, gaps)
      modifies this, conn, repo.db`sessions
      ensures Valid()
      ensures frame.Malformed? ==> World() == Telling(old(World()), me, [Error(BadFrame, false)])
      ensures frame.Newer? ==> World() == Telling(old(World()), me, [Error(UnsupportedVersion, false)])
      ensures frame.Ping? ==> World() == Telling(old(World()), me, [Pong])
      ensures var s := old(repo.db.sessions);
              frame.Resume? ==>
                if read != Answers then World() == Telling(old(World()), me, [Error(Internal, true)])
                else
                  && me in gaps[0].to.handlers
                  && (session in s && SessionInv(s[session]) ==>
                        World() == Telling(gaps[0].to, me, Answer(Log(s[session]), frame.lastSeq, resumeMax)))
      ensures frame.UserMessage? && old(|turns|) >= cap ==>
                World() == Telling(old(World()), me, [Error(TooManyTurns, true)])
      ensures frame.UserMessage? && old(|turns|) < cap && session !in old(repo.db.sessions) ==>
                World() == Telling(old(World()), me, [Error(Internal, true)])
      ensures frame.UserMessage? && old(|turns|) < cap && session in old(repo.db.sessions) ==>
                var repeated := T.HasKey(old(repo.db.sessions)[session], frame.key);
                var own := Starting(me, frame.key, frame.text, id, replyId, repeated, record, open);
                Run(old(World()), Woven(own, gaps, |own|), cap, World())
    {
      hide Run;
      hide Fresh;
      hide Answer;
      hide Starting;
      hide Woven;
      hide Fits;
      hide ReadLoopWaits;
      hide W.PipeInv;
      hide S.Sound;
      hide C.KeysOnce;
      hide T.HasKey;
      hide SessionInv;
      hide Telling;
      reply := None;
      match frame
      case Malformed => SayOne(Error(BadFrame, false));
      case Newer => SayOne(Error(UnsupportedVersion, false));
      case Ping => SayOne(Pong);
      case Resume(lastSeq) =>
        if read != Answers {
          SaySorry();
        } else {
          var _ := Resume(lastSeq, read, gaps[0]);
        }
      case UserMessage(key, text) =>
        if |turns| >= cap {
          SayOne(Error(TooManyTurns, true));
        } else {
          reply := Submit(key, text, id, replyId, record, open, gaps);
        }
    }

    method SayOne(f: ServerFrame)
      requires Valid()
      modifies conn
      ensures Valid() && World() == Telling(old(World()), me, [f])
    {
      hide S.Sound;
      hide W.PipeInv;
      hide C.KeysOnce;
      Say(f);
      assert World().handlers == old(World()).handlers[me := Mine()];
    }
  }
}
