/** Every connection of every session over one message table: read loops recording messages and opening
    replies, and turns streaming into them, interleaved at each await
    (core/chat_handler.py over adapters/postgres/chat_repository.py). */
module ChatTurns {
  import opened Basics
  import opened SessionLog
  import opened SessionTransactions
  import opened Tables
  import opened Frames
  import J = Jobs

  /** Where a turn is: streaming, its final write sent, that write known to have landed, its `done` sent, or
      failed. */
  datatype Phase = Speaking | Completing | Stored | Announced | Broken

  datatype Turn = Turn(key: string, seqNo: nat, chunks: seq<string>, phase: Phase)

  /** Where a read loop is in starting a turn: between messages, with the user's row recorded, or with the
      reply's row opened as well. */
  datatype Reading =
    | Between
    | Recorded(key: string, message: StoredMessage, created: bool)
    | Opened(key: string, message: StoredMessage, reply: StoredMessage)

  /** One connection: what it has sent, the turns it ever started, those still running, and the live reply
      of each key. */
  datatype Handler = Handler(
    session: Uuid,
    sent: seq<ServerFrame>,
    turns: map<Uuid, Turn>,
    tasks: set<Uuid>,
    live: map<string, Uuid>,
    reading: Reading)

  /** A reply row that was opened, and the message it answers. */
  datatype Opening = Opening(session: Uuid, key: string, reply: Uuid)

  datatype Chat = Chat(sessions: SessionMap, handlers: map<nat, Handler>, openings: seq<Opening>)

  datatype Step =
    | OpenSession(session: Uuid)
    | JobEventLands(session: Uuid, job: Uuid, state: J.JobState)
    | Connect(h: nat, session: Uuid)
    | Say(h: nat, frame: ServerFrame)
    | RecordLands(h: nat, key: string, text: string, id: Uuid)
    | RecordFails(h: nat, key: string, text: string, id: Uuid, landed: bool)
    | Reack(h: nat)
    | StartLands(h: nat, id: Uuid)
    | StartFails(h: nat, id: Uuid, landed: bool)
    | StartReturns(h: nat)
    | Chunk(h: nat, m: Uuid, text: string)
    | AskComplete(h: nat, m: Uuid)
    | CompleteLands(h: nat, m: Uuid)
    | Announce(h: nat, m: Uuid)
    | Break(h: nat, m: Uuid)
    | FailLands(h: nat, m: Uuid)
    | TurnEnds(h: nat, m: Uuid)

  const EMPTY := Chat(map[], map[], [])

  function Concat(chunks: seq<string>): string {
    if chunks == [] then "" else Concat(chunks[..|chunks| - 1]) + chunks[|chunks| - 1]
  }

  // ----- rows

  /** A row of any session with this message id. */
  predicate RowAt(sessions: SessionMap, session: Uuid, i: int, m: Uuid) {
    session in sessions && 0 <= i < |sessions[session].messages| && sessions[session].messages[i].stored.messageId == m
  }

  ghost predicate Exists(sessions: SessionMap, m: Uuid) {
    exists session, i :: RowAt(sessions, session, i, m)
  }

  /** The row whose key this is, as far as an `ack` tells: its number and its identity. */
  predicate KeyedAs(s: Session, key: string, seqNo: nat, id: Uuid) {
    exists i :: 0 <= i < |s.messages| && Keyed(s.messages[i], key, seqNo, id)
  }

  predicate Keyed(m: MessageRow, key: string, seqNo: nat, id: Uuid) {
    m.clientMsgId == Some(key) && m.stored.seqNo == seqNo && m.stored.messageId == id
  }

  function TheKeyed(s: Session, key: string): StoredMessage
    requires HasKey(s, key)
  {
    s.messages[FirstKeyed(s.messages, key)].stored
  }

  function FirstKeyed(rows: seq<MessageRow>, key: string): (k: nat)
    requires exists i :: 0 <= i < |rows| && rows[i].clientMsgId == Some(key)
    ensures k < |rows| && rows[k].clientMsgId == Some(key)
  {
    if rows[0].clientMsgId == Some(key) then 0
    else
      assert exists i :: 0 <= i < |rows[1..]| && rows[1..][i].clientMsgId == Some(key) by {
        var i :| 0 <= i < |rows| && rows[i].clientMsgId == Some(key);
        assert rows[1..][i - 1].clientMsgId == Some(key);
      }
      1 + FirstKeyed(rows[1..], key)
  }

  // ----- the frames of one reply

  predicate Names(f: ServerFrame, m: Uuid) {
    f.Ack? && f.replyMessageId == Some(m)
  }

  predicate Streams(f: ServerFrame, m: Uuid) {
    f.Delta? && f.messageId == m
  }

  predicate Ends(f: ServerFrame, m: Uuid) {
    f.Done? && f.messageId == m
  }

  /** The deltas among the frames that belong to one reply, in order. */
  function DeltasOf(frames: seq<ServerFrame>, m: Uuid): seq<ServerFrame> {
    if frames == [] then []
    else DeltasOf(frames[..|frames| - 1], m) + if Streams(frames[|frames| - 1], m) then [frames[|frames| - 1]] else []
  }

  /** A reply's chunks as deltas, indexed from zero. */
  function AsDeltas(m: Uuid, chunks: seq<string>): seq<ServerFrame> {
    if chunks == [] then [] else AsDeltas(m, chunks[..|chunks| - 1]) + [Delta(m, |chunks| - 1, chunks[|chunks| - 1])]
  }

  // ----- steps

  predicate Turning(c: Chat, h: nat, m: Uuid) {
    h in c.handlers && m in c.handlers[h].turns && m in c.handlers[h].tasks
  }

  predicate Fresh(c: Chat, id: Uuid) {
    forall session :: session in c.sessions ==>
      forall i :: 0 <= i < |c.sessions[session].messages| ==> c.sessions[session].messages[i].stored.messageId != id
  }

  /** `cap` is the number of turns one connection may run. */
  ghost predicate Enabled(c: Chat, step: Step, cap: nat) {
    match step
    case OpenSession(_) => true
    case JobEventLands(session, _, _) => session in c.sessions
    case Connect(h, session) => h !in c.handlers && session in c.sessions
    case Say(h, f) => h in c.handlers && !f.Ack? && !f.Delta? && !f.Done?
    case RecordLands(h, _, _, id) =>
      h in c.handlers && c.handlers[h].reading.Between? && |c.handlers[h].tasks| < cap && Fresh(c, id)
      && c.handlers[h].session in c.sessions
    case RecordFails(h, _, _, id, _) =>
      h in c.handlers && c.handlers[h].reading.Between? && |c.handlers[h].tasks| < cap && Fresh(c, id)
      && c.handlers[h].session in c.sessions
    case Reack(h) => h in c.handlers && c.handlers[h].reading.Recorded? && !c.handlers[h].reading.created
    case StartLands(h, id) =>
      h in c.handlers && c.handlers[h].reading.Recorded? && c.handlers[h].reading.created && Fresh(c, id)
      && c.handlers[h].session in c.sessions
    case StartFails(h, id, _) =>
      h in c.handlers && c.handlers[h].reading.Recorded? && c.handlers[h].reading.created && Fresh(c, id)
      && c.handlers[h].session in c.sessions
    case StartReturns(h) => h in c.handlers && c.handlers[h].reading.Opened?
    case Chunk(h, m, _) => Turning(c, h, m) && c.handlers[h].turns[m].phase == Speaking
    case AskComplete(h, m) => Turning(c, h, m) && c.handlers[h].turns[m].phase == Speaking
    case CompleteLands(h, m) =>
      h in c.handlers && m in c.handlers[h].turns && c.handlers[h].turns[m].phase in {Completing, Broken}
    case Announce(h, m) => Turning(c, h, m) && c.handlers[h].turns[m].phase == Stored
    case Break(h, m) => Turning(c, h, m) && c.handlers[h].turns[m].phase in {Speaking, Completing, Stored}
    case FailLands(h, m) => h in c.handlers && m in c.handlers[h].turns && c.handlers[h].turns[m].phase == Broken
    case TurnEnds(h, m) => Turning(c, h, m) && c.handlers[h].turns[m].phase in {Announced, Broken}
  }

  /** What the step commits to the message table. */
  function SessionsAfter(c: Chat, step: Step): SessionMap {
    match step
    case OpenSession(session) =>
      if session in c.sessions then c.sessions else c.sessions[session := NEW_SESSION]
    case JobEventLands(session, job, state) =>
      if session !in c.sessions then c.sessions
      else
        var s := c.sessions[session];
        c.sessions[session := s.(nextSeq := s.nextSeq + 1, events := s.events + [J.JobEvent(s.nextSeq, job, state)])]
    case RecordLands(h, key, text, id) => UserRow(c, h, key, text, id)
    case RecordFails(h, key, text, id, landed) => if landed then UserRow(c, h, key, text, id) else c.sessions
    case StartLands(h, id) => ReplyRow(c, h, id)
    case StartFails(h, id, landed) => if landed then ReplyRow(c, h, id) else c.sessions
    case CompleteLands(h, m) =>
      if h in c.handlers && m in c.handlers[h].turns
      then FinishAll(c.sessions, m, Complete, Some(Concat(c.handlers[h].turns[m].chunks))) else c.sessions
    case FailLands(_, m) => FinishAll(c.sessions, m, Status.Failed, None)
    case _ => c.sessions
  }

  function UserRow(c: Chat, h: nat, key: string, text: string, id: Uuid): SessionMap {
    if h in c.handlers && c.handlers[h].session in c.sessions
    then c.sessions[c.handlers[h].session := WithUser(c.sessions[c.handlers[h].session], id, key, text)] else c.sessions
  }

  function ReplyRow(c: Chat, h: nat, id: Uuid): SessionMap {
    if h in c.handlers && c.handlers[h].session in c.sessions
    then c.sessions[c.handlers[h].session := WithAssistant(c.sessions[c.handlers[h].session], id)] else c.sessions
  }

  function Sending(x: Handler, f: ServerFrame): Handler {
    x.(sent := x.sent + [f])
  }

  const SORRY := Error(Internal, true)

  /** What the step does to the connection that takes it. */
  function HandlerAfter(c: Chat, step: Step, x: Handler): Handler {
    match step
    case Say(_, f) => Sending(x, f)
    case RecordLands(_, key, text, id) =>
      if x.session !in c.sessions then x
      else
        var s := c.sessions[x.session];
        if HasKey(s, key) then x.(reading := Recorded(key, TheKeyed(s, key), false))
        else x.(reading := Recorded(key, StoredMessage(s.nextSeq, id, User, Complete, text), true))
    case RecordFails(_, _, _, _, _) => Sending(x, SORRY)
    case Reack(_) =>
      if !x.reading.Recorded? then x
      else
        var r := x.reading;
        var reply := if r.key in x.live then Some(x.live[r.key]) else None;
        Sending(x, Ack(r.key, r.message.seqNo, r.message.messageId, reply)).(reading := Between)
    case StartLands(_, id) =>
      if x.session !in c.sessions || !x.reading.Recorded? then x
      else
        x.(reading := Opened(x.reading.key, x.reading.message,
                             StoredMessage(c.sessions[x.session].nextSeq, id, Assistant, Streaming, "")))
    case StartFails(_, _, _) => Sending(x, SORRY).(reading := Between)
    case StartReturns(_) =>
      if !x.reading.Opened? then x
      else
        var r := x.reading;
        var m := r.reply.messageId;
        Sending(x, Ack(r.key, r.message.seqNo, r.message.messageId, Some(m))).(
          live := x.live[r.key := m],
          turns := x.turns[m := Turn(r.key, r.reply.seqNo, [], Speaking)],
          tasks := x.tasks + {m},
          reading := Between)
    case Chunk(_, m, text) =>
      if m !in x.turns then x
      else
        var t := x.turns[m];
        Sending(x, Delta(m, |t.chunks|, text)).(turns := x.turns[m := t.(chunks := t.chunks + [text])])
    case AskComplete(_, m) => InPhase(x, m, Completing)
    case CompleteLands(_, m) =>
      if m in x.turns && x.turns[m].phase == Completing then InPhase(x, m, Stored) else x
    case Announce(_, m) =>
      if m !in x.turns then x else InPhase(Sending(x, Done(m, x.turns[m].seqNo)), m, Announced)
    case Break(_, m) => InPhase(x, m, Broken)
    case TurnEnds(_, m) =>
      if m !in x.turns then x else x.(tasks := x.tasks - {m}, live := x.live - {x.turns[m].key})
    case _ => x
  }

  function InPhase(x: Handler, m: Uuid, phase: Phase): Handler {
    if m in x.turns then x.(turns := x.turns[m := x.turns[m].(phase := phase)]) else x
  }

  predicate OfHandler(step: Step) {
    !step.OpenSession? && !step.JobEventLands? && !step.Connect?
  }

  function After(c: Chat, step: Step): Chat {
    Chat(SessionsAfter(c, step),
         if step.Connect? then c.handlers[step.h := Handler(step.session, [], map[], {}, map[], Between)]
         else if OfHandler(step) && step.h in c.handlers
           then c.handlers[step.h := HandlerAfter(c, step, c.handlers[step.h])]
         else c.handlers,
         c.openings + NewOpenings(c, step))
  }

  function NewOpenings(c: Chat, step: Step): seq<Opening> {
    if (step.StartLands? || (step.StartFails? && step.landed)) && step.h in c.handlers
      && c.handlers[step.h].reading.Recorded?
    then [Opening(c.handlers[step.h].session, c.handlers[step.h].reading.key, step.id)] else []
  }

  ghost predicate Run(c: Chat, steps: seq<Step>, cap: nat, c': Chat)
    decreases |steps|
  {
    if steps == [] then c == c' else Enabled(c, steps[0], cap) && Run(After(c, steps[0]), steps[1..], cap, c')
  }

  lemma {:induction false} RunAppend(c: Chat, steps: seq<Step>, cap: nat, c': Chat, step: Step)
    requires Run(c, steps, cap, c') && Enabled(c', step, cap)
    ensures Run(c, steps + [step], cap, After(c', step))
    decreases |steps|
  {
    hide Enabled;
    hide After;
    if steps == [] {
      assert steps + [step] == [step] && [step][1..] == [];
    } else {
      RunAppend(After(c, steps[0]), steps[1..], cap, c', step);
      assert (steps + [step])[0] == steps[0] && (steps + [step])[1..] == steps[1..] + [step];
    }
  }
}
