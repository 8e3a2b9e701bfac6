/** What a client saw streamed is what the log stores: the deltas ahead of a `done` are numbered from zero
    and spell the text of a completed row, whatever other turns and connections do
    (core/chat_handler.py, core/ws.py, adapters/postgres/chat_repository.py). */
module ChatStreams {
  import opened Basics
  import opened SessionLog
  import opened Frames
  import opened ChatTurns
  import ChatKeys
  import P = Connection
  import T = Tables

  // ----- what one connection has said about one reply

  predicate NamedBefore(frames: seq<ServerFrame>, n: nat, m: Uuid) {
    exists k :: 0 <= k < n && k < |frames| && Names(frames[k], m)
  }

  /** When the `done` at `i` was sent, the reply had been named and all of it streamed. */
  predicate Settled(x: Handler, i: nat, m: Uuid)
    requires i < |x.sent| && m in x.turns && x.sent[i].Done?
  {
    && NamedBefore(x.sent, i, m)
    && DeltasOf(x.sent[..i], m) == AsDeltas(m, x.turns[m].chunks)
    && x.sent[i].seqNo == x.turns[m].seqNo
  }

  predicate Told(x: Handler, m: Uuid) {
    if m in x.turns then
      && NamedBefore(x.sent, |x.sent|, m)
      && DeltasOf(x.sent, m) == AsDeltas(m, x.turns[m].chunks)
      && (forall i :: 0 <= i < |x.sent| && Ends(x.sent[i], m) ==> x.turns[m].phase == Announced && Settled(x, i, m))
    else
      forall i :: 0 <= i < |x.sent| ==> !Streams(x.sent[i], m) && !Ends(x.sent[i], m)
  }

  lemma DeltasOfAppend(frames: seq<ServerFrame>, f: ServerFrame, m: Uuid)
    ensures DeltasOf(frames + [f], m) == DeltasOf(frames, m) + if Streams(f, m) then [f] else []
  {
    assert (frames + [f])[..|frames|] == frames;
  }

  lemma {:induction false} NoDeltas(frames: seq<ServerFrame>, m: Uuid)
    requires forall i :: 0 <= i < |frames| ==> !Streams(frames[i], m)
    ensures DeltasOf(frames, m) == []
  {
    if frames != [] { NoDeltas(frames[..|frames| - 1], m); }
  }

  /** A frame that neither streams nor ends the reply leaves what was said about it alone. */
  lemma ToldOfAnother(x: Handler, x': Handler, m: Uuid)
    requires Told(x, m)
    requires x'.sent == x.sent || (|x'.sent| == |x.sent| + 1 && x.sent == x'.sent[..|x.sent|]
                                   && !Streams(x'.sent[|x.sent|], m) && !Ends(x'.sent[|x.sent|], m))
    requires m in x'.turns <==> m in x.turns
    requires m in x.turns ==>
               && x'.turns[m].chunks == x.turns[m].chunks && x'.turns[m].seqNo == x.turns[m].seqNo
               && (x.turns[m].phase == Announced ==> x'.turns[m].phase == Announced)
    ensures Told(x', m)
  {
    var n := |x.sent|;
    if x'.sent != x.sent {
      assert x'.sent == x.sent + [x'.sent[n]];
      DeltasOfAppend(x.sent, x'.sent[n], m);
    }
    if m in x.turns {
      var k :| 0 <= k < n && Names(x.sent[k], m);
      assert Names(x'.sent[k], m);
      forall i | 0 <= i < |x'.sent| && Ends(x'.sent[i], m)
        ensures x'.turns[m].phase == Announced && Settled(x', i, m)
      {
        assert i < n && Settled(x, i, m) && x'.sent[..i] == x.sent[..i];
        var k :| 0 <= k < i && Names(x.sent[k], m);
        assert Names(x'.sent[k], m);
      }
    }
  }

  lemma ToldOfChunk(x: Handler, x': Handler, m: Uuid, text: string)
    requires Told(x, m) && m in x.turns && x.turns[m].phase == Speaking
    requires var t := x.turns[m];
             && x'.sent == x.sent + [Delta(m, |t.chunks|, text)]
             && m in x'.turns && x'.turns[m] == t.(chunks := t.chunks + [text])
    ensures Told(x', m)
  {
    var chunks := x.turns[m].chunks;
    DeltasOfAppend(x.sent, Delta(m, |chunks|, text), m);
    assert (chunks + [text])[..|chunks|] == chunks;
    var k :| 0 <= k < |x.sent| && Names(x.sent[k], m);
    assert Names(x'.sent[k], m);
  }

  lemma ToldOfDone(x: Handler, x': Handler, m: Uuid)
    requires Told(x, m) && m in x.turns && x.turns[m].phase == Stored
    requires var t := x.turns[m];
             && x'.sent == x.sent + [Done(m, t.seqNo)]
             && m in x'.turns && x'.turns[m] == t.(phase := Announced)
    ensures Told(x', m)
  {
    var n := |x.sent|;
    DeltasOfAppend(x.sent, Done(m, x.turns[m].seqNo), m);
    var k :| 0 <= k < n && Names(x.sent[k], m);
    assert Names(x'.sent[k], m);
    assert x'.sent[..n] == x.sent;
    assert Settled(x', n, m);
  }

  lemma ToldOfStart(x: Handler, x': Handler, m: Uuid)
    requires Told(x, m) && m !in x.turns && m in x'.turns && x'.turns[m].chunks == []
    requires |x'.sent| == |x.sent| + 1 && x.sent == x'.sent[..|x.sent|] && Names(x'.sent[|x.sent|], m)
    ensures Told(x', m)
  {
    NoDeltas(x'.sent, m);
  }

  ghost predicate AllTold(x: Handler) {
    forall m :: Told(x, m)
  }

  lemma HandlerKeepsTold(c: Chat, step: Step, cap: nat)
    requires Enabled(c, step, cap) && OfHandler(step) && AllTold(c.handlers[step.h])
    requires var x := c.handlers[step.h]; x.reading.Opened? ==> x.reading.reply.messageId !in x.turns
    ensures AllTold(HandlerAfter(c, step, c.handlers[step.h]))
  {
    var x, x' := c.handlers[step.h], HandlerAfter(c, step, c.handlers[step.h]);
    forall m: Uuid
      ensures Told(x', m)
    {
      assert Told(x, m);
      MessageKeepsTold(c, step, cap, m);
    }
  }

  /** What a step does to one reply that it neither streams, ends nor starts. */
  lemma OtherMessages(c: Chat, step: Step, cap: nat, m: Uuid)
    requires Enabled(c, step, cap) && OfHandler(step)
    requires !((step.Chunk? || step.Announce?) && step.m == m)
    requires var x := c.handlers[step.h]; step.StartReturns? ==> x.reading.reply.messageId != m
    ensures var x, x' := c.handlers[step.h], HandlerAfter(c, step, c.handlers[step.h]);
            && (x'.sent == x.sent || (|x'.sent| == |x.sent| + 1 && x.sent == x'.sent[..|x.sent|]
                                      && !Streams(x'.sent[|x.sent|], m) && !Ends(x'.sent[|x.sent|], m)))
            && (m in x'.turns <==> m in x.turns)
            && (m in x.turns ==>
                  && x'.turns[m].chunks == x.turns[m].chunks && x'.turns[m].seqNo == x.turns[m].seqNo
                  && (x.turns[m].phase == Announced ==> x'.turns[m].phase == Announced))
  {
    StepIsReady(c, step, cap);
    hide *;
    OthersSaid(c, step, m);
    OthersTurns(c, step, m);
  }

  /** What an enabled step finds at its own connection. */
  predicate Ready(x: Handler, step: Step) {
    match step
    case Say(_, f) => !f.Delta? && !f.Done?
    case Chunk(_, m, _) => m in x.turns && x.turns[m].phase == Speaking
    case AskComplete(_, m) => m in x.turns && x.turns[m].phase == Speaking
    case Announce(_, m) => m in x.turns && x.turns[m].phase == Stored
    case Break(_, m) => m in x.turns && x.turns[m].phase in {Speaking, Completing, Stored}
    case StartReturns(_) => x.reading.Opened?
    case _ => true
  }

  lemma StepIsReady(c: Chat, step: Step, cap: nat)
    requires Enabled(c, step, cap) && OfHandler(step)
    ensures step.h in c.handlers && Ready(c.handlers[step.h], step)
  {
    hide Fresh;
  }

  lemma OthersSaid(c: Chat, step: Step, m: Uuid)
    requires OfHandler(step) && step.h in c.handlers && Ready(c.handlers[step.h], step)
    requires !((step.Chunk? || step.Announce?) && step.m == m)
    ensures var x, x' := c.handlers[step.h], HandlerAfter(c, step, c.handlers[step.h]);
            x'.sent == x.sent || (|x'.sent| == |x.sent| + 1 && x.sent == x'.sent[..|x.sent|]
                                  && !Streams(x'.sent[|x.sent|], m) && !Ends(x'.sent[|x.sent|], m))
  {
    hide T.HasKey;
    hide TheKeyed;
    hide InPhase;
    ChatKeys.SameSaid(c, step);
  }

  lemma OthersTurns(c: Chat, step: Step, m: Uuid)
    requires OfHandler(step) && step.h in c.handlers && Ready(c.handlers[step.h], step)
    requires !((step.Chunk? || step.Announce?) && step.m == m)
    requires var x := c.handlers[step.h]; step.StartReturns? ==> x.reading.reply.messageId != m
    ensures var x, x' := c.handlers[step.h], HandlerAfter(c, step, c.handlers[step.h]);
            && (m in x'.turns <==> m in x.turns)
            && (m in x.turns ==>
                  && x'.turns[m].chunks == x.turns[m].chunks && x'.turns[m].seqNo == x.turns[m].seqNo
                  && (x.turns[m].phase == Announced ==> x'.turns[m].phase == Announced))
  {
    var x, x' := c.handlers[step.h], HandlerAfter(c, step, c.handlers[step.h]);
    hide T.HasKey;
    hide TheKeyed;
    if step.RecordLands? || step.RecordFails? || step.Reack? || step.StartLands? || step.StartFails? || step.TurnEnds? {
      assert x'.turns == x.turns;
    }
  }

  lemma MessageKeepsTold(c: Chat, step: Step, cap: nat, m: Uuid)
    requires Enabled(c, step, cap) && OfHandler(step) && Told(c.handlers[step.h], m)
    requires var x := c.handlers[step.h]; x.reading.Opened? ==> x.reading.reply.messageId !in x.turns
    ensures Told(HandlerAfter(c, step, c.handlers[step.h]), m)
  {
    var x, x' := c.handlers[step.h], HandlerAfter(c, step, c.handlers[step.h]);
    hide Told;
    hide SessionsAfter;
    hide DeltasOf;
    hide Fresh;
    if step.Chunk? && step.m == m {
      ToldOfChunk(x, x', m, step.text);
    } else if step.Announce? && step.m == m {
      ToldOfDone(x, x', m);
    } else if step.StartReturns? && x.reading.reply.messageId == m {
      ToldOfStart(x, x', m);
    } else {
      OtherMessages(c, step, cap, m);
      hide HandlerAfter;
      ToldOfAnother(x, x', m);
    }
  }

  // ----- one owner a reply

  predicate Claims(x: Handler, m: Uuid) {
    m in x.turns || (x.reading.Opened? && x.reading.reply.messageId == m)
  }

  /** A reply belongs to the connection that opened it and to no other, and its row exists. */
  ghost predicate Owned(c: Chat) {
    && (forall h, m :: h in c.handlers && Claims(c.handlers[h], m) ==> Exists(c.sessions, m))
    && (forall h, h', m ::
          h in c.handlers && h' in c.handlers && Claims(c.handlers[h], m) && Claims(c.handlers[h'], m) ==> h == h')
    && (forall h :: h in c.handlers && c.handlers[h].reading.Opened? ==>
          c.handlers[h].reading.reply.messageId !in c.handlers[h].turns)
  }

  lemma ExistsStays(c: Chat, step: Step, cap: nat, m: Uuid)
    requires Enabled(c, step, cap) && Exists(c.sessions, m)
    ensures Exists(After(c, step).sessions, m)
  {
    var session, i :| RowAt(c.sessions, session, i, m);
    ChatKeys.SessionGrows(c, step, cap, session);
    assert ChatKeys.SameIdentity(c.sessions[session].messages[i], SessionsAfter(c, step)[session].messages[i]);
    assert RowAt(After(c, step).sessions, session, i, m);
  }

  lemma FreshDoesNotExist(c: Chat, id: Uuid)
    requires Fresh(c, id)
    ensures !Exists(c.sessions, id)
  {
  }

  /** A connection claims nothing new but a reply whose row the step just opened. */
  lemma ClaimsOfStep(c: Chat, step: Step, cap: nat, h: nat, m: Uuid)
    requires Enabled(c, step, cap) && h in After(c, step).handlers && Claims(After(c, step).handlers[h], m)
    ensures h in c.handlers
    ensures Claims(c.handlers[h], m) || (step.StartLands? && step.h == h && step.id == m)
  {
    hide SessionsAfter;
  }

  lemma OpenedExists(c: Chat, step: Step, cap: nat)
    requires Enabled(c, step, cap) && step.StartLands?
    ensures Exists(After(c, step).sessions, step.id)
  {
    var session := c.handlers[step.h].session;
    assert RowAt(After(c, step).sessions, session, |c.sessions[session].messages|, step.id);
  }

  lemma OwnedStays(c: Chat, step: Step, cap: nat)
    requires Enabled(c, step, cap) && Owned(c)
    ensures Owned(After(c, step))
  {
    var c' := After(c, step);
    forall h, m | h in c'.handlers && Claims(c'.handlers[h], m)
      ensures Exists(c'.sessions, m)
    {
      ClaimsOfStep(c, step, cap, h, m);
      if Claims(c.handlers[h], m) { ExistsStays(c, step, cap, m); } else { OpenedExists(c, step, cap); }
    }
    forall h, h', m | h in c'.handlers && h' in c'.handlers && Claims(c'.handlers[h], m) && Claims(c'.handlers[h'], m)
      ensures h == h'
    {
      ClaimsOfStep(c, step, cap, h, m);
      ClaimsOfStep(c, step, cap, h', m);
      if step.StartLands? { FreshDoesNotExist(c, step.id); }
      hide After;
      hide Exists;
      hide Enabled;
    }
    forall h | h in c'.handlers && c'.handlers[h].reading.Opened?
      ensures c'.handlers[h].reading.reply.messageId !in c'.handlers[h].turns
    {
      OpenedIsNotTurning(c, step, cap, h);
    }
    hide After;
    hide Exists;
    hide Enabled;
  }

  lemma OpenedIsNotTurning(c: Chat, step: Step, cap: nat, h: nat)
    requires Enabled(c, step, cap) && Owned(c) && h in After(c, step).handlers
             && After(c, step).handlers[h].reading.Opened?
    ensures After(c, step).handlers[h].reading.reply.messageId !in After(c, step).handlers[h].turns
  {
    hide SessionsAfter;
    hide Exists;
    assert h in c.handlers ==> forall m :: m in c.handlers[h].turns ==> Exists(c.sessions, m) by {
      if h in c.handlers { assert forall m :: m in c.handlers[h].turns ==> Claims(c.handlers[h], m); }
    }
    if step.StartLands? { FreshDoesNotExist(c, step.id); }
    assert h in c.handlers && c.handlers[h].reading.Opened? ==>
             c.handlers[h].reading.reply.messageId !in c.handlers[h].turns;
    hide Owned;
    OpeningIsNew(c, step, cap, h);
  }

  lemma OpeningIsNew(c: Chat, step: Step, cap: nat, h: nat)
    requires Enabled(c, step, cap) && h in After(c, step).handlers && After(c, step).handlers[h].reading.Opened?
    ensures h in c.handlers
    ensures var x, x' := c.handlers[h], After(c, step).handlers[h];
            && x'.turns.Keys == x.turns.Keys
            && ((x'.reading == x.reading) || (step.StartLands? && x'.reading.reply.messageId == step.id))
  {
    hide SessionsAfter;
    hide Fresh;
    hide TheKeyed;
  }

  // ----- the row of a reply

  /** What a message table says of the row (or rows) with this identity. */
  ghost predicate Numbered(sessions: T.SessionMap, m: Uuid, seqNo: nat) {
    forall session, i :: RowAt(sessions, session, i, m) ==> sessions[session].messages[i].stored.seqNo == seqNo
  }

  ghost predicate Completed(sessions: T.SessionMap, m: Uuid, text: string) {
    forall session, i :: RowAt(sessions, session, i, m) ==>
      sessions[session].messages[i].stored.status == Complete && sessions[session].messages[i].stored.text == text
  }

  /** No two rows share an identity. */
  ghost predicate IdsOnce(sessions: T.SessionMap) {
    forall session, i, session', j, m :: RowAt(sessions, session, i, m) && RowAt(sessions, session', j, m) ==>
      session == session' && i == j
  }

  predicate Finishes(step: Step, m: Uuid) {
    (step.CompleteLands? || step.FailLands?) && step.m == m
  }

  /** A row under an identity that already existed was already there, and only its own turn's final write
      changes it. */
  lemma RowOfStep(c: Chat, step: Step, cap: nat, session: Uuid, i: int, m: Uuid)
    requires Enabled(c, step, cap) && Exists(c.sessions, m) && RowAt(SessionsAfter(c, step), session, i, m)
    ensures RowAt(c.sessions, session, i, m)
    ensures SessionsAfter(c, step)[session].messages[i].stored.seqNo == c.sessions[session].messages[i].stored.seqNo
    ensures !Finishes(step, m) ==> SessionsAfter(c, step)[session].messages[i] == c.sessions[session].messages[i]
  {
  }

  /** Every row was there, or is the one the step appended. */
  lemma RowPlace(c: Chat, step: Step, cap: nat, session: Uuid, i: int, m: Uuid)
    requires Enabled(c, step, cap) && RowAt(SessionsAfter(c, step), session, i, m)
    ensures RowAt(c.sessions, session, i, m)
            || (OfHandler(step) && session == c.handlers[step.h].session && i == |c.sessions[session].messages|)
  {
  }

  lemma IdsStayOnce(c: Chat, step: Step, cap: nat)
    requires Enabled(c, step, cap) && IdsOnce(c.sessions)
    ensures IdsOnce(SessionsAfter(c, step))
  {
    forall session, i, session', j, m | RowAt(SessionsAfter(c, step), session, i, m)
      && RowAt(SessionsAfter(c, step), session', j, m)
      ensures session == session' && i == j
    {
      if Exists(c.sessions, m) {
        RowOfStep(c, step, cap, session, i, m);
        RowOfStep(c, step, cap, session', j, m);
      } else {
        RowPlace(c, step, cap, session, i, m);
        RowPlace(c, step, cap, session', j, m);
      }
    }
  }

  lemma NumberedStays(c: Chat, step: Step, cap: nat, m: Uuid, seqNo: nat)
    requires Enabled(c, step, cap) && Exists(c.sessions, m) && Numbered(c.sessions, m, seqNo)
    ensures Numbered(SessionsAfter(c, step), m, seqNo)
  {
    forall session, i | RowAt(SessionsAfter(c, step), session, i, m)
      ensures SessionsAfter(c, step)[session].messages[i].stored.seqNo == seqNo
    {
      RowOfStep(c, step, cap, session, i, m);
    }
  }

  lemma CompletedStays(c: Chat, step: Step, cap: nat, m: Uuid, text: string)
    requires Enabled(c, step, cap) && Exists(c.sessions, m) && Completed(c.sessions, m, text) && !Finishes(step, m)
    ensures Completed(SessionsAfter(c, step), m, text)
  {
    forall session, i | RowAt(SessionsAfter(c, step), session, i, m)
      ensures SessionsAfter(c, step)[session].messages[i].stored.status == Complete
      ensures SessionsAfter(c, step)[session].messages[i].stored.text == text
    {
      RowOfStep(c, step, cap, session, i, m);
    }
  }

  /** The rows of a connection's replies: numbered as its frames say and, once the final write is known to
      have landed, holding exactly the streamed text. */
  ghost predicate RowsTrue(sessions: T.SessionMap, x: Handler) {
    && (forall m :: m in x.turns ==> Numbered(sessions, m, x.turns[m].seqNo))
    && (forall m :: m in x.turns && x.turns[m].phase in {Stored, Announced} ==>
          Completed(sessions, m, Concat(x.turns[m].chunks)))
    && (x.reading.Opened? ==> Numbered(sessions, x.reading.reply.messageId, x.reading.reply.seqNo))
  }

  lemma OnlyTheOwnerFinishes(c: Chat, step: Step, cap: nat, h: nat, m: Uuid)
    requires Enabled(c, step, cap) && Owned(c) && h in c.handlers && Claims(c.handlers[h], m)
    ensures Finishes(step, m) ==> step.h == h
  {
    if Finishes(step, m) {
      assert Claims(c.handlers[step.h], m);
    }
  }

  /** A connection's rows are safe from every step that is not its own turn's. */
  lemma RowsTrueForOthers(c: Chat, step: Step, cap: nat, h: nat)
    requires Enabled(c, step, cap) && Owned(c) && h in c.handlers && RowsTrue(c.sessions, c.handlers[h])
    requires (step.CompleteLands? || step.FailLands?) && step.h == h && step.m in c.handlers[h].turns ==>
               c.handlers[h].turns[step.m].phase !in {Stored, Announced}
    ensures RowsTrue(SessionsAfter(c, step), c.handlers[h])
  {
    var x := c.handlers[h];
    forall m | Claims(x, m)
      ensures Exists(c.sessions, m)
      ensures m in x.turns ==> Numbered(SessionsAfter(c, step), m, x.turns[m].seqNo)
      ensures m in x.turns && x.turns[m].phase in {Stored, Announced} ==>
                Completed(SessionsAfter(c, step), m, Concat(x.turns[m].chunks))
    {
      if m in x.turns {
        NumberedStays(c, step, cap, m, x.turns[m].seqNo);
        if x.turns[m].phase in {Stored, Announced} {
          OnlyTheOwnerFinishes(c, step, cap, h, m);
          CompletedStays(c, step, cap, m, Concat(x.turns[m].chunks));
        }
      }
    }
    if x.reading.Opened? {
      var r := x.reading.reply;
      assert Claims(x, r.messageId);
      NumberedStays(c, step, cap, r.messageId, r.seqNo);
    }
    assert forall m :: m in x.turns ==> Claims(x, m);
    hide Numbered;
    hide Completed;
    hide SessionsAfter;
  }

  lemma OpenedIsNumbered(c: Chat, step: Step, cap: nat)
    requires Enabled(c, step, cap) && step.StartLands?
    ensures var r := HandlerAfter(c, step, c.handlers[step.h]).reading;
            r.Opened? && r.reply.messageId == step.id && Numbered(SessionsAfter(c, step), step.id, r.reply.seqNo)
  {
  }

  lemma CompletingCompletes(c: Chat, step: Step, cap: nat)
    requires Enabled(c, step, cap) && step.CompleteLands?
    ensures Completed(SessionsAfter(c, step), step.m, Concat(c.handlers[step.h].turns[step.m].chunks))
  {
    hide Fresh;
    hide HandlerAfter;
  }

  /** What a step does to the turns of its connection, as far as their rows are concerned. */
  predicate TurnMoves(x: Handler, step: Step, x': Handler, m: Uuid)
    requires m in x'.turns
  {
    var t' := x'.turns[m];
    if m in x.turns then
      && t'.seqNo == x.turns[m].seqNo
      && (t'.phase in {Stored, Announced} ==>
            t'.chunks == x.turns[m].chunks && (x.turns[m].phase in {Stored, Announced}
                                               || (step.CompleteLands? && step.m == m)))
    else
      x.reading.Opened? && m == x.reading.reply.messageId && t'.seqNo == x.reading.reply.seqNo && t'.phase == Speaking
  }

  lemma HandlerMoves(c: Chat, step: Step, cap: nat, m: Uuid)
    requires Enabled(c, step, cap) && OfHandler(step) && m in HandlerAfter(c, step, c.handlers[step.h]).turns
    requires var x := c.handlers[step.h]; x.reading.Opened? ==> x.reading.reply.messageId !in x.turns
    ensures TurnMoves(c.handlers[step.h], step, HandlerAfter(c, step, c.handlers[step.h]), m)
  {
    StepIsReady(c, step, cap);
    hide *;
    if m in c.handlers[step.h].turns { OldTurnMoves(c, step, m); } else { NewTurnMoves(c, step, m); }
  }

  lemma OldTurnMoves(c: Chat, step: Step, m: Uuid)
    requires OfHandler(step) && step.h in c.handlers && Ready(c.handlers[step.h], step)
    requires m in HandlerAfter(c, step, c.handlers[step.h]).turns
    requires var x := c.handlers[step.h]; x.reading.Opened? ==> x.reading.reply.messageId !in x.turns
    requires m in c.handlers[step.h].turns
    ensures TurnMoves(c.handlers[step.h], step, HandlerAfter(c, step, c.handlers[step.h]), m)
  {
    hide TheKeyed;
    hide T.HasKey;
  }

  lemma NewTurnMoves(c: Chat, step: Step, m: Uuid)
    requires OfHandler(step) && step.h in c.handlers && Ready(c.handlers[step.h], step)
    requires m in HandlerAfter(c, step, c.handlers[step.h]).turns
    requires m !in c.handlers[step.h].turns
    ensures TurnMoves(c.handlers[step.h], step, HandlerAfter(c, step, c.handlers[step.h]), m)
  {
    hide TheKeyed;
    hide T.HasKey;
  }

  lemma ReadingMoves(c: Chat, step: Step, cap: nat)
    requires Enabled(c, step, cap) && OfHandler(step)
    ensures var x, x' := c.handlers[step.h], HandlerAfter(c, step, c.handlers[step.h]);
            x'.reading.Opened? ==> x'.reading == x.reading || step.StartLands?
  {
    hide Fresh;
    hide TheKeyed;
  }

  lemma RowsOfMoved(sessions: T.SessionMap, x: Handler, step: Step, x': Handler)
    requires RowsTrue(sessions, x)
    requires forall m :: m in x'.turns ==> TurnMoves(x, step, x', m)
    requires x'.reading.Opened? ==>
               x'.reading == x.reading || Numbered(sessions, x'.reading.reply.messageId, x'.reading.reply.seqNo)
    requires step.CompleteLands? && step.m in x.turns ==> Completed(sessions, step.m, Concat(x.turns[step.m].chunks))
    ensures RowsTrue(sessions, x')
  {
    hide Numbered;
    hide Completed;
    hide Concat;
    forall m | m in x'.turns
      ensures Numbered(sessions, m, x'.turns[m].seqNo)
      ensures x'.turns[m].phase in {Stored, Announced} ==> Completed(sessions, m, Concat(x'.turns[m].chunks))
    {
      assert TurnMoves(x, step, x', m);
    }
  }

  lemma HandlerKeepsRows(c: Chat, step: Step, cap: nat)
    requires Enabled(c, step, cap) && OfHandler(step) && Owned(c) && RowsTrue(c.sessions, c.handlers[step.h])
    ensures RowsTrue(SessionsAfter(c, step), HandlerAfter(c, step, c.handlers[step.h]))
  {
    assert var x := c.handlers[step.h]; x.reading.Opened? ==> x.reading.reply.messageId !in x.turns;
    hide Numbered;
    hide Completed;
    hide Owned;
    hide Concat;
    hide RowsTrue;
    hide TurnMoves;
    hide SessionsAfter;
    hide HandlerAfter;
    var x, x' := c.handlers[step.h], HandlerAfter(c, step, c.handlers[step.h]);
    RowsTrueForOthers(c, step, cap, step.h);
    ReadingMoves(c, step, cap);
    if step.StartLands? { OpenedIsNumbered(c, step, cap); }
    if step.CompleteLands? { CompletingCompletes(c, step, cap); }
    forall m | m in x'.turns
      ensures TurnMoves(x, step, x', m)
    {
      HandlerMoves(c, step, cap, m);
    }
    hide Enabled;
    RowsOfMoved(SessionsAfter(c, step), x, step, x');
  }

  // ----- whole runs

  ghost predicate StreamInv(c: Chat) {
    && IdsOnce(c.sessions)
    && Owned(c)
    && (forall h :: h in c.handlers ==> AllTold(c.handlers[h]) && RowsTrue(c.sessions, c.handlers[h]))
  }

  lemma NewcomerIsInOrder(c: Chat, step: Step, cap: nat)
    requires Enabled(c, step, cap) && step.Connect?
    ensures AllTold(After(c, step).handlers[step.h])
            && RowsTrue(After(c, step).sessions, After(c, step).handlers[step.h])
  {
  }

  lemma StepKeepsStreams(c: Chat, step: Step, cap: nat)
    requires StreamInv(c) && Enabled(c, step, cap)
    ensures StreamInv(After(c, step))
  {
    var c' := After(c, step);
    IdsStayOnce(c, step, cap);
    OwnedStays(c, step, cap);
    forall h | h in c'.handlers
      ensures AllTold(c'.handlers[h]) && RowsTrue(c'.sessions, c'.handlers[h])
    {
      if step.Connect? && step.h == h {
        NewcomerIsInOrder(c, step, cap);
      } else if OfHandler(step) && step.h == h {
        HandlerKeepsTold(c, step, cap);
        HandlerKeepsRows(c, step, cap);
      } else {
        RowsTrueForOthers(c, step, cap, h);
      }
      hide AllTold;
      hide RowsTrue;
      hide SessionsAfter;
      hide HandlerAfter;
      hide Owned;
    }
    hide After;
    hide AllTold;
    hide RowsTrue;
    hide Owned;
    hide IdsOnce;
  }

  lemma {:induction false} RunKeepsStreams(c: Chat, steps: seq<Step>, cap: nat, c': Chat)
    requires StreamInv(c) && Run(c, steps, cap, c')
    ensures StreamInv(c')
    decreases |steps|
  {
    hide StreamInv;
    if steps != [] {
      StepKeepsStreams(c, steps[0], cap);
      RunKeepsStreams(After(c, steps[0]), steps[1..], cap, c');
    }
  }

  /** An announced reply is left alone for ever. */
  lemma {:induction false} AnnouncedStays(c: Chat, steps: seq<Step>, cap: nat, c': Chat, h: nat, m: Uuid)
    requires Run(c, steps, cap, c') && h in c.handlers
    requires m in c.handlers[h].turns && c.handlers[h].turns[m].phase == Announced
    requires StreamInv(c)
    ensures h in c'.handlers && m in c'.handlers[h].turns && c'.handlers[h].turns[m] == c.handlers[h].turns[m]
    decreases |steps|
  {
    if steps != [] {
      StepKeepsStreams(c, steps[0], cap);
      OneStepLeavesAnnounced(c, steps[0], cap, h, m);
      hide StreamInv;
      AnnouncedStays(After(c, steps[0]), steps[1..], cap, c', h, m);
    }
  }

  lemma OneStepLeavesAnnounced(c: Chat, step: Step, cap: nat, h: nat, m: Uuid)
    requires Enabled(c, step, cap) && h in c.handlers
    requires m in c.handlers[h].turns && c.handlers[h].turns[m].phase == Announced && Owned(c)
    ensures h in After(c, step).handlers && m in After(c, step).handlers[h].turns
    ensures After(c, step).handlers[h].turns[m] == c.handlers[h].turns[m]
  {
    assert c.handlers[h].reading.Opened? ==> c.handlers[h].reading.reply.messageId != m;
    hide Owned;
    hide SessionsAfter;
    hide Fresh;
    if OfHandler(step) && step.h == h { OwnStepLeavesAnnounced(c, step, cap, m); }
    hide HandlerAfter;
    hide Enabled;
  }

  lemma OwnStepLeavesAnnounced(c: Chat, step: Step, cap: nat, m: Uuid)
    requires Enabled(c, step, cap) && OfHandler(step) && step.h in c.handlers
    requires var x := c.handlers[step.h];
             && m in x.turns && x.turns[m].phase == Announced
             && (x.reading.Opened? ==> x.reading.reply.messageId != m)
    ensures var x, x' := c.handlers[step.h], HandlerAfter(c, step, c.handlers[step.h]);
            m in x'.turns && x'.turns[m] == x.turns[m]
  {
    hide Fresh;
    hide TheKeyed;
  }

  // ----- the theorem

  /** The text a run of deltas spells. */
  function Spelled(deltas: seq<ServerFrame>): string
    requires forall i :: 0 <= i < |deltas| ==> deltas[i].Delta?
  {
    if deltas == [] then "" else Spelled(deltas[..|deltas| - 1]) + deltas[|deltas| - 1].text
  }

  lemma {:induction false} DeltasAreNumbered(m: Uuid, chunks: seq<string>)
    ensures var deltas := AsDeltas(m, chunks);
            && |deltas| == |chunks|
            && (forall i :: 0 <= i < |deltas| ==>
                  deltas[i].Delta? && deltas[i].messageId == m && deltas[i].chunkIndex == i)
            && Spelled(deltas) == Concat(chunks)
  {
    if chunks != [] {
      DeltasAreNumbered(m, chunks[..|chunks| - 1]);
      assert AsDeltas(m, chunks)[..|chunks| - 1] == AsDeltas(m, chunks[..|chunks| - 1]);
    }
  }

  /** Streamed equals stored. Whatever other turns and connections did, and whatever the socket lost: a
      `done` on the wire comes after an acknowledgement naming its reply and after deltas numbered from zero,
      and from then on the log holds one completed message with its number and precisely their text. */
  lemma StreamedEqualsStored(
      steps: seq<Step>, later: seq<Step>, cap: nat, c: Chat, c': Chat, h: nat,
      size: int, moves: seq<P.Step>, p: P.Pipe, i: nat, m: Uuid)
    requires Run(EMPTY, steps, cap, c) && Run(c, later, cap, c') && h in c.handlers
    requires P.Run(P.Open(size), moves, p) && p.sent == c.handlers[h].sent
    requires i < |p.wire| && Ends(p.wire[i], m)
    ensures NamedBefore(p.wire, i, m)
    ensures var deltas := DeltasOf(p.wire[..i], m);
            && (forall k :: 0 <= k < |deltas| ==> Streams(deltas[k], m) && deltas[k].chunkIndex == k)
            && Exists(c'.sessions, m)
            && IdsOnce(c'.sessions)
            && Numbered(c'.sessions, m, p.wire[i].seqNo)
            && Completed(c'.sessions, m, Spelled(deltas))
  {
    P.WireIsAPrefix(size, moves, p);
    hide P.Run;
    hide Run;
    hide AsDeltas;
    hide DeltasOf;
    hide Spelled;
    hide Exists;
    hide Numbered;
    hide Completed;
    hide IdsOnce;
    StartInOrder();
    hide StreamInv;
    RunKeepsStreams(EMPTY, steps, cap, c);
    RunKeepsStreams(c, later, cap, c');
    var x := c.handlers[h];
    assert p.wire[i] == x.sent[i] && p.wire[..i] == x.sent[..i];
    DoneIsSettled(c, h, i, m);
    AnnouncedStays(c, later, cap, c', h, m);
    DeltasAreNumbered(m, x.turns[m].chunks);
    AnnouncedIsStored(c', h, m);
    var k :| 0 <= k < i && Names(x.sent[k], m);
    assert Names(p.wire[k], m);
  }

  lemma StartInOrder()
    ensures StreamInv(EMPTY)
  {
  }

  lemma DoneIsSettled(c: Chat, h: nat, i: nat, m: Uuid)
    requires StreamInv(c) && h in c.handlers && i < |c.handlers[h].sent| && Ends(c.handlers[h].sent[i], m)
    ensures m in c.handlers[h].turns && c.handlers[h].turns[m].phase == Announced && Settled(c.handlers[h], i, m)
  {
    assert Told(c.handlers[h], m);
    hide Owned;
    hide RowsTrue;
    hide Settled;
  }

  lemma AnnouncedIsStored(c: Chat, h: nat, m: Uuid)
    requires StreamInv(c) && h in c.handlers && m in c.handlers[h].turns && c.handlers[h].turns[m].phase == Announced
    ensures var t := c.handlers[h].turns[m];
            Exists(c.sessions, m) && IdsOnce(c.sessions) && Numbered(c.sessions, m, t.seqNo)
            && Completed(c.sessions, m, Concat(t.chunks))
  {
    assert Claims(c.handlers[h], m) && RowsTrue(c.sessions, c.handlers[h]);
    hide AllTold;
    hide Exists;
    hide IdsOnce;
    hide Numbered;
    hide Completed;
  }
}
