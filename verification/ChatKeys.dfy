/** Submitting a message is idempotent over all connections of a session: one row a key, one reply, one
    acknowledgement (core/chat_handler.py, adapters/postgres/chat_repository.py). */
module ChatKeys {
  import opened Basics
  import opened SessionLog
  import opened Frames
  import opened ChatTurns
  import T = Tables

  // ----- what a step does to the rows of one session

  /** Earlier rows keep their identity; a step adds at most one. */
  predicate Grows(s: Session, s': Session) {
    && |s.messages| <= |s'.messages| <= |s.messages| + 1
    && (forall i :: 0 <= i < |s.messages| ==> SameIdentity(s.messages[i], s'.messages[i]))
  }

  predicate SameIdentity(a: MessageRow, b: MessageRow) {
    a.clientMsgId == b.clientMsgId && a.stored.seqNo == b.stored.seqNo && a.stored.messageId == b.stored.messageId
    && a.stored.role == b.stored.role
  }

  lemma SessionGrows(c: Chat, step: Step, cap: nat, session: Uuid)
    requires Enabled(c, step, cap) && session in c.sessions
    ensures session in SessionsAfter(c, step) && Grows(c.sessions[session], SessionsAfter(c, step)[session])
  {
  }

  /** Only a recorded message brings a new key, and only one that was free. */
  lemma NewKeyedRow(c: Chat, step: Step, cap: nat, session: Uuid)
    requires Enabled(c, step, cap) && session in c.sessions
    requires |SessionsAfter(c, step)[session].messages| == |c.sessions[session].messages| + 1
    ensures var s, row := c.sessions[session], SessionsAfter(c, step)[session].messages[|c.sessions[session].messages|];
            row.clientMsgId.Some? ==>
              && (step.RecordLands? || step.RecordFails?) && !T.HasKey(s, row.clientMsgId.value)
              && row == MessageRow(StoredMessage(s.nextSeq, step.id, User, Complete, step.text), Some(step.key))
  {
  }

  ghost predicate KeysOnce(s: Session) {
    forall i, j :: 0 <= i < j < |s.messages| && s.messages[i].clientMsgId.Some? ==>
      s.messages[i].clientMsgId != s.messages[j].clientMsgId
  }

  lemma KeysStayOnce(c: Chat, step: Step, cap: nat, session: Uuid)
    requires Enabled(c, step, cap) && session in SessionsAfter(c, step)
    requires session in c.sessions ==> KeysOnce(c.sessions[session])
    ensures KeysOnce(SessionsAfter(c, step)[session])
  {
    if session in c.sessions {
      SessionGrows(c, step, cap, session);
      var s, s' := c.sessions[session], SessionsAfter(c, step)[session];
      if |s'.messages| == |s.messages| + 1 {
        NewKeyedRow(c, step, cap, session);
        hide SessionsAfter;
        forall i, j | 0 <= i < j < |s'.messages| && s'.messages[i].clientMsgId.Some?
          ensures s'.messages[i].clientMsgId != s'.messages[j].clientMsgId
        {
          assert SameIdentity(s.messages[i], s'.messages[i]);
          if j < |s.messages| { assert SameIdentity(s.messages[j], s'.messages[j]); }
        }
      } else {
        hide SessionsAfter;
        forall i | 0 <= i < |s.messages|
          ensures s'.messages[i].clientMsgId == s.messages[i].clientMsgId
        {
          assert SameIdentity(s.messages[i], s'.messages[i]);
        }
      }
    }
  }

  lemma KeyedStays(s: Session, s': Session, key: string, seqNo: nat, id: Uuid)
    requires Grows(s, s') && KeyedAs(s, key, seqNo, id)
    ensures KeyedAs(s', key, seqNo, id)
  {
    var i :| 0 <= i < |s.messages| && Keyed(s.messages[i], key, seqNo, id);
    assert SameIdentity(s.messages[i], s'.messages[i]);
    assert Keyed(s'.messages[i], key, seqNo, id);
  }

  lemma HasKeyStays(s: Session, s': Session, key: string)
    requires Grows(s, s') && T.HasKey(s, key)
    ensures T.HasKey(s', key)
  {
    var i :| 0 <= i < |s.messages| && s.messages[i].clientMsgId == Some(key);
    assert SameIdentity(s.messages[i], s'.messages[i]);
  }

  // ----- what every connection has been told

  /** Every acknowledgement sent, and the one being prepared, name the stored row of their key. */
  ghost predicate AcksTrue(sessions: T.SessionMap, x: Handler) {
    && x.session in sessions
    && (forall i :: 0 <= i < |x.sent| && x.sent[i].Ack? ==>
          KeyedAs(sessions[x.session], x.sent[i].clientMsgId, x.sent[i].seqNo, x.sent[i].messageId))
    && (!x.reading.Between? ==>
          KeyedAs(sessions[x.session], x.reading.key, x.reading.message.seqNo, x.reading.message.messageId))
  }

  lemma AcksStayTrue(sessions: T.SessionMap, sessions': T.SessionMap, x: Handler)
    requires AcksTrue(sessions, x) && x.session in sessions' && Grows(sessions[x.session], sessions'[x.session])
    ensures AcksTrue(sessions', x)
  {
    forall i | 0 <= i < |x.sent| && x.sent[i].Ack?
      ensures KeyedAs(sessions'[x.session], x.sent[i].clientMsgId, x.sent[i].seqNo, x.sent[i].messageId)
    {
      KeyedStays(sessions[x.session], sessions'[x.session], x.sent[i].clientMsgId, x.sent[i].seqNo,
                 x.sent[i].messageId);
    }
    if !x.reading.Between? {
      KeyedStays(sessions[x.session], sessions'[x.session], x.reading.key, x.reading.message.seqNo,
                 x.reading.message.messageId);
    }
  }

  lemma RecordingIsKeyed(c: Chat, step: Step, cap: nat)
    requires Enabled(c, step, cap) && step.RecordLands?
    ensures var r := HandlerAfter(c, step, c.handlers[step.h]).reading;
            var session := c.handlers[step.h].session;
            && session in SessionsAfter(c, step) && r.Recorded? && r.key == step.key
            && (r.created <==> !T.HasKey(c.sessions[session], step.key))
            && KeyedAs(SessionsAfter(c, step)[session], r.key, r.message.seqNo, r.message.messageId)
            && T.HasKey(SessionsAfter(c, step)[session], r.key)
  {
    var session := c.handlers[step.h].session;
    var s, s' := c.sessions[session], SessionsAfter(c, step)[session];
    var r := HandlerAfter(c, step, c.handlers[step.h]).reading;
    if T.HasKey(s, step.key) {
      assert Keyed(s'.messages[FirstKeyed(s.messages, step.key)], r.key, r.message.seqNo, r.message.messageId);
    } else {
      assert Keyed(s'.messages[|s.messages|], r.key, r.message.seqNo, r.message.messageId);
    }
  }

  lemma HandlerKeepsAcks(c: Chat, step: Step, cap: nat)
    requires Enabled(c, step, cap) && OfHandler(step) && AcksTrue(c.sessions, c.handlers[step.h])
    ensures AcksTrue(SessionsAfter(c, step), HandlerAfter(c, step, c.handlers[step.h]))
  {
    var x := c.handlers[step.h];
    SessionGrows(c, step, cap, x.session);
    AcksStayTrue(c.sessions, SessionsAfter(c, step), x);
    if step.RecordLands? { RecordingIsKeyed(c, step, cap); }
    hide SessionsAfter;
    hide KeyedAs;
  }

  /** Every reply an acknowledgement names was opened for its key. */
  predicate NamesTrue(openings: seq<Opening>, x: Handler) {
    forall i :: 0 <= i < |x.sent| && x.sent[i].Ack? && x.sent[i].replyMessageId.Some? ==>
      Opening(x.session, x.sent[i].clientMsgId, x.sent[i].replyMessageId.value) in openings
  }

  /** The acknowledgement a read loop sends at this step. */
  predicate Acknowledges(x: Handler, step: Step, f: ServerFrame)
    requires f.Ack?
  {
    || (step.Reack? && x.reading.Recorded? && f.clientMsgId == x.reading.key
        && f.replyMessageId == if x.reading.key in x.live then Some(x.live[x.reading.key]) else None)
    || (step.StartReturns? && x.reading.Opened? && f.clientMsgId == x.reading.key
        && f.replyMessageId == Some(x.reading.reply.messageId))
  }

  /** What one step sends: at most one frame, and an acknowledgement only from a read loop. */
  lemma SaidByStep(c: Chat, step: Step, cap: nat)
    requires Enabled(c, step, cap) && OfHandler(step)
    ensures var x, x' := c.handlers[step.h], HandlerAfter(c, step, c.handlers[step.h]);
            && x'.session == x.session
            && (x'.sent == x.sent
                || (|x'.sent| == |x.sent| + 1 && x'.sent[..|x.sent|] == x.sent
                    && (x'.sent[|x.sent|].Ack? ==> Acknowledges(x, step, x'.sent[|x.sent|]))))
  {
    SaysAtMostOne(c, step);
    hide HandlerAfter;
    var x, x' := c.handlers[step.h], HandlerAfter(c, step, c.handlers[step.h]);
    if |x'.sent| > |x.sent| && x'.sent[|x.sent|].Ack? { AcksOnlyFromReading(c, step, cap); }
    hide Enabled;
  }

  lemma SaysAtMostOne(c: Chat, step: Step)
    requires OfHandler(step) && step.h in c.handlers
    ensures var x, x' := c.handlers[step.h], HandlerAfter(c, step, c.handlers[step.h]);
            && x'.session == x.session
            && (x'.sent == x.sent || (|x'.sent| == |x.sent| + 1 && x'.sent[..|x.sent|] == x.sent))
  {
    hide T.HasKey;
    hide TheKeyed;
    hide InPhase;
    SameSaid(c, step);
  }

  lemma AcksOnlyFromReading(c: Chat, step: Step, cap: nat)
    requires Enabled(c, step, cap) && OfHandler(step)
    requires var x, x' := c.handlers[step.h], HandlerAfter(c, step, c.handlers[step.h]);
             |x'.sent| == |x.sent| + 1 && x'.sent[|x.sent|].Ack?
    ensures var x, x' := c.handlers[step.h], HandlerAfter(c, step, c.handlers[step.h]);
            Acknowledges(x, step, x'.sent[|x.sent|])
  {
    hide Fresh;
    hide T.HasKey;
    hide TheKeyed;
    hide InPhase;
    SameSaid(c, step);
  }

  lemma SameSaid(c: Chat, step: Step)
    requires OfHandler(step) && step.h in c.handlers
    ensures forall x: Handler, m, phase ::
              InPhase(x, m, phase).sent == x.sent && InPhase(x, m, phase).session == x.session
  {
  }

  lemma NamesOfMoreOpenings(openings: seq<Opening>, more: seq<Opening>, x: Handler)
    requires NamesTrue(openings, x)
    ensures NamesTrue(openings + more, x)
  {
  }

  /** One more frame, and if it is an acknowledgement, it names what was opened. */
  lemma NamesOfOneMore(openings: seq<Opening>, x: Handler, x': Handler)
    requires NamesTrue(openings, x) && x'.session == x.session
    requires |x'.sent| == |x.sent| + 1 && x'.sent[..|x.sent|] == x.sent
    requires var f := x'.sent[|x.sent|];
             f.Ack? && f.replyMessageId.Some? ==> Opening(x.session, f.clientMsgId, f.replyMessageId.value) in openings
    ensures NamesTrue(openings, x')
  {
    forall i | 0 <= i < |x.sent|
      ensures x'.sent[i] == x.sent[i]
    {
      assert x'.sent[..|x.sent|][i] == x'.sent[i];
    }
  }

  lemma HandlerKeepsNames(c: Chat, step: Step, cap: nat)
    requires Enabled(c, step, cap) && OfHandler(step)
    requires NamesTrue(c.openings, c.handlers[step.h]) && LiveInv(c.openings, c.handlers[step.h], cap)
    ensures NamesTrue(c.openings + NewOpenings(c, step), HandlerAfter(c, step, c.handlers[step.h]))
  {
    hide LiveInv;
    hide HandlerAfter;
    hide SessionsAfter;
    hide NewOpenings;
    hide NamesTrue;
    var x, x' := c.handlers[step.h], HandlerAfter(c, step, c.handlers[step.h]);
    SaidByStep(c, step, cap);
    ReadingNames(c, step, cap);
    hide Enabled;
    if x'.sent == x.sent { SameNames(c.openings, x, x'); } else { NamesOfOneMore(c.openings, x, x'); }
    NamesOfMoreOpenings(c.openings, NewOpenings(c, step), x');
  }

  lemma SameNames(openings: seq<Opening>, x: Handler, x': Handler)
    requires NamesTrue(openings, x) && x'.session == x.session && x'.sent == x.sent
    ensures NamesTrue(openings, x')
  {
  }

  /** What a read loop may name has been opened for its key. */
  lemma ReadingNames(c: Chat, step: Step, cap: nat)
    requires Enabled(c, step, cap) && OfHandler(step) && LiveInv(c.openings, c.handlers[step.h], cap)
    ensures var x := c.handlers[step.h];
            && (step.Reack? ==> x.reading.Recorded?)
            && (step.StartReturns? ==> x.reading.Opened?
                                       && Opening(x.session, x.reading.key, x.reading.reply.messageId) in c.openings)
            && (step.Reack? && x.reading.key in x.live ==>
                  Opening(x.session, x.reading.key, x.live[x.reading.key]) in c.openings)
  {
    var x := c.handlers[step.h];
    if step.Reack? && x.reading.key in x.live {
      var m := x.live[x.reading.key];
      assert m in x.turns && x.turns[m].key == x.reading.key;
    }
  }

  // ----- at most one reply a key

  ghost predicate OpenedOnce(c: Chat) {
    && (forall i, j :: 0 <= i < j < |c.openings| ==>
          c.openings[i].session != c.openings[j].session || c.openings[i].key != c.openings[j].key)
    && (forall i :: 0 <= i < |c.openings| ==>
          c.openings[i].session in c.sessions && T.HasKey(c.sessions[c.openings[i].session], c.openings[i].key))
  }

  /** This connection's read loop holds the right to open the reply for its key. */
  predicate MayOpen(x: Handler) {
    x.reading.Recorded? && x.reading.created
  }

  ghost predicate RightsOnce(c: Chat) {
    && (forall h, i :: h in c.handlers && MayOpen(c.handlers[h]) && 0 <= i < |c.openings| ==>
          c.openings[i].session != c.handlers[h].session || c.openings[i].key != c.handlers[h].reading.key)
    && (forall h, h' ::
          h in c.handlers && h' in c.handlers && h != h' && MayOpen(c.handlers[h]) && MayOpen(c.handlers[h']) ==>
          c.handlers[h].session != c.handlers[h'].session || c.handlers[h].reading.key != c.handlers[h'].reading.key)
    && (forall h :: h in c.handlers && MayOpen(c.handlers[h]) ==>
          c.handlers[h].session in c.sessions && T.HasKey(c.sessions[c.handlers[h].session], c.handlers[h].reading.key))
  }

  lemma OpeningsStayOnce(c: Chat, step: Step, cap: nat)
    requires Enabled(c, step, cap) && OpenedOnce(c) && RightsOnce(c)
    ensures OpenedOnce(After(c, step))
  {
    var c' := After(c, step);
    forall i | 0 <= i < |c'.openings|
      ensures c'.openings[i].session in c'.sessions && T.HasKey(c'.sessions[c'.openings[i].session], c'.openings[i].key)
    {
      var o := c'.openings[i];
      assert o.session in c.sessions && T.HasKey(c.sessions[o.session], o.key) by {
        if i < |c.openings| { assert o == c.openings[i]; } else { assert MayOpen(c.handlers[step.h]); }
      }
      SessionGrows(c, step, cap, o.session);
      HasKeyStays(c.sessions[o.session], c'.sessions[o.session], o.key);
    }
    hide T.HasKey;
    hide SessionsAfter;
    hide HandlerAfter;
    if NewOpenings(c, step) != [] {
      assert MayOpen(c.handlers[step.h]);
    }
  }

  /** What a step makes of a connection's right to open: it is given by recording a free key, and gone
      once used. */
  lemma RightOfStep(c: Chat, step: Step, cap: nat, h: nat)
    requires Enabled(c, step, cap) && h in After(c, step).handlers && MayOpen(After(c, step).handlers[h])
    ensures h in c.handlers && After(c, step).handlers[h].session == c.handlers[h].session
    ensures (MayOpen(c.handlers[h]) && After(c, step).handlers[h].reading == c.handlers[h].reading
             && (OfHandler(step) && step.h == h ==> NewOpenings(c, step) == []))
            || (step.RecordLands? && step.h == h && After(c, step).handlers[h].reading.key == step.key
                && c.handlers[h].session in c.sessions && !T.HasKey(c.sessions[c.handlers[h].session], step.key))
  {
    hide SessionsAfter;
    hide T.HasKey;
  }

  lemma RightsStayOnce(c: Chat, step: Step, cap: nat)
    requires Enabled(c, step, cap) && OpenedOnce(c) && RightsOnce(c)
    ensures RightsOnce(After(c, step))
  {
    var c' := After(c, step);
    forall h | h in c'.handlers && MayOpen(c'.handlers[h])
      ensures h in c.handlers && c'.handlers[h].session == c.handlers[h].session
      ensures c'.handlers[h].session in c'.sessions
              && T.HasKey(c'.sessions[c'.handlers[h].session], c'.handlers[h].reading.key)
      ensures forall i :: 0 <= i < |c'.openings| ==>
                c'.openings[i].session != c'.handlers[h].session || c'.openings[i].key != c'.handlers[h].reading.key
    {
      RightOfStep(c, step, cap, h);
      RightIsNew(c, step, cap, h);
    }
    forall h, h' | h in c'.handlers && h' in c'.handlers && h != h' && MayOpen(c'.handlers[h])
      && MayOpen(c'.handlers[h'])
      ensures c'.handlers[h].session != c'.handlers[h'].session
              || c'.handlers[h].reading.key != c'.handlers[h'].reading.key
    {
      RightOfStep(c, step, cap, h);
      RightOfStep(c, step, cap, h');
      hide T.HasKey;
      hide SessionsAfter;
      hide HandlerAfter;
    }
  }

  lemma RightIsNew(c: Chat, step: Step, cap: nat, h: nat)
    requires Enabled(c, step, cap) && OpenedOnce(c) && RightsOnce(c)
    requires h in After(c, step).handlers && MayOpen(After(c, step).handlers[h])
    ensures var c' := After(c, step);
            var x := c'.handlers[h];
            && x.session in c'.sessions && T.HasKey(c'.sessions[x.session], x.reading.key)
            && (forall i :: 0 <= i < |c'.openings| ==>
                  c'.openings[i].session != x.session || c'.openings[i].key != x.reading.key)
  {
    var c' := After(c, step);
    RightOfStep(c, step, cap, h);
    var x, x' := c.handlers[h], c'.handlers[h];
    if step.RecordLands? && step.h == h && !MayOpen(x) {
      RecordingIsKeyed(c, step, cap);
    } else if MayOpen(x) && x'.reading == x.reading {
      SessionGrows(c, step, cap, x.session);
      HasKeyStays(c.sessions[x.session], c'.sessions[x.session], x.reading.key);
      hide T.HasKey;
      hide SessionsAfter;
      hide HandlerAfter;
      if NewOpenings(c, step) != [] {
        assert MayOpen(c.handlers[step.h]);
      }
    }
  }

  // ----- the live replies of one connection

  /** Every opened reply has its row. */
  ghost predicate RepliesExist(c: Chat) {
    forall k :: 0 <= k < |c.openings| ==>
      c.openings[k].session in c.sessions && HasMessage(c.sessions[c.openings[k].session], c.openings[k].reply)
  }

  predicate HasMessage(s: Session, m: Uuid) {
    exists i :: 0 <= i < |s.messages| && s.messages[i].stored.messageId == m
  }

  lemma RepliesStay(c: Chat, step: Step, cap: nat)
    requires Enabled(c, step, cap) && RepliesExist(c)
    ensures RepliesExist(After(c, step))
  {
    var c' := After(c, step);
    forall k | 0 <= k < |c'.openings|
      ensures c'.openings[k].session in c'.sessions
              && HasMessage(c'.sessions[c'.openings[k].session], c'.openings[k].reply)
    {
      var o := c'.openings[k];
      if k < |c.openings| {
        assert o == c.openings[k];
        SessionGrows(c, step, cap, o.session);
        var i :| 0 <= i < |c.sessions[o.session].messages|
          && c.sessions[o.session].messages[i].stored.messageId == o.reply;
        assert SameIdentity(c.sessions[o.session].messages[i], c'.sessions[o.session].messages[i]);
      } else {
        var n := |c.sessions[o.session].messages|;
        assert c'.sessions[o.session].messages[n].stored.messageId == o.reply;
      }
    }
  }

  /** The live map is exactly the running turns by key, and they are no more than the cap. Every turn
      came from an opening of its key. */
  ghost predicate LiveInv(openings: seq<Opening>, x: Handler, cap: nat) {
    && (forall key :: key in x.live ==>
          x.live[key] in x.tasks && x.live[key] in x.turns && x.turns[x.live[key]].key == key)
    && (forall m :: m in x.tasks ==> m in x.turns && x.turns[m].key in x.live && x.live[x.turns[m].key] == m)
    && |x.tasks| <= cap
    && (!x.reading.Between? ==> |x.tasks| < cap)
    && (forall m :: m in x.turns ==> Opening(x.session, x.turns[m].key, m) in openings)
    && (x.reading.Opened? ==>
          Opening(x.session, x.reading.key, x.reading.reply.messageId) in openings
            && x.reading.reply.messageId !in x.turns)
  }

  lemma OneOpening(c: Chat, a: Opening, b: Opening)
    requires OpenedOnce(c) && a in c.openings && b in c.openings
    ensures a.session == b.session && a.key == b.key ==> a == b
  {
    var i :| 0 <= i < |c.openings| && c.openings[i] == a;
    var j :| 0 <= j < |c.openings| && c.openings[j] == b;
  }

  /** The key of a reply that is about to be announced is not live. */
  lemma NewKeyIsNotLive(c: Chat, x: Handler, cap: nat)
    requires OpenedOnce(c) && LiveInv(c.openings, x, cap) && x.reading.Opened?
    ensures x.reading.key !in x.live
  {
    forall key | key in x.live
      ensures key != x.reading.key
    {
      OneOpening(c, Opening(x.session, key, x.live[key]), Opening(x.session, x.reading.key, x.reading.reply.messageId));
    }
  }

  lemma FreshIsNoTurn(c: Chat, x: Handler, id: Uuid, cap: nat)
    requires RepliesExist(c) && LiveInv(c.openings, x, cap) && Fresh(c, id)
    ensures id !in x.turns
  {
    forall m | m in x.turns
      ensures m != id
    {
      var k :| 0 <= k < |c.openings| && c.openings[k] == Opening(x.session, x.turns[m].key, m);
      assert HasMessage(c.sessions[x.session], m);
    }
  }

  lemma TasksAfter(tasks: set<Uuid>, m: Uuid)
    ensures |tasks + {m}| <= |tasks| + 1
    ensures |tasks - {m}| <= |tasks|
  {
    if m in tasks {
      assert tasks + {m} == tasks;
      assert |tasks - {m}| + |{m}| == |tasks|;
    } else {
      assert tasks - {m} == tasks;
    }
  }

  lemma LiveOfMoreOpenings(openings: seq<Opening>, more: seq<Opening>, x: Handler, cap: nat)
    requires LiveInv(openings, x, cap)
    ensures LiveInv(openings + more, x, cap)
  {
  }

  /** Steps that leave the turns and their keys alone. */
  lemma LiveOfSameTurns(openings: seq<Opening>, x: Handler, x': Handler, cap: nat)
    requires LiveInv(openings, x, cap)
    requires x'.session == x.session && x'.live == x.live && x'.tasks == x.tasks && x'.turns.Keys == x.turns.Keys
    requires forall m :: m in x.turns ==> x'.turns[m].key == x.turns[m].key
    requires x'.reading == x.reading || x'.reading.Between? || (x'.reading.Recorded? && |x.tasks| < cap)
    ensures LiveInv(openings, x', cap)
  {
  }

  lemma LiveOfNewTurn(openings: seq<Opening>, x: Handler, x': Handler, m: Uuid, t: Turn, cap: nat)
    requires LiveInv(openings, x, cap) && x.reading.Opened? && m == x.reading.reply.messageId && t.key == x.reading.key
    requires t.key !in x.live
    requires x'.session == x.session && x'.live == x.live[t.key := m] && x'.turns == x.turns[m := t]
    requires x'.tasks == x.tasks + {m} && x'.reading.Between?
    ensures LiveInv(openings, x', cap)
  {
    TasksAfter(x.tasks, m);
    forall key | key in x'.live
      ensures x'.live[key] in x'.tasks && x'.live[key] in x'.turns && x'.turns[x'.live[key]].key == key
    {
      if key != t.key { assert x'.live[key] == x.live[key]; }
    }
    forall n | n in x'.tasks
      ensures n in x'.turns && x'.turns[n].key in x'.live && x'.live[x'.turns[n].key] == n
    {
      if n != m { assert n in x.tasks && x'.turns[n] == x.turns[n]; }
    }
    forall n | n in x'.turns
      ensures Opening(x'.session, x'.turns[n].key, n) in openings
    {
      if n != m { assert n in x.turns && x'.turns[n] == x.turns[n]; }
    }
  }

  lemma LiveOfStartReturns(c: Chat, step: Step, cap: nat)
    requires Enabled(c, step, cap) && step.StartReturns? && OpenedOnce(c)
    requires LiveInv(c.openings, c.handlers[step.h], cap)
    ensures LiveInv(c.openings, HandlerAfter(c, step, c.handlers[step.h]), cap)
  {
    var x := c.handlers[step.h];
    NewKeyIsNotLive(c, x, cap);
    LiveOfNewTurn(c.openings, x, HandlerAfter(c, step, x), x.reading.reply.messageId,
                  Turn(x.reading.key, x.reading.reply.seqNo, [], Speaking), cap);
  }

  lemma LiveOfTurnEnds(c: Chat, step: Step, cap: nat)
    requires Enabled(c, step, cap) && step.TurnEnds?
    requires LiveInv(c.openings, c.handlers[step.h], cap)
    ensures LiveInv(c.openings, HandlerAfter(c, step, c.handlers[step.h]), cap)
  {
    TasksAfter(c.handlers[step.h].tasks, step.m);
  }

  lemma LiveOfStartLands(c: Chat, step: Step, cap: nat)
    requires Enabled(c, step, cap) && step.StartLands? && RepliesExist(c)
    requires LiveInv(c.openings, c.handlers[step.h], cap)
    ensures LiveInv(c.openings + NewOpenings(c, step), HandlerAfter(c, step, c.handlers[step.h]), cap)
  {
    FreshIsNoTurn(c, c.handlers[step.h], step.id, cap);
    LiveOfMoreOpenings(c.openings, NewOpenings(c, step), c.handlers[step.h], cap);
    assert NewOpenings(c, step)[0] in c.openings + NewOpenings(c, step);
  }

  lemma LiveStays(c: Chat, step: Step, cap: nat)
    requires Enabled(c, step, cap) && OfHandler(step) && OpenedOnce(c) && RepliesExist(c)
    requires LiveInv(c.openings, c.handlers[step.h], cap)
    ensures LiveInv(c.openings + NewOpenings(c, step), HandlerAfter(c, step, c.handlers[step.h]), cap)
  {
    var x, x' := c.handlers[step.h], HandlerAfter(c, step, c.handlers[step.h]);
    if step.StartLands? {
      LiveOfStartLands(c, step, cap);
    } else {
      if step.StartReturns? {
        LiveOfStartReturns(c, step, cap);
      } else if step.TurnEnds? {
        LiveOfTurnEnds(c, step, cap);
      } else {
        OtherStepsKeepTurns(c, step, cap);
        LiveOfSameTurns(c.openings, x, x', cap);
      }
      LiveOfMoreOpenings(c.openings, NewOpenings(c, step), x', cap);
    }
  }

  lemma OtherStepsKeepTurns(c: Chat, step: Step, cap: nat)
    requires Enabled(c, step, cap) && OfHandler(step)
    requires !step.StartLands? && !step.StartReturns? && !step.TurnEnds?
    ensures var x, x' := c.handlers[step.h], HandlerAfter(c, step, c.handlers[step.h]);
            && x'.session == x.session && x'.live == x.live && x'.tasks == x.tasks && x'.turns.Keys == x.turns.Keys
            && (forall m :: m in x.turns ==> x'.turns[m].key == x.turns[m].key)
            && (x'.reading == x.reading || x'.reading.Between? || (x'.reading.Recorded? && |x.tasks| < cap))
  {
  }

  // ----- whole runs

  ghost predicate KeyInv(c: Chat, cap: nat) {
    && (forall session :: session in c.sessions ==> KeysOnce(c.sessions[session]))
    && (forall h :: h in c.handlers ==>
         AcksTrue(c.sessions, c.handlers[h]) && LiveInv(c.openings, c.handlers[h], cap)
           && NamesTrue(c.openings, c.handlers[h]))
    && OpenedOnce(c)
    && RightsOnce(c)
    && RepliesExist(c)
  }

  lemma OthersStay(c: Chat, step: Step, cap: nat, x: Handler)
    requires Enabled(c, step, cap) && AcksTrue(c.sessions, x) && LiveInv(c.openings, x, cap) && NamesTrue(c.openings, x)
    ensures AcksTrue(SessionsAfter(c, step), x) && LiveInv(c.openings + NewOpenings(c, step), x, cap)
    ensures NamesTrue(c.openings + NewOpenings(c, step), x)
  {
    SessionGrows(c, step, cap, x.session);
    AcksStayTrue(c.sessions, SessionsAfter(c, step), x);
    LiveOfMoreOpenings(c.openings, NewOpenings(c, step), x, cap);
  }

  lemma NewcomerIsInOrder(c: Chat, step: Step, cap: nat)
    requires Enabled(c, step, cap) && step.Connect?
    ensures AcksTrue(SessionsAfter(c, step), After(c, step).handlers[step.h])
    ensures LiveInv(After(c, step).openings, After(c, step).handlers[step.h], cap)
    ensures NamesTrue(After(c, step).openings, After(c, step).handlers[step.h])
  {
  }

  lemma HandlersStay(c: Chat, step: Step, cap: nat, h: nat)
    requires KeyInv(c, cap) && Enabled(c, step, cap) && h in After(c, step).handlers
    ensures AcksTrue(After(c, step).sessions, After(c, step).handlers[h])
    ensures LiveInv(After(c, step).openings, After(c, step).handlers[h], cap)
    ensures NamesTrue(After(c, step).openings, After(c, step).handlers[h])
  {
    hide AcksTrue;
    hide LiveInv;
    hide NamesTrue;
    hide OpenedOnce;
    hide RightsOnce;
    hide RepliesExist;
    hide KeysOnce;
    hide SessionsAfter;
    hide HandlerAfter;
    hide NewOpenings;
    hide Enabled;
    ConnectsAfresh(c, step, cap, h);
    if step.Connect? && step.h == h {
      NewcomerIsInOrder(c, step, cap);
    } else if OfHandler(step) && step.h == h {
      HandlerKeepsAcks(c, step, cap);
      LiveStays(c, step, cap);
      HandlerKeepsNames(c, step, cap);
    } else {
      OthersStay(c, step, cap, c.handlers[h]);
    }
  }

  lemma ConnectsAfresh(c: Chat, step: Step, cap: nat, h: nat)
    requires Enabled(c, step, cap)
    ensures OfHandler(step) ==> step.h in c.handlers
    ensures step.Connect? ==> step.h !in c.handlers
  {
  }

  lemma StepKeepsKeys(c: Chat, step: Step, cap: nat)
    requires KeyInv(c, cap) && Enabled(c, step, cap)
    ensures KeyInv(After(c, step), cap)
  {
    hide AcksTrue;
    hide LiveInv;
    hide NamesTrue;
    hide OpenedOnce;
    hide RightsOnce;
    hide RepliesExist;
    hide KeysOnce;
    OpeningsStayOnce(c, step, cap);
    RightsStayOnce(c, step, cap);
    RepliesStay(c, step, cap);
    var c' := After(c, step);
    forall session | session in c'.sessions
      ensures KeysOnce(c'.sessions[session])
    {
      KeysStayOnce(c, step, cap, session);
    }
    forall h | h in c'.handlers
      ensures AcksTrue(c'.sessions, c'.handlers[h]) && LiveInv(c'.openings, c'.handlers[h], cap)
      ensures NamesTrue(c'.openings, c'.handlers[h])
    {
      HandlersStay(c, step, cap, h);
    }
    hide After;
  }

  lemma {:induction false} RunKeepsKeys(c: Chat, steps: seq<Step>, cap: nat, c': Chat)
    requires KeyInv(c, cap) && Run(c, steps, cap, c')
    ensures KeyInv(c', cap)
    decreases |steps|
  {
    hide KeyInv;
    if steps != [] {
      StepKeepsKeys(c, steps[0], cap);
      RunKeepsKeys(After(c, steps[0]), steps[1..], cap, c');
    }
  }

  lemma OneKeyed(s: Session, key: string, n: nat, m: Uuid, n': nat, m': Uuid)
    requires KeysOnce(s) && KeyedAs(s, key, n, m) && KeyedAs(s, key, n', m')
    ensures n == n' && m == m'
  {
    var a :| 0 <= a < |s.messages| && Keyed(s.messages[a], key, n, m);
    var b :| 0 <= b < |s.messages| && Keyed(s.messages[b], key, n', m');
  }

  /** Submitting is idempotent: over any interleaving of any number of connections, each session has at
      most one row for a key, at most one reply was ever opened for it, and every acknowledgement of it,
      on whatever connection, carries the same number and the same message, and names no other reply. */
  lemma SubmitIsIdempotent(steps: seq<Step>, cap: nat, c: Chat, h: nat, i: nat, h': nat, j: nat)
    requires Run(EMPTY, steps, cap, c)
    requires h in c.handlers && i < |c.handlers[h].sent| && c.handlers[h].sent[i].Ack?
    requires h' in c.handlers && j < |c.handlers[h'].sent| && c.handlers[h'].sent[j].Ack?
    requires c.handlers[h].session == c.handlers[h'].session
    requires c.handlers[h].sent[i].clientMsgId == c.handlers[h'].sent[j].clientMsgId
    ensures c.handlers[h].sent[i].seqNo == c.handlers[h'].sent[j].seqNo
    ensures c.handlers[h].sent[i].messageId == c.handlers[h'].sent[j].messageId
    ensures c.handlers[h].sent[i].replyMessageId.Some? && c.handlers[h'].sent[j].replyMessageId.Some? ==>
              c.handlers[h].sent[i].replyMessageId == c.handlers[h'].sent[j].replyMessageId
  {
    RunKeepsKeys(EMPTY, steps, cap, c);
    hide *;
    AckIsTrue(c, cap, h, i);
    AckIsTrue(c, cap, h', j);
    var f, f' := c.handlers[h].sent[i], c.handlers[h'].sent[j];
    var session := c.handlers[h].session;
    OneKeyed(c.sessions[session], f.clientMsgId, f.seqNo, f.messageId, f'.seqNo, f'.messageId);
    if f.replyMessageId.Some? && f'.replyMessageId.Some? {
      OneOpening(c, Opening(session, f.clientMsgId, f.replyMessageId.value),
                 Opening(session, f.clientMsgId, f'.replyMessageId.value));
    }
  }

  /** What an acknowledgement says is so: its row is there, and the reply it names was opened for it. */
  lemma AckIsTrue(c: Chat, cap: nat, h: nat, i: nat)
    requires KeyInv(c, cap) && h in c.handlers && i < |c.handlers[h].sent| && c.handlers[h].sent[i].Ack?
    ensures var session, f := c.handlers[h].session, c.handlers[h].sent[i];
            && OpenedOnce(c)
            && session in c.sessions && KeysOnce(c.sessions[session])
            && KeyedAs(c.sessions[session], f.clientMsgId, f.seqNo, f.messageId)
            && (f.replyMessageId.Some? ==>
                  Opening(session, f.clientMsgId, f.replyMessageId.value) in c.openings)
  {
    hide RightsOnce;
    hide RepliesExist;
    hide LiveInv;
    hide OpenedOnce;
    hide KeysOnce;
    hide KeyedAs;
  }

  lemma OneRowAndOneReply(steps: seq<Step>, cap: nat, c: Chat)
    requires Run(EMPTY, steps, cap, c)
    ensures forall session :: session in c.sessions ==> KeysOnce(c.sessions[session])
    ensures forall i, j :: 0 <= i < j < |c.openings| && c.openings[i].session == c.openings[j].session ==>
              c.openings[i].key != c.openings[j].key
  {
    RunKeepsKeys(EMPTY, steps, cap, c);
    hide Run;
    hide AcksTrue;
    hide LiveInv;
    hide NamesTrue;
    hide RightsOnce;
    hide RepliesExist;
    hide KeysOnce;
    hide T.HasKey;
  }

  /** A message whose key is already stored changes nothing: no row, no number. */
  lemma DuplicateConsumesNothing(c: Chat, h: nat, key: string, text: string, id: Uuid, cap: nat)
    requires Enabled(c, RecordLands(h, key, text, id), cap) && T.HasKey(c.sessions[c.handlers[h].session], key)
    ensures After(c, RecordLands(h, key, text, id)).sessions == c.sessions
    ensures After(c, RecordLands(h, key, text, id)).openings == c.openings
  {
    var session := c.handlers[h].session;
    assert c.sessions[session := c.sessions[session]] == c.sessions;
  }

  /** On every connection the live replies are exactly the running turns, one a key, never above the cap. */
  lemma LiveRepliesAreTheRunningTurns(steps: seq<Step>, cap: nat, c: Chat, h: nat)
    requires Run(EMPTY, steps, cap, c) && h in c.handlers
    ensures var x := c.handlers[h];
            && |x.tasks| <= cap
            && x.live.Values == x.tasks
            && (forall key :: key in x.live ==> x.live[key] in x.turns && x.turns[x.live[key]].key == key)
  {
    RunKeepsKeys(EMPTY, steps, cap, c);
    LiveValues(c.openings, c.handlers[h], cap);
  }

  lemma LiveValues(openings: seq<Opening>, x: Handler, cap: nat)
    requires LiveInv(openings, x, cap)
    ensures x.live.Values == x.tasks
  {
    forall m | m in x.tasks
      ensures m in x.live.Values
    {
      assert x.live[x.turns[m].key] == m;
    }
  }

  // ----- what a connection has sent stays sent

  function SentBy(c: Chat, g: nat): seq<ServerFrame> {
    if g in c.handlers then c.handlers[g].sent else []
  }

  lemma SentGrows(c: Chat, step: Step, cap: nat, g: nat)
    requires Enabled(c, step, cap) && g in After(c, step).handlers
    ensures SentBy(c, g) <= After(c, step).handlers[g].sent
    ensures g in c.handlers ==> c.handlers[g].session == After(c, step).handlers[g].session
    ensures !(OfHandler(step) && step.h == g) ==> After(c, step).handlers[g].sent == SentBy(c, g)
    ensures OfHandler(step) && step.h == g ==>
              g in c.handlers && |After(c, step).handlers[g].sent| <= |c.handlers[g].sent| + 1
  {
    ConnectsAfresh(c, step, cap, g);
    if OfHandler(step) && step.h == g { SaysAtMostOne(c, step); }
    hide Enabled;
    hide HandlerAfter;
    hide SessionsAfter;
  }

  lemma {:induction false} SentIsKept(c: Chat, steps: seq<Step>, cap: nat, c': Chat, g: nat)
    requires Run(c, steps, cap, c') && g in c.handlers
    ensures g in c'.handlers && c.handlers[g].session == c'.handlers[g].session
    ensures c.handlers[g].sent <= c'.handlers[g].sent
    decreases |steps|
  {
    if steps != [] {
      assert g in After(c, steps[0]).handlers;
      SentGrows(c, steps[0], cap, g);
      hide After;
      hide Enabled;
      SentIsKept(After(c, steps[0]), steps[1..], cap, c', g);
    }
  }
}
