/** What a client that was told to send its message again can hope for: when some later acknowledgement of the
    key names a reply, and when none ever does (core/chat_handler.py). */
module ChatAnswers {
  import opened Basics
  import opened SessionLog
  import opened Frames
  import opened ChatTurns
  import opened ChatKeys
  import T = Tables
  import R = ChatStreams

  // ----- being answered

  predicate NamesReply(f: ServerFrame, key: string) {
    f.Ack? && f.clientMsgId == key && f.replyMessageId.Some?
  }

  /** Between the two states some connection of the session acknowledged the key and named a reply. */
  ghost predicate NamedSince(c: Chat, c': Chat, session: Uuid, key: string) {
    exists g: nat, i: nat :: NamedAt(c, c', session, key, g, i)
  }

  predicate NamedAt(c: Chat, c': Chat, session: Uuid, key: string, g: nat, i: nat) {
    && g in c'.handlers && c'.handlers[g].session == session
    && |SentBy(c, g)| <= i < |c'.handlers[g].sent|
    && NamesReply(c'.handlers[g].sent[i], key)
  }

  /** Some later run acknowledges the key and names a reply. */
  ghost predicate CanBeNamed(c: Chat, cap: nat, session: Uuid, key: string) {
    exists steps, c' :: Run(c, steps, cap, c') && NamedSince(c, c', session, key)
  }

  // ----- the condition, a predicate of the state

  predicate IsStored(c: Chat, session: Uuid, key: string) {
    session in c.sessions && T.HasKey(c.sessions[session], key)
  }

  /** This connection may open the reply of the key, or has opened it and not yet said so. */
  predicate Prepares(x: Handler, session: Uuid, key: string) {
    x.session == session && (MayOpen(x) || x.reading.Opened?) && x.reading.key == key
  }

  predicate IsLive(x: Handler, session: Uuid, key: string) {
    x.session == session && key in x.live
  }

  /** The key is free; or a connection is on its way to its reply; or a turn of it still runs where there is
      room for another, for at a cap of one that very turn keeps its connection from reading a resend. */
  predicate Answerable(c: Chat, cap: nat, session: Uuid, key: string) {
    || (cap > 0 && !IsStored(c, session, key))
    || (exists h :: h in c.handlers && Prepares(c.handlers[h], session, key))
    || (cap > 1 && exists h :: h in c.handlers && IsLive(c.handlers[h], session, key))
  }

  // ----- what is not answerable stays so

  lemma StoredStays(c: Chat, step: Step, cap: nat, session: Uuid, key: string)
    requires Enabled(c, step, cap) && IsStored(c, session, key)
    ensures IsStored(After(c, step), session, key)
  {
    SessionGrows(c, step, cap, session);
    HasKeyStays(c.sessions[session], SessionsAfter(c, step)[session], key);
    hide SessionsAfter;
    hide T.HasKey;
  }

  /** What one step makes of a connection: it keeps its session, opens a reply only by right, and a key becomes
      live only where its reply was opened. */
  predicate Moves(c: Chat, step: Step, h: nat, x': Handler) {
    if h !in c.handlers then x'.reading.Between? && x'.live == map[]
    else
      var x := c.handlers[h];
      && x'.session == x.session
      && (x'.reading.Opened? ==> x'.reading == x.reading || (MayOpen(x) && x'.reading.key == x.reading.key))
      && (forall key :: key in x'.live ==> key in x.live || (x.reading.Opened? && x.reading.key == key))
  }

  lemma HandlerMoves(c: Chat, step: Step)
    requires OfHandler(step) && step.h in c.handlers && (step.StartLands? ==> MayOpen(c.handlers[step.h]))
    ensures Moves(c, step, step.h, HandlerAfter(c, step, c.handlers[step.h]))
  {
    hide TheKeyed;
    hide T.HasKey;
  }

  lemma StepMoves(c: Chat, step: Step, cap: nat, h: nat)
    requires Enabled(c, step, cap) && h in After(c, step).handlers
    ensures Moves(c, step, h, After(c, step).handlers[h])
  {
    ConnectsAfresh(c, step, cap, h);
    if OfHandler(step) && step.h == h { HandlerMoves(c, step); }
    hide Enabled;
    hide HandlerAfter;
    hide SessionsAfter;
  }

  lemma PreparingOfStep(c: Chat, step: Step, cap: nat, h: nat, session: Uuid, key: string)
    requires Enabled(c, step, cap) && IsStored(c, session, key)
    requires h in After(c, step).handlers && Prepares(After(c, step).handlers[h], session, key)
    ensures h in c.handlers && Prepares(c.handlers[h], session, key)
  {
    StepMoves(c, step, cap, h);
    var x' := After(c, step).handlers[h];
    hide After;
    if MayOpen(x') { RightOfStep(c, step, cap, h); }
    hide Enabled;
    hide T.HasKey;
  }

  lemma LiveOfStep(c: Chat, step: Step, cap: nat, h: nat, session: Uuid, key: string)
    requires Enabled(c, step, cap) && h in After(c, step).handlers && IsLive(After(c, step).handlers[h], session, key)
    ensures h in c.handlers && (IsLive(c.handlers[h], session, key) || Prepares(c.handlers[h], session, key))
  {
    StepMoves(c, step, cap, h);
    hide After;
    hide Enabled;
  }

  lemma NothingAtNoCap(c: Chat, session: Uuid, key: string)
    requires KeyInv(c, 0)
    ensures !Answerable(c, 0, session, key)
  {
    hide AcksTrue;
    hide NamesTrue;
    hide OpenedOnce;
    hide RightsOnce;
    hide RepliesExist;
    hide KeysOnce;
    forall h | h in c.handlers
      ensures !Prepares(c.handlers[h], session, key)
    {
      assert LiveInv(c.openings, c.handlers[h], 0);
    }
  }

  lemma StepKeepsUnanswerable(c: Chat, step: Step, cap: nat, session: Uuid, key: string)
    requires KeyInv(c, cap) && Enabled(c, step, cap) && !Answerable(c, cap, session, key)
    ensures !Answerable(After(c, step), cap, session, key)
  {
    if cap == 0 {
      StepKeepsKeys(c, step, 0);
      hide KeyInv;
      NothingAtNoCap(After(c, step), session, key);
    } else {
      StoredStaysUnanswerable(c, step, cap, session, key);
    }
    hide *;
  }

  lemma StoredStaysUnanswerable(c: Chat, step: Step, cap: nat, session: Uuid, key: string)
    requires Enabled(c, step, cap) && !Answerable(c, cap, session, key) && cap > 0
    ensures !Answerable(After(c, step), cap, session, key)
  {
    var c' := After(c, step);
    StoredStays(c, step, cap, session, key);
    hide IsStored;
    hide IsLive;
    hide Prepares;
    hide After;
    hide Enabled;
    forall h | h in c'.handlers
      ensures !Prepares(c'.handlers[h], session, key)
    {
      if Prepares(c'.handlers[h], session, key) { PreparingOfStep(c, step, cap, h, session, key); }
    }
    if cap > 1 {
      forall h | h in c'.handlers
        ensures !IsLive(c'.handlers[h], session, key)
      {
        if IsLive(c'.handlers[h], session, key) { LiveOfStep(c, step, cap, h, session, key); }
      }
    }
  }

  // ----- what is not answerable is not answered

  /** A read loop that is about to acknowledge the key with a reply was preparing it, or found it live with room
      for one more turn. */
  lemma NamingNeedsAnAnswer(c: Chat, step: Step, cap: nat, f: ServerFrame, key: string)
    requires OfHandler(step) && step.h in c.handlers && LiveInv(c.openings, c.handlers[step.h], cap)
    requires NamesReply(f, key) && Acknowledges(c.handlers[step.h], step, f)
    ensures var x := c.handlers[step.h];
            Prepares(x, x.session, key) || (cap > 1 && IsLive(x, x.session, key))
  {
    var x := c.handlers[step.h];
    if step.Reack? {
      assert x.live[key] in x.tasks;
      assert |x.tasks| > 0;
    }
  }

  /** A frame that names the reply is the one frame this step sent. */
  lemma NamedByStep(c: Chat, step: Step, cap: nat, session: Uuid, key: string, g: nat, i: nat)
    requires Enabled(c, step, cap) && NamedAt(c, After(c, step), session, key, g, i)
    ensures OfHandler(step) && step.h == g && g in c.handlers && c.handlers[g].session == session
    ensures var x' := HandlerAfter(c, step, c.handlers[g]);
            && i == |c.handlers[g].sent| && i < |x'.sent| && x'.sent != c.handlers[g].sent
            && x'.sent[i].Ack? && NamesReply(x'.sent[i], key)
  {
    SentGrows(c, step, cap, g);
    hide Enabled;
    hide HandlerAfter;
    hide SessionsAfter;
  }

  lemma InOrder(c: Chat, cap: nat, h: nat)
    requires KeyInv(c, cap) && h in c.handlers
    ensures LiveInv(c.openings, c.handlers[h], cap)
  {
    hide LiveInv;
  }

  lemma NamingStepWasAnswerable(c: Chat, step: Step, cap: nat, session: Uuid, key: string, g: nat, i: nat)
    requires KeyInv(c, cap) && Enabled(c, step, cap) && NamedAt(c, After(c, step), session, key, g, i)
    ensures Answerable(c, cap, session, key)
  {
    hide *;
    NamedByStep(c, step, cap, session, key, g, i);
    InOrder(c, cap, g);
    SaidByStep(c, step, cap);
    var f := HandlerAfter(c, step, c.handlers[g]).sent[i];
    NamingNeedsAnAnswer(c, step, cap, f, key);
    AnswerableHere(c, cap, g, key);
  }

  lemma AnswerableHere(c: Chat, cap: nat, g: nat, key: string)
    requires g in c.handlers
    requires var x := c.handlers[g]; Prepares(x, x.session, key) || (cap > 1 && IsLive(x, x.session, key))
    ensures Answerable(c, cap, c.handlers[g].session, key)
  {
    hide Prepares;
    hide IsLive;
  }

  lemma StepNamesNothing(c: Chat, step: Step, cap: nat, session: Uuid, key: string)
    requires KeyInv(c, cap) && Enabled(c, step, cap) && !Answerable(c, cap, session, key)
    ensures !NamedSince(c, After(c, step), session, key)
  {
    hide KeyInv;
    hide Enabled;
    hide Answerable;
    forall g: nat, i: nat
      ensures !NamedAt(c, After(c, step), session, key, g, i)
    {
      if NamedAt(c, After(c, step), session, key, g, i) {
        NamingStepWasAnswerable(c, step, cap, session, key, g, i);
      }
    }
  }

  lemma {:induction false} NeverNamed(c: Chat, steps: seq<Step>, cap: nat, c': Chat, session: Uuid, key: string)
    requires KeyInv(c, cap) && !Answerable(c, cap, session, key) && Run(c, steps, cap, c')
    ensures !NamedSince(c, c', session, key)
    ensures !Answerable(c', cap, session, key)
    decreases |steps|
  {
    if steps != [] {
      var d := After(c, steps[0]);
      assert Run(d, steps[1..], cap, c');
      hide After;
      hide KeyInv;
      hide Answerable;
      hide Enabled;
      hide Run;
      StepNamesNothing(c, steps[0], cap, session, key);
      StepKeepsUnanswerable(c, steps[0], cap, session, key);
      StepKeepsKeys(c, steps[0], cap);
      NeverNamed(d, steps[1..], cap, c', session, key);
      if NamedSince(c, c', session, key) { NamedOnceOrLater(c, d, steps[1..], cap, c', session, key); }
    }
  }

  /** What was named by the end was named at the first step or after it. */
  lemma NamedOnceOrLater(c: Chat, d: Chat, steps: seq<Step>, cap: nat, c': Chat, session: Uuid, key: string)
    requires Run(d, steps, cap, c') && NamedSince(c, c', session, key)
    ensures NamedSince(c, d, session, key) || NamedSince(d, c', session, key)
  {
    var g: nat, i: nat :| NamedAt(c, c', session, key, g, i);
    if i < |SentBy(d, g)| {
      SentIsKept(d, steps, cap, c', g);
      hide Run;
      assert NamedAt(c, d, session, key, g, i);
    } else {
      assert NamedAt(d, c', session, key, g, i);
    }
  }

  // ----- what is answerable can be answered

  lemma NamedNow(c: Chat, step: Step, cap: nat, key: string)
    requires Enabled(c, step, cap) && OfHandler(step) && step.h in c.handlers
    requires var x, x' := c.handlers[step.h], HandlerAfter(c, step, c.handlers[step.h]);
             && |x'.sent| == |x.sent| + 1 && NamesReply(x'.sent[|x.sent|], key) && x'.session == x.session
    ensures CanBeNamed(c, cap, c.handlers[step.h].session, key)
  {
    var c', session := After(c, step), c.handlers[step.h].session;
    assert c'.handlers[step.h] == HandlerAfter(c, step, c.handlers[step.h]);
    hide Enabled;
    hide After;
    hide HandlerAfter;
    assert NamedAt(c, c', session, key, step.h, |c.handlers[step.h].sent|);
    assert [step][1..] == [];
    assert Run(c, [step], cap, c');
  }

  lemma NamedAfter(c: Chat, step: Step, cap: nat, session: Uuid, key: string)
    requires Enabled(c, step, cap) && CanBeNamed(After(c, step), cap, session, key)
    ensures CanBeNamed(c, cap, session, key)
  {
    var d := After(c, step);
    assert forall g :: g in c.handlers ==> g in d.handlers;
    hide After;
    var steps, c' :| Run(d, steps, cap, c') && NamedSince(d, c', session, key);
    var g: nat, i: nat :| NamedAt(d, c', session, key, g, i);
    if g in c.handlers { SentGrows(c, step, cap, g); }
    hide Enabled;
    assert NamedAt(c, c', session, key, g, i);
    assert ([step] + steps)[0] == step && ([step] + steps)[1..] == steps;
    assert Run(c, [step] + steps, cap, c');
  }

  lemma OpenedIsAnnounced(c: Chat, h: nat, cap: nat)
    requires h in c.handlers && c.handlers[h].reading.Opened?
    ensures CanBeNamed(c, cap, c.handlers[h].session, c.handlers[h].reading.key)
  {
    NamedNow(c, StartReturns(h), cap, c.handlers[h].reading.key);
  }

  /** A connection with the right to open the reply opens it and says so. */
  lemma RightIsUsed(c: Chat, h: nat, reply: Uuid, cap: nat)
    requires h in c.handlers && MayOpen(c.handlers[h]) && c.handlers[h].session in c.sessions && Fresh(c, reply)
    ensures CanBeNamed(c, cap, c.handlers[h].session, c.handlers[h].reading.key)
  {
    var c' := After(c, StartLands(h, reply));
    assert c'.handlers[h].session == c.handlers[h].session && c'.handlers[h].reading.key == c.handlers[h].reading.key;
    OpenedIsAnnounced(c', h, cap);
    hide Fresh;
    hide After;
    NamedAfter(c, StartLands(h, reply), cap, c.handlers[h].session, c.handlers[h].reading.key);
  }

  /** A free key is recorded, and its reply opened. */
  lemma FreeKeyIsTaken(c: Chat, h: nat, key: string, id: Uuid, reply: Uuid, cap: nat)
    requires h in c.handlers && c.handlers[h].reading.Between? && |c.handlers[h].tasks| < cap
    requires c.handlers[h].session in c.sessions && !IsStored(c, c.handlers[h].session, key)
    requires Fresh(c, id) && Fresh(c, reply) && id != reply
    ensures CanBeNamed(c, cap, c.handlers[h].session, key)
  {
    var c' := After(c, RecordLands(h, key, "", id));
    assert c'.handlers[h].session == c.handlers[h].session && c'.handlers[h].reading.key == key;
    assert MayOpen(c'.handlers[h]) && Fresh(c', reply);
    RightIsUsed(c', h, reply, cap);
    hide Fresh;
    hide After;
    NamedAfter(c, RecordLands(h, key, "", id), cap, c.handlers[h].session, key);
  }

  /** Whoever connects next can be answered under a free key. */
  lemma FreeKeyIsAnswered(c: Chat, session: Uuid, key: string, id: Uuid, reply: Uuid, cap: nat)
    requires cap > 0 && !IsStored(c, session, key) && Fresh(c, id) && Fresh(c, reply) && id != reply
    ensures CanBeNamed(c, cap, session, key)
  {
    var h := FreeNumber(c.handlers.Keys);
    var c1 := After(c, OpenSession(session));
    assert session in c1.sessions && !IsStored(c1, session, key) && h !in c1.handlers;
    assert Fresh(c1, id) && Fresh(c1, reply);
    var c2 := After(c1, Connect(h, session));
    assert c2.sessions == c1.sessions && c2.handlers[h] == Handler(session, [], map[], {}, map[], Between);
    assert Fresh(c2, id) && Fresh(c2, reply);
    FreeKeyIsTaken(c2, h, key, id, reply, cap);
    hide After;
    hide Fresh;
    hide T.HasKey;
    NamedAfter(c1, Connect(h, session), cap, session, key);
    NamedAfter(c, OpenSession(session), cap, session, key);
  }

  // ----- a live key is named again

  /** What a live key says: it is stored, and its turn is one of the running ones. */
  lemma LiveIsStored(c: Chat, h: nat, key: string, cap: nat)
    requires KeyInv(c, cap) && h in c.handlers && key in c.handlers[h].live
    ensures IsStored(c, c.handlers[h].session, key)
    ensures c.handlers[h].live[key] in c.handlers[h].tasks
  {
    var x := c.handlers[h];
    assert LiveInv(c.openings, x, cap);
    hide RightsOnce;
    hide RepliesExist;
    hide KeysOnce;
    hide AcksTrue;
    hide NamesTrue;
    hide T.HasKey;
    var o := Opening(x.session, key, x.live[key]);
    var i :| 0 <= i < |c.openings| && c.openings[i] == o;
  }

  lemma ReackNames(c: Chat, h: nat, key: string, cap: nat)
    requires h in c.handlers && key in c.handlers[h].live
    requires var r := c.handlers[h].reading; r.Recorded? && !r.created && r.key == key
    ensures CanBeNamed(c, cap, c.handlers[h].session, key)
  {
    NamedNow(c, Reack(h), cap, key);
  }

  /** Reading a resend of a stored key changes what the connection is reading and nothing else. */
  lemma ResendIsRead(c: Chat, h: nat, key: string, id: Uuid, cap: nat)
    requires h in c.handlers && IsStored(c, c.handlers[h].session, key) && Fresh(c, id)
    requires c.handlers[h].reading.Between? && |c.handlers[h].tasks| < cap
    ensures var step := RecordLands(h, key, "", id);
            && Enabled(c, step, cap) && h in After(c, step).handlers
            && var x, x' := c.handlers[h], After(c, step).handlers[h];
               && x'.session == x.session && x'.live == x.live
               && x'.reading.Recorded? && !x'.reading.created && x'.reading.key == key
  {
  }

  /** A connection between messages with room for a turn answers a resend of a live key. */
  lemma RoomNames(c: Chat, h: nat, key: string, id: Uuid, cap: nat)
    requires KeyInv(c, cap) && h in c.handlers && key in c.handlers[h].live && Fresh(c, id)
    requires c.handlers[h].reading.Between? && |c.handlers[h].tasks| < cap
    ensures CanBeNamed(c, cap, c.handlers[h].session, key)
  {
    hide *;
    LiveIsStored(c, h, key, cap);
    var step := RecordLands(h, key, "", id);
    ResendIsRead(c, h, key, id, cap);
    ReackNames(After(c, step), h, key, cap);
    NamedAfter(c, step, cap, c.handlers[h].session, key);
  }

  /** What a step that only moves turns or reading leaves alone. */
  predicate Keeps(c: Chat, h: nat, c': Chat, key: string) {
    && h in c.handlers && h in c'.handlers
    && c'.sessions == c.sessions
    && c'.handlers[h].session == c.handlers[h].session
    && key in c.handlers[h].live && key in c'.handlers[h].live && c'.handlers[h].live[key] == c.handlers[h].live[key]
  }

  lemma SameFresh(c: Chat, c': Chat, id: Uuid)
    requires Fresh(c, id) && c'.sessions == c.sessions
    ensures Fresh(c', id)
  {
  }

  lemma TurnEnding(c: Chat, h: nat, key: string, m: Uuid, cap: nat)
    requires h in c.handlers && LiveInv(c.openings, c.handlers[h], cap) && key in c.handlers[h].live
    requires m in c.handlers[h].tasks && m != c.handlers[h].live[key] && m in c.handlers[h].turns
    requires c.handlers[h].reading.Between? && c.handlers[h].turns[m].phase in {Announced, Broken}
    ensures var step := TurnEnds(h, m);
            && Enabled(c, step, cap) && Keeps(c, h, After(c, step), key)
            && After(c, step).handlers[h].reading.Between? && |After(c, step).handlers[h].tasks| < cap
  {
    var x := c.handlers[h];
    assert x.live[x.turns[m].key] == m;
    assert |x.tasks - {m}| + |{m}| == |x.tasks|;
  }

  lemma TurnBreaking(c: Chat, h: nat, key: string, m: Uuid, cap: nat)
    requires h in c.handlers && key in c.handlers[h].live
    requires m in c.handlers[h].tasks && m in c.handlers[h].turns
    requires c.handlers[h].reading.Between? && c.handlers[h].turns[m].phase !in {Announced, Broken}
    ensures var step := Break(h, m);
            && Enabled(c, step, cap) && Keeps(c, h, After(c, step), key)
            && var x' := After(c, step).handlers[h];
               && x'.reading.Between? && m in x'.tasks && m in x'.turns && x'.turns[m].phase == Broken
  {
    match c.handlers[h].turns[m].phase
    case Speaking =>
    case Completing =>
    case Stored =>
  }

  /** A connection between messages at its cap ends some other turn first. */
  lemma EndingNames(c: Chat, h: nat, key: string, m: Uuid, id: Uuid, cap: nat)
    requires KeyInv(c, cap) && h in c.handlers && key in c.handlers[h].live && Fresh(c, id)
    requires m in c.handlers[h].tasks && m != c.handlers[h].live[key] && m in c.handlers[h].turns
    requires c.handlers[h].reading.Between? && c.handlers[h].turns[m].phase in {Announced, Broken}
    ensures CanBeNamed(c, cap, c.handlers[h].session, key)
  {
    hide *;
    var step := TurnEnds(h, m);
    InOrder(c, cap, h);
    TurnEnding(c, h, key, m, cap);
    KeptNames(c, h, After(c, step), key);
    SameFresh(c, After(c, step), id);
    StepKeepsKeys(c, step, cap);
    RoomNames(After(c, step), h, key, id, cap);
    NamedAfter(c, step, cap, c.handlers[h].session, key);
  }

  lemma KeptNames(c: Chat, h: nat, c': Chat, key: string)
    requires Keeps(c, h, c', key)
    ensures h in c.handlers && h in c'.handlers && c'.sessions == c.sessions
    ensures c'.handlers[h].session == c.handlers[h].session
    ensures key in c.handlers[h].live && key in c'.handlers[h].live
    ensures c'.handlers[h].live[key] == c.handlers[h].live[key]
  {
  }

  lemma BreakingNames(c: Chat, h: nat, key: string, m: Uuid, id: Uuid, cap: nat)
    requires KeyInv(c, cap) && h in c.handlers && key in c.handlers[h].live && Fresh(c, id)
    requires m in c.handlers[h].tasks && m != c.handlers[h].live[key] && m in c.handlers[h].turns
    requires c.handlers[h].reading.Between?
    ensures CanBeNamed(c, cap, c.handlers[h].session, key)
  {
    hide *;
    if c.handlers[h].turns[m].phase in {Announced, Broken} {
      EndingNames(c, h, key, m, id, cap);
    } else {
      var step := Break(h, m);
      TurnBreaking(c, h, key, m, cap);
      KeptNames(c, h, After(c, step), key);
      SameFresh(c, After(c, step), id);
      StepKeepsKeys(c, step, cap);
      EndingNames(After(c, step), h, key, m, id, cap);
      NamedAfter(c, step, cap, c.handlers[h].session, key);
    }
  }

  lemma AnotherTask(tasks: set<Uuid>, m: Uuid) returns (other: Uuid)
    requires |tasks| > 1
    ensures other in tasks && other != m
  {
    if tasks - {m} == {} {
      assert tasks <= {m};
      assert |tasks| <= |{m}| by { assert tasks == {} || tasks == {m}; }
      assert false;
    }
    other :| other in tasks - {m};
  }

  lemma TaskIsATurn(c: Chat, h: nat, m: Uuid, cap: nat)
    requires KeyInv(c, cap) && h in c.handlers && m in c.handlers[h].tasks
    ensures m in c.handlers[h].turns && |c.handlers[h].tasks| <= cap
  {
    assert LiveInv(c.openings, c.handlers[h], cap);
  }

  lemma RestingNames(c: Chat, h: nat, key: string, id: Uuid, cap: nat)
    requires KeyInv(c, cap) && cap > 1 && h in c.handlers && key in c.handlers[h].live && Fresh(c, id)
    requires c.handlers[h].reading.Between?
    ensures CanBeNamed(c, cap, c.handlers[h].session, key)
  {
    hide *;
    if |c.handlers[h].tasks| < cap {
      RoomNames(c, h, key, id, cap);
    } else {
      var m := AnotherTask(c.handlers[h].tasks, c.handlers[h].live[key]);
      TaskIsATurn(c, h, m, cap);
      BreakingNames(c, h, key, m, id, cap);
    }
  }

  /** What a connection does with the message it is reading, to be between messages again. */
  function Resting(x: Handler, h: nat, reply: Uuid): Step {
    if MayOpen(x) then StartFails(h, reply, false) else if x.reading.Opened? then StartReturns(h) else Reack(h)
  }

  lemma ComesToRest(c: Chat, h: nat, key: string, reply: Uuid, cap: nat)
    requires h in c.handlers && key in c.handlers[h].live && !c.handlers[h].reading.Between? && Fresh(c, reply)
    requires c.handlers[h].session in c.sessions && c.handlers[h].reading.key != key
    ensures var step := Resting(c.handlers[h], h, reply);
            && Enabled(c, step, cap) && Keeps(c, h, After(c, step), key) && After(c, step).handlers[h].reading.Between?
  {
  }

  lemma LiveNames(c: Chat, h: nat, key: string, id: Uuid, reply: Uuid, cap: nat)
    requires KeyInv(c, cap) && cap > 1 && h in c.handlers && key in c.handlers[h].live
    requires Fresh(c, id) && Fresh(c, reply)
    ensures CanBeNamed(c, cap, c.handlers[h].session, key)
  {
    assert c.handlers[h].session in c.sessions && AcksTrue(c.sessions, c.handlers[h]);
    var x := c.handlers[h];
    hide *;
    if x.reading.Between? {
      RestingNames(c, h, key, id, cap);
    } else if x.reading.key != key {
      var step := Resting(x, h, reply);
      ComesToRest(c, h, key, reply, cap);
      KeptNames(c, h, After(c, step), key);
      SameFresh(c, After(c, step), id);
      StepKeepsKeys(c, step, cap);
      RestingNames(After(c, step), h, key, id, cap);
      NamedAfter(c, step, cap, x.session, key);
    } else if x.reading.Opened? {
      OpenedIsAnnounced(c, h, cap);
    } else if x.reading.created {
      MayOpenHere(x);
      RightIsUsed(c, h, reply, cap);
    } else {
      ReackNames(c, h, key, cap);
    }
  }

  lemma MayOpenHere(x: Handler)
    requires x.reading.Recorded? && x.reading.created
    ensures MayOpen(x)
  {
  }

  // ----- the theorem

  lemma PreparedIsNamed(c: Chat, h: nat, session: Uuid, key: string, reply: Uuid, cap: nat)
    requires KeyInv(c, cap) && h in c.handlers && Prepares(c.handlers[h], session, key) && Fresh(c, reply)
    ensures CanBeNamed(c, cap, session, key)
  {
    assert AcksTrue(c.sessions, c.handlers[h]);
    hide KeyInv;
    hide CanBeNamed;
    if c.handlers[h].reading.Opened? { OpenedIsAnnounced(c, h, cap); } else { RightIsUsed(c, h, reply, cap); }
  }

  lemma EmptyIsInOrder(cap: nat)
    ensures KeyInv(EMPTY, cap)
  {
  }

  /** When a key can still be answered, in every reachable state: some later run acknowledges it with a reply if
      and only if the key is free, or a connection is on its way to its reply, or a turn of it is running where
      a resend can be read. `id` and `reply` are two identities not yet in use. */
  lemma CanBeNamedExactlyWhen(past: seq<Step>, c: Chat, cap: nat, session: Uuid, key: string, id: Uuid, reply: Uuid)
    requires Run(EMPTY, past, cap, c) && Fresh(c, id) && Fresh(c, reply) && id != reply
    ensures CanBeNamed(c, cap, session, key) <==> Answerable(c, cap, session, key)
  {
    EmptyIsInOrder(cap);
    RunKeepsKeys(EMPTY, past, cap, c);
    hide KeyInv;
    hide Run;
    hide Fresh;
    if !Answerable(c, cap, session, key) {
      forall steps, c' | Run(c, steps, cap, c')
        ensures !NamedSince(c, c', session, key)
      {
        NeverNamed(c, steps, cap, c', session, key);
      }
    } else if cap > 0 && !IsStored(c, session, key) {
      FreeKeyIsAnswered(c, session, key, id, reply, cap);
    } else if h :| h in c.handlers && Prepares(c.handlers[h], session, key) {
      PreparedIsNamed(c, h, session, key, reply, cap);
    } else {
      var h :| h in c.handlers && IsLive(c.handlers[h], session, key);
      LiveNames(c, h, key, id, reply, cap);
    }
  }

  // ----- after an error

  /** The calls whose failure is answered with the advice to send the message again. */
  predicate Fails(step: Step) {
    step.RecordFails? || step.StartFails?
  }

  /** The key the failing call was about. */
  function KeyOf(c: Chat, step: Step): string
    requires Fails(step) && step.h in c.handlers && (step.StartFails? ==> c.handlers[step.h].reading.Recorded?)
  {
    if step.RecordFails? then step.key else c.handlers[step.h].reading.key
  }

  /** No acknowledgement of this key, on any connection of the session, names a reply. */
  ghost predicate NoReplyNamed(c: Chat, session: Uuid, key: string) {
    forall g, i :: g in c.handlers && c.handlers[g].session == session && 0 <= i < |c.handlers[g].sent| ==>
      !NamesReply(c.handlers[g].sent[i], key)
  }

  /** No reply was ever opened for the key, nobody but `h` may open one, and what `h` does with it is left open. */
  ghost predicate LeftTo(c: Chat, h: nat, session: Uuid, key: string) {
    && NoReplyNamed(c, session, key)
    && (forall g :: g in c.handlers && g != h ==> !Prepares(c.handlers[g], session, key))
    && (forall g :: g in c.handlers ==> !IsLive(c.handlers[g], session, key))
  }

  lemma NothingOpened(c: Chat, session: Uuid, key: string, cap: nat, g: nat)
    requires KeyInv(c, cap) && g in c.handlers && c.handlers[g].session == session
    requires forall i :: 0 <= i < |c.openings| ==> c.openings[i].session != session || c.openings[i].key != key
    ensures forall i :: 0 <= i < |c.handlers[g].sent| ==> !NamesReply(c.handlers[g].sent[i], key)
    ensures c.handlers[g].reading.Opened? ==> c.handlers[g].reading.key != key
    ensures key !in c.handlers[g].live
  {
    var x := c.handlers[g];
    assert LiveInv(c.openings, x, cap) && NamesTrue(c.openings, x);
    hide KeyInv;
    forall k | k in x.live
      ensures k != key
    {
      assert Opening(session, k, x.live[k]) in c.openings;
    }
  }

  lemma UnopenedIsLeft(c: Chat, h: nat, session: Uuid, key: string, cap: nat)
    requires KeyInv(c, cap)
    requires forall i :: 0 <= i < |c.openings| ==> c.openings[i].session != session || c.openings[i].key != key
    requires forall g :: g in c.handlers && g != h && c.handlers[g].session == session && MayOpen(c.handlers[g]) ==>
               c.handlers[g].reading.key != key
    ensures LeftTo(c, h, session, key)
  {
    hide KeyInv;
    hide NamesReply;
    forall g | g in c.handlers && c.handlers[g].session == session
      ensures forall i :: 0 <= i < |c.handlers[g].sent| ==> !NamesReply(c.handlers[g].sent[i], key)
      ensures c.handlers[g].reading.Opened? ==> c.handlers[g].reading.key != key
      ensures key !in c.handlers[g].live
    {
      NothingOpened(c, session, key, cap, g);
    }
  }

  /** A connection that fails to open a reply held the one right to open it. */
  lemma RightIsLeft(c: Chat, h: nat, cap: nat)
    requires KeyInv(c, cap) && h in c.handlers && MayOpen(c.handlers[h])
    ensures var x := c.handlers[h];
            IsStored(c, x.session, x.reading.key) && LeftTo(c, h, x.session, x.reading.key)
  {
    assert RightsOnce(c);
    hide KeyInv;
    hide T.HasKey;
    hide LeftTo;
    UnopenedIsLeft(c, h, c.handlers[h].session, c.handlers[h].reading.key, cap);
  }

  /** A free key has no reply and nobody about to open one. */
  lemma FreeIsLeft(c: Chat, h: nat, session: Uuid, key: string, cap: nat)
    requires KeyInv(c, cap) && session in c.sessions && !T.HasKey(c.sessions[session], key)
    ensures LeftTo(c, h, session, key)
  {
    assert RightsOnce(c) && OpenedOnce(c);
    hide KeyInv;
    hide T.HasKey;
    hide LeftTo;
    UnopenedIsLeft(c, h, session, key, cap);
  }

  /** The failing calls that take the key's one chance of a reply with them: opening it, whether or not the row
      was written, and recording the message unheard. */
  predicate Loses(c: Chat, step: Step)
    requires Fails(step) && step.h in c.handlers
  {
    step.StartFails? || (step.landed && !IsStored(c, c.handlers[step.h].session, step.key))
  }

  lemma FailureIsSaid(c: Chat, step: Step, cap: nat)
    requires Enabled(c, step, cap) && Fails(step)
    ensures step.h in c.handlers
    ensures (step.RecordFails? ==> cap > 0) && (step.StartFails? ==> MayOpen(c.handlers[step.h]))
    ensures var x, c' := c.handlers[step.h], After(c, step);
            && x.session in c.sessions
            && c'.handlers == c.handlers[step.h := c'.handlers[step.h]]
            && var x' := c'.handlers[step.h];
               && x'.session == x.session && x'.sent == x.sent + [SORRY] && x'.live == x.live
               && (if step.RecordFails? then x'.reading == x.reading && x.reading.Between? else x'.reading.Between?)
  {
    hide Fresh;
    hide SessionsAfter;
  }

  lemma LosingStep(c: Chat, step: Step, cap: nat)
    requires KeyInv(c, cap) && Enabled(c, step, cap) && Fails(step) && step.h in c.handlers
    requires (step.StartFails? ==> c.handlers[step.h].reading.Recorded?) && Loses(c, step)
    ensures var session, key := c.handlers[step.h].session, KeyOf(c, step);
            IsStored(After(c, step), session, key) && LeftTo(c, step.h, session, key)
  {
    FailureIsSaid(c, step, cap);
    var session, key := c.handlers[step.h].session, KeyOf(c, step);
    if step.StartFails? {
      RightIsLeft(c, step.h, cap);
      StoredStays(c, step, cap, session, key);
    } else {
      FreeIsLeft(c, step.h, session, key, cap);
      RecordedUnheard(c, step, cap);
    }
    hide *;
  }

  lemma RecordedUnheard(c: Chat, step: Step, cap: nat)
    requires Enabled(c, step, cap) && step.RecordFails? && step.landed
    ensures IsStored(After(c, step), c.handlers[step.h].session, step.key)
  {
    var session := c.handlers[step.h].session;
    if !T.HasKey(c.sessions[session], step.key) {
      var s := SessionsAfter(c, step)[session];
      assert s.messages[|s.messages| - 1].clientMsgId == Some(step.key);
    }
  }

  lemma AfterLosing(c: Chat, c': Chat, h: nat, session: Uuid, key: string, cap: nat)
    requires h in c.handlers && h in c'.handlers && c'.handlers == c.handlers[h := c'.handlers[h]]
    requires var x, x' := c.handlers[h], c'.handlers[h];
             && x'.session == x.session && x'.sent == x.sent + [SORRY] && x'.live == x.live && x'.reading.Between?
    requires IsStored(c', session, key) && LeftTo(c, h, session, key)
    ensures !Answerable(c', cap, session, key) && NoReplyNamed(c', session, key)
  {
    hide T.HasKey;
  }

  /** Once the key's one chance is lost no acknowledgement of it, sent before or after, on any connection and in
      any later run, names a reply. */
  lemma ALostKeyIsNeverNamed(past: seq<Step>, c: Chat, step: Step, later: seq<Step>, c': Chat, cap: nat)
    requires Run(EMPTY, past, cap, c) && Enabled(c, step, cap) && Fails(step) && step.h in c.handlers
    requires (step.StartFails? ==> c.handlers[step.h].reading.Recorded?) && Loses(c, step)
    requires Run(After(c, step), later, cap, c')
    ensures NoReplyNamed(c', c.handlers[step.h].session, KeyOf(c, step))
  {
    var d, session, key := After(c, step), c.handlers[step.h].session, KeyOf(c, step);
    hide *;
    EmptyIsInOrder(cap);
    RunKeepsKeys(EMPTY, past, cap, c);
    FailureIsSaid(c, step, cap);
    LosingStep(c, step, cap);
    AfterLosing(c, d, step.h, session, key, cap);
    StepKeepsKeys(c, step, cap);
    NeverNamed(d, later, cap, c', session, key);
    StillNotNamed(d, later, c', session, key, cap);
  }

  lemma StillNotNamed(d: Chat, later: seq<Step>, c': Chat, session: Uuid, key: string, cap: nat)
    requires Run(d, later, cap, c') && NoReplyNamed(d, session, key) && !NamedSince(d, c', session, key)
    ensures NoReplyNamed(c', session, key)
  {
    hide Run;
    hide NamesReply;
    forall g, i | g in c'.handlers && c'.handlers[g].session == session && 0 <= i < |c'.handlers[g].sent|
      ensures !NamesReply(c'.handlers[g].sent[i], key)
    {
      if i < |SentBy(d, g)| {
        SentIsKept(d, later, cap, c', g);
      } else {
        assert !NamedAt(d, c', session, key, g, i);
      }
    }
  }

  lemma OtherFailures(c: Chat, step: Step, cap: nat)
    requires Enabled(c, step, cap) && step.RecordFails? && !Loses(c, step)
    ensures var session := c.handlers[step.h].session;
            Answerable(After(c, step), cap, session, step.key) <==>
            (IsStored(c, session, step.key) ==> Answerable(c, cap, session, step.key))
  {
    FailureIsSaid(c, step, cap);
    var c', session := After(c, step), c.handlers[step.h].session;
    assert c'.sessions == c.sessions;
    hide After;
    hide Enabled;
    hide T.HasKey;
    assert forall g :: g in c.handlers ==>
      (Prepares(c'.handlers[g], session, step.key) <==> Prepares(c.handlers[g], session, step.key));
    assert forall g :: g in c.handlers ==>
      (IsLive(c'.handlers[g], session, step.key) <==> IsLive(c.handlers[g], session, step.key));
  }

  /** Every error of this kind tells the client that sending the message again is safe. When a resend can bring
      a reply: never after a failed opening; after a failed recording of a new key, exactly when the recording
      did not land; and of a stored one, exactly when it could before. */
  lemma AResendIsAnsweredExactlyWhen(past: seq<Step>, c: Chat, step: Step, cap: nat, id: Uuid, reply: Uuid)
    requires Run(EMPTY, past, cap, c) && Enabled(c, step, cap) && Fails(step) && step.h in c.handlers
    requires step.StartFails? ==> c.handlers[step.h].reading.Recorded?
    requires Fresh(After(c, step), id) && Fresh(After(c, step), reply) && id != reply
    ensures var session, key := c.handlers[step.h].session, KeyOf(c, step);
            CanBeNamed(After(c, step), cap, session, key) <==>
            step.RecordFails? && (if IsStored(c, session, key) then Answerable(c, cap, session, key) else !step.landed)
  {
    var d, session, key := After(c, step), c.handlers[step.h].session, KeyOf(c, step);
    assert key == if step.RecordFails? then step.key else c.handlers[step.h].reading.key;
    assert Loses(c, step) <==> step.StartFails? || (step.landed && !IsStored(c, session, step.key));
    hide *;
    EmptyIsInOrder(cap);
    RunKeepsKeys(EMPTY, past, cap, c);
    RunAppend(EMPTY, past, cap, c, step);
    CanBeNamedExactlyWhen(past + [step], d, cap, session, key, id, reply);
    if Loses(c, step) {
      FailureIsSaid(c, step, cap);
      LosingStep(c, step, cap);
      AfterLosing(c, d, step.h, session, key, cap);
    } else {
      OtherFailures(c, step, cap);
    }
  }

  // ----- a reply's row that nobody knows of

  /** The row is there, streaming and empty; no connection has a turn for it or is about to start one; and none
      ever sent a delta or a `done` of it. */
  ghost predicate Abandoned(c: Chat, m: Uuid) {
    && Exists(c.sessions, m)
    && RowsEmpty(c.sessions, m)
    && (forall h :: h in c.handlers ==> !R.Claims(c.handlers[h], m) && Silent(c.handlers[h], m))
  }

  ghost predicate RowsEmpty(sessions: T.SessionMap, m: Uuid) {
    forall session, i :: RowAt(sessions, session, i, m) ==>
      var row := sessions[session].messages[i].stored;
      row.role == Assistant && row.status == Streaming && row.text == ""
  }

  predicate Silent(x: Handler, m: Uuid) {
    forall i :: 0 <= i < |x.sent| ==> !Streams(x.sent[i], m) && !Ends(x.sent[i], m)
  }

  lemma RowsStayEmpty(c: Chat, step: Step, cap: nat, m: Uuid)
    requires Enabled(c, step, cap) && Exists(c.sessions, m) && RowsEmpty(c.sessions, m) && !R.Finishes(step, m)
    ensures RowsEmpty(After(c, step).sessions, m)
  {
    assert After(c, step).sessions == SessionsAfter(c, step);
    hide After;
    forall session, i | RowAt(SessionsAfter(c, step), session, i, m)
      ensures RowAt(c.sessions, session, i, m)
      ensures SessionsAfter(c, step)[session].messages[i] == c.sessions[session].messages[i]
    {
      R.RowOfStep(c, step, cap, session, i, m);
    }
    hide SessionsAfter;
    hide Enabled;
  }

  /** A step about a reply needs a connection that claims it. */
  lemma UnclaimedIsLeftAlone(c: Chat, step: Step, cap: nat, m: Uuid)
    requires Enabled(c, step, cap) && OfHandler(step) && !R.Claims(c.handlers[step.h], m)
    ensures !R.Finishes(step, m) && !((step.Chunk? || step.Announce?) && step.m == m)
    ensures step.StartReturns? ==> c.handlers[step.h].reading.reply.messageId != m
  {
    hide Fresh;
  }

  lemma StaysSilent(c: Chat, step: Step, cap: nat, h: nat, m: Uuid)
    requires Enabled(c, step, cap) && h in After(c, step).handlers
    requires h in c.handlers ==> !R.Claims(c.handlers[h], m) && Silent(c.handlers[h], m)
    ensures Silent(After(c, step).handlers[h], m)
  {
    SentGrows(c, step, cap, h);
    if OfHandler(step) && step.h == h {
      UnclaimedIsLeftAlone(c, step, cap, m);
      R.OtherMessages(c, step, cap, m);
      assert After(c, step).handlers[h] == HandlerAfter(c, step, c.handlers[h]);
      hide Enabled;
      hide After;
      hide HandlerAfter;
      var x, x' := c.handlers[h], After(c, step).handlers[h];
      forall i | 0 <= i < |x.sent|
        ensures x'.sent[i] == x.sent[i]
      {
        assert x'.sent[..|x.sent|][i] == x'.sent[i];
      }
    }
    hide Enabled;
    hide After;
  }

  lemma StepKeepsAbandoned(c: Chat, step: Step, cap: nat, m: Uuid)
    requires Enabled(c, step, cap) && Abandoned(c, m)
    ensures Abandoned(After(c, step), m)
  {
    R.ExistsStays(c, step, cap, m);
    if OfHandler(step) {
      ConnectsAfresh(c, step, cap, step.h);
      UnclaimedIsLeftAlone(c, step, cap, m);
    }
    RowsStayEmpty(c, step, cap, m);
    hide RowsEmpty;
    hide Silent;
    forall h | h in After(c, step).handlers
      ensures !R.Claims(After(c, step).handlers[h], m) && Silent(After(c, step).handlers[h], m)
    {
      StaysSilent(c, step, cap, h, m);
      if R.Claims(After(c, step).handlers[h], m) {
        R.ClaimsOfStep(c, step, cap, h, m);
        if step.StartLands? && step.id == m { R.FreshDoesNotExist(c, m); }
      }
    }
    hide Enabled;
    hide After;
  }

  lemma {:induction false} RunKeepsAbandoned(c: Chat, steps: seq<Step>, cap: nat, c': Chat, m: Uuid)
    requires Abandoned(c, m) && Run(c, steps, cap, c')
    ensures Abandoned(c', m)
    decreases |steps|
  {
    hide Abandoned;
    hide Enabled;
    hide After;
    if steps != [] {
      StepKeepsAbandoned(c, steps[0], cap, m);
      RunKeepsAbandoned(After(c, steps[0]), steps[1..], cap, c', m);
    }
  }

  /** Nothing is known of an identity that is not in use. */
  lemma FreshIsSilent(c: Chat, h: nat, m: Uuid)
    requires R.StreamInv(c) && Fresh(c, m) && h in c.handlers
    ensures !R.Claims(c.handlers[h], m) && Silent(c.handlers[h], m)
  {
    R.FreshDoesNotExist(c, m);
    assert R.Owned(c) && R.AllTold(c.handlers[h]);
    hide Exists;
    hide Fresh;
    assert R.Told(c.handlers[h], m);
  }

  lemma UnheardOpening(c: Chat, h: nat, m: Uuid, cap: nat)
    requires R.StreamInv(c) && Enabled(c, StartFails(h, m, true), cap)
    ensures Abandoned(After(c, StartFails(h, m, true)), m)
  {
    var step := StartFails(h, m, true);
    var c', session := After(c, step), c.handlers[h].session;
    assert RowAt(c'.sessions, session, |c.sessions[session].messages|, m);
    assert RowsEmpty(c'.sessions, m);
    FailureIsSaid(c, step, cap);
    assert Fresh(c, m);
    hide R.StreamInv;
    hide After;
    hide Enabled;
    hide RowsEmpty;
    hide Fresh;
    forall g | g in c'.handlers
      ensures !R.Claims(c'.handlers[g], m) && Silent(c'.handlers[g], m)
    {
      FreshIsSilent(c, g, m);
    }
  }

  /** The row of an opening that landed unheard stays streaming and empty for ever, and no frame ever streams or
      ends it. */
  lemma AnUnheardReplyStaysEmpty(past: seq<Step>, c: Chat, h: nat, m: Uuid, later: seq<Step>, c': Chat, cap: nat)
    requires Run(EMPTY, past, cap, c) && Enabled(c, StartFails(h, m, true), cap)
    requires Run(After(c, StartFails(h, m, true)), later, cap, c')
    ensures Abandoned(c', m)
  {
    hide *;
    R.StartInOrder();
    R.RunKeepsStreams(EMPTY, past, cap, c);
    UnheardOpening(c, h, m, cap);
    RunKeepsAbandoned(After(c, StartFails(h, m, true)), later, cap, c', m);
  }

  // ----- the failing inputs, each with the resend

  const ASKED := MessageRow(StoredMessage(1, 1, User, Complete, "hi"), Some("k"))
  const UNHEARD := MessageRow(StoredMessage(2, 2, Assistant, Streaming, ""), None)
  const NEWCOMER := Handler(0, [], map[], {}, map[], Between)
  const BARE_ACK := Ack("k", 1, 1, None)

  const OPENED := Chat(map[0 := NEW_SESSION], map[], [])
  const CONNECTED := Chat(map[0 := NEW_SESSION], map[0 := NEWCOMER], [])
  const STORED := Chat(map[0 := Session(2, [ASKED], [])],
                       map[0 := NEWCOMER.(reading := Recorded("k", ASKED.stored, true))], [])

  /** The message is stored, and the reply's row is too if the call that opened it landed. */
  function Left(x: Handler, landed: bool): Chat {
    Chat(map[0 := if landed then Session(3, [ASKED, UNHEARD], []) else Session(2, [ASKED], [])],
         map[0 := x],
         if landed then [Opening(0, "k", 2)] else [])
  }

  const REFUSED := NEWCOMER.(sent := [SORRY])
  const ANSWERED := NEWCOMER.(sent := [SORRY, BARE_ACK])

  const RESEND: seq<Step> := [RecordLands(0, "k", "hi", 3), Reack(0)]

  lemma FirstTwoSteps(cap: nat)
    ensures Run(EMPTY, [OpenSession(0), Connect(0, 0)], cap, CONNECTED)
  {
    assert After(EMPTY, OpenSession(0)) == OPENED;
    assert After(OPENED, Connect(0, 0)) == CONNECTED;
    hide After;
    assert [OpenSession(0), Connect(0, 0)][1..] == [Connect(0, 0)] && [Connect(0, 0)][1..] == [];
    assert Run(OPENED, [Connect(0, 0)], cap, CONNECTED);
  }

  lemma MessageIsStored()
    ensures !T.HasKey(NEW_SESSION, "k") && T.WithUser(NEW_SESSION, 1, "k", "hi") == Session(2, [ASKED], [])
  {
  }

  lemma Recording(cap: nat)
    requires cap > 0
    ensures var step := RecordLands(0, "k", "hi", 1); Enabled(CONNECTED, step, cap) && After(CONNECTED, step) == STORED
    ensures var step := RecordFails(0, "k", "hi", 1, true);
            Enabled(CONNECTED, step, cap) && After(CONNECTED, step) == Left(REFUSED, false)
  {
    MessageIsStored();
    var c, d := After(CONNECTED, RecordLands(0, "k", "hi", 1)), After(CONNECTED, RecordFails(0, "k", "hi", 1, true));
    assert c.sessions == STORED.sessions && c.handlers == STORED.handlers && c.openings == [];
    assert d.sessions == STORED.sessions && d.openings == [];
    assert NEWCOMER.sent + [SORRY] == [SORRY];
    assert d.handlers == map[0 := REFUSED];
  }

  lemma Failing(landed: bool, cap: nat)
    ensures var step := StartFails(0, 2, landed);
            Enabled(STORED, step, cap) && After(STORED, step) == Left(REFUSED, landed)
  {
    var c := After(STORED, StartFails(0, 2, landed));
    assert T.WithAssistant(Session(2, [ASKED], []), 2) == Session(3, [ASKED, UNHEARD], []);
    assert NEWCOMER.sent + [SORRY] == [SORRY];
    assert c.sessions == Left(REFUSED, landed).sessions && c.handlers == map[0 := REFUSED];
    assert c.openings == Left(REFUSED, landed).openings;
  }

  lemma Resending(landed: bool, cap: nat)
    requires cap > 0
    ensures var step := RecordLands(0, "k", "hi", 3);
            Enabled(Left(REFUSED, landed), step, cap)
            && After(Left(REFUSED, landed), step)
               == Left(REFUSED.(reading := Recorded("k", ASKED.stored, false)), landed)
  {
    var c, c' := Left(REFUSED, landed), After(Left(REFUSED, landed), RecordLands(0, "k", "hi", 3));
    assert c.sessions[0].messages[0].clientMsgId == Some("k");
    assert c'.sessions == c.sessions && c'.openings == c.openings;
    assert TheKeyed(c.sessions[0], "k") == ASKED.stored;
    assert c'.handlers == map[0 := REFUSED.(reading := Recorded("k", ASKED.stored, false))];
  }

  lemma Reacking(landed: bool, cap: nat)
    ensures var c := Left(REFUSED.(reading := Recorded("k", ASKED.stored, false)), landed);
            Enabled(c, Reack(0), cap) && After(c, Reack(0)) == Left(ANSWERED, landed)
  {
    var c := Left(REFUSED.(reading := Recorded("k", ASKED.stored, false)), landed);
    var c' := After(c, Reack(0));
    assert REFUSED.sent + [BARE_ACK] == [SORRY, BARE_ACK];
    assert c'.handlers == map[0 := ANSWERED] && c'.sessions == c.sessions && c'.openings == c.openings;
  }

  lemma ResendRuns(past: seq<Step>, landed: bool, cap: nat)
    requires cap > 0 && Run(EMPTY, past, cap, Left(REFUSED, landed))
    ensures Run(EMPTY, past + RESEND, cap, Left(ANSWERED, landed))
  {
    hide Run;
    hide Enabled;
    hide After;
    hide Left;
    Resending(landed, cap);
    Reacking(landed, cap);
    var read := Left(REFUSED.(reading := Recorded("k", ASKED.stored, false)), landed);
    RunAppend(EMPTY, past, cap, Left(REFUSED, landed), RESEND[0]);
    RunAppend(EMPTY, past + [RESEND[0]], cap, read, RESEND[1]);
    assert past + [RESEND[0]] + [RESEND[1]] == past + RESEND;
  }

  lemma AnsweredForGood(landed: bool, cap: nat)
    ensures !Answerable(Left(ANSWERED, landed), cap, 0, "k") && NoReplyNamed(Left(ANSWERED, landed), 0, "k")
  {
    assert Left(ANSWERED, landed).sessions[0].messages[0].clientMsgId == Some("k");
  }

  /** Opening the reply fails, whether or not its row was written; the resend is acknowledged, with no reply. */
  lemma AFailedOpeningLosesTheReply(landed: bool, cap: nat)
    requires cap > 0
    ensures var story := [OpenSession(0), Connect(0, 0), RecordLands(0, "k", "hi", 1), StartFails(0, 2, landed)];
            Run(EMPTY, story + RESEND, cap, Left(ANSWERED, landed))
    ensures !Answerable(Left(ANSWERED, landed), cap, 0, "k") && NoReplyNamed(Left(ANSWERED, landed), 0, "k")
  {
    hide Run;
    hide Enabled;
    hide After;
    FirstTwoSteps(cap);
    Recording(cap);
    Failing(landed, cap);
    var two := [OpenSession(0), Connect(0, 0)];
    RunAppend(EMPTY, two, cap, CONNECTED, RecordLands(0, "k", "hi", 1));
    RunAppend(EMPTY, two + [RecordLands(0, "k", "hi", 1)], cap, STORED, StartFails(0, 2, landed));
    var four := [OpenSession(0), Connect(0, 0), RecordLands(0, "k", "hi", 1), StartFails(0, 2, landed)];
    assert two + [RecordLands(0, "k", "hi", 1)] + [StartFails(0, 2, landed)] == four;
    ResendRuns(four, landed, cap);
    AnsweredForGood(landed, cap);
    hide Left;
  }

  /** So does a recording that landed unheard. */
  lemma AnUnheardRecordingLosesTheReply(cap: nat)
    requires cap > 0
    ensures var story := [OpenSession(0), Connect(0, 0), RecordFails(0, "k", "hi", 1, true)];
            Run(EMPTY, story + RESEND, cap, Left(ANSWERED, false))
    ensures !Answerable(Left(ANSWERED, false), cap, 0, "k") && NoReplyNamed(Left(ANSWERED, false), 0, "k")
  {
    hide Run;
    hide Enabled;
    hide After;
    FirstTwoSteps(cap);
    Recording(cap);
    var two := [OpenSession(0), Connect(0, 0)];
    RunAppend(EMPTY, two, cap, CONNECTED, RecordFails(0, "k", "hi", 1, true));
    var three := [OpenSession(0), Connect(0, 0), RecordFails(0, "k", "hi", 1, true)];
    assert two + [RecordFails(0, "k", "hi", 1, true)] == three;
    ResendRuns(three, false, cap);
    AnsweredForGood(false, cap);
    hide Left;
  }
}
