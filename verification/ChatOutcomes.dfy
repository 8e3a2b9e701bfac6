/** What becomes of a reply's row: it streams until a final write lands, and the last one to land decides
    (core/chat_handler.py, `_run_turn` and `_fail`; adapters/postgres/chat_repository.py, `_finish`). */
module ChatOutcomes {
  import opened Basics
  import opened SessionLog
  import opened ChatTurns
  import R = ChatStreams
  import T = Tables
  import X = SessionTransactions
  import W = ChatWeave

  /** Every row of this reply has the status, and the text if one is given. */
  ghost predicate RowsAre(sessions: T.SessionMap, m: Uuid, status: Status, text: Option<string>) {
    forall session, i :: RowAt(sessions, session, i, m) ==>
      var row := sessions[session].messages[i].stored;
      row.status == status && (text.Some? ==> row.text == text.value)
  }

  /** The rows of this reply are those it had, as they were. */
  ghost predicate RowsStay(sessions: T.SessionMap, sessions': T.SessionMap, m: Uuid) {
    forall session, i :: RowAt(sessions', session, i, m) ==>
      RowAt(sessions, session, i, m) && sessions'[session].messages[i] == sessions[session].messages[i]
  }

  /** They are those it had, with the same numbers, roles and keys; and the same texts, if that is asked. */
  ghost predicate RowsMatch(sessions: T.SessionMap, sessions': T.SessionMap, m: Uuid, texts: bool) {
    forall session, i :: RowAt(sessions', session, i, m) ==>
      && RowAt(sessions, session, i, m)
      && var row, row' := sessions[session].messages[i], sessions'[session].messages[i];
         && row'.clientMsgId == row.clientMsgId && row'.stored.seqNo == row.stored.seqNo
         && row'.stored.role == row.stored.role && (texts ==> row'.stored.text == row.stored.text)
  }

  /** What one final write does to the rows of its reply, and to no other row. */
  lemma FinalWrite(c: Chat, step: Step, cap: nat)
    requires Enabled(c, step, cap) && (step.CompleteLands? || step.FailLands?)
    ensures var sessions := After(c, step).sessions;
            && sessions.Keys == c.sessions.Keys
            && forall session :: session in sessions ==>
                 var a, b := c.sessions[session], sessions[session];
                 && b.nextSeq == a.nextSeq && b.events == a.events && |b.messages| == |a.messages|
                 && forall i :: 0 <= i < |a.messages| ==>
                      var row := a.messages[i];
                      b.messages[i] ==
                      if row.stored.messageId != step.m then row
                      else if step.FailLands? then row.(stored := row.stored.(status := Status.Failed))
                      else row.(stored := row.stored.(status := Complete,
                                                      text := Concat(c.handlers[step.h].turns[step.m].chunks)))
  {
    var text := if step.FailLands? then None else Some(Concat(c.handlers[step.h].turns[step.m].chunks));
    var status := if step.FailLands? then Status.Failed else Complete;
    assert After(c, step).sessions == X.FinishAll(c.sessions, step.m, status, text);
    hide After;
    hide Enabled;
    hide Concat;
    X.FinishTouchesItsRows(c.sessions, step.m, status, text);
    hide X.FinishAll;
  }

  lemma StepKeepsRows(c: Chat, step: Step, cap: nat, m: Uuid)
    requires Enabled(c, step, cap) && Exists(c.sessions, m) && !R.Finishes(step, m)
    ensures Exists(After(c, step).sessions, m) && RowsStay(c.sessions, After(c, step).sessions, m)
  {
    R.ExistsStays(c, step, cap, m);
    assert After(c, step).sessions == SessionsAfter(c, step);
    hide After;
    hide Exists;
    forall session, i | RowAt(SessionsAfter(c, step), session, i, m)
      ensures RowAt(c.sessions, session, i, m)
      ensures SessionsAfter(c, step)[session].messages[i] == c.sessions[session].messages[i]
    {
      R.RowOfStep(c, step, cap, session, i, m);
    }
    hide SessionsAfter;
    hide Enabled;
  }

  predicate Unfinished(steps: seq<Step>, m: Uuid) {
    forall i :: 0 <= i < |steps| ==> !R.Finishes(steps[i], m)
  }

  /** Until its final write a reply's row is left alone. */
  lemma {:induction false} RunKeepsRows(c: Chat, steps: seq<Step>, cap: nat, c': Chat, m: Uuid)
    requires Run(c, steps, cap, c') && Exists(c.sessions, m) && Unfinished(steps, m)
    ensures Exists(c'.sessions, m) && RowsStay(c.sessions, c'.sessions, m)
    decreases |steps|
  {
    hide Enabled;
    hide After;
    hide Exists;
    if steps != [] {
      StepKeepsRows(c, steps[0], cap, m);
      assert forall i :: 0 <= i < |steps[1..]| ==> steps[1..][i] == steps[i + 1];
      hide R.Finishes;
      RunKeepsRows(After(c, steps[0]), steps[1..], cap, c', m);
    }
  }

  // ----- a failed reply

  /** A failure write leaves the text; so does every step but a completing write. */
  lemma StepKeepsFailure(c: Chat, step: Step, cap: nat, m: Uuid)
    requires Enabled(c, step, cap) && Exists(c.sessions, m) && !(step.CompleteLands? && step.m == m)
    ensures Exists(After(c, step).sessions, m) && RowsMatch(c.sessions, After(c, step).sessions, m, true)
    ensures RowsAre(c.sessions, m, Status.Failed, None) ==> RowsAre(After(c, step).sessions, m, Status.Failed, None)
  {
    if R.Finishes(step, m) {
      FinalWrite(c, step, cap);
      R.ExistsStays(c, step, cap, m);
      hide After;
      hide Enabled;
    } else {
      StepKeepsRows(c, step, cap, m);
      hide After;
      hide Enabled;
    }
  }

  lemma {:induction false} RunKeepsFailure(c: Chat, steps: seq<Step>, cap: nat, c': Chat, m: Uuid)
    requires Run(c, steps, cap, c') && Exists(c.sessions, m) && RowsAre(c.sessions, m, Status.Failed, None)
    requires forall i :: 0 <= i < |steps| ==> !(steps[i].CompleteLands? && steps[i].m == m)
    ensures Exists(c'.sessions, m) && RowsMatch(c.sessions, c'.sessions, m, true)
    ensures RowsAre(c'.sessions, m, Status.Failed, None)
    decreases |steps|
  {
    hide Enabled;
    hide After;
    hide Exists;
    hide RowsAre;
    if steps != [] {
      StepKeepsFailure(c, steps[0], cap, m);
      assert forall i :: 0 <= i < |steps[1..]| ==> steps[1..][i] == steps[i + 1];
      RunKeepsFailure(After(c, steps[0]), steps[1..], cap, c', m);
    }
  }

  lemma FinisherExists(c: Chat, step: Step, cap: nat)
    requires R.Owned(c) && Enabled(c, step, cap) && (step.CompleteLands? || step.FailLands?)
    ensures Exists(c.sessions, step.m)
  {
    assert R.Claims(c.handlers[step.h], step.m);
  }

  /** A reply whose turn broke and whose failure write landed is failed, with the text its row had, in every later
      state up to a completing write that was still on its way: whatever other turns and connections do. */
  lemma AFailedReplyStaysFailed(past: seq<Step>, c: Chat, h: nat, m: Uuid, later: seq<Step>, c': Chat, cap: nat)
    requires Run(EMPTY, past, cap, c) && Enabled(c, FailLands(h, m), cap)
    requires Run(After(c, FailLands(h, m)), later, cap, c')
    requires forall i :: 0 <= i < |later| ==> !(later[i].CompleteLands? && later[i].m == m)
    ensures Exists(c'.sessions, m)
    ensures forall session, i :: RowAt(c'.sessions, session, i, m) ==>
              && RowAt(c.sessions, session, i, m)
              && var was, row := c.sessions[session].messages[i].stored, c'.sessions[session].messages[i].stored;
                 row == was.(status := Status.Failed)
  {
    R.StartInOrder();
    R.RunKeepsStreams(EMPTY, past, cap, c);
    var step := FailLands(h, m);
    FinisherExists(c, step, cap);
    FinalWrite(c, step, cap);
    StepKeepsFailure(c, step, cap, m);
    assert RowsAre(After(c, step).sessions, m, Status.Failed, None);
    hide Run;
    hide After;
    hide Enabled;
    hide Exists;
    hide R.StreamInv;
    RunKeepsFailure(After(c, step), later, cap, c', m);
    RowsKeepIds(c.sessions, After(c, step).sessions, c'.sessions, m);
  }

  lemma RowsKeepIds(a: T.SessionMap, b: T.SessionMap, c: T.SessionMap, m: Uuid)
    requires RowsMatch(a, b, m, true) && RowsMatch(b, c, m, true) && RowsAre(c, m, Status.Failed, None)
    ensures forall session, i :: RowAt(c, session, i, m) ==>
              RowAt(a, session, i, m)
              && c[session].messages[i].stored == a[session].messages[i].stored.(status := Status.Failed)
  {
  }

  /** A reply streams, and its row is empty, from the moment it is opened until a final write of it lands. */
  lemma AReplyStreamsUntilThen(c: Chat, h: nat, m: Uuid, later: seq<Step>, c': Chat, cap: nat)
    requires Enabled(c, StartLands(h, m), cap) && Run(After(c, StartLands(h, m)), later, cap, c')
    requires Unfinished(later, m)
    ensures Exists(c'.sessions, m) && RowsAre(c'.sessions, m, Streaming, Some(""))
  {
    var step := StartLands(h, m);
    var c1, session := After(c, step), c.handlers[h].session;
    assert RowAt(c1.sessions, session, |c.sessions[session].messages|, m);
    assert RowsAre(c1.sessions, m, Streaming, Some(""));
    hide Run;
    hide After;
    hide Enabled;
    RunKeepsRows(c1, later, cap, c', m);
  }

  // ----- as one turn sees it

  /** While a turn awaits, nobody writes its row. */
  lemma OthersNeverFinish(c: Chat, step: Step, cap: nat, h: nat, m: Uuid, t: Turn)
    requires Enabled(c, step, cap) && R.Owned(c) && W.Runs(c, h, m, t) && !W.Turns(step, h, m)
    ensures !R.Finishes(step, m)
  {
    assert R.Claims(c.handlers[h], m);
    if R.Finishes(step, m) { R.OnlyTheOwnerFinishes(c, step, cap, h, m); }
  }

  lemma {:induction false} GapKeepsRows(c: Chat, steps: seq<Step>, cap: nat, c': Chat, h: nat, m: Uuid, t: Turn)
    requires Run(c, steps, cap, c') && R.Owned(c) && W.Runs(c, h, m, t) && W.NoneTurns(steps, h, m)
    requires Exists(c.sessions, m)
    ensures Exists(c'.sessions, m) && RowsStay(c.sessions, c'.sessions, m)
    decreases |steps|
  {
    hide Enabled;
    hide After;
    hide Exists;
    hide R.Owned;
    hide W.Runs;
    if steps != [] {
      OthersNeverFinish(c, steps[0], cap, h, m, t);
      StepKeepsRows(c, steps[0], cap, m);
      W.StepKeepsTurn(c, steps[0], cap, h, m, t);
      R.OwnedStays(c, steps[0], cap);
      assert forall i :: 0 <= i < |steps[1..]| ==> steps[1..][i] == steps[i + 1];
      hide W.Turns;
      hide R.Finishes;
      GapKeepsRows(After(c, steps[0]), steps[1..], cap, c', h, m, t);
    }
  }

  lemma FailureLands(c: Chat, h: nat, m: Uuid, cap: nat)
    requires Enabled(c, FailLands(h, m), cap)
    ensures RowsAre(After(c, FailLands(h, m)).sessions, m, Status.Failed, None)
  {
    FinalWrite(c, FailLands(h, m), cap);
    hide After;
    hide Enabled;
  }

  lemma CompletionLands(c: Chat, h: nat, m: Uuid, cap: nat)
    requires Enabled(c, CompleteLands(h, m), cap)
    ensures RowsAre(After(c, CompleteLands(h, m)).sessions, m, Complete, Some(Concat(c.handlers[h].turns[m].chunks)))
  {
    FinalWrite(c, CompleteLands(h, m), cap);
    hide After;
    hide Enabled;
    hide Concat;
  }

  lemma StillAre(sessions: T.SessionMap, sessions': T.SessionMap, m: Uuid, status: Status, text: Option<string>)
    requires RowsAre(sessions, m, status, text) && RowsStay(sessions, sessions', m)
    ensures RowsAre(sessions', m, status, text)
  {
  }

  /** A turn that took a step and awaits finds its rows as the step left them. */
  lemma AwaitKeepsRows(c: Chat, step: Step, g: W.Gap, cap: nat, h: nat, m: Uuid, t: Turn)
    requires R.Owned(c) && Enabled(c, step, cap) && W.Runs(After(c, step), h, m, t)
    requires Run(After(c, step), g.steps, cap, g.to) && W.NoneTurns(g.steps, h, m)
    ensures RowsStay(After(c, step).sessions, g.to.sessions, m)
  {
    R.OwnedStays(c, step, cap);
    assert R.Claims(After(c, step).handlers[h], m);
    assert Exists(After(c, step).sessions, m);
    hide *;
    GapKeepsRows(After(c, step), g.steps, cap, g.to, h, m, t);
  }
}
