/** One task among the others. Between two steps of a task the rest of the chat may do anything that leaves the
    task itself alone: other connections, other sessions, and the other tasks of the same connection
    (core/chat_handler.py). */
module ChatWeave {
  import opened Basics
  import opened SessionLog
  import opened Frames
  import opened ChatTurns
  import C = ChatKeys
  import R = ChatStreams
  import T = Tables

  /** What the rest of the chat does while a task awaits, and the state it leaves. */
  datatype Gap = Gap(steps: seq<Step>, to: Chat)

  /** The state a task finds before its step number `i`. */
  function Before(c: Chat, gaps: seq<Gap>, i: nat): Chat
    requires i <= |gaps|
  {
    if i == 0 then c else gaps[i - 1].to
  }

  /** Each gap is a run from where the task's step leaves the chat. */
  ghost predicate Fits(c: Chat, own: seq<Step>, gaps: seq<Gap>, cap: nat) {
    && |gaps| == |own|
    && forall i :: 0 <= i < |own| ==> GapFits(c, own, gaps, i, cap)
  }

  ghost predicate GapFits(c: Chat, own: seq<Step>, gaps: seq<Gap>, i: nat, cap: nat)
    requires i < |own| == |gaps|
  {
    Run(After(Before(c, gaps, i), own[i]), gaps[i].steps, cap, gaps[i].to)
  }

  /** The first `n` steps of the task, each with what follows it. */
  function Woven(own: seq<Step>, gaps: seq<Gap>, n: nat): seq<Step>
    requires n <= |own| == |gaps|
  {
    if n == 0 then [] else Woven(own, gaps, n - 1) + [own[n - 1]] + gaps[n - 1].steps
  }

  lemma {:induction false} RunThenRun(c: Chat, steps: seq<Step>, m: Chat, more: seq<Step>, c': Chat, cap: nat)
    requires Run(c, steps, cap, m) && Run(m, more, cap, c')
    ensures Run(c, steps + more, cap, c')
    decreases |steps|
  {
    hide Enabled;
    hide After;
    if steps == [] {
      assert steps + more == more;
    } else {
      RunThenRun(After(c, steps[0]), steps[1..], m, more, c', cap);
      assert (steps + more)[0] == steps[0] && (steps + more)[1..] == steps[1..] + more;
    }
  }

  lemma NothingWoven(c: Chat, own: seq<Step>, gaps: seq<Gap>, cap: nat)
    requires |own| == |gaps|
    ensures Woven(own, gaps, 0) == [] && Run(c, [], cap, c) && Before(c, gaps, 0) == c
  {
  }

  /** The task takes its next step, and the rest of the chat its turn. */
  lemma WeaveOneMore(c: Chat, own: seq<Step>, gaps: seq<Gap>, i: nat, cap: nat)
    requires Fits(c, own, gaps, cap) && i < |own|
    requires Run(c, Woven(own, gaps, i), cap, Before(c, gaps, i)) && Enabled(Before(c, gaps, i), own[i], cap)
    ensures Run(After(Before(c, gaps, i), own[i]), gaps[i].steps, cap, gaps[i].to)
    ensures Run(c, Woven(own, gaps, i + 1), cap, gaps[i].to) && Before(c, gaps, i + 1) == gaps[i].to
  {
    var b := Before(c, gaps, i);
    assert GapFits(c, own, gaps, i, cap);
    hide Run;
    hide Enabled;
    hide After;
    hide Fits;
    RunAppend(c, Woven(own, gaps, i), cap, b, own[i]);
    RunThenRun(c, Woven(own, gaps, i) + [own[i]], After(b, own[i]), gaps[i].steps, gaps[i].to, cap);
  }

  // ----- what a gap leaves alone

  /** A step of the read loop of this connection. */
  predicate Reads(step: Step, h: nat) {
    && (step.RecordLands? || step.RecordFails? || step.Reack? || step.StartLands? || step.StartFails?
        || step.StartReturns?)
    && step.h == h
  }

  /** A step of this turn. */
  predicate Turns(step: Step, h: nat, m: Uuid) {
    && (step.Chunk? || step.AskComplete? || step.CompleteLands? || step.Announce? || step.Break? || step.FailLands?
        || step.TurnEnds?)
    && step.h == h && step.m == m
  }

  predicate NoneReads(steps: seq<Step>, h: nat) {
    forall i :: 0 <= i < |steps| ==> !Reads(steps[i], h)
  }

  predicate NoneTurns(steps: seq<Step>, h: nat, m: Uuid) {
    forall i :: 0 <= i < |steps| ==> !Turns(steps[i], h, m)
  }

  /** The rest of the chat never takes a step of a read loop that awaits. */
  predicate ReadLoopWaits(gaps: seq<Gap>, h: nat) {
    forall i :: 0 <= i < |gaps| ==> NoneReads(gaps[i].steps, h)
  }

  /** Nor one of a turn that awaits. */
  predicate TurnWaits(gaps: seq<Gap>, h: nat, m: Uuid) {
    forall i :: 0 <= i < |gaps| ==> NoneTurns(gaps[i].steps, h, m)
  }

  lemma StepKeepsReading(c: Chat, step: Step, cap: nat, h: nat)
    requires Enabled(c, step, cap) && h in c.handlers && !Reads(step, h)
    ensures h in After(c, step).handlers && After(c, step).handlers[h].reading == c.handlers[h].reading
  {
    C.ConnectsAfresh(c, step, cap, h);
    hide Enabled;
    hide SessionsAfter;
    hide T.HasKey;
    hide TheKeyed;
  }

  /** What a read loop has under way is as it left it. */
  lemma {:induction false} ReadingIsKept(c: Chat, steps: seq<Step>, cap: nat, c': Chat, h: nat)
    requires Run(c, steps, cap, c') && h in c.handlers && NoneReads(steps, h)
    ensures h in c'.handlers && c'.handlers[h].reading == c.handlers[h].reading
    decreases |steps|
  {
    hide Enabled;
    hide After;
    if steps != [] {
      StepKeepsReading(c, steps[0], cap, h);
      assert forall i :: 0 <= i < |steps[1..]| ==> steps[1..][i] == steps[i + 1];
      hide Reads;
      ReadingIsKept(After(c, steps[0]), steps[1..], cap, c', h);
    }
  }

  /** The turn `m` of connection `h`, running. */
  predicate Runs(c: Chat, h: nat, m: Uuid, t: Turn) {
    h in c.handlers && m in c.handlers[h].turns && m in c.handlers[h].tasks && c.handlers[h].turns[m] == t
  }

  lemma OwnStepKeepsTurn(c: Chat, step: Step, m: Uuid)
    requires OfHandler(step) && step.h in c.handlers && !Turns(step, step.h, m)
    requires var x := c.handlers[step.h];
             m in x.turns && m in x.tasks && (x.reading.Opened? ==> x.reading.reply.messageId != m)
    ensures var x, x' := c.handlers[step.h], HandlerAfter(c, step, c.handlers[step.h]);
            m in x'.turns && m in x'.tasks && x'.turns[m] == x.turns[m]
  {
    hide T.HasKey;
    hide TheKeyed;
  }

  lemma StepKeepsTurn(c: Chat, step: Step, cap: nat, h: nat, m: Uuid, t: Turn)
    requires Enabled(c, step, cap) && R.Owned(c) && Runs(c, h, m, t) && !Turns(step, h, m)
    ensures Runs(After(c, step), h, m, t)
  {
    assert c.handlers[h].reading.Opened? ==> c.handlers[h].reading.reply.messageId != m;
    hide R.Owned;
    C.ConnectsAfresh(c, step, cap, h);
    if OfHandler(step) && step.h == h { OwnStepKeepsTurn(c, step, m); }
    hide Enabled;
    hide HandlerAfter;
    hide SessionsAfter;
  }

  /** A turn that awaits is as it was. */
  lemma {:induction false} TurnIsKept(c: Chat, steps: seq<Step>, cap: nat, c': Chat, h: nat, m: Uuid, t: Turn)
    requires Run(c, steps, cap, c') && R.Owned(c) && Runs(c, h, m, t) && NoneTurns(steps, h, m)
    ensures Runs(c', h, m, t)
    decreases |steps|
  {
    hide Enabled;
    hide After;
    hide Runs;
    hide R.Owned;
    if steps != [] {
      StepKeepsTurn(c, steps[0], cap, h, m, t);
      R.OwnedStays(c, steps[0], cap);
      assert forall i :: 0 <= i < |steps[1..]| ==> steps[1..][i] == steps[i + 1];
      hide Turns;
      TurnIsKept(After(c, steps[0]), steps[1..], cap, c', h, m, t);
    }
  }

  /** How many frames one connection sends in these steps: a step that speaks sends one. */
  function Spoken(steps: seq<Step>, h: nat): nat {
    if steps == [] then 0 else (if Speaks(steps[0], h) then 1 else 0) + Spoken(steps[1..], h)
  }

  predicate Speaks(step: Step, h: nat) {
    && (step.Say? || step.RecordFails? || step.Reack? || step.StartFails? || step.StartReturns? || step.Chunk?
        || step.Announce?)
    && step.h == h
  }

  lemma SpeakersSend(c: Chat, step: Step, cap: nat)
    requires Enabled(c, step, cap) && OfHandler(step)
    ensures |HandlerAfter(c, step, c.handlers[step.h]).sent| ==
            |c.handlers[step.h].sent| + if Speaks(step, step.h) then 1 else 0
  {
    hide Fresh;
    hide T.HasKey;
    hide TheKeyed;
  }

  lemma StepSends(c: Chat, step: Step, cap: nat, h: nat)
    requires Enabled(c, step, cap) && h in c.handlers
    ensures h in After(c, step).handlers
    ensures |After(c, step).handlers[h].sent| == |c.handlers[h].sent| + if Speaks(step, h) then 1 else 0
  {
    C.ConnectsAfresh(c, step, cap, h);
    if OfHandler(step) && step.h == h { SpeakersSend(c, step, cap); }
    hide Enabled;
    hide HandlerAfter;
    hide SessionsAfter;
  }

  lemma {:induction false} SpokenIsSent(c: Chat, steps: seq<Step>, cap: nat, c': Chat, h: nat)
    requires Run(c, steps, cap, c') && h in c.handlers
    ensures h in c'.handlers && |c'.handlers[h].sent| == |c.handlers[h].sent| + Spoken(steps, h)
    decreases |steps|
  {
    hide Enabled;
    hide After;
    hide Speaks;
    if steps != [] {
      StepSends(c, steps[0], cap, h);
      SpokenIsSent(After(c, steps[0]), steps[1..], cap, c', h);
    }
  }

  lemma {:induction false} OwnedIsKept(c: Chat, steps: seq<Step>, cap: nat, c': Chat)
    requires Run(c, steps, cap, c') && R.Owned(c)
    ensures R.Owned(c')
    decreases |steps|
  {
    hide Enabled;
    hide After;
    hide R.Owned;
    if steps != [] {
      R.OwnedStays(c, steps[0], cap);
      OwnedIsKept(After(c, steps[0]), steps[1..], cap, c');
    }
  }

  /** Sessions stay, and their keys stay single. */
  lemma {:induction false} SessionIsKept(c: Chat, steps: seq<Step>, cap: nat, c': Chat, session: Uuid)
    requires Run(c, steps, cap, c') && (session in c.sessions ==> C.KeysOnce(c.sessions[session]))
    ensures session in c.sessions ==> session in c'.sessions
    ensures session in c'.sessions ==> C.KeysOnce(c'.sessions[session])
    decreases |steps|
  {
    hide Enabled;
    hide C.KeysOnce;
    if steps != [] {
      OneStepKeepsSession(c, steps[0], cap, session);
      hide After;
      SessionIsKept(After(c, steps[0]), steps[1..], cap, c', session);
    }
  }

  lemma OneStepKeepsSession(c: Chat, step: Step, cap: nat, session: Uuid)
    requires Enabled(c, step, cap) && (session in c.sessions ==> C.KeysOnce(c.sessions[session]))
    ensures session in c.sessions ==> session in After(c, step).sessions
    ensures session in After(c, step).sessions ==> C.KeysOnce(After(c, step).sessions[session])
  {
    assert After(c, step).sessions == SessionsAfter(c, step);
    if session in c.sessions { C.SessionGrows(c, step, cap, session); }
    if session in SessionsAfter(c, step) { C.KeysStayOnce(c, step, cap, session); }
    hide SessionsAfter;
    hide Enabled;
  }

  lemma {:induction false} SessionsAreKept(c: Chat, steps: seq<Step>, cap: nat, c': Chat)
    requires Run(c, steps, cap, c')
    ensures c.sessions.Keys <= c'.sessions.Keys
    decreases |steps|
  {
    hide Enabled;
    if steps != [] {
      forall session | session in c.sessions
        ensures session in After(c, steps[0]).sessions
      {
        C.SessionGrows(c, steps[0], cap, session);
      }
      hide After;
      SessionsAreKept(After(c, steps[0]), steps[1..], cap, c');
    }
  }
}
