/** One session's durable log, as the chat protocol reads and writes it
    (adapters/postgres/chat_repository.py). */
module ChatRepository {
  import opened Basics
  import opened SessionLog
  import opened SessionTransactions
  import opened Tables
  import opened JobStore
  import opened JobTable

  datatype RecordedUserMessage = RecordedUserMessage(message: StoredMessage, created: bool)

  /** The row a key already stored. */
  predicate Stores(s: Session, key: string, m: StoredMessage) {
    exists i :: 0 <= i < |s.messages| && s.messages[i].clientMsgId == Some(key) && s.messages[i].stored == m
  }

  lemma SoundStaysWith(t: Committed, session: Uuid, s: Session)
    requires Sound(t)
    ensures SessionsKnown(t.jobs, t.sessions) && Sound(t.(sessions := t.sessions[session := s]))
  {
    hide KeysUnique;
  }

  lemma SoundGrows(t: Committed, sessions: SessionMap)
    requires Sound(t) && t.sessions.Keys <= sessions.Keys
    ensures Sound(t.(sessions := sessions))
  {
    hide KeysUnique;
  }

  class PostgresChatRepository {
    const db: Database

    constructor (db: Database)
      ensures this.db == db
    {
      this.db := db;
    }

    method EnsureSession(session: Uuid)
      requires db.Valid()
      modifies db`sessions
      ensures db.Valid() && db.State() == Tables.After(old(db.State()), TableOp.EnsureSession(session))
      ensures db.jobs == old(db.jobs)
      ensures db.sessions == if session in old(db.sessions) then old(db.sessions)
                             else old(db.sessions)[session := Session(1, [], [])]
    {
      if session !in db.sessions {
        db.sessions := db.sessions[session := NEW_SESSION];
      }
    }

    /** Draws a number and inserts, or finds the key taken and rolls the draw back. A duplicate consumes
        no number and is answered with the row its key already stored. */
    method RecordUserMessage(session: Uuid, key: string, text: string, id: Uuid)
      returns (r: Result<RecordedUserMessage, LookupError>)
      requires db.Valid()
      modifies db`sessions
      ensures db.Valid()
      ensures session !in old(db.sessions) ==> r == Err(NoSuchChatSession) && db.State() == old(db.State())
      ensures session in old(db.sessions) ==>
                var s := old(db.sessions)[session];
                && db.State() == Tables.After(old(db.State()), RecordUser(session, id, key, text))
                && r.Ok?
                && (r.value.created <==> !HasKey(s, key))
                && (if r.value.created then r.value.message == StoredMessage(s.nextSeq, id, User, Complete, text)
                    else Stores(s, key, r.value.message) && db.State() == old(db.State()))
                && (r.value.created ==>
                      && db.jobs == old(db.jobs)
                      && db.sessions == old(db.sessions)[session :=
                           Session(s.nextSeq + 1, s.messages + [MessageRow(r.value.message, Some(key))], s.events)])
                && (r.value.created <==>
                      forall i :: 0 <= i < |s.messages| ==> s.messages[i].clientMsgId != Some(key))
    {
      var own := if session in db.sessions then db.sessions[session] else NEW_SESSION;
      SoundStaysWith(db.State(), session, WithUser(own, id, key, text));
      hide Sound;
      var begun := db.sessions;
      var drawn := db.AllocateSeq(session);
      if drawn.Err? {
        return Err(NoSuchChatSession);
      }
      var s := db.sessions[session];
      if i :| 0 <= i < |s.messages| && s.messages[i].clientMsgId == Some(key) {
        db.sessions := begun;
        assert begun[session := begun[session]] == begun;
        return Ok(RecordedUserMessage(s.messages[i].stored, false));
      }
      var m := StoredMessage(drawn.value, id, User, Complete, text);
      db.sessions := db.sessions[session := s.(messages := s.messages + [MessageRow(m, Some(key))])];
      r := Ok(RecordedUserMessage(m, true));
    }

    /** Opens a reply: numbered and findable before its first chunk exists. */
    method StartAssistantMessage(session: Uuid, id: Uuid) returns (r: Result<StoredMessage, LookupError>)
      requires db.Valid()
      modifies db`sessions
      ensures db.Valid()
      ensures session !in old(db.sessions) ==> r == Err(NoSuchChatSession) && db.State() == old(db.State())
      ensures session in old(db.sessions) ==>
                && db.State() == Tables.After(old(db.State()), StartAssistant(session, id))
                && r == Ok(StoredMessage(old(db.sessions)[session].nextSeq, id, Assistant, Streaming, ""))
                && db.jobs == old(db.jobs)
                && var s := old(db.sessions)[session];
                   db.sessions == old(db.sessions)[session :=
                     Session(s.nextSeq + 1, s.messages + [MessageRow(r.value, None)], s.events)]
    {
      var own := if session in db.sessions then db.sessions[session] else NEW_SESSION;
      SoundStaysWith(db.State(), session, WithAssistant(own, id));
      hide Sound;
      var drawn := db.AllocateSeq(session);
      if drawn.Err? {
        return Err(NoSuchChatSession);
      }
      var s := db.sessions[session];
      var m := StoredMessage(drawn.value, id, Assistant, Streaming, "");
      db.sessions := db.sessions[session := s.(messages := s.messages + [MessageRow(m, None)])];
      r := Ok(m);
    }

    /** Writes a message's final status, and its text if there is one. */
    method Finish(id: Uuid, status: Status, text: Option<string>)
      requires db.Valid()
      modifies db`sessions
      ensures db.Valid() && db.State() == Tables.After(old(db.State()), TableOp.FinishMessage(id, status, text))
      ensures db.jobs == old(db.jobs) && db.sessions.Keys == old(db.sessions).Keys
      ensures forall session :: session in db.sessions ==>
                var a, b := old(db.sessions)[session], db.sessions[session];
                && b.nextSeq == a.nextSeq && b.events == a.events && |b.messages| == |a.messages|
                && forall i :: 0 <= i < |a.messages| ==>
                     var was, row := a.messages[i], b.messages[i];
                     && row.clientMsgId == was.clientMsgId && row.stored.seqNo == was.stored.seqNo
                     && row.stored.messageId == was.stored.messageId && row.stored.role == was.stored.role
                     && if was.stored.messageId == id
                        then
                          && row.stored.status == status
                          && row.stored.text == if text.Some? then text.value else was.stored.text
                        else row == was
    {
      FinishTouchesItsRows(db.sessions, id, status, text);
      db.sessions := FinishAll(db.sessions, id, status, text);
    }

    method CompleteAssistantMessage(id: Uuid, text: string)
      requires db.Valid()
      modifies db`sessions
      ensures db.Valid() && db.State() == Tables.After(old(db.State()), TableOp.FinishMessage(id, Complete, Some(text)))
    {
      Finish(id, Complete, Some(text));
    }

    method FailAssistantMessage(id: Uuid)
      requires db.Valid()
      modifies db`sessions
      ensures db.Valid() && db.State() == Tables.After(old(db.State()), TableOp.FinishMessage(id, Status.Failed, None))
    {
      Finish(id, Status.Failed, None);
    }

    /** Two bounded scans of one snapshot, merged on their numbers and cut at the limit: exactly the next
        `limit` entries of the session's log, numbered on from the cursor. */
    method LogSince(session: Uuid, after: nat, limit: nat) returns (found: seq<Entry>)
      ensures session !in db.sessions ==> found == []
      ensures session in db.sessions ==> found == SessionLog.LogSince(db.sessions[session], after, limit)
      ensures session in db.sessions && SessionInv(db.sessions[session]) ==>
                var log := Log(db.sessions[session]);
                && found == Take(log[Min(after, |log|)..], limit)
                && forall i :: 0 <= i < |found| ==> found[i].SeqNo() == after + 1 + i
    {
      if session !in db.sessions {
        return [];
      }
      var s := db.sessions[session];
      var messages := Scan(MessageEntries(s.messages), after, limit);
      var events := Scan(EventEntries(s.events), after, limit);
      found := MergeAndCut(messages, events, limit);
      if SessionInv(s) { BoundedMergeIsExact(s, after, limit); }
    }
  }

  predicate TakesLeft(a: seq<Entry>, b: seq<Entry>, i: nat, j: nat)
    requires i <= |a| && j <= |b|
  {
    i < |a| && (j == |b| || a[i].SeqNo() <= b[j].SeqNo())
  }

  /** One step of the merge takes the smaller head. */
  lemma MergeTakesOne(a: seq<Entry>, b: seq<Entry>, i: nat, j: nat)
    requires i <= |a| && j <= |b| && (i < |a| || j < |b|)
    ensures TakesLeft(a, b, i, j) ==> Merge(a[i..], b[j..]) == [a[i]] + Merge(a[i + 1..], b[j..])
    ensures !TakesLeft(a, b, i, j) ==> j < |b| && Merge(a[i..], b[j..]) == [b[j]] + Merge(a[i..], b[j + 1..])
  {
    if i < |a| { assert a[i..] == [a[i]] + a[i + 1..] && a[i..][1..] == a[i + 1..]; }
    if j < |b| { assert b[j..] == [b[j]] + b[j + 1..] && b[j..][1..] == b[j + 1..]; }
  }

  lemma TakeMoves(found: seq<Entry>, x: Entry, rest: seq<Entry>, limit: nat)
    requires |found| < limit
    ensures found + Take([x] + rest, limit - |found|) == (found + [x]) + Take(rest, limit - |found + [x]|)
  {
    TakeOfCons(x, rest, limit - |found|);
  }

  /** The two-way merge, stopped at the limit. */
  method MergeAndCut(a: seq<Entry>, b: seq<Entry>, limit: nat) returns (found: seq<Entry>)
    ensures found == Take(Merge(a, b), limit)
  {
    hide Merge;
    hide Take;
    var i, j := 0, 0;
    found := [];
    ghost var goal := Take(Merge(a, b), limit);
    assert a[0..] == a && b[0..] == b && [] + goal == goal;
    while |found| < limit && (i < |a| || j < |b|)
      invariant 0 <= i <= |a| && 0 <= j <= |b| && |found| <= limit
      invariant found + Take(Merge(a[i..], b[j..]), limit - |found|) == goal
      decreases |a| + |b| - i - j
    {
      MergeTakesOne(a, b, i, j);
      if TakesLeft(a, b, i, j) {
        TakeMoves(found, a[i], Merge(a[i + 1..], b[j..]), limit);
        found, i := found + [a[i]], i + 1;
      } else {
        TakeMoves(found, b[j], Merge(a[i..], b[j + 1..]), limit);
        found, j := found + [b[j]], j + 1;
      }
    }
    NothingLeft(a[i..], b[j..], limit - |found|);
  }

  lemma NothingLeft(a: seq<Entry>, b: seq<Entry>, n: nat)
    requires n == 0 || (a == [] && b == [])
    ensures Take(Merge(a, b), n) == []
  {
  }
}
