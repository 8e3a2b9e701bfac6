/** Open transactions over the session log. Any number of them interleave, each holding the row
    locks of the counters it has drawn from, and each ends in a commit or a rollback
    (adapters/postgres/seq.py and every caller of `allocate_seq`). */
module SessionTransactions {
  import opened Basics
  import opened Jobs
  import opened SessionLog

  /** What one transaction has done to one session and not yet committed. `minted` is a number
      drawn from the counter whose row has not been inserted yet. */
  datatype Draft = Draft(drawn: nat, minted: Option<nat>, messages: seq<MessageRow>, events: seq<JobEvent>)

  /** Holding a draft for a session is holding that session's row lock. */
  type Transaction = map<Uuid, Draft>

  datatype Store = Store(committed: map<Uuid, Session>, open: map<nat, Transaction>)

  datatype TxOp =
    | OpenSession(session: Uuid)
    | Begin(tx: nat)
    | Allocate(tx: nat, session: Uuid)
    | InsertMessage(tx: nat, session: Uuid, messageId: Uuid, role: Role, status: Status, body: string,
                    key: Option<string>)
    | InsertEvent(tx: nat, session: Uuid, job: Uuid, state: JobState)
    | Commit(tx: nat)
    | Rollback(tx: nat)
    | FinishMessage(messageId: Uuid, status: Status, text: Option<string>)

  const EMPTY := Store(map[], map[])

  /** The row lock: only the transaction that drew from a counter may draw from it again. */
  ghost predicate LockFree(s: Store, tx: nat, session: Uuid) {
    forall other :: other in s.open && other != tx ==> session !in s.open[other]
  }

  function DraftOf(t: Transaction, session: Uuid): Draft {
    if session in t then t[session] else Draft(0, None, [], [])
  }

  /** The committed row with a draft applied; a minted number without its row is not counted. */
  function Applied(c: Session, d: Draft): Session {
    Session(c.nextSeq + d.drawn - (if d.minted.Some? && d.drawn > 0 then 1 else 0), c.messages + d.messages,
            c.events + d.events)
  }

  ghost predicate Enabled(s: Store, op: TxOp) {
    match op
    case OpenSession(_) => true
    case Begin(tx) => tx !in s.open
    case Allocate(tx, session) =>
      && tx in s.open && session in s.committed
      && LockFree(s, tx, session)
      && DraftOf(s.open[tx], session).minted.None?
    case InsertMessage(tx, session, _, _, _, _, _) =>
      tx in s.open && session in s.open[tx] && s.open[tx][session].minted.Some?
    case InsertEvent(tx, session, _, _) =>
      tx in s.open && session in s.open[tx] && s.open[tx][session].minted.Some?
    case Commit(tx) =>
      tx in s.open && forall session :: session in s.open[tx] ==> s.open[tx][session].minted.None?
    case Rollback(tx) => tx in s.open
    case FinishMessage(_, _, _) => true
  }

  function Finished(m: MessageRow, messageId: Uuid, status: Status, text: Option<string>): MessageRow {
    if m.stored.messageId != messageId then m
    else m.(stored := m.stored.(status := status, text := if text.Some? then text.value else m.stored.text))
  }

  function FinishIn(c: Session, messageId: Uuid, status: Status, text: Option<string>): Session {
    c.(messages := seq(|c.messages|, i requires 0 <= i < |c.messages| =>
      Finished(c.messages[i], messageId, status, text)))
  }

  function FinishAll(sessions: map<Uuid, Session>, messageId: Uuid, status: Status, text: Option<string>)
    : map<Uuid, Session>
  {
    map session | session in sessions :: FinishIn(sessions[session], messageId, status, text)
  }

  /** What finishing a message does to every row of every session: the rows with its id get the status, and the text if
      one is given; nothing else changes. */
  lemma FinishTouchesItsRows(sessions: map<Uuid, Session>, id: Uuid, status: Status, text: Option<string>)
    ensures var after := FinishAll(sessions, id, status, text);
            && after.Keys == sessions.Keys
            && forall session :: session in sessions ==>
                 var a, b := sessions[session], after[session];
                 && b.nextSeq == a.nextSeq && b.events == a.events && |b.messages| == |a.messages|
                 && forall i :: 0 <= i < |a.messages| ==>
                      var was, row := a.messages[i], b.messages[i];
                      && row.clientMsgId == was.clientMsgId && row.stored.seqNo == was.stored.seqNo
                      && row.stored.messageId == was.stored.messageId && row.stored.role == was.stored.role
                      && if was.stored.messageId == id
                         then
                           && row.stored.status == status
                           && row.stored.text == if text.Some? then text.value else was.stored.text
                         else row == was
  {
  }

  function WithDraft(s: Store, tx: nat, session: Uuid, d: Draft): Store
    requires tx in s.open
  {
    s.(open := s.open[tx := s.open[tx][session := d]])
  }

  ghost function After(s: Store, op: TxOp): Store
    requires Enabled(s, op)
  {
    match op
    case OpenSession(session) =>
      if session in s.committed then s else s.(committed := s.committed[session := NEW_SESSION])
    case Begin(tx) => s.(open := s.open[tx := map[]])
    case Allocate(tx, session) =>
      var d := DraftOf(s.open[tx], session);
      WithDraft(s, tx, session, d.(drawn := d.drawn + 1, minted := Some(s.committed[session].nextSeq + d.drawn)))
    case InsertMessage(tx, session, id, role, status, text, key) =>
      var d := s.open[tx][session];
      var row := MessageRow(StoredMessage(d.minted.value, id, role, status, text), key);
      WithDraft(s, tx, session, d.(minted := None, messages := d.messages + [row]))
    case InsertEvent(tx, session, job, state) =>
      var d := s.open[tx][session];
      WithDraft(s, tx, session, d.(minted := None, events := d.events + [JobEvent(d.minted.value, job, state)]))
    case Commit(tx) =>
      Store(map session | session in s.committed ::
              if session in s.open[tx] then Applied(s.committed[session], s.open[tx][session])
              else s.committed[session],
            s.open - {tx})
    case Rollback(tx) => s.(open := s.open - {tx})
    case FinishMessage(id, status, text) =>
      s.(committed := FinishAll(s.committed, id, status, text))
  }

  ghost predicate DraftInv(c: Session, d: Draft) {
    && (d.minted.Some? ==> d.drawn > 0)
    && SessionInv(Applied(c, d))
    && (d.minted.Some? ==> d.minted.value == Applied(c, d).nextSeq)
  }

  ghost predicate DraftsInv(s: Store) {
    forall tx, session :: tx in s.open && session in s.open[tx] ==>
      session in s.committed && DraftInv(s.committed[session], s.open[tx][session])
  }

  ghost predicate LocksInv(s: Store) {
    forall tx, tx', session :: tx in s.open && tx' in s.open && tx != tx' && session in s.open[tx] ==>
      session !in s.open[tx']
  }

  /** Committed sessions are gap-free, every draft extends its session gap-free, and no two
      transactions hold the same session. */
  ghost predicate StoreInv(s: Store) {
    && (forall session :: session in s.committed ==> SessionInv(s.committed[session]))
    && DraftsInv(s)
    && LocksInv(s)
  }

  /** `ops` is a run from `s` that ends in `s'`. */
  ghost predicate Run(s: Store, ops: seq<TxOp>, s': Store)
    decreases |ops|
  {
    if ops == [] then s == s'
    else Enabled(s, ops[0]) && Run(After(s, ops[0]), ops[1..], s')
  }

  // ----- one step

  lemma EntriesOfConcat(c: Session, ms: seq<MessageRow>, es: seq<JobEvent>, m: MessageRow, e: JobEvent)
    ensures MessageEntries(c.messages + (ms + [m])) == MessageEntries(c.messages + ms) + [MessageEntry(m.stored)]
    ensures EventEntries(c.events + (es + [e])) == EventEntries(c.events + es) + [EventEntry(e)]
  {
    assert c.messages + (ms + [m]) == (c.messages + ms) + [m];
    assert c.events + (es + [e]) == (c.events + es) + [e];
  }

  /** Inserting the row of a minted number, into either table, leaves the draft gap-free. */
  lemma InsertKeepsDraft(c: Session, d: Draft, m: MessageRow, e: JobEvent)
    requires DraftInv(c, d) && d.minted.Some?
    requires m.stored.seqNo == d.minted.value && e.seqNo == d.minted.value
    ensures DraftInv(c, d.(minted := None, messages := d.messages + [m]))
    ensures DraftInv(c, d.(minted := None, events := d.events + [e]))
  {
    var s := Applied(c, d);
    EntriesOfConcat(c, d.messages, d.events, m, e);
    AppendKeepsGapFree(s.nextSeq, MessageEntries(s.messages), EventEntries(s.events), MessageEntry(m.stored));
    AppendKeepsGapFree(s.nextSeq, MessageEntries(s.messages), EventEntries(s.events), EventEntry(e));
  }

  /** A number drawn and not yet used is the draft's next. */
  lemma MintKeepsDraft(c: Session, d: Draft)
    requires DraftInv(c, d) && d.minted.None?
    ensures DraftInv(c, d.(drawn := d.drawn + 1, minted := Some(c.nextSeq + d.drawn)))
  {
    hide SessionInv;
    assert Applied(c, d.(drawn := d.drawn + 1, minted := Some(c.nextSeq + d.drawn))) == Applied(c, d);
  }

  lemma FreshDraft(c: Session)
    requires SessionInv(c)
    ensures DraftInv(c, Draft(0, None, [], []))
  {
    assert c.messages + [] == c.messages && c.events + [] == c.events;
  }

  /** Renaming the status or text of a row moves no number. */
  lemma SameNumbers(next: nat, a: seq<Entry>, a': seq<Entry>, b: seq<Entry>)
    requires GapFree(next, a, b)
    requires |a| == |a'| && forall i :: 0 <= i < |a| ==> a[i].SeqNo() == a'[i].SeqNo()
    ensures GapFree(next, a', b)
  {
    forall n: nat
      ensures HasNumber(a', n) <==> HasNumber(a, n)
    {
      if HasNumber(a, n) {
        var i :| 0 <= i < |a| && a[i].SeqNo() == n;
        assert a'[i].SeqNo() == n;
      }
    }
  }

  lemma FinishKeepsDraft(c: Session, d: Draft, id: Uuid, status: Status, text: Option<string>)
    requires DraftInv(c, d)
    ensures DraftInv(FinishIn(c, id, status, text), d)
  {
    var s, s' := Applied(c, d), Applied(FinishIn(c, id, status, text), d);
    SameNumbers(s.nextSeq, MessageEntries(s.messages), MessageEntries(s'.messages), EventEntries(s.events));
  }

  lemma FinishKeepsSession(c: Session, id: Uuid, status: Status, text: Option<string>)
    requires SessionInv(c)
    ensures SessionInv(FinishIn(c, id, status, text))
  {
    var c' := FinishIn(c, id, status, text);
    SameNumbers(c.nextSeq, MessageEntries(c.messages), MessageEntries(c'.messages), EventEntries(c.events));
  }

  lemma NewSessionInv()
    ensures SessionInv(NEW_SESSION)
  {
  }

  lemma DraftStepKeepsDrafts(s: Store, tx: nat, session: Uuid, d: Draft)
    requires DraftsInv(s) && tx in s.open && session in s.committed && DraftInv(s.committed[session], d)
    ensures DraftsInv(WithDraft(s, tx, session, d))
  {
    hide DraftInv;
  }

  lemma DraftStepKeepsLocks(s: Store, tx: nat, session: Uuid, d: Draft)
    requires LocksInv(s) && tx in s.open && LockFree(s, tx, session)
    ensures LocksInv(WithDraft(s, tx, session, d))
  {
  }

  lemma DraftStepKeepsInv(s: Store, tx: nat, session: Uuid, d: Draft)
    requires StoreInv(s) && tx in s.open && session in s.committed
    requires LockFree(s, tx, session) && DraftInv(s.committed[session], d)
    ensures StoreInv(WithDraft(s, tx, session, d))
  {
    hide SessionInv;
    hide DraftsInv;
    hide LocksInv;
    DraftStepKeepsDrafts(s, tx, session, d);
    DraftStepKeepsLocks(s, tx, session, d);
  }

  lemma DraftSoFar(s: Store, tx: nat, session: Uuid)
    requires StoreInv(s) && tx in s.open && session in s.committed
    ensures DraftInv(s.committed[session], DraftOf(s.open[tx], session))
  {
    hide SessionInv;
    if session !in s.open[tx] { FreshDraft(s.committed[session]); }
  }

  lemma AllocateMints(s: Store, tx: nat, session: Uuid)
    requires Enabled(s, Allocate(tx, session))
    ensures tx in s.open && session in s.committed && LockFree(s, tx, session)
    ensures var d := DraftOf(s.open[tx], session);
            && d.minted.None?
            && After(s, Allocate(tx, session)) ==
               WithDraft(s, tx, session,
                         d.(drawn := d.drawn + 1, minted := Some(s.committed[session].nextSeq + d.drawn)))
  {
  }

  lemma AllocateKeepsInv(s: Store, tx: nat, session: Uuid)
    requires StoreInv(s) && Enabled(s, Allocate(tx, session))
    ensures StoreInv(After(s, Allocate(tx, session)))
  {
    hide *;
    AllocateMints(s, tx, session);
    var d := DraftOf(s.open[tx], session);
    DraftSoFar(s, tx, session);
    MintKeepsDraft(s.committed[session], d);
    DraftStepKeepsInv(s, tx, session, d.(drawn := d.drawn + 1, minted := Some(s.committed[session].nextSeq + d.drawn)));
  }

  lemma InsertKeepsInv(s: Store, op: TxOp)
    requires StoreInv(s) && (op.InsertMessage? || op.InsertEvent?) && Enabled(s, op)
    ensures StoreInv(After(s, op))
  {
    var c, d := s.committed[op.session], s.open[op.tx][op.session];
    var n := d.minted.value;
    var m := if op.InsertMessage? then MessageRow(StoredMessage(n, op.messageId, op.role, op.status, op.body), op.key)
             else MessageRow(StoredMessage(n, 0, User, Complete, ""), None);
    var e := if op.InsertEvent? then JobEvent(n, op.job, op.state) else JobEvent(n, 0, Queued);
    InsertKeepsDraft(c, d, m, e);
    DraftStepKeepsInv(s, op.tx, op.session,
      if op.InsertMessage? then d.(minted := None, messages := d.messages + [m])
      else d.(minted := None, events := d.events + [e]));
  }

  lemma FinishKeepsInv(s: Store, op: TxOp)
    requires StoreInv(s) && op.FinishMessage?
    ensures StoreInv(After(s, op))
  {
    hide SessionInv;
    hide DraftInv;
    forall session | session in s.committed
      ensures SessionInv(After(s, op).committed[session])
    {
      FinishKeepsSession(s.committed[session], op.messageId, op.status, op.text);
    }
    forall tx, session | tx in s.open && session in s.open[tx]
      ensures DraftInv(After(s, op).committed[session], s.open[tx][session])
    {
      FinishKeepsDraft(s.committed[session], s.open[tx][session], op.messageId, op.status, op.text);
    }
  }

  lemma OpenKeepsInv(s: Store, session: Uuid)
    requires StoreInv(s)
    ensures StoreInv(After(s, OpenSession(session)))
  {
    NewSessionInv();
    hide SessionInv;
    hide DraftInv;
  }

  lemma BeginKeepsInv(s: Store, tx: nat)
    requires StoreInv(s) && Enabled(s, Begin(tx))
    ensures StoreInv(After(s, Begin(tx)))
  {
    hide SessionInv;
    hide DraftInv;
  }

  /** A draft with nothing minted is committed as it stands. */
  lemma CommittedDraft(c: Session, d: Draft)
    requires DraftInv(c, d)
    ensures SessionInv(Applied(c, d))
  {
  }

  lemma CommitKeepsSession(s: Store, tx: nat, session: Uuid)
    requires StoreInv(s) && Enabled(s, Commit(tx)) && session in s.committed
    ensures session in After(s, Commit(tx)).committed && SessionInv(After(s, Commit(tx)).committed[session])
  {
    if session in s.open[tx] {
      CommittedDraft(s.committed[session], s.open[tx][session]);
    }
    hide SessionInv;
    hide DraftInv;
    hide Applied;
  }

  lemma CommitLeavesOthers(s: Store, tx: nat, other: nat, session: Uuid)
    requires StoreInv(s) && Enabled(s, Commit(tx)) && other in s.open && other != tx && session in s.open[other]
    ensures session in s.committed && session in After(s, Commit(tx)).committed
    ensures After(s, Commit(tx)).committed[session] == s.committed[session]
  {
    hide SessionInv;
    hide DraftInv;
    hide Applied;
  }

  lemma CommitKeepsInv(s: Store, tx: nat)
    requires StoreInv(s) && Enabled(s, Commit(tx))
    ensures StoreInv(After(s, Commit(tx)))
  {
    hide SessionInv;
    hide Applied;
    hide DraftsInv;
    hide LocksInv;
    var s' := After(s, Commit(tx));
    assert s'.open == s.open - {tx} && s'.committed.Keys == s.committed.Keys;
    forall session | session in s'.committed
      ensures SessionInv(s'.committed[session])
    {
      CommitKeepsSession(s, tx, session);
    }
    hide After;
    CommitKeepsDrafts(s, tx);
    FewerLocks(s, s');
  }

  lemma CommitKeepsDrafts(s: Store, tx: nat)
    requires StoreInv(s) && Enabled(s, Commit(tx))
    ensures DraftsInv(After(s, Commit(tx)))
  {
    var s' := After(s, Commit(tx));
    assert s'.open == s.open - {tx};
    assert DraftsInv(s);
    hide StoreInv;
    hide DraftInv;
    hide After;
    forall other, session | other in s'.open && session in s'.open[other]
      ensures session in s'.committed && DraftInv(s'.committed[session], s'.open[other][session])
    {
      CommitLeavesOthers(s, tx, other, session);
    }
  }

  lemma FewerLocks(s: Store, s': Store)
    requires LocksInv(s) && forall tx :: tx in s'.open ==> tx in s.open && s'.open[tx] == s.open[tx]
    ensures LocksInv(s')
  {
  }

  lemma RollbackKeepsInv(s: Store, tx: nat)
    requires StoreInv(s) && Enabled(s, Rollback(tx))
    ensures StoreInv(After(s, Rollback(tx)))
  {
    hide SessionInv;
    hide DraftInv;
  }

  lemma AfterKeepsInv(s: Store, op: TxOp)
    requires StoreInv(s) && Enabled(s, op)
    ensures StoreInv(After(s, op))
  {
    hide StoreInv;
    hide After;
    match op
    case OpenSession(session) => OpenKeepsInv(s, session);
    case Begin(tx) => BeginKeepsInv(s, tx);
    case Commit(tx) => CommitKeepsInv(s, tx);
    case Rollback(tx) => RollbackKeepsInv(s, tx);
    case Allocate(tx, session) => AllocateKeepsInv(s, tx, session);
    case InsertMessage(_, _, _, _, _, _, _) => InsertKeepsInv(s, op);
    case InsertEvent(_, _, _, _) => InsertKeepsInv(s, op);
    case FinishMessage(_, _, _) => FinishKeepsInv(s, op);
  }

  // ----- whole runs

  lemma {:induction false} RunInv(s: Store, ops: seq<TxOp>, s': Store)
    requires StoreInv(s) && Run(s, ops, s')
    ensures StoreInv(s')
    decreases |ops|
  {
    if ops != [] {
      AfterKeepsInv(s, ops[0]);
      RunInv(After(s, ops[0]), ops[1..], s');
    }
  }

  /** After any interleaving of transactions, committed or rolled back, every session's two tables
      together hold exactly the numbers below its counter, each once; read in order they are
      1, 2, 3, and so on. */
  lemma LogHasNoGaps(ops: seq<TxOp>, s: Store, session: Uuid)
    requires Run(EMPTY, ops, s) && session in s.committed
    ensures SessionInv(s.committed[session])
    ensures var log := Log(s.committed[session]);
            |log| == s.committed[session].nextSeq - 1 && forall i :: 0 <= i < |log| ==> log[i].SeqNo() == i + 1
  {
    RunInv(EMPTY, ops, s);
    LogIsNumbered(s.committed[session]);
  }

  lemma CommitNeverFalls(s: Store, tx: nat)
    requires Enabled(s, Commit(tx))
    ensures forall session :: session in s.committed ==>
              && session in After(s, Commit(tx)).committed
              && s.committed[session].nextSeq <= After(s, Commit(tx)).committed[session].nextSeq
  {
  }

  lemma CounterNeverFalls(s: Store, op: TxOp)
    requires Enabled(s, op)
    ensures forall session :: session in s.committed ==>
              session in After(s, op).committed
              && s.committed[session].nextSeq <= After(s, op).committed[session].nextSeq
  {
    if op.Commit? {
      CommitNeverFalls(s, op.tx);
    } else if op.FinishMessage? {
      FinishNeverFalls(s, op);
    } else {
      OthersLeaveCounters(s, op);
    }
    hide After;
    hide Enabled;
  }

  lemma OthersLeaveCounters(s: Store, op: TxOp)
    requires Enabled(s, op) && !op.Commit? && !op.FinishMessage?
    ensures forall session :: session in s.committed ==>
              session in After(s, op).committed && After(s, op).committed[session] == s.committed[session]
  {
  }

  lemma FinishNeverFalls(s: Store, op: TxOp)
    requires op.FinishMessage?
    ensures forall session :: session in s.committed ==>
              session in After(s, op).committed
              && s.committed[session].nextSeq <= After(s, op).committed[session].nextSeq
  {
  }

  lemma {:induction false} RunSplit(s: Store, ops: seq<TxOp>, s': Store)
    requires StoreInv(s) && Run(s, ops, s')
    ensures forall session :: session in s.committed ==>
              session in s'.committed && s.committed[session].nextSeq <= s'.committed[session].nextSeq
    decreases |ops|
  {
    if ops != [] {
      AfterKeepsInv(s, ops[0]);
      CounterNeverFalls(s, ops[0]);
      hide StoreInv;
      hide After;
      hide Enabled;
      RunSplit(After(s, ops[0]), ops[1..], s');
    }
  }

  /** Commit order is number order: a number that is new in a later snapshot is higher than every
      number an earlier snapshot held, so a reader that sees n has been able to see all below n. */
  lemma CommitOrderIsNumberOrder(before: seq<TxOp>, s: Store, after: seq<TxOp>, s': Store, session: Uuid, held: nat,
                                 later: nat)
    requires Run(EMPTY, before, s) && Run(s, after, s') && session in s.committed
    requires Numbered(s, session, held)
    requires session in s'.committed && Numbered(s', session, later) && !Numbered(s, session, later)
    ensures held < later
    ensures forall n: nat :: 1 <= n <= later ==> Numbered(s', session, n)
  {
    RunInv(EMPTY, before, s);
    RunInv(s, after, s');
    RunSplit(s, after, s');
  }

  /** A committed row of the session, in either table, carries the number. */
  ghost predicate Numbered(s: Store, session: Uuid, n: nat)
    requires session in s.committed
  {
    HasNumber(MessageEntries(s.committed[session].messages), n)
      || HasNumber(EventEntries(s.committed[session].events), n)
  }

  // ----- what the rows hold

  /** Some transaction of the run inserted this row into this session; and it is as inserted unless the message was
      finished since. */
  ghost predicate Wrote(ops: seq<TxOp>, session: Uuid, row: MessageRow) {
    exists k :: 0 <= k < |ops| && Inserted(ops, k, session, row)
  }

  ghost predicate Inserted(ops: seq<TxOp>, k: nat, session: Uuid, row: MessageRow)
    requires k < |ops|
  {
    && ops[k].InsertMessage? && ops[k].session == session && ops[k].messageId == row.stored.messageId
    && ops[k].role == row.stored.role && ops[k].key == row.clientMsgId
    && ((ops[k].status == row.stored.status && ops[k].body == row.stored.text)
        || exists j :: k < j < |ops| && ops[j].FinishMessage? && ops[j].messageId == row.stored.messageId)
  }

  ghost predicate AllWrote(ops: seq<TxOp>, session: Uuid, rows: seq<MessageRow>) {
    forall i :: 0 <= i < |rows| ==> Wrote(ops, session, rows[i])
  }

  ghost predicate NothingInvented(s: Store, past: seq<TxOp>) {
    && (forall session :: session in s.committed ==> AllWrote(past, session, s.committed[session].messages))
    && (forall tx, session :: tx in s.open && session in s.open[tx] ==>
          AllWrote(past, session, s.open[tx][session].messages))
  }

  lemma StillWrote(past: seq<TxOp>, op: TxOp, session: Uuid, row: MessageRow)
    requires Wrote(past, session, row)
    ensures Wrote(past + [op], session, row)
    ensures op.FinishMessage? ==> Wrote(past + [op], session, Finished(row, op.messageId, op.status, op.text))
  {
    var k :| 0 <= k < |past| && Inserted(past, k, session, row);
    var ops := past + [op];
    assert ops[k] == past[k] && ops[|past|] == op;
    assert forall j :: 0 <= j < |past| ==> ops[j] == past[j];
    assert Inserted(ops, k, session, row);
    if op.FinishMessage? {
      assert Inserted(ops, k, session, Finished(row, op.messageId, op.status, op.text));
    }
  }

  lemma AllStillWrote(past: seq<TxOp>, op: TxOp, session: Uuid, rows: seq<MessageRow>)
    requires AllWrote(past, session, rows)
    ensures AllWrote(past + [op], session, rows)
  {
    forall i | 0 <= i < |rows| { StillWrote(past, op, session, rows[i]); }
    hide Wrote;
  }

  lemma FinishingInventsNothing(past: seq<TxOp>, op: TxOp, session: Uuid, c: Session)
    requires AllWrote(past, session, c.messages) && op.FinishMessage?
    ensures AllWrote(past + [op], session, FinishIn(c, op.messageId, op.status, op.text).messages)
  {
    forall i | 0 <= i < |c.messages| { StillWrote(past, op, session, c.messages[i]); }
    hide Wrote;
    hide Finished;
  }

  lemma InsertingInventsNothing(past: seq<TxOp>, op: TxOp, rows: seq<MessageRow>, seqNo: nat)
    requires op.InsertMessage? && AllWrote(past, op.session, rows)
    ensures var row := MessageRow(StoredMessage(seqNo, op.messageId, op.role, op.status, op.body), op.key);
            AllWrote(past + [op], op.session, rows + [row])
  {
    AllStillWrote(past, op, op.session, rows);
    var row := MessageRow(StoredMessage(seqNo, op.messageId, op.role, op.status, op.body), op.key);
    assert (past + [op])[|past|] == op && Inserted(past + [op], |past|, op.session, row);
    hide Inserted;
  }

  lemma StepInventsNothing(s: Store, past: seq<TxOp>, op: TxOp)
    requires Enabled(s, op) && NothingInvented(s, past)
    ensures NothingInvented(After(s, op), past + [op])
  {
    var s' := After(s, op);
    forall session | session in s'.committed
      ensures AllWrote(past + [op], session, s'.committed[session].messages)
    {
      if session in s.committed {
        AllStillWrote(past, op, session, s.committed[session].messages);
        if op.FinishMessage? {
          FinishingInventsNothing(past, op, session, s.committed[session]);
        } else if op.Commit? && session in s.open[op.tx] {
          AllStillWrote(past, op, session, s.open[op.tx][session].messages);
        }
      }
      hide Wrote;
      hide FinishIn;
    }
    forall tx, session | tx in s'.open && session in s'.open[tx]
      ensures AllWrote(past + [op], session, s'.open[tx][session].messages)
    {
      if tx in s.open && session in s.open[tx] {
        AllStillWrote(past, op, session, s.open[tx][session].messages);
        if op.InsertMessage? && op.tx == tx && op.session == session {
          InsertingInventsNothing(past, op, s.open[tx][session].messages, s.open[tx][session].minted.value);
        }
      }
      hide Wrote;
      hide FinishIn;
    }
  }

  lemma {:induction false} RunInventsNothing(s: Store, past: seq<TxOp>, ops: seq<TxOp>, s': Store)
    requires Run(s, ops, s') && NothingInvented(s, past)
    ensures NothingInvented(s', past + ops)
    decreases |ops|
  {
    hide NothingInvented;
    hide Enabled;
    hide After;
    if ops == [] {
      assert past + [] == past;
    } else {
      StepInventsNothing(s, past, ops[0]);
      RunInventsNothing(After(s, ops[0]), past + [ops[0]], ops[1..], s');
      assert past + ops == past + [ops[0]] + ops[1..];
    }
  }

  /** A committed message is one that a transaction of the run inserted into that session, under that identity, role and
      key; and its status and text are as inserted, or the message was finished afterwards. */
  lemma RowsAreAsInserted(ops: seq<TxOp>, s: Store, session: Uuid, i: nat)
    requires Run(EMPTY, ops, s) && session in s.committed && i < |s.committed[session].messages|
    ensures var row := s.committed[session].messages[i];
            exists k :: 0 <= k < |ops|
              && ops[k].InsertMessage? && ops[k].session == session && ops[k].messageId == row.stored.messageId
              && ops[k].role == row.stored.role && ops[k].key == row.clientMsgId
              && ((ops[k].status == row.stored.status && ops[k].body == row.stored.text)
                  || exists j :: k < j < |ops| && ops[j].FinishMessage? && ops[j].messageId == row.stored.messageId)
  {
    RunInventsNothing(EMPTY, [], ops, s);
    assert [] + ops == ops;
    var row := s.committed[session].messages[i];
    hide Run;
    assert Wrote(ops, session, row);
    var k :| 0 <= k < |ops| && Inserted(ops, k, session, row);
  }
}
