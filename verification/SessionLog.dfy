/** One session's numbered log: two tables that draw from one counter, and the bounded two-way
    merge that reads them back as one (adapters/postgres/seq.py, chat_repository.py). */
module SessionLog {
  import opened Basics
  import opened Jobs

  datatype Role = User | Assistant

  datatype Status = Streaming | Complete | Failed

  datatype StoredMessage = StoredMessage(seqNo: nat, messageId: Uuid, role: Role, status: Status, text: string)

  /** A row of `chat_messages`: the stored message and the client's idempotency key. */
  datatype MessageRow = MessageRow(stored: StoredMessage, clientMsgId: Option<string>)

  /** What a session owns: its counter, its messages, and its job events, in commit order. */
  datatype Session = Session(nextSeq: nat, messages: seq<MessageRow>, events: seq<JobEvent>)

  /** One row of the shared log, whichever table holds it. */
  datatype Entry = MessageEntry(message: StoredMessage) | EventEntry(event: JobEvent)
  {
    function SeqNo(): nat {
      match this
      case MessageEntry(m) => m.seqNo
      case EventEntry(e) => e.seqNo
    }
  }

  const NEW_SESSION := Session(1, [], [])

  function MessageEntries(rows: seq<MessageRow>): (es: seq<Entry>)
    ensures |es| == |rows|
    ensures forall i :: 0 <= i < |rows| ==> es[i] == MessageEntry(rows[i].stored)
  {
    if rows == [] then [] else MessageEntries(rows[..|rows| - 1]) + [MessageEntry(rows[|rows| - 1].stored)]
  }

  function EventEntries(rows: seq<JobEvent>): (es: seq<Entry>)
    ensures |es| == |rows|
    ensures forall i :: 0 <= i < |rows| ==> es[i] == EventEntry(rows[i])
  {
    if rows == [] then [] else EventEntries(rows[..|rows| - 1]) + [EventEntry(rows[|rows| - 1])]
  }

  ghost predicate Ascending(xs: seq<Entry>) {
    forall i, j :: 0 <= i < j < |xs| ==> xs[i].SeqNo() < xs[j].SeqNo()
  }

  ghost predicate HasNumber(xs: seq<Entry>, n: nat) {
    exists i :: 0 <= i < |xs| && xs[i].SeqNo() == n
  }

  /** Together the two tables hold exactly the numbers from 1 to one below the counter, each once,
      and each table holds its share in ascending order. */
  ghost predicate GapFree(next: nat, a: seq<Entry>, b: seq<Entry>) {
    && next >= 1
    && Ascending(a)
    && Ascending(b)
    && (forall n: nat :: HasNumber(a, n) || HasNumber(b, n) <==> 1 <= n < next)
    && (forall n: nat :: !(HasNumber(a, n) && HasNumber(b, n)))
  }

  ghost predicate SessionInv(s: Session) {
    GapFree(s.nextSeq, MessageEntries(s.messages), EventEntries(s.events))
  }

  // ----- appending keeps the log gap-free

  lemma NumbersOfAppend(xs: seq<Entry>, x: Entry, n: nat)
    ensures HasNumber(xs + [x], n) <==> HasNumber(xs, n) || x.SeqNo() == n
  {
    if HasNumber(xs, n) {
      var i :| 0 <= i < |xs| && xs[i].SeqNo() == n;
      assert (xs + [x])[i].SeqNo() == n;
    }
    if x.SeqNo() == n {
      assert (xs + [x])[|xs|].SeqNo() == n;
    }
  }

  lemma AppendKeepsGapFree(next: nat, a: seq<Entry>, b: seq<Entry>, x: Entry)
    requires GapFree(next, a, b) && x.SeqNo() == next
    ensures GapFree(next + 1, a + [x], b)
    ensures GapFree(next + 1, a, b + [x])
  {
    forall n: nat
      ensures HasNumber(a + [x], n) <==> HasNumber(a, n) || x.SeqNo() == n
      ensures HasNumber(b + [x], n) <==> HasNumber(b, n) || x.SeqNo() == n
    {
      NumbersOfAppend(a, x, n);
      NumbersOfAppend(b, x, n);
    }
    assert forall i :: 0 <= i < |a| ==> HasNumber(a, a[i].SeqNo());
    assert forall i :: 0 <= i < |b| ==> HasNumber(b, b[i].SeqNo());
  }

  // ----- the merge

  /** The two sorted streams as one, smallest number first. */
  function Merge(a: seq<Entry>, b: seq<Entry>): seq<Entry> {
    if a == [] then b
    else if b == [] then a
    else if a[0].SeqNo() <= b[0].SeqNo() then [a[0]] + Merge(a[1..], b)
    else [b[0]] + Merge(a, b[1..])
  }

  function Take<T>(xs: seq<T>, n: nat): seq<T> {
    if n <= |xs| then xs[..n] else xs
  }

  /** The rows numbered past a cursor. */
  function Since(xs: seq<Entry>, after: nat): seq<Entry> {
    if xs == [] then []
    else if xs[0].SeqNo() > after then [xs[0]] + Since(xs[1..], after)
    else Since(xs[1..], after)
  }

  /** One range scan: the rows past the cursor, in order, at most `limit` of them. */
  function Scan(xs: seq<Entry>, after: nat, limit: nat): seq<Entry> {
    Take(Since(xs, after), limit)
  }

  /** The whole log of a session, in order. */
  function Log(s: Session): seq<Entry> {
    Merge(MessageEntries(s.messages), EventEntries(s.events))
  }

  /** Two bounded scans, merged, and cut again: what the repository computes. */
  function LogSince(s: Session, after: nat, limit: nat): seq<Entry> {
    Take(Merge(Scan(MessageEntries(s.messages), after, limit), Scan(EventEntries(s.events), after, limit)), limit)
  }

  /** The first entries of a merge come from the first entries of each side. */
  lemma {:induction false} CutEachSide(a: seq<Entry>, b: seq<Entry>, m: nat, n: nat, limit: nat)
    requires limit <= m && limit <= n
    ensures Take(Merge(Take(a, m), Take(b, n)), limit) == Take(Merge(a, b), limit)
    decreases limit
  {
    hide Merge;
    hide Take;
    if limit == 0 {
      NothingTaken(Merge(Take(a, m), Take(b, n)), Merge(a, b));
    } else if a == [] || b == [] {
      OneSideCut(a, b, m, n, limit);
    } else if a[0].SeqNo() <= b[0].SeqNo() {
      CutEachSide(a[1..], b, m - 1, n, limit - 1);
      FirstOfLeft(a, b, m, n);
      TakeOfCons(a[0], Merge(a[1..], b), limit);
      TakeOfCons(a[0], Merge(Take(a[1..], m - 1), Take(b, n)), limit);
    } else {
      CutEachSide(a, b[1..], m, n - 1, limit - 1);
      FirstOfRight(a, b, m, n);
      TakeOfCons(b[0], Merge(a, b[1..]), limit);
      TakeOfCons(b[0], Merge(Take(a, m), Take(b[1..], n - 1)), limit);
    }
  }

  lemma NothingTaken(xs: seq<Entry>, ys: seq<Entry>)
    ensures Take(xs, 0) == Take(ys, 0)
  {
  }

  lemma TakeTail(xs: seq<Entry>, n: nat)
    requires xs != [] && n > 0
    ensures Take(xs, n) != [] && Take(xs, n)[0] == xs[0] && Take(xs, n)[1..] == Take(xs[1..], n - 1)
  {
  }

  lemma FirstOfLeft(a: seq<Entry>, b: seq<Entry>, m: nat, n: nat)
    requires a != [] && b != [] && m > 0 && n > 0 && a[0].SeqNo() <= b[0].SeqNo()
    ensures Merge(a, b) == [a[0]] + Merge(a[1..], b)
    ensures Merge(Take(a, m), Take(b, n)) == [a[0]] + Merge(Take(a[1..], m - 1), Take(b, n))
  {
    TakeTail(a, m);
    TakeTail(b, n);
    hide Take;
  }

  lemma FirstOfRight(a: seq<Entry>, b: seq<Entry>, m: nat, n: nat)
    requires a != [] && b != [] && m > 0 && n > 0 && a[0].SeqNo() > b[0].SeqNo()
    ensures Merge(a, b) == [b[0]] + Merge(a, b[1..])
    ensures Merge(Take(a, m), Take(b, n)) == [b[0]] + Merge(Take(a, m), Take(b[1..], n - 1))
  {
    TakeTail(a, m);
    TakeTail(b, n);
    hide Take;
  }

  lemma OneSideCut(a: seq<Entry>, b: seq<Entry>, m: nat, n: nat, limit: nat)
    requires limit <= m && limit <= n && (a == [] || b == [])
    ensures Take(Merge(Take(a, m), Take(b, n)), limit) == Take(Merge(a, b), limit)
  {
    if a == [] {
      assert Take(a, m) == [] && Take(Take(b, n), limit) == Take(b, limit);
    } else {
      assert Take(b, n) == [] && Take(Take(a, m), limit) == Take(a, limit);
    }
  }

  lemma TakeOfCons(x: Entry, xs: seq<Entry>, n: nat)
    requires n > 0
    ensures Take([x] + xs, n) == [x] + Take(xs, n - 1)
  {
  }

  /** An ascending table past a cursor is a suffix of it. */
  lemma {:induction false} SinceOfLargeHead(xs: seq<Entry>, after: nat)
    requires Ascending(xs) && (xs == [] || xs[0].SeqNo() > after)
    ensures Since(xs, after) == xs
  {
    if xs != [] {
      if |xs| > 1 { assert xs[1].SeqNo() > xs[0].SeqNo(); }
      SinceOfLargeHead(xs[1..], after);
    }
  }

  lemma {:induction false} SinceOfMerge(a: seq<Entry>, b: seq<Entry>, after: nat)
    requires Ascending(a) && Ascending(b)
    ensures Merge(Since(a, after), Since(b, after)) == Since(Merge(a, b), after)
    decreases |a| + |b|
  {
    if a == [] {
      assert Since(a, after) == [];
    } else if b == [] {
      assert Since(b, after) == [];
    } else if a[0].SeqNo() <= b[0].SeqNo() {
      var rest := Merge(a[1..], b);
      assert ([a[0]] + rest)[1..] == rest;
      SinceOfMerge(a[1..], b, after);
      if a[0].SeqNo() > after {
        SinceOfLargeHead(a, after);
        SinceOfLargeHead(b, after);
        SinceOfLargeHead(a[1..], after) by { if |a| > 1 { assert a[1].SeqNo() > a[0].SeqNo(); } }
      }
    } else {
      var rest := Merge(a, b[1..]);
      assert ([b[0]] + rest)[1..] == rest;
      SinceOfMerge(a, b[1..], after);
      if b[0].SeqNo() > after {
        SinceOfLargeHead(a, after);
        SinceOfLargeHead(b, after);
        SinceOfLargeHead(b[1..], after) by { if |b| > 1 { assert b[1].SeqNo() > b[0].SeqNo(); } }
      }
    }
  }

  // ----- what the merge of a gap-free session is

  /** `GapFree` with the numbers starting at `lo`. */
  ghost predicate GapFreeFrom(lo: nat, next: nat, a: seq<Entry>, b: seq<Entry>) {
    && lo <= next
    && Ascending(a)
    && Ascending(b)
    && (forall n: nat :: HasNumber(a, n) || HasNumber(b, n) <==> lo <= n < next)
    && (forall n: nat :: !(HasNumber(a, n) && HasNumber(b, n)))
  }

  lemma HeadIsLowest(lo: nat, next: nat, a: seq<Entry>, b: seq<Entry>)
    requires GapFreeFrom(lo, next, a, b) && HasNumber(a, lo)
    ensures a != [] && a[0].SeqNo() == lo
    ensures b == [] || b[0].SeqNo() > lo
    ensures GapFreeFrom(lo + 1, next, a[1..], b)
  {
    var i :| 0 <= i < |a| && a[i].SeqNo() == lo;
    assert HasNumber(a, a[0].SeqNo());
    assert b != [] ==> HasNumber(b, b[0].SeqNo());
    var a' := a[1..];
    assert a == [a[0]] + a';
    forall n: nat
      ensures HasNumber(a', n) <==> HasNumber(a, n) && n != lo
    {
      if HasNumber(a, n) && n != lo {
        var k :| 0 <= k < |a| && a[k].SeqNo() == n;
        assert a'[k - 1].SeqNo() == n;
      }
      if HasNumber(a', n) {
        var k :| 0 <= k < |a'| && a'[k].SeqNo() == n;
        assert a[k + 1].SeqNo() == n;
      }
    }
  }

  lemma GapFreeEitherWay(lo: nat, next: nat, a: seq<Entry>, b: seq<Entry>)
    requires GapFreeFrom(lo, next, a, b)
    ensures GapFreeFrom(lo, next, b, a)
  {
    hide HasNumber;
    hide Ascending;
  }

  /** The entries numbered `lo`, `lo + 1`, and so on up to `next`. */
  predicate NumberedFrom(lo: nat, next: nat, xs: seq<Entry>) {
    |xs| == next - lo && forall i :: 0 <= i < |xs| ==> xs[i].SeqNo() == lo + i
  }

  lemma ConsNumbered(lo: nat, next: nat, x: Entry, rest: seq<Entry>)
    requires x.SeqNo() == lo && NumberedFrom(lo + 1, next, rest)
    ensures NumberedFrom(lo, next, [x] + rest)
  {
  }

  lemma NothingLeft(lo: nat, a: seq<Entry>, b: seq<Entry>)
    requires GapFreeFrom(lo, lo, a, b)
    ensures NumberedFrom(lo, lo, Merge(a, b))
  {
    assert a != [] ==> HasNumber(a, a[0].SeqNo());
    assert b != [] ==> HasNumber(b, b[0].SeqNo());
  }

  lemma {:induction false} MergeKeepsBoth(a: seq<Entry>, b: seq<Entry>, e: Entry)
    ensures e in Merge(a, b) <==> e in a || e in b
  {
    if a != [] && b != [] {
      if a[0].SeqNo() <= b[0].SeqNo() {
        assert a == [a[0]] + a[1..];
        MergeKeepsBoth(a[1..], b, e);
      } else {
        assert b == [b[0]] + b[1..];
        MergeKeepsBoth(a, b[1..], e);
      }
    }
  }

  /** The log is both tables and nothing else: each message row and each event, as stored. */
  lemma LogHoldsBothTables(s: Session, e: Entry)
    ensures e in Log(s) <==>
            match e
            case MessageEntry(m) => exists i :: 0 <= i < |s.messages| && s.messages[i].stored == m
            case EventEntry(j) => exists i :: 0 <= i < |s.events| && s.events[i] == j
  {
    var messages, events := MessageEntries(s.messages), EventEntries(s.events);
    MergeKeepsBoth(messages, events, e);
    assert e in messages <==> exists i :: 0 <= i < |s.messages| && messages[i] == e;
    assert e in events <==> exists i :: 0 <= i < |s.events| && events[i] == e;
    hide Merge;
    hide MessageEntries;
    hide EventEntries;
  }

  /** Whichever side holds the lowest number, its head is the head of the merge. */
  lemma MergeTakesLowest(lo: nat, next: nat, a: seq<Entry>, b: seq<Entry>)
    requires GapFreeFrom(lo, next, a, b) && lo < next
    ensures HasNumber(a, lo) ==>
              a != [] && a[0].SeqNo() == lo && GapFreeFrom(lo + 1, next, a[1..], b)
              && Merge(a, b) == [a[0]] + Merge(a[1..], b)
    ensures !HasNumber(a, lo) ==>
              b != [] && b[0].SeqNo() == lo && GapFreeFrom(lo + 1, next, a, b[1..])
              && Merge(a, b) == [b[0]] + Merge(a, b[1..])
  {
    hide HasNumber;
    hide Ascending;
    if HasNumber(a, lo) {
      HeadIsLowest(lo, next, a, b);
    } else {
      assert HasNumber(b, lo);
      GapFreeEitherWay(lo, next, a, b);
      HeadIsLowest(lo, next, b, a);
      GapFreeEitherWay(lo + 1, next, b[1..], a);
    }
    hide GapFreeFrom;
  }

  lemma {:induction false} MergeIsNumbered(lo: nat, next: nat, a: seq<Entry>, b: seq<Entry>)
    requires GapFreeFrom(lo, next, a, b)
    ensures NumberedFrom(lo, next, Merge(a, b))
    decreases next - lo
  {
    assert lo <= next;
    hide *;
    if lo == next {
      NothingLeft(lo, a, b);
    } else {
      MergeTakesLowest(lo, next, a, b);
      if HasNumber(a, lo) {
        MergeIsNumbered(lo + 1, next, a[1..], b);
        ConsNumbered(lo, next, a[0], Merge(a[1..], b));
      } else {
        MergeIsNumbered(lo + 1, next, a, b[1..]);
        ConsNumbered(lo, next, b[0], Merge(a, b[1..]));
      }
    }
  }

  /** The whole log of a session is numbered 1, 2, 3, and so on, up to the counter. */
  lemma LogIsNumbered(s: Session)
    requires SessionInv(s)
    ensures |Log(s)| == s.nextSeq - 1
    ensures forall i :: 0 <= i < |Log(s)| ==> Log(s)[i].SeqNo() == i + 1
  {
    MergeIsNumbered(1, s.nextSeq, MessageEntries(s.messages), EventEntries(s.events));
  }

  lemma {:induction false} SinceOfNumbered(xs: seq<Entry>, lo: nat, after: nat)
    requires forall i :: 0 <= i < |xs| ==> xs[i].SeqNo() == lo + i
    ensures Since(xs, after) == if after < lo then xs else xs[Min(after + 1 - lo, |xs|)..]
  {
    if xs != [] {
      SinceOfNumbered(xs[1..], lo + 1, after);
      if after >= lo {
        assert xs[1..][Min(after - lo, |xs| - 1)..] == xs[Min(after + 1 - lo, |xs|)..];
      }
    }
  }

  lemma CutOfNumbered(log: seq<Entry>, after: nat, limit: nat)
    requires forall i :: 0 <= i < |log| ==> log[i].SeqNo() == i + 1
    ensures var found := Take(Since(log, after), limit);
            && found == Take(log[Min(after, |log|)..], limit)
            && |found| == Min(limit, Max(|log| - after, 0))
            && forall i :: 0 <= i < |found| ==> found[i].SeqNo() == after + 1 + i
  {
    SinceOfNumbered(log, 1, after);
  }

  /** Nothing is lost, repeated, or reordered by cutting each scan at the limit: for every cursor and
      limit, the repository's answer is the next `limit` entries of the whole log, consecutively
      numbered from one past the cursor. */
  lemma BoundedMergeIsExact(s: Session, after: nat, limit: nat)
    requires SessionInv(s)
    ensures var found, log := LogSince(s, after, limit), Log(s);
            && found == Take(log[Min(after, |log|)..], limit)
            && |found| == Min(limit, Max(s.nextSeq - 1 - after, 0))
            && forall i :: 0 <= i < |found| ==> found[i].SeqNo() == after + 1 + i
  {
    var a, b := MessageEntries(s.messages), EventEntries(s.events);
    CutEachSide(Since(a, after), Since(b, after), limit, limit, limit);
    SinceOfMerge(a, b, after);
    LogIsNumbered(s);
    hide *;
    CutOfNumbered(Log(s), after, limit);
  }
}
