/** The in-memory queue, the repository's own reference semantics, as a refinement of the abstract job
    machine (tests/MemoryJobQueue.py). */
module MemoryQueue {
  import opened Basics
  import opened Jobs
  import opened JobTable
  import opened QueueMachine

  datatype StaleLease = StaleLease

  type KeyMap = map<(Option<Uuid>, string), Uuid>

  function KeyOf(j: Job): (Option<Uuid>, string) {
    (j.sessionId, j.idempotencyKey)
  }

  /** Retirement with an empty error text taken for no error. */
  function RetiredAfresh(r: Row): Row {
    if r.job.error == Some("")
    then Retired(r.(job := r.job.(error := if r.job.cancelRequested then Some("") else None)))
    else Retired(r)
  }

  function Swept(r: Row, now: Time): Row {
    if Finishable(r, now) then RetiredAfresh(r) else r
  }

  function SweptAll(rows: JobMap, now: Time): JobMap {
    map id | id in rows :: Swept(rows[id], now)
  }

  /** The claim order: by `run_after`, then by `created_at`. */
  predicate Before(a: Row, b: Row) {
    a.runAfter < b.runAfter || (a.runAfter == b.runAfter && a.createdAt < b.createdAt)
  }

  /** `order[k]` is the least reservable row, the earliest inserted among equals. */
  predicate Least(order: seq<Uuid>, rows: JobMap, now: Time, k: int) {
    && 0 <= k < |order| && order[k] in rows && Reservable(rows[order[k]], now)
    && (forall i :: 0 <= i < |order| && order[i] in rows && Reservable(rows[order[i]], now) ==>
          !Before(rows[order[i]], rows[order[k]]) && (i < k ==> Before(rows[order[k]], rows[order[i]])))
  }

  lemma SweepIsAStep(rows: JobMap, now: Time)
    ensures Step(rows, JobOp.RetireLapsed(now), SweptAll(rows, now))
  {
    forall id | id in rows
      ensures MayRetire(rows[id], now, SweptAll(rows, now)[id])
    {
    }
  }

  /** The sweep part-way: only the listed rows have been looked at. */
  function SweptIn(rows: JobMap, ids: seq<Uuid>, now: Time): JobMap {
    map id | id in rows :: if id in ids then Swept(rows[id], now) else rows[id]
  }

  lemma SweptNone(rows: JobMap, now: Time)
    ensures SweptIn(rows, [], now) == rows
  {
  }

  lemma SweptEvery(rows: JobMap, ids: seq<Uuid>, now: Time)
    requires forall id :: id in rows ==> id in ids
    ensures SweptIn(rows, ids, now) == SweptAll(rows, now)
  {
  }

  lemma SweptOneMore(rows: JobMap, ids: seq<Uuid>, id: Uuid, now: Time)
    requires id in rows && id !in ids
    ensures var s := SweptIn(rows, ids, now);
            id in s && s[id] == rows[id] && SweptIn(rows, ids + [id], now) == s[id := Swept(s[id], now)]
  {
  }

  /** The position of the least reservable row, or -1. */
  method FindLeast(order: seq<Uuid>, rows: JobMap, now: Time) returns (best: int)
    requires forall id :: id in order ==> id in rows
    ensures best == -1 ==> forall id :: id in order ==> !Reservable(rows[id], now)
    ensures best != -1 ==> Least(order, rows, now, best)
    ensures best == -1 <==>
              forall id :: id in order ==>
                var row := rows[id];
                && !(row.job.state in {Queued, Failed} && row.runAfter <= now)
                && !(row.job.state == Running && row.leaseExpiresAt.Some? && row.leaseExpiresAt.value <= now
                     && row.job.attempts < row.job.maxAttempts && !row.job.cancelRequested)
    ensures best != -1 ==>
              var row := rows[order[best]];
              forall i :: 0 <= i < |order| && Reservable(rows[order[i]], now) ==>
                var other := rows[order[i]];
                || row.runAfter < other.runAfter
                || (row.runAfter == other.runAfter && row.createdAt < other.createdAt)
                || (row.runAfter == other.runAfter && row.createdAt == other.createdAt && best <= i)
  {
    hide Reservable;
    best := -1;
    var i := 0;
    while i < |order|
      invariant 0 <= i <= |order| && -1 <= best < i
      invariant best == -1 ==> forall j :: 0 <= j < i ==> !Reservable(rows[order[j]], now)
      invariant best >= 0 ==> Reservable(rows[order[best]], now)
      invariant best >= 0 ==>
                  forall j :: 0 <= j < i && Reservable(rows[order[j]], now) ==>
                    !Before(rows[order[j]], rows[order[best]])
                    && (j < best ==> Before(rows[order[best]], rows[order[j]]))
    {
      if Reservable(rows[order[i]], now) && (best == -1 || Before(rows[order[i]], rows[order[best]])) {
        best := i;
      }
      i := i + 1;
    }
    ReservableRows(order, rows, now);
  }

  lemma ReservableRows(order: seq<Uuid>, rows: JobMap, now: Time)
    requires forall id :: id in order ==> id in rows
    ensures forall id :: id in order ==>
              var row := rows[id];
              Reservable(row, now) <==>
              || (row.job.state in {Queued, Failed} && row.runAfter <= now)
              || (row.job.state == Running && row.leaseExpiresAt.Some? && row.leaseExpiresAt.value <= now
                  && row.job.attempts < row.job.maxAttempts && !row.job.cancelRequested)
  {
  }

  /** Giving a row back, field by field. */
  lemma NackFields(id: Uuid, r: Row, op: JobOp)
    requires op.Nack? && op.id == id && Holds(r, op.token) && r.publishedAt.None?
    ensures RowAfter(id, r, op) ==
            Unleased(r.(job := r.job.(state := ReturnState(r.job), error := Some(op.error)),
                        runAfter := op.now + if op.retryIn.Some? then op.retryIn.value else 0))
  {
  }

  lemma NackIsAStep(rows: JobMap, op: JobOp)
    requires op.Nack? && op.id in rows && rows[op.id].publishedAt.None?
    ensures Step(rows, op, rows[op.id := RowAfter(op.id, rows[op.id], op)])
  {
    OneRowChanges(rows, op, op.id);
  }

  lemma ClaimIsAStep(rows: JobMap, id: Uuid, token: Uuid, owner: string, lease: Time, now: Time)
    requires id in rows && Reservable(rows[id], now)
    ensures Step(rows, JobOp.Claim(id, token, owner, lease, now),
                 rows[id := Claimed(rows[id], token, owner, lease, now)])
  {
  }

  lemma ClaimKeepsKey(r: Row, token: Uuid, owner: string, lease: Time, now: Time)
    ensures var r' := Claimed(r, token, owner, lease, now);
            r'.job.id == r.job.id && KeyOf(r'.job) == KeyOf(r.job) && r'.publishedAt == r.publishedAt
  {
  }

  lemma EnqueueIsAStep(rows: JobMap, request: JobRequest, id: Uuid, now: Time)
    requires id !in rows && !KeyTaken(rows, request.sessionId, request.idempotencyKey)
    ensures var r := NewRow(id, request, now);
            && Step(rows, Insert(id, request, now), rows[id := r])
            && KeyTaken(rows[id := r], request.sessionId, request.idempotencyKey)
            && r.job.id == id && KeyOf(r.job) == (request.sessionId, request.idempotencyKey) && r.publishedAt.None?
  {
    if request.maxAttempts > 0 {
      assert rows[id := NewRow(id, request, now)] == After(rows, Insert(id, request, now));
    }
    assert SameKey(rows[id := NewRow(id, request, now)][id], request.sessionId, request.idempotencyKey);
  }

  /** The insertion order lists the rows, and the keys index them. */
  ghost predicate InOrder(rows: JobMap, order: seq<Uuid>, keys: KeyMap) {
    && (forall id :: id in order <==> id in rows)
    && (forall i, j :: 0 <= i < j < |order| ==> order[i] != order[j])
    && (forall id :: id in rows ==> rows[id].job.id == id && rows[id].publishedAt.None?)
    && (forall id :: id in rows ==> KeyOf(rows[id].job) in keys && keys[KeyOf(rows[id].job)] == id)
    && (forall k :: k in keys ==> keys[k] in rows && KeyOf(rows[keys[k]].job) == k)
  }

  lemma InsertStaysInOrder(rows: JobMap, order: seq<Uuid>, keys: KeyMap, id: Uuid, r: Row)
    requires InOrder(rows, order, keys) && id !in rows && KeyOf(r.job) !in keys
    requires r.job.id == id && r.publishedAt.None?
    ensures InOrder(rows[id := r], order + [id], keys[KeyOf(r.job) := id])
  {
  }

  lemma FreeKeyIsFree(rows: JobMap, order: seq<Uuid>, keys: KeyMap, session: Option<Uuid>, key: string)
    requires InOrder(rows, order, keys)
    ensures (session, key) in keys ==> SameKey(rows[keys[(session, key)]], session, key)
    ensures (session, key) !in keys ==> !KeyTaken(rows, session, key)
  {
    if (session, key) !in keys {
      forall known | known in rows
        ensures !SameKey(rows[known], session, key)
      {
        assert KeyOf(rows[known].job) in keys;
      }
    }
  }

  class MemoryJobQueue {
    /** The rows, and the order they were inserted in. */
    var rows: JobMap
    var order: seq<Uuid>
    var keys: KeyMap
    var discarded: seq<Uuid>

    ghost predicate Valid()
      reads this
    {
      InOrder(rows, order, keys)
    }

    lemma OrderListsRows()
      requires Valid()
      ensures forall id :: id in order <==> id in rows
    {
    }

    lemma OrderRepeatsNothing(i: nat)
      requires Valid() && i < |order|
      ensures order[i] in rows && order[i] !in order[..i]
    {
    }

    constructor ()
      ensures Valid() && rows == map[] && order == [] && keys == map[] && discarded == []
    {
      rows, order, keys, discarded := map[], [], map[], [];
    }

    /** Writes one row back under its id. */
    method Replace(id: Uuid, r: Row)
      requires Valid() && id in rows && r.job.id == id && KeyOf(r.job) == KeyOf(rows[id].job) && r.publishedAt.None?
      modifies this`rows
      ensures Valid() && rows == old(rows)[id := r]
    {
      rows := rows[id := r];
    }

    method Enqueue(request: JobRequest, id: Uuid, now: Time) returns (j: Job)
      requires Valid() && id !in rows
      modifies this
      ensures Valid() && Step(old(rows), Insert(id, request, now), rows)
      ensures id in rows <==> !KeyTaken(old(rows), request.sessionId, request.idempotencyKey)
      ensures if id in rows then
                && j == NewRow(id, request, now).job && rows == old(rows)[id := NewRow(id, request, now)]
                && order == old(order) + [id]
              else
                && rows == old(rows)
                && exists known :: known in rows && SameKey(rows[known], request.sessionId, request.idempotencyKey)
                                   && j == rows[known].job
    {
      var key := (request.sessionId, request.idempotencyKey);
      FreeKeyIsFree(rows, order, keys, request.sessionId, request.idempotencyKey);
      if key in keys {
        return rows[keys[key]].job;
      }
      EnqueueIsAStep(rows, request, id, now);
      InsertStaysInOrder(rows, order, keys, id, NewRow(id, request, now));
      hide InOrder;
      hide NewRow;
      hide KeyTaken;
      hide Step;
      rows, order, keys := rows[id := NewRow(id, request, now)], order + [id], keys[key := id];
      j := rows[id].job;
    }

    method Get(id: Uuid) returns (j: Option<Job>)
      ensures j == if id in rows then Some(rows[id].job) else None
    {
      j := if id in rows then Some(rows[id].job) else None;
    }

    method Cancel(id: Uuid) returns (j: Option<Job>)
      requires Valid()
      modifies this`rows
      ensures Valid() && rows == After(old(rows), JobOp.Cancel(id)) && Step(old(rows), JobOp.Cancel(id), rows)
      ensures j == if id in rows then Some(rows[id].job) else None
    {
      OneRowChanges(rows, JobOp.Cancel(id), id);
      if id in rows && !rows[id].job.state.Terminal() {
        var job := rows[id].job;
        if job.state == Running {
          Replace(id, rows[id].(job := job.(cancelRequested := true)));
        } else {
          Replace(id, rows[id].(job := job.(state := Cancelled, cancelRequested := true)));
        }
      }
      j := Get(id);
    }

    /** Finishes one row, if its lease has lapsed and no claim may take it. */
    method SweepRow(id: Uuid, now: Time)
      requires Valid() && id in rows
      modifies this`rows
      ensures Valid() && rows == old(rows)[id := Swept(old(rows)[id], now)]
      ensures var was, row := old(rows)[id], rows[id];
              if was.job.state == Running && was.leaseExpiresAt.Some? && was.leaseExpiresAt.value <= now
                 && (was.job.attempts >= was.job.maxAttempts || was.job.cancelRequested)
              then
                && row.leaseId.None? && row.leaseExpiresAt.None? && row.leaseOwner.None?
                && row.job ==
                   if was.job.cancelRequested then was.job.(state := Cancelled)
                   else was.job.(state := Dead,
                                 error := if was.job.error.Some? && was.job.error.value != "" then was.job.error
                                          else Some("lease expired with no attempts remaining"))
              else row == was
    {
      var r := rows[id];
      if r.job.state == Running && r.leaseExpiresAt.Some? && r.leaseExpiresAt.value <= now {
        if r.job.cancelRequested {
          Replace(id, Unleased(r.(job := r.job.(state := Cancelled))));
        } else if r.job.attempts >= r.job.maxAttempts {
          var error := if r.job.error.Some? && r.job.error.value != "" then r.job.error else Some(LEASE_EXPIRED);
          Replace(id, Unleased(r.(job := r.job.(state := Dead, error := error))));
        }
      }
    }

    /** Looks at every row, in insertion order. */
    method SweepRows(now: Time)
      requires Valid()
      modifies this`rows
      ensures Valid() && rows == SweptIn(old(rows), order, now)
    {
      ghost var a := rows;
      SweptNone(a, now);
      hide *;
      var i := 0;
      while i < |order|
        invariant 0 <= i <= |order|
        invariant Valid() && rows == SweptIn(a, order[..i], now) && rows.Keys == a.Keys
      {
        OrderRepeatsNothing(i);
        SweptOneMore(a, order[..i], order[i], now);
        assert order[..i + 1] == order[..i] + [order[i]];
        SweepRow(order[i], now);
        i := i + 1;
      }
      assert order[..i] == order;
    }

    /** Finishes every lapsed row that no claim may take. */
    method RetireLapsed(now: Time)
      requires Valid()
      modifies this`rows
      ensures Valid() && rows == SweptAll(old(rows), now)
      ensures Step(old(rows), JobOp.RetireLapsed(now), rows)
    {
      OrderListsRows();
      SweptEvery(rows, order, now);
      SweepIsAStep(rows, now);
      hide *;
      SweepRows(now);
    }

    /** One scan of `reserve`: retire what is finished, then claim the least reservable row, if any. */
    method ClaimNext(owner: string, lease: Time, token: Uuid, now: Time) returns (r: Option<Lease>, k: int)
      requires Valid()
      modifies this`rows
      ensures Valid()
      ensures var swept := SweptAll(old(rows), now);
              && Step(old(rows), JobOp.RetireLapsed(now), swept)
              && (r.None? ==> rows == swept && forall id :: id in swept ==> !Reservable(swept[id], now))
              && (r.Some? ==>
                    && Least(order, swept, now, k)
                    && rows == swept[order[k] := Claimed(swept[order[k]], token, owner, lease, now)]
                    && Step(swept, JobOp.Claim(order[k], token, owner, lease, now), rows)
                    && r.value == Lease(token, rows[order[k]].job, owner, now + lease))
    {
      hide SweptAll;
      hide Reservable;
      hide Claimed;
      RetireLapsed(now);
      OrderListsRows();
      k := FindLeast(order, rows, now);
      if k == -1 {
        return None, k;
      }
      var id := order[k];
      ClaimIsAStep(rows, id, token, owner, lease, now);
      ClaimKeepsKey(rows[id], token, owner, lease, now);
      hide Valid;
      hide Step;
      hide Least;
      Replace(id, Claimed(rows[id], token, owner, lease, now));
      r := Some(Lease(token, rows[id].job, owner, now + lease));
    }

    // ----- finishing

    predicate Live(lease: Lease)
      reads this
    {
      lease.job.id in rows && Holds(rows[lease.job.id], lease.id)
    }

    method Extend(lease: Lease, span: Time, now: Time) returns (r: Result<Lease, StaleLease>)
      requires Valid()
      modifies this`rows
      ensures Valid() && Step(old(rows), JobOp.Extend(lease.job.id, lease.id, span, now), rows)
      ensures r.Ok? <==> old(Live(lease))
      ensures r.Ok? ==> r.value == Lease(lease.id, rows[lease.job.id].job, lease.owner, now + span)
    {
      OneRowChanges(rows, JobOp.Extend(lease.job.id, lease.id, span, now), lease.job.id);
      if !Live(lease) {
        return Err(StaleLease);
      }
      Replace(lease.job.id, rows[lease.job.id].(leaseExpiresAt := Some(now + span)));
      r := Ok(Lease(lease.id, rows[lease.job.id].job, lease.owner, now + span));
    }

    method Ack(lease: Lease, resultRef: Option<string>) returns (r: Result<(), StaleLease>)
      requires Valid()
      modifies this`rows
      ensures Valid() && Step(old(rows), JobOp.Ack(lease.job.id, lease.id, resultRef), rows)
      ensures r.Ok? <==> old(Live(lease))
    {
      OneRowChanges(rows, JobOp.Ack(lease.job.id, lease.id, resultRef), lease.job.id);
      if !Live(lease) {
        return Err(StaleLease);
      }
      var row := rows[lease.job.id];
      Replace(lease.job.id, Unleased(row.(job := row.job.(state := Done, resultRef := resultRef))));
      r := Ok(());
    }

    method Nack(lease: Lease, error: string, retryIn: Option<Time>, now: Time) returns (r: Result<(), StaleLease>)
      requires Valid()
      modifies this`rows
      ensures Valid() && Step(old(rows), JobOp.Nack(lease.job.id, lease.id, error, retryIn, now), rows)
      ensures r.Ok? <==> old(Live(lease))
    {
      if !Live(lease) {
        OneRowChanges(rows, JobOp.Nack(lease.job.id, lease.id, error, retryIn, now), lease.job.id);
        return Err(StaleLease);
      }
      var id, row := lease.job.id, rows[lease.job.id];
      ghost var op := JobOp.Nack(id, lease.id, error, retryIn, now);
      assert row.job.id == id && row.publishedAt.None?;
      NackFields(id, row, op);
      NackIsAStep(rows, op);
      hide RowAfter;
      hide After;
      hide Step;
      hide InOrder;
      var state :=
        if row.job.cancelRequested then Cancelled
        else if row.job.attempts >= row.job.maxAttempts then Dead
        else Failed;
      var wait := if retryIn.Some? then retryIn.value else 0;
      row := Unleased(row.(job := row.job.(state := state, error := Some(error)), runAfter := now + wait));
      assert row == RowAfter(id, rows[id], op) && KeyOf(row.job) == KeyOf(rows[id].job);
      hide *;
      Replace(id, row);
      r := Ok(());
    }

    /** Nothing is held here, so there is nothing to let go of. */
    method Discard(lease: Lease)
      requires Valid()
      modifies this`discarded
      ensures Valid() && discarded == old(discarded) + [lease.id]
    {
      discarded := discarded + [lease.id];
    }
  }
}
