/** One socket behind a bounded outbound queue with an overflow latch and a single writer
    (core/ws.py, `Connection`). Producers and the writer interleave at the writer's two awaits. */
module Connection {
  import opened Basics
  import opened Frames

  const NORMAL := 1000
  const TRY_AGAIN_LATER := 1013

  datatype Item = Frame(frame: ServerFrame) | Close

  datatype Writer = Idle | Writing(frame: ServerFrame) | Returned(code: int)

  /** The connection, and its history: the frames given to `send`, those of them that were queued, and the
      frames that reached the socket. `closedAfter` is what had been queued ahead of the first stop signal;
      `bound` is how many frames were written or in flight when the latch was set. */
  datatype Pipe = Pipe(
    size: int,
    queue: seq<Item>,
    overflowed: bool,
    closeCode: int,
    writer: Writer,
    sent: seq<ServerFrame>,
    accepted: seq<ServerFrame>,
    wire: seq<ServerFrame>,
    closedAfter: Option<seq<ServerFrame>>,
    bound: nat)

  datatype Step =
    | Send(frame: ServerFrame)
    | RequestClose(code: int, last: Option<ServerFrame>)
    | TakeNext
    | Written
    | PeerGone

  function Open(size: int): Pipe {
    Pipe(size, [], false, NORMAL, Idle, [], [], [], None, 0)
  }

  /** A queue of size zero or less is unbounded. */
  predicate Full(p: Pipe) {
    p.size > 0 && |p.queue| >= p.size
  }

  function InFlight(p: Pipe): seq<ServerFrame> {
    if p.writer.Writing? then [p.writer.frame] else []
  }

  function Enqueued(p: Pipe, item: Item): Pipe {
    if Full(p) then
      if p.overflowed then p else p.(overflowed := true, bound := |p.wire| + |InFlight(p)|)
    else
      p.(queue := p.queue + [item],
         accepted := if item.Frame? then p.accepted + [item.frame] else p.accepted,
         closedAfter := if item.Close? && p.closedAfter.None? then Some(p.accepted) else p.closedAfter)
  }

  function AfterSend(p: Pipe, f: ServerFrame): Pipe {
    var q := p.(sent := p.sent + [f]);
    if p.overflowed then q else Enqueued(q, Frame(f))
  }

  predicate Enabled(p: Pipe, step: Step) {
    match step
    case TakeNext => p.writer.Idle? && p.queue != []
    case Written => p.writer.Writing?
    case PeerGone => p.writer.Writing?
    case _ => true
  }

  function After(p: Pipe, step: Step): Pipe
    requires Enabled(p, step)
  {
    match step
    case Send(f) => AfterSend(p, f)
    case RequestClose(code, last) =>
      var q := if last.Some? then AfterSend(p, last.value) else p;
      Enqueued(q.(closeCode := code), Close)
    case TakeNext =>
      var q := p.(queue := p.queue[1..]);
      if p.queue[0].Close? then q.(writer := Returned(p.closeCode))
      else if p.overflowed then q.(writer := Returned(TRY_AGAIN_LATER))
      else q.(writer := Writing(p.queue[0].frame))
    case Written => p.(writer := Idle, wire := p.wire + [p.writer.frame])
    case PeerGone => p.(writer := Returned(NORMAL))
  }

  predicate Run(p: Pipe, steps: seq<Step>, p': Pipe)
    decreases |steps|
  {
    if steps == [] then p == p' else Enabled(p, steps[0]) && Run(After(p, steps[0]), steps[1..], p')
  }

  /** The frames of a queue, and those ahead of its first stop signal. */
  function FramesOf(items: seq<Item>): seq<ServerFrame> {
    if items == [] then []
    else FramesOf(items[..|items| - 1]) + if items[|items| - 1].Frame? then [items[|items| - 1].frame] else []
  }

  function Ahead(items: seq<Item>): seq<ServerFrame> {
    if items == [] || items[0].Close? then [] else [items[0].frame] + Ahead(items[1..])
  }

  predicate PipeInv(p: Pipe) {
    && p.accepted <= p.sent
    && (!p.overflowed ==> p.accepted == p.sent)
    && p.wire + InFlight(p) <= p.accepted
    && (!p.writer.Returned? ==> p.wire + InFlight(p) + FramesOf(p.queue) == p.accepted)
    && (p.overflowed ==> |p.wire| + |InFlight(p)| <= p.bound)
    && (p.overflowed && !p.writer.Returned? ==> p.queue != [])
    && (p.closedAfter.Some? ==> p.closedAfter.value <= p.accepted)
    && (!p.writer.Returned? ==> (Close in p.queue <==> p.closedAfter.Some?))
    && (!p.writer.Returned? && p.closedAfter.Some? ==> p.wire + InFlight(p) + Ahead(p.queue) == p.closedAfter.value)
  }

  // ----- the queue as a sequence of frames

  lemma FramesOfAppend(items: seq<Item>, item: Item)
    ensures FramesOf(items + [item]) == FramesOf(items) + if item.Frame? then [item.frame] else []
  {
    assert (items + [item])[..|items|] == items;
  }

  lemma {:induction false} FramesOfHead(items: seq<Item>)
    requires items != []
    ensures FramesOf(items) == (if items[0].Frame? then [items[0].frame] else []) + FramesOf(items[1..])
  {
    if |items| > 1 {
      FramesOfHead(items[..|items| - 1]);
      assert items[1..][..|items| - 2] == items[..|items| - 1][1..];
    }
  }

  lemma {:induction false} AheadOfAppend(items: seq<Item>, item: Item)
    ensures Close in items ==> Ahead(items + [item]) == Ahead(items)
    ensures Close !in items && item.Close? ==> Ahead(items + [item]) == FramesOf(items)
  {
    if items != [] {
      FramesOfHead(items);
      assert (items + [item])[1..] == items[1..] + [item];
      if items[0].Frame? {
        AheadOfAppend(items[1..], item);
      }
    }
  }

  // ----- one step

  lemma EnqueueKeepsInv(p: Pipe, item: Item)
    requires PipeInv(p) && (item.Frame? ==> !p.overflowed)
    ensures PipeInv(Enqueued(if item.Frame? then p.(sent := p.sent + [item.frame]) else p, item))
  {
    FramesOfAppend(p.queue, item);
    AheadOfAppend(p.queue, item);
    hide FramesOf;
    hide Ahead;
  }

  lemma SendKeepsInv(p: Pipe, f: ServerFrame)
    requires PipeInv(p)
    ensures PipeInv(AfterSend(p, f))
  {
    if !p.overflowed {
      EnqueueKeepsInv(p, Frame(f));
    }
  }

  /** Taking a stop signal, or anything after an overflow, ends the writer. */
  lemma TakeEnds(p: Pipe)
    requires PipeInv(p) && Enabled(p, TakeNext) && (p.queue[0].Close? || p.overflowed)
    ensures PipeInv(After(p, TakeNext))
  {
    hide FramesOf;
    hide Ahead;
  }

  lemma RestOfQueue(p: Pipe)
    requires p.queue != [] && p.queue[0].Frame?
    ensures FramesOf(p.queue) == [p.queue[0].frame] + FramesOf(p.queue[1..])
    ensures Ahead(p.queue) == [p.queue[0].frame] + Ahead(p.queue[1..])
    ensures Close in p.queue <==> Close in p.queue[1..]
  {
    FramesOfHead(p.queue);
    assert p.queue == [p.queue[0]] + p.queue[1..];
  }

  /** Otherwise the frame moves from the head of the queue to the writer. */
  lemma TakeWrites(p: Pipe)
    requires PipeInv(p) && Enabled(p, TakeNext) && p.queue[0].Frame? && !p.overflowed
    ensures PipeInv(After(p, TakeNext))
  {
    RestOfQueue(p);
    hide FramesOf;
    hide Ahead;
    var f, rest := p.queue[0].frame, p.queue[1..];
    assert InFlight(p) == [];
    assert p.wire + [] + ([f] + FramesOf(rest)) == p.wire + [f] + FramesOf(rest);
    assert p.wire + [] + ([f] + Ahead(rest)) == p.wire + [f] + Ahead(rest);
    assert p.wire + [f] <= p.accepted;
  }

  lemma TakeKeepsInv(p: Pipe)
    requires PipeInv(p) && Enabled(p, TakeNext)
    ensures PipeInv(After(p, TakeNext))
  {
    if p.queue[0].Close? || p.overflowed { TakeEnds(p); } else { TakeWrites(p); }
  }

  lemma StepKeepsInv(p: Pipe, step: Step)
    requires PipeInv(p) && Enabled(p, step)
    ensures PipeInv(After(p, step))
  {
    match step {
      case Send(f) => SendKeepsInv(p, f);
      case RequestClose(code, last) => CloseKeepsInv(p, code, last);
      case TakeNext => TakeKeepsInv(p);
      case _ => WriteKeepsInv(p, step);
    }
    hide PipeInv;
  }

  lemma CloseKeepsInv(p: Pipe, code: int, last: Option<ServerFrame>)
    requires PipeInv(p)
    ensures PipeInv(After(p, RequestClose(code, last)))
  {
    if last.Some? { SendKeepsInv(p, last.value); }
    var q := if last.Some? then AfterSend(p, last.value) else p;
    hide AfterSend;
    hide Enqueued;
    assert PipeInv(q.(closeCode := code));
    hide PipeInv;
    EnqueueKeepsInv(q.(closeCode := code), Close);
  }

  lemma WriteKeepsInv(p: Pipe, step: Step)
    requires PipeInv(p) && Enabled(p, step) && (step.Written? || step.PeerGone?)
    ensures PipeInv(After(p, step))
  {
    hide FramesOf;
    hide Ahead;
  }

  // ----- whole runs

  lemma {:induction false} RunInv(p: Pipe, steps: seq<Step>, p': Pipe)
    requires PipeInv(p) && Run(p, steps, p')
    ensures PipeInv(p')
    decreases |steps|
  {
    hide PipeInv;
    if steps != [] {
      StepKeepsInv(p, steps[0]);
      RunInv(After(p, steps[0]), steps[1..], p');
    }
  }

  /** The wire is a prefix: whatever interleaves, overflows or drains, the frames that reach the socket are
      the first of those given to `send`, in order, with none left out. */
  lemma WireIsAPrefix(size: int, steps: seq<Step>, p: Pipe)
    requires Run(Open(size), steps, p)
    ensures p.wire <= p.sent
  {
    RunInv(Open(size), steps, p);
  }

  /** No step lets the queue grow past its size, if it has one. */
  lemma {:induction false} StaysBounded(p: Pipe, steps: seq<Step>, p': Pipe)
    requires p.size > 0 && |p.queue| <= p.size && Run(p, steps, p')
    ensures |p'.queue| <= p.size
    decreases |steps|
  {
    if steps != [] {
      assert After(p, steps[0]).size == p.size && |After(p, steps[0]).queue| <= p.size;
      hide After;
      StaysBounded(After(p, steps[0]), steps[1..], p');
    }
  }

  /** However slow the reader, a connection buffers no more than its bound. */
  lemma QueueIsBounded(size: int, steps: seq<Step>, p: Pipe)
    requires size > 0 && Run(Open(size), steps, p)
    ensures |p.queue| <= size
  {
    StaysBounded(Open(size), steps, p);
  }

  /** And it overflows no sooner: a frame sent before any overflow is queued if fewer than `size` items wait, and
      otherwise exactly `size` do and the latch is set. A queue of size zero or less never overflows. */
  lemma OverflowsExactlyWhenFull(size: int, steps: seq<Step>, p: Pipe, f: ServerFrame)
    requires Run(Open(size), steps, p) && !p.overflowed
    ensures var p' := After(p, Send(f));
            if p'.overflowed then size > 0 && |p.queue| == size && p'.queue == p.queue
            else (size > 0 ==> |p.queue| < size) && p'.queue == p.queue + [Frame(f)]
  {
    KeepsSize(Open(size), steps, p);
    if size > 0 { QueueIsBounded(size, steps, p); }
  }

  lemma {:induction false} KeepsSize(p: Pipe, steps: seq<Step>, p': Pipe)
    requires Run(p, steps, p')
    ensures p'.size == p.size
    decreases |steps|
  {
    if steps != [] { KeepsSize(After(p, steps[0]), steps[1..], p'); }
  }

  lemma {:induction false} LatchHolds(p: Pipe, steps: seq<Step>, p': Pipe)
    requires PipeInv(p) && p.overflowed && Run(p, steps, p')
    ensures p'.overflowed && p'.bound == p.bound
    decreases |steps|
  {
    if steps != [] {
      StepKeepsInv(p, steps[0]);
      LatchHolds(After(p, steps[0]), steps[1..], p');
    }
  }

  /** After an overflow, at most the one frame already in flight is still written. */
  lemma OverflowStopsTheWire(size: int, before: seq<Step>, p: Pipe, spill: Step, after: seq<Step>, p': Pipe)
    requires Run(Open(size), before, p) && !p.overflowed && Enabled(p, spill) && After(p, spill).overflowed
    requires Run(After(p, spill), after, p')
    ensures |p'.wire| <= |p.wire| + |InFlight(p)|
  {
    RunInv(Open(size), before, p);
    SpillBounds(p, spill);
    StepKeepsInv(p, spill);
    hide After;
    hide Run;
    hide PipeInv;
    LatchHolds(After(p, spill), after, p');
    RunInv(After(p, spill), after, p');
    LatchBounds(p');
  }

  lemma SpillBounds(p: Pipe, spill: Step)
    requires !p.overflowed && Enabled(p, spill) && After(p, spill).overflowed
    ensures After(p, spill).bound == |p.wire| + |InFlight(p)|
  {
  }

  lemma LatchBounds(p: Pipe)
    requires PipeInv(p) && p.overflowed
    ensures |p.wire| <= p.bound
  {
    hide FramesOf;
    hide Ahead;
  }

  /** An overflowed connection whose writer is idle always has something to take, and taking it makes the
      writer return: with the requested code if it took a stop signal, and otherwise asking the client to
      try again later. */
  lemma OverflowEndsTheWriter(size: int, steps: seq<Step>, p: Pipe)
    requires Run(Open(size), steps, p) && p.overflowed && p.writer.Idle?
    ensures Enabled(p, TakeNext)
    ensures After(p, TakeNext).writer == Returned(if p.queue[0].Close? then p.closeCode else 1013)
    ensures After(p, TakeNext).wire == p.wire
  {
    RunInv(Open(size), steps, p);
  }

  /** A writer that takes a stop signal has written everything queued ahead of it. */
  lemma CloseFlushes(size: int, steps: seq<Step>, p: Pipe)
    requires Run(Open(size), steps, p) && Enabled(p, TakeNext) && p.queue[0].Close?
    ensures p.closedAfter == Some(p.wire)
    ensures !p.overflowed && FramesOf(p.queue) == [] ==> p.wire == p.sent
  {
    RunInv(Open(size), steps, p);
    assert p.queue[0] in p.queue && Ahead(p.queue) == [];
    assert p.wire + InFlight(p) + [] == p.wire;
  }

  /** The connection itself, updated in place. */
  class Connection {
    const size: int
    var out: seq<Item>
    var overflowed: bool
    var closeCode: int
    var writer: Writer
    ghost var history: Pipe

    /** The history agrees with the fields, and the connection is in order. */
    ghost predicate Valid()
      reads this
    {
      && history == history.(size := size, queue := out, overflowed := overflowed, closeCode := closeCode,
                             writer := writer)
      && PipeInv(history)
    }

    constructor (size: int)
      ensures Valid() && history == Open(size)
    {
      this.size := size;
      out, overflowed, closeCode, writer := [], false, NORMAL, Idle;
      history := Open(size);
    }

    /** Queues an item, or latches the overflow if it will not fit. */
    method Enqueue(item: Item) returns (ok: bool)
      requires history == history.(size := size, queue := out, overflowed := overflowed, closeCode := closeCode,
                                   writer := writer)
      modifies this
      ensures history == Enqueued(old(history), item)
      ensures history == history.(size := size, queue := out, overflowed := overflowed, closeCode := closeCode,
                                  writer := writer)
      ensures ok <==> size <= 0 || old(|out|) < size
      ensures out == if ok then old(out) + [item] else old(out)
      ensures overflowed <==> old(overflowed) || !ok
      ensures closeCode == old(closeCode) && writer == old(writer)
    {
      history := Enqueued(history, item);
      if size > 0 && |out| >= size {
        overflowed := true;
        return false;
      }
      out := out + [item];
      ok := true;
    }

    /** Queues a frame; never blocks, and drops everything once overflowed. */
    method Send(frame: ServerFrame)
      requires Valid()
      modifies this
      ensures Valid() && history == After(old(history), Step.Send(frame))
      ensures var fits := size <= 0 || old(|out|) < size;
              && out == (if fits && !old(overflowed) then old(out) + [Frame(frame)] else old(out))
              && (overflowed <==> old(overflowed) || !fits)
      ensures closeCode == old(closeCode) && writer == old(writer)
    {
      SendKeepsInv(history, frame);
      history := history.(sent := history.sent + [frame]);
      if !overflowed {
        var _ := Enqueue(Frame(frame));
      }
    }

    /** Asks the writer to flush and stop. The signal is queued even on an overflowed connection. */
    method RequestClose(code: int, last: Option<ServerFrame>)
      requires Valid()
      modifies this
      ensures Valid() && history == After(old(history), Step.RequestClose(code, last))
      ensures var told := if last.Some? && !old(overflowed) && (size <= 0 || old(|out|) < size)
                          then old(out) + [Frame(last.value)] else old(out);
              var fits := size <= 0 || |told| < size;
              && out == (if fits then told + [Close] else told)
              && (overflowed <==> old(overflowed) || !fits)
      ensures closeCode == code && writer == old(writer)
    {
      StepKeepsInv(history, Step.RequestClose(code, last));
      if last.Some? {
        Send(last.value);
      }
      closeCode := code;
      history := history.(closeCode := code);
      var _ := Enqueue(Close);
    }

    /** The writer's loop up to its write: takes the next item, and returns a code or starts writing. */
    method TakeNext()
      requires Valid() && writer.Idle? && out != []
      modifies this
      ensures Valid() && history == After(old(history), Step.TakeNext)
      ensures out == old(out)[1..] && overflowed == old(overflowed) && closeCode == old(closeCode)
      ensures writer == if old(out)[0].Close? then Returned(closeCode)
                        else if overflowed then Returned(1013)
                        else Writing(old(out)[0].frame)
    {
      TakeKeepsInv(history);
      history := After(history, Step.TakeNext);
      var item := out[0];
      out := out[1..];
      if item.Close? {
        writer := Returned(closeCode);
      } else if overflowed {
        writer := Returned(TRY_AGAIN_LATER);
      } else {
        writer := Writing(item.frame);
      }
    }

    /** The rest of the loop: the write lands, or finds the peer gone. */
    method EndWrite(landed: bool)
      requires Valid() && writer.Writing?
      modifies this
      ensures Valid() && history == After(old(history), if landed then Written else PeerGone)
      ensures out == old(out) && overflowed == old(overflowed) && closeCode == old(closeCode)
      ensures writer == if landed then Idle else Returned(1000)
    {
      StepKeepsInv(history, if landed then Written else PeerGone);
      history := After(history, if landed then Written else PeerGone);
      writer := if landed then Idle else Returned(NORMAL);
    }
  }
}
