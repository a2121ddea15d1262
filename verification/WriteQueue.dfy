/** The write side of a session: a strand of posted buffers, drained by one asynchronous write at a time. */
module WriteQueue {
  import opened Bytes
  import opened FrameReader

  /** A write that was started and has not completed; whether the socket was open then. */
  datatype Write = Write(buffer: seq<byte>, onOpenSocket: bool)

  /** The strand's view: what was queued in post order, what the wire carries, and what is under way. */
  datatype Strand = Strand(
    queue: seq<seq<byte>>,
    inProgress: bool,
    outstanding: seq<Write>,
    open: bool,
    failed: bool,
    posted: seq<seq<byte>>,
    wire: seq<byte>
  )

  datatype Step =
    | Enqueue(buffer: seq<byte>)
    | Complete
    | Break(written: nat)
    | CloseSocket

  const IDLE := Strand([], false, [], true, false, [], [])

  /** Start the next write, or note that there is none to start. */
  function Flushed(s: Strand): Strand {
    if s.queue == [] then s.(inProgress := false)
    else s.(inProgress := true, outstanding := s.outstanding + [Write(s.queue[0], s.open)])
  }

  /** A write can succeed, or put bytes on the wire, only if the socket was open when it began. */
  predicate Possible(s: Strand, e: Step) {
    match e
    case Enqueue(_) => true
    case CloseSocket => true
    case Complete => s.outstanding != [] && s.outstanding[0].onOpenSocket
    case Break(n) => s.outstanding != [] && n <= |s.outstanding[0].buffer| && (n > 0 ==> s.outstanding[0].onOpenSocket)
  }

  function Next(s: Strand, e: Step): Strand {
    match e
    case Enqueue(b) =>
      var t := s.(queue := s.queue + [b], posted := s.posted + [b]);
      if t.inProgress then t else Flushed(t)
    case Complete =>
      if s.outstanding == [] || s.queue == [] then s
      else
        var wire := s.wire + s.outstanding[0].buffer;
        Flushed(s.(outstanding := s.outstanding[1..], wire := wire, queue := s.queue[1..]))
    case Break(n) =>
      if s.outstanding == [] || n > |s.outstanding[0].buffer| then s
      else s.(outstanding := s.outstanding[1..], wire := s.wire + s.outstanding[0].buffer[..n],
              inProgress := false, failed := true, open := false)
    case CloseSocket => s.(open := false)
  }

  function Run(steps: seq<Step>): Strand {
    if steps == [] then IDLE else Next(Run(steps[..|steps| - 1]), steps[|steps| - 1])
  }

  ghost predicate PossibleRun(steps: seq<Step>) {
    forall i | 0 <= i < |steps| :: Possible(Run(steps[..i]), steps[i])
  }

  /** What every handler keeps. */
  ghost predicate Inv(s: Strand) {
    && |s.outstanding| <= 1
    && (s.inProgress <==> s.outstanding != [])
    && (s.inProgress ==> s.queue != [] && s.outstanding[0].buffer == s.queue[0])
    && (s.queue != [] && !s.failed ==> s.inProgress)
    && (!s.failed ==> s.wire + Flatten(s.queue) == Flatten(s.posted))
    && (s.failed ==> !s.open && s.wire <= Flatten(s.posted))
    && (s.failed && s.inProgress ==> !s.outstanding[0].onOpenSocket)
  }

  lemma FlattenSnoc(chunks: seq<seq<byte>>, b: seq<byte>)
    ensures Flatten(chunks + [b]) == Flatten(chunks) + b
  {
    assert (chunks + [b])[..|chunks|] == chunks;
  }

  lemma {:induction false} FlattenFirst(chunks: seq<seq<byte>>)
    requires chunks != []
    ensures Flatten(chunks) == chunks[0] + Flatten(chunks[1..])
  {
    var n := |chunks| - 1;
    if n > 0 {
      FlattenFirst(chunks[..n]);
      assert chunks[..n][1..] == chunks[1..][..n - 1];
    } else {
      assert chunks[..0] == [] && chunks[1..] == [];
    }
  }

  lemma EnqueueKeepsInv(s: Strand, b: seq<byte>)
    requires Inv(s)
    ensures Inv(Next(s, Enqueue(b)))
  {
    FlattenSnoc(s.queue, b);
    FlattenSnoc(s.posted, b);
    AppendToBoth(s.wire, Flatten(s.queue), Flatten(s.posted), b);
    assert s.queue != [] ==> (s.queue + [b])[0] == s.queue[0];
  }

  lemma AppendToBoth(wire: seq<byte>, queued: seq<byte>, posted: seq<byte>, b: seq<byte>)
    ensures wire + queued == posted ==> wire + (queued + b) == posted + b
    ensures wire <= posted ==> wire <= posted + b
  {
    assert wire + (queued + b) == wire + queued + b;
  }

  lemma CompleteKeepsInv(s: Strand)
    requires Inv(s) && Possible(s, Complete)
    ensures Inv(Next(s, Complete))
  {
    FlattenFirst(s.queue);
  }

  lemma BreakKeepsInv(s: Strand, n: nat)
    requires Inv(s) && Possible(s, Break(n))
    ensures Inv(Next(s, Break(n)))
  {
    var part, b := s.outstanding[0].buffer[..n], s.outstanding[0].buffer;
    if s.failed {
      assert part == [];
      assert s.wire + part == s.wire;
    } else {
      FlattenFirst(s.queue);
      assert s.wire + (b + Flatten(s.queue[1..])) == s.wire + part + (b[n..] + Flatten(s.queue[1..]));
    }
  }

  /** Every step keeps the invariant. */
  lemma NextKeepsInv(s: Strand, e: Step)
    requires Inv(s) && Possible(s, e)
    ensures Inv(Next(s, e))
  {
    match e
    case Enqueue(b) => EnqueueKeepsInv(s, b);
    case Complete => CompleteKeepsInv(s);
    case Break(n) => BreakKeepsInv(s, n);
    case CloseSocket =>
  }

  /** Over every run: at most one write, always of the front buffer; the wire carries the posted bytes in
      order, all of them once an unbroken queue has drained, and a prefix of them after a failure. */
  lemma {:induction false} RunKeepsInv(steps: seq<Step>)
    requires PossibleRun(steps)
    ensures Inv(Run(steps))
    ensures Run(steps).wire <= Flatten(Run(steps).posted)
    ensures !Run(steps).failed && Run(steps).queue == [] ==> Run(steps).wire == Flatten(Run(steps).posted)
  {
    if steps != [] {
      var n := |steps| - 1;
      assert forall i | 0 <= i < n :: steps[..n][..i] == steps[..i];
      RunKeepsInv(steps[..n]);
      NextKeepsInv(Run(steps[..n]), steps[n]);
    }
    var s := Run(steps);
    if !s.failed && s.queue == [] { assert s.wire + [] == s.wire; }
  }

  /** What a run queued is what it was asked to queue. */
  lemma {:induction false} RunPosts(steps: seq<Step>)
    ensures Run(steps).posted == Enqueued(steps)
  {
    if steps != [] { RunPosts(steps[..|steps| - 1]); }
  }

  function Enqueued(steps: seq<Step>): seq<seq<byte>> {
    if steps == [] then []
    else
      var n := |steps| - 1;
      Enqueued(steps[..n]) + (if steps[n].Enqueue? then [steps[n].buffer] else [])
  }

  // ---- the handlers ----

  class Writer {
    var writeQueue: seq<seq<byte>>
    var writeInProgress: bool
    var outstanding: seq<Write>
    var socketOpen: bool
    ghost var failed: bool
    ghost var posted: seq<seq<byte>>
    var wire: seq<byte>

    ghost function View(): Strand
      reads this
    {
      Strand(writeQueue, writeInProgress, outstanding, socketOpen, failed, posted, wire)
    }

    constructor ()
      ensures View() == IDLE
    {
      writeQueue, writeInProgress, outstanding, socketOpen := [], false, [], true;
      failed, posted, wire := false, [], [];
    }

    /** The closure posted to the strand. */
    method RunPosted(buffer: seq<byte>)
      modifies this
      ensures View() == Next(old(View()), Enqueue(buffer))
    {
      writeQueue := writeQueue + [buffer];
      posted := posted + [buffer];
      if !writeInProgress {
        FlushWrites();
      }
    }

    method FlushWrites()
      modifies this
      ensures View() == Flushed(old(View()))
    {
      if writeQueue == [] {
        writeInProgress := false;
        return;
      }
      writeInProgress := true;
      outstanding := outstanding + [Write(writeQueue[0], socketOpen)];
    }

    /** The completion handler of a write that went through. */
    method OnWritten()
      requires Inv(View()) && Possible(View(), Complete)
      modifies this
      ensures View() == Next(old(View()), Complete) && Inv(View())
    {
      NextKeepsInv(View(), Complete);
      wire := wire + outstanding[0].buffer;
      outstanding := outstanding[1..];
      writeQueue := writeQueue[1..];
      FlushWrites();
    }

    /** The completion handler of a write that failed after some bytes: the session disconnects. */
    method OnWriteError(written: nat)
      requires Inv(View()) && Possible(View(), Break(written))
      modifies this
      ensures View() == Next(old(View()), Break(written)) && Inv(View())
    {
      NextKeepsInv(View(), Break(written));
      wire := wire + outstanding[0].buffer[..written];
      outstanding := outstanding[1..];
      failed := true;
      writeInProgress := false;
      Close();
    }

    method Close()
      modifies this
      ensures View() == Next(old(View()), CloseSocket)
    {
      socketOpen := false;
    }
  }
}
