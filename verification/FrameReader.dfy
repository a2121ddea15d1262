/** The low-power read loop: a header, then its payload, over a stream delivered in arbitrary chunks. */
module FrameReader {
  import opened Bytes
  import opened Codec

  // ---- the whole-stream reading ----

  /** Frames delivered, bytes not yet part of a frame, and whether reading has ended. */
  datatype Reading = Reading(frames: seq<Frame>, rest: seq<byte>, stopped: bool)

  /** Decides, from the frames delivered so far, whether the handler of the last one closed the socket. */
  type Closing = seq<Frame> -> bool

  /** Take frames off the front of the stream for as long as a complete one is there. */
  function Greedy(stream: seq<byte>, closes: Closing, before: seq<Frame>): (r: Reading)
    ensures before <= r.frames
    decreases |stream|
  {
    if |stream| < HEADER_SIZE then Reading(before, stream, false)
    else if stream[0] != VERSION_1 then Reading(before, stream, true)
    else
      var n := HEADER_SIZE + AnnouncedSize(stream);
      if |stream| < n then Reading(before, stream, false)
      else
        var frames := before + [FrontFrame(stream)];
        if closes(frames) then Reading(frames, stream[n..], true) else Greedy(stream[n..], closes, frames)
  }

  /** The frame parser on the first complete frame of a stream. */
  function FrontFrame(stream: seq<byte>): Frame
    requires |stream| >= HEADER_SIZE && |stream| >= HEADER_SIZE + AnnouncedSize(stream)
  {
    ParseFrame(stream[..HEADER_SIZE + AnnouncedSize(stream)]).value
  }

  /** One chunk more. */
  function Feed(r: Reading, closes: Closing, chunk: seq<byte>): Reading {
    if r.stopped then r.(rest := r.rest + chunk) else Greedy(r.rest + chunk, closes, r.frames)
  }

  function FeedAll(closes: Closing, chunks: seq<seq<byte>>): Reading {
    if chunks == [] then Reading([], [], false)
    else Feed(FeedAll(closes, chunks[..|chunks| - 1]), closes, chunks[|chunks| - 1])
  }

  function Flatten(chunks: seq<seq<byte>>): seq<byte> {
    if chunks == [] then [] else Flatten(chunks[..|chunks| - 1]) + chunks[|chunks| - 1]
  }

  lemma SamePrefixSameFront(stream: seq<byte>, chunk: seq<byte>)
    requires |stream| >= HEADER_SIZE
    ensures AnnouncedSize(stream + chunk) == AnnouncedSize(stream)
    ensures |stream| >= HEADER_SIZE + AnnouncedSize(stream) ==>
      var n := HEADER_SIZE + AnnouncedSize(stream);
      FrontFrame(stream + chunk) == FrontFrame(stream) && (stream + chunk)[n..] == stream[n..] + chunk
  {
    var n := HEADER_SIZE + AnnouncedSize(stream);
    if |stream| >= n {
      assert (stream + chunk)[..n] == stream[..n];
    }
  }

  /** Reading on after a chunk is reading the longer stream. */
  lemma {:induction false} GreedyExtends(stream: seq<byte>, chunk: seq<byte>, closes: Closing, before: seq<Frame>)
    ensures Greedy(stream + chunk, closes, before) == Feed(Greedy(stream, closes, before), closes, chunk)
    decreases |stream|
  {
    if |stream| >= HEADER_SIZE {
      SamePrefixSameFront(stream, chunk);
      var n := HEADER_SIZE + AnnouncedSize(stream);
      if stream[0] == VERSION_1 && |stream| >= n && !closes(before + [FrontFrame(stream)]) {
        GreedyExtends(stream[n..], chunk, closes, before + [FrontFrame(stream)]);
      }
    }
  }

  /** However the stream is cut into chunks, what is delivered and what is left depend on the stream alone. */
  lemma {:induction false} ChunkIndependence(closes: Closing, chunks: seq<seq<byte>>)
    ensures FeedAll(closes, chunks) == Greedy(Flatten(chunks), closes, [])
  {
    if chunks != [] {
      var n := |chunks| - 1;
      ChunkIndependence(closes, chunks[..n]);
      GreedyExtends(Flatten(chunks[..n]), chunks[n], closes, []);
    }
  }

  function EncodedAll(frames: seq<Frame>): seq<byte> {
    if frames == [] then [] else Encoded(frames[0]) + EncodedAll(frames[1..])
  }

  ghost predicate Sendable(f: Frame) {
    f.version == VERSION_1 && |f.payload| <= 0xFFFF && f.size == |f.payload|
  }

  lemma EncodedAllCons(f: Frame, later: seq<Frame>)
    ensures EncodedAll([f] + later) == Encoded(f) + EncodedAll(later)
  {
    assert ([f] + later)[1..] == later;
  }

  lemma FrontFrameBytes(stream: seq<byte>)
    requires |stream| >= HEADER_SIZE && |stream| >= HEADER_SIZE + AnnouncedSize(stream) && stream[0] == VERSION_1
    ensures Sendable(FrontFrame(stream))
    ensures stream == Encoded(FrontFrame(stream)) + stream[HEADER_SIZE + AnnouncedSize(stream)..]
  {
    EncodeOfParse(stream[..HEADER_SIZE + AnnouncedSize(stream)]);
  }

  /** A complete frame at the front is delivered. */
  lemma GreedyStep(stream: seq<byte>, f: Frame, tail: seq<byte>, closes: Closing, before: seq<Frame>)
    requires Sendable(f) && stream == Encoded(f) + tail
    ensures Greedy(stream, closes, before) ==
      if closes(before + [f]) then Reading(before + [f], tail, true) else Greedy(tail, closes, before + [f])
  {
    FrontOfSent(f, tail);
  }

  lemma FrontOfSent(f: Frame, later: seq<byte>)
    requires Sendable(f)
    ensures var stream := Encoded(f) + later;
      && stream[0] == VERSION_1 && HEADER_SIZE + AnnouncedSize(stream) == |Encoded(f)|
      && FrontFrame(stream) == f && stream[|Encoded(f)|..] == later
  {
    ParseOfEncode(f);
    assert ParseFrame(Encoded(f)) == Some(f);
    SamePrefixSameFront(Encoded(f), later);
    assert Encoded(f)[..|Encoded(f)|] == Encoded(f);
  }

  predicate FrameAhead(stream: seq<byte>) {
    |stream| >= HEADER_SIZE && stream[0] == VERSION_1 && |stream| >= HEADER_SIZE + AnnouncedSize(stream)
  }

  lemma GreedyWaits(stream: seq<byte>, closes: Closing, before: seq<Frame>)
    requires !FrameAhead(stream)
    ensures Greedy(stream, closes, before).frames == before && Greedy(stream, closes, before).rest == stream
  {}

  /** No byte is lost or invented: the delivered frames, encoded, and the rest are the stream. */
  lemma {:induction false} GreedyConserves(stream: seq<byte>, closes: Closing, before: seq<Frame>)
    returns (frames: seq<Frame>)
    ensures Greedy(stream, closes, before).frames == before + frames
    ensures stream == EncodedAll(frames) + Greedy(stream, closes, before).rest
    ensures forall f | f in frames :: Sendable(f)
    decreases |stream|
  {
    if FrameAhead(stream) {
      var f, tail := FrontFrame(stream), stream[HEADER_SIZE + AnnouncedSize(stream)..];
      FrontFrameBytes(stream);
      GreedyStep(stream, f, tail, closes, before);
      var later: seq<Frame> := [];
      if !closes(before + [f]) {
        later := GreedyConserves(tail, closes, before + [f]);
      }
      frames := [f] + later;
      PrependFrame(f, before, later, Greedy(stream, closes, before).rest, tail);
    } else {
      GreedyWaits(stream, closes, before);
      frames := [];
    }
  }

  lemma PrependFrame(f: Frame, before: seq<Frame>, later: seq<Frame>, rest: seq<byte>, tail: seq<byte>)
    requires tail == EncodedAll(later) + rest
    ensures Encoded(f) + tail == EncodedAll([f] + later) + rest
    ensures before + [f] + later == before + ([f] + later)
  {
    EncodedAllCons(f, later);
    assert Encoded(f) + EncodedAll(later) + rest == Encoded(f) + (EncodedAll(later) + rest);
  }

  /** What is left while reading goes on is the beginning of a frame, and not a whole one. */
  lemma {:induction false} TailIsPartialFrame(stream: seq<byte>, closes: Closing, before: seq<Frame>)
    requires !Greedy(stream, closes, before).stopped
    ensures IsPartialFrame(Greedy(stream, closes, before).rest)
    decreases |stream|
  {
    if |stream| >= HEADER_SIZE && |stream| >= HEADER_SIZE + AnnouncedSize(stream) {
      TailIsPartialFrame(stream[HEADER_SIZE + AnnouncedSize(stream)..], closes, before + [FrontFrame(stream)]);
    } else {
      PadToFrame(stream);
    }
  }

  ghost predicate IsPartialFrame(tail: seq<byte>) {
    && (|tail| >= HEADER_SIZE ==> tail[0] == VERSION_1)
    && exists f: Frame :: |f.payload| <= 0xFFFF && tail < Encoded(f)
  }

  function Zeroes(n: nat): (z: seq<byte>)
    ensures |z| == n
  {
    if n == 0 then [] else Zeroes(n - 1) + [0]
  }

  lemma CompleteFrame(start: seq<byte>) returns (f: Frame)
    requires HEADER_SIZE <= |start| <= HEADER_SIZE + AnnouncedSize(start)
    ensures |f.payload| == AnnouncedSize(start) && start <= Encoded(f)
  {
    var pad := Zeroes(HEADER_SIZE + AnnouncedSize(start) - |start|);
    f := PaddedFrame(start, pad);
    assert start <= start + pad;
  }

  lemma PaddedFrame(start: seq<byte>, pad: seq<byte>) returns (f: Frame)
    requires |start| >= HEADER_SIZE && |start| + |pad| == HEADER_SIZE + AnnouncedSize(start)
    ensures |f.payload| == AnnouncedSize(start) && Encoded(f) == start + pad
  {
    f := Frame(start[0], start[1], start[2], AnnouncedSize(start), start[HEADER_SIZE..] + pad);
    U16RoundTrip(start[3], start[4]);
    var header := [start[0], start[1], start[2]] + [start[3], start[4]];
    assert start == header + start[HEADER_SIZE..];
    assert Encoded(f) == header + (start[HEADER_SIZE..] + pad);
  }

  lemma PadToFrame(tail: seq<byte>)
    requires |tail| >= HEADER_SIZE ==> |tail| < HEADER_SIZE + AnnouncedSize(tail)
    ensures exists f: Frame :: |f.payload| <= 0xFFFF && tail < Encoded(f)
  {
    if |tail| < HEADER_SIZE {
      var whole := tail + Zeroes(HEADER_SIZE - |tail|);
      var f := CompleteFrame(whole);
      assert tail <= whole;
      assert tail < Encoded(f);
    } else {
      var f := CompleteFrame(tail);
      assert tail < Encoded(f);
    }
  }

  lemma DecodeFirst(f: Frame, later: seq<Frame>, before: seq<Frame>, closes: Closing)
    requires Sendable(f) && !closes(before + [f])
    requires Greedy(EncodedAll(later), closes, before + [f]) == Reading(before + [f] + later, [], false)
    ensures Greedy(EncodedAll([f] + later), closes, before) == Reading(before + ([f] + later), [], false)
  {
    EncodedAllCons(f, later);
    GreedyStep(Encoded(f) + EncodedAll(later), f, EncodedAll(later), closes, before);
    PrependFrame(f, before, later, [], EncodedAll(later) + []);
  }

  /** A reader on the other end of the wire gets back exactly the frames that were sent, in order. */
  lemma {:induction false} DecodeSent(frames: seq<Frame>, before: seq<Frame>, closes: Closing)
    requires forall f | f in frames :: Sendable(f)
    requires forall history :: !closes(history)
    ensures Greedy(EncodedAll(frames), closes, before) == Reading(before + frames, [], false)
    decreases |frames|
  {
    if frames == [] {
      assert before + frames == before;
    } else {
      DecodeSent(frames[1..], before + [frames[0]], closes);
      DecodeFirst(frames[0], frames[1..], before, closes);
      assert [frames[0]] + frames[1..] == frames;
    }
  }

  // ---- the read loop ----

  datatype PendingRead =
    | Header
    | Payload(version: byte, msgType: byte, flag: byte, size: uint16)
    | Ended

  class LowPowerReader {
    /** Stands for the frame handler: whether it closes the socket, given the frames it was handed. */
    const closes: Closing

    var inbox: seq<byte>
    var pending: PendingRead
    var delivered: seq<Frame>
    ghost var received: seq<byte>
    ghost var unread: seq<byte>

    /** Whatever the chunks were, the state is the greedy reading of everything received. */
    ghost predicate Valid()
      reads this
    {
      && Reading(delivered, unread, pending.Ended?) == Greedy(received, closes, [])
      && UnreadIsInbox()
    }

    ghost predicate UnreadIsInbox()
      reads this
    {
      match pending
      case Header => unread == inbox && |inbox| < HEADER_SIZE
      case Payload(version, msgType, flag, size) =>
        version == VERSION_1 && |inbox| < size && unread == [version, msgType, flag] + U16BE(size) + inbox
      case Ended => true
    }

    constructor (closes: Closing)
      ensures Valid() && received == [] && delivered == [] && this.closes == closes
    {
      this.closes := closes;
      inbox, pending, delivered := [], Header, [];
      received, unread := [], [];
    }

    /** Bytes arrive; the outstanding read completes when it has all it asked for. */
    method OnReceive(chunk: seq<byte>)
      requires Valid()
      modifies this
      ensures Valid() && received == old(received) + chunk
    {
      GreedyExtends(received, chunk, closes, []);
      received := received + chunk;
      match pending {
        case Ended =>
          unread := unread + chunk;
          inbox := inbox + chunk;
        case Header =>
          unread := unread + chunk;
          inbox := inbox + chunk;
          ReadLowPowerHeader();
        case Payload(version, msgType, flag, size) =>
          Associate([version, msgType, flag] + U16BE(size), inbox, chunk);
          unread := unread + chunk;
          inbox := inbox + chunk;
          ReadLowPowerPayload(version, msgType, flag, size);
      }
    }

    method ReadLowPowerHeader()
      requires unread == inbox
      modifies this`inbox, this`pending, this`delivered, this`unread
      ensures Reading(delivered, unread, pending.Ended?) == Greedy(old(inbox), closes, old(delivered))
      ensures UnreadIsInbox()
      decreases |inbox|, 1
    {
      if |inbox| < HEADER_SIZE {
        pending := Header;
        return;
      }
      var header := inbox[..HEADER_SIZE];
      inbox := inbox[HEADER_SIZE..];
      var version, msgType, flag := header[0], header[1], header[2];
      var size := ReadU16BE(header[3], header[4]);
      if version != VERSION_1 {
        pending := Ended;
        return;
      }
      U16RoundTrip(header[3], header[4]);
      assert unread == [version, msgType, flag] + U16BE(size) + inbox;
      ReadLowPowerPayload(version, msgType, flag, size);
    }

    method ReadLowPowerPayload(version: byte, msgType: byte, flag: byte, size: uint16)
      requires version == VERSION_1
      requires unread == [version, msgType, flag] + U16BE(size) + inbox
      modifies this`inbox, this`pending, this`delivered, this`unread
      ensures Reading(delivered, unread, pending.Ended?) == Greedy(old(unread), closes, old(delivered))
      ensures UnreadIsInbox()
      decreases |inbox| + HEADER_SIZE, 0
    {
      ghost var stream := unread;
      FrameAtFront(version, msgType, flag, size, inbox);
      if |inbox| < size {
        pending := Payload(version, msgType, flag, size);
        return;
      }
      var f := Frame(version, msgType, flag, size, inbox[..size]);
      inbox := inbox[size..];
      unread := inbox;
      delivered := delivered + [f];
      if closes(delivered) {
        pending := Ended;
        return;
      }
      ReadLowPowerHeader();
    }
  }

  lemma Associate(a: seq<byte>, b: seq<byte>, c: seq<byte>)
    ensures a + b + c == a + (b + c)
  {}

  lemma FrameAtFront(version: byte, msgType: byte, flag: byte, size: uint16, inbox: seq<byte>)
    ensures
      var stream := [version, msgType, flag] + U16BE(size) + inbox;
      && AnnouncedSize(stream) == size
      && (|inbox| >= size ==>
            && FrontFrame(stream) == Frame(version, msgType, flag, size, inbox[..size])
            && stream[HEADER_SIZE + size..] == inbox[size..])
  {
    var stream := [version, msgType, flag] + U16BE(size) + inbox;
    U16ReadBack(size);
    if |inbox| >= size {
      assert stream[..HEADER_SIZE + size][HEADER_SIZE..] == inbox[..size];
    }
  }
}
