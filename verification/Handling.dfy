/** The low-power read loop and the frame handlers together: when a session's frames end. */
module Handling {
  import opened Bytes
  import opened Codec
  import opened Model
  import opened FrameReader
  import opened Session
  import opened World

  // ---- the frames of a session in a run ----

  ghost function FramesOf(events: seq<Event>, s: Sid): seq<Frame> {
    if events == [] then []
    else
      var last := events[|events| - 1];
      FramesOf(events[..|events| - 1], s) + if last.FrameIn? && last.sid == s then [last.frame] else []
  }

  /** An authentication that fails, or a heartbeat without an id or not bare. */
  predicate Rejects(cfg: Config, crypto: Crypto, v: View, f: Frame) {
    || (f.msgType == AUTH_REQ && AuthenticatedId(cfg, crypto, v.gate.db, f).None?)
    || (f.msgType == HEARTBEAT && (v.conn.deviceId == "" || f.flag != 0 || f.size != 0))
  }

  /** Exactly a rejection closes the socket, and it does nothing else. */
  lemma RejectionCloses(cfg: Config, crypto: Crypto, v: View, s: Sid, now: int, f: Frame, draw: Draw)
    ensures
      var after := HandleFrame(cfg, crypto, v, s, now, f, draw);
      if Rejects(cfg, crypto, v, f) then after == v.(conn := v.conn.(open := false)) else after.conn.open == v.conn.open
  {}

  /** What the read loop of s may cause next: the next delivery, whose closing is its handler's; or, once it has
      delivered everything in front of it, the end of reading at a bad version. */
  ghost predicate IsReadStep(u: Setup, events: seq<Event>, e: Event, s: Sid, closes: Closing, stream: seq<byte>)
    requires IsRun(u, events) && Possible(Run(u, events), e)
  {
    match e
    case FrameIn(t, f, _) => t == s ==>
      && FramesOf(events, s) + [f] <= Greedy(stream, closes, []).frames
      && (closes(FramesOf(events, s) + [f]) <==> Rejects(u.cfg, u.crypto, ViewOf(Run(u, events), s), f))
    case BadVersion(t) => t == s ==>
      Greedy(stream, closes, []).stopped && FramesOf(events, s) == Greedy(stream, closes, []).frames
    case _ => true
  }

  /** A run in which session s reads the stream: its frames are the deliveries of the greedy reading, whatever other
      sessions do in between. */
  ghost predicate IsReadingRun(u: Setup, events: seq<Event>, s: Sid, closes: Closing, stream: seq<byte>)
    requires IsRun(u, events)
  {
    events == [] ||
    (IsReadingRun(u, events[..|events| - 1], s, closes, stream) &&
     IsReadStep(u, events[..|events| - 1], events[|events| - 1], s, closes, stream))
  }

  // ---- nothing is handled after the end ----

  /** Only the last delivery can be a closing one. */
  lemma {:induction false} GreedyEndsAtClosing(stream: seq<byte>, closes: Closing, before: seq<Frame>, k: nat)
    requires |before| < k < |Greedy(stream, closes, before).frames|
    ensures !closes(Greedy(stream, closes, before).frames[..k])
    decreases |stream|
  {
    var n := HEADER_SIZE + AnnouncedSize(stream);
    var frames := before + [FrontFrame(stream)];
    var all := Greedy(stream[n..], closes, frames).frames;
    if k == |frames| {
      assert all[..k] == frames;
    } else {
      GreedyEndsAtClosing(stream[n..], closes, frames, k);
    }
  }

  /** The session's reading ends with this event. */
  ghost predicate EndsReading(u: Setup, w: World, e: Event, s: Sid)
    requires Possible(w, e)
  {
    match e
    case FrameIn(t, f, _) => t == s && Rejects(u.cfg, u.crypto, ViewOf(w, s), f)
    case BadVersion(t) => t == s
    case _ => false
  }

  ghost predicate HasEnded(u: Setup, events: seq<Event>, s: Sid)
    requires IsRun(u, events)
  {
    events != [] &&
    (HasEnded(u, events[..|events| - 1], s) || EndsReading(u, Run(u, events[..|events| - 1]), events[|events| - 1], s))
  }

  /** What has ended has nothing more to deliver. */
  ghost predicate AllDelivered(events: seq<Event>, s: Sid, closes: Closing, stream: seq<byte>) {
    FramesOf(events, s) == Greedy(stream, closes, []).frames
  }

  lemma FramesSnoc(events: seq<Event>, e: Event, s: Sid)
    ensures FramesOf(events + [e], s) == FramesOf(events, s) + if e.FrameIn? && e.sid == s then [e.frame] else []
  {
    assert (events + [e])[..|events|] == events;
  }

  lemma RejectedIsLast(frames: seq<Frame>, f: Frame, closes: Closing, stream: seq<byte>)
    requires frames + [f] <= Greedy(stream, closes, []).frames && closes(frames + [f])
    ensures frames + [f] == Greedy(stream, closes, []).frames
  {
    if |frames| + 1 < |Greedy(stream, closes, []).frames| { EarlierDoesNotClose(frames, f, closes, stream); }
  }

  lemma EarlierDoesNotClose(frames: seq<Frame>, f: Frame, closes: Closing, stream: seq<byte>)
    requires frames + [f] <= Greedy(stream, closes, []).frames
    requires |frames| + 1 < |Greedy(stream, closes, []).frames|
    ensures !closes(frames + [f])
  {
    GreedyEndsAtClosing(stream, closes, [], |frames| + 1);
    assert Greedy(stream, closes, []).frames[..|frames| + 1] == frames + [f];
  }

  lemma NoneIsLonger(frames: seq<Frame>)
    ensures forall f :: !(frames + [f] <= frames)
  {
    forall f
      ensures !(frames + [f] <= frames)
    {
      assert |frames + [f]| == |frames| + 1;
    }
  }

  lemma StepEnds(u: Setup, events: seq<Event>, e: Event, s: Sid, closes: Closing, stream: seq<byte>)
    requires IsRun(u, events) && Possible(Run(u, events), e)
    requires IsReadStep(u, events, e, s, closes, stream)
    requires EndsReading(u, Run(u, events), e, s)
    ensures AllDelivered(events + [e], s, closes, stream)
  {
    FramesSnoc(events, e, s);
    if e.FrameIn? {
      RejectedIsLast(FramesOf(events, s), e.frame, closes, stream);
    } else {
      assert FramesOf(events, s) + [] == FramesOf(events, s);
    }
  }

  lemma NoneLeft(u: Setup, events: seq<Event>, e: Event, s: Sid, closes: Closing, stream: seq<byte>)
    requires IsRun(u, events) && Possible(Run(u, events), e)
    requires IsReadStep(u, events, e, s, closes, stream) && AllDelivered(events, s, closes, stream)
    ensures !(e.FrameIn? && e.sid == s)
  {
    NoneIsLonger(FramesOf(events, s));
  }

  lemma {:induction false} EndedIsDelivered(u: Setup, events: seq<Event>, s: Sid, closes: Closing, stream: seq<byte>)
    requires IsRun(u, events) && IsReadingRun(u, events, s, closes, stream) && HasEnded(u, events, s)
    ensures AllDelivered(events, s, closes, stream)
  {
    var n := |events| - 1;
    var e := events[n];
    assert events == events[..n] + [e];
    if HasEnded(u, events[..n], s) {
      EndedIsDelivered(u, events[..n], s, closes, stream);
      NoneLeft(u, events[..n], e, s, closes, stream);
      FramesSnoc(events[..n], e, s);
    } else {
      StepEnds(u, events[..n], e, s, closes, stream);
    }
  }

  /** Over every run in which a session's frames come from its read loop: after a failed authentication, a bad
      heartbeat or a bad version on it, no frame of it is handled. */
  lemma NothingAfterTheEnd(u: Setup, events: seq<Event>, e: Event, s: Sid, closes: Closing, stream: seq<byte>)
    requires IsRun(u, events) && IsReadingRun(u, events, s, closes, stream) && HasEnded(u, events, s)
    requires Possible(Run(u, events), e) && IsReadStep(u, events, e, s, closes, stream)
    ensures !(e.FrameIn? && e.sid == s)
  {
    EndedIsDelivered(u, events, s, closes, stream);
    NoneLeft(u, events, e, s, closes, stream);
  }
}
