/** The outgoing streams, from the buffers posted in a run to what the peer reads. */
module Streams {
  import opened Bytes
  import opened Model
  import opened Codec
  import opened Dispatcher
  import opened Session
  import opened FrameReader
  import opened World
  import opened Redis
  import opened Records
  import L = LineReader
  import W = WriteQueue

  // ---- what is posted, and queued ----

  /** The buffers posted to a session, in order. */
  ghost function PostedTo(trace: seq<Note>, s: Sid): seq<Buffer> {
    if trace == [] then []
    else
      var n := trace[|trace| - 1];
      PostedTo(trace[..|trace| - 1], s) + if n.Posted? && n.sid == s then [n.buffer] else []
  }

  lemma {:induction false} PostedFits(conns: map<Sid, Conn>, trace: seq<Note>, s: Sid)
    requires TraceFits(conns, trace)
    ensures forall b | b in PostedTo(trace, s) :: s in conns && Fits(conns[s].protocol, b)
  {
    if trace != [] {
      var n := |trace| - 1;
      PostedFits(conns, trace[..n], s);
      assert PostFits(conns, trace[n]);
    }
  }

  /** The octets of a buffer; how a document is dumped is given. */
  function BytesOf(dump: Message -> seq<byte>, b: Buffer): seq<byte> {
    match b
    case Line(m) => dump(m) + [10]
    case Raw(data) => data
  }

  /** The strand ran the posted closures in order, perhaps not yet the last ones. */
  ghost predicate IsQueueOf(dump: Message -> seq<byte>, queued: seq<seq<byte>>, buffers: seq<Buffer>) {
    |queued| <= |buffers| && forall i | 0 <= i < |queued| :: queued[i] == BytesOf(dump, buffers[i])
  }

  // ---- a low-power session ----

  /** No JSON line is ever posted to a low-power session: every buffer is one binary frame. */
  lemma NoLineToLowPower(u: Setup, events: seq<Event>, s: Sid, b: Buffer)
    requires IsRun(u, events)
    requires s in Run(u, events).conns && Run(u, events).conns[s].protocol == LOWPOWER
    requires b in PostedTo(Run(u, events).gate.trace, s)
    ensures b.Raw? && IsMade(b.data)
  {
    var w := Run(u, events);
    RunIsSafe(u, events);
    PostedFits(w.conns, w.gate.trace, s);
    assert Fits(w.conns[s].protocol, b);
  }

  /** A made frame that fits its length field is what the reader takes it for. */
  lemma MadeIsSendable(data: seq<byte>) returns (f: Frame)
    requires IsMade(data) && |data| <= HEADER_SIZE + 0xFFFF
    ensures Sendable(f) && Encoded(f) == data
  {
    var msgType, flag, payload :| data == Encoded(MakeFrame(msgType, flag, payload));
    f := MakeFrame(msgType, flag, payload);
  }

  ghost predicate AreEncoded(queued: seq<seq<byte>>, frames: seq<Frame>) {
    |frames| == |queued| && forall i | 0 <= i < |queued| :: Sendable(frames[i]) && Encoded(frames[i]) == queued[i]
  }

  lemma {:induction false} QueuedFrames(queued: seq<seq<byte>>) returns (frames: seq<Frame>)
    requires forall q | q in queued :: IsMade(q) && |q| <= HEADER_SIZE + 0xFFFF
    ensures AreEncoded(queued, frames)
  {
    if queued == [] {
      frames := [];
    } else {
      var n := |queued| - 1;
      var earlier := QueuedFrames(queued[..n]);
      var last := MadeIsSendable(queued[n]);
      frames := earlier + [last];
    }
  }

  lemma {:induction false} FlattenEncoded(queued: seq<seq<byte>>, frames: seq<Frame>)
    requires AreEncoded(queued, frames)
    ensures Flatten(queued) == EncodedAll(frames)
  {
    if queued != [] {
      var n := |queued| - 1;
      FlattenEncoded(queued[..n], frames[..n]);
      EncodedAllSnoc(frames[..n], frames[n]);
      assert frames == frames[..n] + [frames[n]];
    }
  }

  lemma {:induction false} EncodedAllSnoc(frames: seq<Frame>, last: Frame)
    ensures EncodedAll(frames + [last]) == EncodedAll(frames) + Encoded(last)
  {
    if frames == [] {
      assert EncodedAll([last]) == Encoded(last) + EncodedAll([]);
      assert frames + [last] == [last];
    } else {
      assert (frames + [last])[1..] == frames[1..] + [last];
      EncodedAllSnoc(frames[1..], last);
    }
  }

  function NeverCloses(): Closing {
    _ => false
  }

  /** A reader of part of the frames' octets has read part of the frames, and nothing else. */
  lemma PartOfSent(frames: seq<Frame>, wire: seq<byte>)
    requires (forall f | f in frames :: Sendable(f)) && wire <= EncodedAll(frames)
    ensures var r := Greedy(wire, NeverCloses(), []); r.frames <= frames && !r.stopped
    ensures wire == EncodedAll(frames) ==> Greedy(wire, NeverCloses(), []) == Reading(frames, [], false)
  {
    var all := EncodedAll(frames);
    var tail := all[|wire|..];
    DecodeSent(frames, [], NeverCloses());
    assert [] + frames == frames && wire + tail == all;
    GreedyExtends(wire, tail, NeverCloses(), []);
  }

  lemma QueueIsMade(u: Setup, events: seq<Event>, s: Sid, dump: Message -> seq<byte>, queued: seq<seq<byte>>)
    requires IsRun(u, events)
    requires s in Run(u, events).conns && Run(u, events).conns[s].protocol == LOWPOWER
    requires IsQueueOf(dump, queued, PostedTo(Run(u, events).gate.trace, s))
    ensures forall q | q in queued :: IsMade(q)
  {
    var buffers := PostedTo(Run(u, events).gate.trace, s);
    forall i | 0 <= i < |queued|
      ensures IsMade(queued[i])
    {
      NoLineToLowPower(u, events, s, buffers[i]);
    }
  }

  /** End to end: in every run of the gateway and of a low-power session's write strand, whatever the chunks in
      which the peer receives the wire, it decodes to the first of the posted frames, in order; and, once an
      unbroken queue has drained, to all that were queued. */
  lemma LowPowerStreamIsSafe(u: Setup, events: seq<Event>, s: Sid, dump: Message -> seq<byte>,
      steps: seq<W.Step>, chunks: seq<seq<byte>>) returns (frames: seq<Frame>)
    requires IsRun(u, events)
    requires s in Run(u, events).conns && Run(u, events).conns[s].protocol == LOWPOWER
    requires W.PossibleRun(steps) && IsQueueOf(dump, W.Enqueued(steps), PostedTo(Run(u, events).gate.trace, s))
    requires forall q | q in W.Enqueued(steps) :: |q| <= HEADER_SIZE + 0xFFFF
    requires Flatten(chunks) == W.Run(steps).wire
    ensures AreEncoded(W.Enqueued(steps), frames)
    ensures FeedAll(NeverCloses(), chunks).frames <= frames && !FeedAll(NeverCloses(), chunks).stopped
    ensures !W.Run(steps).failed && W.Run(steps).queue == [] ==>
      FeedAll(NeverCloses(), chunks) == Reading(frames, [], false)
  {
    var queued := W.Enqueued(steps);
    QueueIsMade(u, events, s, dump, queued);
    frames := QueuedFrames(queued);
    FlattenEncoded(queued, frames);
    W.RunKeepsInv(steps);
    W.RunPosts(steps);
    PartOfSent(frames, W.Run(steps).wire);
    ChunkIndependence(NeverCloses(), chunks);
  }

  // ---- a JSON session ----

  /** A command that puts a binary frame on the session, which a JSON peer cannot read. */
  ghost predicate SendsBinary(u: Setup, w: World, e: Event, s: Sid) {
    && e.Command? && e.call.cmd == "lowpower_wakeup" && CanSend(u.cfg, Wakes(w.gate), e.call, LinksOf(w))
    && w.gate.sessions[e.call.deviceId] == s
  }

  ghost predicate BinarySent(u: Setup, events: seq<Event>, s: Sid)
    requires IsRun(u, events)
  {
    events != [] &&
    (BinarySent(u, events[..|events| - 1], s) ||
      SendsBinary(u, Run(u, events[..|events| - 1]), events[|events| - 1], s))
  }

  /** Every buffer posted to the session is a line, and every command pending on it is a JSON one. */
  ghost predicate LinesOnly(pending: map<string, PendingWake>, trace: seq<Note>, s: Sid) {
    && (forall id | id in pending && pending[id].session == s :: pending[id].protocol == JSON_LINE)
    && LinesTo(trace, s)
  }

  ghost predicate LinesTo(trace: seq<Note>, s: Sid) {
    forall n | n in trace && n.Posted? && n.sid == s :: n.buffer.Line?
  }

  ghost predicate IsBinary(w: World, s: Sid) {
    s in w.conns && w.conns[s].protocol == LOWPOWER
  }

  lemma {:induction false} TickLines(cfg: Config, w: WakeState, now: int, links: Links, order: seq<string>, s: Sid)
    requires LinesOnly(w.pending, [], s) && forall id | id in order :: id in w.pending
    ensures LinesTo(NotesInOrder(cfg, w, now, links, order), s)
  {
    if order != [] { TickLines(cfg, w, now, links, order[..|order| - 1], s); }
  }

  lemma CommandLines(u: Setup, w: World, c: Call, s: Sid)
    requires LinesOnly(w.gate.pending, w.gate.trace, s) && !IsBinary(w, s) && !SendsBinary(u, w, Command(c), s)
    ensures LinesOnly(Sending(u, w, c).0.pending, Sending(u, w, c).0.trace, s)
  {
    var p, buffer := SendShape(u.cfg, Wakes(w.gate), w.now, c, LinksOf(w));
    assert p.session in LinksOf(w) && LinksOf(w)[p.session] == LOWPOWER ==> IsBinary(w, p.session);
  }

  lemma JsonLines(cfg: Config, v: View, t: Sid, now: int, r: Request, s: Sid)
    requires LinesOnly(v.gate.pending, v.gate.trace, s)
    ensures LinesOnly(HandleJson(cfg, v, t, now, r).gate.pending, HandleJson(cfg, v, t, now, r).gate.trace, s)
  {
    var notes := JsonNotes(cfg, v, t, now, r);
    JsonIsSessionStep(cfg, v, t, now, r);
  }

  lemma FrameLines(u: Setup, w: World, t: Sid, f: Frame, draw: Draw, s: Sid)
    requires LinesOnly(w.gate.pending, w.gate.trace, s) && !IsBinary(w, s) && Possible(w, FrameIn(t, f, draw))
    ensures
      var g := Next(u, w, FrameIn(t, f, draw)).gate;
      LinesOnly(g.pending, g.trace, s)
  {
    var notes := FrameNotes(u.cfg, u.crypto, ViewOf(w, t), t, w.now, f, draw);
    FrameIsSessionStep(u.cfg, u.crypto, ViewOf(w, t), t, w.now, f, draw);
  }

  lemma TickKeepsLines(u: Setup, w: World, order: seq<string>, s: Sid)
    requires LinesOnly(w.gate.pending, w.gate.trace, s) && Possible(w, Tick(order))
    ensures LinesOnly(Next(u, w, Tick(order)).gate.pending, Next(u, w, Tick(order)).gate.trace, s)
  {
    TickLines(u.cfg, Wakes(w.gate), w.now, LinksOf(w), order, s);
  }

  lemma NextKeepsLines(u: Setup, w: World, e: Event, s: Sid)
    requires Possible(w, e) && LinesOnly(w.gate.pending, w.gate.trace, s)
    requires !IsBinary(w, s) && !SendsBinary(u, w, e, s)
    ensures LinesOnly(Next(u, w, e).gate.pending, Next(u, w, e).gate.trace, s)
  {
    match e {
      case JsonLine(t, r) => JsonLines(u.cfg, ViewOf(w, t), t, w.now, r, s);
      case FrameIn(t, f, draw) => FrameLines(u, w, t, f, draw, s);
      case Command(c) => CommandLines(u, w, c, s);
      case Tick(order) => TickKeepsLines(u, w, order, s);
      case _ =>
    }
  }

  lemma {:induction false} UnsentIsLines(u: Setup, events: seq<Event>, s: Sid)
    requires IsRun(u, events) && !IsBinary(Run(u, events), s) && !BinarySent(u, events, s)
    ensures LinesOnly(Run(u, events).gate.pending, Run(u, events).gate.trace, s)
  {
    if events != [] {
      var n := |events| - 1;
      NextKeepsProtocols(u, Run(u, events[..n]), events[n]);
      UnsentIsLines(u, events[..n], s);
      NextKeepsLines(u, Run(u, events[..n]), events[n], s);
    }
  }

  lemma BinaryIsPosted(u: Setup, w: World, e: Event, s: Sid)
    requires SendsBinary(u, w, e, s)
    ensures !LinesTo(Next(u, w, e).gate.trace, s)
  {
    var p, buffer := SendShape(u.cfg, Wakes(w.gate), w.now, e.call, LinksOf(w));
    var trace := Next(u, w, e).gate.trace;
    assert trace[|w.gate.trace|] == Posted(s, buffer, Some(p.msgId));
    assert trace[|w.gate.trace|] in trace;
  }

  lemma {:induction false} SentIsNotLines(u: Setup, events: seq<Event>, s: Sid)
    requires IsRun(u, events) && BinarySent(u, events, s)
    ensures !LinesTo(Run(u, events).gate.trace, s)
  {
    var n := |events| - 1;
    var w := Run(u, events[..n]);
    if SendsBinary(u, w, events[n], s) {
      BinaryIsPosted(u, w, events[n], s);
    } else {
      SentIsNotLines(u, events[..n], s);
      RunIsSafe(u, events[..n]);
      var notes := NextAddsFittingNotes(u, w, events[n]);
      var note :| note in w.gate.trace && note.Posted? && note.sid == s && !note.buffer.Line?;
      assert note in w.gate.trace + notes;
    }
  }

  lemma {:induction false} PostedToIsPosted(trace: seq<Note>, s: Sid)
    ensures LinesTo(trace, s) <==> forall b | b in PostedTo(trace, s) :: b.Line?
  {
    if trace != [] {
      var n := |trace| - 1;
      PostedToIsPosted(trace[..n], s);
      assert trace == trace[..n] + [trace[n]];
    }
  }

  /** The buffers of a JSON session are all lines exactly when no binary command was sent to it. */
  lemma LinesIffNoBinary(u: Setup, events: seq<Event>, s: Sid)
    requires IsRun(u, events) && s in Run(u, events).conns && Run(u, events).conns[s].protocol == JSON_LINE
    ensures (forall b | b in PostedTo(Run(u, events).gate.trace, s) :: b.Line?) <==> !BinarySent(u, events, s)
  {
    PostedToIsPosted(Run(u, events).gate.trace, s);
    if BinarySent(u, events, s) { SentIsNotLines(u, events, s); } else { UnsentIsLines(u, events, s); }
  }

  function BinaryCall(d: string): Call {
    Call(d, "lowpower_wakeup", "", 0, 0)
  }

  /** A JSON login, and a low-power wake command to a device that has a local key: its JSON peer is sent a frame. */
  lemma BinaryRun(u: Setup, d: string)
    requires SeparatesFamilies(u.cfg.key) && d != "" && Get(u.provisioned, u.cfg.key(LocalKey(d))).Some?
    ensures
      var events := LoginEvents(0, d) + [Command(BinaryCall(d))];
      && IsRun(u, events) && BinarySent(u, events, 0)
      && 0 in Run(u, events).conns && Run(u, events).conns[0].protocol == JSON_LINE
      && !LinesTo(Run(u, events).gate.trace, 0)
  {
    var login := LoginEvents(0, d);
    FirstLoginRun(u, d);
    RunKeepsProvisioned(u, login);
    assert Get(Run(u, login).gate.db, u.cfg.key(LocalKey(d))) == Get(u.provisioned, u.cfg.key(LocalKey(d)));
    RunSnoc(u, login, Command(BinaryCall(d)));
    var events := login + [Command(BinaryCall(d))];
    assert events[..|events| - 1] == login;
    SentIsNotLines(u, events, 0);
  }

  // ---- what a JSON peer reads ----

  lemma {:induction false} CharactersConcat(a: seq<byte>, b: seq<byte>)
    ensures Characters(a + b) == Characters(a) + Characters(b)
  {
    if b == [] {
      assert a + b == a;
    } else {
      assert (a + b)[..|a + b| - 1] == a + b[..|b| - 1];
      CharactersConcat(a, b[..|b| - 1]);
    }
  }

  lemma LineCharacters(data: seq<byte>)
    ensures Characters(data + [10]) == Characters(data) + "\n"
  {
    assert (data + [10])[..|data|] == data;
  }

  lemma {:induction false} SentLinesSnoc(docs: seq<string>, last: string)
    ensures L.SentLines(docs + [last]) == L.SentLines(docs) + (last + "\n")
  {
    if docs == [] {
      assert docs + [last] == [last] && [last][1..] == [];
      assert L.SentLines([last]) == last + "\n" + "";
    } else {
      assert (docs + [last])[1..] == docs[1..] + [last];
      SentLinesSnoc(docs[1..], last);
      assert L.SentLines(docs + [last]) == docs[0] + "\n" + (L.SentLines(docs[1..]) + (last + "\n"));
    }
  }

  /** The queued octets are the dumped documents, a newline after each. */
  ghost predicate AreLines(queued: seq<seq<byte>>, docs: seq<string>) {
    && |docs| == |queued|
    && forall i | 0 <= i < |queued| :: L.Framable(docs[i]) && Characters(queued[i]) == docs[i] + "\n"
  }

  lemma {:induction false} QueuedLines(queued: seq<seq<byte>>, docs: seq<string>)
    requires AreLines(queued, docs)
    ensures Characters(Flatten(queued)) == L.SentLines(docs)
  {
    if queued != [] {
      var n := |queued| - 1;
      QueuedLines(queued[..n], docs[..n]);
      CharactersConcat(Flatten(queued[..n]), queued[n]);
      SentLinesSnoc(docs[..n], docs[n]);
      assert docs == docs[..n] + [docs[n]];
    }
  }

  /** A reader of part of the lines has read part of the documents, and nothing else. */
  lemma PartOfLines(docs: seq<string>, text: string)
    requires (forall d | d in docs :: L.Framable(d)) && text <= L.SentLines(docs)
    ensures L.Lines(text).lines <= docs
    ensures text == L.SentLines(docs) ==> L.Lines(text) == L.Reading(docs, "")
  {
    var tail := L.SentLines(docs)[|text|..];
    L.ReadSentLines(docs);
    assert text + tail == L.SentLines(docs);
    L.LinesExtend(text, tail);
  }

  lemma CharactersOfPrefix(a: seq<byte>, b: seq<byte>)
    requires a <= b
    ensures Characters(a) <= Characters(b)
  {
    assert b == a + b[|a|..];
    CharactersConcat(a, b[|a|..]);
  }

  /** The document of each buffer, as the peer reads it. */
  function Document(dump: Message -> seq<byte>, b: Buffer): string {
    if b.Line? then Characters(dump(b.message)) else ""
  }

  lemma QueueIsLines(u: Setup, events: seq<Event>, s: Sid, dump: Message -> seq<byte>, queued: seq<seq<byte>>)
    returns (docs: seq<string>)
    requires IsRun(u, events) && s in Run(u, events).conns && Run(u, events).conns[s].protocol == JSON_LINE
    requires !BinarySent(u, events, s) && (forall m :: L.Framable(Characters(dump(m))))
    requires IsQueueOf(dump, queued, PostedTo(Run(u, events).gate.trace, s))
    ensures AreLines(queued, docs)
    ensures forall i | 0 <= i < |docs| :: docs[i] == Document(dump, PostedTo(Run(u, events).gate.trace, s)[i])
  {
    var buffers := PostedTo(Run(u, events).gate.trace, s);
    LinesIffNoBinary(u, events, s);
    docs := seq(|queued|, i requires 0 <= i < |queued| => Document(dump, buffers[i]));
    forall i | 0 <= i < |queued|
      ensures L.Framable(docs[i]) && Characters(queued[i]) == docs[i] + "\n"
    {
      assert buffers[i].Line?;
      LineCharacters(dump(buffers[i].message));
    }
  }

  /** End to end: in every run of the gateway and of a JSON session's write strand, if no binary command was sent to
      the session and documents are dumped in one line, its peer reads the first of the posted documents, in order;
      and, once an unbroken queue has drained, all that were queued. */
  lemma JsonStreamIsSafe(u: Setup, events: seq<Event>, s: Sid, dump: Message -> seq<byte>,
      steps: seq<W.Step>, chunks: seq<string>) returns (docs: seq<string>)
    requires IsRun(u, events) && s in Run(u, events).conns && Run(u, events).conns[s].protocol == JSON_LINE
    requires !BinarySent(u, events, s) && (forall m :: L.Framable(Characters(dump(m))))
    requires W.PossibleRun(steps) && IsQueueOf(dump, W.Enqueued(steps), PostedTo(Run(u, events).gate.trace, s))
    requires L.Flatten(chunks) == Characters(W.Run(steps).wire)
    ensures |docs| == |W.Enqueued(steps)|
    ensures forall i | 0 <= i < |docs| :: docs[i] == Document(dump, PostedTo(Run(u, events).gate.trace, s)[i])
    ensures L.FeedAll(chunks).lines <= docs
    ensures !W.Run(steps).failed && W.Run(steps).queue == [] ==> L.FeedAll(chunks) == L.Reading(docs, "")
  {
    var queued := W.Enqueued(steps);
    docs := QueueIsLines(u, events, s, dump, queued);
    QueuedLines(queued, docs);
    W.RunKeepsInv(steps);
    W.RunPosts(steps);
    CharactersOfPrefix(W.Run(steps).wire, Flatten(queued));
    PartOfLines(docs, Characters(W.Run(steps).wire));
    L.LinesIgnoreChunks(chunks);
  }
}
