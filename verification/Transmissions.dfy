/** What is sent for a command: over every run, one and the same buffer to one and the same session. */
module Transmissions {
  import opened Bytes
  import opened Model
  import opened Redis
  import opened Dispatcher
  import opened Session
  import opened World
  import opened Histories

  predicate IsPostFor(n: Note, id: string) {
    n.Posted? && n.cause == Some(id)
  }

  /** Every transmission for a command is this one. */
  ghost predicate AllPosts(trace: seq<Note>, id: string, post: Note) {
    forall i | 0 <= i < |trace| && IsPostFor(trace[i], id) :: trace[i] == post
  }

  /** What an entry stands for: its stored document, or the wake frame of the device's provisioned key. */
  ghost function OwnPost(u: Setup, p: PendingWake): Note {
    var frame := Raw(WakeupBytes(ProvisionedKey(u, p.deviceId)));
    Posted(p.session, if p.protocol == JSON_LINE then Line(p.payload) else frame, Some(p.msgId))
  }

  function ProvisionedKey(u: Setup, deviceId: string): string {
    var localKey := Get(u.provisioned, u.cfg.key(LocalKey(deviceId)));
    if localKey.Some? then localKey.value else ""
  }

  ghost predicate Repeats(u: Setup, pending: map<string, PendingWake>, trace: seq<Note>, id: string) {
    if id in pending then AllPosts(trace, id, OwnPost(u, pending[id])) else exists post :: AllPosts(trace, id, post)
  }

  lemma AllPostsConcat(a: seq<Note>, b: seq<Note>, id: string, post: Note)
    ensures AllPosts(a + b, id, post) <==> AllPosts(a, id, post) && AllPosts(b, id, post)
  {
    if AllPosts(a + b, id, post) {
      assert forall i | 0 <= i < |a| :: (a + b)[i] == a[i];
      assert forall i | 0 <= i < |b| :: (a + b)[|a| + i] == b[i];
    }
  }

  ghost predicate NoPosts(notes: seq<Note>, id: string) {
    forall i | 0 <= i < |notes| :: !IsPostFor(notes[i], id)
  }

  /** Notes that send nothing for an id, to an entry that is gone or the same: nothing changes. */
  lemma NoPostsKeep(u: Setup, pending: map<string, PendingWake>, pending': map<string, PendingWake>, trace: seq<Note>,
      notes: seq<Note>, id: string)
    requires Repeats(u, pending, trace, id) && NoPosts(notes, id)
    requires id in pending' ==> id in pending && OwnPost(u, pending'[id]) == OwnPost(u, pending[id])
    ensures Repeats(u, pending', trace + notes, id)
  {
    if id in pending {
      AllPostsConcat(trace, notes, id, OwnPost(u, pending[id]));
    } else {
      var post :| AllPosts(trace, id, post);
      AllPostsConcat(trace, notes, id, post);
    }
  }

  lemma {:induction false} UntouchedHasNoPosts(trace: seq<Note>, id: string)
    requires Sends(trace, id, true) == 0 && Sends(trace, id, false) == 0
    ensures NoPosts(trace, id)
  {
    if trace != [] {
      var n := |trace| - 1;
      assert Sends(trace[..n], id, true) == 0 && Sends(trace[..n], id, false) == 0;
      UntouchedHasNoPosts(trace[..n], id);
    }
  }

  /** What a dispatch composes, from one reading of the clock. */
  ghost function Composed(u: Setup, w: World, c: Call): Note
    requires c.deviceId in w.gate.sessions && w.gate.sessions[c.deviceId] in LinksOf(w)
  {
    var sid, frame := w.gate.sessions[c.deviceId], Raw(WakeupBytes(ProvisionedKey(u, c.deviceId)));
    var binary := LinksOf(w)[sid] == LOWPOWER || c.cmd == "lowpower_wakeup";
    Posted(sid, if binary then frame else Line(WakeDocument(u.cfg, c)), Some(MsgId(c.wall)))
  }

  lemma DispatchIsOwnPost(u: Setup, w: World, c: Call, p: PendingWake, buffer: Buffer)
    requires Untouched(u, w.gate.db) && IsDispatch(u.cfg, Wakes(w.gate), w.now, c, LinksOf(w), p, buffer)
    ensures OwnPost(u, p) == Posted(p.session, buffer, Some(p.msgId)) == Composed(u, w, c)
  {
    assert Get(w.gate.db, u.cfg.key(LocalKey(c.deviceId))) == Get(u.provisioned, u.cfg.key(LocalKey(c.deviceId)));
  }

  lemma EnterRepeats(u: Setup, w: WakeState, now: int, p: PendingWake, buffer: Buffer, id: string)
    requires Repeats(u, w.pending, w.trace, id) && IsUntouched(w.trace, p.msgId)
    requires OwnPost(u, p) == Posted(p.session, buffer, Some(p.msgId))
    ensures Repeats(u, Entered(u.cfg, w, now, p, buffer).pending, Entered(u.cfg, w, now, p, buffer).trace, id)
  {
    var v := Entered(u.cfg, w, now, p, buffer);
    var notes := [Posted(p.session, buffer, Some(p.msgId)), Published(now, p.msgId, Dispatched)];
    if id == p.msgId {
      UntouchedHasNoPosts(w.trace, id);
      AllPostsConcat(w.trace, notes, id, OwnPost(u, p));
    } else {
      NoPostsKeep(u, w.pending, v.pending, w.trace, notes, id);
    }
  }

  /** A tick sends for an entry what the entry stands for, and nothing for anything else. */
  ghost predicate OwnPosts(u: Setup, pending: map<string, PendingWake>, notes: seq<Note>, id: string) {
    if id in pending then AllPosts(notes, id, OwnPost(u, pending[id])) else NoPosts(notes, id)
  }

  lemma EntryPosts(u: Setup, w: WakeState, k: string, now: int, links: Links, id: string)
    requires Untouched(u, w.db) && KeysMatch(w.pending) && k in w.pending
    ensures OwnPosts(u, w.pending, TickNotes(u.cfg, w.db, w.pending[k], now, links), id)
  {
    var name := LocalKey(w.pending[k].deviceId);
    assert Get(w.db, u.cfg.key(name)) == Get(u.provisioned, u.cfg.key(name));
  }

  lemma OwnPostsConcat(u: Setup, pending: map<string, PendingWake>, a: seq<Note>, b: seq<Note>, id: string)
    requires OwnPosts(u, pending, a, id) && OwnPosts(u, pending, b, id)
    ensures OwnPosts(u, pending, a + b, id)
  {
    if id in pending { AllPostsConcat(a, b, id, OwnPost(u, pending[id])); }
  }

  lemma {:induction false} OrderPosts(u: Setup, w: WakeState, now: int, links: Links, order: seq<string>, id: string)
    requires Untouched(u, w.db) && KeysMatch(w.pending) && forall k | k in order :: k in w.pending
    ensures OwnPosts(u, w.pending, NotesInOrder(u.cfg, w, now, links, order), id)
  {
    if order != [] {
      var n := |order| - 1;
      OrderPosts(u, w, now, links, order[..n], id);
      EntryPosts(u, w, order[n], now, links, id);
      OwnPostsConcat(u, w.pending, NotesInOrder(u.cfg, w, now, links, order[..n]),
        TickNotes(u.cfg, w.db, w.pending[order[n]], now, links), id);
    }
  }

  lemma TickRepeats(u: Setup, w: WakeState, now: int, links: Links, order: seq<string>, id: string)
    requires Repeats(u, w.pending, w.trace, id) && Untouched(u, w.db) && KeysMatch(w.pending)
    requires IsOrder(order, w.pending.Keys)
    ensures Repeats(u, Ticked(u.cfg, w, now, links, order).pending, Ticked(u.cfg, w, now, links, order).trace, id)
  {
    var v, notes := Ticked(u.cfg, w, now, links, order), NotesInOrder(u.cfg, w, now, links, order);
    OrderPosts(u, w, now, links, order, id);
    if id in w.pending {
      AllPostsConcat(w.trace, notes, id, OwnPost(u, w.pending[id]));
      assert id in v.pending ==> OwnPost(u, v.pending[id]) == OwnPost(u, w.pending[id]);
    } else {
      NoPostsKeep(u, w.pending, v.pending, w.trace, notes, id);
    }
  }

  lemma MarksRepeat(u: Setup, w: WakeState, now: int, r: Request, id: string)
    requires Repeats(u, w.pending, w.trace, id)
    ensures Repeats(u, AfterMarks(u.cfg, w, now, r).pending, AfterMarks(u.cfg, w, now, r).trace, id)
  {
    var v := AfterMarks(u.cfg, w, now, r);
    var notes := if v.trace == w.trace then [] else [v.trace[|w.trace|]];
    assert v.trace == w.trace + notes;
    NoPostsKeep(u, w.pending, v.pending, w.trace, notes, id);
  }

  lemma QuietRepeats(u: Setup, a: WakeState, b: WakeState, id: string)
    requires IsQuietStep(a, b) && Repeats(u, a.pending, a.trace, id)
    ensures Repeats(u, b.pending, b.trace, id)
  {
    var notes :| IsReplies(notes) && b.trace == a.trace + notes;
    RepliesAreQuiet(notes, id);
    NoPostsKeep(u, a.pending, b.pending, a.trace, notes, id);
  }

  lemma CommandRepeats(u: Setup, w: World, c: Call, id: string)
    requires Repeats(u, w.gate.pending, w.gate.trace, id) && Untouched(u, w.gate.db)
    requires DispatchTime(u, w, Command(c)) != [] ==> IsUntouched(w.gate.trace, MsgId(c.wall))
    ensures Repeats(u, Sending(u, w, c).0.pending, Sending(u, w, c).0.trace, id)
  {
    var p, buffer := SendShape(u.cfg, Wakes(w.gate), w.now, c, LinksOf(w));
    if Sending(u, w, c).1.Sent? {
      DispatchIsOwnPost(u, w, c, p, buffer);
      EnterRepeats(u, Wakes(w.gate), w.now, p, buffer, id);
    }
  }

  lemma NextRepeats(u: Setup, w: World, e: Event, id: string)
    requires Untouched(u, w.gate.db) && KeysMatch(w.gate.pending) && Possible(w, e)
    requires Repeats(u, w.gate.pending, w.gate.trace, id)
    requires DispatchTime(u, w, e) != [] ==> IsUntouched(w.gate.trace, MsgId(DispatchTime(u, w, e)[0]))
    ensures Repeats(u, Next(u, w, e).gate.pending, Next(u, w, e).gate.trace, id)
  {
    match e {
      case JsonLine(s, r) => MarksRepeat(u, Wakes(w.gate), w.now, r, id);
      case Command(c) => CommandRepeats(u, w, c, id);
      case Tick(order) => TickRepeats(u, Wakes(w.gate), w.now, LinksOf(w), order, id);
      case _ =>
    }
    NextOnWakes(u, w, e);
    QuietRepeats(u, Core(u, w, e), Wakes(Next(u, w, e).gate), id);
  }

  /** Over every run with distinct dispatch times: all transmissions for a command are the same buffer to the same
      session; and while it is pending that is its stored document, or the wake frame of its device. */
  lemma {:induction false} TransmissionsRepeat(u: Setup, events: seq<Event>, id: string)
    requires SeparatesFamilies(u.cfg.key) && IsRun(u, events) && Distinct(DispatchTimes(u, events))
    ensures Repeats(u, Run(u, events).gate.pending, Run(u, events).gate.trace, id)
  {
    if events == [] {
      assert AllPosts([], id, Published(0, id, Done));
    } else {
      var n := |events| - 1;
      FreshDispatch(u, events);
      TransmissionsRepeat(u, events[..n], id);
      RunIsSafe(u, events[..n]);
      RunKeepsProvisioned(u, events[..n]);
      NextRepeats(u, Run(u, events[..n]), events[n], id);
    }
  }

  // ---- that buffer is the one composed at the dispatch ----

  lemma {:induction false} TraceGrows(u: Setup, events: seq<Event>, n: nat)
    requires IsRun(u, events) && n <= |events|
    ensures IsRun(u, events[..n]) && Run(u, events[..n]).gate.trace <= Run(u, events).gate.trace
    decreases |events|
  {
    var last := |events| - 1;
    if n == |events| {
      assert events[..n] == events;
    } else {
      assert events[..last][..n] == events[..n];
      TraceGrows(u, events[..last], n);
      RunIsSafe(u, events[..last]);
      var notes := NextAddsFittingNotes(u, Run(u, events[..last]), events[last]);
    }
  }

  /** The n-th event of a run, as a step. */
  lemma StepOfRun(u: Setup, events: seq<Event>, n: nat)
    requires IsRun(u, events) && n < |events|
    ensures IsRun(u, events[..n]) && Possible(Run(u, events[..n]), events[n])
    ensures IsRun(u, events[..n + 1]) && Run(u, events[..n + 1]) == Next(u, Run(u, events[..n]), events[n])
  {
    TraceGrows(u, events, n);
    TraceGrows(u, events, n + 1);
    assert events[..n + 1][..n] == events[..n];
  }

  /** A sent command leaves what it composed in the history. */
  lemma ComposedIsPosted(u: Setup, w: World, c: Call)
    requires Untouched(u, w.gate.db) && Sending(u, w, c).1.Sent?
    ensures c.deviceId in w.gate.sessions && w.gate.sessions[c.deviceId] in LinksOf(w)
    ensures Composed(u, w, c) in Next(u, w, Command(c)).gate.trace && IsPostFor(Composed(u, w, c), MsgId(c.wall))
  {
    var p, buffer := SendShape(u.cfg, Wakes(w.gate), w.now, c, LinksOf(w));
    DispatchIsOwnPost(u, w, c, p, buffer);
    assert Next(u, w, Command(c)).gate.trace[|w.gate.trace|] == Composed(u, w, c);
  }

  lemma OnlyPost(trace: seq<Note>, id: string, post: Note)
    requires post in trace && IsPostFor(post, id) && exists other :: AllPosts(trace, id, other)
    ensures AllPosts(trace, id, post)
  {}

  /** Over every run with distinct dispatch times: whatever is ever transmitted for a command, first or again, is what
      its dispatch composed: the same id, command, parameters, sequence number and expiry to the same session. */
  lemma DispatchIsRepeated(u: Setup, events: seq<Event>, n: nat)
    requires SeparatesFamilies(u.cfg.key) && IsRun(u, events) && Distinct(DispatchTimes(u, events))
    requires n < |events| && events[n].Command?
    ensures IsRun(u, events[..n])
    ensures
      var w, c := Run(u, events[..n]), events[n].call;
      Sending(u, w, c).1.Sent? ==>
        && c.deviceId in w.gate.sessions && w.gate.sessions[c.deviceId] in LinksOf(w)
        && AllPosts(Run(u, events).gate.trace, MsgId(c.wall), Composed(u, w, c))
  {
    StepOfRun(u, events, n);
    TraceGrows(u, events, n + 1);
    var w, c := Run(u, events[..n]), events[n].call;
    if Sending(u, w, c).1.Sent? {
      RunKeepsProvisioned(u, events[..n]);
      ComposedIsPosted(u, w, c);
      TransmissionsRepeat(u, events, MsgId(c.wall));
      OnlyPost(Run(u, events).gate.trace, MsgId(c.wall), Composed(u, w, c));
    }
  }
}
