/** How commands end over every run: what an acknowledgement or completion takes, and when a failure is certain. */
module Endings {
  import opened Bytes
  import opened Model
  import opened Redis
  import opened Dispatcher
  import opened Timing
  import opened Session
  import opened World
  import opened Histories
  import opened Coverage
  import opened Transmissions
  import opened Effects

  // ---- acknowledged and done, only by a device ----

  /** A JSON line that acknowledges the command, or completes it. */
  predicate Marks(e: Event, id: string, status: Status) {
    && e.JsonLine? && id != ""
    && ((status == Acked && e.request == WakeAck(id)) || (status == Done && e.request == TaskDone(id)))
  }

  ghost predicate NeverMarked(events: seq<Event>, id: string, status: Status) {
    forall i | 0 <= i < |events| :: !Marks(events[i], id, status)
  }

  ghost predicate Lacks(t: seq<(int, Status)>, status: Status) {
    forall i | 0 <= i < |t| :: t[i].1 != status
  }

  lemma MarkLacks(trace: seq<Note>, now: int, msgId: string, other: Status, id: string, status: Status)
    requires Lacks(Statuses(trace, id), status) && (msgId == id ==> other != status)
    ensures Lacks(Statuses(trace + [Published(now, msgId, other)], id), status)
  {
    TraceConcat(trace, [Published(now, msgId, other)], id);
    if msgId == id {
      OnePublished(now, id, other);
    } else {
      QuietNotes([Published(now, msgId, other)], id);
    }
  }

  lemma JsonLacks(cfg: Config, w: WakeState, now: int, r: Request, id: string, status: Status)
    requires Lacks(Statuses(w.trace, id), status) && (status == Acked || status == Done)
    requires !(status == Acked && r == WakeAck(id) && id != "") && !(status == Done && r == TaskDone(id) && id != "")
    ensures Lacks(Statuses(AfterMarks(cfg, w, now, r).trace, id), status)
  {
    match r {
      case WakeAck(msgId) => if msgId != "" { MarkLacks(w.trace, now, msgId, Acked, id, status); }
      case TaskDone(msgId) => if msgId != "" { MarkLacks(w.trace, now, msgId, Done, id, status); }
      case _ =>
    }
  }

  lemma EnterLacks(cfg: Config, w: WakeState, now: int, p: PendingWake, buffer: Buffer, id: string, status: Status)
    requires Lacks(Statuses(w.trace, id), status) && status != Dispatched
    ensures Lacks(Statuses(Entered(cfg, w, now, p, buffer).trace, id), status)
  {
    var notes := [Posted(p.session, buffer, Some(p.msgId)), Published(now, p.msgId, Dispatched)];
    TraceConcat(w.trace, notes, id);
    if id == p.msgId {
      DispatchNotes(p.session, buffer, now, id);
    } else {
      QuietNotes(notes, id);
    }
  }

  lemma CommandLacks(u: Setup, w: World, c: Call, id: string, status: Status)
    requires Lacks(Statuses(w.gate.trace, id), status) && status != Dispatched
    ensures Lacks(Statuses(Sending(u, w, c).0.trace, id), status)
  {
    var p, buffer := SendShape(u.cfg, Wakes(w.gate), w.now, c, LinksOf(w));
    EnterLacks(u.cfg, Wakes(w.gate), w.now, p, buffer, id, status);
  }

  lemma TickLacks(cfg: Config, w: WakeState, now: int, links: Links, order: seq<string>, id: string, status: Status)
    requires IsOrder(order, w.pending.Keys) && KeysMatch(w.pending)
    requires Lacks(Statuses(w.trace, id), status) && (status == Acked || status == Done)
    ensures Lacks(Statuses(Ticked(cfg, w, now, links, order).trace, id), status)
  {
    TickedStatuses(cfg, w, now, links, order, id);
    if id in w.pending { OwnTickNotes(cfg, w.db, w.pending[id], now, links); }
  }

  lemma NextLacks(u: Setup, w: World, e: Event, id: string, status: Status)
    requires Possible(w, e) && KeysMatch(w.gate.pending) && (status == Acked || status == Done)
    requires Lacks(Statuses(w.gate.trace, id), status) && !Marks(e, id, status)
    ensures Lacks(Statuses(Next(u, w, e).gate.trace, id), status)
  {
    match e {
      case JsonLine(s, r) => JsonLacks(u.cfg, Wakes(w.gate), w.now, r, id, status);
      case Command(c) => CommandLacks(u, w, c, id, status);
      case Tick(order) => TickLacks(u.cfg, Wakes(w.gate), w.now, LinksOf(w), order, id, status);
      case _ =>
    }
    NextOnWakes(u, w, e);
    QuietStepKeepsHistory(u.cfg, Core(u, w, e), Wakes(Next(u, w, e).gate), id);
  }

  lemma {:induction false} UnmarkedLacks(u: Setup, events: seq<Event>, id: string, status: Status)
    requires IsRun(u, events) && (status == Acked || status == Done)
    requires NeverMarked(events, id, status)
    ensures Lacks(Statuses(Run(u, events).gate.trace, id), status)
  {
    if events != [] {
      var n := |events| - 1;
      UnmarkedLacks(u, events[..n], id, status);
      RunIsSafe(u, events[..n]);
      NextLacks(u, Run(u, events[..n]), events[n], id, status);
    }
  }

  /** Over every run: a command is acknowledged only by a line that acknowledges it, and done only by one that
      completes it. */
  lemma EndingHasCause(u: Setup, events: seq<Event>, id: string, status: Status)
    requires IsRun(u, events) && (status == Acked || status == Done)
    requires !Lacks(Statuses(Run(u, events).gate.trace, id), status)
    ensures exists i :: 0 <= i < |events| && Marks(events[i], id, status)
  {
    if NeverMarked(events, id, status) { UnmarkedLacks(u, events, id, status); }
  }

  /** Over every run with distinct dispatch times and ticks at most a gap apart: a serviced command that no line
      acknowledges or completes has failed once its deadline is past, after exactly the permitted retries, and inside
      the window. */
  lemma UnansweredFails(u: Setup, events: seq<Event>, gap: int, id: string)
    requires IsRun(u, events) && Distinct(DispatchTimes(u, events))
    requires u.cfg.ackTimeoutMs >= 0 && gap >= 0 && IsTimely(u, events, gap, id)
    requires NeverMarked(events, id, Acked) && NeverMarked(events, id, Done)
    requires Statuses(Run(u, events).gate.trace, id) != []
    requires Run(u, events).now > Deadline(u.cfg, gap, Statuses(Run(u, events).gate.trace, id)[0].0)
    ensures
      var t, m := Statuses(Run(u, events).gate.trace, id), RetryLimit(u.cfg);
      && id !in Run(u, events).gate.pending && IsEnded(u.cfg, t, m)
      && t[m + 1].1 == Failed(m) && FailsInWindow(u.cfg, gap, t)
  {
    var k := CommandFate(u, events, gap, id);
    UnmarkedLacks(u, events, id, Acked);
    UnmarkedLacks(u, events, id, Done);
  }

  // ---- an ended command stays ended ----

  /** The command is not pending, and its history is this. */
  ghost predicate IsOver(w: World, id: string, t: seq<(int, Status)>) {
    id !in w.gate.pending && Statuses(w.gate.trace, id) == t
  }

  lemma OtherNotes(trace: seq<Note>, notes: seq<Note>, id: string)
    requires Quiet(notes, id)
    ensures Statuses(trace + notes, id) == Statuses(trace, id)
  {
    TraceConcat(trace, notes, id);
    QuietNotes(notes, id);
  }

  lemma JsonStaysOver(cfg: Config, w: WakeState, now: int, r: Request, id: string)
    requires id !in w.pending
    ensures id !in AfterMarks(cfg, w, now, r).pending
    ensures Statuses(AfterMarks(cfg, w, now, r).trace, id) == Statuses(w.trace, id)
  {
    var msgId := MarkedId(r);
    if msgId in w.pending && msgId != "" {
      OtherNotes(w.trace, [Published(now, msgId, if r.WakeAck? then Acked else Done)], id);
    }
  }

  lemma CommandStaysOver(u: Setup, w: World, c: Call, id: string)
    requires id !in w.gate.pending && Statuses(w.gate.trace, id) != []
    requires DispatchTime(u, w, Command(c)) != [] ==> IsUntouched(w.gate.trace, MsgId(c.wall))
    ensures id !in Sending(u, w, c).0.pending && Statuses(Sending(u, w, c).0.trace, id) == Statuses(w.gate.trace, id)
  {
    var p, buffer := SendShape(u.cfg, Wakes(w.gate), w.now, c, LinksOf(w));
    if Sending(u, w, c).1.Sent? {
      OtherNotes(w.gate.trace, [Posted(p.session, buffer, Some(p.msgId)), Published(w.now, p.msgId, Dispatched)], id);
    }
  }

  lemma NextStaysOver(u: Setup, w: World, e: Event, id: string)
    requires Possible(w, e) && KeysMatch(w.gate.pending)
    requires id !in w.gate.pending && Statuses(w.gate.trace, id) != []
    requires DispatchTime(u, w, e) != [] ==> IsUntouched(w.gate.trace, MsgId(DispatchTime(u, w, e)[0]))
    ensures IsOver(Next(u, w, e), id, Statuses(w.gate.trace, id))
  {
    match e {
      case JsonLine(s, r) => JsonStaysOver(u.cfg, Wakes(w.gate), w.now, r, id);
      case Command(c) => CommandStaysOver(u, w, c, id);
      case Tick(order) =>
        TickedStatuses(u.cfg, Wakes(w.gate), w.now, LinksOf(w), order, id);
        assert Statuses(w.gate.trace, id) + [] == Statuses(w.gate.trace, id);
      case _ =>
    }
    NextOnWakes(u, w, e);
    QuietStepKeepsHistory(u.cfg, Core(u, w, e), Wakes(Next(u, w, e).gate), id);
  }

  /** Over every run with distinct dispatch times: a command with a history that is not pending any more never is
      again, and its history does not change. */
  lemma {:induction false} EndedStaysEnded(u: Setup, events: seq<Event>, n: nat, id: string)
    requires IsRun(u, events) && Distinct(DispatchTimes(u, events)) && n <= |events| && IsRun(u, events[..n])
    requires id !in Run(u, events[..n]).gate.pending && Statuses(Run(u, events[..n]).gate.trace, id) != []
    ensures IsOver(Run(u, events), id, Statuses(Run(u, events[..n]).gate.trace, id))
    decreases |events|
  {
    if n == |events| {
      assert events[..n] == events;
    } else {
      var last := |events| - 1;
      assert events[..last][..n] == events[..n];
      FreshDispatch(u, events);
      EndedStaysEnded(u, events[..last], n, id);
      RunIsSafe(u, events[..last]);
      NextStaysOver(u, Run(u, events[..last]), events[last], id);
    }
  }

  lemma MarkEnds(u: Setup, w: World, e: Event, id: string, status: Status)
    requires Possible(w, e) && Marks(e, id, status) && id in w.gate.pending
    ensures IsOver(Next(u, w, e), id, Statuses(w.gate.trace, id) + [(w.now, status)])
  {
    var note := [Published(w.now, id, status)];
    TraceConcat(w.gate.trace, note, id);
    OnePublished(w.now, id, status);
    if status == Acked {
      AckEffect(u, w, e.sid, id);
    } else {
      DoneEffect(u, w, e.sid, id);
      OtherNotes(w.gate.trace + note, [Posted(e.sid, Line(TaskDoneAck(id)), None)], id);
    }
  }

  /** Over every run with distinct dispatch times: a line that acknowledges or completes a pending command ends it then
      and there, and for good. */
  lemma MarkEndsForGood(u: Setup, events: seq<Event>, n: nat, id: string, status: Status)
    requires IsRun(u, events) && Distinct(DispatchTimes(u, events))
    requires n < |events| && IsRun(u, events[..n]) && id in Run(u, events[..n]).gate.pending
    requires Marks(events[n], id, status)
    ensures
      var w := Run(u, events[..n]);
      IsOver(Run(u, events), id, Statuses(w.gate.trace, id) + [(w.now, status)])
  {
    StepOfRun(u, events, n);
    MarkEnds(u, Run(u, events[..n]), events[n], id, status);
    EndedStaysEnded(u, events, n + 1, id);
  }

  // ---- two commands in one millisecond ----

  /** A login, and the same command twice in the millisecond. */
  lemma SameMillisecondRun(u: Setup, d: string) returns (events: seq<Event>)
    requires d != ""
    ensures IsRun(u, events) && DispatchTimes(u, events) == [0, 0]
    ensures !Lifecycle(u.cfg, Wakes(Run(u, events).gate))
  {
    var ids := iset{d};
    var first, w := FirstCommand(u, 0, d, ids);
    var again := Command(FirstCall(d));
    WitnessSnoc(u, first, again, 0, MsgId(0), ids, [0], w);
    events := first + [again];
    assert !Distinct([0, 0]);
    LifecycleIffDistinct(u, events);
  }

  // ---- every dispatch and every retry comes with one transmission ----

  /** How often the command was said to be sent. */
  function Announcements(t: seq<(int, Status)>): nat {
    if t == [] then 0
    else
      var status := t[|t| - 1].1;
      Announcements(t[..|t| - 1]) + if status == Dispatched || status.Retrying? then 1 else 0
  }

  lemma {:induction false} AnnouncementsConcat(a: seq<(int, Status)>, b: seq<(int, Status)>)
    ensures Announcements(a + b) == Announcements(a) + Announcements(b)
  {
    if b == [] {
      assert a + b == a;
    } else {
      assert (a + b)[..|a + b| - 1] == a + b[..|b| - 1];
      AnnouncementsConcat(a, b[..|b| - 1]);
    }
  }

  lemma OneAnnouncement(at: int, status: Status)
    ensures Announcements([(at, status)]) == if status == Dispatched || status.Retrying? then 1 else 0
  {
    assert [(at, status)][..0] == [];
  }

  lemma {:induction false} ActiveAnnouncements(t: seq<(int, Status)>, k: nat)
    requires IsActive(t, k)
    ensures Announcements(t) == k + 1
  {
    if k == 0 {
      assert t[..0] == [];
    } else {
      ActiveAnnouncements(t[..k], k - 1);
    }
  }

  lemma EndedAnnouncements(cfg: Config, t: seq<(int, Status)>, k: nat)
    requires IsEnded(cfg, t, k)
    ensures Announcements(t) == k + 1
  {
    ActiveAnnouncements(t[..k + 1], k);
    assert t[..|t| - 1] == t[..k + 1];
  }

  function AllSends(trace: seq<Note>, id: string): nat {
    Sends(trace, id, true) + Sends(trace, id, false)
  }

  /** As many transmissions as announcements, in a history and in what is added to it. */
  ghost predicate Balanced(trace: seq<Note>, id: string) {
    AllSends(trace, id) == Announcements(Statuses(trace, id))
  }

  lemma BalancedConcat(a: seq<Note>, b: seq<Note>, id: string)
    requires Balanced(a, id) && Balanced(b, id)
    ensures Balanced(a + b, id)
  {
    TraceConcat(a, b, id);
    AnnouncementsConcat(Statuses(a, id), Statuses(b, id));
  }

  lemma QuietIsBalanced(notes: seq<Note>, id: string)
    requires Quiet(notes, id)
    ensures Balanced(notes, id)
  {
    QuietNotes(notes, id);
  }

  lemma EndingIsBalanced(at: int, msgId: string, status: Status, id: string)
    requires status != Dispatched && !status.Retrying?
    ensures Balanced([Published(at, msgId, status)], id)
  {
    if msgId == id {
      OnePublished(at, id, status);
      OneAnnouncement(at, status);
    } else {
      QuietIsBalanced([Published(at, msgId, status)], id);
    }
  }

  lemma DispatchIsBalanced(sid: Sid, buffer: Buffer, now: int, msgId: string, id: string)
    ensures Balanced([Posted(sid, buffer, Some(msgId)), Published(now, msgId, Dispatched)], id)
  {
    if msgId == id {
      DispatchNotes(sid, buffer, now, id);
      OneAnnouncement(now, Dispatched);
    } else {
      QuietIsBalanced([Posted(sid, buffer, Some(msgId)), Published(now, msgId, Dispatched)], id);
    }
  }

  /** Every pending low-power command has a key to send. */
  ghost predicate KeysStored(u: Setup, pending: map<string, PendingWake>) {
    forall id | id in pending && pending[id].protocol == LOWPOWER ::
      Get(u.provisioned, u.cfg.key(LocalKey(pending[id].deviceId))).Some?
  }

  lemma OwnTickIsBalanced(u: Setup, w: WakeState, now: int, links: Links, id: string)
    requires Untouched(u, w.db) && KeysMatch(w.pending) && KeysStored(u, w.pending)
    requires id in w.pending ==> w.pending[id].protocol != UNKNOWN
    ensures Balanced(OwnNotes(u.cfg, w, now, links, id), id)
  {
    if id in w.pending {
      var p := w.pending[id];
      var name := LocalKey(p.deviceId);
      assert Get(w.db, u.cfg.key(name)) == Get(u.provisioned, u.cfg.key(name));
      OwnTickNotes(u.cfg, w.db, p, now, links);
      OneAnnouncement(now, Failed(p.retryCount));
      OneAnnouncement(now, Retrying(p.retryCount + 1));
      RetryIsOneSend(u.cfg, w.db, p);
    }
  }

  lemma RetryIsOneSend(cfg: Config, db: Db, p: PendingWake)
    requires p.protocol != UNKNOWN && (p.protocol == LOWPOWER ==> Get(db, cfg.key(LocalKey(p.deviceId))).Some?)
    ensures AllSends(RetrySends(cfg, db, p), p.msgId) == 1
  {
    var sends := RetrySends(cfg, db, p);
    assert sends == [Posted(p.session, sends[0].buffer, Some(p.msgId))];
    OnePosted(p.session, sends[0].buffer, p.msgId);
  }

  lemma TickIsBalanced(u: Setup, w: WakeState, now: int, links: Links, order: seq<string>, id: string)
    requires Untouched(u, w.db) && KeysMatch(w.pending) && KeysStored(u, w.pending)
    requires id in w.pending ==> w.pending[id].protocol != UNKNOWN
    requires IsOrder(order, w.pending.Keys) && Balanced(w.trace, id)
    ensures Balanced(Ticked(u.cfg, w, now, links, order).trace, id)
  {
    var own := OwnNotes(u.cfg, w, now, links, id);
    TickedStatuses(u.cfg, w, now, links, order, id);
    OwnTickIsBalanced(u, w, now, links, id);
    AnnouncementsConcat(Statuses(w.trace, id), Statuses(own, id));
  }

  lemma EndingKeepsBalanced(trace: seq<Note>, at: int, msgId: string, status: Status, id: string)
    requires Balanced(trace, id) && status != Dispatched && !status.Retrying?
    ensures Balanced(trace + [Published(at, msgId, status)], id)
  {
    EndingIsBalanced(at, msgId, status, id);
    BalancedConcat(trace, [Published(at, msgId, status)], id);
  }

  lemma SameIsBalanced(a: seq<Note>, b: seq<Note>, id: string)
    requires Balanced(a, id) && a == b
    ensures Balanced(b, id)
  {}

  lemma JsonIsBalanced(cfg: Config, w: WakeState, now: int, r: Request, id: string)
    requires Balanced(w.trace, id)
    ensures Balanced(AfterMarks(cfg, w, now, r).trace, id)
  {
    var msgId, trace := MarkedId(r), AfterMarks(cfg, w, now, r).trace;
    var status := if r.WakeAck? then Acked else Done;
    EndingKeepsBalanced(w.trace, now, msgId, status, id);
    if msgId != "" && msgId in w.pending {
      SameIsBalanced(w.trace + [Published(now, msgId, status)], trace, id);
    } else {
      SameIsBalanced(w.trace, trace, id);
    }
  }

  lemma CommandIsBalanced(u: Setup, w: World, c: Call, id: string)
    requires Balanced(w.gate.trace, id)
    ensures Balanced(Sending(u, w, c).0.trace, id)
  {
    var p, buffer := SendShape(u.cfg, Wakes(w.gate), w.now, c, LinksOf(w));
    if Sending(u, w, c).1.Sent? {
      DispatchIsBalanced(p.session, buffer, w.now, p.msgId, id);
      var notes := [Posted(p.session, buffer, Some(p.msgId)), Published(w.now, p.msgId, Dispatched)];
      BalancedConcat(w.gate.trace, notes, id);
    }
  }

  lemma CommandKeepsKeysStored(u: Setup, w: World, c: Call)
    requires Untouched(u, w.gate.db) && KeysStored(u, w.gate.pending)
    ensures KeysStored(u, Sending(u, w, c).0.pending)
  {
    var p, buffer := SendShape(u.cfg, Wakes(w.gate), w.now, c, LinksOf(w));
    assert Get(w.gate.db, u.cfg.key(LocalKey(c.deviceId))) == Get(u.provisioned, u.cfg.key(LocalKey(c.deviceId)));
  }

  lemma CoreIsBalanced(u: Setup, w: World, e: Event, id: string)
    requires Possible(w, e) && Untouched(u, w.gate.db) && KeysMatch(w.gate.pending)
    requires id in w.gate.pending ==> w.gate.pending[id].protocol != UNKNOWN
    requires Balanced(w.gate.trace, id) && KeysStored(u, w.gate.pending)
    ensures Balanced(Core(u, w, e).trace, id)
  {
    match e {
      case JsonLine(s, r) => JsonIsBalanced(u.cfg, Wakes(w.gate), w.now, r, id);
      case Command(c) => CommandIsBalanced(u, w, c, id);
      case Tick(order) => TickIsBalanced(u, Wakes(w.gate), w.now, LinksOf(w), order, id);
      case _ =>
    }
  }

  lemma CoreKeepsKeysStored(u: Setup, w: World, e: Event)
    requires Possible(w, e) && Untouched(u, w.gate.db) && KeysStored(u, w.gate.pending)
    ensures KeysStored(u, Core(u, w, e).pending)
  {
    if e.Command? { CommandKeepsKeysStored(u, w, e.call); }
  }

  lemma QuietKeepsBalanced(cfg: Config, a: WakeState, b: WakeState, id: string)
    requires IsQuietStep(a, b) && Balanced(a.trace, id)
    ensures Balanced(b.trace, id)
  {
    QuietStepKeepsHistory(cfg, a, b, id);
  }

  lemma NextIsBalanced(u: Setup, w: World, e: Event, id: string)
    requires Possible(w, e) && Untouched(u, w.gate.db) && Safe(w)
    requires Balanced(w.gate.trace, id) && KeysStored(u, w.gate.pending)
    ensures Balanced(Next(u, w, e).gate.trace, id) && KeysStored(u, Next(u, w, e).gate.pending)
  {
    assert id in w.gate.pending ==> EntryFits(w.conns, w.gate.pending[id]);
    CoreIsBalanced(u, w, e, id);
    CoreKeepsKeysStored(u, w, e);
    NextOnWakes(u, w, e);
    QuietKeepsBalanced(u.cfg, Core(u, w, e), Wakes(Next(u, w, e).gate), id);
  }

  /** Over every run: each dispatch and each retry that is published comes with exactly one transmission, and nothing
      else is transmitted. */
  lemma {:induction false} RunIsBalanced(u: Setup, events: seq<Event>, id: string)
    requires SeparatesFamilies(u.cfg.key) && IsRun(u, events)
    ensures AllSends(Run(u, events).gate.trace, id) == Announcements(Statuses(Run(u, events).gate.trace, id))
    ensures KeysStored(u, Run(u, events).gate.pending)
  {
    if events != [] {
      var n := |events| - 1;
      RunIsBalanced(u, events[..n], id);
      RunIsSafe(u, events[..n]);
      RunKeepsProvisioned(u, events[..n]);
      NextIsBalanced(u, Run(u, events[..n]), events[n], id);
    }
  }

  // ---- and always of the kind that the dispatch chose ----

  lemma {:induction false} OneKind(trace: seq<Note>, id: string, post: Note)
    requires AllPosts(trace, id, post) && post.Posted?
    ensures Sends(trace, id, !post.buffer.Line?) == 0
  {
    if trace != [] {
      var n := |trace| - 1;
      assert forall i | 0 <= i < n :: trace[..n][i] == trace[i];
      OneKind(trace[..n], id, post);
    }
  }

  /** What a command's history and its transmissions look like after k retries. */
  ghost predicate GoesWithEveryEvent(cfg: Config, w: World, id: string, k: nat, json: bool) {
    && (id in w.gate.pending ==> IsActive(Statuses(w.gate.trace, id), k))
    && (id !in w.gate.pending ==> IsEnded(cfg, Statuses(w.gate.trace, id), k))
    && Sends(w.gate.trace, id, json) == k + 1 && Sends(w.gate.trace, id, !json) == 0
  }

  lemma SentWithEveryEvent(u: Setup, events: seq<Event>, n: nat) returns (k: nat)
    requires SeparatesFamilies(u.cfg.key) && IsRun(u, events) && Distinct(DispatchTimes(u, events))
    requires n < |events| && events[n].Command? && IsRun(u, events[..n])
    requires CanSend(u.cfg, Wakes(Run(u, events[..n]).gate), events[n].call, LinksOf(Run(u, events[..n])))
    ensures GoesWithEveryEvent(u.cfg, Run(u, events), MsgId(events[n].call.wall), k,
      Composed(u, Run(u, events[..n]), events[n].call).buffer.Line?)
  {
    var w, before, c := Run(u, events), Run(u, events[..n]), events[n].call;
    var id, post := MsgId(c.wall), Composed(u, before, c);
    DispatchIsRepeated(u, events, n);
    PostRemains(u, events, n);
    OneKind(w.gate.trace, id, post);
    RunIsBalanced(u, events, id);
    DistinctRunKeepsLifecycle(u, events);
    assert Coherent(u.cfg, w.gate.pending, w.gate.trace, id);
    if id in w.gate.pending {
      k := w.gate.pending[id].retryCount;
      ActiveAnnouncements(Statuses(w.gate.trace, id), k);
    } else {
      PostIsSend(w.gate.trace, id, post);
      k :| IsEnded(u.cfg, Statuses(w.gate.trace, id), k);
      EndedAnnouncements(u.cfg, Statuses(w.gate.trace, id), k);
    }
  }

  lemma {:induction false} PostIsSend(trace: seq<Note>, id: string, post: Note)
    requires post in trace && IsPostFor(post, id)
    ensures !IsUntouched(trace, id)
  {
    var n := |trace| - 1;
    if post == trace[n] {
      assert Sends(trace, id, post.buffer.Line?) > 0;
    } else {
      assert trace == trace[..n] + [trace[n]];
      PostIsSend(trace[..n], id, post);
    }
  }

  /** Over every run with distinct dispatch times: a command to a JSON session, unless it asks for a frame, is
      transmitted with its dispatch and with every retry, as a line each time. */
  lemma LineGoesWithEveryEvent(u: Setup, events: seq<Event>, n: nat) returns (k: nat)
    requires SeparatesFamilies(u.cfg.key) && IsRun(u, events) && Distinct(DispatchTimes(u, events))
    requires n < |events| && events[n].Command? && IsRun(u, events[..n])
    requires CanSend(u.cfg, Wakes(Run(u, events[..n]).gate), events[n].call, LinksOf(Run(u, events[..n])))
    requires !GoesAsFrame(Run(u, events[..n]), events[n].call)
    ensures GoesWithEveryEvent(u.cfg, Run(u, events), MsgId(events[n].call.wall), k, true)
  {
    k := SentWithEveryEvent(u, events, n);
  }

  /** And a command to a low-power session, or one that asks for a frame, as a frame each time. */
  lemma FrameGoesWithEveryEvent(u: Setup, events: seq<Event>, n: nat) returns (k: nat)
    requires SeparatesFamilies(u.cfg.key) && IsRun(u, events) && Distinct(DispatchTimes(u, events))
    requires n < |events| && events[n].Command? && IsRun(u, events[..n])
    requires CanSend(u.cfg, Wakes(Run(u, events[..n]).gate), events[n].call, LinksOf(Run(u, events[..n])))
    requires GoesAsFrame(Run(u, events[..n]), events[n].call)
    ensures GoesWithEveryEvent(u.cfg, Run(u, events), MsgId(events[n].call.wall), k, false)
  {
    k := SentWithEveryEvent(u, events, n);
  }

  predicate GoesAsFrame(w: World, c: Call) {
    c.cmd == "lowpower_wakeup"
    || (c.deviceId in w.gate.sessions && w.gate.sessions[c.deviceId] in w.conns
        && w.conns[w.gate.sessions[c.deviceId]].protocol == LOWPOWER)
  }

  lemma PostRemains(u: Setup, events: seq<Event>, n: nat)
    requires SeparatesFamilies(u.cfg.key) && IsRun(u, events)
    requires n < |events| && events[n].Command? && IsRun(u, events[..n])
    requires CanSend(u.cfg, Wakes(Run(u, events[..n]).gate), events[n].call, LinksOf(Run(u, events[..n])))
    ensures Composed(u, Run(u, events[..n]), events[n].call) in Run(u, events).gate.trace
  {
    var before, c := Run(u, events[..n]), events[n].call;
    var _, _ := SendShape(u.cfg, Wakes(before.gate), before.now, c, LinksOf(before));
    StepOfRun(u, events, n);
    TraceGrows(u, events, n + 1);
    RunKeepsProvisioned(u, events[..n]);
    ComposedIsPosted(u, before, c);
  }
}
