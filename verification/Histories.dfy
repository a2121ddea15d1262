/** The histories of commands over every run: their shape, their timing, and their stored records. */
module Histories {
  import opened Bytes
  import opened Model
  import opened Codec
  import opened Redis
  import opened Dispatcher
  import opened Timing
  import opened Session
  import opened World

  // ---- what an event does to the dispatcher, apart from what cannot concern it ----

  function AfterMarks(cfg: Config, w: WakeState, now: int, r: Request): WakeState {
    match r
    case WakeAck(id) => if id == "" then w else MarkedAck(w, now, id)
    case TaskDone(id) => if id == "" then w else MarkedDone(cfg, w, now, id)
    case _ => w
  }

  ghost function Core(u: Setup, w: World, e: Event): WakeState
    requires Possible(w, e)
  {
    match e
    case JsonLine(_, r) => AfterMarks(u.cfg, Wakes(w.gate), w.now, r)
    case Command(c) => Sending(u, w, c).0
    case Tick(order) => Ticked(u.cfg, Wakes(w.gate), w.now, LinksOf(w), order)
    case _ => Wakes(w.gate)
  }

  /** Replies and presence updates: no entry and no note of a command. */
  ghost predicate IsQuietStep(a: WakeState, b: WakeState) {
    b.pending == a.pending && exists notes :: IsReplies(notes) && b.trace == a.trace + notes
  }

  ghost predicate IsReplies(notes: seq<Note>) {
    forall n | n in notes :: n.Posted? && n.cause.None?
  }

  lemma RepliesAreQuiet(notes: seq<Note>, id: string)
    requires IsReplies(notes)
    ensures Quiet(notes, id)
  {
    forall i | 0 <= i < |notes|
      ensures notes[i].Posted? && notes[i].cause.None?
    {
      assert notes[i] in notes;
    }
  }

  lemma ReplyOnly(a: WakeState, b: WakeState, n: Note)
    requires b.pending == a.pending && b.trace == a.trace + [n] && n.Posted? && n.cause.None?
    ensures IsQuietStep(a, b)
  {
    assert IsReplies([n]);
  }

  lemma QuietSame(a: WakeState, b: WakeState)
    requires b.pending == a.pending && b.trace == a.trace
    ensures IsQuietStep(a, b)
  {
    assert IsReplies([]) && b.trace == a.trace + [];
  }

  lemma JsonOnWakes(cfg: Config, v: View, s: Sid, now: int, r: Request)
    ensures IsQuietStep(AfterMarks(cfg, Wakes(v.gate), now, r), Wakes(HandleJson(cfg, v, s, now, r).gate))
  {
    var a, b := AfterMarks(cfg, Wakes(v.gate), now, r), Wakes(HandleJson(cfg, v, s, now, r).gate);
    match r {
      case WakeAck(_) => QuietSame(a, b);
      case HostState(_) => QuietSame(a, b);
      case _ => ReplyOnly(a, b, b.trace[|b.trace| - 1]);
    }
  }

  lemma FrameOnWakes(cfg: Config, crypto: Crypto, v: View, s: Sid, now: int, f: Frame, draw: Draw)
    ensures IsQuietStep(Wakes(v.gate), Wakes(HandleFrame(cfg, crypto, v, s, now, f, draw).gate))
  {
    var notes := FrameNotes(cfg, crypto, v, s, now, f, draw);
    assert IsReplies(notes);
  }

  lemma NextOnWakes(u: Setup, w: World, e: Event)
    requires Possible(w, e)
    ensures IsQuietStep(Core(u, w, e), Wakes(Next(u, w, e).gate))
  {
    match e {
      case JsonLine(s, r) => JsonOnWakes(u.cfg, ViewOf(w, s), s, w.now, r);
      case FrameIn(s, f, draw) => FrameOnWakes(u.cfg, u.crypto, ViewOf(w, s), s, w.now, f, draw);
      case _ => QuietSame(Core(u, w, e), Wakes(Next(u, w, e).gate));
    }
  }

  lemma QuietStepKeepsHistory(cfg: Config, a: WakeState, b: WakeState, id: string)
    requires IsQuietStep(a, b)
    ensures Statuses(b.trace, id) == Statuses(a.trace, id)
    ensures forall json :: Sends(b.trace, id, json) == Sends(a.trace, id, json)
    ensures Coherent(cfg, b.pending, b.trace, id) <==> Coherent(cfg, a.pending, a.trace, id)
    ensures IsUntouched(b.trace, id) <==> IsUntouched(a.trace, id)
  {
    var notes :| IsReplies(notes) && b.trace == a.trace + notes;
    RepliesAreQuiet(notes, id);
    QuietKeepsHistory(cfg, a.pending, a.trace, notes, id);
  }

  // ---- the lifecycle, and when it fails ----

  /** The clock readings that made the ids of the commands sent, in order. */
  ghost function DispatchTimes(u: Setup, events: seq<Event>): seq<int>
    requires IsRun(u, events)
  {
    if events == [] then []
    else
      var n := |events| - 1;
      DispatchTimes(u, events[..n]) + DispatchTime(u, Run(u, events[..n]), events[n])
  }

  ghost function DispatchTime(u: Setup, w: World, e: Event): seq<int> {
    if e.Command? && CanSend(u.cfg, Wakes(w.gate), e.call, LinksOf(w)) then [e.call.wall] else []
  }

  ghost predicate Distinct(times: seq<int>) {
    times == [] || (times[|times| - 1] !in times[..|times| - 1] && Distinct(times[..|times| - 1]))
  }

  function Dispatches(t: seq<(int, Status)>): nat {
    if t == [] then 0 else Dispatches(t[..|t| - 1]) + if t[|t| - 1].1 == Dispatched then 1 else 0
  }

  function Occurrences(times: seq<int>, id: string): nat {
    if times == [] then 0
    else Occurrences(times[..|times| - 1], id) + if MsgId(times[|times| - 1]) == id then 1 else 0
  }

  lemma {:induction false} DispatchesConcat(a: seq<(int, Status)>, b: seq<(int, Status)>)
    ensures Dispatches(a + b) == Dispatches(a) + Dispatches(b)
  {
    if b == [] {
      assert a + b == a;
    } else {
      assert (a + b)[..|a + b| - 1] == a + b[..|b| - 1];
      DispatchesConcat(a, b[..|b| - 1]);
    }
  }

  lemma {:induction false} ActiveDispatches(t: seq<(int, Status)>, k: nat)
    requires IsActive(t, k)
    ensures Dispatches(t) == 1
  {
    if k == 0 {
      assert t[..0] == [];
    } else {
      ActiveDispatches(t[..k], k - 1);
    }
  }

  /** A coherent id was dispatched at most once, and one never dispatched has no history at all. */
  lemma CoherentDispatches(cfg: Config, pending: map<string, PendingWake>, trace: seq<Note>, id: string)
    requires Coherent(cfg, pending, trace, id)
    ensures Dispatches(Statuses(trace, id)) <= 1
    ensures Dispatches(Statuses(trace, id)) == 0 <==> IsUntouched(trace, id)
  {
    var t := Statuses(trace, id);
    if id in pending {
      ActiveDispatches(t, pending[id].retryCount);
    } else if !IsUntouched(trace, id) {
      var k :| IsEnded(cfg, t, k);
      ActiveDispatches(t[..k + 1], k);
      assert t[..|t| - 1] == t[..k + 1];
    }
  }

  lemma OneMoreStatus(t: seq<(int, Status)>, own: seq<(int, Status)>)
    requires own == [] || (|own| == 1 && own[0].1 != Dispatched)
    ensures Dispatches(t + own) == Dispatches(t)
  {
    DispatchesConcat(t, own);
    assert own != [] ==> own[..0] == [];
  }

  /** Ticks and marks dispatch nothing. */
  lemma OwnTickStatuses(cfg: Config, w: WakeState, now: int, links: Links, id: string)
    requires KeysMatch(w.pending)
    ensures
      var own := Statuses(OwnNotes(cfg, w, now, links, id), id);
      own == [] || (|own| == 1 && own[0].1 != Dispatched)
  {
    if id in w.pending { OwnTickNotes(cfg, w.db, w.pending[id], now, links); }
  }

  lemma TickDispatches(u: Setup, w: World, order: seq<string>, id: string)
    requires Possible(w, Tick(order)) && KeysMatch(w.gate.pending)
    ensures Dispatches(Statuses(Core(u, w, Tick(order)).trace, id)) == Dispatches(Statuses(w.gate.trace, id))
  {
    var v := Wakes(w.gate);
    TickedStatuses(u.cfg, v, w.now, LinksOf(w), order, id);
    OwnTickStatuses(u.cfg, v, w.now, LinksOf(w), id);
    OneMoreStatus(Statuses(v.trace, id), Statuses(OwnNotes(u.cfg, v, w.now, LinksOf(w), id), id));
  }

  lemma JsonDispatches(cfg: Config, w: WakeState, now: int, r: Request, id: string)
    ensures Dispatches(Statuses(AfterMarks(cfg, w, now, r).trace, id)) == Dispatches(Statuses(w.trace, id))
  {
    match r {
      case WakeAck(msgId) => MarkDispatches(w.trace, now, msgId, Acked, id);
      case TaskDone(msgId) => MarkDispatches(w.trace, now, msgId, Done, id);
      case _ =>
    }
  }

  lemma CommandDispatches(u: Setup, w: World, c: Call, id: string)
    ensures Dispatches(Statuses(Sending(u, w, c).0.trace, id))
      == Dispatches(Statuses(w.gate.trace, id)) + Occurrences(DispatchTime(u, w, Command(c)), id)
  {
    var p, buffer := SendShape(u.cfg, Wakes(w.gate), w.now, c, LinksOf(w));
    EnterDispatches(u.cfg, Wakes(w.gate), w.now, p, buffer, id);
    assert [c.wall][..0] == [];
  }

  lemma MarkDispatches(trace: seq<Note>, now: int, msgId: string, status: Status, id: string)
    requires status == Acked || status == Done
    ensures Dispatches(Statuses(trace + [Published(now, msgId, status)], id)) == Dispatches(Statuses(trace, id))
  {
    TraceConcat(trace, [Published(now, msgId, status)], id);
    if id == msgId {
      OnePublished(now, id, status);
      DispatchesConcat(Statuses(trace, id), [(now, status)]);
      assert [(now, status)][..0] == [];
    } else {
      QuietNotes([Published(now, msgId, status)], id);
      assert Statuses(trace, id) + [] == Statuses(trace, id);
    }
  }

  lemma EnterDispatches(cfg: Config, w: WakeState, now: int, p: PendingWake, buffer: Buffer, id: string)
    ensures Dispatches(Statuses(Entered(cfg, w, now, p, buffer).trace, id))
      == Dispatches(Statuses(w.trace, id)) + if p.msgId == id then 1 else 0
  {
    var notes := [Posted(p.session, buffer, Some(p.msgId)), Published(now, p.msgId, Dispatched)];
    TraceConcat(w.trace, notes, id);
    if id == p.msgId {
      DispatchNotes(p.session, buffer, now, id);
      DispatchesConcat(Statuses(w.trace, id), [(now, Dispatched)]);
      assert [(now, Dispatched)][..0] == [];
    } else {
      QuietNotes(notes, id);
      assert Statuses(w.trace, id) + [] == Statuses(w.trace, id);
    }
  }

  lemma NextDispatches(u: Setup, w: World, e: Event, id: string)
    requires Possible(w, e) && KeysMatch(w.gate.pending)
    ensures Dispatches(Statuses(Next(u, w, e).gate.trace, id))
      == Dispatches(Statuses(w.gate.trace, id)) + Occurrences(DispatchTime(u, w, e), id)
  {
    NextOnWakes(u, w, e);
    QuietStepKeepsHistory(u.cfg, Core(u, w, e), Wakes(Next(u, w, e).gate), id);
    match e {
      case JsonLine(s, r) => JsonDispatches(u.cfg, Wakes(w.gate), w.now, r, id);
      case Command(c) => CommandDispatches(u, w, c, id);
      case Tick(order) => TickDispatches(u, w, order, id);
      case _ =>
    }
  }

  lemma {:induction false} OccurrencesConcat(a: seq<int>, b: seq<int>, id: string)
    requires |b| <= 1
    ensures Occurrences(a + b, id) == Occurrences(a, id) + Occurrences(b, id)
  {
    if b == [] {
      assert a + b == a;
    } else {
      assert (a + b)[..|a|] == a && b[..0] == [];
    }
  }

  /** An id's dispatched events are the times its number was read from the clock. */
  lemma {:induction false} RunDispatches(u: Setup, events: seq<Event>, id: string)
    requires IsRun(u, events)
    ensures Dispatches(Statuses(Run(u, events).gate.trace, id)) == Occurrences(DispatchTimes(u, events), id)
  {
    if events != [] {
      var n := |events| - 1;
      var w := Run(u, events[..n]);
      RunDispatches(u, events[..n], id);
      RunIsSafe(u, events[..n]);
      NextDispatches(u, w, events[n], id);
      OccurrencesConcat(DispatchTimes(u, events[..n]), DispatchTime(u, w, events[n]), id);
    }
  }

  lemma {:induction false} NeverOccurs(times: seq<int>, t: int)
    ensures Occurrences(times, MsgId(t)) == 0 <==> t !in times
  {
    if times != [] {
      var n := |times| - 1;
      NeverOccurs(times[..n], t);
      InSnoc(times, t);
      MsgIdsAreDistinct(times[n], t);
    }
  }

  lemma InSnoc(times: seq<int>, t: int)
    requires times != []
    ensures t in times <==> t in times[..|times| - 1] || t == times[|times| - 1]
  {
    assert times == times[..|times| - 1] + [times[|times| - 1]];
  }

  lemma {:induction false} OnceMeansDistinct(times: seq<int>)
    requires forall t :: Occurrences(times, MsgId(t)) <= 1
    ensures Distinct(times)
  {
    if times != [] {
      var n := |times| - 1;
      forall t
        ensures Occurrences(times[..n], MsgId(t)) <= 1
      {
        assert Occurrences(times, MsgId(t)) <= 1;
      }
      OnceMeansDistinct(times[..n]);
      NeverOccurs(times[..n], times[n]);
      assert Occurrences(times, MsgId(times[n])) <= 1;
    }
  }

  lemma JsonKeepsLifecycle(u: Setup, w: World, s: Sid, r: Request)
    requires Possible(w, JsonLine(s, r)) && Lifecycle(u.cfg, Wakes(w.gate))
    ensures Lifecycle(u.cfg, Core(u, w, JsonLine(s, r)))
  {
    if r.WakeAck? {
      MarksKeepLifecycle(u.cfg, Wakes(w.gate), w.now, r.ackedId);
    } else if r.TaskDone? {
      MarksKeepLifecycle(u.cfg, Wakes(w.gate), w.now, r.doneId);
    }
  }

  lemma NextKeepsLifecycle(u: Setup, w: World, e: Event)
    requires Possible(w, e) && Lifecycle(u.cfg, Wakes(w.gate))
    requires DispatchTime(u, w, e) != [] ==> IsUntouched(w.gate.trace, MsgId(DispatchTime(u, w, e)[0]))
    ensures Lifecycle(u.cfg, Wakes(Next(u, w, e).gate))
  {
    match e {
      case JsonLine(s, r) => JsonKeepsLifecycle(u, w, s, r);
      case Command(c) => SendKeepsLifecycle(u.cfg, Wakes(w.gate), w.now, c, LinksOf(w));
      case Tick(order) => TickKeepsLifecycle(u.cfg, Wakes(w.gate), w.now, LinksOf(w), order);
      case _ =>
    }
    assert Lifecycle(u.cfg, Core(u, w, e));
    NextOnWakes(u, w, e);
    forall id
      ensures Coherent(u.cfg, Wakes(Next(u, w, e).gate).pending, Wakes(Next(u, w, e).gate).trace, id)
    {
      assert Coherent(u.cfg, Core(u, w, e).pending, Core(u, w, e).trace, id);
      QuietStepKeepsHistory(u.cfg, Core(u, w, e), Wakes(Next(u, w, e).gate), id);
    }
  }

  /** Ids of sent commands are draw in a run whose dispatch times are distinct. */
  lemma {:induction false} FreshDispatch(u: Setup, events: seq<Event>)
    requires IsRun(u, events) && events != [] && Distinct(DispatchTimes(u, events))
    ensures
      var n := |events| - 1;
      var w := Run(u, events[..n]);
      && Distinct(DispatchTimes(u, events[..n])) && Lifecycle(u.cfg, Wakes(w.gate))
      && (DispatchTime(u, w, events[n]) != [] ==> IsUntouched(w.gate.trace, MsgId(DispatchTime(u, w, events[n])[0])))
    decreases |events|, 0
  {
    var n := |events| - 1;
    var w, times := Run(u, events[..n]), DispatchTimes(u, events[..n]);
    var time := DispatchTime(u, w, events[n]);
    if time == [] { assert times + time == times; } else { assert (times + time)[..|times|] == times; }
    DistinctRunKeepsLifecycle(u, events[..n]);
    if time != [] {
      RunDispatches(u, events[..n], MsgId(time[0]));
      NeverOccurs(times, time[0]);
      assert Coherent(u.cfg, w.gate.pending, w.gate.trace, MsgId(time[0]));
      CoherentDispatches(u.cfg, w.gate.pending, w.gate.trace, MsgId(time[0]));
    }
  }

  lemma {:induction false} DistinctRunKeepsLifecycle(u: Setup, events: seq<Event>)
    requires IsRun(u, events) && Distinct(DispatchTimes(u, events))
    ensures Lifecycle(u.cfg, Wakes(Run(u, events).gate))
    decreases |events|, 1
  {
    if events != [] {
      FreshDispatch(u, events);
      NextKeepsLifecycle(u, Run(u, events[..|events| - 1]), events[|events| - 1]);
    }
  }

  /** Over every run: each command's history is dispatched, retrying(1), ..., retrying(k) and at most one ending,
      with the matching number of transmissions, exactly when no two commands were sent in one millisecond. */
  lemma LifecycleIffDistinct(u: Setup, events: seq<Event>)
    requires IsRun(u, events)
    ensures Lifecycle(u.cfg, Wakes(Run(u, events).gate)) <==> Distinct(DispatchTimes(u, events))
  {
    var w, times := Run(u, events), DispatchTimes(u, events);
    if Distinct(times) {
      DistinctRunKeepsLifecycle(u, events);
    }
    if Lifecycle(u.cfg, Wakes(w.gate)) {
      forall t
        ensures Occurrences(times, MsgId(t)) <= 1
      {
        RunDispatches(u, events, MsgId(t));
        assert Coherent(u.cfg, w.gate.pending, w.gate.trace, MsgId(t));
        CoherentDispatches(u.cfg, w.gate.pending, w.gate.trace, MsgId(t));
      }
      OnceMeansDistinct(times);
    }
  }

  // ---- timing ----

  /** Ticks come at most a gap apart, and at each of them a due command that may be retried has a lockable session. */
  ghost predicate StepIsTimely(u: Setup, w: World, e: Event, gap: int, id: string) {
    && (e.Advance? ==> w.now + e.ms <= w.lastTick + gap)
    && (e.Tick? ==> Serviced(u.cfg, Wakes(w.gate), id, w.now, LinksOf(w)))
  }

  ghost predicate IsTimely(u: Setup, events: seq<Event>, gap: int, id: string)
    requires IsRun(u, events)
  {
    events == [] ||
    (IsTimely(u, events[..|events| - 1], gap, id) &&
     StepIsTimely(u, Run(u, events[..|events| - 1]), events[|events| - 1], gap, id))
  }

  ghost predicate OnTime(u: Setup, w: World, gap: int, id: string) {
    Clocked(u.cfg, gap, Wakes(w.gate), id, w.lastTick, w.now)
  }

  /** A note about another command, or none. */
  lemma ElsewhereKeepsClocked(cfg: Config, gap: int, a: WakeState, b: WakeState, notes: seq<Note>, id: string,
      lastTick: int, now: int)
    requires Clocked(cfg, gap, a, id, lastTick, now) && Quiet(notes, id) && b.trace == a.trace + notes
    requires id in b.pending ==> id in a.pending && b.pending[id] == a.pending[id]
    ensures Clocked(cfg, gap, b, id, lastTick, now)
  {
    QuietKeepsHistory(cfg, a.pending, a.trace, notes, id);
    QuietKeepsClocked(cfg, gap, a, b, id, lastTick, now, now);
  }

  lemma MarkOnTime(cfg: Config, gap: int, w: WakeState, v: WakeState, msgId: string, status: Status, id: string,
      lastTick: int, now: int)
    requires Clocked(cfg, gap, w, id, lastTick, now) && (status == Acked || status == Done)
    requires v.trace == w.trace + [Published(now, msgId, status)] && v.pending == w.pending - {msgId}
    ensures Clocked(cfg, gap, v, id, lastTick, now)
  {
    if id == msgId {
      MarkKeepsClocked(cfg, gap, w, v, id, lastTick, now, status);
    } else {
      ElsewhereKeepsClocked(cfg, gap, w, v, [Published(now, msgId, status)], id, lastTick, now);
    }
  }

  function MarkedId(r: Request): string {
    match r
    case WakeAck(id) => id
    case TaskDone(id) => id
    case _ => ""
  }

  lemma JsonOnTime(cfg: Config, gap: int, w: WakeState, r: Request, id: string, lastTick: int, now: int)
    requires Clocked(cfg, gap, w, id, lastTick, now)
    ensures Clocked(cfg, gap, AfterMarks(cfg, w, now, r), id, lastTick, now)
  {
    var msgId, v := MarkedId(r), AfterMarks(cfg, w, now, r);
    if msgId in w.pending && msgId != "" {
      MarkOnTime(cfg, gap, w, v, msgId, if r.WakeAck? then Acked else Done, id, lastTick, now);
    }
  }

  lemma EnterOnTime(cfg: Config, gap: int, w: WakeState, p: PendingWake, buffer: Buffer, id: string,
      lastTick: int, now: int)
    requires Clocked(cfg, gap, w, id, lastTick, now) && cfg.ackTimeoutMs >= 0
    requires IsUntouched(w.trace, p.msgId) && p.retryCount == 0 && p.nextRetry == now + cfg.ackTimeoutMs
    requires p.protocol == if buffer.Line? then JSON_LINE else LOWPOWER
    ensures Clocked(cfg, gap, Entered(cfg, w, now, p, buffer), id, lastTick, now)
  {
    if id == p.msgId {
      EnterIsClocked(cfg, gap, w, now, p, buffer, lastTick);
    } else {
      var notes := [Posted(p.session, buffer, Some(p.msgId)), Published(now, p.msgId, Dispatched)];
      ElsewhereKeepsClocked(cfg, gap, w, Entered(cfg, w, now, p, buffer), notes, id, lastTick, now);
    }
  }

  lemma RefusalOnTime(cfg: Config, gap: int, w: WakeState, sessions: map<string, Sid>, id: string, lastTick: int,
      now: int)
    requires Clocked(cfg, gap, w, id, lastTick, now)
    ensures Clocked(cfg, gap, w.(sessions := sessions), id, lastTick, now)
  {}

  lemma CommandOnTime(u: Setup, w: World, c: Call, gap: int, id: string)
    requires OnTime(u, w, gap, id) && u.cfg.ackTimeoutMs >= 0
    requires DispatchTime(u, w, Command(c)) != [] ==> IsUntouched(w.gate.trace, MsgId(c.wall))
    ensures Clocked(u.cfg, gap, Sending(u, w, c).0, id, w.lastTick, w.now)
  {
    var p, buffer := SendShape(u.cfg, Wakes(w.gate), w.now, c, LinksOf(w));
    var (v, r) := Sending(u, w, c);
    if r.Sent? {
      EnterOnTime(u.cfg, gap, Wakes(w.gate), p, buffer, id, w.lastTick, w.now);
    } else {
      RefusalOnTime(u.cfg, gap, Wakes(w.gate), v.sessions, id, w.lastTick, w.now);
    }
  }

  lemma QuietStepOnTime(cfg: Config, gap: int, a: WakeState, b: WakeState, id: string, lastTick: int, now: int,
      later: int)
    requires Clocked(cfg, gap, a, id, lastTick, now) && IsQuietStep(a, b)
    requires now <= later <= lastTick + gap
    ensures Clocked(cfg, gap, b, id, lastTick, later)
  {
    QuietStepKeepsHistory(cfg, a, b, id);
    QuietKeepsClocked(cfg, gap, a, b, id, lastTick, now, later);
  }

  lemma NextIsOnTime(u: Setup, w: World, e: Event, gap: int, id: string)
    requires KeysMatch(w.gate.pending) && Possible(w, e) && u.cfg.ackTimeoutMs >= 0 && gap >= 0
    requires OnTime(u, w, gap, id) && StepIsTimely(u, w, e, gap, id)
    requires DispatchTime(u, w, e) != [] ==> IsUntouched(w.gate.trace, MsgId(DispatchTime(u, w, e)[0]))
    ensures OnTime(u, Next(u, w, e), gap, id)
  {
    var v := Next(u, w, e);
    match e {
      case JsonLine(s, r) => JsonOnTime(u.cfg, gap, Wakes(w.gate), r, id, w.lastTick, w.now);
      case Command(c) => CommandOnTime(u, w, c, gap, id);
      case Tick(order) => TickKeepsClocked(u.cfg, gap, Wakes(w.gate), w.now, LinksOf(w), order, id, w.lastTick);
      case _ =>
    }
    NextOnWakes(u, w, e);
    QuietStepOnTime(u.cfg, gap, Core(u, w, e), Wakes(v.gate), id, v.lastTick, w.now, v.now);
  }

  lemma {:induction false} RunIsOnTime(u: Setup, events: seq<Event>, gap: int, id: string)
    requires IsRun(u, events) && Distinct(DispatchTimes(u, events))
    requires u.cfg.ackTimeoutMs >= 0 && gap >= 0 && IsTimely(u, events, gap, id)
    ensures OnTime(u, Run(u, events), gap, id)
  {
    if events != [] {
      var n := |events| - 1;
      FreshDispatch(u, events);
      RunIsOnTime(u, events[..n], gap, id);
      RunIsSafe(u, events[..n]);
      NextIsOnTime(u, Run(u, events[..n]), events[n], gap, id);
    }
  }

  /** Pending within the deadline, or ended; and a failure inside the window. */
  ghost predicate HasFate(cfg: Config, gap: int, w: WakeState, now: int, id: string, k: nat) {
    var t := Statuses(w.trace, id);
    && (id in w.pending ==> IsActive(t, k) && now <= Deadline(cfg, gap, t[0].0))
    && (id !in w.pending ==> IsEnded(cfg, t, k))
    && (id !in w.pending && t[k + 1].1.Failed? ==> FailsInWindow(cfg, gap, t))
  }

  lemma OnTimeFate(cfg: Config, gap: int, w: WakeState, id: string, lastTick: int, now: int) returns (k: nat)
    requires Clocked(cfg, gap, w, id, lastTick, now) && Coherent(cfg, w.pending, w.trace, id)
    requires Statuses(w.trace, id) != [] && cfg.ackTimeoutMs >= 0 && gap >= 0
    ensures HasFate(cfg, gap, w, now, id, k)
  {
    var t := Statuses(w.trace, id);
    if id in w.pending {
      k := w.pending[id].retryCount;
      PendingWithinWindow(cfg, gap, w, id, lastTick, now);
    } else {
      k :| IsEnded(cfg, t, k);
      if t[k + 1].1.Failed? { FailureWindow(cfg, gap, t, k); }
    }
  }

  /** Over every run with distinct dispatch times, ticks at most a gap apart, and a serviced command: it is pending
      only within its deadline; once it is not pending it has ended; and a failure comes after exactly the permitted
      retries, spaced by the timeout, and inside the window. */
  lemma CommandFate(u: Setup, events: seq<Event>, gap: int, id: string) returns (k: nat)
    requires IsRun(u, events) && Distinct(DispatchTimes(u, events))
    requires u.cfg.ackTimeoutMs >= 0 && gap >= 0 && IsTimely(u, events, gap, id)
    requires Statuses(Run(u, events).gate.trace, id) != []
    ensures HasFate(u.cfg, gap, Wakes(Run(u, events).gate), Run(u, events).now, id, k)
  {
    var w := Run(u, events);
    DistinctRunKeepsLifecycle(u, events);
    RunIsOnTime(u, events, gap, id);
    assert Coherent(u.cfg, w.gate.pending, w.gate.trace, id);
    k := OnTimeFate(u.cfg, gap, Wakes(w.gate), id, w.lastTick, w.now);
  }
}
