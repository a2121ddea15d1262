/** The whole gateway as a state machine over its handlers, and what every run keeps. */
module World {
  import opened Bytes
  import opened Model
  import opened Codec
  import opened Redis
  import opened Presence
  import opened Dispatcher
  import opened FrameReader
  import opened Session

  /** All sessions, which of them can still be locked, what they share, and the clock. */
  datatype World = World(
    now: int,
    conns: map<Sid, Conn>,
    alive: set<Sid>,
    gate: Gateway,
    lastTick: int,
    lastCheck: int
  )

  /** One handler each; time passes between them. */
  datatype Event =
    | Advance(ms: nat)
    | Accept(sid: Sid)
    | Peek(sid: Sid, first: byte)
    | JsonLine(sid: Sid, request: Request)
    | FrameIn(sid: Sid, frame: Frame, draw: Draw)
    | BadVersion(sid: Sid)
    | Lost(sid: Sid)
    | Expire(sid: Sid)
    | Command(call: Call)
    | Tick(order: seq<string>)
    | Check

  /** Everything that is fixed during a run. */
  datatype Setup = Setup(cfg: Config, crypto: Crypto, provisioned: Db, start: int)

  function Booted(u: Setup): World {
    World(u.start, map[], {}, Gateway(map[], map[], u.provisioned, map[], []), u.start, u.start)
  }

  function LinksOf(w: World): Links {
    map s | s in w.conns && s in w.alive :: w.conns[s].protocol
  }

  /** When an event can occur: reads belong to the protocol that was detected, frames are those the reader delivers. */
  ghost predicate Possible(w: World, e: Event) {
    match e
    case Advance(_) => true
    case Accept(s) => s !in w.conns
    case Peek(s, _) => s in w.conns && w.conns[s].protocol == UNKNOWN && w.conns[s].open
    case JsonLine(s, _) => s in w.conns && w.conns[s].protocol == JSON_LINE
    case FrameIn(s, f, _) => s in w.conns && w.conns[s].protocol == LOWPOWER && Sendable(f)
    case BadVersion(s) => s in w.conns && w.conns[s].protocol == LOWPOWER
    case Lost(s) => s in w.conns
    case Expire(s) => s in w.conns
    case Command(_) => true
    case Tick(order) => IsOrder(order, w.gate.pending.Keys)
    case Check => true
  }

  function ViewOf(w: World, s: Sid): View
    requires s in w.conns
  {
    View(w.conns[s], w.gate)
  }

  function Updated(w: World, s: Sid, v: View): World {
    w.(conns := w.conns[s := v.conn], gate := v.gate)
  }

  ghost function Sending(u: Setup, w: World, c: Call): (WakeState, Outcome) {
    SendWake(u.cfg, Wakes(w.gate), w.now, c, LinksOf(w))
  }

  ghost function Next(u: Setup, w: World, e: Event): World
    requires Possible(w, e)
  {
    match e
    case Advance(ms) => w.(now := w.now + ms)
    case Accept(s) => w.(conns := w.conns[s := NEW_CONN], alive := w.alive + {s})
    case Peek(s, first) => w.(conns := w.conns[s := Detected(w.conns[s], first)])
    case JsonLine(s, r) => Updated(w, s, HandleJson(u.cfg, ViewOf(w, s), s, w.now, r))
    case FrameIn(s, f, draw) => Updated(w, s, HandleFrame(u.cfg, u.crypto, ViewOf(w, s), s, w.now, f, draw))
    case BadVersion(s) => Updated(w, s, Closed(ViewOf(w, s)))
    case Lost(s) => Updated(w, s, Disconnect(u.cfg, ViewOf(w, s)))
    case Expire(s) => w.(alive := w.alive - {s})
    case Command(c) =>
      w.(gate := WithWakes(w.gate, Sending(u, w, c).0))
    case Tick(order) =>
      w.(gate := WithWakes(w.gate, Ticked(u.cfg, Wakes(w.gate), w.now, LinksOf(w), order)), lastTick := w.now)
    case Check =>
      w.(gate := WithRegistry(w.gate, Checked(u.cfg, Registry(w.gate), w.now)), lastCheck := w.now)
  }

  ghost predicate IsRun(u: Setup, events: seq<Event>)
    decreases |events|, 0
  {
    events == [] ||
    (IsRun(u, events[..|events| - 1]) && Possible(Run(u, events[..|events| - 1]), events[|events| - 1]))
  }

  ghost function Run(u: Setup, events: seq<Event>): World
    requires IsRun(u, events)
    decreases |events|, 1
  {
    if events == [] then Booted(u) else Next(u, Run(u, events[..|events| - 1]), events[|events| - 1])
  }

  // ---- the invariant ----

  /** The gateway never changes a local key or an index entry. */
  ghost predicate Untouched(u: Setup, db: Db) {
    forall k: KeyName | !k.Online? && !k.PendingWakeKey? :: Get(db, u.cfg.key(k)) == Get(u.provisioned, u.cfg.key(k))
  }

  /** A session with an id has detected its protocol, and the id has a state; so has every registered session. */
  ghost predicate Joint(conns: map<Sid, Conn>, g: Gateway) {
    && (forall s | s in conns :: IdHasState(conns[s], g.states))
    && (forall d | d in g.sessions :: Detects(conns, g.sessions[d]))
  }

  predicate IdHasState(c: Conn, states: map<string, DeviceState>) {
    c.deviceId != "" ==> c.deviceId in states && c.protocol != UNKNOWN
  }

  predicate Detects(conns: map<Sid, Conn>, s: Sid) {
    s in conns && conns[s].protocol != UNKNOWN
  }

  ghost predicate IsMade(data: seq<byte>) {
    exists msgType, flag, payload :: data == Encoded(MakeFrame(msgType, flag, payload))
  }

  /** JSON lines go to JSON sessions only; every other buffer is one binary frame. */
  ghost predicate Fits(protocol: SessionProtocol, b: Buffer) {
    match b
    case Line(_) => protocol == JSON_LINE
    case Raw(data) => protocol != UNKNOWN && IsMade(data)
  }

  ghost predicate PostFits(conns: map<Sid, Conn>, n: Note) {
    n.Posted? ==> n.sid in conns && Fits(conns[n.sid].protocol, n.buffer)
  }

  ghost predicate TraceFits(conns: map<Sid, Conn>, trace: seq<Note>) {
    forall i | 0 <= i < |trace| :: PostFits(conns, trace[i])
  }

  /** A pending JSON command points at a JSON session. */
  ghost predicate EntryFits(conns: map<Sid, Conn>, p: PendingWake) {
    && Detects(conns, p.session) && (p.protocol == JSON_LINE || p.protocol == LOWPOWER)
    && (p.protocol == JSON_LINE ==> conns[p.session].protocol == JSON_LINE)
  }

  ghost predicate PendingFits(conns: map<Sid, Conn>, pending: map<string, PendingWake>) {
    forall id | id in pending :: EntryFits(conns, pending[id])
  }

  /** Nothing is assumed for this: not of the store, not of the ids. */
  ghost predicate Safe(w: World) {
    && RegistryInv(Registry(w.gate), w.now)
    && Joint(w.conns, w.gate)
    && KeysMatch(w.gate.pending)
    && PendingFits(w.conns, w.gate.pending)
    && TraceFits(w.conns, w.gate.trace)
  }

  // ---- no session changes its protocol once it is detected ----

  ghost predicate KeepsProtocols(before: map<Sid, Conn>, after: map<Sid, Conn>) {
    && (forall s | s in before :: s in after)
    && (forall s | s in before && before[s].protocol != UNKNOWN :: after[s].protocol == before[s].protocol)
  }

  lemma NextKeepsProtocols(u: Setup, w: World, e: Event)
    requires Possible(w, e)
    ensures KeepsProtocols(w.conns, Next(u, w, e).conns)
  {}

  lemma ProtocolsKept(before: map<Sid, Conn>, after: map<Sid, Conn>, pending: map<string, PendingWake>,
      trace: seq<Note>)
    requires KeepsProtocols(before, after)
    ensures PendingFits(before, pending) ==> PendingFits(after, pending)
    ensures TraceFits(before, trace) ==> TraceFits(after, trace)
  {
    if TraceFits(before, trace) {
      forall i | 0 <= i < |trace|
        ensures PostFits(after, trace[i])
      {
        assert PostFits(before, trace[i]);
      }
    }
  }

  lemma TraceFitsConcat(conns: map<Sid, Conn>, a: seq<Note>, b: seq<Note>)
    requires TraceFits(conns, a) && TraceFits(conns, b)
    ensures TraceFits(conns, a + b)
  {}

  // ---- the registry, handler by handler ----

  lemma JsonKeepsRegistry(cfg: Config, v: View, s: Sid, now: int, r: Request)
    requires RegistryInv(Registry(v.gate), now) && IdHasState(v.conn, v.gate.states)
    ensures RegistryInv(Registry(HandleJson(cfg, v, s, now, r).gate), now)
  {
    match r {
      case Login(d, dev) => LoginKeepsRegistry(cfg, v, s, now, d, dev);
      case Report(battery, dev) => ReportKeepsRegistry(cfg, v, s, now, battery, dev);
      case _ =>
    }
  }

  lemma LoginKeepsRegistry(cfg: Config, v: View, s: Sid, now: int, d: string, dev: Option<string>)
    requires RegistryInv(Registry(v.gate), now)
    ensures RegistryInv(Registry(HandleJson(cfg, v, s, now, Login(d, dev)).gate), now)
  {}

  lemma ReportKeepsRegistry(cfg: Config, v: View, s: Sid, now: int, battery: Option<int>, dev: Option<string>)
    requires RegistryInv(Registry(v.gate), now) && IdHasState(v.conn, v.gate.states)
    ensures RegistryInv(Registry(HandleJson(cfg, v, s, now, Report(battery, dev)).gate), now)
  {}

  lemma FrameKeepsRegistry(cfg: Config, crypto: Crypto, v: View, s: Sid, now: int, f: Frame, draw: Draw)
    requires RegistryInv(Registry(v.gate), now) && IdHasState(v.conn, v.gate.states)
    ensures RegistryInv(Registry(HandleFrame(cfg, crypto, v, s, now, f, draw).gate), now)
  {
    if f.msgType == AUTH_REQ { AuthKeepsRegistry(cfg, crypto, v, s, now, f, draw); }
  }

  lemma AuthKeepsRegistry(cfg: Config, crypto: Crypto, v: View, s: Sid, now: int, f: Frame, draw: Draw)
    requires RegistryInv(Registry(v.gate), now)
    ensures RegistryInv(Registry(HandleAuthReq(cfg, crypto, v, s, now, f, draw).gate), now)
  {}

  lemma CommandKeepsRegistry(u: Setup, w: World, c: Call)
    requires RegistryInv(Registry(w.gate), w.now)
    ensures RegistryInv(Registry(Next(u, w, Command(c)).gate), w.now)
  {
    var _, _ := SendShape(u.cfg, Wakes(w.gate), w.now, c, LinksOf(w));
  }

  lemma NextKeepsRegistry(u: Setup, w: World, e: Event)
    requires RegistryInv(Registry(w.gate), w.now) && Joint(w.conns, w.gate) && Possible(w, e)
    ensures RegistryInv(Registry(Next(u, w, e).gate), Next(u, w, e).now)
  {
    match e {
      case JsonLine(s, r) =>
        assert IdHasState(w.conns[s], w.gate.states);
        JsonKeepsRegistry(u.cfg, ViewOf(w, s), s, w.now, r);
      case FrameIn(s, f, draw) =>
        assert IdHasState(w.conns[s], w.gate.states);
        FrameKeepsRegistry(u.cfg, u.crypto, ViewOf(w, s), s, w.now, f, draw);
      case Command(c) => CommandKeepsRegistry(u, w, c);
      case Check => CheckKeepsRegistry(u.cfg, Registry(w.gate), w.now);
      case _ =>
    }
  }

  /** What a handler of session s may do to the maps and to itself. */
  ghost predicate IsSessionStep(s: Sid, before: View, after: View) {
    && after.conn.protocol == before.conn.protocol
    && (after.conn.deviceId == before.conn.deviceId || after.conn.deviceId in after.gate.states)
    && before.gate.states.Keys <= after.gate.states.Keys
    && (forall d | d in after.gate.sessions ::
          || after.gate.sessions[d] == s
          || (d in before.gate.sessions && after.gate.sessions[d] == before.gate.sessions[d]))
    && after.gate.pending.Keys <= before.gate.pending.Keys
    && (forall id | id in after.gate.pending :: after.gate.pending[id] == before.gate.pending[id])
  }

  lemma JsonIsSessionStep(cfg: Config, v: View, s: Sid, now: int, r: Request)
    ensures IsSessionStep(s, v, HandleJson(cfg, v, s, now, r))
  {}

  lemma FrameIsSessionStep(cfg: Config, crypto: Crypto, v: View, s: Sid, now: int, f: Frame, draw: Draw)
    ensures IsSessionStep(s, v, HandleFrame(cfg, crypto, v, s, now, f, draw))
  {}

  lemma SessionStepKeepsTheRest(w: World, s: Sid, after: View)
    requires s in w.conns && w.conns[s].protocol != UNKNOWN && IsSessionStep(s, ViewOf(w, s), after)
    requires Joint(w.conns, w.gate) && KeysMatch(w.gate.pending) && PendingFits(w.conns, w.gate.pending)
    ensures
      var v := Updated(w, s, after);
      Joint(v.conns, v.gate) && KeysMatch(v.gate.pending) && PendingFits(v.conns, v.gate.pending)
  {
    var v := Updated(w, s, after);
    forall id | id in v.gate.pending
      ensures EntryFits(v.conns, v.gate.pending[id])
    {
      assert EntryFits(w.conns, w.gate.pending[id]);
    }
  }

  lemma DispatchKeepsTheRest(u: Setup, w: World, c: Call, p: PendingWake, buffer: Buffer)
    requires Joint(w.conns, w.gate) && IsDispatch(u.cfg, Wakes(w.gate), w.now, c, LinksOf(w), p, buffer)
    requires KeysMatch(w.gate.pending) && PendingFits(w.conns, w.gate.pending)
    ensures KeysMatch(w.gate.pending[p.msgId := p]) && PendingFits(w.conns, w.gate.pending[p.msgId := p])
  {
    assert Detects(w.conns, w.gate.sessions[c.deviceId]);
  }

  lemma CommandKeepsTheRest(u: Setup, w: World, c: Call)
    requires Joint(w.conns, w.gate) && KeysMatch(w.gate.pending) && PendingFits(w.conns, w.gate.pending)
    ensures
      var v := Next(u, w, Command(c));
      Joint(v.conns, v.gate) && KeysMatch(v.gate.pending) && PendingFits(v.conns, v.gate.pending)
  {
    var p, buffer := SendShape(u.cfg, Wakes(w.gate), w.now, c, LinksOf(w));
    if Sending(u, w, c).1.Sent? { DispatchKeepsTheRest(u, w, c, p, buffer); }
  }

  lemma TickKeepsTheRest(u: Setup, w: World, order: seq<string>)
    requires Safe(w) && Possible(w, Tick(order))
    ensures
      var v := Next(u, w, Tick(order));
      Joint(v.conns, v.gate) && KeysMatch(v.gate.pending) && PendingFits(v.conns, v.gate.pending)
  {}

  lemma OthersKeepTheRest(u: Setup, w: World, e: Event)
    requires Safe(w) && Possible(w, e) && !e.JsonLine? && !e.FrameIn? && !e.Command? && !e.Tick?
    ensures
      var v := Next(u, w, e);
      Joint(v.conns, v.gate) && KeysMatch(v.gate.pending) && PendingFits(v.conns, v.gate.pending)
  {
    NextKeepsProtocols(u, w, e);
    ProtocolsKept(w.conns, Next(u, w, e).conns, w.gate.pending, w.gate.trace);
  }

  lemma NextKeepsTheRest(u: Setup, w: World, e: Event)
    requires Safe(w) && Possible(w, e)
    ensures
      var v := Next(u, w, e);
      Joint(v.conns, v.gate) && KeysMatch(v.gate.pending) && PendingFits(v.conns, v.gate.pending)
  {
    match e {
      case JsonLine(s, r) =>
        JsonIsSessionStep(u.cfg, ViewOf(w, s), s, w.now, r);
        SessionStepKeepsTheRest(w, s, HandleJson(u.cfg, ViewOf(w, s), s, w.now, r));
      case FrameIn(s, f, draw) =>
        FrameIsSessionStep(u.cfg, u.crypto, ViewOf(w, s), s, w.now, f, draw);
        SessionStepKeepsTheRest(w, s, HandleFrame(u.cfg, u.crypto, ViewOf(w, s), s, w.now, f, draw));
      case Command(c) => CommandKeepsTheRest(u, w, c);
      case Tick(order) => TickKeepsTheRest(u, w, order);
      case _ => OthersKeepTheRest(u, w, e);
    }
  }

  // ---- the history grows, by fitting notes ----

  lemma {:induction false} TickFits(cfg: Config, conns: map<Sid, Conn>, w: WakeState, now: int, links: Links,
      order: seq<string>)
    requires PendingFits(conns, w.pending) && forall id | id in order :: id in w.pending
    ensures TraceFits(conns, NotesInOrder(cfg, w, now, links, order))
  {
    if order != [] {
      var n := |order| - 1;
      TickFits(cfg, conns, w, now, links, order[..n]);
      var p := w.pending[order[n]];
      assert EntryFits(conns, p);
      EntryNotesFit(cfg, conns, w.db, p, now, links);
      TraceFitsConcat(conns, NotesInOrder(cfg, w, now, links, order[..n]), TickNotes(cfg, w.db, p, now, links));
    }
  }

  lemma WakeupIsMade(localKey: string)
    ensures IsMade(WakeupBytes(localKey))
  {
    var f := WakeupFrame(Octets(localKey));
    assert WakeupBytes(localKey) == Encoded(MakeFrame(f.msgType, f.flag, f.payload));
  }

  lemma EntryNotesFit(cfg: Config, conns: map<Sid, Conn>, db: Db, p: PendingWake, now: int, links: Links)
    requires EntryFits(conns, p)
    ensures TraceFits(conns, TickNotes(cfg, db, p, now, links))
  {
    var localKey := Get(db, cfg.key(LocalKey(p.deviceId)));
    if localKey.Some? { WakeupIsMade(localKey.value); }
  }

  /** What a step adds to the history. */
  ghost predicate Adds(u: Setup, w: World, e: Event, notes: seq<Note>)
    requires Possible(w, e)
  {
    Next(u, w, e).gate.trace == w.gate.trace + notes
  }

  /** A handler of a session posts at most one buffer, to that session, or closes a command's history. */
  lemma JsonNotes(cfg: Config, v: View, s: Sid, now: int, r: Request) returns (notes: seq<Note>)
    ensures HandleJson(cfg, v, s, now, r).gate.trace == v.gate.trace + notes
    ensures forall n | n in notes :: n.Published? || (n.Posted? && n.sid == s && n.buffer.Line? && n.cause.None?)
  {
    match r {
      case WakeAck(id) =>
        notes := if id != "" && id in v.gate.pending then [Published(now, id, Acked)] else [];
      case TaskDone(id) =>
        var reply := [Posted(s, Line(TaskDoneAck(id)), None)];
        notes := if id != "" && id in v.gate.pending then [Published(now, id, Done)] + reply else reply;
      case HostState(_) =>
        notes := [];
      case _ =>
        notes := [HandleJson(cfg, v, s, now, r).gate.trace[|v.gate.trace|]];
    }
  }

  lemma FrameNotes(cfg: Config, crypto: Crypto, v: View, s: Sid, now: int, f: Frame, draw: Draw)
      returns (notes: seq<Note>)
    ensures HandleFrame(cfg, crypto, v, s, now, f, draw).gate.trace == v.gate.trace + notes
    ensures forall n | n in notes :: n.Posted? && n.sid == s && n.buffer.Raw? && IsMade(n.buffer.data) && n.cause.None?
  {
    if f.msgType == AUTH_REQ {
      notes := AuthNotes(cfg, crypto, v, s, now, f, draw);
    } else {
      notes := HandleFrame(cfg, crypto, v, s, now, f, draw).gate.trace[|v.gate.trace|..];
    }
  }

  lemma AuthNotes(cfg: Config, crypto: Crypto, v: View, s: Sid, now: int, f: Frame, draw: Draw)
      returns (notes: seq<Note>)
    ensures HandleAuthReq(cfg, crypto, v, s, now, f, draw).gate.trace == v.gate.trace + notes
    ensures forall n | n in notes :: n.Posted? && n.sid == s && n.buffer.Raw? && IsMade(n.buffer.data) && n.cause.None?
  {
    notes := HandleAuthReq(cfg, crypto, v, s, now, f, draw).gate.trace[|v.gate.trace|..];
  }

  lemma DispatchBufferFits(u: Setup, w: World, c: Call, p: PendingWake, buffer: Buffer)
    requires Joint(w.conns, w.gate) && IsDispatch(u.cfg, Wakes(w.gate), w.now, c, LinksOf(w), p, buffer)
    ensures p.session in w.conns && Fits(w.conns[p.session].protocol, buffer)
  {
    assert Detects(w.conns, w.gate.sessions[c.deviceId]);
    var localKey := Get(w.gate.db, u.cfg.key(LocalKey(c.deviceId)));
    if localKey.Some? { WakeupIsMade(localKey.value); }
  }

  lemma CommandNotes(u: Setup, w: World, c: Call) returns (notes: seq<Note>)
    requires Joint(w.conns, w.gate)
    ensures Adds(u, w, Command(c), notes) && TraceFits(w.conns, notes)
  {
    notes := [];
    var p, buffer := SendShape(u.cfg, Wakes(w.gate), w.now, c, LinksOf(w));
    if Sending(u, w, c).1.Sent? {
      notes := [Posted(p.session, buffer, Some(p.msgId)), Published(w.now, p.msgId, Dispatched)];
      DispatchBufferFits(u, w, c, p, buffer);
    }
  }

  lemma NextAddsFittingNotes(u: Setup, w: World, e: Event) returns (notes: seq<Note>)
    requires Safe(w) && Possible(w, e)
    ensures Adds(u, w, e, notes) && TraceFits(Next(u, w, e).conns, notes)
  {
    notes := [];
    match e {
      case JsonLine(s, r) =>
        notes := JsonNotes(u.cfg, ViewOf(w, s), s, w.now, r);
        JsonIsSessionStep(u.cfg, ViewOf(w, s), s, w.now, r);
      case FrameIn(s, f, draw) =>
        notes := FrameNotes(u.cfg, u.crypto, ViewOf(w, s), s, w.now, f, draw);
        FrameIsSessionStep(u.cfg, u.crypto, ViewOf(w, s), s, w.now, f, draw);
      case Command(c) =>
        notes := CommandNotes(u, w, c);
      case Tick(order) =>
        notes := NotesInOrder(u.cfg, Wakes(w.gate), w.now, LinksOf(w), order);
        TickFits(u.cfg, w.conns, Wakes(w.gate), w.now, LinksOf(w), order);
      case _ =>
    }
  }

  // ---- provisioned values ----

  lemma OthersStay(u: Setup, db: Db, after: Db, name: KeyName)
    requires Untouched(u, db) && SeparatesFamilies(u.cfg.key) && (name.Online? || name.PendingWakeKey?)
    requires forall k | k != u.cfg.key(name) :: Get(after, k) == Get(db, k)
    ensures Untouched(u, after)
  {
    forall k: KeyName | !k.Online? && !k.PendingWakeKey?
      ensures Get(after, u.cfg.key(k)) == Get(u.provisioned, u.cfg.key(k))
    {
      assert !SameKind(k, name);
    }
  }

  lemma LoginKeepsProvisioned(u: Setup, v: View, s: Sid, now: int, d: string, dev: Option<string>)
    requires Untouched(u, v.gate.db) && SeparatesFamilies(u.cfg.key)
    ensures Untouched(u, HandleJson(u.cfg, v, s, now, Login(d, dev)).gate.db)
  {
    OthersStay(u, v.gate.db, HandleJson(u.cfg, v, s, now, Login(d, dev)).gate.db, Online(d));
  }

  lemma ReportKeepsProvisioned(u: Setup, v: View, s: Sid, now: int, battery: Option<int>, dev: Option<string>)
    requires Untouched(u, v.gate.db) && SeparatesFamilies(u.cfg.key)
    ensures Untouched(u, HandleJson(u.cfg, v, s, now, Report(battery, dev)).gate.db)
  {
    var name := Online(StateOf(v.gate.states, v.conn.deviceId).deviceId);
    OthersStay(u, v.gate.db, HandleJson(u.cfg, v, s, now, Report(battery, dev)).gate.db, name);
  }

  lemma DoneKeepsProvisioned(u: Setup, v: View, s: Sid, now: int, id: string)
    requires Untouched(u, v.gate.db) && SeparatesFamilies(u.cfg.key)
    ensures Untouched(u, HandleJson(u.cfg, v, s, now, TaskDone(id)).gate.db)
  {
    var name := PendingWakeKey(if id in v.gate.pending then v.gate.pending[id].deviceId else "", id);
    OthersStay(u, v.gate.db, HandleJson(u.cfg, v, s, now, TaskDone(id)).gate.db, name);
  }

  lemma JsonKeepsProvisioned(u: Setup, v: View, s: Sid, now: int, r: Request)
    requires Untouched(u, v.gate.db) && SeparatesFamilies(u.cfg.key)
    ensures Untouched(u, HandleJson(u.cfg, v, s, now, r).gate.db)
  {
    match r {
      case Login(d, dev) => LoginKeepsProvisioned(u, v, s, now, d, dev);
      case Report(battery, dev) => ReportKeepsProvisioned(u, v, s, now, battery, dev);
      case TaskDone(id) => DoneKeepsProvisioned(u, v, s, now, id);
      case _ => assert HandleJson(u.cfg, v, s, now, r).gate.db == v.gate.db;
    }
  }

  lemma FrameKeepsProvisioned(u: Setup, v: View, s: Sid, now: int, f: Frame, draw: Draw)
    requires Untouched(u, v.gate.db) && SeparatesFamilies(u.cfg.key)
    ensures Untouched(u, HandleFrame(u.cfg, u.crypto, v, s, now, f, draw).gate.db)
  {
    var after := HandleFrame(u.cfg, u.crypto, v, s, now, f, draw).gate.db;
    if f.msgType == AUTH_REQ {
      var id := AuthenticatedId(u.cfg, u.crypto, v.gate.db, f);
      if id.Some? { OthersStay(u, v.gate.db, after, Online(id.value)); }
    } else if f.msgType == HEARTBEAT {
      OthersStay(u, v.gate.db, after, Online(StateOf(v.gate.states, v.conn.deviceId).deviceId));
    }
  }

  lemma CheckKeepsProvisioned(u: Setup, g: Gateway, now: int)
    requires Untouched(u, g.db) && SeparatesFamilies(u.cfg.key)
    ensures Untouched(u, Checked(u.cfg, Registry(g), now).db)
  {
    var after := Checked(u.cfg, Registry(g), now).db;
    forall k: KeyName | !k.Online? && !k.PendingWakeKey?
      ensures Get(after, u.cfg.key(k)) == Get(u.provisioned, u.cfg.key(k))
    {
      assert forall d :: OnlineKey(u.cfg, d) == u.cfg.key(k) ==> SameKind(Online(d), k);
    }
  }

  /** Local keys and index entries outlive every step. */
  lemma NextKeepsProvisioned(u: Setup, w: World, e: Event)
    requires Untouched(u, w.gate.db) && SeparatesFamilies(u.cfg.key) && Possible(w, e)
    ensures Untouched(u, Next(u, w, e).gate.db)
  {
    var after := Next(u, w, e).gate.db;
    match e {
      case JsonLine(s, r) => JsonKeepsProvisioned(u, ViewOf(w, s), s, w.now, r);
      case FrameIn(s, f, draw) => FrameKeepsProvisioned(u, ViewOf(w, s), s, w.now, f, draw);
      case Lost(s) => OthersStay(u, w.gate.db, after, Online(w.conns[s].deviceId));
      case Command(c) =>
        var p, buffer := SendShape(u.cfg, Wakes(w.gate), w.now, c, LinksOf(w));
        OthersStay(u, w.gate.db, after, PendingWakeKey(c.deviceId, MsgId(c.wall)));
      case Check => CheckKeepsProvisioned(u, w.gate, w.now);
      case _ =>
    }
  }

  // ---- every run ----

  lemma NextKeepsSafe(u: Setup, w: World, e: Event)
    requires Safe(w) && Possible(w, e)
    ensures Safe(Next(u, w, e))
  {
    var v := Next(u, w, e);
    NextKeepsRegistry(u, w, e);
    NextKeepsTheRest(u, w, e);
    NextKeepsProtocols(u, w, e);
    ProtocolsKept(w.conns, v.conns, w.gate.pending, w.gate.trace);
    var notes := NextAddsFittingNotes(u, w, e);
    TraceFitsConcat(v.conns, w.gate.trace, notes);
  }

  /** Every reachable state is safe. */
  lemma {:induction false} RunIsSafe(u: Setup, events: seq<Event>)
    requires IsRun(u, events)
    ensures Safe(Run(u, events))
  {
    if events != [] {
      RunIsSafe(u, events[..|events| - 1]);
      NextKeepsSafe(u, Run(u, events[..|events| - 1]), events[|events| - 1]);
    }
  }

  /** Over a store whose families do not collide, provisioned values are those of the start. */
  lemma {:induction false} RunKeepsProvisioned(u: Setup, events: seq<Event>)
    requires IsRun(u, events) && SeparatesFamilies(u.cfg.key)
    ensures Untouched(u, Run(u, events).gate.db)
  {
    if events != [] {
      RunKeepsProvisioned(u, events[..|events| - 1]);
      NextKeepsProvisioned(u, Run(u, events[..|events| - 1]), events[|events| - 1]);
    }
  }

  /** One event more. */
  lemma RunSnoc(u: Setup, events: seq<Event>, e: Event)
    requires IsRun(u, events) && Possible(Run(u, events), e)
    ensures IsRun(u, events + [e]) && Run(u, events + [e]) == Next(u, Run(u, events), e)
  {
    assert (events + [e])[..|events|] == events;
  }
}
