/** The stored records of pending commands, over every run: how long they last, and when they lapse too early. */
module Coverage {
  import opened Model
  import opened Codec
  import opened Redis
  import opened Presence
  import opened Dispatcher
  import opened Timing
  import opened Session
  import opened World
  import opened Records
  import opened Histories

  // ---- the ids of registered devices and pending commands ----

  ghost predicate StatesWithin(states: map<string, DeviceState>, ids: iset<string>) {
    forall d | d in states && d != "" :: d in ids
  }

  /** Pending commands are to the given devices, under ids made from the clock. */
  ghost predicate PendingWithin(pending: map<string, PendingWake>, ids: iset<string>) {
    forall id | id in pending :: pending[id].msgId == id && IsMsgId(id) && pending[id].deviceId in ids
  }

  lemma WithinIsApart(cfg: Config, pending: map<string, PendingWake>, ids: iset<string>)
    requires PendingWithin(pending, ids) && PendingApart(cfg.key, ids)
    ensures RecordsApart(cfg, pending)
  {}

  lemma JsonStaysWithin(cfg: Config, v: View, s: Sid, now: int, r: Request, ids: iset<string>)
    requires StatesWithin(v.gate.states, ids) && IdHasState(v.conn, v.gate.states)
    requires r.Login? && r.deviceId != "" ==> r.deviceId in ids
    ensures StatesWithin(HandleJson(cfg, v, s, now, r).gate.states, ids)
  {}

  lemma FrameStaysWithin(u: Setup, v: View, s: Sid, now: int, f: Frame, draw: Draw, ids: iset<string>)
    requires IndexWithin(u, ids) && Untouched(u, v.gate.db)
    requires StatesWithin(v.gate.states, ids) && IdHasState(v.conn, v.gate.states)
    ensures StatesWithin(HandleFrame(u.cfg, u.crypto, v, s, now, f, draw).gate.states, ids)
  {
    AuthenticatedIdIsWithin(u, v.gate.db, f, ids);
  }

  lemma CommandStaysWithin(u: Setup, w: World, c: Call, ids: iset<string>)
    requires RegistryInv(Registry(w.gate), w.now)
    requires StatesWithin(w.gate.states, ids) && PendingWithin(w.gate.pending, ids)
    ensures PendingWithin(Sending(u, w, c).0.pending, ids)
  {
    var p, buffer := SendShape(u.cfg, Wakes(w.gate), w.now, c, LinksOf(w));
    assert IsMsgId(MsgId(c.wall));
    assert c.deviceId in w.gate.sessions ==> c.deviceId in ids;
  }

  lemma NextStatesWithin(u: Setup, w: World, e: Event, ids: iset<string>)
    requires IndexWithin(u, ids) && LoginWithin(e, ids) && Untouched(u, w.gate.db) && Possible(w, e)
    requires Joint(w.conns, w.gate) && StatesWithin(w.gate.states, ids)
    ensures StatesWithin(Next(u, w, e).gate.states, ids)
  {
    match e {
      case JsonLine(s, r) =>
        assert IdHasState(w.conns[s], w.gate.states);
        JsonStaysWithin(u.cfg, ViewOf(w, s), s, w.now, r, ids);
      case FrameIn(s, f, draw) =>
        assert IdHasState(w.conns[s], w.gate.states);
        FrameStaysWithin(u, ViewOf(w, s), s, w.now, f, draw, ids);
      case _ =>
    }
  }

  lemma NextPendingWithin(u: Setup, w: World, e: Event, ids: iset<string>)
    requires RegistryInv(Registry(w.gate), w.now) && Possible(w, e)
    requires StatesWithin(w.gate.states, ids) && PendingWithin(w.gate.pending, ids)
    ensures PendingWithin(Next(u, w, e).gate.pending, ids)
  {
    match e {
      case JsonLine(s, r) => JsonIsSessionStep(u.cfg, ViewOf(w, s), s, w.now, r);
      case FrameIn(s, f, draw) => FrameIsSessionStep(u.cfg, u.crypto, ViewOf(w, s), s, w.now, f, draw);
      case Command(c) => CommandStaysWithin(u, w, c, ids);
      case _ =>
    }
  }

  lemma {:induction false} RunStaysWithin(u: Setup, events: seq<Event>, ids: iset<string>)
    requires SeparatesFamilies(u.cfg.key) && IndexWithin(u, ids) && IsRun(u, events) && LoginsWithin(events, ids)
    ensures StatesWithin(Run(u, events).gate.states, ids) && PendingWithin(Run(u, events).gate.pending, ids)
  {
    if events != [] {
      var n := |events| - 1;
      RunStaysWithin(u, events[..n], ids);
      RunIsSafe(u, events[..n]);
      RunKeepsProvisioned(u, events[..n]);
      assert LoginWithin(events[n], ids);
      NextStatesWithin(u, Run(u, events[..n]), events[n], ids);
      NextPendingWithin(u, Run(u, events[..n]), events[n], ids);
    }
  }

  // ---- what does not touch the records of commands ----

  ghost predicate SameRecord(a: Db, b: Db, key: string) {
    (key in a <==> key in b) && (key in a ==> a[key] == b[key])
  }

  ghost predicate SamePendingRecords(cfg: Config, a: Db, b: Db) {
    forall name: KeyName | name.PendingWakeKey? :: SameRecord(a, b, cfg.key(name))
  }

  lemma OneOnlineRecord(cfg: Config, a: Db, b: Db, d: string)
    requires SeparatesFamilies(cfg.key)
    requires forall k | k != OnlineKey(cfg, d) :: SameRecord(a, b, k)
    ensures SamePendingRecords(cfg, a, b)
  {
    forall name: KeyName | name.PendingWakeKey?
      ensures SameRecord(a, b, cfg.key(name))
    {
      assert !SameKind(Online(d), name);
    }
  }

  lemma JsonOnRecords(cfg: Config, v: View, s: Sid, now: int, r: Request)
    requires SeparatesFamilies(cfg.key)
    ensures SamePendingRecords(cfg, AfterMarks(cfg, Wakes(v.gate), now, r).db, HandleJson(cfg, v, s, now, r).gate.db)
  {
    match r {
      case Login(id, dev) => OneOnlineRecord(cfg, v.gate.db, HandleJson(cfg, v, s, now, Login(id, dev)).gate.db, id);
      case Report(battery, dev) =>
        var d := StateOf(v.gate.states, v.conn.deviceId).deviceId;
        OneOnlineRecord(cfg, v.gate.db, HandleJson(cfg, v, s, now, Report(battery, dev)).gate.db, d);
      case _ => assert HandleJson(cfg, v, s, now, r).gate.db == AfterMarks(cfg, Wakes(v.gate), now, r).db;
    }
  }

  lemma AuthOnRecords(cfg: Config, crypto: Crypto, v: View, s: Sid, now: int, f: Frame, draw: Draw)
    requires SeparatesFamilies(cfg.key) && f.msgType == AUTH_REQ
    ensures SamePendingRecords(cfg, v.gate.db, HandleFrame(cfg, crypto, v, s, now, f, draw).gate.db)
  {
    var id := AuthenticatedId(cfg, crypto, v.gate.db, f);
    var after := HandleFrame(cfg, crypto, v, s, now, f, draw).gate.db;
    if id.Some? { OneOnlineRecord(cfg, v.gate.db, after, id.value); }
  }

  lemma FrameOnRecords(cfg: Config, crypto: Crypto, v: View, s: Sid, now: int, f: Frame, draw: Draw)
    requires SeparatesFamilies(cfg.key)
    ensures SamePendingRecords(cfg, v.gate.db, HandleFrame(cfg, crypto, v, s, now, f, draw).gate.db)
  {
    if f.msgType == AUTH_REQ {
      AuthOnRecords(cfg, crypto, v, s, now, f, draw);
    } else {
      var d := StateOf(v.gate.states, v.conn.deviceId).deviceId;
      OneOnlineRecord(cfg, v.gate.db, HandleFrame(cfg, crypto, v, s, now, f, draw).gate.db, d);
    }
  }

  lemma CheckOnRecords(cfg: Config, p: Presence, now: int)
    requires SeparatesFamilies(cfg.key)
    ensures SamePendingRecords(cfg, p.db, Checked(cfg, p, now).db)
  {
    forall name: KeyName | name.PendingWakeKey?
      ensures forall d :: OnlineKey(cfg, d) != cfg.key(name)
    {
      PendingKeysAreNotOnline(cfg, name);
    }
  }

  lemma NextOnRecords(u: Setup, w: World, e: Event)
    requires SeparatesFamilies(u.cfg.key) && Possible(w, e)
    ensures SamePendingRecords(u.cfg, Core(u, w, e).db, Next(u, w, e).gate.db)
  {
    match e {
      case JsonLine(s, r) => JsonOnRecords(u.cfg, ViewOf(w, s), s, w.now, r);
      case FrameIn(s, f, draw) => FrameOnRecords(u.cfg, u.crypto, ViewOf(w, s), s, w.now, f, draw);
      case Lost(s) => OneOnlineRecord(u.cfg, w.gate.db, Next(u, w, e).gate.db, w.conns[s].deviceId);
      case Check => CheckOnRecords(u.cfg, Registry(w.gate), w.now);
      case _ => assert Core(u, w, e).db == Next(u, w, e).gate.db;
    }
  }

  // ---- the record of a pending command ----

  lemma RefusalKeepsRecorded(cfg: Config, w: WakeState, v: WakeState, id: string)
    requires Recorded(cfg, w, id) && v.pending == w.pending && v.trace == w.trace && v.db == w.db
    ensures Recorded(cfg, v, id)
  {}

  lemma CommandKeepsRecorded(cfg: Config, w: WakeState, now: int, c: Call, links: Links, id: string)
    requires Recorded(cfg, w, id) && RecordsApart(cfg, SendWake(cfg, w, now, c, links).0.pending)
    requires SendWake(cfg, w, now, c, links).1.Sent? ==> IsUntouched(w.trace, MsgId(c.wall))
    ensures Recorded(cfg, SendWake(cfg, w, now, c, links).0, id)
  {
    var (v, r) := SendWake(cfg, w, now, c, links);
    var p, buffer := SendShape(cfg, w, now, c, links);
    if r.Sent? { EnterKeepsRecorded(cfg, w, now, p, buffer, id); } else { RefusalKeepsRecorded(cfg, w, v, id); }
  }

  lemma JsonKeepsRecorded(cfg: Config, w: WakeState, now: int, r: Request, id: string)
    requires RecordsApart(cfg, w.pending) && KeysMatch(w.pending) && Recorded(cfg, w, id)
    ensures Recorded(cfg, AfterMarks(cfg, w, now, r), id)
  {
    match r {
      case WakeAck(msgId) => AckKeepsRecorded(cfg, w, now, msgId, id);
      case TaskDone(msgId) => DoneKeepsRecorded(cfg, w, now, msgId, id);
      case _ =>
    }
  }

  lemma CoreKeepsRecorded(u: Setup, w: World, e: Event, id: string)
    requires Possible(w, e) && Recorded(u.cfg, Wakes(w.gate), id) && KeysMatch(w.gate.pending)
    requires RecordsApart(u.cfg, w.gate.pending) && RecordsApart(u.cfg, Core(u, w, e).pending)
    requires id in w.gate.pending ==> Statuses(w.gate.trace, id) != []
    requires DispatchTime(u, w, e) != [] ==> IsUntouched(w.gate.trace, MsgId(DispatchTime(u, w, e)[0]))
    ensures Recorded(u.cfg, Core(u, w, e), id)
  {
    match e {
      case JsonLine(s, r) => JsonKeepsRecorded(u.cfg, Wakes(w.gate), w.now, r, id);
      case Command(c) => CommandKeepsRecorded(u.cfg, Wakes(w.gate), w.now, c, LinksOf(w), id);
      case Tick(order) => TickKeepsRecorded(u.cfg, Wakes(w.gate), w.now, LinksOf(w), order, id);
      case _ =>
    }
  }

  lemma QuietKeepsRecorded(cfg: Config, a: WakeState, b: WakeState, id: string)
    requires Recorded(cfg, a, id) && IsQuietStep(a, b) && SamePendingRecords(cfg, a.db, b.db)
    ensures Recorded(cfg, b, id)
  {
    QuietStepKeepsHistory(cfg, a, b, id);
    if id in b.pending {
      assert SameRecord(a.db, b.db, cfg.key(PendingWakeKey(b.pending[id].deviceId, b.pending[id].msgId)));
    }
  }

  lemma {:induction false} RunKeepsRecorded(u: Setup, events: seq<Event>, id: string, ids: iset<string>)
    requires SeparatesFamilies(u.cfg.key) && PendingApart(u.cfg.key, ids) && IndexWithin(u, ids)
    requires IsRun(u, events) && LoginsWithin(events, ids) && Distinct(DispatchTimes(u, events))
    ensures Recorded(u.cfg, Wakes(Run(u, events).gate), id)
  {
    if events != [] {
      var n := |events| - 1;
      var w, e := Run(u, events[..n]), events[n];
      FreshDispatch(u, events);
      RunKeepsRecorded(u, events[..n], id, ids);
      RunIsSafe(u, events[..n]);
      RunStaysWithin(u, events[..n], ids);
      RunStaysWithin(u, events, ids);
      WithinIsApart(u.cfg, w.gate.pending, ids);
      WithinIsApart(u.cfg, Next(u, w, e).gate.pending, ids);
      assert Coherent(u.cfg, w.gate.pending, w.gate.trace, id);
      NextOnWakes(u, w, e);
      CoreKeepsRecorded(u, w, e, id);
      NextOnRecords(u, w, e);
      QuietKeepsRecorded(u.cfg, Core(u, w, e), Wakes(Next(u, w, e).gate), id);
    }
  }

  /** Over every run with distinct dispatch times, timely ticks and ids that keep their records apart: if the failure
      window fits the record's time to live, every serviced pending command has its live record. */
  lemma PendingIsCovered(u: Setup, events: seq<Event>, gap: int, id: string, ids: iset<string>)
    requires SeparatesFamilies(u.cfg.key) && PendingApart(u.cfg.key, ids) && IndexWithin(u, ids)
    requires IsRun(u, events) && LoginsWithin(events, ids) && Distinct(DispatchTimes(u, events))
    requires u.cfg.ackTimeoutMs >= 0 && gap >= 0 && IsTimely(u, events, gap, id) && WindowFits(u.cfg, gap)
    ensures
      var w := Run(u, events);
      id in w.gate.pending ==> Live(w.gate.db, PendingKey(u.cfg, w.gate.pending[id]), w.now)
  {
    var w := Run(u, events);
    DistinctRunKeepsLifecycle(u, events);
    RunIsOnTime(u, events, gap, id);
    RunKeepsRecorded(u, events, id, ids);
    assert Coherent(u.cfg, w.gate.pending, w.gate.trace, id);
    if id in w.gate.pending { PendingIsRecorded(u.cfg, gap, Wakes(w.gate), id, w.lastTick, w.now); }
  }

  // ---- the slowest command: a record that lapses too early ----

  /** What a run shows about a command: it respects the gap and services the command, and when it dispatched. */
  ghost predicate IsWitness(u: Setup, events: seq<Event>, gap: int, id: string, ids: iset<string>, times: seq<int>,
      w: World)
  {
    && IsRun(u, events) && Run(u, events) == w && LoginsWithin(events, ids)
    && IsTimely(u, events, gap, id) && DispatchTimes(u, events) == times
  }

  lemma WitnessSnoc(u: Setup, events: seq<Event>, e: Event, gap: int, id: string, ids: iset<string>, times: seq<int>,
      w: World)
    requires IsWitness(u, events, gap, id, ids, times, w) && Possible(w, e)
    requires StepIsTimely(u, w, e, gap, id) && LoginWithin(e, ids)
    ensures IsWitness(u, events + [e], gap, id, ids, times + DispatchTime(u, w, e), Next(u, w, e))
  {
    RunSnoc(u, events, e);
    assert (events + [e])[..|events|] == events;
  }

  /** One pending command, to a session that can be locked. */
  ghost predicate OnePending(w: World, p: PendingWake) {
    w.gate.pending == map[p.msgId := p] && p.protocol == JSON_LINE && p.session in w.conns && p.session in w.alive
  }

  /** The same gateway later. */
  ghost predicate HasPassed(w: World, v: World, ms: int) {
    v.now == w.now + ms && v.conns == w.conns && v.alive == w.alive && v.gate.db == w.gate.db
  }

  lemma OneKey(id: string)
    ensures IsOrder([id], {id})
  {
    assert [id][..0] == [];
  }

  lemma TickOfOne(u: Setup, w: World, p: PendingWake)
    requires OnePending(w, p)
    ensures Possible(w, Tick([p.msgId]))
    ensures
      var v, fate := Next(u, w, Tick([p.msgId])), FateOf(u.cfg, p, w.now, LinksOf(w));
      && fate != Skip && HasPassed(w, v, 0) && v.lastTick == v.now
      && (fate != Fail ==> v.gate.pending == map[p.msgId := AfterTick(u.cfg, p, w.now, LinksOf(w))])
  {
    OneKey(p.msgId);
    assert w.gate.pending.Keys == {p.msgId};
    assert p.session in LinksOf(w);
  }

  /** Time passes. */
  lemma Pass(u: Setup, events: seq<Event>, gap: int, id: string, ids: iset<string>, times: seq<int>, w: World, ms: nat)
    requires IsWitness(u, events, gap, id, ids, times, w) && w.now + ms <= w.lastTick + gap
    ensures IsWitness(u, events + [Advance(ms)], gap, id, ids, times, w.(now := w.now + ms))
  {
    WitnessSnoc(u, events, Advance(ms), gap, id, ids, times, w);
    assert times + [] == times;
  }

  /** The timer ticks over the one pending command, which is kept or retried. */
  lemma TickOnce(u: Setup, events: seq<Event>, gap: int, ids: iset<string>, times: seq<int>, w: World, p: PendingWake)
    returns (v: World)
    requires IsWitness(u, events, gap, p.msgId, ids, times, w) && OnePending(w, p)
    requires FateOf(u.cfg, p, w.now, LinksOf(w)) != Fail
    ensures IsWitness(u, events + [Tick([p.msgId])], gap, p.msgId, ids, times, v)
    ensures HasPassed(w, v, 0) && v.lastTick == v.now && OnePending(v, AfterTick(u.cfg, p, w.now, LinksOf(w)))
  {
    TickOfOne(u, w, p);
    v := Next(u, w, Tick([p.msgId]));
    WitnessSnoc(u, events, Tick([p.msgId]), gap, p.msgId, ids, times, w);
    assert times + [] == times;
  }

  /** Ticks at every millisecond, for as long as the command is not due. */
  lemma {:induction false} Wait(u: Setup, events: seq<Event>, gap: int, ids: iset<string>, times: seq<int>, w: World,
      p: PendingWake, ms: nat) returns (later: seq<Event>, v: World)
    requires IsWitness(u, events, gap, p.msgId, ids, times, w) && OnePending(w, p) && gap >= 1
    requires w.lastTick == w.now && w.now + ms < p.nextRetry
    ensures IsWitness(u, later, gap, p.msgId, ids, times, v)
    ensures HasPassed(w, v, ms) && v.lastTick == v.now && OnePending(v, p)
    decreases ms
  {
    later, v := events, w;
    if ms > 0 {
      Pass(u, events, gap, p.msgId, ids, times, w, 1);
      var next := w.(now := w.now + 1);
      var ticked := TickOnce(u, events + [Advance(1)], gap, ids, times, next, p);
      later, v := Wait(u, events + [Advance(1)] + [Tick([p.msgId])], gap, ids, times, ticked, p, ms - 1);
    }
  }

  /** The longest wait for the next tick that finds the command due. */
  lemma LongestWait(u: Setup, events: seq<Event>, gap: int, ids: iset<string>, times: seq<int>, w: World,
      p: PendingWake)
    returns (later: seq<Event>, v: World)
    requires IsWitness(u, events, gap, p.msgId, ids, times, w) && OnePending(w, p) && gap >= 1
    requires u.cfg.ackTimeoutMs >= 0 && w.lastTick == w.now && p.nextRetry == w.now + u.cfg.ackTimeoutMs
    ensures IsWitness(u, later, gap, p.msgId, ids, times, v)
    ensures HasPassed(w, v, Stretch(u.cfg, gap)) && OnePending(v, p) && p.nextRetry <= v.now
  {
    later, v := events, w;
    if u.cfg.ackTimeoutMs > 0 {
      later, v := Wait(u, events, gap, ids, times, w, p, u.cfg.ackTimeoutMs - 1);
    }
    Pass(u, later, gap, p.msgId, ids, times, v, gap);
    later, v := later + [Advance(gap)], v.(now := v.now + gap);
  }

  lemma PassOn(w: World, x: World, v: World, a: int, b: int)
    requires HasPassed(w, x, a) && HasPassed(x, v, b)
    ensures HasPassed(w, v, a + b)
  {}

  lemma OneMore(n: int, x: int)
    ensures n * x == x + (n - 1) * x
  {}

  /** The entry was retried n times, each as late as can be, the last time just now. */
  ghost predicate IsRetried(cfg: Config, gap: int, w: World, v: World, p: PendingWake, q: PendingWake, n: int) {
    && HasPassed(w, v, n * Stretch(cfg, gap)) && v.lastTick == v.now
    && q == p.(retryCount := p.retryCount + n, nextRetry := v.now + cfg.ackTimeoutMs)
  }

  lemma RetriedOnceMore(cfg: Config, gap: int, w: World, x: World, v: World, p: PendingWake, r: PendingWake,
      q: PendingWake, n: int)
    requires IsRetried(cfg, gap, w, x, p, r, 1) && IsRetried(cfg, gap, x, v, r, q, n - 1)
    ensures IsRetried(cfg, gap, w, v, p, q, n)
  {
    PassOn(w, x, v, Stretch(cfg, gap), (n - 1) * Stretch(cfg, gap));
    OneMore(n, Stretch(cfg, gap));
  }

  lemma SlowRetry(u: Setup, events: seq<Event>, gap: int, ids: iset<string>, times: seq<int>, w: World, p: PendingWake)
    returns (later: seq<Event>, v: World, q: PendingWake)
    requires IsWitness(u, events, gap, p.msgId, ids, times, w) && OnePending(w, p) && gap >= 1
    requires u.cfg.ackTimeoutMs >= 0 && w.lastTick == w.now && p.nextRetry == w.now + u.cfg.ackTimeoutMs
    requires p.retryCount < u.cfg.maxRetry
    ensures IsWitness(u, later, gap, p.msgId, ids, times, v) && OnePending(v, q)
    ensures IsRetried(u.cfg, gap, w, v, p, q, 1)
  {
    var due, world := LongestWait(u, events, gap, ids, times, w, p);
    assert p.session in LinksOf(world);
    q := AfterTick(u.cfg, p, world.now, LinksOf(world));
    v := TickOnce(u, due, gap, ids, times, world, p);
    later := due + [Tick([p.msgId])];
  }

  /** A number of retries, each as late as can be. */
  lemma {:induction false} SlowestRetries(u: Setup, events: seq<Event>, gap: int, ids: iset<string>, times: seq<int>,
      w: World, p: PendingWake, n: nat) returns (later: seq<Event>, v: World, q: PendingWake)
    requires IsWitness(u, events, gap, p.msgId, ids, times, w) && OnePending(w, p) && gap >= 1
    requires u.cfg.ackTimeoutMs >= 0 && w.lastTick == w.now && p.nextRetry == w.now + u.cfg.ackTimeoutMs
    requires n > 0 ==> p.retryCount + n <= u.cfg.maxRetry
    ensures IsWitness(u, later, gap, p.msgId, ids, times, v) && OnePending(v, q)
    ensures IsRetried(u.cfg, gap, w, v, p, q, n)
    decreases n
  {
    if n == 0 {
      later, v, q := events, w, p;
    } else {
      var once, world, retried := SlowRetry(u, events, gap, ids, times, w, p);
      later, v, q := SlowestRetries(u, once, gap, ids, times, world, retried, n - 1);
      RetriedOnceMore(u.cfg, gap, w, world, v, p, retried, q, n);
    }
  }

  /** The store after a login and a command. */
  function FirstDb(u: Setup, d: string): Db {
    var online := UpdatedRedis(u.cfg, u.provisioned, u.start, FreshState(d, "json_line", "unknown", u.start));
    SetEx(online, u.cfg.key(PendingWakeKey(d, MsgId(0))), u.start, RecordTtlSec(u.cfg))
  }

  function FirstEntry(u: Setup, d: string): PendingWake {
    var document := WakeDocument(u.cfg, FirstCall(d));
    PendingWake(d, MsgId(0), "wake", document, 0, JSON_LINE, 0, u.start + u.cfg.ackTimeoutMs)
  }

  function FirstCall(d: string): Call {
    Call(d, "wake", "", 0, 0)
  }

  lemma FirstDispatch(u: Setup, v: World, d: string)
    requires LoggedIn(u, Booted(u), v, 0, d)
    ensures DispatchTime(u, v, Command(FirstCall(d))) == [0]
    ensures
      var w, p := Next(u, v, Command(FirstCall(d))), FirstEntry(u, d);
      && OnePending(w, p) && w.now == w.lastTick == u.start && w.gate.db == FirstDb(u, d)
      && DispatchTime(u, w, Command(FirstCall(d))) == [0]
  {
    DispatchToSession(u, v, FirstCall(d), FirstEntry(u, d), WakeDocument(u.cfg, FirstCall(d)));
  }

  lemma FirstLogin(u: Setup, gap: int, d: string, ids: iset<string>) returns (v: World)
    requires d in ids && d != ""
    ensures IsWitness(u, LoginEvents(0, d), gap, MsgId(0), ids, [], v) && LoggedIn(u, Booted(u), v, 0, d)
  {
    FirstLoginRun(u, d);
    OthersAreTimely(u, LoginEvents(0, d), gap, MsgId(0));
    v := Run(u, LoginEvents(0, d));
  }

  /** A device logs in and is sent a command at once. */
  lemma FirstCommand(u: Setup, gap: int, d: string, ids: iset<string>) returns (events: seq<Event>, w: World)
    requires d in ids && d != "" && gap >= 0
    ensures IsWitness(u, events, gap, MsgId(0), ids, [0], w) && OnePending(w, FirstEntry(u, d))
    ensures w.now == w.lastTick == u.start && w.gate.db == FirstDb(u, d)
    ensures DispatchTime(u, w, Command(FirstCall(d))) == [0]
  {
    var v := FirstLogin(u, gap, d, ids);
    FirstDispatch(u, v, d);
    w := Next(u, v, Command(FirstCall(d)));
    WitnessSnoc(u, LoginEvents(0, d), Command(FirstCall(d)), gap, MsgId(0), ids, [], v);
    events := LoginEvents(0, d) + [Command(FirstCall(d))];
  }

  lemma DispatchToSession(u: Setup, v: World, c: Call, p: PendingWake, document: Message)
    requires c.deviceId in v.gate.sessions && v.gate.sessions[c.deviceId] in LinksOf(v)
    requires LinksOf(v)[v.gate.sessions[c.deviceId]] == JSON_LINE && c.cmd != "lowpower_wakeup"
    requires document == WakeDocument(u.cfg, c)
    requires p == PendingWake(c.deviceId, MsgId(c.wall), c.cmd, document, v.gate.sessions[c.deviceId], JSON_LINE, 0,
      v.now + u.cfg.ackTimeoutMs)
    ensures Next(u, v, Command(c)) ==
      v.(gate := WithWakes(v.gate, Entered(u.cfg, Wakes(v.gate), v.now, p, Line(document))))
    ensures DispatchTime(u, v, Command(c)) == [c.wall]
  {}

  /** Events that neither pass time nor tick nor send a command show nothing about one. */
  lemma {:induction false} OthersAreTimely(u: Setup, events: seq<Event>, gap: int, id: string)
    requires IsRun(u, events) && forall e | e in events :: !e.Advance? && !e.Tick? && !e.Command?
    ensures IsTimely(u, events, gap, id) && DispatchTimes(u, events) == []
  {
    if events != [] {
      OthersAreTimely(u, events[..|events| - 1], gap, id);
      assert events[|events| - 1] in events;
    }
  }

  /** A run over the ids with distinct dispatch times that respects the gap and services the command. */
  ghost predicate IsServicedRun(u: Setup, events: seq<Event>, gap: int, id: string, ids: iset<string>) {
    && IsRun(u, events) && LoginsWithin(events, ids)
    && Distinct(DispatchTimes(u, events)) && IsTimely(u, events, gap, id)
  }

  ghost predicate IsCovered(u: Setup, events: seq<Event>, gap: int, id: string, ids: iset<string>) {
    IsServicedRun(u, events, gap, id, ids) ==>
      var w := Run(u, events);
      id in w.gate.pending ==> Live(w.gate.db, PendingKey(u.cfg, w.gate.pending[id]), w.now)
  }

  /** The slowest command is still pending when its record has lapsed, if the window does not fit. */
  lemma SlowestLapses(u: Setup, gap: int, d: string, ids: iset<string>) returns (events: seq<Event>, id: string)
    requires SeparatesFamilies(u.cfg.key) && d in ids && d != "" && u.cfg.ackTimeoutMs >= 0 && gap >= 1
    requires u.cfg.key(PendingWakeKey(d, MsgId(0))) !in u.provisioned && !WindowFits(u.cfg, gap)
    ensures !IsCovered(u, events, gap, id, ids)
  {
    var m, p := RetryLimit(u.cfg), FirstEntry(u, d);
    var first, w := FirstCommand(u, gap, d, ids);
    var retried, v, q := SlowestRetries(u, first, gap, ids, [0], w, p, m);
    var last, end := LongestWait(u, retried, gap, ids, [0], v, q);
    events, id := last, p.msgId;
    PassOn(w, v, end, m * Stretch(u.cfg, gap), Stretch(u.cfg, gap));
    OneMore(m + 1, Stretch(u.cfg, gap));
    LapsesByThen(u.cfg, gap);
    FirstRecordLapses(u, d, end.now);
    assert [0][..0] == [];
  }

  lemma LapsesByThen(cfg: Config, gap: int)
    requires !WindowFits(cfg, gap) && cfg.ackTimeoutMs >= 0 && gap >= 1
    ensures Deadline(cfg, gap, 0) >= 1000 * RecordTtlSec(cfg)
  {
    WholeSeconds(cfg);
    MulMonotone(0, RetryLimit(cfg) + 1, Stretch(cfg, gap));
  }

  lemma FirstRecordLapses(u: Setup, d: string, now: int)
    requires SeparatesFamilies(u.cfg.key) && u.cfg.key(PendingWakeKey(d, MsgId(0))) !in u.provisioned
    requires now >= u.start + 1000 * RecordTtlSec(u.cfg)
    ensures !Live(FirstDb(u, d), u.cfg.key(PendingWakeKey(d, MsgId(0))), now)
  {
    PendingKeysAreNotOnline(u.cfg, PendingWakeKey(d, MsgId(0)));
    assert OnlineKey(u.cfg, d) != u.cfg.key(PendingWakeKey(d, MsgId(0)));
  }

  /** For a positive gap: over every run with distinct dispatch times and timely ticks, every serviced pending command
      has its live record, exactly when the time to live exceeds (m+1) times the longest time between two events. */
  lemma CoverageIffFits(u: Setup, gap: int, d: string, ids: iset<string>)
    requires SeparatesFamilies(u.cfg.key) && PendingApart(u.cfg.key, ids) && IndexWithin(u, ids)
    requires u.cfg.ackTimeoutMs >= 0 && gap >= 1
    requires d in ids && d != "" && u.cfg.key(PendingWakeKey(d, MsgId(0))) !in u.provisioned
    ensures (forall events, id :: IsCovered(u, events, gap, id, ids)) <==> WindowFits(u.cfg, gap)
  {
    if WindowFits(u.cfg, gap) {
      forall events, id
        ensures IsCovered(u, events, gap, id, ids)
      {
        if IsServicedRun(u, events, gap, id, ids) { PendingIsCovered(u, events, gap, id, ids); }
      }
    } else {
      var events, id := SlowestLapses(u, gap, d, ids);
    }
  }
}
