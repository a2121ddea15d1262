/** What the gateway guarantees over every run: presence, registration, silence, and authentication. */
module Guarantees {
  import opened Bytes
  import opened Model
  import opened Codec
  import opened Redis
  import opened Presence
  import opened Session
  import opened World
  import opened Records

  // ---- presence ----

  /** The registry at any reachable moment. */
  ghost predicate RegistryAgrees(w: World) {
    && (forall d | d in w.gate.sessions :: d != "" && d in w.gate.states && w.gate.states[d].online)
    && (forall d | d in w.gate.states :: w.gate.states[d].deviceId == d)
    && ("" in w.gate.states ==> !w.gate.states[""].online)
    && (forall s | s in w.conns && w.conns[s].deviceId != "" :: w.conns[s].deviceId in w.gate.states)
  }

  /** In every run: registered ids are online, states are filed under their own ids, the empty id never registers
      or comes online, and a logged-in id keeps its state. */
  lemma RegistryOverRuns(u: Setup, events: seq<Event>)
    requires IsRun(u, events)
    ensures RegistryAgrees(Run(u, events))
  {
    var w := Run(u, events);
    RunIsSafe(u, events);
    assert forall s | s in w.conns :: IdHasState(w.conns[s], w.gate.states);
  }

  /** In every run over ids that share no record and have none at the start: the stored record of each of them is
      unexpired exactly while it is online and within its idle timeout. */
  lemma PresenceOverRuns(u: Setup, events: seq<Event>, ids: iset<string>, d: string)
    requires SeparatesFamilies(u.cfg.key) && OnlineApart(u.cfg.key, ids)
    requires IndexWithin(u, ids) && NoneOnline(u, ids)
    requires IsRun(u, events) && LoginsWithin(events, ids) && d in ids
    ensures
      var w := Run(u, events);
      Live(w.gate.db, OnlineKey(u.cfg, d), w.now) <==>
        d in w.gate.states && w.gate.states[d].online &&
          w.now < w.gate.states[d].lastHeartbeat + 1000 * u.cfg.idleTimeoutSec
  {
    var w := Run(u, events);
    RunKeepsRecords(u, events, ids);
    RecordIsExact(u.cfg, Registry(w.gate), w.now, d, w.now);
  }

  /** States are only ever added. */
  lemma StatesNeverShrink(u: Setup, w: World, e: Event)
    requires Possible(w, e)
    ensures w.gate.states.Keys <= Next(u, w, e).gate.states.Keys
  {
    match e {
      case JsonLine(s, r) => JsonIsSessionStep(u.cfg, ViewOf(w, s), s, w.now, r);
      case FrameIn(s, f, draw) => FrameIsSessionStep(u.cfg, u.crypto, ViewOf(w, s), s, w.now, f, draw);
      case _ =>
    }
  }

  // ---- silence ----

  /** Checks come at most a period apart. */
  ghost predicate IsChecked(u: Setup, events: seq<Event>, period: int)
    requires IsRun(u, events)
  {
    events == [] ||
    (var w, e := Run(u, events[..|events| - 1]), events[|events| - 1];
     IsChecked(u, events[..|events| - 1], period) && (e.Advance? ==> w.now + e.ms <= w.lastCheck + period))
  }

  /** A device that is online after a session's step was so before, as long silent, or has just been heard. */
  ghost predicate HeardOrSame(before: map<string, DeviceState>, after: map<string, DeviceState>, now: int) {
    forall d | d in after && after[d].online ::
      || after[d].lastHeartbeat == now
      || (d in before && before[d].online && before[d].lastHeartbeat == after[d].lastHeartbeat)
  }

  lemma OneIsHeard(before: map<string, DeviceState>, d: string, s: DeviceState, now: int)
    requires s.lastHeartbeat == now
    ensures HeardOrSame(before, before[d := s], now)
  {}

  lemma JsonIsHeard(cfg: Config, v: View, s: Sid, now: int, r: Request)
    ensures HeardOrSame(v.gate.states, HandleJson(cfg, v, s, now, r).gate.states, now)
  {
    var after, id := HandleJson(cfg, v, s, now, r).gate.states, v.conn.deviceId;
    match r {
      case Login(d, _) => if d != "" { OneIsHeard(v.gate.states, d, after[d], now); }
      case Report(_, _) => if id != "" { OneIsHeard(v.gate.states, id, after[id], now); }
      case _ =>
    }
  }

  lemma FrameIsHeard(cfg: Config, crypto: Crypto, v: View, s: Sid, now: int, f: Frame, draw: Draw)
    ensures HeardOrSame(v.gate.states, HandleFrame(cfg, crypto, v, s, now, f, draw).gate.states, now)
  {
    if f.msgType == AUTH_REQ {
      AuthIsHeard(cfg, crypto, v, s, now, f, draw);
    } else {
      var after, id := HandleFrame(cfg, crypto, v, s, now, f, draw).gate.states, v.conn.deviceId;
      if after != v.gate.states { OneIsHeard(v.gate.states, id, after[id], now); }
    }
  }

  lemma AuthIsHeard(cfg: Config, crypto: Crypto, v: View, s: Sid, now: int, f: Frame, draw: Draw)
    ensures HeardOrSame(v.gate.states, HandleAuthReq(cfg, crypto, v, s, now, f, draw).gate.states, now)
  {
    var id := AuthenticatedId(cfg, crypto, v.gate.db, f);
    if id.Some? { OneIsHeard(v.gate.states, id.value, FreshState(id.value, "lowpower", "sleep", now), now); }
  }

  lemma NextBoundsSilence(u: Setup, w: World, e: Event)
    requires RegistryInv(Registry(w.gate), w.now) && Possible(w, e) && w.lastCheck <= w.now
    requires SilenceBounded(u.cfg, Registry(w.gate), w.lastCheck)
    ensures SilenceBounded(u.cfg, Registry(Next(u, w, e).gate), Next(u, w, e).lastCheck)
    ensures Next(u, w, e).lastCheck <= Next(u, w, e).now
  {
    match e {
      case JsonLine(s, r) => JsonIsHeard(u.cfg, ViewOf(w, s), s, w.now, r);
      case FrameIn(s, f, draw) => FrameIsHeard(u.cfg, u.crypto, ViewOf(w, s), s, w.now, f, draw);
      case Check => CheckBoundsSilence(u.cfg, Registry(w.gate), w.now);
      case _ =>
    }
    if !e.Check? {
      assert HeardOrSame(w.gate.states, Next(u, w, e).gate.states, w.now);
    }
  }

  lemma {:induction false} SilenceIsBounded(u: Setup, events: seq<Event>, period: int)
    requires IsRun(u, events) && IsChecked(u, events, period) && period >= 0
    ensures
      var w := Run(u, events);
      SilenceBounded(u.cfg, Registry(w.gate), w.lastCheck) && w.lastCheck <= w.now <= w.lastCheck + period
  {
    if events != [] {
      var n := |events| - 1;
      SilenceIsBounded(u, events[..n], period);
      RunIsSafe(u, events[..n]);
      NextBoundsSilence(u, Run(u, events[..n]), events[n]);
    }
  }

  /** No device stays online through more than idle+1 seconds and a check period of silence. */
  lemma NoLongSilence(u: Setup, events: seq<Event>, period: int, d: string)
    requires IsRun(u, events) && IsChecked(u, events, period) && period >= 0 && u.cfg.idleTimeoutSec >= -1
    ensures
      var w := Run(u, events);
      d in w.gate.states && w.gate.states[d].online ==>
        w.now - w.gate.states[d].lastHeartbeat <= 1000 * (u.cfg.idleTimeoutSec + 1) + period
  {
    SilenceIsBounded(u, events, period);
  }

  /** Its session is lost, or a check finds idle+1 seconds of silence. */
  ghost predicate GoesOffline(u: Setup, w: World, e: Event, d: string)
    requires Possible(w, e) && d in w.gate.states
  {
    match e
    case Lost(s) => w.conns[s].deviceId == d && !w.conns[s].closing
    case Check => w.now - w.gate.states[d].lastHeartbeat >= 1000 * (u.cfg.idleTimeoutSec + 1)
    case _ => false
  }

  lemma SafeOffline(u: Setup, w: World, e: Event, d: string)
    requires RegistryInv(Registry(w.gate), w.now) && Possible(w, e) && d in w.gate.states && w.gate.states[d].online
    ensures d in Next(u, w, e).gate.states
    ensures !Next(u, w, e).gate.states[d].online <==> GoesOffline(u, w, e, d)
  {
    match e {
      case JsonLine(s, r) => JsonKeepsOnline(u.cfg, ViewOf(w, s), s, w.now, r, d);
      case FrameIn(s, f, draw) => FrameKeepsOnline(u.cfg, u.crypto, ViewOf(w, s), s, w.now, f, draw, d);
      case Check => CheckIsExact(u.cfg, Registry(w.gate), w.now, d);
      case _ =>
    }
  }

  /** Exactly those events take an online device offline. */
  lemma OfflineCauses(u: Setup, events: seq<Event>, e: Event, d: string)
    requires IsRun(u, events) && Possible(Run(u, events), e)
    requires d in Run(u, events).gate.states && Run(u, events).gate.states[d].online
    ensures d in Next(u, Run(u, events), e).gate.states
    ensures !Next(u, Run(u, events), e).gate.states[d].online <==> GoesOffline(u, Run(u, events), e, d)
  {
    RunIsSafe(u, events);
    SafeOffline(u, Run(u, events), e, d);
  }

  lemma JsonKeepsOnline(cfg: Config, v: View, s: Sid, now: int, r: Request, d: string)
    requires d in v.gate.states && v.gate.states[d].online
    ensures var after := HandleJson(cfg, v, s, now, r).gate.states; d in after && after[d].online
  {}

  lemma FrameKeepsOnline(cfg: Config, crypto: Crypto, v: View, s: Sid, now: int, f: Frame, draw: Draw,
      d: string)
    requires d in v.gate.states && v.gate.states[d].online
    ensures var after := HandleFrame(cfg, crypto, v, s, now, f, draw).gate.states; d in after && after[d].online
  {}

  /** A JSON heartbeat is told the interval that its battery level grants. */
  lemma GrantIsAnnounced(cfg: Config, v: View, s: Sid, now: int, battery: Option<int>, dev: Option<string>)
    requires v.conn.deviceId != ""
    ensures
      var after := HandleJson(cfg, v, s, now, Report(battery, dev));
      && v.conn.deviceId in after.gate.states
      && after.gate.trace == v.gate.trace
           + [Posted(s, Line(HeartbeatAck(GrantedSec(cfg, after.gate.states[v.conn.deviceId].battery))), None)]
      && after.gate.states[v.conn.deviceId].online && after.gate.states[v.conn.deviceId].lastHeartbeat == now
  {}

  /** With an idle timeout of at least the default interval and 600 seconds, a device that is never silent for
      longer than its granted interval goes offline only when its session is lost. */
  lemma GrantedSilenceIsSpared(u: Setup, events: seq<Event>, e: Event, d: string)
    requires IsRun(u, events) && Possible(Run(u, events), e)
    requires d in Run(u, events).gate.states && Run(u, events).gate.states[d].online
    requires CoversGrants(u.cfg)
    requires
      var s := Run(u, events).gate.states[d];
      e.Check? ==> Run(u, events).now - s.lastHeartbeat <= 1000 * GrantedSec(u.cfg, s.battery)
    ensures
      var w := Run(u, events);
      d in Next(u, w, e).gate.states &&
      (!Next(u, w, e).gate.states[d].online ==> e.Lost? && w.conns[e.sid].deviceId == d)
  {
    OfflineCauses(u, events, e, d);
  }

  /** A session of the id is lost (whichever session is registered), a check finds it silent, or a command finds
      its session expired. */
  ghost predicate Unregisters(u: Setup, w: World, e: Event, d: string)
    requires Possible(w, e) && d in w.gate.states && d in w.gate.sessions
  {
    match e
    case Lost(s) => w.conns[s].deviceId == d && !w.conns[s].closing
    case Check => w.now - w.gate.states[d].lastHeartbeat >= 1000 * (u.cfg.idleTimeoutSec + 1)
    case Command(c) => c.deviceId == d && w.gate.sessions[d] !in LinksOf(w)
    case _ => false
  }

  lemma CommandUnregisters(u: Setup, w: World, c: Call, d: string)
    requires d in w.gate.sessions
    ensures d !in Sending(u, w, c).0.sessions <==> c.deviceId == d && w.gate.sessions[d] !in LinksOf(w)
  {}

  lemma LossUnregisters(cfg: Config, v: View, d: string)
    requires d in v.gate.sessions && d != ""
    ensures d !in Disconnect(cfg, v).gate.sessions <==> v.conn.deviceId == d && !v.conn.closing
  {}

  lemma SafeUnregisters(u: Setup, w: World, e: Event, d: string)
    requires RegistryInv(Registry(w.gate), w.now) && Possible(w, e) && d in w.gate.states && d in w.gate.sessions
    ensures d !in Next(u, w, e).gate.sessions <==> Unregisters(u, w, e, d)
  {
    match e {
      case JsonLine(s, r) => JsonKeepsRegistered(u.cfg, ViewOf(w, s), s, w.now, r, d);
      case FrameIn(s, f, draw) => FrameKeepsRegistered(u.cfg, u.crypto, ViewOf(w, s), s, w.now, f, draw, d);
      case Lost(s) => LossUnregisters(u.cfg, ViewOf(w, s), d);
      case Command(c) => CommandUnregisters(u, w, c, d);
      case Check => CheckIsExact(u.cfg, Registry(w.gate), w.now, d);
      case _ =>
    }
  }

  /** Exactly those events take a device out of the registry. */
  lemma UnregisteredCauses(u: Setup, events: seq<Event>, e: Event, d: string)
    requires IsRun(u, events) && Possible(Run(u, events), e)
    requires d in Run(u, events).gate.sessions
    ensures d in Run(u, events).gate.states
    ensures d !in Next(u, Run(u, events), e).gate.sessions <==> Unregisters(u, Run(u, events), e, d)
  {
    RunIsSafe(u, events);
    SafeUnregisters(u, Run(u, events), e, d);
  }

  lemma JsonKeepsRegistered(cfg: Config, v: View, s: Sid, now: int, r: Request, d: string)
    requires d in v.gate.sessions
    ensures d in HandleJson(cfg, v, s, now, r).gate.sessions
  {}

  lemma FrameKeepsRegistered(cfg: Config, crypto: Crypto, v: View, s: Sid, now: int, f: Frame, draw: Draw,
      d: string)
    requires d in v.gate.sessions
    ensures d in HandleFrame(cfg, crypto, v, s, now, f, draw).gate.sessions
  {}

  // ---- online, and not registered ----

  ghost predicate AllRegistered(w: World) {
    forall d | d in w.gate.states && w.gate.states[d].online :: d in w.gate.sessions
  }

  /** A heartbeat, of either protocol, on a session whose id is no longer registered; or a command that finds the
      session of its device expired. */
  ghost predicate Strands(w: World, e: Event)
    requires Possible(w, e)
  {
    match e
    case JsonLine(s, r) => r.Report? && w.conns[s].deviceId != "" && w.conns[s].deviceId !in w.gate.sessions
    case FrameIn(s, f, _) =>
      && f.msgType == HEARTBEAT && f.flag == 0 && f.size == 0
      && w.conns[s].deviceId != "" && w.conns[s].deviceId !in w.gate.sessions
    case Command(c) => c.deviceId in w.gate.sessions && w.gate.sessions[c.deviceId] !in LinksOf(w)
    case _ => false
  }

  lemma JsonStrands(u: Setup, w: World, s: Sid, r: Request)
    requires AllRegistered(w) && Possible(w, JsonLine(s, r))
    ensures !AllRegistered(Next(u, w, JsonLine(s, r))) <==> Strands(w, JsonLine(s, r))
  {
    var v, id := Next(u, w, JsonLine(s, r)), w.conns[s].deviceId;
    if r.Report? && id != "" { assert id in v.gate.states && v.gate.states[id].online; }
  }

  lemma FrameStrands(u: Setup, w: World, s: Sid, f: Frame, draw: Draw)
    requires AllRegistered(w) && Possible(w, FrameIn(s, f, draw))
    ensures !AllRegistered(Next(u, w, FrameIn(s, f, draw))) <==> Strands(w, FrameIn(s, f, draw))
  {
    var v, id := Next(u, w, FrameIn(s, f, draw)), w.conns[s].deviceId;
    if f.msgType == HEARTBEAT && f.flag == 0 && f.size == 0 && id != "" {
      assert id in v.gate.states && v.gate.states[id].online;
    }
  }

  lemma CommandStrands(u: Setup, w: World, c: Call)
    requires AllRegistered(w) && RegistryInv(Registry(w.gate), w.now)
    ensures !AllRegistered(Next(u, w, Command(c))) <==> Strands(w, Command(c))
  {
    var v := Next(u, w, Command(c));
    forall d | d in w.gate.sessions
      ensures d !in v.gate.sessions <==> c.deviceId == d && w.gate.sessions[d] !in LinksOf(w)
    {
      CommandUnregisters(u, w, c, d);
    }
  }

  /** Where every online id is registered, exactly those events end that. */
  lemma StrandedCauses(u: Setup, events: seq<Event>, e: Event)
    requires IsRun(u, events) && Possible(Run(u, events), e) && AllRegistered(Run(u, events))
    ensures !AllRegistered(Next(u, Run(u, events), e)) <==> Strands(Run(u, events), e)
  {
    var w := Run(u, events);
    RunIsSafe(u, events);
    match e {
      case JsonLine(s, r) => JsonStrands(u, w, s, r);
      case FrameIn(s, f, draw) => FrameStrands(u, w, s, f, draw);
      case Command(c) => CommandStrands(u, w, c);
      case _ =>
    }
  }

  /** A login, a silence that a check notices, and a heartbeat on the old connection. */
  function StrandingEvents(cfg: Config, d: string): seq<Event> {
    SilencedEvents(cfg, d) + [JsonLine(0, Report(None, None))]
  }

  function SilencedEvents(cfg: Config, d: string): seq<Event> {
    LoginEvents(0, d) + [Advance(Max(0, 1000 * (cfg.idleTimeoutSec + 1)))] + [Check]
  }

  lemma SilenceUnregisters(u: Setup, w: World, d: string)
    requires LoggedIn(u, Booted(u), w, 0, d) && RegistryInv(Registry(w.gate), w.now)
    ensures
      var v := Next(u, w.(now := w.now + Max(0, 1000 * (u.cfg.idleTimeoutSec + 1))), Check);
      d !in v.gate.sessions && v.conns == w.conns
  {
    CheckIsExact(u.cfg, Registry(w.gate), w.now + Max(0, 1000 * (u.cfg.idleTimeoutSec + 1)), d);
  }

  lemma ReportBringsOnline(u: Setup, w: World, d: string)
    requires 0 in w.conns && w.conns[0] == Conn(d, JSON_LINE, false, true) && d != ""
    ensures Possible(w, JsonLine(0, Report(None, None)))
    ensures
      var g := Next(u, w, JsonLine(0, Report(None, None))).gate;
      d in g.states && g.states[d].online && g.sessions == w.gate.sessions
  {}

  lemma SilencedRun(u: Setup, d: string)
    requires d != ""
    ensures IsRun(u, SilencedEvents(u.cfg, d))
    ensures
      var w := Run(u, SilencedEvents(u.cfg, d));
      d !in w.gate.sessions && 0 in w.conns && w.conns[0] == Conn(d, JSON_LINE, false, true)
  {
    var login, silence := LoginEvents(0, d), Advance(Max(0, 1000 * (u.cfg.idleTimeoutSec + 1)));
    FirstLoginRun(u, d);
    RunIsSafe(u, login);
    SilenceUnregisters(u, Run(u, login), d);
    RunSnoc(u, login, silence);
    RunSnoc(u, login + [silence], Check);
  }

  /** That run ends with its device online and unregistered, whatever the configuration. */
  lemma StrandedRun(u: Setup, d: string)
    requires d != ""
    ensures IsRun(u, StrandingEvents(u.cfg, d))
    ensures
      var g := Run(u, StrandingEvents(u.cfg, d)).gate;
      d in g.states && g.states[d].online && d !in g.sessions
  {
    SilencedRun(u, d);
    ReportBringsOnline(u, Run(u, SilencedEvents(u.cfg, d)), d);
    RunSnoc(u, SilencedEvents(u.cfg, d), JsonLine(0, Report(None, None)));
  }

  // ---- authentication ----

  /** Some earlier frame of this session carried a request that proved it to be the device. */
  ghost predicate WasAuthenticated(u: Setup, events: seq<Event>, s: Sid, id: string) {
    exists i :: 0 <= i < |events| && Authenticates(u, events[i], s, id)
  }

  ghost predicate Authenticates(u: Setup, e: Event, s: Sid, id: string) {
    e.FrameIn? && e.sid == s && IsAuthentication(u.cfg, u.crypto, u.provisioned, e.frame, id)
  }

  lemma StillAuthenticated(u: Setup, events: seq<Event>, s: Sid, id: string)
    requires events != [] && WasAuthenticated(u, events[..|events| - 1], s, id)
    ensures WasAuthenticated(u, events, s, id)
  {
    var i :| 0 <= i < |events| - 1 && Authenticates(u, events[..|events| - 1][i], s, id);
    assert Authenticates(u, events[i], s, id);
  }

  /** A request passes against the present store exactly when it passes against the provisioned one. */
  lemma AuthenticationIsLasting(u: Setup, db: Db, frame: Frame)
    requires Untouched(u, db)
    ensures AuthenticatedId(u.cfg, u.crypto, db, frame) == AuthenticatedId(u.cfg, u.crypto, u.provisioned, frame)
  {
    forall k: KeyName | !k.Online? && !k.PendingWakeKey?
      ensures Get(db, u.cfg.key(k)) == Get(u.provisioned, u.cfg.key(k))
    {}
    var p := ParsedLV(frame.payload);
    if p.Some? {
      var e := Characters(p.value.encryptedDevId);
      assert Get(db, u.cfg.key(DeviceIndex(e))) == Get(u.provisioned, u.cfg.key(DeviceIndex(e)));
      var id := Get(db, u.cfg.key(DeviceIndex(e)));
      if id.Some? { assert ResolvedKey(u.cfg, db, id.value) == ResolvedKey(u.cfg, u.provisioned, id.value); }
    }
  }

  lemma FrameAuthenticates(u: Setup, w: World, s: Sid, f: Frame, draw: Draw)
    requires Untouched(u, w.gate.db) && Possible(w, FrameIn(s, f, draw))
    ensures
      var id := Next(u, w, FrameIn(s, f, draw)).conns[s].deviceId;
      id == w.conns[s].deviceId || Authenticates(u, FrameIn(s, f, draw), s, id)
  {
    if f.msgType == AUTH_REQ {
      var id := AuthenticatedId(u.cfg, u.crypto, w.gate.db, f);
      AuthenticationIsLasting(u, w.gate.db, f);
      if id.Some? { AuthenticationIsExact(u.cfg, u.crypto, u.provisioned, f, id.value); }
    }
  }

  lemma OthersKeepTheirId(u: Setup, w: World, e: Event, s: Sid)
    requires Possible(w, e) && s in Next(u, w, e).conns && Next(u, w, e).conns[s].protocol == LOWPOWER
    requires !(e.FrameIn? && e.sid == s)
    ensures s in w.conns
    ensures Next(u, w, e).conns[s].deviceId == w.conns[s].deviceId
    ensures w.conns[s].protocol == LOWPOWER || w.conns[s].protocol == UNKNOWN
  {}

  lemma UndetectedHasNoId(u: Setup, w: World, s: Sid)
    requires Joint(w.conns, w.gate) && s in w.conns && w.conns[s].protocol == UNKNOWN
    ensures w.conns[s].deviceId == ""
  {
    assert IdHasState(w.conns[s], w.gate.states);
  }

  /** A low-power session has an id only if an earlier request on it was signed under that id's key. */
  lemma {:induction false} IdIsAuthenticated(u: Setup, events: seq<Event>, s: Sid)
    requires SeparatesFamilies(u.cfg.key) && IsRun(u, events)
    requires s in Run(u, events).conns && Run(u, events).conns[s].protocol == LOWPOWER
    requires Run(u, events).conns[s].deviceId != ""
    ensures WasAuthenticated(u, events, s, Run(u, events).conns[s].deviceId)
  {
    if events != [] {
      var n := |events| - 1;
      var w, e, id := Run(u, events[..n]), events[n], Run(u, events).conns[s].deviceId;
      RunIsSafe(u, events[..n]);
      RunKeepsProvisioned(u, events[..n]);
      if e.FrameIn? && e.sid == s {
        FrameAuthenticates(u, w, s, e.frame, e.draw);
      } else {
        OthersKeepTheirId(u, w, e, s);
        if w.conns[s].protocol == UNKNOWN { UndetectedHasNoId(u, w, s); }
      }
      if id == w.conns[s].deviceId {
        IdIsAuthenticated(u, events[..n], s);
        StillAuthenticated(u, events, s, id);
      } else {
        assert Authenticates(u, events[n], s, id);
      }
    }
  }

  /** The request that authenticated it was signed under the stored key of the device, or, if it has none, under the
      default secret. */
  lemma StoredKeyAuthenticates(u: Setup, events: seq<Event>, s: Sid, localKey: string) returns (i: nat)
    requires SeparatesFamilies(u.cfg.key) && IsRun(u, events)
    requires s in Run(u, events).conns && Run(u, events).conns[s].protocol == LOWPOWER
    requires Run(u, events).conns[s].deviceId != ""
    requires
      var stored := Get(u.provisioned, u.cfg.key(LocalKey(Run(u, events).conns[s].deviceId)));
      stored == Some(localKey) || (stored == None && localKey == u.cfg.devDefaultSecret)
    ensures i < |events| && events[i].FrameIn? && events[i].sid == s
    ensures IsSignedUnder(u.cfg, u.crypto, u.provisioned, events[i].frame, Run(u, events).conns[s].deviceId, localKey)
  {
    IdIsAuthenticated(u, events, s);
    var id := Run(u, events).conns[s].deviceId;
    i :| 0 <= i < |events| && Authenticates(u, events[i], s, id);
    SignedUnderItsKey(u.cfg, u.crypto, u.provisioned, events[i].frame, id, localKey);
  }

  lemma SignedUnderItsKey(cfg: Config, crypto: Crypto, db: Db, frame: Frame, id: string, localKey: string)
    requires IsAuthentication(cfg, crypto, db, frame, id) && IsKeyOf(cfg, db, id, localKey)
    ensures IsSignedUnder(cfg, crypto, db, frame, id, localKey)
  {
    var k :| IsKeyOf(cfg, db, id, k) && IsSignedUnder(cfg, crypto, db, frame, id, k);
    assert k == localKey;
  }

  /** A heartbeat is answered only on a session that authenticated earlier, and then with its own octets. */
  lemma HeartbeatNeedsAuthentication(u: Setup, events: seq<Event>, s: Sid, f: Frame, draw: Draw)
    requires SeparatesFamilies(u.cfg.key) && IsRun(u, events) && f.msgType == HEARTBEAT
    requires Possible(Run(u, events), FrameIn(s, f, draw))
    ensures
      var w := Run(u, events);
      var trace := Next(u, w, FrameIn(s, f, draw)).gate.trace;
      trace != w.gate.trace ==>
        && WasAuthenticated(u, events, s, w.conns[s].deviceId)
        && trace == w.gate.trace + [Posted(s, Raw(Encoded(f)), None)]
  {
    var w := Run(u, events);
    HeartbeatIsEchoed(u.cfg, u.crypto, ViewOf(w, s), s, w.now, f, draw);
    if w.conns[s].deviceId != "" { IdIsAuthenticated(u, events, s); }
  }
}
