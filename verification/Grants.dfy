/** Devices that keep to the intervals they are told, over every run. */
module Grants {
  import opened Bytes
  import opened Model
  import opened Codec
  import opened Presence
  import opened Dispatcher
  import opened Session
  import opened World
  import opened Owners
  import opened Guarantees

  // ---- the interval a device was last told ----

  /** The heartbeat interval in a document, if it carries one: a successful login or a heartbeat is answered with it. */
  function Interval(m: Message): Option<int> {
    match m
    case LoginAck(result, heartbeat, _) => if result == 0 then Some(heartbeat) else None
    case HeartbeatAck(next) => Some(next)
    case _ => None
  }

  /** An interval, and when it was told. */
  datatype Told = Told(at: int, seconds: int)

  /** What a step tells a device: the interval in the document it posts last, to the session that has the id. */
  ghost function ToldBy(w: World, v: World, e: Event, d: string): Option<Told> {
    if e.JsonLine? && CarriesNow(v, e.sid, d) && |v.gate.trace| > |w.gate.trace| then
      match v.gate.trace[|v.gate.trace| - 1]
      case Posted(s, Line(m), _) =>
        if s == e.sid && Interval(m).Some? then Some(Told(w.now, Interval(m).value)) else None
      case _ => None
    else None
  }

  ghost function LastTold(u: Setup, events: seq<Event>, d: string): Option<Told>
    requires IsRun(u, events)
  {
    if events == [] then None
    else
      var n := |events| - 1;
      var told := ToldBy(Run(u, events[..n]), Run(u, events), events[n], d);
      if told.Some? then told else LastTold(u, events[..n], d)
  }

  // ---- what is told is a grant, and the device was just heard ----

  ghost predicate HeardSince(states: map<string, DeviceState>, d: string, t: int) {
    d in states && states[d].lastHeartbeat >= t
  }

  lemma JsonTells(cfg: Config, w: World, s: Sid, r: Request, v: World, d: string)
    requires s in w.conns && v == Updated(w, s, HandleJson(cfg, ViewOf(w, s), s, w.now, r))
    requires ToldBy(w, v, JsonLine(s, r), d).Some? && d != ""
    ensures
      var told := ToldBy(w, v, JsonLine(s, r), d).value;
      told.at == w.now && told.seconds <= Max(cfg.heartbeatDefaultSec, 600) && HeardSince(v.gate.states, d, w.now)
  {
    match r {
      case Login(_, _) =>
      case Report(_, _) =>
      case _ =>
    }
  }

  lemma JsonKeepsHeard(cfg: Config, v: View, s: Sid, now: int, r: Request, d: string, t: int)
    requires HeardSince(v.gate.states, d, t) && t <= now
    ensures HeardSince(HandleJson(cfg, v, s, now, r).gate.states, d, t)
  {}

  lemma FrameKeepsHeard(cfg: Config, crypto: Crypto, v: View, s: Sid, now: int, f: Frame, draw: Draw, d: string, t: int)
    requires HeardSince(v.gate.states, d, t) && t <= now
    ensures HeardSince(HandleFrame(cfg, crypto, v, s, now, f, draw).gate.states, d, t)
  {}

  lemma NextKeepsHeard(u: Setup, w: World, e: Event, d: string, t: int)
    requires Possible(w, e) && HeardSince(w.gate.states, d, t) && t <= w.now
    ensures HeardSince(Next(u, w, e).gate.states, d, t)
  {
    match e {
      case JsonLine(s, r) => JsonKeepsHeard(u.cfg, ViewOf(w, s), s, w.now, r, d, t);
      case FrameIn(s, f, draw) => FrameKeepsHeard(u.cfg, u.crypto, ViewOf(w, s), s, w.now, f, draw, d, t);
      case _ =>
    }
  }

  /** Over every run: a device has been heard since it was last told an interval, and that is a grant. */
  lemma {:induction false} ToldIsHeard(u: Setup, events: seq<Event>, d: string)
    requires IsRun(u, events) && d != "" && LastTold(u, events, d).Some?
    ensures
      var told, w := LastTold(u, events, d).value, Run(u, events);
      && told.at <= w.now && HeardSince(w.gate.states, d, told.at)
      && told.seconds <= Max(u.cfg.heartbeatDefaultSec, 600)
  {
    var n := |events| - 1;
    var w, e := Run(u, events[..n]), events[n];
    if ToldBy(w, Run(u, events), e, d).Some? {
      JsonTells(u.cfg, w, e.sid, e.request, Run(u, events), d);
    } else {
      ToldIsHeard(u, events[..n], d);
      NextKeepsHeard(u, w, e, d, LastTold(u, events[..n], d).value.at);
    }
  }

  // ---- a device that keeps to it ----

  /** At every check the device, if it is online, was told its last interval no longer ago than that interval. */
  ghost predicate Honours(u: Setup, events: seq<Event>, d: string)
    requires IsRun(u, events)
  {
    events == [] ||
    (Honours(u, events[..|events| - 1], d) &&
     (events[|events| - 1].Check? ==> WithinTold(u, events[..|events| - 1], d)))
  }

  ghost predicate WithinTold(u: Setup, events: seq<Event>, d: string)
    requires IsRun(u, events)
  {
    var w, told := Run(u, events), LastTold(u, events, d);
    IsOnline(w, d) ==> told.Some? && w.now <= told.value.at + 1000 * told.value.seconds
  }

  predicate IsOnline(w: World, d: string) {
    d in w.gate.states && w.gate.states[d].online
  }

  /** From the n-th event on, no session of the device is lost. */
  ghost predicate IsKept(u: Setup, events: seq<Event>, n: nat, d: string)
    requires IsRun(u, events)
  {
    |events| <= n ||
    (IsKept(u, events[..|events| - 1], n, d) && !Loses(Run(u, events[..|events| - 1]), events[|events| - 1], d))
  }

  predicate Loses(w: World, e: Event, d: string) {
    e.Lost? && e.sid in w.conns && w.conns[e.sid].deviceId == d && !w.conns[e.sid].closing
  }

  lemma CheckSparesHonouring(u: Setup, events: seq<Event>, d: string)
    requires IsRun(u, events) && CoversGrants(u.cfg) && WithinTold(u, events, d) && IsOnline(Run(u, events), d)
    ensures !GoesOffline(u, Run(u, events), Check, d)
  {
    RunIsSafe(u, events);
    ToldIsHeard(u, events, d);
  }

  /** Over every run: with an idle timeout of at least the default interval and 600 seconds, a device that is online
      and honours the interval it was last told stays online for as long as no session of it is lost. */
  lemma {:induction false} HonouringDeviceStaysOnline(u: Setup, events: seq<Event>, n: nat, d: string)
    requires IsRun(u, events) && n <= |events| && CoversGrants(u.cfg)
    requires IsRun(u, events[..n]) && IsOnline(Run(u, events[..n]), d)
    requires Honours(u, events, d) && IsKept(u, events, n, d)
    ensures IsOnline(Run(u, events), d)
    decreases |events|
  {
    if n < |events| {
      var last := |events| - 1;
      assert events[..last][..n] == events[..n];
      HonouringDeviceStaysOnline(u, events[..last], n, d);
      OfflineCauses(u, events[..last], events[last], d);
      if events[last].Check? { CheckSparesHonouring(u, events[..last], d); }
    } else {
      assert events[..n] == events;
    }
  }
}
