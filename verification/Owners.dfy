/** To whom the commands for a device go, over every run: which session is registered for an id. */
module Owners {
  import opened Bytes
  import opened Model
  import opened Codec
  import opened Redis
  import opened Presence
  import opened Dispatcher
  import opened Session
  import opened World
  import opened Records
  import opened Effects

  // ---- a registered session once carried its id ----

  /** At some moment of the run the session had the id. */
  ghost predicate Carried(u: Setup, events: seq<Event>, s: Sid, d: string)
    requires IsRun(u, events)
  {
    || CarriesNow(Run(u, events), s, d)
    || (events != [] && Carried(u, events[..|events| - 1], s, d))
  }

  predicate CarriesNow(w: World, s: Sid, d: string) {
    s in w.conns && w.conns[s].deviceId == d
  }

  /** A registration after a handler of session s is an old one, or that of s under the id it has now. */
  ghost predicate OldOrOwn(s: Sid, before: View, after: View) {
    forall d | d in after.gate.sessions ::
      || (d in before.gate.sessions && after.gate.sessions[d] == before.gate.sessions[d])
      || (after.gate.sessions[d] == s && after.conn.deviceId == d)
  }

  lemma JsonRegisters(cfg: Config, v: View, s: Sid, now: int, r: Request)
    ensures OldOrOwn(s, v, HandleJson(cfg, v, s, now, r))
  {}

  lemma FrameRegisters(cfg: Config, crypto: Crypto, v: View, s: Sid, now: int, f: Frame, draw: Draw)
    ensures OldOrOwn(s, v, HandleFrame(cfg, crypto, v, s, now, f, draw))
  {}

  lemma CommandRegisters(u: Setup, w: World, c: Call)
    ensures forall d | d in Sending(u, w, c).0.sessions ::
      d in w.gate.sessions && Sending(u, w, c).0.sessions[d] == w.gate.sessions[d]
  {
    var _, _ := SendShape(u.cfg, Wakes(w.gate), w.now, c, LinksOf(w));
  }

  lemma NextRegisters(u: Setup, w: World, e: Event, d: string)
    requires Possible(w, e) && d in Next(u, w, e).gate.sessions
    ensures
      var v := Next(u, w, e);
      || (d in w.gate.sessions && v.gate.sessions[d] == w.gate.sessions[d])
      || CarriesNow(v, v.gate.sessions[d], d)
  {
    match e {
      case JsonLine(s, r) => JsonRegisters(u.cfg, ViewOf(w, s), s, w.now, r);
      case FrameIn(s, f, draw) => FrameRegisters(u.cfg, u.crypto, ViewOf(w, s), s, w.now, f, draw);
      case Command(c) => CommandRegisters(u, w, c);
      case _ =>
    }
  }

  /** Over every run: the session registered for a device has carried its id. */
  lemma {:induction false} RegisteredOnceCarried(u: Setup, events: seq<Event>, d: string)
    requires IsRun(u, events) && d in Run(u, events).gate.sessions
    ensures Carried(u, events, Run(u, events).gate.sessions[d], d)
  {
    if events != [] {
      var n := |events| - 1;
      var w := Run(u, events[..n]);
      NextRegisters(u, w, events[n], d);
      if d in w.gate.sessions && Run(u, events).gate.sessions[d] == w.gate.sessions[d] {
        RegisteredOnceCarried(u, events[..n], d);
      }
    }
  }

  // ---- the last login wins ----

  /** The event is a login of the device on the session, or a request there that is signed under the device's key. */
  ghost predicate Takes(u: Setup, w: World, e: Event, s: Sid, d: string) {
    || (e.JsonLine? && e.sid == s && e.request.Login? && e.request.deviceId == d && d != "")
    || (e.FrameIn? && e.sid == s && IsAuthentication(u.cfg, u.crypto, w.gate.db, e.frame, d))
  }

  /** It takes the registration over, whoever had it, brings the device online, and leaves all others as they were. */
  lemma TakingOver(u: Setup, w: World, e: Event, s: Sid, d: string)
    requires Possible(w, e) && Takes(u, w, e, s, d)
    ensures
      var v := Next(u, w, e);
      && v.gate.sessions == w.gate.sessions[d := s] && CarriesNow(v, s, d)
      && d in v.gate.states && v.gate.states[d].online && v.gate.states[d].lastHeartbeat == w.now
      && forall other | other != d ::
        && (other in v.gate.states <==> other in w.gate.states)
        && (other in v.gate.states ==> v.gate.states[other] == w.gate.states[other])
  {
    if e.JsonLine? {
      LoginEffect(u, w, s, d, e.request.dev);
    } else {
      var localKey :| IsKeyOf(u.cfg, w.gate.db, d, localKey)
        && IsSignedUnder(u.cfg, u.crypto, w.gate.db, e.frame, d, localKey);
      var _ := AuthEffect(u, w, s, e.frame, e.draw, d, localKey);
    }
  }

  /** The session on which the device last logged in or authenticated. */
  ghost function LastTaker(u: Setup, events: seq<Event>, d: string): Option<Sid>
    requires IsRun(u, events)
  {
    if events == [] then None
    else
      var n := |events| - 1;
      if exists s :: Takes(u, Run(u, events[..n]), events[n], s, d) then Some(events[n].sid)
      else LastTaker(u, events[..n], d)
  }

  lemma OnlyTakersRegister(u: Setup, w: World, e: Event, d: string)
    requires Possible(w, e) && d in Next(u, w, e).gate.sessions
    requires forall s :: !Takes(u, w, e, s, d)
    ensures d in w.gate.sessions && Next(u, w, e).gate.sessions[d] == w.gate.sessions[d]
  {
    match e {
      case JsonLine(s, r) =>
        assert !Takes(u, w, e, s, d);
        OnlyLoginRegisters(u, w, s, r, d);
      case FrameIn(s, f, draw) =>
        assert !Takes(u, w, e, s, d);
        OnlyAuthRegisters(u, w, s, f, draw, d);
      case Command(c) => CommandRegisters(u, w, c);
      case _ =>
    }
  }

  lemma OnlyLoginRegisters(u: Setup, w: World, s: Sid, r: Request, d: string)
    requires Possible(w, JsonLine(s, r)) && !(r.Login? && r.deviceId == d && d != "")
    requires d in Next(u, w, JsonLine(s, r)).gate.sessions
    ensures d in w.gate.sessions && Next(u, w, JsonLine(s, r)).gate.sessions[d] == w.gate.sessions[d]
  {}

  lemma OnlyAuthRegisters(u: Setup, w: World, s: Sid, f: Frame, draw: Draw, d: string)
    requires Possible(w, FrameIn(s, f, draw)) && !IsAuthentication(u.cfg, u.crypto, w.gate.db, f, d)
    requires d in Next(u, w, FrameIn(s, f, draw)).gate.sessions
    ensures d in w.gate.sessions && Next(u, w, FrameIn(s, f, draw)).gate.sessions[d] == w.gate.sessions[d]
  {
    if f.msgType == AUTH_REQ { AuthenticationIsExact(u.cfg, u.crypto, w.gate.db, f, d); }
  }

  /** Over every run: while a device is registered, its session is the one of its last login or authentication. */
  lemma {:induction false} LastTakerIsRegistered(u: Setup, events: seq<Event>, d: string)
    requires IsRun(u, events) && d in Run(u, events).gate.sessions
    ensures LastTaker(u, events, d) == Some(Run(u, events).gate.sessions[d])
  {
    if events != [] {
      var n := |events| - 1;
      var w, e := Run(u, events[..n]), events[n];
      if s :| Takes(u, w, e, s, d) {
        TakingOver(u, w, e, s, d);
      } else {
        OnlyTakersRegister(u, w, e, d);
        LastTakerIsRegistered(u, events[..n], d);
      }
    }
  }

  /** And a command to the device is posted there. */
  lemma CommandGoesToLastTaker(u: Setup, events: seq<Event>, c: Call) returns (buffer: Buffer)
    requires IsRun(u, events)
    requires CanSend(u.cfg, Wakes(Run(u, events).gate), c, LinksOf(Run(u, events)))
    ensures LastTaker(u, events, c.deviceId).Some?
    ensures
      var w, id := Run(u, events), MsgId(c.wall);
      Next(u, w, Command(c)).gate.trace == w.gate.trace
        + [Posted(LastTaker(u, events, c.deviceId).value, buffer, Some(id)), Published(w.now, id, Dispatched)]
  {
    var w := Run(u, events);
    LastTakerIsRegistered(u, events, c.deviceId);
    var p, b := SendShape(u.cfg, Wakes(w.gate), w.now, c, LinksOf(w));
    buffer := b;
  }

  // ---- and when it does not carry it any more ----

  ghost predicate AllCarry(w: World) {
    forall d | d in w.gate.sessions :: CarriesNow(w, w.gate.sessions[d], d)
  }

  /** The session is the registered one of the id it has, and that is another. */
  predicate OwnsOther(w: World, s: Sid, id: string)
    requires s in w.conns
  {
    var own := w.conns[s].deviceId;
    own != id && own in w.gate.sessions && w.gate.sessions[own] == s
  }

  /** A login or an authentication that changes the id of a registered session. */
  ghost predicate Renames(u: Setup, w: World, e: Event)
    requires Possible(w, e)
  {
    match e
    case JsonLine(s, r) => r.Login? && r.deviceId != "" && OwnsOther(w, s, r.deviceId)
    case FrameIn(s, f, _) =>
      var id := AuthenticatedId(u.cfg, u.crypto, w.gate.db, f);
      f.msgType == AUTH_REQ && id.Some? && OwnsOther(w, s, id.value)
    case _ => false
  }

  lemma LoginRenames(u: Setup, w: World, s: Sid, d: string, dev: Option<string>)
    requires AllCarry(w) && Possible(w, JsonLine(s, Login(d, dev)))
    ensures !AllCarry(Next(u, w, JsonLine(s, Login(d, dev)))) <==> d != "" && OwnsOther(w, s, d)
  {
    var v, own := Next(u, w, JsonLine(s, Login(d, dev))), w.conns[s].deviceId;
    if d != "" && OwnsOther(w, s, d) { assert own in v.gate.sessions && !CarriesNow(v, v.gate.sessions[own], own); }
  }

  lemma OtherJsonRenamesNothing(u: Setup, w: World, s: Sid, r: Request)
    requires AllCarry(w) && Possible(w, JsonLine(s, r)) && !r.Login?
    ensures AllCarry(Next(u, w, JsonLine(s, r)))
  {}

  lemma AuthRenames(u: Setup, w: World, s: Sid, f: Frame, draw: Draw)
    requires AllCarry(w) && Possible(w, FrameIn(s, f, draw)) && f.msgType == AUTH_REQ
    ensures !AllCarry(Next(u, w, FrameIn(s, f, draw))) <==> Renames(u, w, FrameIn(s, f, draw))
  {
    var v, own := Next(u, w, FrameIn(s, f, draw)), w.conns[s].deviceId;
    if Renames(u, w, FrameIn(s, f, draw)) {
      assert own in v.gate.sessions && !CarriesNow(v, v.gate.sessions[own], own);
    }
  }

  lemma OtherFrameRenamesNothing(u: Setup, w: World, s: Sid, f: Frame, draw: Draw)
    requires AllCarry(w) && Possible(w, FrameIn(s, f, draw)) && f.msgType != AUTH_REQ
    ensures AllCarry(Next(u, w, FrameIn(s, f, draw)))
  {}

  /** Where every registered session carries its id, exactly those events end that. */
  lemma RenamingCauses(u: Setup, events: seq<Event>, e: Event)
    requires IsRun(u, events) && Possible(Run(u, events), e) && AllCarry(Run(u, events))
    ensures !AllCarry(Next(u, Run(u, events), e)) <==> Renames(u, Run(u, events), e)
  {
    var w := Run(u, events);
    match e {
      case JsonLine(s, r) =>
        if r.Login? { LoginRenames(u, w, s, r.deviceId, r.dev); } else { OtherJsonRenamesNothing(u, w, s, r); }
      case FrameIn(s, f, draw) =>
        if f.msgType == AUTH_REQ { AuthRenames(u, w, s, f, draw); } else { OtherFrameRenamesNothing(u, w, s, f, draw); }
      case Command(c) => CommandRegisters(u, w, c);
      case _ =>
    }
  }

  /** Two logins on one session under different ids, and a command to the first. */
  function RenamedEvents(d: string, other: string, c: Call): seq<Event> {
    LoginEvents(0, d) + [JsonLine(0, Login(other, None))] + [Command(c)]
  }

  lemma SecondLogin(u: Setup, w: World, d: string, other: string)
    requires LoggedIn(u, Booted(u), w, 0, d) && d != other && other != ""
    ensures Possible(w, JsonLine(0, Login(other, None)))
    ensures
      var v := Next(u, w, JsonLine(0, Login(other, None)));
      && v.conns == map[0 := Conn(other, JSON_LINE, false, true)] && v.alive == {0}
      && d in v.gate.sessions && v.gate.sessions[d] == 0
  {}

  lemma CommandGoesToSession(u: Setup, w: World, c: Call)
    requires w.conns.Keys == {0} && w.conns[0].protocol == JSON_LINE && w.alive == {0}
    requires c.deviceId in w.gate.sessions && w.gate.sessions[c.deviceId] == 0 && c.cmd != "lowpower_wakeup"
    ensures
      var v := Next(u, w, Command(c));
      v.conns == w.conns && Posted(0, Line(WakeDocument(u.cfg, c)), Some(MsgId(c.wall))) in v.gate.trace
  {
    var v := Next(u, w, Command(c));
    assert v.gate.trace[|w.gate.trace|] == Posted(0, Line(WakeDocument(u.cfg, c)), Some(MsgId(c.wall)));
  }

  /** That command is sent to a session whose id is the other one. */
  lemma RenamedRun(u: Setup, d: string, other: string, c: Call)
    requires d != "" && other != "" && d != other && c.deviceId == d && c.cmd != "lowpower_wakeup"
    ensures IsRun(u, RenamedEvents(d, other, c))
    ensures
      var w := Run(u, RenamedEvents(d, other, c));
      && CarriesNow(w, 0, other)
      && Posted(0, Line(WakeDocument(u.cfg, c)), Some(MsgId(c.wall))) in w.gate.trace
  {
    var login, again := LoginEvents(0, d), JsonLine(0, Login(other, None));
    FirstLoginRun(u, d);
    SecondLogin(u, Run(u, login), d, other);
    RunSnoc(u, login, again);
    CommandGoesToSession(u, Run(u, login + [again]), c);
    RunSnoc(u, login + [again], Command(c));
  }
}
