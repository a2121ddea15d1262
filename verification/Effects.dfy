/** What each handler does to the whole gateway, written out: the state after one event, and nothing else changed. */
module Effects {
  import opened Bytes
  import opened Crc32
  import opened Text
  import opened Codec
  import opened Model
  import opened Redis
  import opened Presence
  import opened Dispatcher
  import opened Session
  import opened World
  import opened WakeManagement

  /** The store with the online record of a device renewed. */
  function Renewed(cfg: Config, db: Db, d: string, now: int): Db {
    if cfg.idleTimeoutSec <= 0 then db else db[cfg.key(Online(d)) := Timed(now + 1000 * cfg.idleTimeoutSec)]
  }

  function Replied(g: Gateway, s: Sid, m: Message): Gateway {
    g.(trace := g.trace + [Posted(s, Line(m), None)])
  }

  function Or<T>(given: Option<T>, otherwise: T): T {
    if given.Some? then given.value else otherwise
  }

  // ---- detection ----

  /** An opening brace makes a JSON session, a one a low-power session; anything else closes the socket. */
  lemma PeekEffect(u: Setup, w: World, s: Sid, first: byte)
    requires Possible(w, Peek(s, first))
    ensures
      var c := w.conns[s];
      && (first == 0x7B ==> Next(u, w, Peek(s, first)) == w.(conns := w.conns[s := c.(protocol := JSON_LINE)]))
      && (first == 0x01 ==> Next(u, w, Peek(s, first)) == w.(conns := w.conns[s := c.(protocol := LOWPOWER)]))
      && (first != 0x7B && first != 0x01 ==> Next(u, w, Peek(s, first)) == w.(conns := w.conns[s := c.(open := false)]))
  {}

  // ---- JSON lines ----

  /** A login takes the id over, whoever had it, and starts its state anew. */
  lemma LoginEffect(u: Setup, w: World, s: Sid, d: string, dev: Option<string>)
    requires Possible(w, JsonLine(s, Login(d, dev))) && d != ""
    ensures
      var state := DeviceState(d, "json_line", Or(dev, "unknown"), -1, true, w.now, w.now);
      var g := w.gate.(sessions := w.gate.sessions[d := s], states := w.gate.states[d := state],
                       db := Renewed(u.cfg, w.gate.db, d, w.now));
      Next(u, w, JsonLine(s, Login(d, dev)))
        == w.(conns := w.conns[s := w.conns[s].(deviceId := d)],
              gate := Replied(g, s, LoginAck(0, u.cfg.heartbeatDefaultSec, u.cfg.idleTimeoutSec)))
  {}

  /** The interval for a battery level: 600 seconds below 10 percent, 300 below 20, else the default. */
  predicate IsGrant(cfg: Config, battery: int, seconds: int) {
    && (0 <= battery < 10 ==> seconds == 600)
    && (10 <= battery < 20 ==> seconds == 300)
    && (battery < 0 || battery >= 20 ==> seconds == cfg.heartbeatDefaultSec)
  }

  /** A heartbeat renews the device's own state, with what it reports, and is told the interval for the battery level
      it reports, or last reported. */
  lemma ReportEffect(u: Setup, w: World, s: Sid, battery: Option<int>, dev: Option<string>) returns (seconds: int)
    requires Safe(w) && Possible(w, JsonLine(s, Report(battery, dev))) && w.conns[s].deviceId != ""
    ensures w.conns[s].deviceId in w.gate.states
    ensures IsGrant(u.cfg, Or(battery, w.gate.states[w.conns[s].deviceId].battery), seconds)
    ensures
      var id := w.conns[s].deviceId;
      var before := w.gate.states[id];
      var state := DeviceState(id, before.protocol, Or(dev, before.devState), Or(battery, before.battery), true,
                               before.loginTime, w.now);
      var g := w.gate.(states := w.gate.states[id := state], db := Renewed(u.cfg, w.gate.db, id, w.now));
      Next(u, w, JsonLine(s, Report(battery, dev))) == w.(gate := Replied(g, s, HeartbeatAck(seconds)))
  {
    assert IdHasState(w.conns[s], w.gate.states);
    var next := Next(u, w, JsonLine(s, Report(battery, dev)));
    seconds := next.gate.trace[|w.gate.trace|].buffer.message.nextHeartbeat;
    assert next.conns == w.conns;
  }

  /** What is refused is answered, and changes nothing. */
  lemma RefusalEffect(u: Setup, w: World, s: Sid, r: Request)
    requires Possible(w, JsonLine(s, r))
    ensures
      var v := Next(u, w, JsonLine(s, r));
      && (r == Malformed ==> v == w.(gate := Replied(w.gate, s, Error("bad_json"))))
      && (r == Unknown ==> v == w.(gate := Replied(w.gate, s, Error("unknown_type"))))
      && (r.Login? && r.deviceId == "" ==>
            v == w.(gate := Replied(w.gate, s, LoginAck(1, u.cfg.heartbeatDefaultSec, u.cfg.idleTimeoutSec))))
      && (r.Report? && w.conns[s].deviceId == "" ==> v == w.(gate := Replied(w.gate, s, Error("not_logged_in"))))
  {
    assert w.conns[s := w.conns[s]] == w.conns;
  }

  /** An acknowledgement ends its command: the entry goes, "acked" is published, the stored record stays. */
  lemma AckEffect(u: Setup, w: World, s: Sid, id: string)
    requires Possible(w, JsonLine(s, WakeAck(id)))
    ensures
      Next(u, w, JsonLine(s, WakeAck(id))) ==
        if id == "" || id !in w.gate.pending then w
        else
          var trace := w.gate.trace + [Published(w.now, id, Acked)];
          w.(gate := w.gate.(pending := w.gate.pending - {id}, trace := trace))
  {
    assert w.conns[s := w.conns[s]] == w.conns;
  }

  /** A completion ends its command with its record, and is always answered. */
  lemma DoneEffect(u: Setup, w: World, s: Sid, id: string)
    requires Possible(w, JsonLine(s, TaskDone(id)))
    ensures
      Next(u, w, JsonLine(s, TaskDone(id))) ==
        if id == "" || id !in w.gate.pending then w.(gate := Replied(w.gate, s, TaskDoneAck(id)))
        else
          var record := u.cfg.key(PendingWakeKey(w.gate.pending[id].deviceId, id));
          var g := w.gate.(pending := w.gate.pending - {id}, db := w.gate.db - {record},
                           trace := w.gate.trace + [Published(w.now, id, Done)]);
          w.(gate := Replied(g, s, TaskDoneAck(id)))
  {
    assert w.conns[s := w.conns[s]] == w.conns;
  }

  /** Reports about the host set one field of the state; before any login, of a blank state that is offline. */
  lemma HostEffect(u: Setup, w: World, s: Sid, r: Request)
    requires Possible(w, JsonLine(s, r)) && (r.HostSleep? || r.HostState?)
    ensures
      var id := w.conns[s].deviceId;
      var before := if id in w.gate.states then w.gate.states[id] else DeviceState("", "", "unknown", -1, false, 0, 0);
      var dev := if r.HostSleep? then "sleep" else Or(r.hostDev, "unknown");
      var g := w.gate.(states := w.gate.states[id := before.(devState := dev)]);
      Next(u, w, JsonLine(s, r)) == w.(gate := if r.HostSleep? then Replied(g, s, HostSleepAck) else g)
  {
    assert w.conns[s := w.conns[s]] == w.conns;
  }

  // ---- frames ----

  /** A request that is signed under the key of the device takes the id over, starts its state anew, and is answered
      with one frame (Session.AcceptedIsAnswered says which). */
  lemma AuthEffect(u: Setup, w: World, s: Sid, f: Frame, draw: Draw, id: string, localKey: string)
      returns (data: seq<byte>)
    requires Possible(w, FrameIn(s, f, draw))
    requires IsKeyOf(u.cfg, w.gate.db, id, localKey) && IsSignedUnder(u.cfg, u.crypto, w.gate.db, f, id, localKey)
    ensures
      Next(u, w, FrameIn(s, f, draw))
        == w.(conns := w.conns[s := w.conns[s].(deviceId := id)], gate := Admitted(u.cfg, w, s, id, data))
  {
    TheKeyDecides(u.cfg, u.crypto, w.gate.db, f, id, localKey);
    data := Encoded(AuthReply(u.cfg, u.crypto, w.gate.db, f, id, draw));
    AdmittedIsJoined(u.cfg, w, s, id, data);
    AcceptedStep(u, w, s, f, draw, id);
  }

  /** What sessions share when a low-power device has taken its id over and was sent the octets. */
  function Admitted(cfg: Config, w: World, s: Sid, id: string, data: seq<byte>): Gateway {
    var state := DeviceState(id, "lowpower", "sleep", -1, true, w.now, w.now);
    w.gate.(sessions := w.gate.sessions[id := s], states := w.gate.states[id := state],
            db := Renewed(cfg, w.gate.db, id, w.now), trace := w.gate.trace + [Posted(s, Raw(data), None)])
  }

  lemma AdmittedIsJoined(cfg: Config, w: World, s: Sid, id: string, data: seq<byte>)
    requires s in w.conns
    ensures Post(Joined(cfg, ViewOf(w, s), s, w.now, FreshState(id, "lowpower", "sleep", w.now)), s, Raw(data))
      == View(w.conns[s].(deviceId := id), Admitted(cfg, w, s, id, data))
  {}

  lemma AcceptedStep(u: Setup, w: World, s: Sid, f: Frame, draw: Draw, id: string)
    requires Possible(w, FrameIn(s, f, draw)) && f.msgType == AUTH_REQ
    requires AuthenticatedId(u.cfg, u.crypto, w.gate.db, f) == Some(id)
    ensures
      var data := Encoded(AuthReply(u.cfg, u.crypto, w.gate.db, f, id, draw));
      var joined := Joined(u.cfg, ViewOf(w, s), s, w.now, FreshState(id, "lowpower", "sleep", w.now));
      Next(u, w, FrameIn(s, f, draw)) == Updated(w, s, Post(joined, s, Raw(data)))
  {}

  /** A request that is signed by no device closes the socket and changes nothing else. */
  lemma AuthRefusalEffect(u: Setup, w: World, s: Sid, f: Frame, draw: Draw)
    requires Possible(w, FrameIn(s, f, draw)) && f.msgType == 0
    requires forall id :: !IsAuthentication(u.cfg, u.crypto, w.gate.db, f, id)
    ensures Next(u, w, FrameIn(s, f, draw)) == w.(conns := w.conns[s := w.conns[s].(open := false)])
  {
    var id := AuthenticatedId(u.cfg, u.crypto, w.gate.db, f);
    if id.Some? { AuthenticationIsExact(u.cfg, u.crypto, w.gate.db, f, id.value); }
  }

  /** A bare heartbeat renews the device's own state as asleep and comes back as it is; another one closes the socket;
      a frame of any further type does nothing. */
  lemma HeartbeatEffect(u: Setup, w: World, s: Sid, f: Frame, draw: Draw)
    requires Safe(w) && Possible(w, FrameIn(s, f, draw)) && f.msgType != 0
    ensures w.conns[s].deviceId != "" ==> w.conns[s].deviceId in w.gate.states
    ensures
      var id := w.conns[s].deviceId;
      Next(u, w, FrameIn(s, f, draw)) ==
        if f.msgType != 2 then w
        else if id == "" || f.flag != 0 || f.size != 0 then w.(conns := w.conns[s := w.conns[s].(open := false)])
        else
          var before := w.gate.states[id];
          var state := DeviceState(id, before.protocol, "sleep", before.battery, true, before.loginTime, w.now);
          w.(gate := w.gate.(states := w.gate.states[id := state], db := Renewed(u.cfg, w.gate.db, id, w.now),
                             trace := w.gate.trace + [Posted(s, Raw([1, 2, 0, 0, 0]), None)]))
  {
    assert IdHasState(w.conns[s], w.gate.states);
    assert w.conns[s := w.conns[s]] == w.conns;
    assert Encoded(HeartbeatFrame()) == [1, 2, 0, 0, 0];
  }

  // ---- loss and silence ----

  /** The first loss of a session ends the registration of its id, takes the device offline and drops its record,
      whichever session is registered; a later one does nothing. */
  lemma LossEffect(u: Setup, w: World, s: Sid)
    requires Safe(w) && Possible(w, Lost(s))
    ensures w.conns[s].deviceId != "" ==> w.conns[s].deviceId in w.gate.states
    ensures
      var c, id := w.conns[s], w.conns[s].deviceId;
      Next(u, w, Lost(s)) ==
        if c.closing then w
        else if id == "" then w.(conns := w.conns[s := c.(closing := true, open := false)])
        else
          var g := w.gate.(sessions := w.gate.sessions - {id},
                           states := w.gate.states[id := w.gate.states[id].(online := false)],
                           db := w.gate.db - {u.cfg.key(Online(id))});
          w.(conns := w.conns[s := c.(closing := true, open := false)], gate := g)
  {
    assert IdHasState(w.conns[s], w.gate.states);
    assert w.conns[s := w.conns[s]] == w.conns;
  }

  /** A check takes exactly the devices that are silent for idle+1 seconds offline, out of the registry, and out of the
      store. */
  lemma CheckEffect(u: Setup, w: World)
    requires Safe(w)
    ensures
      var states, limit := w.gate.states, 1000 * (u.cfg.idleTimeoutSec + 1);
      var silent := set d | d in states && states[d].online && w.now - states[d].lastHeartbeat >= limit;
      var after := map d | d in states :: if d in silent then states[d].(online := false) else states[d];
      var records := set d | d in silent :: u.cfg.key(Online(d));
      Next(u, w, Check) ==
        w.(gate := w.gate.(sessions := w.gate.sessions - silent, states := after, db := w.gate.db - records),
           lastCheck := w.now)
  {
    var states, limit := w.gate.states, 1000 * (u.cfg.idleTimeoutSec + 1);
    var silent := set d | d in states && states[d].online && w.now - states[d].lastHeartbeat >= limit;
    assert silent == SilentIds(u.cfg, states, w.now);
    assert (set d | d in silent :: OnlineKey(u.cfg, d)) == (set d | d in silent :: u.cfg.key(Online(d)));
  }

  // ---- commands ----

  /** The wake frame for a key, octet by octet up to the code. */
  ghost function WakeFrame(localKey: string): Buffer {
    Raw([1, 3, 0, 0, 4] + U32BE(Crc32Of(Octets(localKey))))
  }

  lemma WakeFrameIsBytes(localKey: string)
    ensures Raw(WakeupBytes(localKey)) == WakeFrame(localKey)
  {}

  /** The pending record lives for the whole seconds of the expiry. */
  function WithRecord(cfg: Config, db: Db, d: string, m: string, now: int): Db {
    if cfg.expireMs < 1000 then db
    else db[cfg.key(PendingWakeKey(d, m)) := Timed(now + (cfg.expireMs - cfg.expireMs % 1000))]
  }

  lemma StoredRecord(cfg: Config, db: Db, d: string, m: string, now: int)
    ensures SetEx(db, cfg.key(PendingWakeKey(d, m)), now, RecordTtlSec(cfg)) == WithRecord(cfg, db, d, m, now)
  {}

  function Issued(cfg: Config, g: Gateway, now: int, p: PendingWake, buffer: Buffer): Gateway {
    g.(pending := g.pending[p.msgId := p], db := WithRecord(cfg, g.db, p.deviceId, p.msgId, now),
       trace := g.trace + [Posted(p.session, buffer, Some(p.msgId)), Published(now, p.msgId, Dispatched)])
  }

  /** A command to a device that is not registered changes nothing; one to an expired session ends the registration;
      one that must go as a frame, without a stored key, changes nothing. */
  lemma RefusedCommandEffect(u: Setup, w: World, c: Call)
    requires Safe(w)
    ensures c.deviceId !in w.gate.sessions ==>
      Next(u, w, Command(c)) == w && Sending(u, w, c).1 == Refused("device offline")
    ensures c.deviceId in w.gate.sessions && w.gate.sessions[c.deviceId] !in w.alive ==>
      && Next(u, w, Command(c)) == w.(gate := w.gate.(sessions := w.gate.sessions - {c.deviceId}))
      && Sending(u, w, c).1 == Refused("device session expired")
    ensures c.deviceId in w.gate.sessions && w.gate.sessions[c.deviceId] in w.alive ==>
      var s := w.gate.sessions[c.deviceId];
      s in w.conns &&
      (w.conns[s].protocol == LOWPOWER || c.cmd == "lowpower_wakeup" ==>
        (Get(w.gate.db, u.cfg.key(LocalKey(c.deviceId))) == None ==>
          Next(u, w, Command(c)) == w && Sending(u, w, c).1 == Refused("local_key not found")))
  {
    assert c.deviceId in w.gate.sessions ==> Detects(w.conns, w.gate.sessions[c.deviceId]);
  }

  /** A command to a JSON session is entered, stored, sent and announced, with a document made from its own readings of
      the clock. */
  lemma LineCommandEffect(u: Setup, w: World, c: Call)
    requires Safe(w) && c.deviceId in w.gate.sessions && w.gate.sessions[c.deviceId] in w.alive
    requires c.cmd != "lowpower_wakeup"
    requires w.gate.sessions[c.deviceId] in w.conns && w.conns[w.gate.sessions[c.deviceId]].protocol != LOWPOWER
    ensures
      var s, id := w.gate.sessions[c.deviceId], "W" + ToString(c.wall);
      var document := Wake(c.stamp, id, c.cmd, c.params, c.stamp + u.cfg.expireMs);
      var p := PendingWake(c.deviceId, id, c.cmd, document, s, JSON_LINE, 0, w.now + u.cfg.ackTimeoutMs);
      && Sending(u, w, c).1 == Sent(id)
      && Next(u, w, Command(c)) == w.(gate := Issued(u.cfg, w.gate, w.now, p, Line(document)))
  {
    StoredRecord(u.cfg, w.gate.db, c.deviceId, MsgId(c.wall), w.now);
  }

  /** A command to a low-power session, or one that asks for a frame, goes as the wake frame of the stored key. */
  lemma FrameCommandEffect(u: Setup, w: World, c: Call, localKey: string)
    requires Safe(w) && c.deviceId in w.gate.sessions && w.gate.sessions[c.deviceId] in w.alive
    requires w.gate.sessions[c.deviceId] in w.conns
    requires w.conns[w.gate.sessions[c.deviceId]].protocol == LOWPOWER || c.cmd == "lowpower_wakeup"
    requires Get(w.gate.db, u.cfg.key(LocalKey(c.deviceId))) == Some(localKey)
    ensures
      var s, id := w.gate.sessions[c.deviceId], "W" + ToString(c.wall);
      var p := PendingWake(c.deviceId, id, "lowpower_wakeup", LowPowerWake(id), s, LOWPOWER, 0,
                           w.now + u.cfg.ackTimeoutMs);
      && Sending(u, w, c).1 == Sent(id)
      && Next(u, w, Command(c)) == w.(gate := Issued(u.cfg, w.gate, w.now, p, WakeFrame(localKey)))
  {
    var s, id := w.gate.sessions[c.deviceId], MsgId(c.wall);
    var p := PendingWake(c.deviceId, id, "lowpower_wakeup", LowPowerWake(id), s, LOWPOWER, 0,
                         w.now + u.cfg.ackTimeoutMs);
    assert s in LinksOf(w) && LinksOf(w)[s] == w.conns[s].protocol;
    assert SendLowPowerWake(u.cfg, Wakes(w.gate), w.now, c, s)
      == (Entered(u.cfg, Wakes(w.gate), w.now, p, Raw(WakeupBytes(localKey))), Sent(id));
    WakeFrameIsBytes(localKey);
    IssuedIsEntered(u.cfg, w.gate, w.now, p, WakeFrame(localKey));
  }

  lemma IssuedIsEntered(cfg: Config, g: Gateway, now: int, p: PendingWake, buffer: Buffer)
    ensures WithWakes(g, Entered(cfg, Wakes(g), now, p, buffer)) == Issued(cfg, g, now, p, buffer)
  {
    StoredRecord(cfg, g.db, p.deviceId, p.msgId, now);
  }

  // ---- ticks ----

  /** What a retry transmits: the stored document, or the wake frame of the stored key. */
  ghost predicate IsResent(cfg: Config, db: Db, p: PendingWake, notes: seq<Note>) {
    && (p.protocol == JSON_LINE ==> notes == [Posted(p.session, Line(p.payload), Some(p.msgId))])
    && (p.protocol == LOWPOWER ==>
          match Get(db, cfg.key(LocalKey(p.deviceId)))
          case Some(localKey) => notes == [Posted(p.session, WakeFrame(localKey), Some(p.msgId))]
          case None => notes == [])
  }

  /** One entry through a tick: untouched before it is due; failed and gone when it is due and has no retries left,
      even if its session is gone; otherwise untouched while its session is gone; otherwise counted, rescheduled,
      announced and sent again. The new notes about it are given in order. */
  ghost predicate IsTicked(cfg: Config, db: Db, now: int, p: PendingWake, alive: bool, after: Option<PendingWake>,
      notes: seq<Note>)
  {
    if now < p.nextRetry then after == Some(p) && notes == []
    else if p.retryCount >= cfg.maxRetry then
      after == None && notes == [Published(now, p.msgId, Failed(p.retryCount))]
    else if !alive then after == Some(p) && notes == []
    else
      && after == Some(p.(retryCount := p.retryCount + 1, nextRetry := now + cfg.ackTimeoutMs))
      && |notes| >= 1 && notes[0] == Published(now, p.msgId, Retrying(p.retryCount + 1))
      && IsResent(cfg, db, p, notes[1..])
  }

  lemma EntryIsTicked(cfg: Config, db: Db, now: int, p: PendingWake, links: Links)
    ensures
      var after := if FateOf(cfg, p, now, links).Fail? then None else Some(AfterTick(cfg, p, now, links));
      IsTicked(cfg, db, now, p, p.session in links, after, TickNotes(cfg, db, p, now, links))
  {
    RetryIsResent(cfg, db, p);
    var notes := TickNotes(cfg, db, p, now, links);
    assert notes != [] && notes[0].status.Retrying? ==> notes[1..] == RetrySends(cfg, db, p);
  }

  lemma RetryIsResent(cfg: Config, db: Db, p: PendingWake)
    ensures IsResent(cfg, db, p, RetrySends(cfg, db, p))
  {
    var localKey := Get(db, cfg.key(LocalKey(p.deviceId)));
    if localKey.Some? { WakeFrameIsBytes(localKey.value); }
  }

  function EntryOf(pending: map<string, PendingWake>, id: string): Option<PendingWake> {
    if id in pending then Some(pending[id]) else None
  }

  /** A tick, in any order: every entry so, no other entry, and nothing but commands touched. */
  lemma TickEffect(u: Setup, w: World, order: seq<string>, id: string) returns (notes: seq<Note>)
    requires Safe(w) && Possible(w, Tick(order))
    ensures
      var v := Next(u, w, Tick(order));
      && v == w.(gate := w.gate.(pending := v.gate.pending, trace := v.gate.trace), lastTick := w.now)
      && About(v.gate.trace, id) == About(w.gate.trace, id) + notes
      && match EntryOf(w.gate.pending, id)
         case None => EntryOf(v.gate.pending, id) == None && notes == []
         case Some(p) =>
           && p.msgId == id
           && IsTicked(u.cfg, w.gate.db, w.now, p, p.session in w.alive, EntryOf(v.gate.pending, id), notes)
  {
    TickRefinesEntries(u.cfg, Wakes(w.gate), w.now, LinksOf(w), order, id);
    notes := [];
    if id in w.gate.pending {
      var p := w.gate.pending[id];
      assert EntryFits(w.conns, p) && (p.session in LinksOf(w) <==> p.session in w.alive);
      EntryIsTicked(u.cfg, w.gate.db, w.now, p, LinksOf(w));
      notes := TickNotes(u.cfg, w.gate.db, p, w.now, LinksOf(w));
    }
  }
}
