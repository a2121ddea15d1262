/** The online records of a set of device ids, over every run: when they agree with the registry, and when not. */
module Records {
  import opened Bytes
  import opened Model
  import opened Codec
  import opened Redis
  import opened Presence
  import opened Dispatcher
  import opened Session
  import opened World

  // ---- runs over a set of ids ----

  ghost predicate LoginWithin(e: Event, ids: iset<string>) {
    e.JsonLine? && e.request.Login? && e.request.deviceId != "" ==> e.request.deviceId in ids
  }

  /** Every JSON login names one of the ids. */
  ghost predicate LoginsWithin(events: seq<Event>, ids: iset<string>) {
    forall i | 0 <= i < |events| :: LoginWithin(events[i], ids)
  }

  ghost predicate EntryWithin(cfg: Config, db: Db, ids: iset<string>, e: string) {
    var id := Get(db, cfg.key(DeviceIndex(e)));
    id.Some? && id.value != "" ==> id.value in ids
  }

  /** Every index entry names one of the ids. */
  ghost predicate IndexWithin(u: Setup, ids: iset<string>) {
    forall e :: EntryWithin(u.cfg, u.provisioned, ids, e)
  }

  /** None of the ids has a record at the start. */
  ghost predicate NoneOnline(u: Setup, ids: iset<string>) {
    forall d | d in ids :: OnlineKey(u.cfg, d) !in u.provisioned
  }

  lemma AuthenticatedIdIsWithin(u: Setup, db: Db, f: Frame, ids: iset<string>)
    requires IndexWithin(u, ids) && Untouched(u, db)
    ensures var d := AuthenticatedId(u.cfg, u.crypto, db, f); d.Some? ==> d.value != "" && d.value in ids
  {
    var p := ParsedLV(f.payload);
    if p.Some? {
      var e := Characters(p.value.encryptedDevId);
      assert Get(db, u.cfg.key(DeviceIndex(e))) == Get(u.provisioned, u.cfg.key(DeviceIndex(e)));
      assert EntryWithin(u.cfg, u.provisioned, ids, e);
    }
  }

  // ---- the agreement, handler by handler ----

  /** A store that differs only in a record that is nobody's online record leaves the agreement alone. */
  lemma OtherRecordsChange(cfg: Config, p: Presence, db: Db, now: int, key: string, ids: iset<string>)
    requires Inv(cfg, p, now, ids)
    requires forall k | k != key :: (k in db <==> k in p.db) && (k in db ==> db[k] == p.db[k])
    requires forall d :: OnlineKey(cfg, d) != key
    ensures Inv(cfg, p.(db := db), now, ids)
  {
    forall d | d in ids
      ensures RecordAgrees(cfg, p.(db := db), d)
    {
      assert RecordAgrees(cfg, p, d);
    }
  }

  lemma PendingKeysAreNotOnline(cfg: Config, name: KeyName)
    requires SeparatesFamilies(cfg.key) && name.PendingWakeKey?
    ensures forall d :: OnlineKey(cfg, d) != cfg.key(name)
  {
    forall d
      ensures OnlineKey(cfg, d) != cfg.key(name)
    {
      assert !SameKind(Online(d), name);
    }
  }

  lemma DoneKeepsRecords(cfg: Config, g: Gateway, now: int, msgId: string, ids: iset<string>)
    requires SeparatesFamilies(cfg.key) && Inv(cfg, Registry(g), now, ids)
    ensures Inv(cfg, Registry(WithWakes(g, MarkedDone(cfg, Wakes(g), now, msgId))), now, ids)
  {
    if msgId in g.pending {
      var name := PendingWakeKey(g.pending[msgId].deviceId, msgId);
      PendingKeysAreNotOnline(cfg, name);
      OtherRecordsChange(cfg, Registry(g), g.db - {cfg.key(name)}, now, cfg.key(name), ids);
    }
  }

  lemma JsonKeepsRecords(cfg: Config, v: View, s: Sid, now: int, r: Request, ids: iset<string>)
    requires SeparatesFamilies(cfg.key) && Inv(cfg, Registry(v.gate), now, ids) && IdHasState(v.conn, v.gate.states)
    requires r.Login? && r.deviceId != "" ==> r.deviceId in ids
    ensures Inv(cfg, Registry(HandleJson(cfg, v, s, now, r).gate), now, ids)
  {
    var p, id := Registry(v.gate), v.conn.deviceId;
    match r {
      case Login(d, dev) =>
        if d != "" { RegisterKeepsInv(cfg, p, now, s, FreshState(d, "json_line", OrUnknown(dev), now), ids); }
      case Report(battery, dev) =>
        if id != "" { HeartbeatKeepsInv(cfg, p, now, id, battery, dev, ids); }
      case HostSleep => HostReportKeepsInv(cfg, p, now, id, "sleep", ids);
      case HostState(dev) => HostReportKeepsInv(cfg, p, now, id, OrUnknown(dev), ids);
      case TaskDone(msgId) => DoneKeepsRecords(cfg, v.gate, now, msgId, ids);
      case _ =>
    }
  }

  lemma FrameKeepsRecords(u: Setup, v: View, s: Sid, now: int, f: Frame, draw: Draw, ids: iset<string>)
    requires IndexWithin(u, ids) && Untouched(u, v.gate.db)
    requires Inv(u.cfg, Registry(v.gate), now, ids) && IdHasState(v.conn, v.gate.states)
    ensures Inv(u.cfg, Registry(HandleFrame(u.cfg, u.crypto, v, s, now, f, draw).gate), now, ids)
  {
    var p, id := Registry(v.gate), v.conn.deviceId;
    if f.msgType == AUTH_REQ {
      AuthenticatedIdIsWithin(u, v.gate.db, f, ids);
      var d := AuthenticatedId(u.cfg, u.crypto, v.gate.db, f);
      if d.Some? { RegisterKeepsInv(u.cfg, p, now, s, FreshState(d.value, "lowpower", "sleep", now), ids); }
    } else if f.msgType == HEARTBEAT && id != "" {
      HeartbeatKeepsInv(u.cfg, p, now, id, None, Some("sleep"), ids);
    }
  }

  lemma CommandKeepsRecords(u: Setup, w: World, c: Call, ids: iset<string>)
    requires SeparatesFamilies(u.cfg.key) && Inv(u.cfg, Registry(w.gate), w.now, ids)
    ensures Inv(u.cfg, Registry(Next(u, w, Command(c)).gate), w.now, ids)
  {
    var entry, buffer := SendShape(u.cfg, Wakes(w.gate), w.now, c, LinksOf(w));
    var (v, r) := Sending(u, w, c);
    if r.Sent? {
      var name := PendingWakeKey(c.deviceId, MsgId(c.wall));
      PendingKeysAreNotOnline(u.cfg, name);
      OtherRecordsChange(u.cfg, Registry(w.gate), v.db, w.now, u.cfg.key(name), ids);
    } else {
      ForgetKeepsInv(u.cfg, Registry(w.gate), w.now, c.deviceId, w.now, ids);
    }
  }

  lemma TimeKeepsRecords(cfg: Config, p: Presence, now: int, later: int, ids: iset<string>)
    requires Inv(cfg, p, now, ids) && now <= later
    ensures Inv(cfg, p, later, ids)
  {}

  lemma NextKeepsRecords(u: Setup, w: World, e: Event, ids: iset<string>)
    requires SeparatesFamilies(u.cfg.key) && IndexWithin(u, ids) && LoginWithin(e, ids)
    requires Joint(w.conns, w.gate) && Untouched(u, w.gate.db) && Possible(w, e)
    requires Inv(u.cfg, Registry(w.gate), w.now, ids)
    ensures Inv(u.cfg, Registry(Next(u, w, e).gate), Next(u, w, e).now, ids)
  {
    match e {
      case Advance(ms) => TimeKeepsRecords(u.cfg, Registry(w.gate), w.now, w.now + ms, ids);
      case JsonLine(s, r) =>
        assert IdHasState(w.conns[s], w.gate.states);
        JsonKeepsRecords(u.cfg, ViewOf(w, s), s, w.now, r, ids);
      case FrameIn(s, f, draw) =>
        assert IdHasState(w.conns[s], w.gate.states);
        FrameKeepsRecords(u, ViewOf(w, s), s, w.now, f, draw, ids);
      case Lost(s) =>
        assert IdHasState(w.conns[s], w.gate.states);
        DisconnectKeepsInv(u.cfg, Registry(w.gate), w.now, w.conns[s].deviceId, ids);
      case Command(c) => CommandKeepsRecords(u, w, c, ids);
      case Check => CheckKeepsInv(u.cfg, Registry(w.gate), w.now, ids);
      case _ =>
    }
  }

  /** Ids that share no record: every run over them keeps the agreement. */
  lemma {:induction false} RunKeepsRecords(u: Setup, events: seq<Event>, ids: iset<string>)
    requires SeparatesFamilies(u.cfg.key) && OnlineApart(u.cfg.key, ids)
    requires IndexWithin(u, ids) && NoneOnline(u, ids)
    requires IsRun(u, events) && LoginsWithin(events, ids)
    ensures Inv(u.cfg, Registry(Run(u, events).gate), Run(u, events).now, ids)
  {
    if events != [] {
      var n := |events| - 1;
      RunKeepsRecords(u, events[..n], ids);
      RunIsSafe(u, events[..n]);
      RunKeepsProvisioned(u, events[..n]);
      assert LoginWithin(events[n], ids);
      NextKeepsRecords(u, Run(u, events[..n]), events[n], ids);
    }
  }

  // ---- ids that share a record ----

  const OPEN_BRACE: byte := 0x7B

  /** A new session has logged in over JSON. */
  ghost predicate LoggedIn(u: Setup, before: World, w: World, s: Sid, d: string) {
    && s !in before.conns && w.now == before.now
    && w.conns == before.conns[s := Conn(d, JSON_LINE, false, true)]
    && w.alive == before.alive + {s}
    && w.lastTick == before.lastTick && w.lastCheck == before.lastCheck
    && w.gate.pending == before.gate.pending
    && Registry(w.gate)
       == Registered(u.cfg, Registry(before.gate), w.now, s, FreshState(d, "json_line", "unknown", w.now))
    && w.gate.trace == before.gate.trace
         + [Posted(s, Line(LoginAck(0, u.cfg.heartbeatDefaultSec, u.cfg.idleTimeoutSec)), None)]
  }

  function Opened(w: World, s: Sid): World {
    w.(conns := w.conns[s := Conn("", JSON_LINE, false, true)], alive := w.alive + {s})
  }

  lemma OpenRun(u: Setup, events: seq<Event>, s: Sid)
    requires IsRun(u, events) && s !in Run(u, events).conns
    ensures IsRun(u, events + [Accept(s), Peek(s, OPEN_BRACE)])
    ensures Run(u, events + [Accept(s), Peek(s, OPEN_BRACE)]) == Opened(Run(u, events), s)
  {
    RunSnoc(u, events, Accept(s));
    RunSnoc(u, events + [Accept(s)], Peek(s, OPEN_BRACE));
    assert events + [Accept(s)] + [Peek(s, OPEN_BRACE)] == events + [Accept(s), Peek(s, OPEN_BRACE)];
  }

  function LoginEvents(s: Sid, d: string): seq<Event> {
    [Accept(s), Peek(s, OPEN_BRACE), JsonLine(s, Login(d, None))]
  }

  lemma LoginOfOpened(u: Setup, w: World, s: Sid, d: string)
    requires s !in w.conns && d != ""
    ensures Possible(Opened(w, s), JsonLine(s, Login(d, None)))
    ensures LoggedIn(u, w, Next(u, Opened(w, s), JsonLine(s, Login(d, None))), s, d)
  {}

  /** Any run can go on with a login of a new session. */
  lemma LoginRun(u: Setup, events: seq<Event>, s: Sid, d: string)
    requires IsRun(u, events) && s !in Run(u, events).conns && d != ""
    ensures IsRun(u, events + LoginEvents(s, d))
    ensures LoggedIn(u, Run(u, events), Run(u, events + LoginEvents(s, d)), s, d)
  {
    var opening := [Accept(s), Peek(s, OPEN_BRACE)];
    OpenRun(u, events, s);
    LoginOfOpened(u, Run(u, events), s, d);
    RunSnoc(u, events + opening, JsonLine(s, Login(d, None)));
    assert events + opening + [JsonLine(s, Login(d, None))] == events + LoginEvents(s, d);
  }

  /** The first login of a run. */
  lemma FirstLoginRun(u: Setup, d: string)
    requires d != ""
    ensures IsRun(u, LoginEvents(0, d)) && LoggedIn(u, Booted(u), Run(u, LoginEvents(0, d)), 0, d)
  {
    var none: seq<Event> := [];
    LoginRun(u, none, 0, d);
    assert none + LoginEvents(0, d) == LoginEvents(0, d);
  }

  /** Two ids of one record: both log in, the second is lost, and the first is online without a record. */
  function SharedRecordEvents(a: string, b: string): seq<Event> {
    LoginEvents(0, a) + LoginEvents(1, b) + [Lost(1)]
  }

  lemma SharedRecordRun(u: Setup, a: string, b: string)
    requires a != b && a != "" && b != "" && OnlineKey(u.cfg, a) == OnlineKey(u.cfg, b)
    ensures IsRun(u, SharedRecordEvents(a, b))
    ensures
      var g := Run(u, SharedRecordEvents(a, b)).gate;
      a in g.states && g.states[a].online && a in g.sessions && OnlineKey(u.cfg, a) !in g.db
  {
    var first := LoginEvents(0, a);
    FirstLoginRun(u, a);
    LoginRun(u, first, 1, b);
    RunSnoc(u, first + LoginEvents(1, b), Lost(1));
  }

  ghost predicate KeepsAgreement(u: Setup, events: seq<Event>, ids: iset<string>) {
    IsRun(u, events) && LoginsWithin(events, ids) ==>
      forall d | d in ids :: RecordAgrees(u.cfg, Registry(Run(u, events).gate), d)
  }

  lemma SharedRecordWithin(a: string, b: string, ids: iset<string>)
    requires a in ids && b in ids
    ensures LoginsWithin(SharedRecordEvents(a, b), ids)
  {}

  // ---- an idle timeout that is not positive ----

  /** No online record is new. */
  ghost predicate NoneAdded(cfg: Config, a: Db, b: Db) {
    forall d | OnlineKey(cfg, d) in b :: OnlineKey(cfg, d) in a
  }

  lemma CommandAddsNone(u: Setup, w: World, c: Call)
    requires SeparatesFamilies(u.cfg.key)
    ensures NoneAdded(u.cfg, w.gate.db, Sending(u, w, c).0.db)
  {
    var p, buffer := SendShape(u.cfg, Wakes(w.gate), w.now, c, LinksOf(w));
    PendingKeysAreNotOnline(u.cfg, PendingWakeKey(c.deviceId, MsgId(c.wall)));
  }

  lemma JsonAddsNone(cfg: Config, v: View, s: Sid, now: int, r: Request)
    requires cfg.idleTimeoutSec <= 0
    ensures NoneAdded(cfg, v.gate.db, HandleJson(cfg, v, s, now, r).gate.db)
  {}

  lemma FrameAddsNone(cfg: Config, crypto: Crypto, v: View, s: Sid, now: int, f: Frame, draw: Draw)
    requires cfg.idleTimeoutSec <= 0
    ensures HandleFrame(cfg, crypto, v, s, now, f, draw).gate.db == v.gate.db
  {
    if f.msgType == AUTH_REQ { AuthAddsNone(cfg, crypto, v, s, now, f, draw); }
  }

  lemma AuthAddsNone(cfg: Config, crypto: Crypto, v: View, s: Sid, now: int, f: Frame, draw: Draw)
    requires cfg.idleTimeoutSec <= 0
    ensures HandleAuthReq(cfg, crypto, v, s, now, f, draw).gate.db == v.gate.db
  {}

  /** The server refuses a time to live that is not positive, so nothing is recorded. */
  lemma NextAddsNone(u: Setup, w: World, e: Event)
    requires SeparatesFamilies(u.cfg.key) && u.cfg.idleTimeoutSec <= 0 && Possible(w, e)
    ensures NoneAdded(u.cfg, w.gate.db, Next(u, w, e).gate.db)
  {
    match e {
      case JsonLine(s, r) => JsonAddsNone(u.cfg, ViewOf(w, s), s, w.now, r);
      case FrameIn(s, f, draw) => FrameAddsNone(u.cfg, u.crypto, ViewOf(w, s), s, w.now, f, draw);
      case Command(c) => CommandAddsNone(u, w, c);
      case _ =>
    }
  }

  lemma {:induction false} RunAddsNone(u: Setup, events: seq<Event>)
    requires SeparatesFamilies(u.cfg.key) && u.cfg.idleTimeoutSec <= 0 && IsRun(u, events)
    ensures NoneAdded(u.cfg, u.provisioned, Run(u, events).gate.db)
  {
    if events != [] {
      RunAddsNone(u, events[..|events| - 1]);
      NextAddsNone(u, Run(u, events[..|events| - 1]), events[|events| - 1]);
    }
  }

  /** Every run over a set of non-empty ids keeps memory and store in agreement about all of them exactly when no
      two of them share a record, or none is ever written. */
  lemma AgreementIffApart(u: Setup, ids: iset<string>)
    requires SeparatesFamilies(u.cfg.key) && "" !in ids && IndexWithin(u, ids) && NoneOnline(u, ids)
    ensures (forall events :: KeepsAgreement(u, events, ids)) <==>
      OnlineApart(u.cfg.key, ids) || u.cfg.idleTimeoutSec <= 0
  {
    if OnlineApart(u.cfg.key, ids) {
      forall events
        ensures KeepsAgreement(u, events, ids)
      {
        if IsRun(u, events) && LoginsWithin(events, ids) { RunKeepsRecords(u, events, ids); }
      }
    } else if u.cfg.idleTimeoutSec <= 0 {
      forall events
        ensures KeepsAgreement(u, events, ids)
      {
        if IsRun(u, events) { RunAddsNone(u, events); }
      }
    } else {
      var a, b :| a in ids && b in ids && OnlineKey(u.cfg, a) == OnlineKey(u.cfg, b) && a != b;
      SharedRecordRun(u, a, b);
      SharedRecordWithin(a, b, ids);
      assert !RecordAgrees(u.cfg, Registry(Run(u, SharedRecordEvents(a, b)).gate), a);
      assert !KeepsAgreement(u, SharedRecordEvents(a, b), ids);
    }
  }

  /** In the store, ids that agree up to a NUL are such a pair, and that run breaks the agreement. */
  lemma NulLoginsBreakAgreement(u: Setup, prefix: string, id: string, x: string, y: string, ids: iset<string>)
    requires '\0' !in prefix && (forall k :: u.cfg.key(k) == Key(prefix, k)) && u.cfg.idleTimeoutSec > 0
    requires x != y && id + ['\0'] + x in ids && id + ['\0'] + y in ids
    ensures !KeepsAgreement(u, SharedRecordEvents(id + ['\0'] + x, id + ['\0'] + y), ids)
  {
    var a, b := id + ['\0'] + x, id + ['\0'] + y;
    NulIdsShareAKey(prefix, id, x, y);
    TailsDiffer(id + ['\0'], x, y);
    SharedRecordRun(u, a, b);
    SharedRecordWithin(a, b, ids);
    assert !RecordAgrees(u.cfg, Registry(Run(u, SharedRecordEvents(a, b)).gate), a);
  }

  lemma TailsDiffer(common: string, x: string, y: string)
    ensures common + x == common + y <==> x == y
  {
    if common + x == common + y { ConcatIsInjective(common, x, y); }
  }
}
