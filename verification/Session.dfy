/** A device session: protocol detection, the message handlers of both protocols, and disconnection. */
module Session {
  import opened Bytes
  import opened Text
  import opened Model
  import opened Codec
  import opened AuthFields
  import opened Redis
  import opened Presence
  import opened Dispatcher
  import opened FrameReader
  import opened WakeManagement

  // ---- state and inputs ----

  /** What a session keeps about itself. */
  datatype Conn = Conn(deviceId: string, protocol: SessionProtocol, closing: bool, open: bool)

  const NEW_CONN := Conn("", UNKNOWN, false, true)

  /** What all sessions share. */
  datatype Gateway = Gateway(
    sessions: map<string, Sid>,
    states: map<string, DeviceState>,
    db: Db,
    pending: map<string, PendingWake>,
    trace: seq<Note>
  )

  function Registry(g: Gateway): Presence {
    Presence(g.sessions, g.states, g.db)
  }

  function WithRegistry(g: Gateway, p: Presence): Gateway {
    g.(sessions := p.sessions, states := p.states, db := p.db)
  }

  function Wakes(g: Gateway): WakeState {
    WakeState(g.pending, g.sessions, g.db, g.trace)
  }

  function WithWakes(g: Gateway, w: WakeState): Gateway {
    g.(pending := w.pending, sessions := w.sessions, db := w.db, trace := w.trace)
  }

  /** A session and what it shares. */
  datatype View = View(conn: Conn, gate: Gateway)

  /** A JSON line, already parsed; an absent field is None, or empty where the handler's default is. */
  datatype Request =
    | Malformed
    | Login(deviceId: string, dev: Option<string>)
    | Report(battery: Option<int>, dev: Option<string>)
    | WakeAck(ackedId: string)
    | TaskDone(doneId: string)
    | HostSleep
    | HostState(hostDev: Option<string>)
    | Unknown

  /** The two strings of a decrypted authentication document. */
  datatype AuthDocument = AuthDocument(authorization: string, signature: string)

  /** The document of an authentication answer. */
  datatype AuthAnswer = AuthAnswer(interval: int, random: string, authorization: string, signature: string)

  /** The libraries: HMAC, AES by key and iv, base64, and JSON on the documents of the handshake. */
  datatype Crypto = Crypto(
    hmac: Signer,
    decrypt: (string, seq<byte>, seq<byte>) -> Option<seq<byte>>,
    document: seq<byte> -> Option<AuthDocument>,
    encrypt: (string, seq<byte>, seq<byte>) -> seq<byte>,
    base64: seq<byte> -> string,
    dump: AuthAnswer -> seq<byte>
  )

  /** What an answer draws from its surroundings: two random strings of octets and the wall clock. */
  datatype Draw = Draw(iv: seq<byte>, random: seq<byte>, nowSec: int)

  // ---- the handlers as functions ----

  function Post(v: View, sid: Sid, buffer: Buffer): View {
    v.(gate := v.gate.(trace := v.gate.trace + [Posted(sid, buffer, None)]))
  }

  function Closed(v: View): View {
    v.(conn := v.conn.(open := false))
  }

  /** The first byte, which is only peeked at, decides the protocol for good. */
  function Detected(c: Conn, first: byte): Conn {
    if first == '{' as int then c.(protocol := JSON_LINE)
    else if first == VERSION_1 then c.(protocol := LOWPOWER)
    else c.(open := false)
  }

  function Disconnect(cfg: Config, v: View): View {
    if v.conn.closing then v
    else
      View(v.conn.(closing := true, open := false),
           WithRegistry(v.gate, Disconnected(cfg, Registry(v.gate), v.conn.deviceId)))
  }

  function FreshState(id: string, protocol: string, dev: string, now: int): DeviceState {
    DeviceState(id, protocol, dev, -1, true, now, now)
  }

  function OrUnknown(dev: Option<string>): string {
    if dev.Some? then dev.value else "unknown"
  }

  /** Take the id, enter the maps, and write the record. */
  function Joined(cfg: Config, v: View, sid: Sid, now: int, s: DeviceState): View {
    View(v.conn.(deviceId := s.deviceId), WithRegistry(v.gate, Registered(cfg, Registry(v.gate), now, sid, s)))
  }

  function Beat(cfg: Config, v: View, now: int, battery: Option<int>, dev: Option<string>): View {
    v.(gate := WithRegistry(v.gate, Heartbeat(cfg, Registry(v.gate), now, v.conn.deviceId, battery, dev)))
  }

  function HandleJson(cfg: Config, v: View, sid: Sid, now: int, request: Request): View {
    match request
    case Malformed => Post(v, sid, Line(Error("bad_json")))
    case Unknown => Post(v, sid, Line(Error("unknown_type")))
    case Login(id, dev) =>
      if id == "" then Post(v, sid, Line(LoginAck(1, cfg.heartbeatDefaultSec, cfg.idleTimeoutSec)))
      else
        Post(Joined(cfg, v, sid, now, FreshState(id, "json_line", OrUnknown(dev), now)), sid,
          Line(LoginAck(0, cfg.heartbeatDefaultSec, cfg.idleTimeoutSec)))
    case Report(battery, dev) =>
      if v.conn.deviceId == "" then Post(v, sid, Line(Error("not_logged_in")))
      else
        var beaten := Beat(cfg, v, now, battery, dev);
        Post(beaten, sid, Line(HeartbeatAck(GrantedSec(cfg, beaten.gate.states[v.conn.deviceId].battery))))
    case WakeAck(id) =>
      if id == "" then v else v.(gate := WithWakes(v.gate, MarkedAck(Wakes(v.gate), now, id)))
    case TaskDone(id) =>
      var done := if id == "" then v else v.(gate := WithWakes(v.gate, MarkedDone(cfg, Wakes(v.gate), now, id)));
      Post(done, sid, Line(TaskDoneAck(id)))
    case HostSleep =>
      Post(v.(gate := WithRegistry(v.gate, HostReported(Registry(v.gate), v.conn.deviceId, "sleep"))), sid,
        Line(HostSleepAck))
    case HostState(dev) =>
      v.(gate := WithRegistry(v.gate, HostReported(Registry(v.gate), v.conn.deviceId, OrUnknown(dev))))
  }

  // ---- low-power authentication ----

  function ResolvedKey(cfg: Config, db: Db, deviceId: string): string {
    match Get(db, cfg.key(LocalKey(deviceId)))
    case Some(localKey) => localKey
    case None => cfg.devDefaultSecret
  }

  /** The device an authentication request proves itself to be, if any. */
  function AuthenticatedId(cfg: Config, crypto: Crypto, db: Db, frame: Frame): Option<string> {
    match ParsedLV(frame.payload)
    case None => None
    case Some(p) =>
      match Get(db, cfg.key(DeviceIndex(Characters(p.encryptedDevId))))
      case None => None
      case Some(id) => if id != "" && SignedBy(cfg, crypto, db, p, id) then Some(id) else None
  }

  /** The request in a decrypted document, if it is one. */
  function RequestOf(crypto: Crypto, localKey: string, p: AuthPayload): Option<AuthRequest> {
    match crypto.decrypt(localKey, p.iv, p.encryptedData)
    case None => None
    case Some(plain) =>
      match crypto.document(plain)
      case None => None
      case Some(doc) => ParseAuthRequest(doc.authorization, doc.signature)
  }

  /** The decrypted document carries the id's own signature over its time and random. */
  predicate SignedBy(cfg: Config, crypto: Crypto, db: Db, p: AuthPayload, id: string) {
    var localKey := ResolvedKey(cfg, db, id);
    var request := RequestOf(crypto, localKey, p);
    request.Some? && VerifyAuthRequest(crypto.hmac, request.value, id, localKey)
  }

  /** The key that counts for a device: the stored one; only if there is none, the default. */
  ghost predicate IsKeyOf(cfg: Config, db: Db, id: string, localKey: string) {
    var stored := Get(db, cfg.key(LocalKey(id)));
    stored == Some(localKey) || (stored == None && localKey == cfg.devDefaultSecret)
  }

  /** A frame of type 0 whose payload names the id through the index, opens under the key, and holds a document with
      the id's signature under it. */
  ghost predicate IsSignedUnder(cfg: Config, crypto: Crypto, db: Db, frame: Frame, id: string, localKey: string) {
    && frame.msgType == 0 && id != ""
    && exists p, plain, doc ::
      && IsLV(frame.payload, p)
      && Get(db, cfg.key(DeviceIndex(Characters(p.encryptedDevId)))) == Some(id)
      && crypto.decrypt(localKey, p.iv, p.encryptedData) == Some(plain)
      && crypto.document(plain) == Some(doc)
      && IsSignedDocument(crypto, doc, id, localKey)
  }

  /** What an accepted request amounts to. */
  ghost predicate IsAuthentication(cfg: Config, crypto: Crypto, db: Db, frame: Frame, id: string) {
    exists localKey :: IsKeyOf(cfg, db, id, localKey) && IsSignedUnder(cfg, crypto, db, frame, id, localKey)
  }

  ghost predicate IsSignedDocument(crypto: Crypto, doc: AuthDocument, id: string, localKey: string) {
    var time, random := FieldOf(doc.authorization, "time"), FieldOf(doc.authorization, "random");
    && time != "" && random != "" && doc.signature != ""
    && doc.signature == crypto.hmac(localKey, id + ":" + time + ":" + random)
  }

  // ---- the answer ----

  /** It returns the device's random, and is signed over a time and a random of the gateway's own. */
  function Answer(cfg: Config, crypto: Crypto, id: string, localKey: string, deviceRandom: string, draw: Draw)
    : AuthAnswer
  {
    var random := crypto.base64(draw.random);
    var signature := Signature(crypto.hmac, id, localKey, ToString(draw.nowSec), random);
    AuthAnswer(cfg.heartbeatDefaultSec, deviceRandom, ResponseAuthorization(draw.nowSec, random), signature)
  }

  function AnswerFields(crypto: Crypto, id: string, localKey: string, answer: AuthAnswer, iv: seq<byte>): AuthPayload {
    var encryptedId := crypto.base64(crypto.encrypt(localKey, iv, Octets(id)));
    AuthPayload(iv, Octets(encryptedId), crypto.encrypt(localKey, iv, crypto.dump(answer)))
  }

  function AuthResponse(cfg: Config, crypto: Crypto, id: string, localKey: string, deviceRandom: string, draw: Draw)
    : Frame
  {
    var answer := Answer(cfg, crypto, id, localKey, deviceRandom, draw);
    MakeFrame(AUTH_RESP, AES_CBC_128_PKCS7, BuiltLV(AnswerFields(crypto, id, localKey, answer, draw.iv)))
  }

  /** The random that a device sent with its request. */
  function DeviceRandom(crypto: Crypto, localKey: string, frame: Frame): string {
    match ParsedLV(frame.payload)
    case None => ""
    case Some(p) =>
      match RequestOf(crypto, localKey, p)
      case None => ""
      case Some(request) => request.random
  }

  /** The frame that answers an accepted request. */
  function AuthReply(cfg: Config, crypto: Crypto, db: Db, frame: Frame, id: string, draw: Draw): Frame {
    var localKey := ResolvedKey(cfg, db, id);
    AuthResponse(cfg, crypto, id, localKey, DeviceRandom(crypto, localKey, frame), draw)
  }

  function HandleAuthReq(cfg: Config, crypto: Crypto, v: View, sid: Sid, now: int, frame: Frame, draw: Draw): View {
    match AuthenticatedId(cfg, crypto, v.gate.db, frame)
    case None => Closed(v)
    case Some(id) =>
      var reply := Encoded(AuthReply(cfg, crypto, v.gate.db, frame, id, draw));
      Post(Joined(cfg, v, sid, now, FreshState(id, "lowpower", "sleep", now)), sid, Raw(reply))
  }

  function HandleHeartbeat(cfg: Config, v: View, sid: Sid, now: int, frame: Frame): View {
    if v.conn.deviceId == "" || frame.flag != 0 || frame.size != 0 then Closed(v)
    else Post(Beat(cfg, v, now, None, Some("sleep")), sid, Raw(Encoded(HeartbeatFrame())))
  }

  function HandleFrame(cfg: Config, crypto: Crypto, v: View, sid: Sid, now: int, frame: Frame, draw: Draw): View {
    if frame.msgType == AUTH_REQ then HandleAuthReq(cfg, crypto, v, sid, now, frame, draw)
    else if frame.msgType == HEARTBEAT then HandleHeartbeat(cfg, v, sid, now, frame)
    else v
  }

  // ---- what the handlers mean ----

  lemma AcceptedIsSigned(cfg: Config, crypto: Crypto, db: Db, frame: Frame, id: string)
    requires frame.msgType == AUTH_REQ && AuthenticatedId(cfg, crypto, db, frame) == Some(id)
    ensures IsSignedUnder(cfg, crypto, db, frame, id, ResolvedKey(cfg, db, id))
  {
    var p, localKey := ParsedLV(frame.payload).value, ResolvedKey(cfg, db, id);
    ParsedLVIsExact(frame.payload, p);
    var plain := crypto.decrypt(localKey, p.iv, p.encryptedData).value;
    var doc := crypto.document(plain).value;
    assert IsSignedDocument(crypto, doc, id, localKey);
  }

  lemma TheKeyIsResolved(cfg: Config, db: Db, id: string, localKey: string)
    ensures IsKeyOf(cfg, db, id, localKey) <==> localKey == ResolvedKey(cfg, db, id)
  {}

  lemma SignedIsAccepted(crypto: Crypto, p: AuthPayload, plain: seq<byte>, doc: AuthDocument, id: string,
      localKey: string)
    requires crypto.decrypt(localKey, p.iv, p.encryptedData) == Some(plain) && crypto.document(plain) == Some(doc)
    requires IsSignedDocument(crypto, doc, id, localKey)
    ensures
      var request := RequestOf(crypto, localKey, p);
      request.Some? && VerifyAuthRequest(crypto.hmac, request.value, id, localKey)
  {
    EmptyHasNoFields(doc.authorization);
  }

  /** A request is accepted exactly when it is a well-formed frame payload signed under the key of the
      device that the index names. */
  lemma AuthenticationIsExact(cfg: Config, crypto: Crypto, db: Db, frame: Frame, id: string)
    requires frame.msgType == AUTH_REQ
    ensures AuthenticatedId(cfg, crypto, db, frame) == Some(id) <==> IsAuthentication(cfg, crypto, db, frame, id)
  {
    TheKeyDecides(cfg, crypto, db, frame, id, ResolvedKey(cfg, db, id));
    forall localKey
      ensures IsKeyOf(cfg, db, id, localKey) <==> localKey == ResolvedKey(cfg, db, id)
    {
      TheKeyIsResolved(cfg, db, id, localKey);
    }
  }

  /** Under the key of the device, and no other: a request is accepted exactly when it opens and is signed under it. */
  lemma TheKeyDecides(cfg: Config, crypto: Crypto, db: Db, frame: Frame, id: string, localKey: string)
    requires frame.msgType == AUTH_REQ && IsKeyOf(cfg, db, id, localKey)
    ensures AuthenticatedId(cfg, crypto, db, frame) == Some(id) <==> IsSignedUnder(cfg, crypto, db, frame, id, localKey)
  {
    TheKeyIsResolved(cfg, db, id, localKey);
    if AuthenticatedId(cfg, crypto, db, frame) == Some(id) { AcceptedIsSigned(cfg, crypto, db, frame, id); }
    if IsSignedUnder(cfg, crypto, db, frame, id, localKey) {
      var p, plain, doc :|
        && IsLV(frame.payload, p)
        && Get(db, cfg.key(DeviceIndex(Characters(p.encryptedDevId)))) == Some(id)
        && crypto.decrypt(localKey, p.iv, p.encryptedData) == Some(plain)
        && crypto.document(plain) == Some(doc)
        && IsSignedDocument(crypto, doc, id, localKey);
      ParsedLVIsExact(frame.payload, p);
      SignedIsAccepted(crypto, p, plain, doc, id, localKey);
    }
  }

  /** The stored key, if there is one, and otherwise the default secret. */
  lemma StoredKeyDecides(cfg: Config, crypto: Crypto, db: Db, frame: Frame, id: string)
    requires frame.msgType == AUTH_REQ
    ensures
      var accepted := AuthenticatedId(cfg, crypto, db, frame) == Some(id);
      match Get(db, cfg.key(LocalKey(id)))
      case Some(stored) => accepted <==> IsSignedUnder(cfg, crypto, db, frame, id, stored)
      case None => accepted <==> IsSignedUnder(cfg, crypto, db, frame, id, cfg.devDefaultSecret)
  {
    match Get(db, cfg.key(LocalKey(id))) {
      case Some(stored) => TheKeyDecides(cfg, crypto, db, frame, id, stored);
      case None => TheKeyDecides(cfg, crypto, db, frame, id, cfg.devDefaultSecret);
    }
  }

  lemma EmptyHasNoFields(authorization: string)
    ensures authorization == "" ==> FieldOf(authorization, "time") == ""
  {}

  /** A heartbeat is answered exactly when the session has an id and the frame is bare; the answer is the
      frame's own five octets. */
  lemma HeartbeatIsEchoed(cfg: Config, crypto: Crypto, v: View, sid: Sid, now: int, frame: Frame, draw: Draw)
    requires Sendable(frame) && frame.msgType == HEARTBEAT
    ensures
      var after := HandleFrame(cfg, crypto, v, sid, now, frame, draw);
      if v.conn.deviceId != "" && frame.flag == 0 && frame.size == 0
      then after.gate.trace == v.gate.trace + [Posted(sid, Raw(Encoded(frame)), None)] && after.conn == v.conn
      else after == v.(conn := v.conn.(open := false))
  {
    if frame.flag == 0 && frame.size == 0 { assert frame == HeartbeatFrame(); }
  }

  /** The libraries undo each other on this answer: what was encrypted opens, what was dumped parses. */
  ghost predicate OpensAnswer(crypto: Crypto, localKey: string, iv: seq<byte>, answer: AuthAnswer) {
    && crypto.decrypt(localKey, iv, crypto.encrypt(localKey, iv, crypto.dump(answer))) == Some(crypto.dump(answer))
    && crypto.document(crypto.dump(answer)) == Some(AuthDocument(answer.authorization, answer.signature))
  }

  /** Both ways: a device that shares the key opens the answer, and finds in it the gateway's signature for the
      device's own id, by the very check that the gateway makes of a request. */
  lemma AnswerVerifies(cfg: Config, crypto: Crypto, id: string, localKey: string, deviceRandom: string, draw: Draw)
    requires
      var answer, random := Answer(cfg, crypto, id, localKey, deviceRandom, draw), crypto.base64(draw.random);
      && OpensAnswer(crypto, localKey, draw.iv, answer) && answer.signature != ""
      && random != "" && ',' !in random
    ensures
      var reply := AuthResponse(cfg, crypto, id, localKey, deviceRandom, draw);
      |reply.payload| <= 0xFFFF ==>
        var read := ParseFrame(Encoded(reply));
        && read == Some(reply) && ParsedLV(read.value.payload).Some?
        && var request := RequestOf(crypto, localKey, ParsedLV(read.value.payload).value);
          request.Some? && VerifyAuthRequest(crypto.hmac, request.value, id, localKey)
  {
    var answer := Answer(cfg, crypto, id, localKey, deviceRandom, draw);
    var fields := AnswerFields(crypto, id, localKey, answer, draw.iv);
    MadeFrameRoundTrip(AUTH_RESP, AES_CBC_128_PKCS7, BuiltLV(fields));
    ParseOfBuildLV(fields);
    ResponseVerifies(crypto.hmac, id, localKey, draw.nowSec, crypto.base64(draw.random), answer.signature);
  }

  /** The libraries undo each other; base64 is text without a comma, and debase reads it. */
  ghost predicate LibrariesAgree(crypto: Crypto, debase: string -> seq<byte>) {
    && (forall key, iv, x :: crypto.decrypt(key, iv, crypto.encrypt(key, iv, x)) == Some(x))
    && (forall x :: debase(crypto.base64(x)) == x && IsBytes(crypto.base64(x)) && ',' !in crypto.base64(x))
  }

  /** The document of a request, opened under a key. */
  ghost predicate IsRequestDocument(crypto: Crypto, frame: Frame, localKey: string, doc: AuthDocument) {
    exists p, plain ::
      && IsLV(frame.payload, p)
      && crypto.decrypt(localKey, p.iv, p.encryptedData) == Some(plain) && crypto.document(plain) == Some(doc)
  }

  /** What octets must be to answer a request: a frame of type 1 with flag 1, whose three fields are the drawn iv, the
      id and a document, both opening under the key; the document carries the heartbeat interval, the random of the
      request, and a signature for the id over a time and a random of the gateway's own. */
  ghost predicate IsAnswer(cfg: Config, crypto: Crypto, debase: string -> seq<byte>, request: Frame, data: seq<byte>,
      id: string, localKey: string, draw: Draw)
  {
    exists p, answer, doc ::
      && ParseFrame(data).Some? && IsAnswerFrame(ParseFrame(data).value) && IsLV(ParseFrame(data).value.payload, p)
      && p.iv == draw.iv
      && crypto.decrypt(localKey, p.iv, debase(Characters(p.encryptedDevId))) == Some(Octets(id))
      && crypto.decrypt(localKey, p.iv, p.encryptedData) == Some(crypto.dump(answer))
      && IsRequestDocument(crypto, request, localKey, doc)
      && answer.interval == cfg.heartbeatDefaultSec && answer.random == FieldOf(doc.authorization, "random")
      && IsOwnSignature(crypto, answer, id, localKey, draw)
  }

  predicate IsAnswerFrame(f: Frame) {
    f.version == 1 && f.msgType == 1 && f.flag == 1
  }

  ghost predicate IsOwnSignature(crypto: Crypto, answer: AuthAnswer, id: string, localKey: string, draw: Draw) {
    var time, random := FieldOf(answer.authorization, "time"), FieldOf(answer.authorization, "random");
    && answer.authorization == "time=" + ToString(draw.nowSec) + ",random=" + crypto.base64(draw.random)
    && time == ToString(draw.nowSec) && random == crypto.base64(draw.random)
    && answer.signature == crypto.hmac(localKey, id + ":" + time + ":" + random)
  }

  lemma RandomOfRequest(crypto: Crypto, frame: Frame, localKey: string, p: AuthPayload, plain: seq<byte>,
      doc: AuthDocument)
    requires ParsedLV(frame.payload) == Some(p) && RequestOf(crypto, localKey, p).Some?
    requires crypto.decrypt(localKey, p.iv, p.encryptedData) == Some(plain) && crypto.document(plain) == Some(doc)
    ensures DeviceRandom(crypto, localKey, frame) == FieldOf(doc.authorization, "random")
  {}

  lemma AnswerIsOwnSignature(cfg: Config, crypto: Crypto, id: string, localKey: string, deviceRandom: string,
      draw: Draw)
    requires ',' !in crypto.base64(draw.random)
    ensures IsOwnSignature(crypto, Answer(cfg, crypto, id, localKey, deviceRandom, draw), id, localKey, draw)
  {
    AuthorizationText(draw.nowSec, crypto.base64(draw.random));
    ResponseFields(draw.nowSec, crypto.base64(draw.random));
  }

  /** The answer's payload, opened field by field. */
  lemma FieldsOpen(crypto: Crypto, debase: string -> seq<byte>, id: string, localKey: string, answer: AuthAnswer,
      iv: seq<byte>)
    requires LibrariesAgree(crypto, debase)
    ensures
      var p := AnswerFields(crypto, id, localKey, answer, iv);
      && p.iv == iv
      && crypto.decrypt(localKey, iv, debase(Characters(p.encryptedDevId))) == Some(Octets(id))
      && crypto.decrypt(localKey, iv, p.encryptedData) == Some(crypto.dump(answer))
  {
    CharactersOfOctets(crypto.base64(crypto.encrypt(localKey, iv, Octets(id))));
  }

  lemma AnswerFrameParses(cfg: Config, crypto: Crypto, id: string, localKey: string, deviceRandom: string, draw: Draw)
    ensures
      var f := AuthResponse(cfg, crypto, id, localKey, deviceRandom, draw);
      var p := AnswerFields(crypto, id, localKey, Answer(cfg, crypto, id, localKey, deviceRandom, draw), draw.iv);
      |f.payload| <= 0xFFFF ==> ParseFrame(Encoded(f)) == Some(f) && IsAnswerFrame(f) && IsLV(f.payload, p)
  {
    var p := AnswerFields(crypto, id, localKey, Answer(cfg, crypto, id, localKey, deviceRandom, draw), draw.iv);
    MadeFrameRoundTrip(AUTH_RESP, AES_CBC_128_PKCS7, BuiltLV(p));
  }

  lemma ResponseIsAnswer(cfg: Config, crypto: Crypto, debase: string -> seq<byte>, request: Frame, id: string,
      localKey: string, doc: AuthDocument, draw: Draw)
    requires LibrariesAgree(crypto, debase) && IsRequestDocument(crypto, request, localKey, doc)
    ensures
      var data := Encoded(AuthResponse(cfg, crypto, id, localKey, FieldOf(doc.authorization, "random"), draw));
      |data| <= HEADER_SIZE + 0xFFFF ==> IsAnswer(cfg, crypto, debase, request, data, id, localKey, draw)
  {
    var random := FieldOf(doc.authorization, "random");
    var answer := Answer(cfg, crypto, id, localKey, random, draw);
    AnswerIsOwnSignature(cfg, crypto, id, localKey, random, draw);
    FieldsOpen(crypto, debase, id, localKey, answer, draw.iv);
    AnswerFrameParses(cfg, crypto, id, localKey, random, draw);
  }

  /** An accepted request is answered with exactly one frame, and that is an answer to it under the device's key. */
  lemma AcceptedIsAnswered(cfg: Config, crypto: Crypto, debase: string -> seq<byte>, v: View, sid: Sid, now: int,
      frame: Frame, draw: Draw, id: string, localKey: string) returns (data: seq<byte>)
    requires IsKeyOf(cfg, v.gate.db, id, localKey) && IsSignedUnder(cfg, crypto, v.gate.db, frame, id, localKey)
    requires LibrariesAgree(crypto, debase)
    ensures HandleFrame(cfg, crypto, v, sid, now, frame, draw).gate.trace
      == v.gate.trace + [Posted(sid, Raw(data), None)]
    ensures |data| <= HEADER_SIZE + 0xFFFF ==> IsAnswer(cfg, crypto, debase, frame, data, id, localKey, draw)
  {
    TheKeyDecides(cfg, crypto, v.gate.db, frame, id, localKey);
    TheKeyIsResolved(cfg, v.gate.db, id, localKey);
    var doc := SignedDocument(cfg, crypto, v.gate.db, frame, id, localKey);
    ResponseIsAnswer(cfg, crypto, debase, frame, id, localKey, doc, draw);
    data := Encoded(AuthReply(cfg, crypto, v.gate.db, frame, id, draw));
  }

  lemma SignedDocument(cfg: Config, crypto: Crypto, db: Db, frame: Frame, id: string, localKey: string)
    returns (doc: AuthDocument)
    requires IsSignedUnder(cfg, crypto, db, frame, id, localKey)
    ensures IsRequestDocument(crypto, frame, localKey, doc)
    ensures DeviceRandom(crypto, localKey, frame) == FieldOf(doc.authorization, "random")
  {
    var p, plain, d :|
      && IsLV(frame.payload, p)
      && Get(db, cfg.key(DeviceIndex(Characters(p.encryptedDevId)))) == Some(id)
      && crypto.decrypt(localKey, p.iv, p.encryptedData) == Some(plain)
      && crypto.document(plain) == Some(d)
      && IsSignedDocument(crypto, d, id, localKey);
    ParsedLVIsExact(frame.payload, p);
    SignedIsAccepted(crypto, p, plain, d, id, localKey);
    RandomOfRequest(crypto, frame, localKey, p, plain, d);
    doc := d;
  }

  /** Disconnecting twice is disconnecting once. */
  lemma DisconnectIsIdempotent(cfg: Config, v: View)
    ensures Disconnect(cfg, Disconnect(cfg, v)) == Disconnect(cfg, v)
  {}

  lemma AuthorizationText(nowSec: int, random: string)
    ensures "time=" + ToString(nowSec) + ",random=" + random == ResponseAuthorization(nowSec, random)
  {
    assert "time=" == "time" + "=" && ",random=" == "," + ("random" + "=");
  }

  // ---- the object ----

  /** What a passed authentication established. */
  datatype Proof = Proof(deviceId: string, localKey: string, random: string)

  class DeviceSession {
    const sid: Sid
    const ctx: GatewayContext
    const wakes: WakeManager
    const cfg: Config
    const crypto: Crypto
    var deviceId: string
    var protocol: SessionProtocol
    var closing: bool
    var socketOpen: bool

    constructor (sid: Sid, ctx: GatewayContext, wakes: WakeManager, cfg: Config, crypto: Crypto)
      requires wakes.ctx == ctx && wakes.cfg == cfg && ctx.redis.key == cfg.key
      ensures Wired() && ConnView() == NEW_CONN
      ensures this.sid == sid && this.ctx == ctx && this.wakes == wakes && this.cfg == cfg && this.crypto == crypto
    {
      this.sid, this.ctx, this.wakes, this.cfg, this.crypto := sid, ctx, wakes, cfg, crypto;
      deviceId, protocol, closing, socketOpen := "", UNKNOWN, false, true;
    }

    /** The objects of one gateway belong together. */
    ghost predicate Wired() {
      wakes.ctx == ctx && wakes.cfg == cfg && ctx.redis.key == cfg.key
    }

    ghost function ConnView(): Conn
      reads this
    {
      Conn(deviceId, protocol, closing, socketOpen)
    }

    ghost function State(): View
      reads this, ctx, ctx.redis, wakes
    {
      View(ConnView(), Gateway(ctx.sessions, ctx.states, ctx.redis.db, wakes.pending, ctx.trace))
    }

    method Close()
      modifies `socketOpen
      ensures !socketOpen
    {
      socketOpen := false;
    }

    method EnqueueWrite(buffer: Buffer)
      modifies ctx`trace
      ensures State() == Post(old(State()), sid, buffer)
    {
      ctx.trace := ctx.trace + [Posted(sid, buffer, None)];
    }

    method OnPeek(first: byte)
      modifies `protocol, `socketOpen
      ensures ConnView() == Detected(old(ConnView()), first)
    {
      if first == '{' as int {
        protocol := JSON_LINE;
        return;
      }
      if first == VERSION_1 {
        protocol := LOWPOWER;
        return;
      }
      Close();
    }

    method HandleDisconnect()
      requires Wired()
      modifies this, ctx`sessions, ctx`states, ctx.redis
      ensures State() == Disconnect(cfg, old(State()))
    {
      var wasClosing := closing;
      closing := true;
      if wasClosing {
        return;
      }
      if deviceId != "" {
        ctx.sessions := ctx.sessions - {deviceId};
        if deviceId in ctx.states {
          ctx.states := ctx.states[deviceId := ctx.states[deviceId].(online := false)];
        }
        ctx.redis.SetOffline(deviceId);
      }
      Close();
    }

    method RegisterOnlineState(s: DeviceState, now: int)
      requires Wired()
      modifies ctx`sessions, ctx`states, ctx.redis
      ensures State().gate == WithRegistry(old(State()).gate, Registered(cfg, Registry(old(State()).gate), now, sid, s))
    {
      ctx.sessions := ctx.sessions[s.deviceId := sid];
      ctx.states := ctx.states[s.deviceId := s];
      UpdateRedisOnline(s, now);
    }

    method UpdateRedisOnline(s: DeviceState, now: int)
      requires Wired()
      modifies ctx.redis
      ensures ctx.redis.db == UpdatedRedis(cfg, old(ctx.redis.db), now, s)
    {
      var _ := ctx.redis.SetOnline(s.deviceId, cfg.idleTimeoutSec, now);
    }

    /** The part common to both heartbeats. */
    method Refresh(now: int, battery: Option<int>, dev: Option<string>) returns (s: DeviceState)
      requires Wired()
      modifies ctx`states, ctx.redis
      ensures State() == Beat(cfg, old(State()), now, battery, dev)
      ensures deviceId in ctx.states && s == ctx.states[deviceId]
    {
      s := StateOf(ctx.states, deviceId);
      s := s.(online := true, lastHeartbeat := now);
      if battery.Some? { s := s.(battery := battery.value); }
      if dev.Some? { s := s.(devState := dev.value); }
      ctx.states := ctx.states[deviceId := s];
      UpdateRedisOnline(s, now);
    }

    method HandleJsonMessage(request: Request, now: int)
      requires Wired()
      modifies this, ctx, ctx.redis, wakes
      ensures State() == HandleJson(cfg, old(State()), sid, now, request)
    {
      match request {
        case Malformed => EnqueueWrite(Line(Error("bad_json")));
        case Unknown => EnqueueWrite(Line(Error("unknown_type")));
        case Login(id, dev) => HandleJsonLogin(id, dev, now);
        case Report(battery, dev) => HandleJsonHeartbeat(battery, dev, now);
        case WakeAck(id) =>
          if id != "" { wakes.MarkAck(now, id); }
        case TaskDone(id) =>
          if id != "" { wakes.MarkDone(now, id); }
          EnqueueWrite(Line(TaskDoneAck(id)));
        case HostSleep =>
          ctx.states := ctx.states[deviceId := StateOf(ctx.states, deviceId).(devState := "sleep")];
          EnqueueWrite(Line(HostSleepAck));
        case HostState(dev) =>
          ctx.states := ctx.states[deviceId := StateOf(ctx.states, deviceId).(devState := OrUnknown(dev))];
      }
    }

    method HandleJsonLogin(id: string, dev: Option<string>, now: int)
      requires Wired()
      modifies this, ctx, ctx.redis
      ensures State() == HandleJson(cfg, old(State()), sid, now, Login(id, dev))
    {
      if id == "" {
        EnqueueWrite(Line(LoginAck(1, cfg.heartbeatDefaultSec, cfg.idleTimeoutSec)));
        return;
      }
      deviceId := id;
      RegisterOnlineState(FreshState(id, "json_line", OrUnknown(dev), now), now);
      EnqueueWrite(Line(LoginAck(0, cfg.heartbeatDefaultSec, cfg.idleTimeoutSec)));
    }

    method HandleJsonHeartbeat(battery: Option<int>, dev: Option<string>, now: int)
      requires Wired()
      modifies this, ctx, ctx.redis
      ensures State() == HandleJson(cfg, old(State()), sid, now, Report(battery, dev))
    {
      if deviceId == "" {
        EnqueueWrite(Line(Error("not_logged_in")));
        return;
      }
      var s := Refresh(now, battery, dev);
      var next := cfg.heartbeatDefaultSec;
      if s.battery >= 0 && s.battery < 20 {
        next := 300;
      }
      if s.battery >= 0 && s.battery < 10 {
        next := 600;
      }
      EnqueueWrite(Line(HeartbeatAck(next)));
    }

    method ResolveLocalKey(id: string) returns (localKey: string)
      requires Wired()
      ensures localKey == ResolvedKey(cfg, ctx.redis.db, id)
    {
      var stored := ctx.redis.GetLocalKey(id);
      if stored.Some? {
        return stored.value;
      }
      localKey := cfg.devDefaultSecret;
    }

    method HandleLowPowerFrame(frame: Frame, draw: Draw, now: int)
      requires Wired()
      modifies this, ctx, ctx.redis
      ensures State() == HandleFrame(cfg, crypto, old(State()), sid, now, frame, draw)
    {
      if frame.msgType == AUTH_REQ {
        HandleLowPowerAuthReq(frame, draw, now);
      } else if frame.msgType == HEARTBEAT {
        HandleLowPowerHeartbeat(frame, now);
      }
    }

    /** The checks of an authentication request, in order; nothing changes before the last one passes. */
    method Authenticate(frame: Frame) returns (proof: Option<Proof>)
      requires Wired()
      ensures proof.None? <==> AuthenticatedId(cfg, crypto, ctx.redis.db, frame).None?
      ensures proof.Some? ==>
        && AuthenticatedId(cfg, crypto, ctx.redis.db, frame) == Some(proof.value.deviceId)
        && proof.value.localKey == ResolvedKey(cfg, ctx.redis.db, proof.value.deviceId)
        && proof.value.random == DeviceRandom(crypto, proof.value.localKey, frame)
    {
      var p := ParseAuthPayloadLV(frame.payload);
      if p.None? {
        return None;
      }
      var found := ctx.redis.GetDeviceIdByEncryptedId(Characters(p.value.encryptedDevId));
      if found.None? || found.value == "" {
        return None;
      }
      var localKey := ResolveLocalKey(found.value);
      var plain := crypto.decrypt(localKey, p.value.iv, p.value.encryptedData);
      if plain.None? {
        return None;
      }
      var doc := crypto.document(plain.value);
      if doc.None? {
        return None;
      }
      var time := GetAuthField(doc.value.authorization, "time");
      var random := GetAuthField(doc.value.authorization, "random");
      if doc.value.authorization == "" || doc.value.signature == "" || time == "" || random == "" {
        return None;
      }
      if crypto.hmac(localKey, found.value + ":" + time + ":" + random) != doc.value.signature {
        return None;
      }
      proof := Some(Proof(found.value, localKey, random));
    }

    method BuildAuthResponse(id: string, localKey: string, deviceRandom: string, draw: Draw) returns (frame: Frame)
      ensures frame == AuthResponse(cfg, crypto, id, localKey, deviceRandom, draw)
    {
      var serverRandom := crypto.base64(draw.random);
      var authorization := "time=" + ToString(draw.nowSec) + ",random=" + serverRandom;
      AuthorizationText(draw.nowSec, serverRandom);
      var signature := crypto.hmac(localKey, id + ":" + ToString(draw.nowSec) + ":" + serverRandom);
      var plain := crypto.dump(AuthAnswer(cfg.heartbeatDefaultSec, deviceRandom, authorization, signature));
      var encryptedData := crypto.encrypt(localKey, draw.iv, plain);
      var encryptedId := crypto.base64(crypto.encrypt(localKey, draw.iv, Octets(id)));
      var lv := BuildAuthPayloadLV(draw.iv, Octets(encryptedId), encryptedData);
      frame := MakeFrame(AUTH_RESP, AES_CBC_128_PKCS7, lv);
    }

    method HandleLowPowerAuthReq(frame: Frame, draw: Draw, now: int)
      requires Wired()
      modifies this, ctx, ctx.redis
      ensures State() == HandleAuthReq(cfg, crypto, old(State()), sid, now, frame, draw)
    {
      var proof := Authenticate(frame);
      if proof.None? {
        Close();
        return;
      }
      deviceId := proof.value.deviceId;
      RegisterOnlineState(FreshState(deviceId, "lowpower", "sleep", now), now);
      var response := BuildAuthResponse(deviceId, proof.value.localKey, proof.value.random, draw);
      var raw := EncodeFrame(response);
      EnqueueWrite(Raw(raw));
    }

    method HandleLowPowerHeartbeat(frame: Frame, now: int)
      requires Wired()
      modifies this, ctx, ctx.redis
      ensures State() == HandleHeartbeat(cfg, old(State()), sid, now, frame)
    {
      if deviceId == "" {
        Close();
        return;
      }
      if frame.flag != 0 || frame.size != 0 {
        Close();
        return;
      }
      var _ := Refresh(now, None, Some("sleep"));
      var raw := EncodeFrame(HeartbeatFrame());
      EnqueueWrite(Raw(raw));
    }
  }
}
