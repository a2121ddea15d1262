/** The command dispatcher: pending commands, their timed retries, and the history each command leaves. */
module Dispatcher {
  import opened Bytes
  import opened Codec
  import opened Model
  import opened Redis

  datatype WakeState = WakeState(
    pending: map<string, PendingWake>,
    sessions: map<string, Sid>,
    db: Db,
    trace: seq<Note>
  )

  datatype Outcome = Sent(msgId: string) | Refused(reason: string)

  /** The sessions whose weak references can be locked, with their protocols. */
  type Links = map<Sid, SessionProtocol>

  // ---- the operations as functions ----

  function PendingKey(cfg: Config, p: PendingWake): string {
    cfg.key(PendingWakeKey(p.deviceId, p.msgId))
  }

  function RecordTtlSec(cfg: Config): int {
    TruncatedDiv(cfg.expireMs, 1000)
  }

  ghost function WakeupBytes(localKey: string): seq<byte> {
    Encoded(WakeupFrame(Octets(localKey)))
  }

  /** Enter a command, save its record, send its buffer, announce it. */
  function Entered(cfg: Config, w: WakeState, now: int, p: PendingWake, buffer: Buffer): WakeState {
    w.(pending := w.pending[p.msgId := p],
       db := SetEx(w.db, PendingKey(cfg, p), now, RecordTtlSec(cfg)),
       trace := w.trace + [Posted(p.session, buffer, Some(p.msgId)), Published(now, p.msgId, Dispatched)])
  }

  /** The document of a command, complete with the reading of the clock it was made at. */
  function WakeDocument(cfg: Config, c: Call): Message {
    Wake(c.stamp, MsgId(c.wall), c.cmd, c.params, c.stamp + cfg.expireMs)
  }

  ghost function SendWake(cfg: Config, w: WakeState, now: int, c: Call, links: Links): (WakeState, Outcome) {
    if c.deviceId !in w.sessions then (w, Refused("device offline"))
    else
      var sid := w.sessions[c.deviceId];
      if sid !in links then (w.(sessions := w.sessions - {c.deviceId}), Refused("device session expired"))
      else if links[sid] == LOWPOWER || c.cmd == "lowpower_wakeup" then SendLowPowerWake(cfg, w, now, c, sid)
      else
        var document := WakeDocument(cfg, c);
        var p := PendingWake(c.deviceId, MsgId(c.wall), c.cmd, document, sid, JSON_LINE, 0, now + cfg.ackTimeoutMs);
        (Entered(cfg, w, now, p, Line(document)), Sent(p.msgId))
  }

  ghost function SendLowPowerWake(cfg: Config, w: WakeState, now: int, c: Call, sid: Sid): (WakeState, Outcome) {
    match Get(w.db, cfg.key(LocalKey(c.deviceId)))
    case None => (w, Refused("local_key not found"))
    case Some(localKey) =>
      var id := MsgId(c.wall);
      var p := PendingWake(c.deviceId, id, "lowpower_wakeup", LowPowerWake(id), sid, LOWPOWER, 0,
        now + cfg.ackTimeoutMs);
      (Entered(cfg, w, now, p, Raw(WakeupBytes(localKey))), Sent(p.msgId))
  }

  function MarkedAck(w: WakeState, now: int, msgId: string): WakeState {
    if msgId !in w.pending then w
    else w.(trace := w.trace + [Published(now, msgId, Acked)], pending := w.pending - {msgId})
  }

  function MarkedDone(cfg: Config, w: WakeState, now: int, msgId: string): WakeState {
    if msgId !in w.pending then w
    else
      var record := cfg.key(PendingWakeKey(w.pending[msgId].deviceId, msgId));
      w.(db := w.db - {record}, trace := w.trace + [Published(now, msgId, Done)], pending := w.pending - {msgId})
  }

  datatype Fate = Keep | Fail | Skip | Retry

  /** What one reading of the clock decides for one entry. */
  function FateOf(cfg: Config, p: PendingWake, now: int, links: Links): Fate {
    if now < p.nextRetry then Keep
    else if p.retryCount >= cfg.maxRetry then Fail
    else if p.session !in links then Skip
    else Retry
  }

  function AfterTick(cfg: Config, p: PendingWake, now: int, links: Links): PendingWake {
    if FateOf(cfg, p, now, links) != Retry then p
    else p.(retryCount := p.retryCount + 1, nextRetry := now + cfg.ackTimeoutMs)
  }

  /** What a retry sends, if anything. */
  ghost function RetrySends(cfg: Config, db: Db, p: PendingWake): seq<Note> {
    match p.protocol
    case JSON_LINE => [Posted(p.session, Line(p.payload), Some(p.msgId))]
    case LOWPOWER =>
      (match Get(db, cfg.key(LocalKey(p.deviceId)))
       case None => []
       case Some(localKey) => [Posted(p.session, Raw(WakeupBytes(localKey)), Some(p.msgId))])
    case UNKNOWN => []
  }

  ghost function TickNotes(cfg: Config, db: Db, p: PendingWake, now: int, links: Links): seq<Note> {
    match FateOf(cfg, p, now, links)
    case Keep => []
    case Skip => []
    case Fail => [Published(now, p.msgId, Failed(p.retryCount))]
    case Retry => [Published(now, p.msgId, Retrying(p.retryCount + 1))] + RetrySends(cfg, db, p)
  }

  ghost function NotesInOrder(cfg: Config, w: WakeState, now: int, links: Links, order: seq<string>): seq<Note>
    requires forall id | id in order :: id in w.pending
  {
    if order == [] then []
    else
      var n := |order| - 1;
      NotesInOrder(cfg, w, now, links, order[..n]) + TickNotes(cfg, w.db, w.pending[order[n]], now, links)
  }

  ghost predicate NoRepeats(order: seq<string>) {
    order == [] || (order[|order| - 1] !in order[..|order| - 1] && NoRepeats(order[..|order| - 1]))
  }

  /** Each key once. */
  ghost predicate IsOrder(order: seq<string>, keys: set<string>) {
    NoRepeats(order) && forall id :: id in order <==> id in keys
  }

  /** The map after a tick, entry by entry: no order in sight. */
  function TickedPending(cfg: Config, pending: map<string, PendingWake>, now: int, links: Links)
    : map<string, PendingWake>
  {
    map id | id in pending && !FateOf(cfg, pending[id], now, links).Fail? :: AfterTick(cfg, pending[id], now, links)
  }

  ghost function Ticked(cfg: Config, w: WakeState, now: int, links: Links, order: seq<string>): WakeState
    requires IsOrder(order, w.pending.Keys)
  {
    w.(pending := TickedPending(cfg, w.pending, now, links), trace := w.trace + NotesInOrder(cfg, w, now, links, order))
  }

  // ---- the history of one command ----

  ghost function StatusOf(n: Note, id: string): seq<(int, Status)> {
    if n.Published? && n.msgId == id then [(n.at, n.status)] else []
  }

  ghost function Statuses(trace: seq<Note>, id: string): seq<(int, Status)> {
    if trace == [] then [] else Statuses(trace[..|trace| - 1], id) + StatusOf(trace[|trace| - 1], id)
  }

  function Sends(trace: seq<Note>, id: string, json: bool): nat {
    if trace == [] then 0
    else
      var n := trace[|trace| - 1];
      var own := n.Posted? && n.cause == Some(id) && n.buffer.Line? == json;
      Sends(trace[..|trace| - 1], id, json) + if own then 1 else 0
  }

  lemma {:induction false} TraceConcat(a: seq<Note>, b: seq<Note>, id: string)
    ensures Statuses(a + b, id) == Statuses(a, id) + Statuses(b, id)
    ensures forall json :: Sends(a + b, id, json) == Sends(a, id, json) + Sends(b, id, json)
  {
    if b == [] {
      assert a + b == a;
    } else {
      var n := |b| - 1;
      assert (a + b)[..|a + b| - 1] == a + b[..n];
      TraceConcat(a, b[..n], id);
    }
  }

  function RetryLimit(cfg: Config): nat {
    if cfg.maxRetry > 0 then cfg.maxRetry else 0
  }

  /** dispatched, retrying(1), ..., retrying(k). */
  ghost predicate IsActive(t: seq<(int, Status)>, k: nat) {
    && |t| == k + 1 && t[0].1 == Dispatched
    && forall i | 1 <= i <= k :: t[i].1 == Retrying(i)
  }

  /** An active history and one closing event; failure only after the last permitted retry. */
  ghost predicate IsEnded(cfg: Config, t: seq<(int, Status)>, k: nat) {
    && k <= RetryLimit(cfg) && |t| == k + 2 && IsActive(t[..k + 1], k)
    && (t[k + 1].1 == Acked || t[k + 1].1 == Done || (t[k + 1].1 == Failed(k) && k == RetryLimit(cfg)))
  }

  /** A JSON command is sent once per dispatch and retry, a low-power one at most that often. */
  ghost predicate SendsMatch(trace: seq<Note>, id: string, k: nat) {
    || (Sends(trace, id, true) == k + 1 && Sends(trace, id, false) == 0)
    || (Sends(trace, id, true) == 0 && Sends(trace, id, false) <= k + 1)
  }

  ghost predicate IsPendingHistory(cfg: Config, p: PendingWake, trace: seq<Note>, id: string) {
    && p.msgId == id && 0 <= p.retryCount <= RetryLimit(cfg)
    && IsActive(Statuses(trace, id), p.retryCount)
    && (p.protocol == JSON_LINE || p.protocol == LOWPOWER)
    && (p.protocol == JSON_LINE ==> Sends(trace, id, true) == p.retryCount + 1 && Sends(trace, id, false) == 0)
    && (p.protocol == LOWPOWER ==> Sends(trace, id, true) == 0 && Sends(trace, id, false) <= p.retryCount + 1)
  }

  ghost predicate IsClosedHistory(cfg: Config, trace: seq<Note>, id: string) {
    || IsUntouched(trace, id)
    || exists k :: IsEnded(cfg, Statuses(trace, id), k) && SendsMatch(trace, id, k)
  }

  ghost predicate IsUntouched(trace: seq<Note>, id: string) {
    Statuses(trace, id) == [] && Sends(trace, id, true) == 0 && Sends(trace, id, false) == 0
  }

  /** The history of an id, and the entry it has while it is pending. */
  ghost predicate Coherent(cfg: Config, pending: map<string, PendingWake>, trace: seq<Note>, id: string) {
    if id in pending then IsPendingHistory(cfg, pending[id], trace, id) else IsClosedHistory(cfg, trace, id)
  }

  ghost predicate Lifecycle(cfg: Config, w: WakeState) {
    forall id :: Coherent(cfg, w.pending, w.trace, id)
  }

  // ---- every operation keeps every history ----

  /** Notes that say nothing about an id. */
  ghost predicate Quiet(notes: seq<Note>, id: string) {
    forall i | 0 <= i < |notes| ::
      && !(notes[i].Published? && notes[i].msgId == id)
      && !(notes[i].Posted? && notes[i].cause == Some(id))
  }

  lemma {:induction false} QuietNotes(notes: seq<Note>, id: string)
    requires Quiet(notes, id)
    ensures Statuses(notes, id) == [] && forall json :: Sends(notes, id, json) == 0
  {
    if notes != [] { QuietNotes(notes[..|notes| - 1], id); }
  }

  /** Quiet notes change no history. */
  lemma QuietKeepsHistory(cfg: Config, pending: map<string, PendingWake>, trace: seq<Note>, notes: seq<Note>,
      id: string)
    requires Quiet(notes, id)
    ensures Statuses(trace + notes, id) == Statuses(trace, id)
    ensures forall json :: Sends(trace + notes, id, json) == Sends(trace, id, json)
    ensures Coherent(cfg, pending, trace + notes, id) <==> Coherent(cfg, pending, trace, id)
  {
    TraceConcat(trace, notes, id);
    QuietNotes(notes, id);
  }

  lemma OnePublished(at: int, id: string, status: Status)
    ensures Statuses([Published(at, id, status)], id) == [(at, status)]
    ensures forall json :: Sends([Published(at, id, status)], id, json) == 0
  {
    var n := [Published(at, id, status)];
    assert n[..0] == [];
  }

  lemma OnePosted(sid: Sid, buffer: Buffer, id: string)
    ensures Statuses([Posted(sid, buffer, Some(id))], id) == []
    ensures forall json :: Sends([Posted(sid, buffer, Some(id))], id, json) == if buffer.Line? == json then 1 else 0
  {
    var n := [Posted(sid, buffer, Some(id))];
    assert n[..0] == [];
  }

  lemma DispatchNotes(sid: Sid, buffer: Buffer, now: int, id: string)
    ensures Statuses([Posted(sid, buffer, Some(id)), Published(now, id, Dispatched)], id) == [(now, Dispatched)]
    ensures forall json ::
      var notes := [Posted(sid, buffer, Some(id)), Published(now, id, Dispatched)];
      Sends(notes, id, json) == if buffer.Line? == json then 1 else 0
  {
    var post, publish := [Posted(sid, buffer, Some(id))], [Published(now, id, Dispatched)];
    assert post + publish == [Posted(sid, buffer, Some(id)), Published(now, id, Dispatched)];
    TraceConcat(post, publish, id);
    OnePosted(sid, buffer, id);
    OnePublished(now, id, Dispatched);
  }

  lemma EnteredHistory(cfg: Config, w: WakeState, now: int, p: PendingWake, buffer: Buffer)
    requires IsUntouched(w.trace, p.msgId) && p.retryCount == 0
    requires p.protocol == if buffer.Line? then JSON_LINE else LOWPOWER
    ensures
      var v := Entered(cfg, w, now, p, buffer);
      IsPendingHistory(cfg, p, v.trace, p.msgId) && Statuses(v.trace, p.msgId) == [(now, Dispatched)]
  {
    TraceConcat(w.trace, [Posted(p.session, buffer, Some(p.msgId)), Published(now, p.msgId, Dispatched)], p.msgId);
    DispatchNotes(p.session, buffer, now, p.msgId);
  }

  lemma EnterKeepsLifecycle(cfg: Config, w: WakeState, now: int, p: PendingWake, buffer: Buffer)
    requires Lifecycle(cfg, w)
    requires IsUntouched(w.trace, p.msgId) && p.retryCount == 0
    requires p.protocol == if buffer.Line? then JSON_LINE else LOWPOWER
    ensures Lifecycle(cfg, Entered(cfg, w, now, p, buffer))
  {
    var v := Entered(cfg, w, now, p, buffer);
    EnteredHistory(cfg, w, now, p, buffer);
    forall id | id != p.msgId
      ensures Coherent(cfg, v.pending, v.trace, id)
    {
      assert Coherent(cfg, w.pending, w.trace, id);
      var notes := [Posted(p.session, buffer, Some(p.msgId)), Published(now, p.msgId, Dispatched)];
      QuietKeepsHistory(cfg, w.pending, w.trace, notes, id);
    }
  }

  /** A closing event ends an active history. */
  lemma ClosedByEvent(cfg: Config, p: PendingWake, trace: seq<Note>, now: int, id: string, status: Status)
    requires IsPendingHistory(cfg, p, trace, id)
    requires status == Acked || status == Done || (status == Failed(p.retryCount) && p.retryCount == RetryLimit(cfg))
    ensures IsClosedHistory(cfg, trace + [Published(now, id, status)], id)
    ensures Statuses(trace + [Published(now, id, status)], id) == Statuses(trace, id) + [(now, status)]
  {
    var t := Statuses(trace, id);
    TraceConcat(trace, [Published(now, id, status)], id);
    OnePublished(now, id, status);
    assert (t + [(now, status)])[..p.retryCount + 1] == t;
    assert IsEnded(cfg, t + [(now, status)], p.retryCount);
  }

  lemma CloseKeepsLifecycle(cfg: Config, w: WakeState, v: WakeState, now: int, msgId: string, status: Status)
    requires Lifecycle(cfg, w) && msgId in w.pending && (status == Acked || status == Done)
    requires v.pending == w.pending - {msgId} && v.trace == w.trace + [Published(now, msgId, status)]
    ensures Lifecycle(cfg, v)
  {
    forall id
      ensures Coherent(cfg, v.pending, v.trace, id)
    {
      assert Coherent(cfg, w.pending, w.trace, id);
      if id == msgId {
        ClosedByEvent(cfg, w.pending[id], w.trace, now, id, status);
      } else {
        QuietKeepsHistory(cfg, w.pending, w.trace, [Published(now, msgId, status)], id);
      }
    }
  }

  /** An acknowledgement, and a completion, keep every history. */
  lemma MarksKeepLifecycle(cfg: Config, w: WakeState, now: int, msgId: string)
    requires Lifecycle(cfg, w)
    ensures Lifecycle(cfg, MarkedAck(w, now, msgId)) && Lifecycle(cfg, MarkedDone(cfg, w, now, msgId))
  {
    if msgId in w.pending {
      CloseKeepsLifecycle(cfg, w, MarkedAck(w, now, msgId), now, msgId, Acked);
      CloseKeepsLifecycle(cfg, w, MarkedDone(cfg, w, now, msgId), now, msgId, Done);
    }
  }

  // ---- a tick, entry by entry ----

  ghost predicate KeysMatch(pending: map<string, PendingWake>) {
    forall id | id in pending :: pending[id].msgId == id
  }

  lemma TickNotesAreOwn(cfg: Config, db: Db, p: PendingWake, now: int, links: Links, id: string)
    requires p.msgId != id
    ensures Quiet(TickNotes(cfg, db, p, now, links), id)
  {}

  /** The part of a tick's notes that concerns an id: what its own entry leaves. */
  ghost function OwnNotes(cfg: Config, w: WakeState, now: int, links: Links, id: string): seq<Note> {
    if id in w.pending then TickNotes(cfg, w.db, w.pending[id], now, links) else []
  }

  lemma {:induction false} NotesElsewhere(cfg: Config, w: WakeState, now: int, links: Links, order: seq<string>,
      id: string)
    requires KeysMatch(w.pending) && id !in order
    requires forall k | k in order :: k in w.pending
    ensures Quiet(NotesInOrder(cfg, w, now, links, order), id)
  {
    if order != [] {
      var n := |order| - 1;
      NotesElsewhere(cfg, w, now, links, order[..n], id);
      TickNotesAreOwn(cfg, w.db, w.pending[order[n]], now, links, id);
    }
  }

  ghost predicate SameShare(a: seq<Note>, b: seq<Note>, id: string) {
    Statuses(a, id) == Statuses(b, id) && forall json :: Sends(a, id, json) == Sends(b, id, json)
  }

  lemma QuietAround(a: seq<Note>, b: seq<Note>, id: string)
    ensures Quiet(a, id) ==> SameShare(a + b, b, id)
    ensures Quiet(b, id) ==> SameShare(a + b, a, id)
  {
    TraceConcat(a, b, id);
    if Quiet(a, id) { QuietNotes(a, id); }
    if Quiet(b, id) { QuietNotes(b, id); }
  }

  /** Whatever the order, an id's share of the tick's notes is what its own entry leaves. */
  lemma {:induction false} NotesOfOne(cfg: Config, w: WakeState, now: int, links: Links, order: seq<string>, id: string)
    requires NoRepeats(order) && KeysMatch(w.pending) && id in order
    requires forall k | k in order :: k in w.pending
    ensures SameShare(NotesInOrder(cfg, w, now, links, order), OwnNotes(cfg, w, now, links, id), id)
  {
    var n := |order| - 1;
    var k, prefix := order[n], order[..n];
    var last := TickNotes(cfg, w.db, w.pending[k], now, links);
    QuietAround(NotesInOrder(cfg, w, now, links, prefix), last, id);
    if k == id {
      NotesElsewhere(cfg, w, now, links, prefix, id);
    } else {
      TickNotesAreOwn(cfg, w.db, w.pending[k], now, links, id);
      NotesOfOne(cfg, w, now, links, prefix, id);
    }
  }

  lemma TickedStatuses(cfg: Config, w: WakeState, now: int, links: Links, order: seq<string>, id: string)
    requires IsOrder(order, w.pending.Keys) && KeysMatch(w.pending)
    ensures
      var v := Ticked(cfg, w, now, links, order);
      var own := OwnNotes(cfg, w, now, links, id);
      && Statuses(v.trace, id) == Statuses(w.trace, id) + Statuses(own, id)
      && forall json :: Sends(v.trace, id, json) == Sends(w.trace, id, json) + Sends(own, id, json)
  {
    TraceConcat(w.trace, NotesInOrder(cfg, w, now, links, order), id);
    if id in w.pending {
      NotesOfOne(cfg, w, now, links, order, id);
    } else {
      NotesElsewhere(cfg, w, now, links, order, id);
      QuietNotes(NotesInOrder(cfg, w, now, links, order), id);
    }
  }

  /** What one entry's share of a tick says about it. */
  lemma OwnTickNotes(cfg: Config, db: Db, p: PendingWake, now: int, links: Links)
    ensures
      var notes, fate := TickNotes(cfg, db, p, now, links), FateOf(cfg, p, now, links);
      && (fate.Keep? || fate.Skip? ==> notes == [])
      && (fate.Fail? ==> Statuses(notes, p.msgId) == [(now, Failed(p.retryCount))])
      && (fate.Fail? ==> forall json :: Sends(notes, p.msgId, json) == 0)
      && (fate.Retry? ==> Statuses(notes, p.msgId) == [(now, Retrying(p.retryCount + 1))])
      && (fate.Retry? ==> forall json :: Sends(notes, p.msgId, json) == Sends(RetrySends(cfg, db, p), p.msgId, json))
  {
    var id := p.msgId;
    OnePublished(now, id, Failed(p.retryCount));
    OnePublished(now, id, Retrying(p.retryCount + 1));
    TraceConcat([Published(now, id, Retrying(p.retryCount + 1))], RetrySends(cfg, db, p), id);
    RetrySendsAtMostOne(cfg, db, p);
  }

  lemma RetrySendsAtMostOne(cfg: Config, db: Db, p: PendingWake)
    ensures Statuses(RetrySends(cfg, db, p), p.msgId) == []
    ensures Sends(RetrySends(cfg, db, p), p.msgId, true) == if p.protocol == JSON_LINE then 1 else 0
    ensures Sends(RetrySends(cfg, db, p), p.msgId, false) <= if p.protocol == LOWPOWER then 1 else 0
  {
    var sends := RetrySends(cfg, db, p);
    if sends != [] {
      assert sends == [Posted(p.session, sends[0].buffer, Some(p.msgId))];
      OnePosted(p.session, sends[0].buffer, p.msgId);
    }
  }

  ghost predicate SameHistory(trace: seq<Note>, trace': seq<Note>, id: string) {
    && Statuses(trace', id) == Statuses(trace, id)
    && Sends(trace', id, true) == Sends(trace, id, true)
    && Sends(trace', id, false) == Sends(trace, id, false)
  }

  lemma SameHistoryIsCoherent(cfg: Config, pending: map<string, PendingWake>, pending': map<string, PendingWake>,
      trace: seq<Note>, trace': seq<Note>, id: string)
    requires Coherent(cfg, pending, trace, id) && SameHistory(trace, trace', id)
    requires id in pending <==> id in pending'
    requires id in pending ==> pending'[id] == pending[id]
    ensures Coherent(cfg, pending', trace', id)
  {}

  lemma RetriedHistory(cfg: Config, p: PendingWake, p': PendingWake, trace: seq<Note>, trace': seq<Note>, now: int,
      id: string)
    requires IsPendingHistory(cfg, p, trace, id) && p.retryCount < RetryLimit(cfg)
    requires p' == p.(retryCount := p.retryCount + 1, nextRetry := p'.nextRetry)
    requires Statuses(trace', id) == Statuses(trace, id) + [(now, Retrying(p.retryCount + 1))]
    requires Sends(trace', id, true) == Sends(trace, id, true) + if p.protocol == JSON_LINE then 1 else 0
    requires Sends(trace', id, false) <= Sends(trace, id, false) + if p.protocol == LOWPOWER then 1 else 0
    ensures IsPendingHistory(cfg, p', trace', id)
  {}

  lemma FailedHistory(cfg: Config, p: PendingWake, trace: seq<Note>, trace': seq<Note>, now: int, id: string)
    requires IsPendingHistory(cfg, p, trace, id) && p.retryCount == RetryLimit(cfg)
    requires Statuses(trace', id) == Statuses(trace, id) + [(now, Failed(p.retryCount))]
    requires Sends(trace', id, true) == Sends(trace, id, true) && Sends(trace', id, false) == Sends(trace, id, false)
    ensures IsClosedHistory(cfg, trace', id)
  {
    var t, k := Statuses(trace, id), p.retryCount;
    assert (t + [(now, Failed(k))])[..k + 1] == t;
    assert IsEnded(cfg, Statuses(trace', id), k) && SendsMatch(trace', id, k);
  }

  /** An id that is not pending, or is left alone, keeps its history through a tick. */
  lemma QuietTick(cfg: Config, w: WakeState, now: int, links: Links, order: seq<string>, id: string)
    requires IsOrder(order, w.pending.Keys) && KeysMatch(w.pending) && Coherent(cfg, w.pending, w.trace, id)
    requires id in w.pending ==> FateOf(cfg, w.pending[id], now, links) in {Keep, Skip}
    ensures Coherent(cfg, Ticked(cfg, w, now, links, order).pending, Ticked(cfg, w, now, links, order).trace, id)
  {
    var v := Ticked(cfg, w, now, links, order);
    TickedStatuses(cfg, w, now, links, order, id);
    assert OwnNotes(cfg, w, now, links, id) == [];
    assert Statuses(w.trace, id) + [] == Statuses(w.trace, id);
    SameHistoryIsCoherent(cfg, w.pending, v.pending, w.trace, v.trace, id);
  }

  lemma RetryTick(cfg: Config, w: WakeState, now: int, links: Links, order: seq<string>, id: string)
    requires IsOrder(order, w.pending.Keys) && KeysMatch(w.pending) && Coherent(cfg, w.pending, w.trace, id)
    requires id in w.pending && FateOf(cfg, w.pending[id], now, links).Retry?
    ensures Coherent(cfg, Ticked(cfg, w, now, links, order).pending, Ticked(cfg, w, now, links, order).trace, id)
  {
    var p, v := w.pending[id], Ticked(cfg, w, now, links, order);
    TickedStatuses(cfg, w, now, links, order, id);
    OwnTickNotes(cfg, w.db, p, now, links);
    RetrySendsAtMostOne(cfg, w.db, p);
    RetriedHistory(cfg, p, v.pending[id], w.trace, v.trace, now, id);
  }

  lemma FailTick(cfg: Config, w: WakeState, now: int, links: Links, order: seq<string>, id: string)
    requires IsOrder(order, w.pending.Keys) && KeysMatch(w.pending) && Coherent(cfg, w.pending, w.trace, id)
    requires id in w.pending && FateOf(cfg, w.pending[id], now, links).Fail?
    ensures Coherent(cfg, Ticked(cfg, w, now, links, order).pending, Ticked(cfg, w, now, links, order).trace, id)
  {
    var p, v := w.pending[id], Ticked(cfg, w, now, links, order);
    TickedStatuses(cfg, w, now, links, order, id);
    OwnTickNotes(cfg, w.db, p, now, links);
    FailedHistory(cfg, p, w.trace, v.trace, now, id);
  }

  /** A tick keeps every history, in any order of iteration. */
  lemma TickKeepsLifecycle(cfg: Config, w: WakeState, now: int, links: Links, order: seq<string>)
    requires IsOrder(order, w.pending.Keys) && Lifecycle(cfg, w)
    ensures Lifecycle(cfg, Ticked(cfg, w, now, links, order))
  {
    assert KeysMatch(w.pending) by {
      forall id | id in w.pending
        ensures w.pending[id].msgId == id
      {
        assert Coherent(cfg, w.pending, w.trace, id);
      }
    }
    forall id
      ensures Coherent(cfg, Ticked(cfg, w, now, links, order).pending, Ticked(cfg, w, now, links, order).trace, id)
    {
      assert Coherent(cfg, w.pending, w.trace, id);
      if id in w.pending && FateOf(cfg, w.pending[id], now, links).Retry? {
        RetryTick(cfg, w, now, links, order, id);
      } else if id in w.pending && FateOf(cfg, w.pending[id], now, links).Fail? {
        FailTick(cfg, w, now, links, order, id);
      } else {
        QuietTick(cfg, w, now, links, order, id);
      }
    }
  }

  // ---- what a dispatch enters ----

  ghost predicate IsDispatch(cfg: Config, w: WakeState, now: int, c: Call, links: Links, p: PendingWake,
      buffer: Buffer)
  {
    && c.deviceId in w.sessions && p.session == w.sessions[c.deviceId] && p.session in links
    && p.deviceId == c.deviceId && p.msgId == MsgId(c.wall)
    && p.retryCount == 0 && p.nextRetry == now + cfg.ackTimeoutMs
    && p.protocol == (if buffer.Line? then JSON_LINE else LOWPOWER)
    && (buffer.Line? <==> links[p.session] != LOWPOWER && c.cmd != "lowpower_wakeup")
    && (buffer.Line? ==> p.payload == buffer.message == WakeDocument(cfg, c))
    && (buffer.Raw? ==>
          var localKey := Get(w.db, cfg.key(LocalKey(c.deviceId)));
          localKey.Some? && buffer.data == WakeupBytes(localKey.value))
  }

  /** What a caller can check beforehand: the device is registered, its session can be locked, and unless the command
      goes as a line, a local key is stored. */
  predicate CanSend(cfg: Config, w: WakeState, c: Call, links: Links) {
    && c.deviceId in w.sessions && w.sessions[c.deviceId] in links
    && ((links[w.sessions[c.deviceId]] != LOWPOWER && c.cmd != "lowpower_wakeup")
        || Get(w.db, cfg.key(LocalKey(c.deviceId))).Some?)
  }

  /** Exactly a command that can be sent is, and is entered for the registered session, as a line only where the
      session is not low-power; a refused one changes at most the registration. */
  lemma SendShape(cfg: Config, w: WakeState, now: int, c: Call, links: Links) returns (p: PendingWake, buffer: Buffer)
    ensures
      var (v, r) := SendWake(cfg, w, now, c, links);
      && (r.Sent? <==> CanSend(cfg, w, c, links))
      && (r.Sent? ==> IsDispatch(cfg, w, now, c, links, p, buffer) && v == Entered(cfg, w, now, p, buffer))
      && (r.Refused? ==> v == w || v == w.(sessions := w.sessions - {c.deviceId}))
  {
    var document := WakeDocument(cfg, c);
    p := PendingWake(c.deviceId, MsgId(c.wall), c.cmd, document, 0, JSON_LINE, 0, now + cfg.ackTimeoutMs);
    buffer := Line(document);
    if c.deviceId in w.sessions {
      p := p.(session := w.sessions[c.deviceId]);
      var localKey := Get(w.db, cfg.key(LocalKey(c.deviceId)));
      if p.session in links && (links[p.session] == LOWPOWER || c.cmd == "lowpower_wakeup") && localKey.Some? {
        p := p.(cmd := "lowpower_wakeup", payload := LowPowerWake(p.msgId), protocol := LOWPOWER);
        buffer := Raw(WakeupBytes(localKey.value));
      }
    }
  }

  /** A dispatched command keeps every history exactly when its id has none yet; a refusal changes none. */
  lemma SendKeepsLifecycle(cfg: Config, w: WakeState, now: int, c: Call, links: Links)
    requires Lifecycle(cfg, w)
    ensures
      var (v, r) := SendWake(cfg, w, now, c, links);
      Lifecycle(cfg, v) <==> r.Refused? || IsUntouched(w.trace, MsgId(c.wall))
  {
    var (v, r) := SendWake(cfg, w, now, c, links);
    var p, buffer := SendShape(cfg, w, now, c, links);
    if r.Refused? {
      forall id
        ensures Coherent(cfg, v.pending, v.trace, id)
      {
        assert Coherent(cfg, w.pending, w.trace, id);
      }
    } else if IsUntouched(w.trace, p.msgId) {
      EnterKeepsLifecycle(cfg, w, now, p, buffer);
    } else {
      SecondDispatch(cfg, w, now, p, buffer);
    }
  }

  /** Two commands of one millisecond share an id, and their history is that of neither. */
  lemma SecondDispatch(cfg: Config, w: WakeState, now: int, p: PendingWake, buffer: Buffer)
    requires Coherent(cfg, w.pending, w.trace, p.msgId) && !IsUntouched(w.trace, p.msgId) && p.retryCount == 0
    ensures !Coherent(cfg, Entered(cfg, w, now, p, buffer).pending, Entered(cfg, w, now, p, buffer).trace, p.msgId)
  {
    assert Statuses(w.trace, p.msgId) != [];
    var notes := [Posted(p.session, buffer, Some(p.msgId)), Published(now, p.msgId, Dispatched)];
    TraceConcat(w.trace, notes, p.msgId);
    DispatchNotes(p.session, buffer, now, p.msgId);
  }
}
