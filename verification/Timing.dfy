/** When commands are retried and given up, and how long their stored records last. */
module Timing {
  import opened Bytes
  import opened Model
  import opened Redis
  import opened Dispatcher

  /** Retries and failures follow the previous event by the acknowledgement timeout and at most one tick gap. */
  ghost predicate Spaced(cfg: Config, gap: int, t: seq<(int, Status)>) {
    forall i | 1 <= i < |t| && (t[i].1.Retrying? || t[i].1.Failed?) :: Follows(cfg, gap, t[i - 1].0, t[i].0)
  }

  predicate Follows(cfg: Config, gap: int, earlier: int, later: int) {
    && earlier + cfg.ackTimeoutMs <= later <= earlier + cfg.ackTimeoutMs + gap
    && (cfg.ackTimeoutMs > 0 ==> later < earlier + cfg.ackTimeoutMs + gap)
  }

  /** The clock, the last tick and the entry of an id agree with its history. */
  ghost predicate Clocked(cfg: Config, gap: int, w: WakeState, id: string, lastTick: int, now: int) {
    && lastTick <= now <= lastTick + gap
    && Spaced(cfg, gap, Statuses(w.trace, id))
    && (id in w.pending ==> EntryClocked(cfg, w.pending[id], Statuses(w.trace, id), lastTick, now))
  }

  ghost predicate EntryClocked(cfg: Config, p: PendingWake, t: seq<(int, Status)>, lastTick: int, now: int) {
    && t != [] && t[|t| - 1].0 <= now
    && p.nextRetry == t[|t| - 1].0 + cfg.ackTimeoutMs
    && lastTick <= p.nextRetry && (cfg.ackTimeoutMs > 0 ==> lastTick < p.nextRetry)
  }

  /** When the entry of an id is due and may be retried, its session can be locked. */
  ghost predicate Serviced(cfg: Config, w: WakeState, id: string, now: int, links: Links) {
    id in w.pending ==> !FateOf(cfg, w.pending[id], now, links).Skip?
  }

  lemma SpacedSnoc(cfg: Config, gap: int, t: seq<(int, Status)>, e: (int, Status))
    requires Spaced(cfg, gap, t)
    requires t != [] && (e.1.Retrying? || e.1.Failed?) ==> Follows(cfg, gap, t[|t| - 1].0, e.0)
    ensures Spaced(cfg, gap, t + [e])
  {}

  lemma EnterIsClocked(cfg: Config, gap: int, w: WakeState, now: int, p: PendingWake, buffer: Buffer, lastTick: int)
    requires cfg.ackTimeoutMs >= 0 && lastTick <= now <= lastTick + gap
    requires IsUntouched(w.trace, p.msgId) && p.retryCount == 0 && p.nextRetry == now + cfg.ackTimeoutMs
    requires p.protocol == if buffer.Line? then JSON_LINE else LOWPOWER
    ensures Clocked(cfg, gap, Entered(cfg, w, now, p, buffer), p.msgId, lastTick, now)
  {
    EnteredHistory(cfg, w, now, p, buffer);
  }

  /** A step that leaves an id's entry and history alone keeps its clock. */
  lemma QuietKeepsClocked(cfg: Config, gap: int, w: WakeState, v: WakeState, id: string, lastTick: int, now: int,
      later: int)
    requires Clocked(cfg, gap, w, id, lastTick, now) && now <= later <= lastTick + gap
    requires Statuses(v.trace, id) == Statuses(w.trace, id)
    requires id in v.pending ==> id in w.pending && v.pending[id] == w.pending[id]
    ensures Clocked(cfg, gap, v, id, lastTick, later)
  {}

  lemma MarkKeepsClocked(cfg: Config, gap: int, w: WakeState, v: WakeState, id: string, lastTick: int, now: int,
      status: Status)
    requires Clocked(cfg, gap, w, id, lastTick, now) && (status == Acked || status == Done)
    requires v.trace == w.trace + [Published(now, id, status)] && id !in v.pending
    ensures Clocked(cfg, gap, v, id, lastTick, now)
  {
    TraceConcat(w.trace, [Published(now, id, status)], id);
    OnePublished(now, id, status);
    SpacedSnoc(cfg, gap, Statuses(w.trace, id), (now, status));
  }

  /** A tick that comes no later than one gap after the last one keeps the clock of a serviced id. */
  lemma TickKeepsClocked(cfg: Config, gap: int, w: WakeState, now: int, links: Links, order: seq<string>, id: string,
      lastTick: int)
    requires Clocked(cfg, gap, w, id, lastTick, now) && cfg.ackTimeoutMs >= 0
    requires IsOrder(order, w.pending.Keys) && KeysMatch(w.pending) && Serviced(cfg, w, id, now, links)
    ensures Clocked(cfg, gap, Ticked(cfg, w, now, links, order), id, now, now)
  {
    var v := Ticked(cfg, w, now, links, order);
    var t := Statuses(w.trace, id);
    TickedStatuses(cfg, w, now, links, order, id);
    if id in w.pending {
      var p := w.pending[id];
      OwnTickNotes(cfg, w.db, p, now, links);
      match FateOf(cfg, p, now, links) {
        case Keep =>
          assert t + [] == t;
        case Skip =>
        case Fail =>
          SpacedSnoc(cfg, gap, t, (now, Failed(p.retryCount)));
        case Retry =>
          SpacedSnoc(cfg, gap, t, (now, Retrying(p.retryCount + 1)));
      }
    } else {
      assert t + [] == t;
    }
  }

  // ---- the failure window ----

  /** The longest time between two events of a command, in whole milliseconds: a tick that comes just before the entry
      is due, and the next one a gap later. */
  function Stretch(cfg: Config, gap: int): int {
    if cfg.ackTimeoutMs == 0 then gap else cfg.ackTimeoutMs + gap - 1
  }

  lemma {:induction false} ActiveSpan(cfg: Config, gap: int, t: seq<(int, Status)>, k: nat)
    requires IsActive(t, k) && Spaced(cfg, gap, t) && cfg.ackTimeoutMs >= 0
    ensures k * cfg.ackTimeoutMs <= t[k].0 - t[0].0 <= k * Stretch(cfg, gap)
  {
    if k > 0 {
      var u := t[..k];
      assert IsActive(u, k - 1) && Spaced(cfg, gap, u);
      ActiveSpan(cfg, gap, u, k - 1);
      assert t[k].1 == Retrying(k);
      assert Follows(cfg, gap, t[k - 1].0, t[k].0);
      assert k * cfg.ackTimeoutMs == (k - 1) * cfg.ackTimeoutMs + cfg.ackTimeoutMs;
      assert k * Stretch(cfg, gap) == (k - 1) * Stretch(cfg, gap) + Stretch(cfg, gap);
    }
  }

  /** The time by which a command dispatched at t has ended. */
  function Deadline(cfg: Config, gap: int, t: int): int {
    t + (RetryLimit(cfg) + 1) * Stretch(cfg, gap)
  }

  /** That is (m+1) timeouts, each stretched by a gap; less, unless the timeout is zero. */
  lemma DeadlineMeaning(cfg: Config, gap: int, t: int)
    requires cfg.ackTimeoutMs >= 0
    ensures
      var limit := t + (RetryLimit(cfg) + 1) * (cfg.ackTimeoutMs + gap);
      Deadline(cfg, gap, t) <= limit && (Deadline(cfg, gap, t) < limit <==> cfg.ackTimeoutMs > 0)
  {
    var m, x := RetryLimit(cfg), cfg.ackTimeoutMs + gap;
    assert (m + 1) * (x - 1) == (m + 1) * x - (m + 1);
  }

  /** Failed after exactly the permitted retries, each an acknowledgement timeout or more after the event before it,
      not before (m+1) timeouts, and by the deadline. */
  ghost predicate FailsInWindow(cfg: Config, gap: int, t: seq<(int, Status)>) {
    var m := RetryLimit(cfg);
    && |t| == m + 2
    && t[0].0 + (m + 1) * cfg.ackTimeoutMs <= t[m + 1].0 <= Deadline(cfg, gap, t[0].0)
    && forall i | 1 <= i <= m :: t[i].1 == Retrying(i) && t[i].0 - t[i - 1].0 >= cfg.ackTimeoutMs
  }

  lemma FailureWindow(cfg: Config, gap: int, t: seq<(int, Status)>, k: nat)
    requires IsEnded(cfg, t, k) && Spaced(cfg, gap, t) && t[k + 1].1.Failed? && cfg.ackTimeoutMs >= 0
    ensures k == RetryLimit(cfg) && FailsInWindow(cfg, gap, t)
  {
    var u := t[..k + 1];
    assert Spaced(cfg, gap, u);
    ActiveSpan(cfg, gap, u, k);
    assert Follows(cfg, gap, t[k].0, t[k + 1].0);
    assert (k + 1) * cfg.ackTimeoutMs == k * cfg.ackTimeoutMs + cfg.ackTimeoutMs;
    assert (k + 1) * Stretch(cfg, gap) == k * Stretch(cfg, gap) + Stretch(cfg, gap);
    forall i | 1 <= i <= k
      ensures t[i].1 == Retrying(i) && t[i].0 - t[i - 1].0 >= cfg.ackTimeoutMs
    {
      assert u[i] == t[i];
      assert Follows(cfg, gap, t[i - 1].0, t[i].0);
    }
  }

  lemma MulMonotone(a: nat, b: nat, x: int)
    requires a <= b && x >= 0
    ensures a * x <= b * x
  {
    assert (b - a) * x >= 0;
    assert b * x == a * x + (b - a) * x;
  }

  lemma SpanWithin(span: int, k: nat, m: nat, x: int)
    requires k <= m && x >= 0 && span <= k * x
    ensures span + x <= (m + 1) * x
  {
    MulMonotone(k + 1, m + 1, x);
    assert (k + 1) * x == k * x + x;
  }

  /** No entry stays pending past the deadline: a serviced command has ended by then. */
  lemma PendingWithinWindow(cfg: Config, gap: int, w: WakeState, id: string, lastTick: int, now: int)
    requires Clocked(cfg, gap, w, id, lastTick, now) && cfg.ackTimeoutMs >= 0 && gap >= 0
    requires id in w.pending && IsPendingHistory(cfg, w.pending[id], w.trace, id)
    ensures now <= Deadline(cfg, gap, Statuses(w.trace, id)[0].0)
  {
    var t, k := Statuses(w.trace, id), w.pending[id].retryCount;
    assert EntryClocked(cfg, w.pending[id], t, lastTick, now) && IsActive(t, k);
    ActiveSpan(cfg, gap, t, k);
    SpanWithin(t[k].0 - t[0].0, k, RetryLimit(cfg), Stretch(cfg, gap));
  }

  // ---- the stored record of a pending command ----

  /** No two pending commands share a record. */
  ghost predicate RecordsApart(cfg: Config, pending: map<string, PendingWake>) {
    forall i, j | i in pending && j in pending && i != j :: PendingKey(cfg, pending[i]) != PendingKey(cfg, pending[j])
  }

  /** The record of a pending command lapses a fixed time after its dispatch. */
  ghost predicate Recorded(cfg: Config, w: WakeState, id: string) {
    id in w.pending && RecordTtlSec(cfg) > 0 && Statuses(w.trace, id) != [] ==>
      && PendingKey(cfg, w.pending[id]) in w.db
      && w.db[PendingKey(cfg, w.pending[id])] == Timed(Statuses(w.trace, id)[0].0 + 1000 * RecordTtlSec(cfg))
  }

  /** The whole seconds of the expiry are longer than any command can stay pending. */
  ghost predicate WindowFits(cfg: Config, gap: int) {
    Deadline(cfg, gap, 0) < cfg.expireMs - cfg.expireMs % 1000
  }

  lemma WholeSeconds(cfg: Config)
    ensures cfg.expireMs >= 0 ==> 1000 * RecordTtlSec(cfg) == cfg.expireMs - cfg.expireMs % 1000
    ensures cfg.expireMs < 0 ==> RecordTtlSec(cfg) <= 0
  {
    if cfg.expireMs >= 0 { TruncatedDivMeaning(cfg.expireMs, 1000); }
  }

  /** Which holds when (m+1) timeouts, each stretched by a gap, fit the time to live, if the timeout is positive. */
  lemma StretchedTimeoutsFit(cfg: Config, gap: int)
    requires cfg.ackTimeoutMs >= 0
    requires var span := (RetryLimit(cfg) + 1) * (cfg.ackTimeoutMs + gap);
      var live := cfg.expireMs - cfg.expireMs % 1000;
      span < live || (cfg.ackTimeoutMs > 0 && span == live)
    ensures WindowFits(cfg, gap)
  {
    DeadlineMeaning(cfg, gap, 0);
  }

  /** Then the record outlives the command. */
  lemma PendingIsRecorded(cfg: Config, gap: int, w: WakeState, id: string, lastTick: int, now: int)
    requires Clocked(cfg, gap, w, id, lastTick, now) && cfg.ackTimeoutMs >= 0 && gap >= 0
    requires id in w.pending && IsPendingHistory(cfg, w.pending[id], w.trace, id) && Recorded(cfg, w, id)
    requires WindowFits(cfg, gap)
    ensures Live(w.db, PendingKey(cfg, w.pending[id]), now)
  {
    PendingWithinWindow(cfg, gap, w, id, lastTick, now);
    WholeSeconds(cfg);
    MulMonotone(0, RetryLimit(cfg) + 1, Stretch(cfg, gap));
  }

  /** Completion removes the record of its command, and no record or value of any other plain name. */
  lemma DoneRemovesOneRecord(cfg: Config, w: WakeState, now: int, msgId: string, other: KeyName)
    requires Distinguishes(cfg.key) && msgId in w.pending && PlainName(other)
    requires PlainName(PendingWakeKey(w.pending[msgId].deviceId, msgId))
    ensures
      var v, own := MarkedDone(cfg, w, now, msgId), PendingWakeKey(w.pending[msgId].deviceId, msgId);
      && cfg.key(own) !in v.db
      && (other != own ==>
            && (cfg.key(other) in v.db <==> cfg.key(other) in w.db)
            && (cfg.key(other) in v.db ==> v.db[cfg.key(other)] == w.db[cfg.key(other)]))
  {}

  /** A step that says nothing about a command, and leaves its entry and its record alone. */
  lemma ElsewhereKeepsRecorded(cfg: Config, w: WakeState, v: WakeState, notes: seq<Note>, id: string)
    requires Recorded(cfg, w, id) && Quiet(notes, id) && v.trace == w.trace + notes
    requires id in v.pending ==> id in w.pending && v.pending[id] == w.pending[id]
    requires id in v.pending ==>
      var key := PendingKey(cfg, v.pending[id]);
      (key in v.db <==> key in w.db) && (key in v.db ==> v.db[key] == w.db[key])
    ensures Recorded(cfg, v, id)
  {
    QuietKeepsHistory(cfg, w.pending, w.trace, notes, id);
  }

  lemma EnterKeepsRecorded(cfg: Config, w: WakeState, now: int, p: PendingWake, buffer: Buffer, id: string)
    requires RecordsApart(cfg, w.pending[p.msgId := p]) && Recorded(cfg, w, id)
    requires IsUntouched(w.trace, p.msgId) && p.retryCount == 0
    requires p.protocol == if buffer.Line? then JSON_LINE else LOWPOWER
    ensures Recorded(cfg, Entered(cfg, w, now, p, buffer), id)
  {
    if id == p.msgId {
      EnteredHistory(cfg, w, now, p, buffer);
    } else {
      var notes := [Posted(p.session, buffer, Some(p.msgId)), Published(now, p.msgId, Dispatched)];
      var pending := w.pending[p.msgId := p];
      assert id in w.pending ==> PendingKey(cfg, pending[id]) != PendingKey(cfg, pending[p.msgId]);
      ElsewhereKeepsRecorded(cfg, w, Entered(cfg, w, now, p, buffer), notes, id);
    }
  }

  lemma AckKeepsRecorded(cfg: Config, w: WakeState, now: int, msgId: string, id: string)
    requires Recorded(cfg, w, id)
    ensures Recorded(cfg, MarkedAck(w, now, msgId), id)
  {
    if msgId in w.pending && id != msgId {
      ElsewhereKeepsRecorded(cfg, w, MarkedAck(w, now, msgId), [Published(now, msgId, Acked)], id);
    }
  }

  lemma DoneKeepsRecorded(cfg: Config, w: WakeState, now: int, msgId: string, id: string)
    requires RecordsApart(cfg, w.pending) && KeysMatch(w.pending) && Recorded(cfg, w, id)
    ensures Recorded(cfg, MarkedDone(cfg, w, now, msgId), id)
  {
    if msgId in w.pending && id != msgId {
      assert id in w.pending ==> PendingKey(cfg, w.pending[id]) != PendingKey(cfg, w.pending[msgId]);
      ElsewhereKeepsRecorded(cfg, w, MarkedDone(cfg, w, now, msgId), [Published(now, msgId, Done)], id);
    }
  }

  lemma TickKeepsStart(cfg: Config, w: WakeState, now: int, links: Links, order: seq<string>, id: string)
    requires IsOrder(order, w.pending.Keys) && KeysMatch(w.pending) && Statuses(w.trace, id) != []
    ensures
      var t := Statuses(Ticked(cfg, w, now, links, order).trace, id);
      t != [] && t[0] == Statuses(w.trace, id)[0]
  {
    TickedStatuses(cfg, w, now, links, order, id);
  }

  lemma SameRecordKept(cfg: Config, w: WakeState, v: WakeState, id: string)
    requires Recorded(cfg, w, id) && v.db == w.db
    requires id in v.pending ==> id in w.pending && PendingKey(cfg, v.pending[id]) == PendingKey(cfg, w.pending[id])
    requires Statuses(w.trace, id) != [] && Statuses(v.trace, id) != [] &&
      Statuses(v.trace, id)[0] == Statuses(w.trace, id)[0]
    ensures Recorded(cfg, v, id)
  {}

  lemma TickKeepsRecorded(cfg: Config, w: WakeState, now: int, links: Links, order: seq<string>, id: string)
    requires IsOrder(order, w.pending.Keys) && KeysMatch(w.pending)
    requires Recorded(cfg, w, id) && (id in w.pending ==> Statuses(w.trace, id) != [])
    ensures Recorded(cfg, Ticked(cfg, w, now, links, order), id)
  {
    if id in w.pending {
      TickKeepsStart(cfg, w, now, links, order, id);
      SameRecordKept(cfg, w, Ticked(cfg, w, now, links, order), id);
    }
  }
}
