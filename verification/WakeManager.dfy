/** The dispatcher object, its tick loop over an unordered map, and what that order can influence. */
module WakeManagement {
  import opened Bytes
  import opened Codec
  import opened Model
  import opened Presence
  import opened Redis
  import opened Dispatcher

  datatype Lock = Locked(sid: Sid) | Missing(reason: string)

  class WakeManager {
    const ctx: GatewayContext
    const cfg: Config
    var pending: map<string, PendingWake>

    constructor (ctx: GatewayContext, cfg: Config)
      ensures this.ctx == ctx && this.cfg == cfg && pending == map[]
    {
      this.ctx, this.cfg, pending := ctx, cfg, map[];
    }

    ghost function View(): WakeState
      reads this, ctx, ctx.redis
    {
      WakeState(pending, ctx.sessions, ctx.redis.db, ctx.trace)
    }

    /** Look a device up and lock its session; an expired one is forgotten. */
    method LockSession(deviceId: string, links: Links) returns (r: Lock)
      modifies ctx`sessions
      ensures r.Locked? <==> deviceId in old(ctx.sessions) && old(ctx.sessions)[deviceId] in links
      ensures r.Locked? ==> ctx.sessions == old(ctx.sessions) && r.sid == ctx.sessions[deviceId]
      ensures r.Missing? ==> ctx.sessions == old(ctx.sessions) - {deviceId}
      ensures r.Missing? ==> r.reason == if deviceId in old(ctx.sessions)
        then "device session expired" else "device offline"
    {
      if deviceId !in ctx.sessions {
        return Missing("device offline");
      }
      var sid := ctx.sessions[deviceId];
      if sid !in links {
        ctx.sessions := ctx.sessions - {deviceId};
        return Missing("device session expired");
      }
      r := Locked(sid);
    }

    method SendWake(now: int, c: Call, links: Links) returns (r: Outcome)
      requires ctx.redis.key == cfg.key
      modifies this, ctx`sessions, ctx`trace, ctx.redis
      ensures (View(), r) == Dispatcher.SendWake(cfg, old(View()), now, c, links)
    {
      var lock := LockSession(c.deviceId, links);
      if lock.Missing? {
        assert c.deviceId !in old(ctx.sessions) ==> ctx.sessions == old(ctx.sessions);
        return Refused(lock.reason);
      }
      if links[lock.sid] == LOWPOWER || c.cmd == "lowpower_wakeup" {
        r := SendLowPowerWake(now, c, links);
        return;
      }
      var msgId := MsgId(c.wall);
      var document := Wake(c.stamp, msgId, c.cmd, c.params, c.stamp + cfg.expireMs);
      var p := PendingWake(c.deviceId, msgId, c.cmd, document, lock.sid, JSON_LINE, 0, now + cfg.ackTimeoutMs);
      Enter(now, p, Line(document));
      r := Sent(msgId);
    }

    method SendLowPowerWake(now: int, c: Call, links: Links) returns (r: Outcome)
      requires ctx.redis.key == cfg.key && c.deviceId in ctx.sessions && ctx.sessions[c.deviceId] in links
      modifies this, ctx`sessions, ctx`trace, ctx.redis
      ensures (View(), r) == Dispatcher.SendLowPowerWake(cfg, old(View()), now, c, old(ctx.sessions)[c.deviceId])
    {
      var lock := LockSession(c.deviceId, links);
      var localKey := ctx.redis.GetLocalKey(c.deviceId);
      if localKey.None? {
        return Refused("local_key not found");
      }
      var msgId := MsgId(c.wall);
      var raw := MakeWakeupFrame(Octets(localKey.value));
      var p := PendingWake(c.deviceId, msgId, "lowpower_wakeup", LowPowerWake(msgId), lock.sid, LOWPOWER, 0,
        now + cfg.ackTimeoutMs);
      Enter(now, p, Raw(raw));
      r := Sent(msgId);
    }

    /** The common end of both dispatches. */
    method Enter(now: int, p: PendingWake, buffer: Buffer)
      requires ctx.redis.key == cfg.key
      modifies this, ctx`trace, ctx.redis
      ensures View() == Entered(cfg, old(View()), now, p, buffer)
    {
      pending := pending[p.msgId := p];
      var _ := ctx.redis.SavePendingWake(p.deviceId, p.msgId, TruncatedDiv(cfg.expireMs, 1000), now);
      Post(p.session, buffer, p.msgId);
      Publish(now, p.msgId, Dispatched);
      assert ctx.trace == old(ctx.trace) +
        [Posted(p.session, buffer, Some(p.msgId)), Published(now, p.msgId, Dispatched)];
    }

    method Post(sid: Sid, buffer: Buffer, cause: string)
      modifies ctx`trace
      ensures ctx.trace == old(ctx.trace) + [Posted(sid, buffer, Some(cause))]
    {
      ctx.trace := ctx.trace + [Posted(sid, buffer, Some(cause))];
    }

    method Publish(now: int, msgId: string, status: Status)
      modifies ctx`trace
      ensures ctx.trace == old(ctx.trace) + [Published(now, msgId, status)]
    {
      ctx.trace := ctx.trace + [Published(now, msgId, status)];
    }

    method MarkAck(now: int, msgId: string)
      modifies this, ctx`trace
      ensures View() == MarkedAck(old(View()), now, msgId)
    {
      if msgId !in pending {
        return;
      }
      Publish(now, msgId, Acked);
      pending := pending - {msgId};
    }

    method MarkDone(now: int, msgId: string)
      requires ctx.redis.key == cfg.key
      modifies this, ctx`trace, ctx.redis
      ensures View() == MarkedDone(cfg, old(View()), now, msgId)
    {
      if msgId !in pending {
        return;
      }
      ctx.redis.RemovePendingWake(pending[msgId].deviceId, msgId);
      Publish(now, msgId, Done);
      pending := pending - {msgId};
    }

    /** The tick visits the entries in an order the map chooses, and erases the failed ones afterwards by
        their stored ids. */
    method OnTick(now: int, links: Links) returns (ghost order: seq<string>)
      requires ctx.redis.key == cfg.key && KeysMatch(pending)
      modifies this, ctx`trace
      ensures IsOrder(order, old(pending).Keys)
      ensures View() == Ticked(cfg, old(View()), now, links, order)
    {
      ghost var start := pending;
      var removeList: seq<string>;
      removeList, order := VisitAll(now, links);
      Erase(removeList);
      assert pending == TickedPending(cfg, start, now, links);
    }

    /** The loop over the entries, in any order. */
    method VisitAll(now: int, links: Links) returns (removeList: seq<string>, ghost order: seq<string>)
      requires ctx.redis.key == cfg.key && KeysMatch(pending)
      modifies `pending, ctx`trace
      ensures IsOrder(order, old(pending).Keys)
      ensures Partway(cfg, old(pending), now, links, pending, {}, removeList)
      ensures ctx.trace == old(ctx.trace) + NotesInOrder(cfg, old(View()), now, links, order)
    {
      ghost var start := View();
      var keys := pending.Keys;
      removeList, order := [], [];
      while keys != {}
        invariant Visited(order, start.pending.Keys, keys)
        invariant Partway(cfg, start.pending, now, links, pending, keys, removeList)
        invariant ctx.trace == NotedSoFar(cfg, start, now, links, order)
        decreases |keys|
      {
        var id :| id in keys;
        ghost var before := pending;
        var failed := Visit(id, now, links);
        LoopAdvances(cfg, start, now, links, before, keys, removeList, order, id);
        if failed.Some? {
          removeList := removeList + [failed.value];
        }
        keys := keys - {id};
        order := order + [id];
      }
    }

    method Erase(removeList: seq<string>)
      modifies `pending
      ensures pending == map id | id in old(pending) && id !in removeList :: old(pending)[id]
    {
      var i := 0;
      while i < |removeList|
        invariant 0 <= i <= |removeList|
        invariant pending == map id | id in old(pending) && id !in removeList[..i] :: old(pending)[id]
      {
        pending := pending - {removeList[i]};
        i := i + 1;
      }
      assert removeList[..i] == removeList;
    }

    /** The body of the loop; the stored id of a command that failed is to be erased. */
    method Visit(id: string, now: int, links: Links) returns (failed: Option<string>)
      requires ctx.redis.key == cfg.key && id in pending
      modifies `pending, ctx`trace
      ensures pending == old(pending)[id := AfterTick(cfg, old(pending)[id], now, links)]
      ensures ctx.trace == old(ctx.trace) + TickNotes(cfg, ctx.redis.db, old(pending)[id], now, links)
      ensures failed == if FateOf(cfg, old(pending)[id], now, links).Fail? then Some(old(pending)[id].msgId) else None
    {
      var p := pending[id];
      if now < p.nextRetry {
        return None;
      }
      if p.retryCount >= cfg.maxRetry {
        Publish(now, p.msgId, Failed(p.retryCount));
        return Some(p.msgId);
      }
      RetryWake(id, now, links);
      failed := None;
    }

    /** One due entry: skipped while its session cannot be locked, otherwise counted, rescheduled and sent again. */
    method RetryWake(id: string, now: int, links: Links)
      requires ctx.redis.key == cfg.key && id in pending
      requires now >= pending[id].nextRetry && pending[id].retryCount < cfg.maxRetry
      modifies `pending, ctx`trace
      ensures pending == old(pending)[id := AfterTick(cfg, old(pending)[id], now, links)]
      ensures ctx.trace == old(ctx.trace) + TickNotes(cfg, ctx.redis.db, old(pending)[id], now, links)
    {
      var p := pending[id];
      if p.session !in links {
        return;
      }
      p := p.(retryCount := p.retryCount + 1, nextRetry := now + cfg.ackTimeoutMs);
      pending := pending[id := p];
      Publish(now, p.msgId, Retrying(p.retryCount));
      if p.protocol == JSON_LINE {
        Post(p.session, Line(p.payload), p.msgId);
      } else if p.protocol == LOWPOWER {
        var localKey := ctx.redis.GetLocalKey(p.deviceId);
        if localKey.Some? {
          var raw := MakeWakeupFrame(Octets(localKey.value));
          Post(p.session, Raw(raw), p.msgId);
        }
      }
    }
  }

  lemma NotesSnoc(cfg: Config, w: WakeState, now: int, links: Links, order: seq<string>, id: string)
    requires id in w.pending && forall k | k in order :: k in w.pending
    ensures NotesInOrder(cfg, w, now, links, order + [id])
      == NotesInOrder(cfg, w, now, links, order) + TickNotes(cfg, w.db, w.pending[id], now, links)
  {
    assert (order + [id])[..|order|] == order;
  }

  lemma VisitedSnoc(order: seq<string>, all: set<string>, keys: set<string>, id: string)
    requires Visited(order, all, keys) && id in keys
    ensures Visited(order + [id], all, keys - {id})
  {
    assert (order + [id])[..|order|] == order;
  }

  lemma AppendNotes(a: seq<Note>, b: seq<Note>, c: seq<Note>)
    ensures a + b + c == a + (b + c)
  {}

  /** The order so far: each visited key once. */
  ghost predicate Visited(order: seq<string>, all: set<string>, keys: set<string>) {
    && keys <= all && NoRepeats(order)
    && forall id :: id in order <==> id in all && id !in keys
  }

  /** Every visited entry is what a tick makes of it, and the failed ones are listed. */
  ghost predicate Partway(cfg: Config, start: map<string, PendingWake>, now: int, links: Links,
      pending: map<string, PendingWake>, keys: set<string>, removeList: seq<string>)
  {
    && pending.Keys == start.Keys
    && (forall id | id in start :: pending[id] == if id in keys
      then start[id] else AfterTick(cfg, start[id], now, links))
    && (forall id :: id in removeList <==> id in start && id !in keys && FateOf(cfg, start[id], now, links).Fail?)
  }

  /** One turn of the loop: the entry, the order and the notes each advance by one. */
  lemma LoopAdvances(cfg: Config, start: WakeState, now: int, links: Links, pending: map<string, PendingWake>,
      keys: set<string>, removeList: seq<string>, order: seq<string>, id: string)
    requires KeysMatch(start.pending) && id in keys
    requires Visited(order, start.pending.Keys, keys)
    requires Partway(cfg, start.pending, now, links, pending, keys, removeList)
    ensures pending[id] == start.pending[id]
    ensures Visited(order + [id], start.pending.Keys, keys - {id})
    ensures Partway(cfg, start.pending, now, links, pending[id := AfterTick(cfg, pending[id], now, links)], keys - {id},
      if FateOf(cfg, pending[id], now, links).Fail? then removeList + [pending[id].msgId] else removeList)
    ensures NotedSoFar(cfg, start, now, links, order + [id])
      == NotedSoFar(cfg, start, now, links, order) + TickNotes(cfg, start.db, start.pending[id], now, links)
  {
    VisitAdvances(cfg, start.pending, now, links, pending, keys, removeList, id);
    NotesSnoc(cfg, start, now, links, order, id);
    VisitedSnoc(order, start.pending.Keys, keys, id);
    AppendNotes(start.trace, NotesInOrder(cfg, start, now, links, order),
      TickNotes(cfg, start.db, start.pending[id], now, links));
  }

  /** The history when the keys in order were visited. */
  ghost function NotedSoFar(cfg: Config, start: WakeState, now: int, links: Links, order: seq<string>): seq<Note>
    requires forall id | id in order :: id in start.pending
  {
    start.trace + NotesInOrder(cfg, start, now, links, order)
  }

  lemma VisitAdvances(cfg: Config, start: map<string, PendingWake>, now: int, links: Links,
      pending: map<string, PendingWake>, keys: set<string>, removeList: seq<string>, id: string)
    requires Partway(cfg, start, now, links, pending, keys, removeList) && KeysMatch(start) && id in keys && id in start
    ensures Partway(cfg, start, now, links, pending[id := AfterTick(cfg, pending[id], now, links)], keys - {id},
      if FateOf(cfg, pending[id], now, links).Fail? then removeList + [pending[id].msgId] else removeList)
  {}

  // ---- the order of a tick shows in nothing but the interleaving of different commands ----

  ghost predicate IsAbout(n: Note, id: string) {
    (n.Published? && n.msgId == id) || (n.Posted? && n.cause == Some(id))
  }

  /** The notes about one command, buffers and clock readings included. */
  ghost function About(trace: seq<Note>, id: string): seq<Note> {
    if trace == [] then []
    else
      var n := |trace| - 1;
      About(trace[..n], id) + if IsAbout(trace[n], id) then [trace[n]] else []
  }

  lemma {:induction false} AboutConcat(a: seq<Note>, b: seq<Note>, id: string)
    ensures About(a + b, id) == About(a, id) + About(b, id)
  {
    if b == [] {
      assert a + b == a;
    } else {
      var n := |b| - 1;
      assert (a + b)[..|a + b| - 1] == a + b[..n];
      AboutConcat(a, b[..n], id);
    }
  }

  lemma {:induction false} AboutAll(notes: seq<Note>, id: string)
    requires forall n | n in notes :: IsAbout(n, id)
    ensures About(notes, id) == notes
  {
    if notes != [] {
      var n := |notes| - 1;
      AboutAll(notes[..n], id);
      assert notes == notes[..n] + [notes[n]];
    }
  }

  lemma {:induction false} AboutNone(notes: seq<Note>, id: string)
    requires forall n | n in notes :: !IsAbout(n, id)
    ensures About(notes, id) == []
  {
    if notes != [] { AboutNone(notes[..|notes| - 1], id); }
  }

  lemma TickNotesAreAbout(cfg: Config, db: Db, p: PendingWake, now: int, links: Links, id: string)
    ensures forall n | n in TickNotes(cfg, db, p, now, links) :: IsAbout(n, id) <==> id == p.msgId
  {}

  lemma AboutTickNotes(cfg: Config, db: Db, p: PendingWake, now: int, links: Links, id: string)
    ensures About(TickNotes(cfg, db, p, now, links), id) == if id == p.msgId
      then TickNotes(cfg, db, p, now, links) else []
  {
    TickNotesAreAbout(cfg, db, p, now, links, id);
    var notes := TickNotes(cfg, db, p, now, links);
    if id == p.msgId { AboutAll(notes, id); } else { AboutNone(notes, id); }
  }

  lemma AboutNext(earlier: seq<Note>, notes: seq<Note>, id: string, own: seq<Note>, seen: bool, last: bool)
    requires About(earlier, id) == if seen then own else []
    requires About(notes, id) == if last then own else []
    requires !seen || !last
    ensures About(earlier + notes, id) == if seen || last then own else []
  {
    AboutConcat(earlier, notes, id);
  }

  lemma {:induction false} AboutNotesInOrder(cfg: Config, w: WakeState, now: int, links: Links, order: seq<string>,
      id: string)
    requires NoRepeats(order) && KeysMatch(w.pending) && id in w.pending && forall k | k in order :: k in w.pending
    ensures About(NotesInOrder(cfg, w, now, links, order), id)
      == if id in order then TickNotes(cfg, w.db, w.pending[id], now, links) else []
  {
    if order != [] {
      var n := |order| - 1;
      var k := order[n];
      assert order == order[..n] + [k];
      AboutNotesInOrder(cfg, w, now, links, order[..n], id);
      AboutTickNotes(cfg, w.db, w.pending[k], now, links, id);
      AboutNext(NotesInOrder(cfg, w, now, links, order[..n]), TickNotes(cfg, w.db, w.pending[k], now, links), id,
        TickNotes(cfg, w.db, w.pending[id], now, links), id in order[..n], id == k);
    }
  }

  lemma {:induction false} AboutNotesElsewhere(cfg: Config, w: WakeState, now: int, links: Links, order: seq<string>,
      id: string)
    requires KeysMatch(w.pending) && id !in order && forall k | k in order :: k in w.pending
    ensures About(NotesInOrder(cfg, w, now, links, order), id) == []
  {
    if order != [] {
      var n := |order| - 1;
      AboutNotesElsewhere(cfg, w, now, links, order[..n], id);
      AboutTickNotes(cfg, w.db, w.pending[order[n]], now, links, id);
      var earlier := NotesInOrder(cfg, w, now, links, order[..n]);
      var last := TickNotes(cfg, w.db, w.pending[order[n]], now, links);
      AboutConcat(earlier, last, id);
    }
  }

  lemma AboutTicked(cfg: Config, w: WakeState, now: int, links: Links, order: seq<string>, id: string)
    requires IsOrder(order, w.pending.Keys) && KeysMatch(w.pending)
    ensures About(Ticked(cfg, w, now, links, order).trace, id) == About(w.trace, id) + OwnNotes(cfg, w, now, links, id)
  {
    AboutConcat(w.trace, NotesInOrder(cfg, w, now, links, order), id);
    if id in w.pending {
      AboutNotesInOrder(cfg, w, now, links, order, id);
    } else {
      AboutNotesElsewhere(cfg, w, now, links, order, id);
    }
  }

  /** In whatever order the entries are visited: the map, and the history of every command, are what a
      function of that one entry and one clock reading makes them. */
  lemma TickRefinesEntries(cfg: Config, w: WakeState, now: int, links: Links, order: seq<string>, id: string)
    requires IsOrder(order, w.pending.Keys) && KeysMatch(w.pending)
    ensures
      var v := Ticked(cfg, w, now, links, order);
      && v.sessions == w.sessions && v.db == w.db && KeysMatch(v.pending)
      && (id in v.pending <==> id in w.pending && FateOf(cfg, w.pending[id], now, links) != Fail)
      && (id in v.pending ==> v.pending[id] == AfterTick(cfg, w.pending[id], now, links))
      && About(v.trace, id) == About(w.trace, id)
           + if id in w.pending then TickNotes(cfg, w.db, w.pending[id], now, links) else []
  {
    AboutTicked(cfg, w, now, links, order, id);
  }
}
