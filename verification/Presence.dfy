/** Which devices are online: the in-memory maps, the expiring Redis records, and the offline checker. */
module Presence {
  import opened Bytes
  import opened Model
  import opened Redis

  datatype Presence = Presence(sessions: map<string, Sid>, states: map<string, DeviceState>, db: Db)

  // ---- the operations as functions of the registry ----

  function OnlineKey(cfg: Config, d: string): string {
    cfg.key(Online(d))
  }

  /** states[id], which inserts a blank state for a missing id. */
  function StateOf(states: map<string, DeviceState>, id: string): DeviceState {
    if id in states then states[id] else BLANK_STATE
  }

  function UpdatedRedis(cfg: Config, db: Db, now: int, s: DeviceState): Db {
    SetEx(db, OnlineKey(cfg, s.deviceId), now, cfg.idleTimeoutSec)
  }

  function Registered(cfg: Config, p: Presence, now: int, sid: Sid, s: DeviceState): Presence {
    Presence(p.sessions[s.deviceId := sid], p.states[s.deviceId := s], UpdatedRedis(cfg, p.db, now, s))
  }

  function Refreshed(s: DeviceState, now: int, battery: Option<int>, dev: Option<string>): DeviceState {
    s.(online := true, lastHeartbeat := now,
       battery := if battery.Some? then battery.value else s.battery,
       devState := if dev.Some? then dev.value else s.devState)
  }

  function Heartbeat(cfg: Config, p: Presence, now: int, id: string, battery: Option<int>,
      dev: Option<string>): Presence
  {
    var s := Refreshed(StateOf(p.states, id), now, battery, dev);
    p.(states := p.states[id := s], db := UpdatedRedis(cfg, p.db, now, s))
  }

  function HostReported(p: Presence, id: string, dev: string): Presence {
    p.(states := p.states[id := StateOf(p.states, id).(devState := dev)])
  }

  function Disconnected(cfg: Config, p: Presence, id: string): Presence {
    if id == "" then p
    else
      Presence(p.sessions - {id},
               if id in p.states then p.states[id := p.states[id].(online := false)] else p.states,
               p.db - {OnlineKey(cfg, id)})
  }

  /** Silent for more whole seconds than the idle timeout. */
  predicate Silent(cfg: Config, s: DeviceState, now: int) {
    s.online && TruncatedDiv(now - s.lastHeartbeat, 1000) > cfg.idleTimeoutSec
  }

  function SilentIds(cfg: Config, states: map<string, DeviceState>, now: int): set<string> {
    set d | d in states && Silent(cfg, states[d], now)
  }

  function Checked(cfg: Config, p: Presence, now: int): Presence {
    var silent := SilentIds(cfg, p.states, now);
    Presence(p.sessions - silent,
             map d | d in p.states :: if d in silent then p.states[d].(online := false) else p.states[d],
             p.db - (set d | d in silent :: OnlineKey(cfg, d)))
  }

  // ---- the registry invariant and the agreement with Redis ----

  /** The record of d lapses one idle timeout after its last heartbeat, and exists only while it is online. */
  ghost predicate RecordAgrees(cfg: Config, p: Presence, d: string) {
    if d in p.states && p.states[d].online && cfg.idleTimeoutSec > 0
    then OnlineKey(cfg, d) in p.db &&
      p.db[OnlineKey(cfg, d)] == Timed(p.states[d].lastHeartbeat + 1000 * cfg.idleTimeoutSec)
    else OnlineKey(cfg, d) !in p.db
  }

  ghost predicate RegistryInv(p: Presence, now: int) {
    && (forall d | d in p.sessions :: d in p.states && p.states[d].online)
    && (forall d | d in p.states :: p.states[d].deviceId == d)
    && (forall d | d in p.states && p.states[d].online :: d != "" && p.states[d].lastHeartbeat <= now)
  }

  /** Every named state belongs to one of the ids, and the record of each of them agrees. */
  ghost predicate RecordsAgree(cfg: Config, p: Presence, ids: iset<string>) {
    && (forall d | d in p.states && d != "" :: d in ids)
    && (forall d | d in ids :: RecordAgrees(cfg, p, d))
  }

  /** Ids that do not share records, and a registry that agrees with them. */
  ghost predicate Inv(cfg: Config, p: Presence, now: int, ids: iset<string>) {
    OnlineApart(cfg.key, ids) && RegistryInv(p, now) && RecordsAgree(cfg, p, ids)
  }

  /** The record is unexpired exactly when the device is online and within its idle timeout. */
  lemma RecordIsExact(cfg: Config, p: Presence, now: int, d: string, t: int)
    requires RegistryInv(p, now) && RecordAgrees(cfg, p, d) && now <= t
    ensures Live(p.db, OnlineKey(cfg, d), t) <==>
      d in p.states && p.states[d].online && t < p.states[d].lastHeartbeat + 1000 * cfg.idleTimeoutSec
  {}

  /** A change to one id, with the matching change to its record, keeps the agreement of all others. */
  lemma OneRecordChanges(cfg: Config, p: Presence, q: Presence, id: string, ids: iset<string>)
    requires OnlineApart(cfg.key, ids) && id in ids
    requires forall d | d != id :: d in p.states <==> d in q.states
    requires forall d | d != id && d in p.states :: q.states[d] == p.states[d]
    requires forall k | k != OnlineKey(cfg, id) :: (k in p.db <==> k in q.db) && (k in p.db ==> q.db[k] == p.db[k])
    requires RecordAgrees(cfg, q, id) && RecordsAgree(cfg, p, ids)
    ensures RecordsAgree(cfg, q, ids)
  {
    forall d | d in ids
      ensures RecordAgrees(cfg, q, d)
    {
      assert OnlineKey(cfg, d) == OnlineKey(cfg, id) ==> d == id;
      assert RecordAgrees(cfg, p, d);
    }
  }

  lemma RegisterKeepsInv(cfg: Config, p: Presence, now: int, sid: Sid, s: DeviceState, ids: iset<string>)
    requires Inv(cfg, p, now, ids)
    requires s.deviceId != "" && s.deviceId in ids && s.online && s.lastHeartbeat == now
    ensures Inv(cfg, Registered(cfg, p, now, sid, s), now, ids)
  {
    var q := Registered(cfg, p, now, sid, s);
    assert RecordAgrees(cfg, q, s.deviceId) by { assert RecordAgrees(cfg, p, s.deviceId); }
    OneRecordChanges(cfg, p, q, s.deviceId, ids);
  }

  lemma HeartbeatKeepsInv(cfg: Config, p: Presence, now: int, id: string, battery: Option<int>, dev: Option<string>,
      ids: iset<string>)
    requires Inv(cfg, p, now, ids) && id != "" && id in p.states
    ensures Inv(cfg, Heartbeat(cfg, p, now, id, battery, dev), now, ids)
  {
    var q := Heartbeat(cfg, p, now, id, battery, dev);
    assert RecordAgrees(cfg, p, id);
    OneRecordChanges(cfg, p, q, id, ids);
  }

  lemma HostReportKeepsInv(cfg: Config, p: Presence, now: int, id: string, dev: string, ids: iset<string>)
    requires Inv(cfg, p, now, ids) && (id == "" || id in p.states)
    ensures Inv(cfg, HostReported(p, id, dev), now, ids)
  {
    var q := HostReported(p, id, dev);
    forall d | d in ids
      ensures RecordAgrees(cfg, q, d)
    {
      assert RecordAgrees(cfg, p, d);
    }
  }

  lemma DisconnectKeepsInv(cfg: Config, p: Presence, now: int, id: string, ids: iset<string>)
    requires Inv(cfg, p, now, ids) && (id == "" || id in p.states)
    ensures Inv(cfg, Disconnected(cfg, p, id), now, ids)
  {
    if id != "" {
      assert RecordAgrees(cfg, p, id);
      OneRecordChanges(cfg, p, Disconnected(cfg, p, id), id, ids);
    }
  }

  lemma CheckedRecord(cfg: Config, p: Presence, now: int, d: string, ids: iset<string>)
    requires Inv(cfg, p, now, ids) && d in ids
    ensures RecordAgrees(cfg, Checked(cfg, p, now), d)
  {
    assert RecordAgrees(cfg, p, d);
    forall e | e in SilentIds(cfg, p.states, now)
      ensures OnlineKey(cfg, d) == OnlineKey(cfg, e) <==> d == e
    {
      assert e in ids;
    }
  }

  lemma CheckKeepsRegistry(cfg: Config, p: Presence, now: int)
    requires RegistryInv(p, now)
    ensures RegistryInv(Checked(cfg, p, now), now)
  {}

  lemma CheckKeepsInv(cfg: Config, p: Presence, now: int, ids: iset<string>)
    requires Inv(cfg, p, now, ids)
    ensures Inv(cfg, Checked(cfg, p, now), now, ids)
  {
    CheckKeepsRegistry(cfg, p, now);
    forall d | d in ids
      ensures RecordAgrees(cfg, Checked(cfg, p, now), d)
    {
      CheckedRecord(cfg, p, now, d, ids);
    }
  }

  /** Forgetting an expired session keeps everything; so does the passage of time. */
  lemma ForgetKeepsInv(cfg: Config, p: Presence, now: int, id: string, later: int, ids: iset<string>)
    requires Inv(cfg, p, now, ids) && now <= later
    ensures Inv(cfg, p.(sessions := p.sessions - {id}), later, ids)
  {
    forall d | d in ids
      ensures RecordAgrees(cfg, p.(sessions := p.sessions - {id}), d)
    {
      assert RecordAgrees(cfg, p, d);
    }
  }

  // ---- how long silence can last ----

  /** The checker clears exactly the online devices silent for idle+1 whole seconds or more. */
  lemma CheckIsExact(cfg: Config, p: Presence, now: int, d: string)
    requires RegistryInv(p, now) && d in p.states
    ensures
      var q := Checked(cfg, p, now);
      && d in q.states
      && (q.states[d].online <==>
            p.states[d].online && now - p.states[d].lastHeartbeat < 1000 * (cfg.idleTimeoutSec + 1))
      && (d in q.sessions <==> d in p.sessions && q.states[d].online)
  {}

  /** The interval a JSON heartbeat is granted for a battery level. */
  function GrantedSec(cfg: Config, battery: int): int {
    if 0 <= battery < 10 then 600 else if 0 <= battery < 20 then 300 else cfg.heartbeatDefaultSec
  }

  function Max(a: int, b: int): int {
    if a >= b then a else b
  }

  predicate CoversGrants(cfg: Config) {
    cfg.idleTimeoutSec >= Max(cfg.heartbeatDefaultSec, 600)
  }

  /** A device that was silent no longer than the interval it was granted outlives a check exactly when the
      idle timeout covers that interval; idle >= max(default, 600) covers every grant. */
  lemma HonouredIntervalSurvives(cfg: Config, p: Presence, now: int, d: string)
    requires RegistryInv(p, now) && d in p.states && p.states[d].online
    ensures
      var granted := GrantedSec(cfg, p.states[d].battery);
      && (now - p.states[d].lastHeartbeat == 1000 * granted ==>
            (Checked(cfg, p, now).states[d].online <==> granted <= cfg.idleTimeoutSec))
      && (now - p.states[d].lastHeartbeat <= 1000 * granted && CoversGrants(cfg) ==>
            Checked(cfg, p, now).states[d].online)
  {
    CheckIsExact(cfg, p, now, d);
  }

  /** Since the last check, no online device has been silent for longer than the timeout allows. */
  ghost predicate SilenceBounded(cfg: Config, p: Presence, lastCheck: int) {
    forall d | d in p.states && p.states[d].online ::
      lastCheck - p.states[d].lastHeartbeat <= Max(0, 1000 * (cfg.idleTimeoutSec + 1))
  }

  lemma CheckBoundsSilence(cfg: Config, p: Presence, now: int)
    requires RegistryInv(p, now)
    ensures SilenceBounded(cfg, Checked(cfg, p, now), now)
  {
    forall d | d in p.states
      ensures Checked(cfg, p, now).states[d].online ==>
        now - p.states[d].lastHeartbeat <= Max(0, 1000 * (cfg.idleTimeoutSec + 1))
    {
      CheckIsExact(cfg, p, now, d);
    }
  }

  // ---- the objects ----

  class GatewayContext {
    var sessions: map<string, Sid>
    var states: map<string, DeviceState>
    var trace: seq<Note>
    const redis: RedisStore

    constructor (redis: RedisStore)
      ensures this.redis == redis && sessions == map[] && states == map[] && trace == []
    {
      this.redis := redis;
      sessions, states, trace := map[], map[], [];
    }

    ghost function View(): Presence
      reads this, redis
    {
      Presence(sessions, states, redis.db)
    }
  }

  class TcpGatewayServer {
    const ctx: GatewayContext
    const cfg: Config

    constructor (ctx: GatewayContext, cfg: Config)
      ensures this.ctx == ctx && this.cfg == cfg
    {
      this.ctx, this.cfg := ctx, cfg;
    }

    method CheckOffline(now: int)
      requires ctx.redis.key == cfg.key
      modifies ctx`states, ctx`sessions, ctx.redis
      ensures ctx.View() == Checked(cfg, old(ctx.View()), now)
    {
      var offline := CollectSilent(now);
      assert (set d | d in offline) == SilentIds(cfg, ctx.states, now);
      assert KeysOf(cfg, offline) == (set d | d in SilentIds(cfg, ctx.states, now) :: OnlineKey(cfg, d));
      MarkOffline(offline);
      DropRecords(offline);
    }

    /** The first loop: over the states in any order. */
    method CollectSilent(now: int) returns (offline: seq<string>)
      ensures forall d :: d in offline <==> d in SilentIds(cfg, ctx.states, now)
    {
      offline := [];
      var keys := ctx.states.Keys;
      while keys != {}
        invariant keys <= ctx.states.Keys
        invariant forall d :: d in offline <==> d in SilentIds(cfg, ctx.states, now) && d !in keys
        decreases |keys|
      {
        var id :| id in keys;
        var state := ctx.states[id];
        if state.online {
          var elapsed := TruncatedDiv(now - state.lastHeartbeat, 1000);
          if elapsed > cfg.idleTimeoutSec {
            offline := offline + [id];
          }
        }
        keys := keys - {id};
      }
    }

    method MarkOffline(offline: seq<string>)
      requires forall d | d in offline :: d in ctx.states
      modifies ctx`states, ctx`sessions
      ensures ctx.sessions == old(ctx.sessions) - (set d | d in offline)
      ensures ctx.states == map d | d in old(ctx.states) ::
        if d in offline then old(ctx.states)[d].(online := false) else old(ctx.states)[d]
    {
      var i := 0;
      ghost var states := ctx.states;
      while i < |offline|
        invariant 0 <= i <= |offline|
        invariant ctx.sessions == old(ctx.sessions) - (set d | d in offline[..i])
        invariant ctx.states == map d | d in states ::
          if d in offline[..i] then states[d].(online := false) else states[d]
      {
        var id := offline[i];
        assert id in offline;
        ctx.states := ctx.states[id := ctx.states[id].(online := false)];
        ctx.sessions := ctx.sessions - {id};
        assert offline[..i + 1] == offline[..i] + [id];
        i := i + 1;
      }
      assert offline[..i] == offline;
    }

    method DropRecords(offline: seq<string>)
      requires ctx.redis.key == cfg.key
      modifies ctx.redis
      ensures ctx.redis.db == old(ctx.redis.db) - KeysOf(cfg, offline)
    {
      var i := 0;
      while i < |offline|
        invariant 0 <= i <= |offline|
        invariant ctx.redis.db == old(ctx.redis.db) - KeysOf(cfg, offline[..i])
      {
        ctx.redis.SetOffline(offline[i]);
        KeysOfSnoc(cfg, offline[..i], offline[i]);
        assert offline[..i + 1] == offline[..i] + [offline[i]];
        i := i + 1;
      }
      assert offline[..i] == offline;
    }
  }

  ghost function KeysOf(cfg: Config, ids: seq<string>): set<string> {
    set d | d in ids :: OnlineKey(cfg, d)
  }

  lemma KeysOfSnoc(cfg: Config, ids: seq<string>, id: string)
    ensures KeysOf(cfg, ids + [id]) == KeysOf(cfg, ids) + {OnlineKey(cfg, id)}
  {
    forall k
      ensures k in KeysOf(cfg, ids + [id]) <==> k in KeysOf(cfg, ids) + {OnlineKey(cfg, id)}
    {
      if k in KeysOf(cfg, ids) {
        var d :| d in ids && k == OnlineKey(cfg, d);
        assert d in ids + [id];
      }
      assert id in ids + [id];
    }
  }
}
