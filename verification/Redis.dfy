/** The external store: key names as the client library sends them, and a map with expiry. */
module Redis {
  import opened Bytes
  import opened Model
  import opened Text

  // ---- key names ----

  function Family(k: KeyName): (f: string)
    ensures '\0' !in f
  {
    match k
    case Secret(_) => "device:secret:"
    case LocalKey(_) => "device:local_key:"
    case DeviceIndex(_) => "lowpower:device_id_index:"
    case Online(_) => "device:online:"
    case PendingWakeKey(_, _) => "device:pending_wake:"
  }

  function Argument(k: KeyName): string {
    match k
    case Secret(d) => d
    case LocalKey(d) => d
    case DeviceIndex(e) => e
    case Online(d) => d
    case PendingWakeKey(d, m) => d + ":" + m
  }

  /** A C string ends at its first NUL. */
  function CString(s: string): string {
    s[..Find(s, '\0')]
  }

  /** The key that reaches the server: commands are formatted from c_str(). */
  function Key(prefix: string, k: KeyName): string {
    CString(prefix + (Family(k) + Argument(k)))
  }

  lemma CStringConcat(a: string, b: string)
    requires '\0' !in a
    ensures CString(a + b) == a + CString(b)
  {
    var end := Find(b, '\0');
    assert (a + b)[..|a| + end] == a + b[..end];
    FindIsFirst(a + b, '\0', |a| + end);
  }

  lemma KeyShape(prefix: string, k: KeyName)
    requires '\0' !in prefix
    ensures Key(prefix, k) == prefix + (Family(k) + CString(Argument(k)))
  {
    CStringConcat(prefix, Family(k) + Argument(k));
    CStringConcat(Family(k), Argument(k));
  }

  /** The keys of NUL-free names, written out. */
  lemma KeyTexts(prefix: string, d: string, m: string)
    requires '\0' !in prefix && Plain(d) && Plain(m)
    ensures Key(prefix, Secret(d)) == prefix + ("device:secret:" + d)
    ensures Key(prefix, LocalKey(d)) == prefix + ("device:local_key:" + d)
    ensures Key(prefix, DeviceIndex(d)) == prefix + ("lowpower:device_id_index:" + d)
    ensures Key(prefix, Online(d)) == prefix + ("device:online:" + d)
    ensures Key(prefix, PendingWakeKey(d, m)) == prefix + ("device:pending_wake:" + (d + ":" + m))
  {
    KeyShape(prefix, Secret(d));
    KeyShape(prefix, LocalKey(d));
    KeyShape(prefix, DeviceIndex(d));
    KeyShape(prefix, Online(d));
    KeyShape(prefix, PendingWakeKey(d, m));
    CStringOfPlain(d);
    CStringOfPlain(d + ":" + m);
  }

  predicate SameFamily(j: KeyName, k: KeyName) {
    Family(j) == Family(k)
  }

  /** The families begin differently within their first eight characters. */
  lemma FamiliesDiffer(j: KeyName, k: KeyName, x: string, y: string)
    requires !SameFamily(j, k)
    ensures Family(j) + x != Family(k) + y
  {
    var a, b := Family(j) + x, Family(k) + y;
    assert |Family(j)| >= 8 && |Family(k)| >= 8;
    assert a[0] == Family(j)[0] && a[7] == Family(j)[7];
    assert b[0] == Family(k)[0] && b[7] == Family(k)[7];
    assert a[0] != b[0] || a[7] != b[7];
  }

  lemma ConcatIsInjective(a: string, x: string, y: string)
    requires a + x == a + y
    ensures x == y
  {
    assert (a + x)[|a|..] == x && (a + y)[|a|..] == y;
  }

  /** Two names are one key exactly when they are of one family and agree up to their first NUL. */
  lemma KeysCollide(prefix: string, j: KeyName, k: KeyName)
    requires '\0' !in prefix
    ensures Key(prefix, j) == Key(prefix, k) <==> SameFamily(j, k) && CString(Argument(j)) == CString(Argument(k))
  {
    KeyShape(prefix, j);
    KeyShape(prefix, k);
    var a, b := Family(j) + CString(Argument(j)), Family(k) + CString(Argument(k));
    if prefix + a == prefix + b {
      ConcatIsInjective(prefix, a, b);
      if SameFamily(j, k) {
        ConcatIsInjective(Family(j), CString(Argument(j)), CString(Argument(k)));
      } else {
        FamiliesDiffer(j, k, CString(Argument(j)), CString(Argument(k)));
      }
    }
  }

  lemma LaterColon(d: string, m: string, i: int)
    requires |d| < i < |d| + 1 + |m| && (d + ":" + m)[i] == ':'
    ensures ':' in m
  {
    assert m[i - |d| - 1] == ':';
  }

  lemma LastColon(d: string, m: string, e: string, n: string)
    requires ':' !in m && ':' !in n && d + ":" + m == e + ":" + n
    ensures d == e && m == n
  {
    var s, t := d + ":" + m, e + ":" + n;
    assert s[|d|] == ':' && t[|e|] == ':';
    if |d| < |e| {
      LaterColon(d, m, |e|);
    } else if |e| < |d| {
      LaterColon(e, n, |d|);
    }
    assert d == s[..|d|] && e == t[..|e|];
    assert m == s[|d| + 1..] && n == t[|e| + 1..];
  }

  lemma CStringOfPlain(s: string)
    requires Plain(s)
    ensures CString(s) == s
  {
    assert s[..|s|] == s;
  }

  lemma PlainKeysAreInjective(prefix: string, j: KeyName, k: KeyName)
    requires '\0' !in prefix && PlainName(j) && PlainName(k)
    ensures Key(prefix, j) == Key(prefix, k) <==> j == k
  {
    KeysCollide(prefix, j, k);
    CStringOfPlain(Argument(j));
    CStringOfPlain(Argument(k));
    if j.PendingWakeKey? && k.PendingWakeKey? && Argument(j) == Argument(k) {
      LastColon(j.deviceId, j.msgId, k.deviceId, k.msgId);
    }
  }

  /** The five families never collide, whatever the ids. */
  lemma FamiliesNeverCollide(prefix: string, key: KeyName -> string)
    requires '\0' !in prefix && forall k :: key(k) == Key(prefix, k)
    ensures SeparatesFamilies(key)
  {
    forall j, k | key(j) == key(k)
      ensures SameKind(j, k)
    {
      KeysCollide(prefix, j, k);
      FamilyIsKind(j, k);
    }
  }

  lemma FamilyIsKind(j: KeyName, k: KeyName)
    ensures SameFamily(j, k) <==> SameKind(j, k)
  {
    if SameFamily(j, k) {
      assert Family(j)[0] == Family(k)[0] && Family(j)[7] == Family(k)[7];
    }
  }

  /** The store names plain keys apart. */
  lemma StoreDistinguishes(prefix: string, key: KeyName -> string)
    requires '\0' !in prefix && forall k :: key(k) == Key(prefix, k)
    ensures Distinguishes(key)
  {
    forall j, k | PlainName(j) && PlainName(k) && key(j) == key(k)
      ensures j == k
    {
      PlainKeysAreInjective(prefix, j, k);
    }
  }

  // ---- message ids ----

  function MsgId(wallMs: int): string {
    "W" + ToString(wallMs)
  }

  /** Ids made in different milliseconds differ, and can stand in a key. */
  lemma MsgIdsAreDistinct(s: int, t: int)
    ensures MsgId(s) == MsgId(t) <==> s == t
    ensures Plain(MsgId(s)) && ':' !in MsgId(s)
  {
    assert MsgId(s)[1..] == ToString(s) && MsgId(t)[1..] == ToString(t);
    if MsgId(s) == MsgId(t) { ToStringIsInjective(s, t); }
  }

  ghost predicate IsMsgId(m: string) {
    exists t :: m == MsgId(t)
  }

  /** A message id is the letter W and the decimal reading of the clock. */
  lemma MsgIdText(wallMs: nat)
    ensures MsgId(wallMs)[0] == 'W' && Value(MsgId(wallMs)[1..]) == wallMs
  {
    ToStringValue(wallMs);
    assert MsgId(wallMs)[1..] == ToString(wallMs);
  }

  // ---- which ids have records of their own ----

  /** No two of the ids share an online record. */
  ghost predicate OnlineApart(key: KeyName -> string, ids: iset<string>) {
    forall d, e | d in ids && e in ids && key(Online(d)) == key(Online(e)) :: d == e
  }

  /** No two messages to any of the ids share a pending record. */
  ghost predicate PendingApart(key: KeyName -> string, ids: iset<string>) {
    forall d, e, m, n | d in ids && e in ids && IsMsgId(m) && IsMsgId(n) ::
      key(PendingWakeKey(d, m)) == key(PendingWakeKey(e, n)) ==> m == n
  }

  lemma OnlineKeysCollide(prefix: string, d: string, e: string)
    requires '\0' !in prefix
    ensures Key(prefix, Online(d)) == Key(prefix, Online(e)) <==> CString(d) == CString(e)
  {
    KeysCollide(prefix, Online(d), Online(e));
  }

  ghost predicate TextsApart(ids: iset<string>) {
    forall d, e | d in ids && e in ids && d != e :: CString(d) != CString(e)
  }

  /** In the store: exactly when no two of them agree up to their first NUL. */
  lemma OnlineApartIsExact(prefix: string, key: KeyName -> string, ids: iset<string>)
    requires '\0' !in prefix && forall k :: key(k) == Key(prefix, k)
    ensures OnlineApart(key, ids) <==> TextsApart(ids)
  {
    if OnlineApart(key, ids) {
      forall d, e | d in ids && e in ids && d != e
        ensures CString(d) != CString(e)
      {
        OnlineKeysCollide(prefix, d, e);
        assert key(Online(d)) != key(Online(e));
      }
    }
    if TextsApart(ids) {
      forall d, e | d in ids && e in ids && key(Online(d)) == key(Online(e))
        ensures d == e
      {
        OnlineKeysCollide(prefix, d, e);
      }
    }
  }

  /** In the store: exactly when each of them is free of NULs. */
  lemma PendingApartIsExact(prefix: string, key: KeyName -> string, ids: iset<string>)
    requires '\0' !in prefix && forall k :: key(k) == Key(prefix, k)
    ensures PendingApart(key, ids) <==> forall d | d in ids :: Plain(d)
  {
    if forall d | d in ids :: Plain(d) {
      forall d, e, m, n | d in ids && e in ids && IsMsgId(m) && IsMsgId(n)
        ensures key(PendingWakeKey(d, m)) == key(PendingWakeKey(e, n)) ==> m == n
      {
        var s :| m == MsgId(s);
        var t :| n == MsgId(t);
        MsgIdsAreDistinct(s, t);
        MsgIdsAreDistinct(t, t);
        PlainKeysAreInjective(prefix, PendingWakeKey(d, m), PendingWakeKey(e, n));
      }
    } else {
      var d :| d in ids && !Plain(d);
      var m, n := MsgId(0), MsgId(1);
      MsgIdsAreDistinct(0, 1);
      NulHidesMessage(prefix, d, m, n);
      assert IsMsgId(m) && IsMsgId(n) && key(PendingWakeKey(d, m)) == key(PendingWakeKey(d, n));
    }
  }

  lemma NulHidesMessage(prefix: string, d: string, m: string, n: string)
    requires '\0' !in prefix && !Plain(d)
    ensures Key(prefix, PendingWakeKey(d, m)) == Key(prefix, PendingWakeKey(d, n))
  {
    KeysCollide(prefix, PendingWakeKey(d, m), PendingWakeKey(d, n));
    NulHidesTail(d, m);
    NulHidesTail(d, n);
  }

  lemma NulHidesTail(d: string, m: string)
    requires !Plain(d)
    ensures CString(Argument(PendingWakeKey(d, m))) == CString(d)
  {
    CStringOfNul(d, ":" + m);
    assert d + ":" + m == d + (":" + m);
  }

  lemma CStringOfNul(d: string, rest: string)
    requires !Plain(d)
    ensures CString(d + rest) == CString(d)
  {
    var end := Find(d, '\0');
    assert (d + rest)[..end] == d[..end];
    FindIsFirst(d + rest, '\0', end);
  }

  /** Ids that differ only after a NUL share their online record. */
  lemma NulIdsShareAKey(prefix: string, id: string, x: string, y: string)
    requires '\0' !in prefix
    ensures Key(prefix, Online(id + ['\0'] + x)) == Key(prefix, Online(id + ['\0'] + y))
  {
    KeysCollide(prefix, Online(id + ['\0'] + x), Online(id + ['\0'] + y));
    assert '\0' in id + ['\0'];
    CStringOfNul(id + ['\0'], x);
    CStringOfNul(id + ['\0'], y);
  }

  // ---- the store ----

  /** A provisioned value, or a record that lapses at its deadline. */
  datatype Record = Stored(value: string) | Timed(deadline: int)

  type Db = map<string, Record>

  predicate Live(db: Db, key: string, now: int) {
    key in db && (db[key].Timed? ==> now < db[key].deadline)
  }

  function Get(db: Db, key: string): Option<string> {
    if key in db && db[key].Stored? then Some(db[key].value) else None
  }

  /** SETEX: the server refuses a time to live that is not positive, and keeps what it had. */
  function SetEx(db: Db, key: string, now: int, ttlSec: int): Db {
    if ttlSec <= 0 then db else db[key := Timed(now + 1000 * ttlSec)]
  }

  class RedisStore {
    /** The configured prefix, applied to a name. */
    const key: KeyName -> string
    var db: Db

    constructor (prefix: string, db: Db)
      ensures this.db == db && forall k :: key(k) == Key(prefix, k)
    {
      this.key := k => Key(prefix, k);
      this.db := db;
    }

    method SetOnline(deviceId: string, ttlSec: int, now: int) returns (ok: bool)
      modifies this
      ensures ok == (ttlSec > 0) && db == SetEx(old(db), key(Online(deviceId)), now, ttlSec)
    {
      ok := ttlSec > 0;
      if ok { db := db[key(Online(deviceId)) := Timed(now + 1000 * ttlSec)]; }
    }

    method SetOffline(deviceId: string)
      modifies this
      ensures db == old(db) - {key(Online(deviceId))}
    {
      db := db - {key(Online(deviceId))};
    }

    method SavePendingWake(deviceId: string, msgId: string, ttlSec: int, now: int) returns (ok: bool)
      modifies this
      ensures ok == (ttlSec > 0)
      ensures db == SetEx(old(db), key(PendingWakeKey(deviceId, msgId)), now, ttlSec)
    {
      ok := ttlSec > 0;
      if ok { db := db[key(PendingWakeKey(deviceId, msgId)) := Timed(now + 1000 * ttlSec)]; }
    }

    method RemovePendingWake(deviceId: string, msgId: string)
      modifies this
      ensures db == old(db) - {key(PendingWakeKey(deviceId, msgId))}
    {
      db := db - {key(PendingWakeKey(deviceId, msgId))};
    }

    method GetLocalKey(deviceId: string) returns (value: Option<string>)
      ensures value == Get(db, key(LocalKey(deviceId)))
    {
      value := Get(db, key(LocalKey(deviceId)));
    }

    method GetDeviceIdByEncryptedId(encryptedId: string) returns (value: Option<string>)
      ensures value == Get(db, key(DeviceIndex(encryptedId)))
    {
      value := Get(db, key(DeviceIndex(encryptedId)));
    }
  }
}
