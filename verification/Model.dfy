/** The entities the gateway's parts share. Times are in milliseconds. */
module Model {
  import opened Bytes

  /** A session object, named by number. */
  type Sid = nat

  /** The configuration, and how the store spells a name. */
  datatype Config = Config(
    heartbeatDefaultSec: int,
    idleTimeoutSec: int,
    devDefaultSecret: string,
    ackTimeoutMs: int,
    maxRetry: int,
    expireMs: int,
    key: KeyName -> string
  )

  // ---- names in the store ----

  datatype KeyName =
    | Secret(deviceId: string)
    | LocalKey(deviceId: string)
    | DeviceIndex(encryptedId: string)
    | Online(deviceId: string)
    | PendingWakeKey(deviceId: string, msgId: string)

  predicate Plain(s: string) {
    '\0' !in s
  }

  /** Over NUL-free device ids and colon-free, NUL-free message ids, every name is its own key. */
  predicate PlainName(k: KeyName) {
    match k
    case Secret(d) => Plain(d)
    case LocalKey(d) => Plain(d)
    case DeviceIndex(e) => Plain(e)
    case Online(d) => Plain(d)
    case PendingWakeKey(d, m) => Plain(d) && Plain(m) && ':' !in m
  }

  /** Plain names get keys of their own. */
  ghost predicate Distinguishes(key: KeyName -> string) {
    forall j, k | PlainName(j) && PlainName(k) && key(j) == key(k) :: j == k
  }

  predicate SameKind(j: KeyName, k: KeyName) {
    && j.Secret? == k.Secret? && j.LocalKey? == k.LocalKey? && j.DeviceIndex? == k.DeviceIndex?
    && j.Online? == k.Online? && j.PendingWakeKey? == k.PendingWakeKey?
  }

  /** Names of different families never share a key, plain or not. */
  ghost predicate SeparatesFamilies(key: KeyName -> string) {
    forall j, k | key(j) == key(k) :: SameKind(j, k)
  }

  datatype SessionProtocol = UNKNOWN | JSON_LINE | LOWPOWER

  datatype DeviceState = DeviceState(
    deviceId: string,
    protocol: string,
    devState: string,
    battery: int,
    online: bool,
    loginTime: int,
    lastHeartbeat: int
  )

  /** What the states map inserts for a missing key. */
  const BLANK_STATE := DeviceState("", "", "unknown", -1, false, 0, 0)

  /** The JSON documents the gateway sends; the last one only stands for a binary command in the store. */
  datatype Message =
    | Error(code: string)
    | LoginAck(result: int, heartbeat: int, idleTimeout: int)
    | HeartbeatAck(nextHeartbeat: int)
    | TaskDoneAck(taskId: string)
    | HostSleepAck
    | Wake(sequence: int, msgId: string, cmd: string, params: string, expireMs: int)
    | LowPowerWake(msgId: string)

  /** One buffer handed to a session's write strand. */
  datatype Buffer = Line(message: Message) | Raw(data: seq<byte>)

  datatype Status = Dispatched | Retrying(count: int) | Acked | Done | Failed(retries: int)

  /** The observable history: buffers posted to sessions, with the command that caused them, and command events. */
  datatype Note =
    | Posted(sid: Sid, buffer: Buffer, cause: Option<string>)
    | Published(at: int, msgId: string, status: Status)

  datatype PendingWake = PendingWake(
    deviceId: string,
    msgId: string,
    cmd: string,
    payload: Message,
    session: Sid,
    protocol: SessionProtocol,
    retryCount: int,
    nextRetry: int
  )

  /** A command to dispatch: two readings of the wall clock, the first for the id, the second for the document. */
  datatype Call = Call(deviceId: string, cmd: string, params: string, wall: int, stamp: int)

  /** Integer division of C++, toward zero. */
  function TruncatedDiv(a: int, b: int): int
    requires b > 0
  {
    if a >= 0 then a / b else -(-a / b)
  }

  /** A string as the octets of its characters. */
  function Octets(s: string): (b: seq<byte>)
    ensures |b| == |s|
  {
    if s == "" then [] else Octets(s[..|s| - 1]) + [s[|s| - 1] as int % 0x100]
  }

  /** Octets as the characters of a string. */
  function Characters(b: seq<byte>): (s: string)
    ensures |s| == |b|
  {
    if b == [] then "" else Characters(b[..|b| - 1]) + [b[|b| - 1] as char]
  }

  lemma {:induction false} OctetAt(s: string, i: nat)
    requires i < |s|
    ensures Octets(s)[i] == s[i] as int % 0x100
  {
    var n := |s| - 1;
    if i < n { OctetAt(s[..n], i); }
  }

  lemma {:induction false} CharacterAt(b: seq<byte>, i: nat)
    requires i < |b|
    ensures Characters(b)[i] == b[i] as char
  {
    var n := |b| - 1;
    if i < n { CharacterAt(b[..n], i); }
  }

  /** A string of octets, as std::string holds them. */
  predicate IsBytes(s: string) {
    forall i | 0 <= i < |s| :: s[i] as int < 0x100
  }

  lemma OctetsOfCharacters(b: seq<byte>)
    ensures Octets(Characters(b)) == b && IsBytes(Characters(b))
  {
    forall i | 0 <= i < |b|
      ensures Octets(Characters(b))[i] == b[i] && Characters(b)[i] as int < 0x100
    {
      CharacterAt(b, i);
      OctetAt(Characters(b), i);
    }
  }

  lemma CharactersOfOctets(s: string)
    ensures Characters(Octets(s)) == s <==> IsBytes(s)
  {
    forall i | 0 <= i < |s|
      ensures Characters(Octets(s))[i] == (s[i] as int % 0x100) as char
    {
      OctetAt(s, i);
      CharacterAt(Octets(s), i);
    }
    if Characters(Octets(s)) == s {
      forall i | 0 <= i < |s|
        ensures s[i] as int < 0x100
      {
        assert s[i] == Characters(Octets(s))[i];
      }
    }
  }

  lemma DivisionMeaning(n: nat, b: int)
    requires b > 0
    ensures n / b >= 0 && b * (n / b) <= n < b * (n / b) + b
  {
    assert n == b * (n / b) + n % b;
  }

  /** The quotient is that of the magnitudes, with the sign of the dividend. */
  lemma TruncatedDivMeaning(a: int, b: int)
    requires b > 0
    ensures
      var q := TruncatedDiv(a, b);
      && (a >= 0 ==> q >= 0 && b * q <= a < b * q + b)
      && (a < 0 ==> q <= 0 && b * q - b < a <= b * q)
  {
    if a >= 0 {
      DivisionMeaning(a, b);
    } else {
      DivisionMeaning(-a, b);
      NegatedProduct(b, -a / b);
    }
  }

  lemma NegatedProduct(b: int, n: int)
    ensures b * -n == -(b * n)
  {}
}
