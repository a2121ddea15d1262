/** The "key=value,key=value" authorization string, and the signature computed over it. */
module AuthFields {
  import opened Bytes
  import opened Text

  // ---- the field scanner ----

  /** The text before the first '=' of the segment is the key. */
  predicate Matches(segment: string, key: string) {
    var pos := Find(segment, '=');
    pos < |segment| && segment[..pos] == key
  }

  function ValueIn(segment: string): string
    requires '=' in segment
  {
    segment[Find(segment, '=') + 1..]
  }

  /** The scanner as a function: the value of the first matching segment, or nothing. */
  function FieldOf(s: string, key: string): string {
    if s == "" then ""
    else
      var end := Find(s, ',');
      if Matches(s[..end], key) then ValueIn(s[..end])
      else if end == |s| then ""
      else FieldOf(s[end + 1..], key)
  }

  /** The loop takes segments off the stream, as getline does. */
  method GetAuthField(authorization: string, key: string) returns (value: string)
    ensures value == FieldOf(authorization, key)
  {
    var stream := authorization;
    while stream != ""
      invariant FieldOf(stream, key) == FieldOf(authorization, key)
      decreases |stream|
    {
      var end := Find(stream, ',');
      var item := stream[..end];
      var pos := Find(item, '=');
      if pos < |item| && item[..pos] == key {
        return item[pos + 1..];
      }
      if end == |stream| {
        return "";
      }
      stream := stream[end + 1..];
    }
    value := "";
  }

  lemma FieldOfCons(first: string, rest: string, key: string)
    requires ',' !in first
    ensures FieldOf(first + "," + rest, key) == if Matches(first, key) then ValueIn(first) else FieldOf(rest, key)
  {
    Cut(first, ',', rest);
  }

  lemma FieldOfLast(last: string, key: string)
    requires ',' !in last
    ensures FieldOf(last, key) == if Matches(last, key) then ValueIn(last) else ""
  {
    assert last[..|last|] == last;
  }

  // ---- the reference reading ----

  function Join(segments: seq<string>): string
    requires segments != []
  {
    if |segments| == 1 then segments[0] else segments[0] + "," + Join(segments[1..])
  }

  /** The segments of s: comma-free strings that s joins with commas. */
  ghost predicate IsSplit(s: string, segments: seq<string>) {
    && segments != [] && Join(segments) == s
    && forall n | 0 <= n < |segments| :: ',' !in segments[n]
  }

  /** The value of the first segment that matches; empty when none does. */
  ghost predicate IsFieldValue(segments: seq<string>, key: string, v: string) {
    || (exists n :: IsFirstMatch(segments, key, n) && v == ValueIn(segments[n]))
    || (v == "" && forall n | 0 <= n < |segments| :: !Matches(segments[n], key))
  }

  ghost predicate IsFirstMatch(segments: seq<string>, key: string, n: int) {
    && 0 <= n < |segments| && Matches(segments[n], key)
    && forall m | 0 <= m < n :: !Matches(segments[m], key)
  }

  /** Every string has segments. */
  lemma {:induction false} SplitExists(s: string) returns (segments: seq<string>)
    ensures IsSplit(s, segments)
    decreases |s|
  {
    var end := Find(s, ',');
    if end == |s| {
      segments := [s];
      assert s[..end] == s;
    } else {
      var rest := SplitExists(s[end + 1..]);
      segments := [s[..end]] + rest;
      assert segments[1..] == rest;
      assert s == s[..end] + "," + s[end + 1..];
    }
  }

  lemma FieldValueOfRest(segments: seq<string>, key: string, v: string)
    requires |segments| > 1 && !Matches(segments[0], key)
    ensures IsFieldValue(segments, key, v) <==> IsFieldValue(segments[1..], key, v)
  {
    var rest := segments[1..];
    if n :| IsFirstMatch(rest, key, n) && v == ValueIn(rest[n]) {
      assert IsFirstMatch(segments, key, n + 1);
    }
    if n :| IsFirstMatch(segments, key, n) && v == ValueIn(segments[n]) {
      assert forall m | 0 <= m < n - 1 :: rest[m] == segments[m + 1];
      assert IsFirstMatch(rest, key, n - 1);
    }
    if forall n | 0 <= n < |rest| :: !Matches(rest[n], key) {
      assert forall n | 1 <= n < |segments| :: segments[n] == rest[n - 1];
    }
  }

  /** The scanner returns the reference value of the segments, and nothing else is that value. */
  lemma {:induction false} FieldOfIsExact(s: string, segments: seq<string>, key: string, v: string)
    requires IsSplit(s, segments)
    ensures IsFieldValue(segments, key, v) <==> v == FieldOf(s, key)
    decreases |segments|
  {
    if Matches(segments[0], key) {
      assert IsFirstMatch(segments, key, 0);
    }
    if |segments| == 1 {
      FieldOfLast(segments[0], key);
    } else {
      FieldOfCons(segments[0], Join(segments[1..]), key);
      if !Matches(segments[0], key) {
        FieldValueOfRest(segments, key, v);
        FieldOfIsExact(Join(segments[1..]), segments[1..], key, v);
      }
    }
  }

  // ---- requests and their signatures ----

  /** std::string HMAC over key and data, in base64; nothing is assumed about it. */
  type Signer = (string, string) -> string

  datatype AuthRequest = AuthRequest(authorization: string, signature: string, time: string, random: string)

  /** The decrypted request document, already parsed: accepted when no part is empty. */
  function ParseAuthRequest(authorization: string, signature: string): Option<AuthRequest> {
    var time, random := FieldOf(authorization, "time"), FieldOf(authorization, "random");
    if authorization == "" || signature == "" || time == "" || random == "" then None
    else Some(AuthRequest(authorization, signature, time, random))
  }

  function Signature(hmac: Signer, devId: string, localKey: string, time: string, random: string): string {
    hmac(localKey, devId + ":" + time + ":" + random)
  }

  predicate VerifyAuthRequest(hmac: Signer, req: AuthRequest, devId: string, localKey: string) {
    Signature(hmac, devId, localKey, req.time, req.random) == req.signature
  }

  /** The authorization string of a response, at a time in seconds and with a base64 random. */
  function ResponseAuthorization(nowSec: int, serverRandom: string): string {
    ("time" + "=" + ToString(nowSec)) + "," + ("random" + "=" + serverRandom)
  }

  lemma ValueAfterKey(key: string, v: string)
    requires '=' !in key
    ensures Matches(key + "=" + v, key) && ValueIn(key + "=" + v) == v
    ensures forall other :: other != key ==> !Matches(key + "=" + v, other)
  {
    Cut(key, '=', v);
  }

  lemma FirstField(key: string, v: string, rest: string)
    requires '=' !in key && ',' !in key && ',' !in v
    ensures FieldOf((key + "=" + v) + "," + rest, key) == v
  {
    ValueAfterKey(key, v);
    FieldOfCons(key + "=" + v, rest, key);
  }

  lemma SkippedField(key: string, v: string, rest: string, other: string)
    requires '=' !in key && ',' !in key && ',' !in v && other != key
    ensures FieldOf((key + "=" + v) + "," + rest, other) == FieldOf(rest, other)
  {
    ValueAfterKey(key, v);
    FieldOfCons(key + "=" + v, rest, other);
  }

  lemma UpToComma(v: string)
    ensures v[..Find(v, ',')] == v <==> ',' !in v
  {}

  /** The built string gives its time back always, and its random (padding included) exactly when that has no comma. */
  lemma ResponseFields(nowSec: int, serverRandom: string)
    ensures FieldOf(ResponseAuthorization(nowSec, serverRandom), "time") == ToString(nowSec)
    ensures FieldOf(ResponseAuthorization(nowSec, serverRandom), "random") == serverRandom <==> ',' !in serverRandom
  {
    FirstField("time", ToString(nowSec), "random" + "=" + serverRandom);
    assert "time" != "random" by { assert "time"[0] != "random"[0]; }
    SkippedField("time", ToString(nowSec), "random" + "=" + serverRandom, "random");
    FieldOfAssignment("random", serverRandom);
    UpToComma(serverRandom);
  }

  lemma FieldOfAssignment(key: string, v: string)
    requires '=' !in key && ',' !in key
    ensures FieldOf(key + "=" + v, key) == v[..Find(v, ',')]
  {
    var end := Find(v, ',');
    var first := key + "=" + v[..end];
    ValueAfterKey(key, v[..end]);
    if end == |v| {
      assert v[..end] == v;
      FieldOfLast(first, key);
    } else {
      var rest := v[end + 1..];
      FieldOfCons(first, rest, key);
      SplitValue(key, v, end);
    }
  }

  lemma SplitValue(key: string, v: string, end: nat)
    requires end < |v| && v[end] == ','
    ensures key + "=" + v == (key + "=" + v[..end]) + "," + v[end + 1..]
  {}

  /** Whatever the HMAC: a request that carries the response's authorization verifies exactly when it carries
      the response's signature. */
  lemma ResponseVerifies(hmac: Signer, devId: string, localKey: string, nowSec: int, serverRandom: string,
      signature: string)
    requires ',' !in serverRandom && serverRandom != "" && signature != ""
    ensures
      var r := ParseAuthRequest(ResponseAuthorization(nowSec, serverRandom), signature);
      && r.Some?
      && (VerifyAuthRequest(hmac, r.value, devId, localKey)
          <==> signature == Signature(hmac, devId, localKey, ToString(nowSec), serverRandom))
  {
    ResponseFields(nowSec, serverRandom);
  }
}
