/** The MQTT topics that the gateway builds from device ids, and the ids it finds in topics. */
module Names {
  import opened Text

  // ---- MQTT topics ----

  const MARKER := "/devices/"

  function MakeTopic(prefix: string, suffix: string): string {
    prefix + "/" + suffix
  }

  function MakeDeviceTopic(prefix: string, deviceId: string, suffix: string): string {
    MakeTopic(prefix, "devices/" + deviceId + "/" + suffix)
  }

  predicate OccursAt(s: string, pattern: string, i: int) {
    0 <= i && i + |pattern| <= |s| && s[i..i + |pattern|] == pattern
  }

  /** std::string::find for a pattern: the first position at or after from, or the length. */
  function FindPattern(s: string, pattern: string, from: nat): (i: nat)
    requires from <= |s|
    ensures from <= i <= |s|
    ensures i < |s| ==> OccursAt(s, pattern, i)
    ensures forall j | from <= j < i :: !OccursAt(s, pattern, j)
    decreases |s| - from
  {
    if from == |s| || OccursAt(s, pattern, from) then from else FindPattern(s, pattern, from + 1)
  }

  function ExtractDeviceId(topic: string): string {
    var at := FindPattern(topic, MARKER, 0);
    if at == |topic| then ""
    else
      var start := at + |MARKER|;
      var end := start + Find(topic[start..], '/');
      if end == |topic| || end <= start then "" else topic[start..end]
  }

  /** No marker in the prefix, and none that would begin in it and end in the separator after it. */
  predicate PlainPrefix(prefix: string) {
    FindPattern(prefix + "/", MARKER, 0) == |prefix| + 1
  }

  lemma TopicShape(prefix: string, deviceId: string, suffix: string)
    ensures MakeDeviceTopic(prefix, deviceId, suffix) == prefix + MARKER + deviceId + "/" + suffix
  {
    assert MARKER == "/" + "devices/";
  }

  lemma FirstOccurrence(s: string, pattern: string, at: nat)
    requires pattern != "" && OccursAt(s, pattern, at)
    requires forall j | 0 <= j < at :: !OccursAt(s, pattern, j)
    ensures FindPattern(s, pattern, 0) == at
  {}

  /** What comes back is the text between the first marker and the next slash. */
  lemma ExtractAt(topic: string, at: nat)
    requires OccursAt(topic, MARKER, at)
    requires forall j | 0 <= j < at :: !OccursAt(topic, MARKER, j)
    ensures
      var tail := topic[at + |MARKER|..];
      ExtractDeviceId(topic) == if '/' in tail then tail[..Find(tail, '/')] else ""
  {
    FirstOccurrence(topic, MARKER, at);
    var start := at + |MARKER|;
    var cut := Find(topic[start..], '/');
    assert topic[start..start + cut] == topic[start..][..cut];
  }

  lemma FindInPrefix(tail: string, rest: string, c: char)
    requires c in tail
    ensures Find(tail + rest, c) == Find(tail, c)
    ensures (tail + rest)[..Find(tail, c)] == tail[..Find(tail, c)]
  {
    var cut := Find(tail, c);
    assert (tail + rest)[..cut] == tail[..cut];
    FindIsFirst(tail + rest, c, cut);
  }

  /** The id is read from a common beginning that holds the first marker and the slash that ends the id. */
  lemma ExtractWithin(common: string, rest: string, at: nat)
    requires OccursAt(common, MARKER, at) && '/' in common[at + |MARKER|..]
    requires forall j | 0 <= j < at :: !OccursAt(common + rest, MARKER, j)
    ensures
      var tail := common[at + |MARKER|..];
      ExtractDeviceId(common + rest) == tail[..Find(tail, '/')]
  {
    var topic, tail := common + rest, common[at + |MARKER|..];
    assert topic[at..at + |MARKER|] == common[at..at + |MARKER|];
    ExtractAt(topic, at);
    assert topic[at + |MARKER|..] == tail + rest;
    FindInPrefix(tail, rest, '/');
  }

  lemma TailAfterMarker(before: string, id: string)
    ensures OccursAt(before + MARKER + id + "/", MARKER, |before|)
    ensures (before + MARKER + id + "/")[|before| + |MARKER|..] == id + "/"
  {}

  lemma ExtractBetween(before: string, id: string, after: string)
    requires '/' !in id
    requires forall j | 0 <= j < |before| :: !OccursAt(before + MARKER + id + "/" + after, MARKER, j)
    ensures ExtractDeviceId(before + MARKER + id + "/" + after) == id
  {
    TailAfterMarker(before, id);
    Cut(id, '/', "");
    assert id + ['/'] + "" == id + "/";
    ExtractWithin(before + MARKER + id + "/", after, |before|);
  }

  /** A marker that begins inside the prefix lies in the prefix and its separator. */
  lemma MarkerInPrefix(prefix: string, rest: string, j: nat)
    requires j < |prefix|
    ensures OccursAt(prefix + MARKER + rest, MARKER, j) <==> OccursAt(prefix + "/", MARKER, j)
  {
    var s, p := prefix + MARKER + rest, prefix + "/";
    assert s[..|p|] == p;
    if j + |MARKER| <= |p| {
      assert s[j..j + |MARKER|] == p[j..j + |MARKER|];
    } else {
      // the separator would have to be one of the inner, slash-free characters of the marker
      var k := |prefix| - j;
      assert 0 < k < 8 && s[|prefix|] == '/' && MARKER[k] != '/';
      assert j + |MARKER| <= |s| ==> s[j..j + |MARKER|][k] == s[|prefix|];
    }
  }

  /** Over a plain prefix the id comes back exactly when it has no slash. */
  lemma ExtractInvertsMake(prefix: string, deviceId: string, suffix: string)
    requires PlainPrefix(prefix)
    ensures ExtractDeviceId(MakeDeviceTopic(prefix, deviceId, suffix)) == deviceId <==> '/' !in deviceId
  {
    var cut := Find(deviceId, '/');
    var id := deviceId[..cut];
    var after := if cut == |deviceId| then suffix else deviceId[cut + 1..] + "/" + suffix;
    var topic := MakeDeviceTopic(prefix, deviceId, suffix);
    TopicShape(prefix, deviceId, suffix);
    assert topic == prefix + MARKER + (deviceId + "/" + suffix);
    assert deviceId + "/" + suffix == id + "/" + after;
    assert topic == prefix + MARKER + (id + "/" + after);
    forall j | 0 <= j < |prefix|
      ensures !OccursAt(topic, MARKER, j)
    {
      MarkerInPrefix(prefix, id + "/" + after, j);
    }
    assert topic == prefix + MARKER + id + "/" + after;
    ExtractBetween(prefix, id, after);
  }

  /** Any other prefix swallows the id: what comes back does not depend on it. */
  lemma OtherPrefixIgnoresId(prefix: string, a: string, b: string, suffix: string)
    requires !PlainPrefix(prefix)
    ensures ExtractDeviceId(MakeDeviceTopic(prefix, a, suffix)) == ExtractDeviceId(MakeDeviceTopic(prefix, b, suffix))
  {
    var at := FindPattern(prefix + "/", MARKER, 0);
    TopicShape(prefix, a, suffix);
    TopicShape(prefix, b, suffix);
    assert prefix + MARKER + a + "/" + suffix == prefix + MARKER + (a + "/" + suffix);
    assert prefix + MARKER + b + "/" + suffix == prefix + MARKER + (b + "/" + suffix);
    OwnMarker(prefix, a + "/" + suffix, at);
    OwnMarker(prefix, b + "/" + suffix, at);
  }

  /** With a marker in the prefix, the extracted text lies in the prefix, or is the word "devices". */
  lemma OwnMarker(prefix: string, rest: string, at: nat)
    requires at == FindPattern(prefix + "/", MARKER, 0) && at < |prefix| + 1
    ensures at + |MARKER| <= |prefix + MARKER|
    ensures
      var tail := (prefix + MARKER)[at + |MARKER|..];
      ExtractDeviceId(prefix + MARKER + rest) == tail[..Find(tail, '/')]
  {
    assert at + |MARKER| <= |prefix| + 1;
    var common := prefix + MARKER;
    assert common[at..at + |MARKER|] == (prefix + "/")[at..at + |MARKER|];
    var tail := common[at + |MARKER|..];
    assert tail[|tail| - 1] == '/';
    forall j | 0 <= j < at
      ensures !OccursAt(common + rest, MARKER, j)
    {
      MarkerInPrefix(prefix, rest, j);
    }
    ExtractWithin(common, rest, at);
  }

  /** The ids that survive the topic are all slash-free ids exactly when the prefix is plain. */
  lemma PlainPrefixIsExact(prefix: string, suffix: string)
    ensures PlainPrefix(prefix) <==>
      forall id | id != "" && '/' !in id :: ExtractDeviceId(MakeDeviceTopic(prefix, id, suffix)) == id
  {
    if PlainPrefix(prefix) {
      forall id | id != "" && '/' !in id
        ensures ExtractDeviceId(MakeDeviceTopic(prefix, id, suffix)) == id
      {
        ExtractInvertsMake(prefix, id, suffix);
      }
    } else {
      OtherPrefixIgnoresId(prefix, "a", "b", suffix);
      assert '/' !in "a" && '/' !in "b" && "a" != "b";
    }
  }

  /** Plain means: "/devices/" does not occur in the prefix, and the prefix does not end in "/devices". */
  lemma PlainPrefixMeaning(prefix: string)
    ensures PlainPrefix(prefix) <==>
      (forall i :: !OccursAt(prefix, MARKER, i)) && !OccursAt(prefix, "/devices", |prefix| - 8)
  {
    var p := prefix + "/";
    if at: nat :| at < |p| && OccursAt(p, MARKER, at) {
      if at + 9 <= |prefix| {
        assert prefix[at..at + 9] == p[at..at + 9];
        assert OccursAt(prefix, MARKER, at);
      } else {
        assert prefix[at..at + 8] == p[at..at + 9][..8];
        assert MARKER[..8] == "/devices";
      }
      assert !PlainPrefix(prefix);
    } else {
      if i :| OccursAt(prefix, MARKER, i) {
        assert p[i..i + 9] == prefix[i..i + 9];
        assert OccursAt(p, MARKER, i);
        assert false;
      }
      if OccursAt(prefix, "/devices", |prefix| - 8) {
        var i := |prefix| - 8;
        assert p[i..i + 9] == prefix[i..i + 8] + "/";
        assert OccursAt(p, MARKER, i);
        assert false;
      }
    }
  }
}
