/** The binary frame of low-power devices and the length-value payload of its authentication request. */
module Codec {
  import opened Bytes
  import opened Crc32

  const VERSION_1: byte := 0x01
  const HEADER_SIZE := 5

  const AUTH_REQ: byte := 0x00
  const AUTH_RESP: byte := 0x01
  const HEARTBEAT: byte := 0x02
  const WAKEUP: byte := 0x03

  const AES_CBC_128_PKCS7: byte := 0x01

  datatype Frame = Frame(version: byte, msgType: byte, flag: byte, size: uint16, payload: seq<byte>)

  // ---- frames ----

  /** The wire form: the header carries the payload length modulo 2^16, whatever the size field says. */
  function Encoded(f: Frame): (data: seq<byte>)
    ensures |data| == HEADER_SIZE + |f.payload|
  {
    [f.version, f.msgType, f.flag] + U16BE(Truncate16(|f.payload|)) + f.payload
  }

  /** The payload length announced by a header. */
  function AnnouncedSize(header: seq<byte>): uint16
    requires |header| >= HEADER_SIZE
  {
    ReadU16BE(header[3], header[4])
  }

  function ParseFrame(data: seq<byte>): (r: Option<Frame>)
    ensures r.Some? <==> |data| >= HEADER_SIZE && |data| == HEADER_SIZE + AnnouncedSize(data)
  {
    if |data| < HEADER_SIZE then None
    else
      var size := AnnouncedSize(data);
      if |data| != HEADER_SIZE + size then None
      else Some(Frame(data[0], data[1], data[2], size, data[HEADER_SIZE..]))
  }

  function MakeFrame(msgType: byte, flag: byte, payload: seq<byte>): Frame {
    Frame(VERSION_1, msgType, flag, Truncate16(|payload|), payload)
  }

  method EncodeFrame(frame: Frame) returns (data: seq<byte>)
    ensures data == Encoded(frame)
  {
    var out := new ByteVector();
    out.PushBack(frame.version);
    out.PushBack(frame.msgType);
    out.PushBack(frame.flag);
    out.WriteU16BE(Truncate16(|frame.payload|));
    out.Append(frame.payload);
    data := out.data;
  }

  /** Octet by octet: version, type, flag, the length with its high octet first, and the payload. */
  lemma EncodedLayout(f: Frame)
    ensures
      var data: seq<int> := Encoded(f);
      && data[0] == f.version && data[1] == f.msgType && data[2] == f.flag
      && 0x100 * data[3] + data[4] == |f.payload| % 0x1_0000
      && data[HEADER_SIZE..] == f.payload
  {}

  /** Parsing an encoded frame succeeds exactly when the payload fits the length field, and gives the frame back. */
  lemma ParseOfEncode(f: Frame)
    ensures ParseFrame(Encoded(f)).Some? <==> |f.payload| <= 0xFFFF
    ensures |f.payload| <= 0xFFFF ==> ParseFrame(Encoded(f)) == Some(f.(size := |f.payload|))
  {
    var data := Encoded(f);
    assert AnnouncedSize(data) == Truncate16(|f.payload|);
    assert data[HEADER_SIZE..] == f.payload;
  }

  /** Encoding a parsed frame gives the original bytes. */
  lemma EncodeOfParse(data: seq<byte>)
    requires ParseFrame(data).Some?
    ensures Encoded(ParseFrame(data).value) == data
    ensures |ParseFrame(data).value.payload| == ParseFrame(data).value.size
  {
    var f := ParseFrame(data).value;
    assert U16BE(Truncate16(|f.payload|)) == [data[3], data[4]];
    assert data == data[..HEADER_SIZE] + data[HEADER_SIZE..];
  }

  /** A frame made for sending survives the wire exactly when its payload fits. */
  lemma MadeFrameRoundTrip(msgType: byte, flag: byte, payload: seq<byte>)
    ensures ParseFrame(Encoded(MakeFrame(msgType, flag, payload))) == Some(MakeFrame(msgType, flag, payload))
       <==> |payload| <= 0xFFFF
  {
    ParseOfEncode(MakeFrame(msgType, flag, payload));
  }

  // ---- the length-value payload ----

  datatype AuthPayload = AuthPayload(iv: seq<byte>, encryptedDevId: seq<byte>, encryptedData: seq<byte>)

  function LVHeader(ivLen: uint16, devIdLen: uint16, dataLen: uint16): (header: seq<byte>)
    ensures |header| == 6
  {
    U16BE(ivLen) + U16BE(devIdLen) + U16BE(dataLen)
  }

  /** Three lengths, each modulo 2^16, then the three fields. */
  function BuiltLV(p: AuthPayload): (data: seq<byte>)
    ensures |data| == 6 + |p.iv| + |p.encryptedDevId| + |p.encryptedData|
  {
    LVHeader(Truncate16(|p.iv|), Truncate16(|p.encryptedDevId|), Truncate16(|p.encryptedData|))
    + p.iv + p.encryptedDevId + p.encryptedData
  }

  /** Octet by octet: the three lengths, high octet first, and the three fields. */
  lemma LVLayout(p: AuthPayload)
    ensures
      var data: seq<int> := BuiltLV(p);
      && 0x100 * data[0] + data[1] == |p.iv| % 0x1_0000
      && 0x100 * data[2] + data[3] == |p.encryptedDevId| % 0x1_0000
      && 0x100 * data[4] + data[5] == |p.encryptedData| % 0x1_0000
      && data[6..] == p.iv + p.encryptedDevId + p.encryptedData
  {
    var header := LVHeader(Truncate16(|p.iv|), Truncate16(|p.encryptedDevId|), Truncate16(|p.encryptedData|));
    FieldsOfConcat(header, p.iv, p.encryptedDevId, p.encryptedData);
    assert BuiltLV(p) == header + (p.iv + p.encryptedDevId + p.encryptedData);
  }

  method BuildAuthPayloadLV(iv: seq<byte>, encryptedDevId: seq<byte>, encryptedData: seq<byte>)
      returns (data: seq<byte>)
    ensures data == BuiltLV(AuthPayload(iv, encryptedDevId, encryptedData))
  {
    var out := new ByteVector();
    out.WriteU16BE(Truncate16(|iv|));
    out.WriteU16BE(Truncate16(|encryptedDevId|));
    out.WriteU16BE(Truncate16(|encryptedData|));
    out.Append(iv);
    out.Append(encryptedDevId);
    out.Append(encryptedData);
    data := out.data;
  }

  function ParsedLV(payload: seq<byte>): (r: Option<AuthPayload>)
  {
    if |payload| < 6 then None
    else
      var ivLen: nat := ReadU16BE(payload[0], payload[1]);
      var devIdLen: nat := ReadU16BE(payload[2], payload[3]);
      var dataLen: nat := ReadU16BE(payload[4], payload[5]);
      if |payload| != 6 + ivLen + devIdLen + dataLen then None
      else
        var middle, last := 6 + ivLen, 6 + ivLen + devIdLen;
        Some(AuthPayload(payload[6..middle], payload[middle..last], payload[last..]))
  }

  method ParseAuthPayloadLV(payload: seq<byte>) returns (r: Option<AuthPayload>)
    ensures r == ParsedLV(payload)
  {
    if |payload| < 6 {
      return None;
    }
    var ivLen: nat := ReadU16BE(payload[0], payload[1]);
    var devIdLen: nat := ReadU16BE(payload[2], payload[3]);
    var dataLen: nat := ReadU16BE(payload[4], payload[5]);
    if |payload| != 6 + ivLen + devIdLen + dataLen {
      return None;
    }
    var pos := 6;
    var iv := payload[pos..pos + ivLen];
    pos := pos + ivLen;
    var devId := payload[pos..pos + devIdLen];
    pos := pos + devIdLen;
    var data := payload[pos..pos + dataLen];
    assert data == payload[6 + ivLen + devIdLen..];
    r := Some(AuthPayload(iv, devId, data));
  }

  /** payload is the length-value form of p, with every length exact. */
  ghost predicate IsLV(payload: seq<byte>, p: AuthPayload) {
    && |p.iv| <= 0xFFFF && |p.encryptedDevId| <= 0xFFFF && |p.encryptedData| <= 0xFFFF
    && payload == BuiltLV(p)
  }

  lemma ReadLVHeader(ivLen: uint16, devIdLen: uint16, dataLen: uint16)
    ensures var h := LVHeader(ivLen, devIdLen, dataLen);
      ReadU16BE(h[0], h[1]) == ivLen && ReadU16BE(h[2], h[3]) == devIdLen && ReadU16BE(h[4], h[5]) == dataLen
  {
    U16ReadBack(ivLen);
    U16ReadBack(devIdLen);
    U16ReadBack(dataLen);
  }

  lemma RebuildLVHeader(h: seq<byte>)
    requires |h| == 6
    ensures LVHeader(ReadU16BE(h[0], h[1]), ReadU16BE(h[2], h[3]), ReadU16BE(h[4], h[5])) == h
  {
    U16RoundTrip(h[0], h[1]);
    U16RoundTrip(h[2], h[3]);
    U16RoundTrip(h[4], h[5]);
    assert h == [h[0], h[1]] + [h[2], h[3]] + [h[4], h[5]];
  }

  lemma FieldsOfConcat(header: seq<byte>, a: seq<byte>, b: seq<byte>, c: seq<byte>)
    requires |header| == 6
    ensures var data := header + a + b + c;
      && data[6..6 + |a|] == a && data[6 + |a|..6 + |a| + |b|] == b && data[6 + |a| + |b|..] == c
      && data[0] == header[0] && data[1] == header[1] && data[2] == header[2]
      && data[3] == header[3] && data[4] == header[4] && data[5] == header[5]
  {}

  /** The parser on a header and three fields: it accepts when the announced lengths add up. */
  lemma ParseParts(header: seq<byte>, p: AuthPayload, ivLen: uint16, devIdLen: uint16, dataLen: uint16)
    requires |header| == 6
    requires ReadU16BE(header[0], header[1]) == ivLen <= |p.iv|
    requires ReadU16BE(header[2], header[3]) == devIdLen <= |p.encryptedDevId|
    requires ReadU16BE(header[4], header[5]) == dataLen <= |p.encryptedData|
    ensures ParsedLV(header + p.iv + p.encryptedDevId + p.encryptedData) ==
      if ivLen == |p.iv| && devIdLen == |p.encryptedDevId| && dataLen == |p.encryptedData| then Some(p) else None
  {
    FieldsOfConcat(header, p.iv, p.encryptedDevId, p.encryptedData);
  }

  /** What the built form of any three fields parses to: themselves exactly when each fits its length, else nothing. */
  lemma ParseOfBuildLV(p: AuthPayload)
    ensures ParsedLV(BuiltLV(p)) ==
      if |p.iv| <= 0xFFFF && |p.encryptedDevId| <= 0xFFFF && |p.encryptedData| <= 0xFFFF then Some(p) else None
  {
    Truncate16Exact(|p.iv|);
    Truncate16Exact(|p.encryptedDevId|);
    Truncate16Exact(|p.encryptedData|);
    var a, b, c := Truncate16(|p.iv|), Truncate16(|p.encryptedDevId|), Truncate16(|p.encryptedData|);
    ReadLVHeader(a, b, c);
    ParseParts(LVHeader(a, b, c), p, a, b, c);
  }

  /** The parser accepts exactly the length-value forms: building what it returned gives the original bytes. */
  lemma ParsedLVIsExact(payload: seq<byte>, p: AuthPayload)
    ensures ParsedLV(payload) == Some(p) <==> IsLV(payload, p)
  {
    if IsLV(payload, p) {
      ParseOfBuildLV(p);
    } else if ParsedLV(payload) == Some(p) {
      RebuildLV(payload, p);
    }
  }

  lemma RebuildLV(payload: seq<byte>, p: AuthPayload)
    requires ParsedLV(payload) == Some(p)
    ensures IsLV(payload, p)
  {
    var header := payload[..6];
    var a, b, c := ReadU16BE(header[0], header[1]), ReadU16BE(header[2], header[3]), ReadU16BE(header[4], header[5]);
    RebuildLVHeader(header);
    SplitAtFields(payload, 6, 6 + |p.iv|, 6 + |p.iv| + |p.encryptedDevId|);
    BuildParts(header, p, a, b, c);
  }

  lemma BuildParts(header: seq<byte>, p: AuthPayload, ivLen: uint16, devIdLen: uint16, dataLen: uint16)
    requires |p.iv| == ivLen && |p.encryptedDevId| == devIdLen && |p.encryptedData| == dataLen
    requires LVHeader(ivLen, devIdLen, dataLen) == header
    ensures BuiltLV(p) == header + p.iv + p.encryptedDevId + p.encryptedData
  {
    Truncate16Exact(|p.iv|);
    Truncate16Exact(|p.encryptedDevId|);
    Truncate16Exact(|p.encryptedData|);
  }

  lemma SplitAtFields(data: seq<byte>, i: nat, j: nat, k: nat)
    requires i <= j <= k <= |data|
    ensures data == data[..i] + data[i..j] + data[j..k] + data[k..]
  {}

  /** Through both layers: the fields come back exactly when the whole payload fits the frame. */
  lemma NestedRoundTrip(msgType: byte, flag: byte, p: AuthPayload)
    ensures
      var r := ParseFrame(Encoded(MakeFrame(msgType, flag, BuiltLV(p))));
      r.Some? && ParsedLV(r.value.payload) == Some(p) <==> 6 + |p.iv| + |p.encryptedDevId| + |p.encryptedData| <= 0xFFFF
  {
    ParseOfEncode(MakeFrame(msgType, flag, BuiltLV(p)));
    ParseOfBuildLV(p);
  }

  // ---- the frames the gateway sends ----

  function HeartbeatFrame(): Frame {
    MakeFrame(HEARTBEAT, 0, [])
  }

  method MakeHeartbeatFrame() returns (data: seq<byte>)
    ensures data == [VERSION_1, HEARTBEAT, 0, 0, 0]
  {
    data := EncodeFrame(MakeFrame(HEARTBEAT, 0, []));
  }

  ghost function WakeupFrame(localKey: seq<byte>): Frame {
    MakeFrame(WAKEUP, 0, U32BE(Crc32Of(localKey)))
  }

  /** The wake frame, octet by octet: the CRC-32 of the key, high octet first, after a header of its own. */
  lemma WakeupLayout(localKey: seq<byte>)
    ensures
      var data: seq<int> := Encoded(WakeupFrame(localKey));
      && |data| == 9 && data[..5] == [1, 3, 0, 0, 4]
      && 0x100_0000 * data[5] + 0x1_0000 * data[6] + 0x100 * data[7] + data[8] == Crc32Of(localKey)
  {
    U32Value(Crc32Of(localKey));
  }

  method MakeWakeupFrame(localKey: seq<byte>) returns (data: seq<byte>)
    ensures data == Encoded(WakeupFrame(localKey))
  {
    var c := ComputeCrc32(localKey);
    var payload := new ByteVector();
    payload.WriteU32BE(c);
    data := EncodeFrame(MakeFrame(WAKEUP, 0, payload.data));
  }

  /** Local keys of one length that differ only inside four consecutive octets get different wake frames. */
  lemma WakeupFramesDiffer(before: seq<byte>, x: seq<byte>, y: seq<byte>, after: seq<byte>)
    requires |x| == |y| <= 4 && x != y
    ensures Encoded(WakeupFrame(before + x + after)) != Encoded(WakeupFrame(before + y + after))
  {
    OctetBurstDetected(before, x, y, after);
    var c, d := Crc32Of(before + x + after), Crc32Of(before + y + after);
    if U32BE(c) == U32BE(d) {
      U32IsInjective(c, d);
      assert false;
    }
    assert Encoded(MakeFrame(WAKEUP, 0, U32BE(c)))[HEADER_SIZE..] == U32BE(c);
    assert Encoded(MakeFrame(WAKEUP, 0, U32BE(d)))[HEADER_SIZE..] == U32BE(d);
  }
}
