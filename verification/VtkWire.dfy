/** The Vendotek VTK wire format: TLV messages, and the reassembly of frames from a TCP byte stream. */
module VtkWire {
  import opened Wrappers

  type Byte = x: int | 0 <= x < 256
  type Bytes = seq<Byte>

  datatype WireError =
    | BadTag | ValueTooLong | MessageTooLong
    | IncompleteHeader | IncompleteValue
    | BadAmount

  const REQUEST_DIRECTION: Bytes := [0x96, 0xfb]
  const RESPONSE_DIRECTION: Bytes := [0x97, 0xfb]
  const MAX_UINT32: nat := 0xffff_ffff
  const MAX_SAFE_INTEGER: nat := 0x1f_ffff_ffff_ffff

  // ----- text -----

  /** Writing a string as "ascii" keeps the low byte of each character. */
  function EncodeAscii(s: string): Bytes {
    seq(|s|, k requires 0 <= k < |s| => s[k] as int % 256)
  }

  /** Reading it back clears the high bit. */
  function DecodeAscii(bytes: Bytes): string {
    seq(|bytes|, k requires 0 <= k < |bytes| => (bytes[k] % 128) as char)
  }

  predicate SevenBit(s: string) {
    forall k :: 0 <= k < |s| ==> s[k] as int < 128
  }

  lemma AsciiRoundTrip(s: string)
    ensures DecodeAscii(EncodeAscii(s)) == s <==> SevenBit(s)
  {
    var back := DecodeAscii(EncodeAscii(s));
    if SevenBit(s) {
      assert back == s;
    } else {
      var k :| 0 <= k < |s| && s[k] as int >= 128;
      assert back[k] != s[k];
    }
  }

  // ----- TLV -----

  datatype Field = Field(tag: Byte, value: Bytes)

  function Tlv(tag: int, value: Bytes): Result<Bytes, WireError> {
    if !(0 <= tag <= 0xff) then Err(BadTag)
    else if |value| > 0xff then Err(ValueTooLong)
    else Ok([tag, |value|] + value)
  }

  function Concat(parts: seq<Bytes>): Bytes {
    if parts == [] then [] else parts[0] + Concat(parts[1..])
  }

  function BuildMessage(msgName: string, extraFields: seq<Bytes>): Result<Bytes, WireError> {
    match Tlv(0x01, EncodeAscii(msgName))
    case Err(e) => Err(e)
    case Ok(name) =>
      var body := REQUEST_DIRECTION + name + Concat(extraFields);
      if |body| > 0xffff then Err(MessageTooLong)
      else Ok([|body| / 256, |body| % 256] + body)
  }

  function ReadUInt16(data: Bytes): nat
    requires |data| >= 2
  {
    var high: int := data[0];
    high * 256 + data[1]
  }

  predicate IsDirection(two: Bytes) {
    two == REQUEST_DIRECTION || two == RESPONSE_DIRECTION
  }

  function FieldsOffset(data: Bytes): (offset: nat)
    ensures offset <= |data|
  {
    if |data| >= 4 && ReadUInt16(data) == |data| - 2 && IsDirection(data[2..4]) then 4
    else if |data| >= 2 && IsDirection(data[0..2]) then 2
    else 0
  }

  /** The TLV reading of a byte string, as a list of fields in order. */
  function DecodeTlvs(data: Bytes): Result<seq<Field>, WireError>
    decreases |data|
  {
    if data == [] then Ok([])
    else if |data| < 2 then Err(IncompleteHeader)
    else if 2 + data[1] > |data| then Err(IncompleteValue)
    else
      Prepend([Field(data[0], data[2..2 + data[1]])], DecodeTlvs(data[2 + data[1]..]))
  }

  function Prepend(fields: seq<Field>, rest: Result<seq<Field>, WireError>): Result<seq<Field>, WireError> {
    match rest
    case Err(e) => Err(e)
    case Ok(more) => Ok(fields + more)
  }

  /** The concatenation of complete TLVs. */
  function EncodeTlvs(fields: seq<Field>): Bytes
    requires forall k :: 0 <= k < |fields| ==> |fields[k].value| <= 0xff
  {
    if fields == [] then []
    else TlvBytes(fields[0]) + EncodeTlvs(fields[1..])
  }

  /** Later fields overwrite earlier ones with the same tag. */
  function LastWins(fields: seq<Field>): map<Byte, string> {
    if fields == [] then map[]
    else LastWins(fields[..|fields| - 1])[fields[|fields| - 1].tag := DecodeAscii(fields[|fields| - 1].value)]
  }

  lemma LastWinsOneMore(fields: seq<Field>, last: Field)
    ensures LastWins(fields + [last]) == LastWins(fields)[last.tag := DecodeAscii(last.value)]
  {
    assert (fields + [last])[..|fields|] == fields;
  }

  lemma {:induction false} LastWinsAt(fields: seq<Field>, k: nat)
    requires k < |fields| && forall j :: k < j < |fields| ==> fields[j].tag != fields[k].tag
    ensures fields[k].tag in LastWins(fields) && LastWins(fields)[fields[k].tag] == DecodeAscii(fields[k].value)
  {
    if k < |fields| - 1 {
      LastWinsAt(fields[..|fields| - 1], k);
    }
  }

  lemma {:induction false} LastWinsTags(fields: seq<Field>)
    ensures LastWins(fields).Keys == set k | 0 <= k < |fields| :: fields[k].tag
  {
    if fields != [] {
      var front, last := fields[..|fields| - 1], fields[|fields| - 1];
      LastWinsTags(front);
      assert fields == front + [last];
      LastWinsOneMore(front, last);
    }
  }

  lemma Assoc<T>(a: seq<T>, b: seq<T>, c: seq<T>)
    ensures (a + b) + c == a + (b + c)
  {
  }

  lemma PrependTwice(xs: seq<Field>, ys: seq<Field>, rest: Result<seq<Field>, WireError>)
    ensures Prepend(xs, Prepend(ys, rest)) == Prepend(xs + ys, rest)
    ensures Prepend([], rest) == rest
  {
    if rest.Ok? {
      Assoc(xs, ys, rest.value);
      assert [] + rest.value == rest.value;
    }
  }

  function TlvBytes(field: Field): Bytes
    requires |field.value| <= 0xff
  {
    [field.tag, |field.value|] + field.value
  }

  lemma SplitFirstTlv(data: Bytes)
    requires |data| >= 2 && 2 + data[1] <= |data|
    ensures data == TlvBytes(Field(data[0], data[2..2 + data[1]])) + data[2 + data[1]..]
  {
  }

  lemma DecodeOne(field: Field, rest: Bytes)
    requires |field.value| <= 0xff
    ensures DecodeTlvs(TlvBytes(field) + rest) == Prepend([field], DecodeTlvs(rest))
  {
    var data, n := TlvBytes(field) + rest, |field.value|;
    assert data[2..2 + n] == field.value;
    assert data[2 + n..] == rest;
  }

  lemma EncodeOne(field: Field, rest: seq<Field>)
    requires |field.value| <= 0xff && forall k :: 0 <= k < |rest| ==> |rest[k].value| <= 0xff
    ensures EncodeTlvs([field] + rest) == TlvBytes(field) + EncodeTlvs(rest)
  {
    assert ([field] + rest)[1..] == rest;
  }

  lemma {:induction false} DecodeThenEncode(data: Bytes)
    requires DecodeTlvs(data).Ok?
    ensures forall k :: 0 <= k < |DecodeTlvs(data).value| ==> |DecodeTlvs(data).value[k].value| <= 0xff
    ensures EncodeTlvs(DecodeTlvs(data).value) == data
    decreases |data|
  {
    if data != [] {
      var first, rest := Field(data[0], data[2..2 + data[1]]), data[2 + data[1]..];
      SplitFirstTlv(data);
      DecodeOne(first, rest);
      DecodeThenEncode(rest);
      EncodeOne(first, DecodeTlvs(rest).value);
    }
  }

  lemma {:induction false} EncodeThenDecode(fields: seq<Field>)
    requires forall k :: 0 <= k < |fields| ==> |fields[k].value| <= 0xff
    ensures DecodeTlvs(EncodeTlvs(fields)) == Ok(fields)
  {
    if fields != [] {
      EncodeThenDecode(fields[1..]);
      DecodeOne(fields[0], EncodeTlvs(fields[1..]));
      assert fields == [fields[0]] + fields[1..];
    }
  }

  /** Reading succeeds exactly on concatenations of complete TLVs, each of which has one reading. */
  lemma DecodesExactlyTlvs(data: Bytes)
    ensures DecodeTlvs(data).Ok? <==>
              exists fields: seq<Field> ::
                (forall k :: 0 <= k < |fields| ==> |fields[k].value| <= 0xff) && EncodeTlvs(fields) == data
  {
    if DecodeTlvs(data).Ok? {
      DecodeThenEncode(data);
    }
    if fields: seq<Field> :|
         (forall k :: 0 <= k < |fields| ==> |fields[k].value| <= 0xff) && EncodeTlvs(fields) == data {
      EncodeThenDecode(fields);
    }
  }

  /** The offset loop reads what the field list says, the last field with a tag winning. */
  method ParseFields(data: Bytes) returns (parsed: Result<map<Byte, string>, WireError>)
    ensures parsed == ParsedFields(data)
  {
    var fields: map<Byte, string> := map[];
    var offset := FieldsOffset(data);
    ghost var body: Bytes, done: seq<Field> := data[offset..], [];
    PrependTwice([], [], DecodeTlvs(body));
    while offset < |data|
      invariant FieldsOffset(data) <= offset <= |data|
      invariant DecodeTlvs(body) == Prepend(done, DecodeTlvs(data[offset..]))
      invariant fields == LastWins(done)
      decreases |data| - offset
    {
      if offset + 2 > |data| {
        return Err(IncompleteHeader);
      }
      var tag, length := data[offset], data[offset + 1];
      var valueStart := offset + 2;
      var valueEnd := valueStart + length;
      if valueEnd > |data| {
        return Err(IncompleteValue);
      }
      fields := fields[tag := DecodeAscii(data[valueStart..valueEnd])];
      DecodeNext(data, offset, done);
      LastWinsOneMore(done, Field(tag, data[valueStart..valueEnd]));
      done := done + [Field(tag, data[valueStart..valueEnd])];
      offset := valueEnd;
    }
    assert data[offset..] == [];
    assert done + [] == done;
    parsed := Ok(fields);
  }

  lemma DecodeNext(data: Bytes, offset: nat, done: seq<Field>)
    requires offset + 2 <= |data| && offset + 2 + data[offset + 1] <= |data|
    ensures var valueEnd := offset + 2 + data[offset + 1];
            Prepend(done, DecodeTlvs(data[offset..]))
            == Prepend(done + [Field(data[offset], data[offset + 2..valueEnd])], DecodeTlvs(data[valueEnd..]))
  {
    var valueEnd := offset + 2 + data[offset + 1];
    var next, rest := Field(data[offset], data[offset + 2..valueEnd]), data[valueEnd..];
    SplitFirstTlv(data[offset..]);
    assert data[offset..][2..2 + data[offset + 1]] == next.value && data[offset..][2 + data[offset + 1]..] == rest;
    DecodeOne(next, rest);
    PrependTwice(done, [next], DecodeTlvs(rest));
  }

  function ParsedFields(data: Bytes): Result<map<Byte, string>, WireError> {
    match DecodeTlvs(data[FieldsOffset(data)..])
    case Err(e) => Err(e)
    case Ok(fields) => Ok(LastWins(fields))
  }

  datatype TextField = TextField(tag: Byte, text: string)

  predicate Fits(fields: seq<TextField>) {
    forall k :: 0 <= k < |fields| ==> |fields[k].text| <= 0xff && SevenBit(fields[k].text)
  }

  function Encoded(fields: seq<TextField>): (r: seq<Field>)
    ensures |r| == |fields|
  {
    seq(|fields|, k requires 0 <= k < |fields| => Field(fields[k].tag, EncodeAscii(fields[k].text)))
  }

  function TextLastWins(fields: seq<TextField>): map<Byte, string> {
    if fields == [] then map[]
    else TextLastWins(fields[..|fields| - 1])[fields[|fields| - 1].tag := fields[|fields| - 1].text]
  }

  function TlvParts(fields: seq<TextField>): seq<Bytes>
    requires Fits(fields)
  {
    seq(|fields|, k requires 0 <= k < |fields| => Tlv(fields[k].tag, EncodeAscii(fields[k].text)).value)
  }

  lemma {:induction false} ConcatIsEncode(fields: seq<TextField>)
    requires Fits(fields)
    ensures Concat(TlvParts(fields)) == EncodeTlvs(Encoded(fields))
  {
    if fields != [] {
      ConcatIsEncode(fields[1..]);
      assert TlvParts(fields)[1..] == TlvParts(fields[1..]);
      assert Encoded(fields)[1..] == Encoded(fields[1..]);
    }
  }

  lemma {:induction false} TextSurvives(fields: seq<TextField>)
    requires Fits(fields)
    ensures LastWins(Encoded(fields)) == TextLastWins(fields)
  {
    if fields != [] {
      var front := fields[..|fields| - 1];
      TextSurvives(front);
      assert Encoded(fields)[..|fields| - 1] == Encoded(front);
      AsciiRoundTrip(fields[|fields| - 1].text);
    }
  }

  /** A field is written as its tag, its length and its value, if they fit their bytes. */
  lemma TlvMeans(tag: int, value: Bytes)
    ensures Tlv(tag, value) ==
              if tag < 0 || tag > 255 then Err(BadTag) else if |value| > 255 then Err(ValueTooLong)
              else Ok([tag, |value|] + value)
  {
  }

  /** A message can be built exactly if its name and the whole of it fit their length fields; it is then one frame in
      the direction of requests, with the name first. */
  lemma BuildMeans(msgName: string, fields: seq<TextField>)
    requires Fits(fields)
    ensures var m, rest := BuildMessage(msgName, TlvParts(fields)), EncodeTlvs(Encoded(fields));
            && (m.Ok? <==> |msgName| <= 255 && |msgName| + |rest| + 4 <= 65535)
            && (m.Ok? ==>
                  && |m.value| == |msgName| + |rest| + 6 && IsFrame(m.value)
                  && m.value[2..] == [0x96, 0xfb] + ([0x01, |msgName|] + EncodeAscii(msgName)) + rest)
  {
    ConcatIsEncode(fields);
    var m := BuildMessage(msgName, TlvParts(fields));
    if m.Ok? {
      var body := REQUEST_DIRECTION + ([0x01, |msgName|] + EncodeAscii(msgName)) + Concat(TlvParts(fields));
      assert m.value == [|body| / 256, |body| % 256] + body;
      assert m.value[2..] == body && m.value[0] == |body| / 256 && m.value[1] == |body| % 256;
    }
  }

  /** What the fields of a body say. */
  function ReadBody(body: Bytes): Result<map<Byte, string>, WireError> {
    match DecodeTlvs(body)
    case Err(e) => Err(e)
    case Ok(fields) => Ok(LastWins(fields))
  }

  /** A length that counts the rest, then one of the two directions. */
  predicate HasHeader(data: Bytes) {
    |data| >= 4 && data[0] as int * 256 + data[1] as int == |data| - 2
    && (data[2..4] == [0x96, 0xfb] || data[2..4] == [0x97, 0xfb])
  }

  predicate HasDirection(data: Bytes) {
    |data| >= 2 && (data[..2] == [0x96, 0xfb] || data[..2] == [0x97, 0xfb])
  }

  /** Fields are read behind a header, or behind a bare direction, or from the start. */
  lemma HeaderIsSkipped(data: Bytes)
    ensures ParsedFields(data) ==
              ReadBody(if HasHeader(data) then data[4..] else if HasDirection(data) then data[2..] else data)
  {
    assert data[0..] == data;
    assert |data| >= 2 ==> data[0..2] == data[..2];
  }

  /** Whatever was built is read back, for every list of 7-bit fields that fits in a message. */
  lemma BuildThenParse(msgName: string, fields: seq<TextField>)
    requires Fits([TextField(0x01, msgName)] + fields)
    requires Fits(fields) && BuildMessage(msgName, TlvParts(fields)).Ok?
    ensures ParsedFields(BuildMessage(msgName, TlvParts(fields)).value)
            == Ok(TextLastWins([TextField(0x01, msgName)] + fields))
  {
    var message := BuildMessage(msgName, TlvParts(fields)).value;
    BuildMeans(msgName, fields);
    EncodeWithName(msgName, fields);
    ReadBuilt(message, Encoded([TextField(0x01, msgName)] + fields));
    TextSurvives([TextField(0x01, msgName)] + fields);
  }

  lemma EncodeWithName(msgName: string, fields: seq<TextField>)
    requires Fits([TextField(0x01, msgName)] + fields) && Fits(fields) && |msgName| <= 255
    ensures [0x96, 0xfb] + ([0x01, |msgName|] + EncodeAscii(msgName)) + EncodeTlvs(Encoded(fields))
            == [0x96, 0xfb] + EncodeTlvs(Encoded([TextField(0x01, msgName)] + fields))
  {
    var name := Field(0x01, EncodeAscii(msgName));
    assert Encoded([TextField(0x01, msgName)] + fields) == [name] + Encoded(fields);
    EncodeOne(name, Encoded(fields));
    Assoc([0x96, 0xfb], TlvBytes(name), EncodeTlvs(Encoded(fields)));
  }

  lemma ReadBuilt(message: Bytes, list: seq<Field>)
    requires forall k :: 0 <= k < |list| ==> |list[k].value| <= 0xff
    requires IsFrame(message) && message[2..] == [0x96, 0xfb] + EncodeTlvs(list)
    ensures ParsedFields(message) == Ok(LastWins(list))
  {
    assert message[2..4] == message[2..][..2] && message[4..] == message[2..][2..];
    HeaderIsSkipped(message);
    EncodeThenDecode(list);
  }

  // ----- frames -----

  /** The buffer starts with a whole frame: a two-byte length and that many bytes. */
  predicate StartsWithFrame(buffer: Bytes) {
    |buffer| >= 2 && |buffer| >= ReadUInt16(buffer) + 2
  }

  predicate IsFrame(packet: Bytes) {
    |packet| >= 2 && |packet| == ReadUInt16(packet) + 2
  }

  function Frames(stream: Bytes): seq<Bytes>
    decreases |stream|
  {
    if !StartsWithFrame(stream) then []
    else
      var totalLength := ReadUInt16(stream) + 2;
      [stream[..totalLength]] + Frames(stream[totalLength..])
  }

  function Remainder(stream: Bytes): Bytes
    decreases |stream|
  {
    if !StartsWithFrame(stream) then stream
    else Remainder(stream[ReadUInt16(stream) + 2..])
  }

  lemma FirstFrame(stream: Bytes)
    ensures if StartsWithFrame(stream)
            then
              var n := ReadUInt16(stream) + 2;
              Frames(stream) == [stream[..n]] + Frames(stream[n..]) && Remainder(stream) == Remainder(stream[n..])
            else Frames(stream) == [] && Remainder(stream) == stream
  {
  }

  /** packets and rest cut the stream into whole frames and a tail too short to hold one. */
  ghost predicate CutsInto(stream: Bytes, packets: seq<Bytes>, rest: Bytes) {
    && stream == Concat(packets) + rest
    && (forall k :: 0 <= k < |packets| ==> IsFrame(packets[k]))
    && !StartsWithFrame(rest)
  }

  lemma {:induction false} FramesCutStream(stream: Bytes)
    ensures CutsInto(stream, Frames(stream), Remainder(stream))
    decreases |stream|
  {
    if StartsWithFrame(stream) {
      var n := ReadUInt16(stream) + 2;
      var first, later := stream[..n], stream[n..];
      FramesCutStream(later);
      assert Frames(stream) == [first] + Frames(later) && Remainder(stream) == Remainder(later);
      assert Concat([first] + Frames(later)) == first + Concat(Frames(later)) by {
        assert ([first] + Frames(later))[1..] == Frames(later);
      }
      Assoc(first, Concat(Frames(later)), Remainder(later));
      assert stream == first + later && IsFrame(first);
    } else {
      assert Concat([]) + stream == stream;
    }
  }

  /** There is only one way to cut a stream. */
  lemma {:induction false} CutIsUnique(stream: Bytes, packets: seq<Bytes>, rest: Bytes)
    requires CutsInto(stream, packets, rest)
    ensures packets == Frames(stream) && rest == Remainder(stream)
    decreases |packets|
  {
    if packets == [] {
      assert Concat(packets) + rest == rest;
    } else {
      var p := packets[0];
      assert stream == p + (Concat(packets[1..]) + rest);
      assert ReadUInt16(stream) + 2 == |p|;
      assert stream[..|p|] == p;
      assert stream[|p|..] == Concat(packets[1..]) + rest;
      CutIsUnique(stream[|p|..], packets[1..], rest);
    }
  }

  lemma {:induction false} ConcatAppends(xs: seq<Bytes>, ys: seq<Bytes>)
    ensures Concat(xs + ys) == Concat(xs) + Concat(ys)
  {
    if xs == [] {
      assert xs + ys == ys;
    } else {
      ConcatAppends(xs[1..], ys);
      assert (xs + ys)[0] == xs[0] && (xs + ys)[1..] == xs[1..] + ys;
      Assoc(xs[0], Concat(xs[1..]), Concat(ys));
    }
  }

  /** Cutting may stop after any prefix and go on from its tail. */
  lemma CutResumes(before: Bytes, chunk: Bytes, xs: seq<Bytes>, tail: Bytes, ys: seq<Bytes>, rest: Bytes)
    requires CutsInto(before, xs, tail) && CutsInto(tail + chunk, ys, rest)
    ensures CutsInto(before + chunk, xs + ys, rest)
  {
    ConcatAppends(xs, ys);
    Assoc(Concat(xs), tail, chunk);
    Assoc(Concat(xs), Concat(ys), rest);
  }

  // ----- matching responses to the pending request -----

  /** ticket: which request this is, by order of sending. */
  datatype Pending = Pending(messageName: string, operationNumber: Option<string>, ticket: nat)
  datatype Message = Message(fields: map<Byte, string>, raw: Bytes)

  predicate IsResponseTo(packet: Bytes, pending: Pending) {
    && |packet| >= 4 && packet[2..4] == RESPONSE_DIRECTION
    && var parsed := ParsedFields(packet);
    && parsed.Ok?
    && 0x01 in parsed.value && parsed.value[0x01] == pending.messageName
    && (pending.operationNumber.Some? ==>
          0x03 in parsed.value && parsed.value[0x03] == pending.operationNumber.value)
  }

  /** The first packet that answers the pending request, if any. */
  function Answer(pending: Option<Pending>, packets: seq<Bytes>): Option<Message> {
    if pending.None? || packets == [] then None
    else if IsResponseTo(packets[0], pending.value) then Some(Message(ParsedFields(packets[0]).value, packets[0]))
    else Answer(pending, packets[1..])
  }

  function StillPending(pending: Option<Pending>, packets: seq<Bytes>): Option<Pending> {
    if Answer(pending, packets).Some? then None else pending
  }

  lemma AnswerOne(pending: Option<Pending>, packet: Bytes)
    ensures Answer(pending, [packet]) ==
              if pending.Some? && IsResponseTo(packet, pending.value)
              then Some(Message(ParsedFields(packet).value, packet)) else None
  {
    assert [packet][1..] == [];
  }

  lemma {:induction false} AnswerResumes(pending: Option<Pending>, xs: seq<Bytes>, ys: seq<Bytes>)
    ensures Answer(pending, xs + ys) ==
              if Answer(pending, xs).Some? then Answer(pending, xs) else Answer(StillPending(pending, xs), ys)
  {
    if pending.None? {
    } else if xs == [] {
      assert xs + ys == ys;
    } else if !IsResponseTo(xs[0], pending.value) {
      AnswerResumes(pending, xs[1..], ys);
      assert (xs + ys)[1..] == xs[1..] + ys;
    } else {
      assert (xs + ys)[0] == xs[0];
    }
  }

  /** A response to a request: one frame in the direction of responses, whose fields name the message, and the operation
      if the request named one; where a tag is repeated the last field counts. */
  ghost predicate Responds(packet: Bytes, name: string, number: Option<string>, list: seq<Field>) {
    && (forall k :: 0 <= k < |list| ==> |list[k].value| <= 0xff)
    && |packet| >= 4 && packet[2..] == [0x97, 0xfb] + EncodeTlvs(list)
    && SaysLast(list, 0x01, name) && (number.Some? ==> SaysLast(list, 0x03, number.value))
  }

  /** The last field of the tag has this text. */
  ghost predicate SaysLast(list: seq<Field>, tag: Byte, text: string) {
    exists k :: 0 <= k < |list| && list[k].tag == tag && DecodeAscii(list[k].value) == text
                && forall j :: k < j < |list| ==> list[j].tag != tag
  }

  lemma {:induction false} LastFieldOf(list: seq<Field>, tag: Byte) returns (k: nat)
    requires tag in LastWins(list)
    ensures k < |list| && list[k].tag == tag && forall j :: k < j < |list| ==> list[j].tag != tag
  {
    if list[|list| - 1].tag == tag {
      k := |list| - 1;
    } else {
      k := LastFieldOf(list[..|list| - 1], tag);
    }
  }

  lemma SaysWhatWins(list: seq<Field>, tag: Byte, text: string)
    ensures SaysLast(list, tag, text) <==> tag in LastWins(list) && LastWins(list)[tag] == text
  {
    if SaysLast(list, tag, text) {
      var k :| 0 <= k < |list| && list[k].tag == tag && DecodeAscii(list[k].value) == text
               && forall j :: k < j < |list| ==> list[j].tag != tag;
      LastWinsAt(list, k);
    }
    if tag in LastWins(list) {
      var k := LastFieldOf(list, tag);
      LastWinsAt(list, k);
    }
  }

  lemma ResponseAnswers(packet: Bytes, pending: Pending, list: seq<Field>)
    requires IsFrame(packet) && Responds(packet, pending.messageName, pending.operationNumber, list)
    ensures ParsedFields(packet) == Ok(LastWins(list)) && IsResponseTo(packet, pending)
  {
    HeaderIsSkipped(packet);
    assert packet[2..4] == packet[2..][..2] && packet[4..] == packet[2..][2..] == EncodeTlvs(list);
    EncodeThenDecode(list);
    SaysWhatWins(list, 0x01, pending.messageName);
    if pending.operationNumber.Some? {
      SaysWhatWins(list, 0x03, pending.operationNumber.value);
    }
  }

  lemma AnswerResponds(packet: Bytes, pending: Pending) returns (list: seq<Field>)
    requires IsFrame(packet) && IsResponseTo(packet, pending)
    ensures Responds(packet, pending.messageName, pending.operationNumber, list)
  {
    HeaderIsSkipped(packet);
    list := DecodeTlvs(packet[4..]).value;
    DecodeThenEncode(packet[4..]);
    assert packet[2..] == packet[2..4] + packet[4..];
    SaysWhatWins(list, 0x01, pending.messageName);
    if pending.operationNumber.Some? {
      SaysWhatWins(list, 0x03, pending.operationNumber.value);
    }
  }

  /** A frame answers the request exactly if it is such a response. */
  lemma ResponseMeans(packet: Bytes, pending: Pending)
    requires IsFrame(packet)
    ensures IsResponseTo(packet, pending) <==>
              exists list: seq<Field> :: Responds(packet, pending.messageName, pending.operationNumber, list)
    ensures forall list: seq<Field> :: Responds(packet, pending.messageName, pending.operationNumber, list) ==>
              ParsedFields(packet) == Ok(LastWins(list))
  {
    forall list: seq<Field> | Responds(packet, pending.messageName, pending.operationNumber, list)
      ensures ParsedFields(packet) == Ok(LastWins(list)) && IsResponseTo(packet, pending)
    {
      ResponseAnswers(packet, pending, list);
    }
    if IsResponseTo(packet, pending) {
      var list := AnswerResponds(packet, pending);
    }
  }

  /** Packet k is the first to answer the request. */
  ghost predicate FirstResponse(packets: seq<Bytes>, pending: Pending, k: nat, list: seq<Field>) {
    && k < |packets| && Responds(packets[k], pending.messageName, pending.operationNumber, list)
    && forall j, other: seq<Field> :: 0 <= j < k ==>
         !Responds(packets[j], pending.messageName, pending.operationNumber, other)
  }

  /** The request gets the first packet that answers it, with the fields that packet carries. */
  lemma {:induction false} AnswerMeans(pending: Pending, packets: seq<Bytes>)
    requires forall k :: 0 <= k < |packets| ==> IsFrame(packets[k])
    ensures forall k: nat, list: seq<Field> :: FirstResponse(packets, pending, k, list) ==>
              Answer(Some(pending), packets) == Some(Message(LastWins(list), packets[k]))
    ensures (forall k: nat, list: seq<Field> :: !FirstResponse(packets, pending, k, list)) ==>
              Answer(Some(pending), packets) == None
  {
    if packets != [] {
      ResponseMeans(packets[0], pending);
      AnswerMeans(pending, packets[1..]);
      if IsResponseTo(packets[0], pending) {
        var list: seq<Field> :| Responds(packets[0], pending.messageName, pending.operationNumber, list);
        assert FirstResponse(packets, pending, 0, list);
      } else {
        forall k: nat, list: seq<Field> | FirstResponse(packets, pending, k, list)
          ensures k > 0 && FirstResponse(packets[1..], pending, k - 1, list)
        {
          LaterResponse(packets, pending, k, list);
        }
        forall k: nat, list: seq<Field> | FirstResponse(packets[1..], pending, k, list)
          ensures FirstResponse(packets, pending, k + 1, list)
        {
          EarlierResponse(packets, pending, k, list);
        }
      }
    }
  }

  lemma LaterResponse(packets: seq<Bytes>, pending: Pending, k: nat, list: seq<Field>)
    requires packets != [] && FirstResponse(packets, pending, k, list)
    requires forall other: seq<Field> :: !Responds(packets[0], pending.messageName, pending.operationNumber, other)
    ensures k > 0 && FirstResponse(packets[1..], pending, k - 1, list)
  {
    forall j, other: seq<Field> | 0 <= j < k - 1
      ensures !Responds(packets[1..][j], pending.messageName, pending.operationNumber, other)
    {
      assert packets[1..][j] == packets[j + 1];
    }
  }

  lemma EarlierResponse(packets: seq<Bytes>, pending: Pending, k: nat, list: seq<Field>)
    requires packets != [] && FirstResponse(packets[1..], pending, k, list)
    requires forall other: seq<Field> :: !Responds(packets[0], pending.messageName, pending.operationNumber, other)
    ensures FirstResponse(packets, pending, k + 1, list)
  {
    forall j, other: seq<Field> | 0 <= j < k + 1
      ensures !Responds(packets[j], pending.messageName, pending.operationNumber, other)
    {
      assert j > 0 ==> packets[j] == packets[1..][j - 1];
    }
  }

  /** How a request was settled. */
  datatype Outcome = Answered(message: Message) | TimedOut | WriteFailed | Disconnected
  datatype Unsent = NotConnected | TerminalBusy

  class VendotekVtk {
    var connected: bool
    var receiveBuffer: Bytes
    var pendingResponse: Option<Pending>
    var requests: seq<Option<Outcome>>  // how each request was settled, by ticket; None while it is in flight
    ghost var dispatched: seq<Bytes>    // every packet handed to handlePacket, in order

    /** A request is unsettled exactly while it is the pending one; so every other has been settled, and only once. */
    ghost predicate Valid()
      reads this
    {
      && (pendingResponse.Some? ==> pendingResponse.value.ticket < |requests|)
      && (forall t :: 0 <= t < |requests| ==>
            (requests[t].None? <==> pendingResponse.Some? && pendingResponse.value.ticket == t))
    }

    constructor ()
      ensures Valid() && !connected && receiveBuffer == [] && pendingResponse == None && requests == []
      ensures dispatched == []
    {
      connected, receiveBuffer, pendingResponse, requests, dispatched := false, [], None, [], [];
    }

    method Connected()
      requires Valid()
      modifies this`connected, this`receiveBuffer
      ensures Valid() && connected && receiveBuffer == []
    {
      connected, receiveBuffer := true, [];
    }

    /** A request goes out only over a live connection and when none is pending. */
    method SendRequest(messageName: string, operationNumber: Option<string>) returns (ticket: Result<nat, Unsent>)
      requires Valid()
      modifies this`pendingResponse, this`requests
      ensures Valid()
      ensures ticket == if !connected then Err(NotConnected)
                        else if old(pendingResponse).Some? then Err(TerminalBusy) else Ok(|old(requests)|)
      ensures ticket.Ok? ==> requests == old(requests) + [None] &&
                             pendingResponse == Some(Pending(messageName, operationNumber, ticket.value))
      ensures ticket.Err? ==> requests == old(requests) && pendingResponse == old(pendingResponse)
    {
      if !connected {
        return Err(NotConnected);
      }
      if pendingResponse.Some? {
        return Err(TerminalBusy);
      }
      ticket := Ok(|requests|);
      pendingResponse := Some(Pending(messageName, operationNumber, |requests|));
      requests := requests + [None];
    }

    /** Settles the pending request. */
    method Settle(outcome: Outcome)
      requires Valid() && pendingResponse.Some?
      modifies this`pendingResponse, this`requests
      ensures Valid() && pendingResponse == None
      ensures requests == old(requests)[old(pendingResponse).value.ticket := Some(outcome)]
    {
      requests := requests[pendingResponse.value.ticket := Some(outcome)];
      pendingResponse := None;
    }

    /** The timer of a request, or the error of its write: a later request is none of its business. */
    method FailRequest(ticket: nat, outcome: Outcome)
      requires Valid() && ticket < |requests| && !outcome.Answered?
      modifies this`pendingResponse, this`requests
      ensures Valid()
      ensures requests == if old(requests)[ticket].None? then old(requests)[ticket := Some(outcome)] else old(requests)
      ensures pendingResponse == if old(requests)[ticket].None? then None else old(pendingResponse)
    {
      if pendingResponse.None? || pendingResponse.value.ticket != ticket {
        return;
      }
      Settle(outcome);
    }

    /** The connection is closed, by either side: what was received is dropped and the pending request rejected. */
    method HandleClose()
      requires Valid()
      modifies this`connected, this`receiveBuffer, this`pendingResponse, this`requests
      ensures Valid() && !connected && receiveBuffer == [] && pendingResponse == None
      ensures forall t :: 0 <= t < |requests| ==> requests[t].Some?
      ensures |requests| == |old(requests)|
      ensures forall t :: 0 <= t < |requests| ==>
                requests[t] == if old(requests)[t].None? then Some(Disconnected) else old(requests)[t]
    {
      connected, receiveBuffer := false, [];
      if pendingResponse.Some? {
        Settle(Disconnected);
      }
    }

    /** What the packets do to the requests. */
    static function AfterPackets(requests: seq<Option<Outcome>>, pending: Option<Pending>, packets: seq<Bytes>)
      : seq<Option<Outcome>>
    {
      var answer := Answer(pending, packets);
      if answer.Some? && pending.value.ticket < |requests|
      then requests[pending.value.ticket := Some(Answered(answer.value))] else requests
    }

    /** Packets may be handled in batches. */
    static lemma AfterBatches(requests: seq<Option<Outcome>>, pending: Option<Pending>, xs: seq<Bytes>, ys: seq<Bytes>)
      ensures StillPending(StillPending(pending, xs), ys) == StillPending(pending, xs + ys)
      ensures AfterPackets(AfterPackets(requests, pending, xs), StillPending(pending, xs), ys)
              == AfterPackets(requests, pending, xs + ys)
    {
      AnswerResumes(pending, xs, ys);
    }

    method HandlePacket(packet: Bytes)
      requires Valid()
      modifies this`pendingResponse, this`requests, this`dispatched
      ensures Valid() && dispatched == old(dispatched) + [packet]
      ensures pendingResponse == StillPending(old(pendingResponse), [packet])
      ensures requests == AfterPackets(old(requests), old(pendingResponse), [packet])
    {
      dispatched := dispatched + [packet];
      AnswerOne(pendingResponse, packet);
      if |packet| < 4 || packet[2..4] != RESPONSE_DIRECTION {
        return;
      }
      var parsed := ParseFields(packet);
      if parsed.Err? {
        return;
      }
      var fields := parsed.value;
      if pendingResponse.None? {
        return;
      }
      var pending := pendingResponse.value;
      if 0x01 !in fields || fields[0x01] != pending.messageName {
        return;
      }
      if pending.operationNumber.Some? && (0x03 !in fields || fields[0x03] != pending.operationNumber.value) {
        return;
      }
      Settle(Answered(Message(fields, packet)));
    }

    /** One chunk from the socket: every frame it completes is dispatched, the tail is kept. */
    method HandleData(chunk: Bytes)
      requires Valid()
      modifies this`receiveBuffer, this`pendingResponse, this`requests, this`dispatched
      ensures Valid()
      ensures var stream := old(receiveBuffer) + chunk;
              && receiveBuffer == Remainder(stream)
              && dispatched == old(dispatched) + Frames(stream)
              && pendingResponse == StillPending(old(pendingResponse), Frames(stream))
              && requests == AfterPackets(old(requests), old(pendingResponse), Frames(stream))
    {
      receiveBuffer := receiveBuffer + chunk;
      ghost var stream: Bytes, done: seq<Bytes> := receiveBuffer, [];
      while |receiveBuffer| >= 2
        invariant Valid()
        invariant Frames(stream) == done + Frames(receiveBuffer)
        invariant Remainder(stream) == Remainder(receiveBuffer)
        invariant dispatched == old(dispatched) + done
        invariant pendingResponse == StillPending(old(pendingResponse), done)
        invariant requests == AfterPackets(old(requests), old(pendingResponse), done)
        decreases |receiveBuffer|
      {
        var frameLength := ReadUInt16(receiveBuffer);
        var totalLength := frameLength + 2;
        FirstFrame(receiveBuffer);
        if |receiveBuffer| < totalLength {
          assert done + [] == done;
          return;
        }
        var packet := receiveBuffer[..totalLength];
        Assoc(done, [packet], Frames(receiveBuffer[totalLength..]));
        receiveBuffer := receiveBuffer[totalLength..];
        AfterBatches(old(requests), old(pendingResponse), done, [packet]);
        HandlePacket(packet);
        done := done + [packet];
      }
      assert done + [] == done;
    }
  }

  /** What a receiver has dispatched and kept after a list of chunks. */
  function Feed(buffer: Bytes, chunks: seq<Bytes>): (seq<Bytes>, Bytes)
    decreases |chunks|
  {
    if chunks == [] then ([], buffer)
    else
      var stream := buffer + chunks[0];
      var (packets, rest) := Feed(Remainder(stream), chunks[1..]);
      (Frames(stream) + packets, rest)
  }

  lemma {:induction false} FeedCutsStream(buffer: Bytes, chunks: seq<Bytes>)
    requires !StartsWithFrame(buffer)
    ensures CutsInto(buffer + Concat(chunks), Feed(buffer, chunks).0, Feed(buffer, chunks).1)
    decreases |chunks|
  {
    if chunks == [] {
      assert buffer + Concat(chunks) == buffer == Concat([]) + buffer;
    } else {
      var stream := buffer + chunks[0];
      var later := Feed(Remainder(stream), chunks[1..]);
      FramesCutStream(stream);
      FeedCutsStream(Remainder(stream), chunks[1..]);
      CutResumes(stream, Concat(chunks[1..]), Frames(stream), Remainder(stream), later.0, later.1);
      Assoc(buffer, chunks[0], Concat(chunks[1..]));
    }
  }

  /** However the network splits a stream, the packets and the tail are those of the whole stream. */
  lemma ChunkingIsIrrelevant(buffer: Bytes, chunks: seq<Bytes>)
    requires !StartsWithFrame(buffer)
    ensures var (packets, rest) := Feed(buffer, chunks);
            && packets == Frames(buffer + Concat(chunks)) && rest == Remainder(buffer + Concat(chunks))
            && Concat(packets) + rest == buffer + Concat(chunks)
            && !StartsWithFrame(rest)
  {
    FeedCutsStream(buffer, chunks);
    CutIsUnique(buffer + Concat(chunks), Feed(buffer, chunks).0, Feed(buffer, chunks).1);
  }

  // ----- amounts -----

  function Digit(d: nat): char
    requires d < 10
  {
    '0' + d as char
  }

  predicate IsDigit(c: char) {
    '0' <= c <= '9'
  }

  predicate AllDigits(s: string) {
    forall k :: 0 <= k < |s| ==> IsDigit(s[k])
  }

  function ToDecimal(n: nat): (s: string)
    ensures |s| > 0 && AllDigits(s)
  {
    if n < 10 then [Digit(n)] else ToDecimal(n / 10) + [Digit(n % 10)]
  }

  function FromDecimal(s: string): nat
    requires AllDigits(s)
  {
    if s == [] then 0 else FromDecimal(s[..|s| - 1]) * 10 + (s[|s| - 1] as int - '0' as int)
  }

  /** Amounts are integers of hundredths of a som, on the wire and here. */
  function SomToMinor(hundredths: int): Result<nat, WireError> {
    if hundredths < 0 || hundredths > MAX_UINT32 then Err(BadAmount) else Ok(hundredths)
  }

  function MinorToSom(rawAmount: string): Result<nat, WireError> {
    if rawAmount == [] || !AllDigits(rawAmount) then Err(BadAmount)
    else if FromDecimal(rawAmount) > MAX_SAFE_INTEGER then Err(BadAmount)
    else Ok(FromDecimal(rawAmount))
  }

  /** Which amounts the wire takes: into a request what fits 32 bits, out of a response digits up to the greatest whole
      number a double holds exactly. */
  lemma AmountsMean(hundredths: int, raw: string)
    ensures SomToMinor(hundredths) ==
              if 0 <= hundredths <= 4_294_967_295 then Ok(hundredths) else Err(BadAmount)
    ensures MinorToSom(raw).Ok? <==>
              raw != [] && (forall k :: 0 <= k < |raw| ==> '0' <= raw[k] <= '9')
              && FromDecimal(raw) <= 9_007_199_254_740_991
    ensures MinorToSom(raw).Ok? ==> MinorToSom(raw).value == FromDecimal(raw)
  {
  }

  lemma {:induction false} DecimalRoundTrip(n: nat)
    ensures FromDecimal(ToDecimal(n)) == n
  {
    if n >= 10 {
      DecimalRoundTrip(n / 10);
      assert ToDecimal(n)[..|ToDecimal(n)| - 1] == ToDecimal(n / 10);
    }
  }

  /** Digit strings without a leading zero are exactly the decimal renderings. */
  lemma {:induction false} CanonicalDecimal(s: string)
    requires AllDigits(s) && s != []
    ensures ToDecimal(FromDecimal(s)) == s <==> |s| == 1 || s[0] != '0'
    ensures s[0] != '0' ==> FromDecimal(s) > 0
  {
    if |s| == 1 {
      assert s[..0] == [];
    } else {
      var front, d := s[..|s| - 1], s[|s| - 1] as int - '0' as int;
      CanonicalDecimal(front);
      var n := FromDecimal(front);
      assert FromDecimal(s) == n * 10 + d;
      assert (n * 10 + d) / 10 == n && (n * 10 + d) % 10 == d;
      assert s == front + [Digit(d)];
      assert |front| == 1 ==> front[..0] == [] && n == front[0] as int - '0' as int;
      if n > 0 {
        var t := ToDecimal(n);
        assert ToDecimal(FromDecimal(s)) == t + [Digit(d)];
        assert (t + [Digit(d)])[..|t|] == t && s[..|s| - 1] == front;
      }
    }
  }

  /** An approved amount survives the way to the FIN request exactly when it fits 32 bits; and the FIN response
      is accepted exactly when it repeats the amount without leading zeros. */
  lemma ApprovedAmountRoundTrip(rawApproved: string, rawFinal: string)
    requires MinorToSom(rawApproved).Ok?
    ensures var amount := MinorToSom(rawApproved).value;
            && (SomToMinor(amount) == Ok(amount) <==> amount <= MAX_UINT32)
            && (rawFinal == ToDecimal(amount) <==>
                  MinorToSom(rawFinal) == Ok(amount) && (|rawFinal| == 1 || rawFinal[0] != '0'))
  {
    var amount := MinorToSom(rawApproved).value;
    DecimalRoundTrip(amount);
    if rawFinal != [] && AllDigits(rawFinal) {
      CanonicalDecimal(rawFinal);
    }
  }
}
