/**
 * The event-stream framing of streamed model responses: the meter's frame and
 * header parser, and an encoder that it undoes. Checksums are ignored bytes.
 */
module EventStream {
  import opened Prelude
  import opened ChunkSizes
  import opened ChunkedBody

  // ---------------------------------------------------------------------------
  // Numbers

  function BigEndian(s: Bytes): nat {
    if s == [] then 0 else 256 * BigEndian(s[..|s| - 1]) + s[|s| - 1] as int
  }

  function Pow256(width: nat): nat {
    if width == 0 then 1 else 256 * Pow256(width - 1)
  }

  function ToBytes(n: nat, width: nat): (s: Bytes)
    ensures |s| == width
  {
    if width == 0 then [] else ToBytes(n / 256, width - 1) + [(n % 256) as char]
  }

  lemma {:induction false} NumberRoundTrip(n: nat, width: nat)
    requires n < Pow256(width)
    ensures BigEndian(ToBytes(n, width)) == n
  {
    if width > 0 {
      var s := ToBytes(n, width);
      assert s[..|s| - 1] == ToBytes(n / 256, width - 1);
      NumberRoundTrip(n / 256, width - 1);
    }
  }

  lemma Widths()
    ensures Pow256(1) == 256 && Pow256(2) == 65_536 && Pow256(4) == 4_294_967_296
  {
    assert Pow256(3) == 256 * Pow256(2);
  }

  // ---------------------------------------------------------------------------
  // UTF-8 (RFC 3629)

  predicate Between(s: Bytes, i: nat, low: int, high: int) {
    i < |s| && low <= s[i] as int <= high
  }

  /** The length of the well-formed sequence at the start, or zero. */
  function Utf8Length(s: Bytes): (n: nat)
    requires s != []
    ensures n <= |s|
  {
    var tail := (i: nat) => Between(s, i, 0x80, 0xBF);
    if Between(s, 0, 0, 0x7F) then 1
    else if Between(s, 0, 0xC2, 0xDF) && tail(1) then 2
    else if Between(s, 0, 0xE0, 0xE0) && Between(s, 1, 0xA0, 0xBF) && tail(2) then 3
    else if Between(s, 0, 0xED, 0xED) && Between(s, 1, 0x80, 0x9F) && tail(2) then 3
    else if Between(s, 0, 0xE1, 0xEF) && !Between(s, 0, 0xED, 0xED) && tail(1) && tail(2) then 3
    else if Between(s, 0, 0xF0, 0xF0) && Between(s, 1, 0x90, 0xBF) && tail(2) && tail(3) then 4
    else if Between(s, 0, 0xF4, 0xF4) && Between(s, 1, 0x80, 0x8F) && tail(2) && tail(3) then 4
    else if Between(s, 0, 0xF1, 0xF3) && tail(1) && tail(2) && tail(3) then 4
    else 0
  }

  predicate IsUtf8(s: Bytes) {
    s == [] || (Utf8Length(s) > 0 && IsUtf8(s[Utf8Length(s)..]))
  }

  // ---------------------------------------------------------------------------
  // Headers

  /** The decoded text headers. Well-formed names are equal exactly when their bytes are, so bytes stand for them. */
  type Headers = map<Bytes, Bytes>

  const TEXT := 7
  const BLOB := 6

  /** The length of a value without length prefix. */
  function FixedLength(kind: int): Option<nat> {
    match kind
    case 0 => Some(0)
    case 1 => Some(0)
    case 2 => Some(1)
    case 3 => Some(2)
    case 4 => Some(4)
    case 5 => Some(8)
    case 8 => Some(8)
    case 9 => Some(16)
    case _ => None
  }

  function ClampedSlice(s: Bytes, from: nat, length: nat): Bytes {
    if from >= |s| then [] else if from + length <= |s| then s[from..from + length] else s[from..]
  }

  /** How the parser reads a number and tells whether bytes are text. */
  datatype Reading = Reading(number: Bytes -> nat, isText: Bytes -> bool)

  function Standard(): Reading {
    Reading(BigEndian, IsUtf8)
  }

  datatype HeaderRead = Bad | Skipped(next: nat) | Entry(name: Bytes, value: Bytes, next: nat)

  /** Reads the header at an offset. */
  function HeaderAt(r: Reading, raw: Bytes, offset: nat): (h: HeaderRead)
    requires offset < |raw|
    ensures !h.Bad? ==> offset < h.next <= |raw|
  {
    var nameLength := raw[offset] as int;
    var name := ClampedSlice(raw, offset + 1, nameLength);
    var kindAt := offset + 1 + nameLength;
    if kindAt >= |raw| then Bad
    else
      var kind := raw[kindAt] as int;
      if kind == BLOB || kind == TEXT then
        if kindAt + 3 > |raw| then Bad
        else
          var length := r.number(raw[kindAt + 1..kindAt + 3]);
          var value := ClampedSlice(raw, kindAt + 3, length);
          var next := kindAt + 3 + length;
          if kind == TEXT && (!r.isText(name) || !r.isText(value)) then Bad
          else if next > |raw| then Bad
          else if kind == TEXT then Entry(name, value, next)
          else Skipped(next)
      else
        match FixedLength(kind)
        case None => Bad
        case Some(length) => if kindAt + 1 + length > |raw| then Bad else Skipped(kindAt + 1 + length)
  }

  /** The text headers from `offset` on, added to those read before; later ones win. */
  function HeadersFrom(r: Reading, raw: Bytes, offset: nat, before: Headers): Option<Headers>
    decreases |raw| - offset
  {
    if offset >= |raw| then Some(before)
    else
      match HeaderAt(r, raw, offset)
      case Bad => None
      case Skipped(next) => HeadersFrom(r, raw, next, before)
      case Entry(name, value, next) => HeadersFrom(r, raw, next, before[name := value])
  }

  method EventHeaders(r: Reading, raw: Bytes) returns (headers: Option<Headers>)
    ensures headers == HeadersFrom(r, raw, 0, map[])
  {
    var found: Headers := map[];
    var offset := 0;
    while offset < |raw|
      invariant HeadersFrom(r, raw, 0, map[]) == HeadersFrom(r, raw, offset, found)
      decreases |raw| - offset
    {
      var h := HeaderAt(r, raw, offset);
      match h {
        case Bad => return None;
        case Skipped(next) => offset := next;
        case Entry(name, value, next) => found, offset := found[name := value], next;
      }
    }
    headers := Some(found);
  }

  // ---------------------------------------------------------------------------
  // Messages

  type HeaderReader = Bytes -> Option<Headers>

  const EVENT_TYPE: Bytes := ":event-type"
  const METADATA: Bytes := "metadata"

  datatype MessageRead = Broken | Message(headers: Headers, payload: Bytes, next: nat)

  /** Reads the message at an offset: lengths, headers, payload. */
  function MessageAt(r: Reading, read: HeaderReader, body: Bytes, offset: nat): (m: MessageRead)
    requires offset + 12 <= |body|
    ensures m.Message? ==> offset < m.next <= |body|
  {
    var total := r.number(body[offset..offset + 4]);
    var headersLength := r.number(body[offset + 4..offset + 8]);
    if total < 16 || headersLength > total - 16 || offset + total > |body| then Broken
    else
      var start := offset + 12 + headersLength;
      match read(body[offset + 12..start])
      case None => Broken
      case Some(headers) => Message(headers, body[start..offset + total - 4], offset + total)
  }

  predicate IsMetadata(headers: Headers) {
    EVENT_TYPE in headers && headers[EVENT_TYPE] == METADATA
  }

  /** The payload of the first metadata message from `offset` on. */
  function MetadataFrom(r: Reading, read: HeaderReader, body: Bytes, offset: nat): Option<Bytes>
    decreases |body| - offset
  {
    if offset + 12 > |body| then None
    else
      match MessageAt(r, read, body, offset)
      case Broken => None
      case Message(headers, payload, next) =>
        if IsMetadata(headers) then Some(payload) else MetadataFrom(r, read, body, next)
  }

  method MetadataEventPayload(r: Reading, read: HeaderReader, body: Bytes) returns (payload: Option<Bytes>)
    ensures payload == MetadataFrom(r, read, body, 0)
  {
    var offset := 0;
    while offset + 12 <= |body|
      invariant MetadataFrom(r, read, body, 0) == MetadataFrom(r, read, body, offset)
      decreases |body| - offset
    {
      var m := MessageAt(r, read, body, offset);
      if m.Broken? {
        return None;
      }
      if IsMetadata(m.headers) {
        return Some(m.payload);
      }
      offset := m.next;
    }
    return None;
  }

  // ---------------------------------------------------------------------------
  // Encoding headers

  /** A header of any type: a value of fixed length, a byte array or a text. */
  datatype Value = Fixed(kind: nat, raw: Bytes) | Blob(bytes: Bytes) | Text(bytes: Bytes)
  datatype Header = Header(name: Bytes, value: Value)

  predicate HeaderOk(h: Header) {
    && |h.name| < 256
    && match h.value
       case Fixed(kind, raw) => FixedLength(kind) == Some(|raw|)
       case Blob(bytes) => |bytes| < 65_536
       case Text(bytes) => |bytes| < 65_536 && IsUtf8(h.name) && IsUtf8(bytes)
  }

  function EncodeValue(v: Value): Bytes
    requires v.Fixed? ==> v.kind < 256
  {
    match v
    case Fixed(kind, raw) => [kind as char] + raw
    case Blob(bytes) => [BLOB as char] + (ToBytes(|bytes|, 2) + bytes)
    case Text(bytes) => [TEXT as char] + (ToBytes(|bytes|, 2) + bytes)
  }

  function EncodeHeader(h: Header): Bytes
    requires HeaderOk(h)
  {
    [|h.name| as char] + (h.name + EncodeValue(h.value))
  }

  /** The texts by name; of several with one name the last one counts. */
  function Texts(headers: seq<Header>, before: Headers): Headers {
    if headers == [] then before
    else
      var h := headers[0];
      Texts(headers[1..], WithText(h, before))
  }

  /** The last text with a name. */
  function LastText(headers: seq<Header>, name: Bytes): Option<Bytes> {
    if headers == [] then None
    else
      var h := headers[|headers| - 1];
      if h.value.Text? && h.name == name then Some(h.value.bytes) else LastText(headers[..|headers| - 1], name)
  }

  lemma {:induction false} TextsSnoc(headers: seq<Header>, h: Header, before: Headers)
    ensures Texts(headers + [h], before) ==
      (if h.value.Text? then Texts(headers, before)[h.name := h.value.bytes] else Texts(headers, before))
  {
    if headers == [] {
      assert ([] + [h])[1..] == [];
    } else {
      assert (headers + [h])[1..] == headers[1..] + [h];
      var first := headers[0];
      TextsSnoc(headers[1..], h, WithText(first, before));
    }
  }

  /** The dictionary of texts holds the last text of each name. */
  lemma {:induction false} LastTextWins(headers: seq<Header>, name: Bytes)
    ensures name in Texts(headers, map[]) <==> LastText(headers, name).Some?
    ensures name in Texts(headers, map[]) ==> Texts(headers, map[])[name] == LastText(headers, name).value
    decreases |headers|
  {
    if headers != [] {
      var n := |headers| - 1;
      assert headers[..n] + [headers[n]] == headers;
      TextsSnoc(headers[..n], headers[n], map[]);
      LastTextWins(headers[..n], name);
    }
  }

  // ---------------------------------------------------------------------------
  // Headers round trip

  lemma ByteAt(raw: Bytes, offset: nat, c: char)
    requires ContinuesWith(raw, offset, [c])
    ensures offset < |raw| && raw[offset] == c
  {
    assert raw[offset..offset + 1][0] == raw[offset];
  }

  /** The parser reads a header's lengths and texts as they are meant. */
  predicate Reads(r: Reading, h: Header) {
    match h.value
    case Fixed(_, _) => true
    case Blob(bytes) => r.number(ToBytes(|bytes|, 2)) == |bytes|
    case Text(bytes) => r.number(ToBytes(|bytes|, 2)) == |bytes| && r.isText(h.name) && r.isText(bytes)
  }

  lemma StandardReads(h: Header)
    requires HeaderOk(h)
    ensures Reads(Standard(), h)
  {
    Widths();
    if !h.value.Fixed? {
      NumberRoundTrip(|h.value.bytes|, 2);
    }
  }

  lemma ReadsFixed(r: Reading, raw: Bytes, offset: nat, name: Bytes, kind: nat, value: Bytes)
    requires |name| < 256 && FixedLength(kind) == Some(|value|)
    requires ContinuesWith(raw, offset, [|name| as char]) && ContinuesWith(raw, offset + 1 + |name|, [kind as char])
    requires offset + 2 + |name| + |value| <= |raw|
    ensures HeaderAt(r, raw, offset) == Skipped(offset + 2 + |name| + |value|)
  {
    ByteAt(raw, offset, |name| as char);
    ByteAt(raw, offset + 1 + |name|, kind as char);
  }

  lemma ReadsSized(r: Reading, raw: Bytes, offset: nat, name: Bytes, kind: nat, size: Bytes, value: Bytes)
    requires |name| < 256 && (kind == BLOB || kind == TEXT) && |size| == 2 && r.number(size) == |value|
    requires kind == TEXT ==> r.isText(name) && r.isText(value)
    requires ContinuesWith(raw, offset, [|name| as char]) && ContinuesWith(raw, offset + 1, name)
    requires ContinuesWith(raw, offset + 1 + |name|, [kind as char])
    requires ContinuesWith(raw, offset + 2 + |name|, size) && ContinuesWith(raw, offset + 4 + |name|, value)
    ensures var next := offset + 4 + |name| + |value|;
      HeaderAt(r, raw, offset) == if kind == TEXT then Entry(name, value, next) else Skipped(next)
  {
    ByteAt(raw, offset, |name| as char);
    ByteAt(raw, offset + 1 + |name|, kind as char);
  }

  lemma SizedParts(raw: Bytes, at: nat, kind: nat, size: Bytes, value: Bytes)
    requires kind < 256 && ContinuesWith(raw, at, [kind as char] + (size + value))
    ensures ContinuesWith(raw, at, [kind as char]) && ContinuesWith(raw, at + 1, size)
    ensures ContinuesWith(raw, at + 1 + |size|, value)
  {
    ContinuesInParts(raw, at, [kind as char], size + value);
    ContinuesInParts(raw, at + 1, size, value);
  }

  lemma ReadsWholeFixed(r: Reading, raw: Bytes, offset: nat, name: Bytes, kind: nat, value: Bytes)
    requires |name| < 256 && FixedLength(kind) == Some(|value|)
    requires ContinuesWith(raw, offset, [|name| as char] + (name + ([kind as char] + value)))
    ensures offset < |raw| && HeaderAt(r, raw, offset) == Skipped(offset + 2 + |name| + |value|)
  {
    ContinuesInParts(raw, offset, [|name| as char], name + ([kind as char] + value));
    ContinuesInParts(raw, offset + 1, name, [kind as char] + value);
    ContinuesInParts(raw, offset + 1 + |name|, [kind as char], value);
    ReadsFixed(r, raw, offset, name, kind, value);
  }

  lemma ReadsWholeSized(r: Reading, raw: Bytes, offset: nat, name: Bytes, kind: nat, size: Bytes, value: Bytes)
    requires |name| < 256 && (kind == BLOB || kind == TEXT) && |size| == 2 && r.number(size) == |value|
    requires kind == TEXT ==> r.isText(name) && r.isText(value)
    requires ContinuesWith(raw, offset, [|name| as char] + (name + ([kind as char] + (size + value))))
    ensures var next := offset + 4 + |name| + |value|;
      offset < |raw| && HeaderAt(r, raw, offset) == if kind == TEXT then Entry(name, value, next) else Skipped(next)
  {
    ContinuesInParts(raw, offset, [|name| as char], name + ([kind as char] + (size + value)));
    ContinuesInParts(raw, offset + 1, name, [kind as char] + (size + value));
    SizedParts(raw, offset + 1 + |name|, kind, size, value);
    ReadsSized(r, raw, offset, name, kind, size, value);
  }

  lemma ReadsHeader(r: Reading, raw: Bytes, offset: nat, h: Header)
    requires HeaderOk(h) && Reads(r, h) && ContinuesWith(raw, offset, EncodeHeader(h))
    ensures offset < |raw|
    ensures HeaderAt(r, raw, offset) ==
      if h.value.Text? then Entry(h.name, h.value.bytes, offset + |EncodeHeader(h)|)
      else Skipped(offset + |EncodeHeader(h)|)
  {
    match h.value
    case Fixed(kind, bytes) => ReadsWholeFixed(r, raw, offset, h.name, kind, bytes);
    case Blob(bytes) => ReadsWholeSized(r, raw, offset, h.name, BLOB, ToBytes(|bytes|, 2), bytes);
    case Text(bytes) => ReadsWholeSized(r, raw, offset, h.name, TEXT, ToBytes(|bytes|, 2), bytes);
  }

  function WithText(h: Header, before: Headers): Headers {
    if h.value.Text? then before[h.name := h.value.bytes] else before
  }

  /** If these bytes stand at an offset, the parser reads this header there and goes on behind them. */
  ghost predicate HeaderStandsAt(r: Reading, raw: Bytes, offset: nat, wire: Bytes, h: Header, before: Headers) {
    ContinuesWith(raw, offset, wire) ==>
      HeadersFrom(r, raw, offset, before) == HeadersFrom(r, raw, offset + |wire|, WithText(h, before))
  }

  ghost predicate Stands(r: Reading, wire: Bytes, h: Header) {
    forall raw: Bytes, offset: nat, before: Headers :: HeaderStandsAt(r, raw, offset, wire, h, before)
  }

  lemma HeaderStands(r: Reading, h: Header)
    requires HeaderOk(h) && Reads(r, h)
    ensures Stands(r, EncodeHeader(h), h)
  {
    forall raw: Bytes, offset: nat, before: Headers
      ensures HeaderStandsAt(r, raw, offset, EncodeHeader(h), h, before)
    {
      if ContinuesWith(raw, offset, EncodeHeader(h)) {
        ReadsHeader(r, raw, offset, h);
      }
    }
  }

  function Concat(wires: seq<Bytes>): Bytes {
    if wires == [] then [] else wires[0] + Concat(wires[1..])
  }

  lemma {:induction false} HeadersStand(r: Reading, raw: Bytes, offset: nat, wires: seq<Bytes>, headers: seq<Header>, before: Headers)
    requires |wires| == |headers| && forall i :: 0 <= i < |wires| ==> Stands(r, wires[i], headers[i])
    requires ContinuesWith(raw, offset, Concat(wires)) && offset + |Concat(wires)| == |raw|
    ensures HeadersFrom(r, raw, offset, before) == Some(Texts(headers, before))
    decreases |wires|
  {
    if wires != [] {
      ContinuesInParts(raw, offset, wires[0], Concat(wires[1..]));
      assert Stands(r, wires[0], headers[0]);
      assert HeaderStandsAt(r, raw, offset, wires[0], headers[0], before);
      HeadersStand(r, raw, offset + |wires[0]|, wires[1..], headers[1..], WithText(headers[0], before));
    }
  }

  function EncodeHeaders(headers: seq<Header>): Bytes
    requires forall i :: 0 <= i < |headers| ==> HeaderOk(headers[i])
  {
    Concat(HeaderWires(headers))
  }

  function HeaderWires(headers: seq<Header>): seq<Bytes>
    requires forall i :: 0 <= i < |headers| ==> HeaderOk(headers[i])
  {
    seq(|headers|, i requires 0 <= i < |headers| => EncodeHeader(headers[i]))
  }

  /** The parser undoes the encoder, over all header types. */
  lemma HeadersUndoEncode(headers: seq<Header>)
    requires forall i :: 0 <= i < |headers| ==> HeaderOk(headers[i])
    ensures HeadersFrom(Standard(), EncodeHeaders(headers), 0, map[]) == Some(Texts(headers, map[]))
  {
    var wires, raw := HeaderWires(headers), EncodeHeaders(headers);
    forall i | 0 <= i < |wires|
      ensures Stands(Standard(), wires[i], headers[i])
    {
      StandardReads(headers[i]);
      HeaderStands(Standard(), headers[i]);
    }
    assert raw[0..|raw|] == raw;
    HeadersStand(Standard(), raw, 0, wires, headers, map[]);
  }

  // ---------------------------------------------------------------------------
  // Messages round trip

  /** A message with its headers encoded. */
  datatype Frame = Frame(headers: Bytes, payload: Bytes, preludeCrc: Bytes, crc: Bytes)

  predicate FrameOk(f: Frame) {
    |f.preludeCrc| == 4 && |f.crc| == 4 && 16 + |f.headers| + |f.payload| < 4_294_967_296
  }

  function EncodeFrame(f: Frame): Bytes {
    ToBytes(16 + |f.headers| + |f.payload|, 4)
    + (ToBytes(|f.headers|, 4) + (f.preludeCrc + (f.headers + (f.payload + f.crc))))
  }

  /** The parser reads a frame's lengths as they are meant. */
  predicate ReadsLengths(r: Reading, f: Frame) {
    && r.number(ToBytes(16 + |f.headers| + |f.payload|, 4)) == 16 + |f.headers| + |f.payload|
    && r.number(ToBytes(|f.headers|, 4)) == |f.headers|
  }

  lemma StandardLengths(f: Frame)
    requires FrameOk(f)
    ensures ReadsLengths(Standard(), f)
  {
    Widths();
    NumberRoundTrip(16 + |f.headers| + |f.payload|, 4);
    NumberRoundTrip(|f.headers|, 4);
  }

  lemma ReadsParts(r: Reading, read: HeaderReader, body: Bytes, offset: nat,
                   total: Bytes, headersLength: Bytes, headers: Bytes, payload: Bytes)
    requires |total| == |headersLength| == 4 && read(headers).Some?
    requires r.number(total) == 16 + |headers| + |payload| && r.number(headersLength) == |headers|
    requires ContinuesWith(body, offset, total) && ContinuesWith(body, offset + 4, headersLength)
    requires ContinuesWith(body, offset + 12, headers) && ContinuesWith(body, offset + 12 + |headers|, payload)
    requires offset + 16 + |headers| + |payload| <= |body|
    ensures MessageAt(r, read, body, offset) == Message(read(headers).value, payload, offset + 16 + |headers| + |payload|)
  {
  }

  lemma FrameParts(body: Bytes, offset: nat, total: Bytes, headersLength: Bytes, f: Frame)
    requires |total| == |headersLength| == |f.preludeCrc| == |f.crc| == 4
    requires ContinuesWith(body, offset, total + (headersLength + (f.preludeCrc + (f.headers + (f.payload + f.crc)))))
    ensures ContinuesWith(body, offset, total) && ContinuesWith(body, offset + 4, headersLength)
    ensures ContinuesWith(body, offset + 12, f.headers) && ContinuesWith(body, offset + 12 + |f.headers|, f.payload)
    ensures offset + 16 + |f.headers| + |f.payload| <= |body|
  {
    ContinuesInParts(body, offset, total, headersLength + (f.preludeCrc + (f.headers + (f.payload + f.crc))));
    ContinuesInParts(body, offset + 4, headersLength, f.preludeCrc + (f.headers + (f.payload + f.crc)));
    ContinuesInParts(body, offset + 8, f.preludeCrc, f.headers + (f.payload + f.crc));
    ContinuesInParts(body, offset + 12, f.headers, f.payload + f.crc);
    ContinuesInParts(body, offset + 12 + |f.headers|, f.payload, f.crc);
  }

  lemma ReadsFrame(r: Reading, read: HeaderReader, body: Bytes, offset: nat, f: Frame)
    requires FrameOk(f) && ReadsLengths(r, f) && read(f.headers).Some? && ContinuesWith(body, offset, EncodeFrame(f))
    ensures offset + 12 <= |body| && |EncodeFrame(f)| == 16 + |f.headers| + |f.payload|
    ensures MessageAt(r, read, body, offset) == Message(read(f.headers).value, f.payload, offset + |EncodeFrame(f)|)
  {
    var total, headersLength := ToBytes(16 + |f.headers| + |f.payload|, 4), ToBytes(|f.headers|, 4);
    FrameParts(body, offset, total, headersLength, f);
    ReadsParts(r, read, body, offset, total, headersLength, f.headers, f.payload);
  }

  /** What a frame's headers say and what it carries. */
  datatype Content = Content(metadata: bool, payload: Bytes)

  /** If these bytes stand at an offset, the scan reads this content there and goes on behind them. */
  ghost predicate CarriesAt(r: Reading, read: HeaderReader, body: Bytes, offset: nat, wire: Bytes, c: Content) {
    ContinuesWith(body, offset, wire) ==>
      MetadataFrom(r, read, body, offset) ==
        (if c.metadata then Some(c.payload) else MetadataFrom(r, read, body, offset + |wire|))
  }

  ghost predicate Carries(r: Reading, read: HeaderReader, wire: Bytes, c: Content) {
    forall body: Bytes, offset: nat :: CarriesAt(r, read, body, offset, wire, c)
  }

  function ContentOf(read: HeaderReader, f: Frame): Content
    requires read(f.headers).Some?
  {
    Content(IsMetadata(read(f.headers).value), f.payload)
  }

  lemma FrameCarriesAt(r: Reading, read: HeaderReader, body: Bytes, offset: nat, f: Frame)
    requires FrameOk(f) && ReadsLengths(r, f) && read(f.headers).Some?
    ensures CarriesAt(r, read, body, offset, EncodeFrame(f), ContentOf(read, f))
  {
    if ContinuesWith(body, offset, EncodeFrame(f)) {
      ReadsFrame(r, read, body, offset, f);
    }
  }

  lemma FrameCarries(r: Reading, read: HeaderReader, f: Frame)
    requires FrameOk(f) && ReadsLengths(r, f) && read(f.headers).Some?
    ensures Carries(r, read, EncodeFrame(f), ContentOf(read, f))
  {
    forall body: Bytes, offset: nat
      ensures CarriesAt(r, read, body, offset, EncodeFrame(f), ContentOf(read, f))
    {
      FrameCarriesAt(r, read, body, offset, f);
    }
  }

  function FirstPayload(contents: seq<Content>): Option<Bytes> {
    if contents == [] then None
    else if contents[0].metadata then Some(contents[0].payload)
    else FirstPayload(contents[1..])
  }

  lemma {:induction false} ScanFindsFirst(
    r: Reading, read: HeaderReader, body: Bytes, offset: nat, wires: seq<Bytes>, contents: seq<Content>, rest: Bytes)
    requires |wires| == |contents| && forall i :: 0 <= i < |wires| ==> Carries(r, read, wires[i], contents[i])
    requires ContinuesWith(body, offset, Concat(wires)) && offset + |Concat(wires)| + |rest| == |body|
    requires FirstPayload(contents).Some? || |rest| < 12
    ensures MetadataFrom(r, read, body, offset) == FirstPayload(contents)
    decreases |wires|
  {
    if wires != [] {
      ContinuesInParts(body, offset, wires[0], Concat(wires[1..]));
      assert Carries(r, read, wires[0], contents[0]);
      assert CarriesAt(r, read, body, offset, wires[0], contents[0]);
      if !contents[0].metadata {
        ScanFindsFirst(r, read, body, offset + |wires[0]|, wires[1..], contents[1..], rest);
      }
    }
  }

  /** How the meter reads headers. */
  function ReadHeaders(raw: Bytes): Option<Headers> {
    HeadersFrom(Standard(), raw, 0, map[])
  }

  /** The headers of a frame name a metadata event exactly when the last text of that name says so. */
  lemma MetadataByLastText(headers: seq<Header>)
    requires forall i :: 0 <= i < |headers| ==> HeaderOk(headers[i])
    ensures ReadHeaders(EncodeHeaders(headers)).Some?
    ensures IsMetadata(ReadHeaders(EncodeHeaders(headers)).value) <==> LastText(headers, EVENT_TYPE) == Some(METADATA)
  {
    HeadersUndoEncode(headers);
    LastTextWins(headers, EVENT_TYPE);
  }

  // ---------------------------------------------------------------------------
  // Event streams

  /** A message of the stream, with its headers. */
  datatype StreamMessage = StreamMessage(headers: seq<Header>, payload: Bytes, preludeCrc: Bytes, crc: Bytes)

  predicate MessageOk(m: StreamMessage) {
    (forall i :: 0 <= i < |m.headers| ==> HeaderOk(m.headers[i])) && FrameOk(ToFrame(m))
  }

  function ToFrame(m: StreamMessage): Frame
    requires forall i :: 0 <= i < |m.headers| ==> HeaderOk(m.headers[i])
  {
    Frame(EncodeHeaders(m.headers), m.payload, m.preludeCrc, m.crc)
  }

  predicate WellFramed(messages: seq<StreamMessage>) {
    forall i :: 0 <= i < |messages| ==> MessageOk(messages[i])
  }

  function Wires(messages: seq<StreamMessage>): (wires: seq<Bytes>)
    requires WellFramed(messages)
  {
    seq(|messages|, i requires 0 <= i < |messages| => EncodeFrame(ToFrame(messages[i])))
  }

  /** What the stream says: the payload of the first message whose last event type is metadata. */
  function Contents(messages: seq<StreamMessage>): seq<Content> {
    seq(|messages|, i requires 0 <= i < |messages| =>
      Content(LastText(messages[i].headers, EVENT_TYPE) == Some(METADATA), messages[i].payload))
  }

  lemma MessageCarries(m: StreamMessage)
    requires MessageOk(m)
    ensures Carries(Standard(), ReadHeaders, EncodeFrame(ToFrame(m)),
              Content(LastText(m.headers, EVENT_TYPE) == Some(METADATA), m.payload))
  {
    MetadataByLastText(m.headers);
    StandardLengths(ToFrame(m));
    FrameCarries(Standard(), ReadHeaders, ToFrame(m));
  }

  /**
   * On every well-framed stream the scan returns the payload of the first metadata
   * message. What follows that message may be anything; a rest too short for a
   * message is ignored.
   */
  lemma StreamScan(messages: seq<StreamMessage>, rest: Bytes)
    requires WellFramed(messages)
    requires FirstPayload(Contents(messages)).Some? || |rest| < 12
    ensures MetadataFrom(Standard(), ReadHeaders, Concat(Wires(messages)) + rest, 0) == FirstPayload(Contents(messages))
  {
    var wires, contents := Wires(messages), Contents(messages);
    forall i | 0 <= i < |wires|
      ensures Carries(Standard(), ReadHeaders, wires[i], contents[i])
    {
      MessageCarries(messages[i]);
    }
    var body := Concat(wires) + rest;
    assert body[..|Concat(wires)|] == Concat(wires);
    ScanFindsFirst(Standard(), ReadHeaders, body, 0, wires, contents, rest);
  }
}
