/**
 * The passive usage meter of model responses: a bounded buffer, the skipping of
 * interim responses, and the way from raw bytes to the usage record. JSON and
 * decompression are library calls, given as functions.
 */
module ResponseMeter {
  import opened Prelude
  import opened ChunkSizes
  import opened ChunkedBody
  import opened EventStream

  const MAX_METERED_RESPONSE_BYTES := 32 * 1024 * 1024

  datatype Usage = Usage(input: nat, output: nat, cacheRead: nat, cacheWrite: nat)

  /** The counters that a JSON document holds, and the bytes that a compressed body holds. */
  datatype Libraries = Libraries(counters: Bytes -> Option<Usage>, inflate: Bytes -> Option<Bytes>)

  // ---------------------------------------------------------------------------
  // The buffer

  datatype Buffer = Kept(data: Bytes) | Overflowed

  function Fed(b: Buffer, data: Bytes): Buffer {
    if b.Overflowed? || |b.data| + |data| > MAX_METERED_RESPONSE_BYTES then Overflowed else Kept(b.data + data)
  }

  function FedAll(b: Buffer, pieces: seq<Bytes>): Buffer
    decreases |pieces|
  {
    if pieces == [] then b else FedAll(Fed(b, pieces[0]), pieces[1..])
  }

  lemma {:induction false} OverflowStays(pieces: seq<Bytes>)
    ensures FedAll(Overflowed, pieces) == Overflowed
  {
    if pieces != [] {
      OverflowStays(pieces[1..]);
    }
  }

  lemma {:induction false} FeedingFrom(data: Bytes, pieces: seq<Bytes>)
    requires |data| <= MAX_METERED_RESPONSE_BYTES
    ensures FedAll(Kept(data), pieces) ==
      if |data + Concat(pieces)| > MAX_METERED_RESPONSE_BYTES then Overflowed else Kept(data + Concat(pieces))
    decreases |pieces|
  {
    if pieces == [] {
      assert data + Concat(pieces) == data;
    } else {
      assert data + Concat(pieces) == (data + pieces[0]) + Concat(pieces[1..]);
      if |data| + |pieces[0]| > MAX_METERED_RESPONSE_BYTES {
        OverflowStays(pieces[1..]);
      } else {
        FeedingFrom(data + pieces[0], pieces[1..]);
      }
    }
  }

  /** Feeding in any split is feeding once, and the buffer overflows exactly when the total exceeds the cap. */
  lemma SplitsDoNotMatter(pieces: seq<Bytes>)
    ensures FedAll(Kept([]), pieces) == Fed(Kept([]), Concat(pieces))
    ensures FedAll(Kept([]), pieces).Overflowed? <==> |Concat(pieces)| > MAX_METERED_RESPONSE_BYTES
    ensures |Concat(pieces)| <= MAX_METERED_RESPONSE_BYTES ==> FedAll(Kept([]), pieces) == Kept(Concat(pieces))
  {
    FeedingFrom([], pieces);
    assert [] + Concat(pieces) == Concat(pieces);
  }

  // ---------------------------------------------------------------------------
  // Heads

  const BLANK: Bytes := "\r\n\r\n"

  predicate BlankAt(s: Bytes, i: nat) {
    i + 4 <= |s| && s[i..i + 4] == BLANK
  }

  /** The first blank line at or after `from`. */
  function FindBlank(s: Bytes, from: nat): (i: Option<nat>)
    ensures i.Some? ==> from <= i.value && BlankAt(s, i.value)
    decreases |s| - from
  {
    if from + 4 > |s| then None else if BlankAt(s, from) then Some(from) else FindBlank(s, from + 1)
  }

  predicate IsDigit(c: char) {
    '0' <= c <= '9'
  }

  /** The status code on the first line. */
  function StatusOf(s: Bytes): Option<Bytes> {
    if |s| >= 13 && s[..7] == "HTTP/1." && (s[7] == '0' || s[7] == '1') && s[8] == ' '
       && IsDigit(s[9]) && IsDigit(s[10]) && IsDigit(s[11]) && s[12] == ' '
    then Some(s[9..12])
    else None
  }

  predicate IsInterim(s: Bytes) {
    StatusOf(s).Some? && StatusOf(s).value[0] == '1'
  }

  /** What remains after the interim responses at the start. */
  function SkipInterim(raw: Bytes): (rest: Bytes)
    ensures !IsInterim(rest) || FindBlank(rest, 0).None?
    decreases |raw|
  {
    if IsInterim(raw) && FindBlank(raw, 0).Some? then SkipInterim(raw[FindBlank(raw, 0).value + 4..]) else raw
  }

  method SkipInterimResponses(raw: Bytes) returns (rest: Bytes)
    ensures rest == SkipInterim(raw)
  {
    rest := raw;
    while IsInterim(rest) && FindBlank(rest, 0).Some?
      invariant SkipInterim(raw) == SkipInterim(rest)
      decreases |rest|
    {
      rest := rest[FindBlank(rest, 0).value + 4..];
    }
  }

  /** A status line and headers without a blank line: what a response has before its blank line. */
  predicate IsHead(head: Bytes) {
    StatusOf(head).Some? && FindBlank(head + BLANK, 0) == Some(|head|)
  }

  lemma {:induction false} BlankStaysFirst(s: Bytes, more: Bytes, from: nat)
    requires FindBlank(s, from).Some?
    ensures FindBlank(s + more, from) == FindBlank(s, from)
    decreases |s| - from
  {
    assert (s + more)[from..from + 4] == s[from..from + 4];
    if !BlankAt(s, from) {
      BlankStaysFirst(s, more, from + 1);
    }
  }

  lemma HeadIsFound(head: Bytes, body: Bytes)
    requires IsHead(head)
    ensures FindBlank(head + BLANK + body, 0) == Some(|head|) && StatusOf(head + BLANK + body) == StatusOf(head)
    ensures (head + BLANK + body)[..|head|] == head && (head + BLANK + body)[|head| + 4..] == body
  {
    BlankStaysFirst(head + BLANK, body, 0);
    assert (head + BLANK + body)[..7] == head[..7] && (head + BLANK + body)[9..12] == head[9..12];
  }

  function Interims(heads: seq<Bytes>): Bytes {
    if heads == [] then [] else heads[0] + BLANK + Interims(heads[1..])
  }

  /** Any number of interim responses is skipped, and nothing of the final one. */
  lemma {:induction false} InterimsAreSkipped(heads: seq<Bytes>, final: Bytes)
    requires forall i :: 0 <= i < |heads| ==> IsHead(heads[i]) && IsInterim(heads[i])
    requires !IsInterim(final)
    ensures SkipInterim(Interims(heads) + final) == final
    decreases |heads|
  {
    if heads == [] {
      assert Interims(heads) + final == final;
    } else {
      var rest := Interims(heads[1..]) + final;
      assert Interims(heads) + final == heads[0] + BLANK + rest;
      HeadIsFound(heads[0], rest);
      InterimsAreSkipped(heads[1..], final);
    }
  }

  // ---------------------------------------------------------------------------
  // Headers

  function Lower(s: Bytes): Bytes {
    seq(|s|, i requires 0 <= i < |s| =>
      if 'A' <= s[i] <= 'Z' || (0xC0 <= s[i] as int <= 0xDE && s[i] as int != 0xD7) then (s[i] as int + 32) as char else s[i])
  }

  function FindColon(s: Bytes, from: nat): (i: Option<nat>)
    ensures i.Some? ==> from <= i.value < |s|
    decreases |s| - from
  {
    if from >= |s| then None else if s[from] == ':' then Some(from) else FindColon(s, from + 1)
  }

  /** Adds one header line, lower-cased; a line without a colon is ignored. */
  function WithHeader(headers: Headers, line: Bytes): Headers {
    match FindColon(line, 0)
    case None => headers
    case Some(i) => headers[Lower(Strip(line[..i])) := Lower(Strip(line[i + 1..]))]
  }

  /** The headers on the lines from `from` on. */
  function HeaderLines(head: Bytes, from: nat, before: Headers): Headers
    decreases |head| - from
  {
    if from > |head| then before
    else
      match FindLineEnd(head, from)
      case None => WithHeader(before, head[from..])
      case Some(i) => HeaderLines(head, i + 2, WithHeader(before, head[from..i]))
  }

  /** The headers after the status line. */
  function ResponseHeaders(head: Bytes): Headers {
    match FindLineEnd(head, 0)
    case None => map[]
    case Some(i) => HeaderLines(head, i + 2, map[])
  }

  function HeaderOf(headers: Headers, name: Bytes): Bytes {
    if name in headers then headers[name] else []
  }

  predicate OccursAt(s: Bytes, part: Bytes, i: nat) {
    i + |part| <= |s| && s[i..i + |part|] == part
  }

  predicate Contains(s: Bytes, part: Bytes) {
    exists i: nat :: i <= |s| && OccursAt(s, part, i)
  }

  predicate IsChunked(headers: Headers) {
    Contains(HeaderOf(headers, "transfer-encoding"), "chunked")
  }

  predicate IsEventStream(headers: Headers) {
    Contains(HeaderOf(headers, "content-type"), "vnd.amazon.eventstream")
  }

  // ---------------------------------------------------------------------------
  // From bytes to usage

  /** If the body is chunked, the loop that decodes it ends. */
  predicate BodyOk(headers: Headers, body: Bytes) {
    IsChunked(headers) ==> EndsFrom(ChunkSize, body, 0)
  }

  function DecodedBody(lib: Libraries, headers: Headers, body: Bytes): Option<Bytes>
    requires BodyOk(headers, body)
  {
    var plain := if IsChunked(headers) then DechunkFrom(ChunkSize, body, 0) else Some(body);
    var encoding := HeaderOf(headers, "content-encoding");
    if plain.None? then None
    else if encoding == "" || encoding == "identity" then plain
    else if encoding == "gzip" || encoding == "deflate" then lib.inflate(plain.value)
    else None
  }

  function UsageIn(lib: Libraries, headers: Headers, decoded: Bytes): Option<Usage> {
    if IsEventStream(headers) then
      match MetadataFrom(Standard(), ReadHeaders, decoded, 0)
      case None => None
      case Some(payload) => lib.counters(payload)
    else lib.counters(decoded)
  }

  /** The meter gets to its end on this final response: only the body of one with status 200 is decoded. */
  predicate FinalOk(final: Bytes) {
    FindBlank(final, 0).Some? && StatusOf(final[..FindBlank(final, 0).value]) == Some("200") ==>
      BodyOk(ResponseHeaders(final[..FindBlank(final, 0).value]), final[FindBlank(final, 0).value + 4..])
  }

  predicate ResponseOk(raw: Bytes) {
    FinalOk(SkipInterim(raw))
  }

  /** The usage counters of one final response. */
  function FinalUsage(lib: Libraries, final: Bytes): Option<Usage>
    requires FinalOk(final)
  {
    match FindBlank(final, 0)
    case None => None
    case Some(i) =>
      var head := final[..i];
      if StatusOf(head) != Some("200") then None
      else
        match DecodedBody(lib, ResponseHeaders(head), final[i + 4..])
        case None => None
        case Some(decoded) => UsageIn(lib, ResponseHeaders(head), decoded)
  }

  /** The usage counters of one raw response. */
  function ParseUsage(lib: Libraries, raw: Bytes): Option<Usage>
    requires ResponseOk(raw)
  {
    FinalUsage(lib, SkipInterim(raw))
  }

  /** A final response head with status 200 that announces a chunked event stream, uncompressed. */
  predicate StreamHead(head: Bytes) {
    && IsHead(head) && StatusOf(head) == Some("200")
    && IsChunked(ResponseHeaders(head)) && IsEventStream(ResponseHeaders(head))
    && HeaderOf(ResponseHeaders(head), "content-encoding") in {"", "identity"}
  }

  lemma ReadsStream(lib: Libraries, head: Bytes, body: Bytes, decoded: Bytes)
    requires StreamHead(head) && EndsFrom(ChunkSize, body, 0) && DechunkFrom(ChunkSize, body, 0) == Some(decoded)
    ensures var final := head + BLANK + body;
      FinalOk(final) && FinalUsage(lib, final) == UsageIn(lib, ResponseHeaders(head), decoded) && !IsInterim(final)
  {
    HeadIsFound(head, body);
    assert StatusOf(head + BLANK + body).value[0] == '2';
  }

  /** From raw bytes to usage on any response head and any chunked body. */
  lemma ParsesStream(lib: Libraries, interims: seq<Bytes>, head: Bytes, body: Bytes, decoded: Bytes)
    requires forall i :: 0 <= i < |interims| ==> IsHead(interims[i]) && IsInterim(interims[i])
    requires StreamHead(head) && EndsFrom(ChunkSize, body, 0) && DechunkFrom(ChunkSize, body, 0) == Some(decoded)
    ensures var raw := Interims(interims) + (head + BLANK + body);
      ResponseOk(raw) && ParseUsage(lib, raw) == UsageIn(lib, ResponseHeaders(head), decoded)
  {
    ReadsStream(lib, head, body, decoded);
    InterimsAreSkipped(interims, head + BLANK + body);
  }

  /**
   * End to end: interim responses, a streamed response in any chunks, any
   * well-framed messages. The usage is read from the first metadata message.
   */
  lemma StreamedUsage(lib: Libraries, interims: seq<Bytes>, head: Bytes, chunks: seq<StandardChunk>,
                      digits: Bytes, extension: Bytes, trailers: Bytes, messages: seq<StreamMessage>, rest: Bytes)
    requires forall i :: 0 <= i < |interims| ==> IsHead(interims[i]) && IsInterim(interims[i])
    requires StreamHead(head) && WellFramed(messages)
    requires forall i :: 0 <= i < |chunks| ==>
      IsChunk(chunks[i].digits, chunks[i].extension, chunks[i].data) && chunks[i].data != []
    requires IsChunk(digits, extension, [])
    requires Data(ToPieces(chunks)) == Concat(Wires(messages)) + rest
    requires FirstPayload(Contents(messages)).Some? || |rest| < 12
    ensures var raw := Interims(interims) + (head + BLANK + Encode(ToPieces(chunks), digits + extension, trailers));
      ResponseOk(raw)
      && ParseUsage(lib, raw) ==
           match FirstPayload(Contents(messages)) { case None => None case Some(payload) => lib.counters(payload) }
  {
    var body := Encode(ToPieces(chunks), digits + extension, trailers);
    DechunkUndoesEncode(chunks, digits, extension, trailers);
    StreamScan(messages, rest);
    ParsesStream(lib, interims, head, body, Data(ToPieces(chunks)));
  }

  // ---------------------------------------------------------------------------
  // The meter

  /** `records` are the attempts to record a request, each with its usage if it was metered. */
  class Meter {
    const lib: Libraries
    var buffer: Bytes
    var overflowed: bool
    var finished: bool
    var records: seq<Option<Usage>>

    constructor (lib: Libraries)
      ensures this.lib == lib && Valid() && Contents() == Kept([]) && !finished && records == []
    {
      this.lib := lib;
      buffer, overflowed, finished, records := [], false, false, [];
    }

    predicate Valid()
      reads this
    {
      |buffer| <= MAX_METERED_RESPONSE_BYTES && (overflowed ==> buffer == []) && |records| == if finished then 1 else 0
    }

    function Contents(): Buffer
      reads this
    {
      if overflowed then Overflowed else Kept(buffer)
    }

    method Feed(data: Bytes)
      requires Valid()
      modifies this`buffer, this`overflowed
      ensures Valid() && Contents() == Fed(old(Contents()), data)
    {
      if overflowed {
        return;
      }
      if |buffer| + |data| > MAX_METERED_RESPONSE_BYTES {
        overflowed, buffer := true, [];
        return;
      }
      buffer := buffer + data;
    }

    /** Records the request once, however often the relay ends. */
    method Finish()
      requires Valid() && (!finished && !overflowed ==> ResponseOk(buffer))
      modifies this
      ensures Valid() && finished
      ensures old(finished) ==> records == old(records)
      ensures !old(finished) ==> records == [if old(overflowed) then None else ParseUsage(lib, old(buffer))]
    {
      if finished {
        return;
      }
      finished := true;
      var usage := None;
      if !overflowed {
        usage := ReadUsage();
      }
      buffer := [];
      records := records + [usage];
    }

    method ReadUsage() returns (usage: Option<Usage>)
      requires ResponseOk(buffer)
      ensures usage == ParseUsage(lib, buffer)
    {
      var final := SkipInterimResponses(buffer);
      usage := ReadFinal(final);
    }

    method ReadFinal(final: Bytes) returns (usage: Option<Usage>)
      requires FinalOk(final)
      ensures usage == FinalUsage(lib, final)
    {
      var blank := FindBlank(final, 0);
      if blank.None? {
        return None;
      }
      var head, body := final[..blank.value], final[blank.value + 4..];
      if StatusOf(head) != Some("200") {
        return None;
      }
      var headers := ResponseHeaders(head);
      var decoded := DecodeBody(headers, body);
      if decoded.None? {
        return None;
      }
      usage := CountUsage(headers, decoded.value);
    }

    method DecodeBody(headers: Headers, body: Bytes) returns (decoded: Option<Bytes>)
      requires BodyOk(headers, body)
      ensures decoded == DecodedBody(lib, headers, body)
    {
      var plain := body;
      if IsChunked(headers) {
        var dechunked := Dechunked(ChunkSize, body);
        if dechunked.None? {
          return None;
        }
        plain := dechunked.value;
      }
      var encoding := HeaderOf(headers, "content-encoding");
      if encoding == "" || encoding == "identity" {
        return Some(plain);
      }
      if encoding == "gzip" || encoding == "deflate" {
        return lib.inflate(plain);
      }
      return None;
    }

    method CountUsage(headers: Headers, decoded: Bytes) returns (usage: Option<Usage>)
      ensures usage == UsageIn(lib, headers, decoded)
    {
      if !IsEventStream(headers) {
        return lib.counters(decoded);
      }
      var payload := MetadataEventPayload(Standard(), ReadHeaders, decoded);
      if payload.None? {
        return None;
      }
      return lib.counters(payload.value);
    }
  }
}
