/**
 * Response heads as they are written, and the way from them to the usage record:
 * header lines read back, and plain and compressed responses are metered end to end.
 */
module ResponseHeads {
  import opened Prelude
  import opened ChunkSizes
  import opened ChunkedBody
  import opened EventStream
  import opened ResponseMeter

  datatype Field = Field(name: Bytes, value: Bytes)

  /** No line end in it, and no colon in the name. */
  predicate FieldOk(f: Field) {
    '\r' !in f.name && '\r' !in f.value && ':' !in f.name
  }

  predicate FieldsOk(fields: seq<Field>) {
    forall i :: 0 <= i < |fields| ==> FieldOk(fields[i])
  }

  function FieldLine(f: Field): Bytes {
    f.name + ":" + f.value
  }

  function FieldLines(fields: seq<Field>): (lines: seq<Bytes>)
    ensures |lines| == |fields| && forall i :: 0 <= i < |fields| ==> lines[i] == FieldLine(fields[i])
  {
    seq(|fields|, i requires 0 <= i < |fields| => FieldLine(fields[i]))
  }

  /** Lines, each after a line end. */
  function Following(lines: seq<Bytes>): Bytes {
    if lines == [] then [] else CRLF + lines[0] + Following(lines[1..])
  }

  function Head(statusLine: Bytes, fields: seq<Field>): Bytes {
    statusLine + Following(FieldLines(fields))
  }

  /** The value of the last field of this name, lower-cased and stripped as names and values are. */
  function LastField(fields: seq<Field>, name: Bytes): Option<Bytes> {
    if fields == [] then None
    else
      var last := fields[|fields| - 1];
      if Lower(Strip(last.name)) == name then Some(Lower(Strip(last.value))) else LastField(fields[..|fields| - 1], name)
  }

  // ---------------------------------------------------------------------------
  // Lines

  predicate IsLine(line: Bytes) {
    '\r' !in line && line != []
  }

  predicate AreLines(lines: seq<Bytes>) {
    forall i :: 0 <= i < |lines| ==> IsLine(lines[i])
  }

  /** All lines added to the headers, one after the other. */
  function AllAdded(add: (Headers, Bytes) -> Headers, lines: seq<Bytes>, before: Headers): Headers {
    if lines == [] then before else AllAdded(add, lines[1..], add(before, lines[0]))
  }

  /** Where line `k` begins if the first one begins at `first`. */
  function Start(first: nat, lines: seq<Bytes>, k: nat): nat
    requires k <= |lines|
  {
    if k == 0 then first else Start(first, lines, k - 1) + |lines[k - 1]| + 2
  }

  /** At `offset` a line begins, and these lines follow it to the end. */
  predicate LineAt(head: Bytes, offset: nat, line: Bytes, lines: seq<Bytes>) {
    '\r' !in line && offset <= |head| && head[offset..] == line + Following(lines)
  }

  lemma {:induction false} NoLineEnd(s: Bytes, offset: nat, line: Bytes, from: nat)
    requires '\r' !in line && offset <= from && offset + |line| == |s| && s[offset..] == line
    ensures FindLineEnd(s, from).None?
    decreases |s| - from
  {
    if from + 1 < |s| {
      assert s[from] == s[offset..][from - offset];
      NoLineEnd(s, offset, line, from + 1);
    }
  }

  lemma NextLineEnd(head: Bytes, offset: nat, line: Bytes, lines: seq<Bytes>)
    requires LineAt(head, offset, line, lines) && lines != []
    ensures FindLineEnd(head, offset) == Some(offset + |line|) && head[offset..offset + |line|] == line
    ensures offset + |line| + 2 <= |head|
    ensures head[offset + |line| + 2..] == lines[0] + Following(lines[1..])
  {
    var n := offset + |line|;
    assert head[offset..n] == head[offset..][..|line|] == line;
    assert head[n..n + 2] == head[offset..][|line|..|line| + 2] == CRLF;
    LineEndsThere(head, offset, line, offset);
    var rest := lines[0] + Following(lines[1..]);
    assert Following(lines) == CRLF + rest;
    assert head[n + 2..] == head[offset..][|line| + 2..] == (line + (CRLF + rest))[|line| + 2..] == rest;
  }

  lemma TheLastLine(head: Bytes, offset: nat, line: Bytes, before: Headers)
    requires LineAt(head, offset, line, [])
    ensures HeaderLines(head, offset, before) == WithHeader(before, line)
  {
    assert head[offset..] == line;
    NoLineEnd(head, offset, line, offset);
  }

  lemma OneLine(head: Bytes, offset: nat, line: Bytes, lines: seq<Bytes>, before: Headers)
    requires LineAt(head, offset, line, lines) && lines != []
    ensures HeaderLines(head, offset, before) == HeaderLines(head, offset + |line| + 2, WithHeader(before, line))
  {
    NextLineEnd(head, offset, line, lines);
  }

  /** Reading line after line adds all of them. */
  lemma {:induction false} LinesAreRead(
    read: (nat, Headers) -> Headers, add: (Headers, Bytes) -> Headers, lines: seq<Bytes>, k: nat, before: Headers)
    requires k < |lines|
    requires forall i: nat, b {:trigger lines[i], read(i, b)} :: i < |lines| ==>
      read(i, b) == if i + 1 < |lines| then read(i + 1, add(b, lines[i])) else add(b, lines[i])
    ensures read(k, before) == AllAdded(add, lines[k..], before)
    decreases |lines| - k
  {
    var rest := lines[k..];
    assert rest[0] == lines[k] && rest[1..] == lines[k + 1..];
    if k + 1 < |lines| {
      LinesAreRead(read, add, lines, k + 1, add(before, lines[k]));
    }
  }

  lemma {:induction false} LinesStand(head: Bytes, first: nat, lines: seq<Bytes>, k: nat)
    requires AreLines(lines) && k < |lines| && LineAt(head, first, lines[0], lines[1..])
    ensures LineAt(head, Start(first, lines, k), lines[k], lines[k + 1..])
  {
    if k > 0 {
      LinesStand(head, first, lines, k - 1);
      var offset, rest := Start(first, lines, k - 1), lines[k..];
      NextLineEnd(head, offset, lines[k - 1], rest);
      assert rest[0] == lines[k] && rest[1..] == lines[k + 1..];
      assert IsLine(lines[k]);
    }
  }

  lemma NextStart(first: nat, lines: seq<Bytes>, k: nat)
    requires k < |lines|
    ensures Start(first, lines, k + 1) == Start(first, lines, k) + |lines[k]| + 2
  {
  }

  lemma ReadsNextLine(head: Bytes, first: nat, lines: seq<Bytes>, k: nat, b: Headers)
    requires AreLines(lines) && k + 1 < |lines| && LineAt(head, first, lines[0], lines[1..])
    ensures HeaderLines(head, Start(first, lines, k), b) == HeaderLines(head, Start(first, lines, k + 1), WithHeader(b, lines[k]))
  {
    LinesStand(head, first, lines, k);
    NextStart(first, lines, k);
    OneLine(head, Start(first, lines, k), lines[k], lines[k + 1..], b);
  }

  lemma ReadsLastLine(head: Bytes, first: nat, lines: seq<Bytes>, k: nat, b: Headers)
    requires AreLines(lines) && k + 1 == |lines| && LineAt(head, first, lines[0], lines[1..])
    ensures HeaderLines(head, Start(first, lines, k), b) == WithHeader(b, lines[k])
  {
    LinesStand(head, first, lines, k);
    assert lines[k + 1..] == [];
    TheLastLine(head, Start(first, lines, k), lines[k], b);
  }

  lemma LinesFrom(head: Bytes, first: nat, lines: seq<Bytes>, before: Headers)
    requires AreLines(lines) && lines != [] && LineAt(head, first, lines[0], lines[1..])
    ensures HeaderLines(head, first, before) == AllAdded(WithHeader, lines, before)
  {
    var read := (k: nat, b: Headers) => if k < |lines| then HeaderLines(head, Start(first, lines, k), b) else b;
    forall i: nat, b {:trigger lines[i], read(i, b)} | i < |lines|
      ensures read(i, b) == if i + 1 < |lines| then read(i + 1, WithHeader(b, lines[i])) else WithHeader(b, lines[i])
    {
      if i + 1 < |lines| {
        ReadsNextLine(head, first, lines, i, b);
      } else {
        ReadsLastLine(head, first, lines, i, b);
      }
    }
    LinesAreRead(read, WithHeader, lines, 0, before);
    assert lines[0..] == lines;
  }

  lemma AllLinesAreRead(statusLine: Bytes, lines: seq<Bytes>)
    requires '\r' !in statusLine && AreLines(lines)
    ensures ResponseHeaders(statusLine + Following(lines)) == AllAdded(WithHeader, lines, map[])
  {
    var head, n := statusLine + Following(lines), |statusLine|;
    assert head[0..] == head;
    if lines == [] {
      NoLineEnd(head, 0, statusLine, 0);
    } else {
      NextLineEnd(head, 0, statusLine, lines);
      assert IsLine(lines[0]);
      LinesFrom(head, n + 2, lines, map[]);
    }
  }

  // ---------------------------------------------------------------------------
  // Header fields read back

  lemma {:induction false} ColonIsFound(name: Bytes, value: Bytes, from: nat)
    requires ':' !in name && from <= |name|
    ensures FindColon(name + ":" + value, from) == Some(|name|)
    decreases |name| - from
  {
    var s := name + ":" + value;
    if from < |name| {
      assert s[from] == name[from];
      ColonIsFound(name, value, from + 1);
    } else {
      assert s[from] == ':';
    }
  }

  lemma FieldIsAdded(f: Field, before: Headers)
    requires FieldOk(f)
    ensures WithHeader(before, FieldLine(f)) == before[Lower(Strip(f.name)) := Lower(Strip(f.value))]
    ensures IsLine(FieldLine(f))
  {
    ColonIsFound(f.name, f.value, 0);
    assert FieldLine(f)[..|f.name|] == f.name && FieldLine(f)[|f.name| + 1..] == f.value;
  }

  lemma {:induction false} AllButLast(lines: seq<Bytes>, before: Headers)
    requires lines != []
    ensures AllAdded(WithHeader, lines, before) == WithHeader(AllAdded(WithHeader, lines[..|lines| - 1], before), lines[|lines| - 1])
    decreases |lines|
  {
    if |lines| > 1 {
      var rest := lines[1..];
      AllButLast(rest, WithHeader(before, lines[0]));
      assert rest[..|rest| - 1] == lines[..|lines| - 1][1..];
    }
  }

  lemma {:induction false} LastOfAllFields(fields: seq<Field>, name: Bytes)
    requires FieldsOk(fields)
    ensures HeaderOf(AllAdded(WithHeader, FieldLines(fields), map[]), name) ==
      match LastField(fields, name) { case None => [] case Some(value) => value }
    decreases |fields|
  {
    if fields != [] {
      var n := |fields| - 1;
      LastOfAllFields(fields[..n], name);
      AllButLast(FieldLines(fields), map[]);
      assert FieldLines(fields)[..n] == FieldLines(fields[..n]);
      FieldIsAdded(fields[n], AllAdded(WithHeader, FieldLines(fields[..n]), map[]));
    }
  }

  lemma FieldsAreLines(fields: seq<Field>)
    requires FieldsOk(fields)
    ensures AreLines(FieldLines(fields))
  {
    forall i | 0 <= i < |fields| ensures IsLine(FieldLines(fields)[i]) {
      FieldIsAdded(fields[i], map[]);
    }
  }

  /** Each header reads as the last field of its name, and one without a field is empty. */
  lemma HeadersReadBack(statusLine: Bytes, fields: seq<Field>, name: Bytes)
    requires '\r' !in statusLine && FieldsOk(fields)
    ensures HeaderOf(ResponseHeaders(Head(statusLine, fields)), name) ==
      match LastField(fields, name) { case None => [] case Some(value) => value }
  {
    FieldsAreLines(fields);
    AllLinesAreRead(statusLine, FieldLines(fields));
    LastOfAllFields(fields, name);
  }

  // ---------------------------------------------------------------------------
  // The blank line after a head

  lemma {:induction false} BlankComesAfter(s: Bytes, from: nat, at: nat)
    requires from <= at && BlankAt(s, at) && forall i :: from <= i < at ==> !BlankAt(s, i)
    ensures FindBlank(s, from) == Some(at)
    decreases at - from
  {
    if from < at {
      BlankComesAfter(s, from + 1, at);
    }
  }

  /** No blank line begins before `to`. */
  ghost predicate NoBlankBefore(s: Bytes, to: nat) {
    forall i :: 0 <= i < to ==> !BlankAt(s, i)
  }

  predicate EndsInLine(s: Bytes) {
    s != [] && s[|s| - 1] != '\r'
  }

  lemma NotBlank(s: Bytes, i: nat)
    requires i + 4 <= |s| && (s[i] != '\r' || s[i + 2] != '\r')
    ensures !BlankAt(s, i)
  {
    assert s[i..i + 4][0] == s[i] && s[i..i + 4][2] == s[i + 2];
    assert BLANK[0] == '\r' && BLANK[2] == '\r';
  }

  lemma OneLineHasNoBlank(before: Bytes, line: Bytes)
    requires IsLine(line) && EndsInLine(before) && NoBlankBefore(before + BLANK, |before|)
    ensures NoBlankBefore(before + CRLF + line + BLANK, |before + CRLF + line|) && EndsInLine(before + CRLF + line)
  {
    var n, s := |before|, before + CRLF + line + BLANK;
    assert BLANK == CRLF + CRLF;
    forall i | 0 <= i < n + 2 + |line| ensures !BlankAt(s, i) {
      if i + 4 <= n + 2 {
        assert s[i..i + 4] == (before + BLANK)[i..i + 4];
        assert BlankAt(s, i) == BlankAt(before + BLANK, i);
      } else {
        assert i < n ==> s[i] == before[n - 1];
        assert i == n ==> s[i + 2] == line[0] && line[0] in line;
        assert i == n + 1 ==> s[i] == '\n';
        assert i >= n + 2 ==> s[i] == line[i - n - 2] && line[i - n - 2] in line;
        NotBlank(s, i);
      }
    }
  }

  lemma {:induction false} LinesHaveNoBlank(before: Bytes, lines: seq<Bytes>)
    requires AreLines(lines) && EndsInLine(before) && NoBlankBefore(before + BLANK, |before|)
    ensures NoBlankBefore(before + Following(lines) + BLANK, |before + Following(lines)|)
    decreases |lines|
  {
    if lines == [] {
      assert before + Following(lines) == before;
    } else {
      assert IsLine(lines[0]);
      OneLineHasNoBlank(before, lines[0]);
      var next := before + CRLF + lines[0];
      assert before + Following(lines) == next + Following(lines[1..]);
      LinesHaveNoBlank(next, lines[1..]);
    }
  }

  lemma StatusLineHasNoBlank(statusLine: Bytes)
    requires '\r' !in statusLine
    ensures NoBlankBefore(statusLine + BLANK, |statusLine|)
  {
    forall i | 0 <= i < |statusLine| ensures !BlankAt(statusLine + BLANK, i) {
      assert (statusLine + BLANK)[i] == statusLine[i];
      NotBlank(statusLine + BLANK, i);
    }
  }

  /** What is written as a head is read as one. */
  lemma WrittenHead(statusLine: Bytes, fields: seq<Field>)
    requires '\r' !in statusLine && StatusOf(statusLine).Some? && FieldsOk(fields)
    ensures IsHead(Head(statusLine, fields)) && StatusOf(Head(statusLine, fields)) == StatusOf(statusLine)
  {
    var lines := FieldLines(fields);
    FieldsAreLines(fields);
    StatusLineHasNoBlank(statusLine);
    LinesHaveNoBlank(statusLine, lines);
    var head := Head(statusLine, fields);
    assert (head + BLANK)[|head|..|head| + 4] == BLANK;
    BlankComesAfter(head + BLANK, 0, |head|);
    assert head[..7] == statusLine[..7] && head[9..12] == statusLine[9..12];
  }

  // ---------------------------------------------------------------------------
  // Whole responses

  /** What the fields say about the body. */
  predicate SaysChunked(fields: seq<Field>) {
    var value := LastField(fields, "transfer-encoding");
    value.Some? && Contains(value.value, "chunked")
  }

  predicate SaysEventStream(fields: seq<Field>) {
    var value := LastField(fields, "content-type");
    value.Some? && Contains(value.value, "vnd.amazon.eventstream")
  }

  /** The content coding undone; a coding the meter does not know has no result. */
  function Uncompressed(lib: Libraries, fields: seq<Field>, body: Bytes): Option<Bytes> {
    match LastField(fields, "content-encoding")
    case None => Some(body)
    case Some(coding) =>
      if coding == "" || coding == "identity" then Some(body)
      else if coding == "gzip" || coding == "deflate" then lib.inflate(body)
      else None
  }

  lemma NothingContained(part: Bytes)
    requires part != []
    ensures !Contains([], part)
  {
  }

  predicate SaysSo(fields: seq<Field>, headers: Headers) {
    && (IsChunked(headers) <==> SaysChunked(fields)) && (IsEventStream(headers) <==> SaysEventStream(fields))
    && HeaderOf(headers, "content-encoding") ==
         match LastField(fields, "content-encoding") { case None => [] case Some(value) => value }
  }

  lemma FieldsAreSaid(statusLine: Bytes, fields: seq<Field>)
    requires '\r' !in statusLine && FieldsOk(fields)
    ensures SaysSo(fields, ResponseHeaders(Head(statusLine, fields)))
  {
    HeadersReadBack(statusLine, fields, "transfer-encoding");
    HeadersReadBack(statusLine, fields, "content-type");
    HeadersReadBack(statusLine, fields, "content-encoding");
    NothingContained("chunked");
    NothingContained("vnd.amazon.eventstream");
  }

  /** A final response as it is written: after any interim responses, a head, a blank line, a body. */
  function Written(interims: seq<Bytes>, statusLine: Bytes, fields: seq<Field>, body: Bytes): Bytes {
    Interims(interims) + (Head(statusLine, fields) + BLANK + body)
  }

  predicate Writable(interims: seq<Bytes>, statusLine: Bytes, fields: seq<Field>) {
    && (forall i :: 0 <= i < |interims| ==> IsHead(interims[i]) && IsInterim(interims[i]))
    && '\r' !in statusLine && StatusOf(statusLine).Some? && !IsInterim(statusLine) && FieldsOk(fields)
  }

  /** A written response reaches the meter's parser as its head and its body. */
  lemma FinalIsReached(interims: seq<Bytes>, statusLine: Bytes, fields: seq<Field>, body: Bytes)
    requires Writable(interims, statusLine, fields)
    ensures var head := Head(statusLine, fields);
      && SkipInterim(Written(interims, statusLine, fields, body)) == head + BLANK + body
      && FindBlank(head + BLANK + body, 0) == Some(|head|)
      && (head + BLANK + body)[..|head|] == head && (head + BLANK + body)[|head| + 4..] == body
      && StatusOf(head) == StatusOf(statusLine)
  {
    WrittenHead(statusLine, fields);
    HeadIsFound(Head(statusLine, fields), body);
    InterimsAreSkipped(interims, Head(statusLine, fields) + BLANK + body);
  }

  /** A response of status 200 is parsed as its headers and its body say. */
  lemma FinalIsParsed(lib: Libraries, final: Bytes, head: Bytes, body: Bytes, headers: Headers)
    requires FindBlank(final, 0) == Some(|head|) && final[..|head|] == head && final[|head| + 4..] == body
    requires StatusOf(head) == Some("200") && headers == ResponseHeaders(head) && BodyOk(headers, body)
    ensures FinalOk(final)
    ensures FinalUsage(lib, final) ==
      match DecodedBody(lib, headers, body) { case None => None case Some(decoded) => UsageIn(lib, headers, decoded) }
  {
  }

  lemma PlainIsDecoded(lib: Libraries, fields: seq<Field>, headers: Headers, body: Bytes, data: Bytes)
    requires SaysSo(fields, headers) && BodyOk(headers, body)
    requires if SaysChunked(fields) then DechunkFrom(ChunkSize, body, 0) == Some(data) else body == data
    ensures DecodedBody(lib, headers, body) == Uncompressed(lib, fields, data)
  {
  }

  /** Any status but 200 is not metered. */
  lemma OtherStatusIsNotMetered(lib: Libraries, interims: seq<Bytes>, statusLine: Bytes, fields: seq<Field>, body: Bytes)
    requires Writable(interims, statusLine, fields) && StatusOf(statusLine) != Some("200")
    ensures var raw := Written(interims, statusLine, fields, body);
      ResponseOk(raw) && ParseUsage(lib, raw) == None
  {
    FinalIsReached(interims, statusLine, fields, body);
  }

  /** The body of a written response, with its transfer coding undone. */
  predicate IsSent(fields: seq<Field>, body: Bytes, data: Bytes) {
    if SaysChunked(fields) then EndsFrom(ChunkSize, body, 0) && DechunkFrom(ChunkSize, body, 0) == Some(data) else body == data
  }

  lemma BodyIsMetered(lib: Libraries, interims: seq<Bytes>, statusLine: Bytes, fields: seq<Field>, body: Bytes, data: Bytes)
    requires Writable(interims, statusLine, fields) && StatusOf(statusLine) == Some("200") && IsSent(fields, body, data)
    ensures var raw := Written(interims, statusLine, fields, body);
      ResponseOk(raw)
      && ParseUsage(lib, raw) == match Uncompressed(lib, fields, data) {
           case None => None
           case Some(plain) => UsageIn(lib, ResponseHeaders(Head(statusLine, fields)), plain)
         }
    ensures IsEventStream(ResponseHeaders(Head(statusLine, fields))) <==> SaysEventStream(fields)
  {
    var head := Head(statusLine, fields);
    FinalIsReached(interims, statusLine, fields, body);
    FieldsAreSaid(statusLine, fields);
    FinalIsParsed(lib, head + BLANK + body, head, body, ResponseHeaders(head));
    PlainIsDecoded(lib, fields, ResponseHeaders(head), body, data);
  }

  /**
   * End to end for a plain response of status 200, with any header fields: its
   * usage is that of the whole body, decompressed as its last Content-Encoding
   * says.
   */
  lemma PlainUsage(lib: Libraries, interims: seq<Bytes>, statusLine: Bytes, fields: seq<Field>, body: Bytes)
    requires Writable(interims, statusLine, fields) && StatusOf(statusLine) == Some("200")
    requires !SaysChunked(fields) && !SaysEventStream(fields)
    ensures var raw := Written(interims, statusLine, fields, body);
      ResponseOk(raw)
      && ParseUsage(lib, raw) ==
           match Uncompressed(lib, fields, body) { case None => None case Some(plain) => lib.counters(plain) }
  {
    BodyIsMetered(lib, interims, statusLine, fields, body, body);
  }

  /** The same for one that is sent in chunks. */
  lemma ChunkedUsage(lib: Libraries, interims: seq<Bytes>, statusLine: Bytes, fields: seq<Field>, chunks: seq<StandardChunk>,
                     digits: Bytes, extension: Bytes, trailers: Bytes)
    requires Writable(interims, statusLine, fields) && StatusOf(statusLine) == Some("200")
    requires SaysChunked(fields) && !SaysEventStream(fields)
    requires forall i :: 0 <= i < |chunks| ==>
      IsChunk(chunks[i].digits, chunks[i].extension, chunks[i].data) && chunks[i].data != []
    requires IsChunk(digits, extension, [])
    ensures var raw := Written(interims, statusLine, fields, Encode(ToPieces(chunks), digits + extension, trailers));
      ResponseOk(raw)
      && ParseUsage(lib, raw) ==
           match Uncompressed(lib, fields, Data(ToPieces(chunks))) { case None => None case Some(plain) => lib.counters(plain) }
  {
    var body := Encode(ToPieces(chunks), digits + extension, trailers);
    DechunkUndoesEncode(chunks, digits, extension, trailers);
    BodyIsMetered(lib, interims, statusLine, fields, body, Data(ToPieces(chunks)));
  }

  /** And for an event stream in any of these codings: its usage is that of the first metadata message. */
  lemma EventStreamUsage(lib: Libraries, interims: seq<Bytes>, statusLine: Bytes, fields: seq<Field>, body: Bytes, data: Bytes,
                         messages: seq<StreamMessage>, rest: Bytes)
    requires Writable(interims, statusLine, fields) && StatusOf(statusLine) == Some("200") && IsSent(fields, body, data)
    requires SaysEventStream(fields) && WellFramed(messages)
    requires Uncompressed(lib, fields, data) == Some(Concat(Wires(messages)) + rest)
    requires FirstPayload(Contents(messages)).Some? || |rest| < 12
    ensures var raw := Written(interims, statusLine, fields, body);
      ResponseOk(raw)
      && ParseUsage(lib, raw) ==
           match FirstPayload(Contents(messages)) { case None => None case Some(payload) => lib.counters(payload) }
  {
    BodyIsMetered(lib, interims, statusLine, fields, body, data);
    StreamScan(messages, rest);
  }
}
