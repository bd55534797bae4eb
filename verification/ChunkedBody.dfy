/** The chunked transfer coding of section 7.1 of RFC 9112: the meter's decoder, and an encoder that it undoes. */
module ChunkedBody {
  import opened Prelude
  import opened ChunkSizes

  const CRLF: Bytes := "\r\n"

  /** A pair of bytes is a line end. */
  predicate LineEndAt(s: Bytes, i: nat) {
    i + 1 < |s| && s[i] == '\r' && s[i + 1] == '\n'
  }

  /** The first line end at or after `from`. */
  function FindLineEnd(s: Bytes, from: nat): (i: Option<nat>)
    ensures i.Some? ==> from <= i.value && i.value + 2 <= |s|
    decreases |s| - from
  {
    if from + 1 >= |s| then None else if LineEndAt(s, from) then Some(from) else FindLineEnd(s, from + 1)
  }

  /** It is the first one. */
  lemma {:induction false} FirstLineEnd(s: Bytes, from: nat, j: nat)
    requires from <= j && LineEndAt(s, j)
    ensures FindLineEnd(s, from).Some? && FindLineEnd(s, from).value <= j && LineEndAt(s, FindLineEnd(s, from).value)
    decreases j - from
  {
    if !LineEndAt(s, from) {
      FirstLineEnd(s, from + 1, j);
    }
  }

  /** A slice's end as Python takes it: a negative one counts from the end. */
  function SliceTo(s: Bytes, from: nat, to: int): Bytes
    requires from <= |s|
  {
    var end := if to < 0 then to + |s| else to;
    if from <= end <= |s| then s[from..end] else []
  }

  // ---------------------------------------------------------------------------
  // Decoding, for any way to read the size on a line

  type SizeReader = Bytes -> Option<int>

  /** Where a search starts: a negative offset counts from the end, and not further than the start. */
  function Position(body: Bytes, offset: int): nat {
    if offset >= 0 then offset else if offset + |body| >= 0 then offset + |body| else 0
  }

  /** What one turn of the decoder's loop does at a position. */
  datatype Turn = Malformed | Ended | Chunk(size: int, data: Bytes, next: int)

  function TurnAt(read: SizeReader, body: Bytes, offset: nat): (t: Turn)
    ensures t.Chunk? ==> Position(body, t.next) <= |body| + 2
    ensures t.Chunk? && t.size >= 0 ==> offset < t.next <= |body| + 2
  {
    match FindLineEnd(body, offset)
    case None => Malformed
    case Some(lineEnd) =>
      match read(body[offset..lineEnd])
      case None => Malformed
      case Some(size) =>
        var start := lineEnd + 2;
        if size == 0 then Ended
        else if start + size > |body| then Malformed
        else Chunk(size, SliceTo(body, start, start + size), start + size + 2)
  }

  /** Where the loop is after some turns, unless it has stopped. */
  function TurnsFrom(read: SizeReader, body: Bytes, offset: nat, turns: nat): Option<nat>
    decreases turns
  {
    if turns == 0 then Some(offset)
    else
      match TurnAt(read, body, offset)
      case Chunk(_, _, next) => TurnsFrom(read, body, Position(body, next), turns - 1)
      case _ => None
  }

  /** More turns than there are positions. */
  function Enough(body: Bytes): nat {
    |body| + 3
  }

  /** The loop has stopped after so many turns. */
  predicate EndsFrom(read: SizeReader, body: Bytes, offset: nat) {
    TurnsFrom(read, body, offset, Enough(body)).None?
  }

  /** The decoded bytes from `offset` on, when the loop stops after so many turns. */
  function DechunkIn(read: SizeReader, body: Bytes, offset: nat, turns: nat): Option<Bytes>
    requires TurnsFrom(read, body, offset, turns).None?
    decreases turns
  {
    match TurnAt(read, body, offset)
    case Malformed => None
    case Ended => Some([])
    case Chunk(_, data, next) => Before(data, DechunkIn(read, body, Position(body, next), turns - 1))
  }

  function DechunkFrom(read: SizeReader, body: Bytes, offset: nat): Option<Bytes>
    requires EndsFrom(read, body, offset)
  {
    DechunkIn(read, body, offset, Enough(body))
  }

  // ---------------------------------------------------------------------------
  // When the loop ends

  lemma {:induction false} TurnsAdd(read: SizeReader, body: Bytes, offset: nat, a: nat, b: nat)
    ensures TurnsFrom(read, body, offset, a + b) ==
      match TurnsFrom(read, body, offset, a) { case None => None case Some(o) => TurnsFrom(read, body, o, b) }
    decreases a
  {
    if a > 0 {
      var turn := TurnAt(read, body, offset);
      if turn.Chunk? {
        TurnsAdd(read, body, Position(body, turn.next), a - 1, b);
      }
    }
  }

  /** Who has stopped stays stopped. */
  lemma StoppedStays(read: SizeReader, body: Bytes, offset: nat, a: nat, b: nat)
    requires a <= b && TurnsFrom(read, body, offset, a).None?
    ensures TurnsFrom(read, body, offset, b).None?
  {
    TurnsAdd(read, body, offset, a, b - a);
  }

  lemma {:induction false} PositionsAreFew(read: SizeReader, body: Bytes, offset: nat, turns: nat)
    requires offset <= |body| + 2
    ensures TurnsFrom(read, body, offset, turns).Some? ==> TurnsFrom(read, body, offset, turns).value <= |body| + 2
    decreases turns
  {
    if turns > 0 {
      var turn := TurnAt(read, body, offset);
      if turn.Chunk? {
        PositionsAreFew(read, body, Position(body, turn.next), turns - 1);
      }
    }
  }

  /** The loop is at one position twice. */
  predicate ComesBack(read: SizeReader, body: Bytes, offset: nat, i: nat, j: nat) {
    i < j && TurnsFrom(read, body, offset, i).Some? && TurnsFrom(read, body, offset, i) == TurnsFrom(read, body, offset, j)
  }

  /** Then it goes round for ever. */
  lemma {:induction false} GoesRound(read: SizeReader, body: Bytes, o: nat, period: nat, turns: nat)
    requires period > 0 && TurnsFrom(read, body, o, period) == Some(o)
    ensures TurnsFrom(read, body, o, turns).Some?
    decreases turns
  {
    if turns < period {
      if TurnsFrom(read, body, o, turns).None? {
        StoppedStays(read, body, o, turns, period);
      }
    } else {
      GoesRound(read, body, o, period, turns - period);
      TurnsAdd(read, body, o, period, turns - period);
    }
  }

  lemma ComingBackNeverEnds(read: SizeReader, body: Bytes, offset: nat, i: nat, j: nat, turns: nat)
    requires ComesBack(read, body, offset, i, j)
    ensures TurnsFrom(read, body, offset, turns).Some?
  {
    var o := TurnsFrom(read, body, offset, i).value;
    TurnsAdd(read, body, offset, i, j - i);
    GoesRound(read, body, o, j - i, turns);
    TurnsAdd(read, body, offset, i, turns);
    if TurnsFrom(read, body, offset, turns).None? {
      StoppedStays(read, body, offset, turns, i + turns);
    }
  }

  /** There are no more distinct numbers than the bound. */
  lemma {:induction false} DistinctAreFew(numbers: seq<nat>, free: set<nat>)
    requires forall i :: 0 <= i < |numbers| ==> numbers[i] in free
    requires forall i, j :: 0 <= i < j < |numbers| ==> numbers[i] != numbers[j]
    ensures |numbers| <= |free|
    decreases |numbers|
  {
    if numbers != [] {
      var last := |numbers| - 1;
      DistinctAreFew(numbers[..last], free - {numbers[last]});
    }
  }

  function UpTo(n: nat): set<nat> {
    if n == 0 then {} else UpTo(n - 1) + {n - 1}
  }

  lemma {:induction false} SizeOfUpTo(n: nat)
    ensures |UpTo(n)| == n && forall i: nat :: i in UpTo(n) <==> i < n
  {
    if n > 0 {
      SizeOfUpTo(n - 1);
    }
  }

  lemma {:induction false} Positions(read: SizeReader, body: Bytes, offset: nat, turns: nat) returns (all: seq<nat>)
    requires TurnsFrom(read, body, offset, turns).Some?
    ensures |all| == turns + 1
    ensures forall i :: 0 <= i <= turns ==> TurnsFrom(read, body, offset, i) == Some(all[i])
    decreases turns
  {
    if turns == 0 {
      all := [offset];
    } else {
      if TurnsFrom(read, body, offset, turns - 1).None? {
        StoppedStays(read, body, offset, turns - 1, turns);
      }
      var before := Positions(read, body, offset, turns - 1);
      all := before + [TurnsFrom(read, body, offset, turns).value];
    }
  }

  /** After more turns than there are positions the loop has been somewhere twice. */
  lemma LongRunsComeBack(read: SizeReader, body: Bytes, offset: nat)
    requires offset <= |body| + 2 && !EndsFrom(read, body, offset)
    ensures exists i, j :: ComesBack(read, body, offset, i, j)
  {
    var n := Enough(body);
    var all := Positions(read, body, offset, n);
    SizeOfUpTo(n);
    forall i | 0 <= i <= n ensures all[i] in UpTo(n) {
      PositionsAreFew(read, body, offset, i);
    }
    if forall i, j :: 0 <= i < j <= n ==> all[i] != all[j] {
      DistinctAreFew(all, UpTo(n));
    }
    var i, j :| 0 <= i < j <= n && all[i] == all[j];
    assert ComesBack(read, body, offset, i, j);
  }

  /**
   * Exactly when the decoder's loop ends: it has stopped after three turns more
   * than the body has bytes; and it ends if and only if it is at no position twice.
   */
  lemma LoopEndsExactly(read: SizeReader, body: Bytes, offset: nat)
    requires offset <= |body| + 2
    ensures EndsFrom(read, body, offset) <==> exists turns :: TurnsFrom(read, body, offset, turns).None?
    ensures EndsFrom(read, body, offset) <==> !(exists i, j :: ComesBack(read, body, offset, i, j))
  {
    if EndsFrom(read, body, offset) {
      assert TurnsFrom(read, body, offset, Enough(body)).None?;
      forall i, j ensures !ComesBack(read, body, offset, i, j) {
        if ComesBack(read, body, offset, i, j) {
          ComingBackNeverEnds(read, body, offset, i, j, Enough(body));
        }
      }
    } else {
      LongRunsComeBack(read, body, offset);
      var i, j :| ComesBack(read, body, offset, i, j);
      forall turns: nat ensures TurnsFrom(read, body, offset, turns).Some? {
        ComingBackNeverEnds(read, body, offset, i, j, turns);
      }
    }
  }

  /** More turns than needed do not matter. */
  lemma {:induction false} TurnsToSpare(read: SizeReader, body: Bytes, offset: nat, a: nat, b: nat)
    requires a <= b && TurnsFrom(read, body, offset, a).None? && TurnsFrom(read, body, offset, b).None?
    ensures DechunkIn(read, body, offset, a) == DechunkIn(read, body, offset, b)
    decreases a
  {
    var turn := TurnAt(read, body, offset);
    if turn.Chunk? {
      TurnsToSpare(read, body, Position(body, turn.next), a - 1, b - 1);
    }
  }

  /** The decoding turn by turn. */
  lemma DechunkStep(read: SizeReader, body: Bytes, offset: nat)
    requires offset <= |body| + 2 && TurnAt(read, body, offset).Chunk?
    ensures var next := Position(body, TurnAt(read, body, offset).next);
      && (EndsFrom(read, body, offset) <==> EndsFrom(read, body, next))
      && (EndsFrom(read, body, next) ==>
            DechunkFrom(read, body, offset) == Before(TurnAt(read, body, offset).data, DechunkFrom(read, body, next)))
  {
    var next := Position(body, TurnAt(read, body, offset).next);
    assert TurnsFrom(read, body, offset, Enough(body)) == TurnsFrom(read, body, next, Enough(body) - 1);
    assert TurnsFrom(read, body, offset, Enough(body) + 1) == TurnsFrom(read, body, next, Enough(body));
    if EndsFrom(read, body, next) {
      LoopEndsExactly(read, body, offset);
      StoppedStays(read, body, next, Enough(body) - 1, Enough(body));
      TurnsToSpare(read, body, next, Enough(body) - 1, Enough(body));
    }
    if EndsFrom(read, body, offset) {
      StoppedStays(read, body, next, Enough(body) - 1, Enough(body));
    }
  }

  // ---------------------------------------------------------------------------
  // The decoder

  function Before(data: Bytes, rest: Option<Bytes>): Option<Bytes> {
    if rest.None? then None else Some(data + rest.value)
  }

  lemma BeforeIsAssociative(a: Bytes, b: Bytes, rest: Option<Bytes>)
    ensures Before(a, Before(b, rest)) == Before(a + b, rest)
  {
    if rest.Some? {
      assert a + (b + rest.value) == a + b + rest.value;
    }
  }

  lemma BeforeNothing(rest: Option<Bytes>)
    ensures Before([], rest) == rest
  {
    if rest.Some? {
      assert [] + rest.value == rest.value;
    }
  }

  lemma BeforeTheEnd(data: Bytes)
    ensures Before(data, Some([])) == Some(data)
  {
    assert data + [] == data;
  }

  lemma OneTurn(read: SizeReader, body: Bytes, offset: nat, left: nat, data: Bytes)
    requires TurnsFrom(read, body, offset, left).None?
    ensures var whole := Before(data, DechunkIn(read, body, offset, left));
      match TurnAt(read, body, offset)
      case Malformed => whole == None
      case Ended => whole == Some(data)
      case Chunk(_, chunk, next) =>
        left > 0 && TurnsFrom(read, body, Position(body, next), left - 1).None?
        && whole == Before(data + chunk, DechunkIn(read, body, Position(body, next), left - 1))
  {
    match TurnAt(read, body, offset)
    case Malformed =>
    case Ended => BeforeTheEnd(data);
    case Chunk(_, chunk, next) => BeforeIsAssociative(data, chunk, DechunkIn(read, body, Position(body, next), left - 1));
  }

  /** The decoder, on every body on which it ends. */
  method Dechunked(read: SizeReader, body: Bytes) returns (decoded: Option<Bytes>)
    requires EndsFrom(read, body, 0)
    ensures decoded == DechunkFrom(read, body, 0)
  {
    var data: Bytes := [];
    var offset: int := 0;
    ghost var left := Enough(body);
    ghost var whole := DechunkFrom(read, body, 0);
    BeforeNothing(whole);
    while true
      invariant TurnsFrom(read, body, Position(body, offset), left).None?
      invariant whole == Before(data, DechunkIn(read, body, Position(body, offset), left))
      decreases left
    {
      var from := Position(body, offset);
      OneTurn(read, body, from, left, data);
      var lineEnd := FindLineEnd(body, from);
      if lineEnd.None? {
        return None;
      }
      var size := read(body[from..lineEnd.value]);
      if size.None? {
        return None;
      }
      if size.value == 0 {
        return Some(data);
      }
      var start := lineEnd.value + 2;
      if start + size.value > |body| {
        return None;
      }
      var chunk := SliceTo(body, start, start + size.value);
      assert TurnAt(read, body, from) == Chunk(size.value, chunk, start + size.value + 2);
      data := data + chunk;
      offset := start + size.value + 2;
      left := left - 1;
    }
  }

  // ---------------------------------------------------------------------------
  // Signed sizes

  /** No size that the decoder meets from `offset` on is negative. */
  ghost predicate UnsignedFrom(read: SizeReader, body: Bytes, offset: nat)
    decreases |body| + 2 - offset
  {
    match TurnAt(read, body, offset)
    case Chunk(size, _, next) => size >= 0 && UnsignedFrom(read, body, next)
    case _ => true
  }

  /** Then every turn moves on, and the loop ends. */
  lemma {:induction false} UnsignedEnds(read: SizeReader, body: Bytes, offset: nat)
    requires UnsignedFrom(read, body, offset) && offset <= |body| + 2
    ensures EndsFrom(read, body, offset)
    decreases |body| + 2 - offset
  {
    var turn := TurnAt(read, body, offset);
    if turn.Chunk? {
      UnsignedEnds(read, body, turn.next);
      DechunkStep(read, body, offset);
    }
  }

  /** A body in which no minus sign occurs meets no negative size, so the loop ends. */
  lemma {:induction false} NoMinusMeansUnsigned(body: Bytes, offset: nat)
    requires '-' !in body && offset <= |body| + 2
    ensures UnsignedFrom(ChunkSize, body, offset) && EndsFrom(ChunkSize, body, offset)
    decreases |body| + 2 - offset
  {
    var turn := TurnAt(ChunkSize, body, offset);
    if turn.Chunk? {
      UnsignedSize(body[offset..FindLineEnd(body, offset).value]);
      NoMinusMeansUnsigned(body, turn.next);
    }
    UnsignedEnds(ChunkSize, body, offset);
  }

  const MINUS_SIX: Bytes := "-6\r\n"

  /** A negative size can send the decoder back to where it was: */
  lemma MinusSixStaysPut(read: SizeReader)
    requires read("-6") == Some(-6)
    ensures TurnAt(read, MINUS_SIX, 0) == Chunk(-6, [], 0)
  {
    assert FindLineEnd(MINUS_SIX, 0) == FindLineEnd(MINUS_SIX, 1) == FindLineEnd(MINUS_SIX, 2) == Some(2);
    assert MINUS_SIX[0..2] == "-6";
  }

  lemma {:induction false} MinusSixStays(read: SizeReader, turns: nat)
    requires read("-6") == Some(-6)
    ensures TurnsFrom(read, MINUS_SIX, 0, turns) == Some(0)
  {
    if turns > 0 {
      MinusSixStaysPut(read);
      MinusSixStays(read, turns - 1);
    }
  }

  /** on this body it never stops. */
  lemma {:induction false} MinusSixNeverEnds(turns: nat)
    ensures TurnsFrom(ChunkSize, MINUS_SIX, 0, turns) == Some(0)
  {
    MinusSix();
    MinusSixStays(ChunkSize, turns);
  }

  const MINUS_FOUR: Bytes := "-4\r\n"

  /** Yet a negative size need not be the end of it: on this body the loop is back at the line end, and finds nothing left. */
  lemma MinusFourEnds(read: SizeReader)
    requires read("-4") == Some(-4) && read("") == Some(0)
    ensures !UnsignedFrom(read, MINUS_FOUR, 0)
    ensures EndsFrom(read, MINUS_FOUR, 0) && DechunkFrom(read, MINUS_FOUR, 0) == Some([])
  {
    assert FindLineEnd(MINUS_FOUR, 0) == FindLineEnd(MINUS_FOUR, 1) == FindLineEnd(MINUS_FOUR, 2) == Some(2);
    assert MINUS_FOUR[0..2] == "-4" && MINUS_FOUR[2..2] == "";
    assert TurnAt(read, MINUS_FOUR, 0) == Chunk(-4, [], 2) && TurnAt(read, MINUS_FOUR, 2) == Ended;
    DechunkStep(read, MINUS_FOUR, 0);
    BeforeTheEnd([]);
  }

  // ---------------------------------------------------------------------------
  // Encoding

  /** One chunk: its size line and its data. */
  datatype Piece = Piece(line: Bytes, data: Bytes)

  predicate PieceOk(read: SizeReader, p: Piece) {
    '\r' !in p.line && read(p.line) == Some(|p.data|)
  }

  function EncodePiece(p: Piece): Bytes {
    (p.line + CRLF) + (p.data + CRLF)
  }

  function EncodePieces(pieces: seq<Piece>): Bytes {
    if pieces == [] then [] else EncodePiece(pieces[0]) + EncodePieces(pieces[1..])
  }

  /** The chunks, the line of the last chunk, whose size is zero, and whatever trailers follow. */
  function Encode(pieces: seq<Piece>, last: Bytes, trailers: Bytes): Bytes {
    EncodePieces(pieces) + (last + CRLF + trailers)
  }

  function Data(pieces: seq<Piece>): Bytes {
    if pieces == [] then [] else pieces[0].data + Data(pieces[1..])
  }

  // ---------------------------------------------------------------------------
  // Round trip

  predicate ContinuesWith(body: Bytes, offset: nat, part: Bytes) {
    offset + |part| <= |body| && body[offset..offset + |part|] == part
  }

  lemma ContinuesInParts(body: Bytes, offset: nat, a: Bytes, b: Bytes)
    requires ContinuesWith(body, offset, a + b)
    ensures ContinuesWith(body, offset, a) && ContinuesWith(body, offset + |a|, b)
  {
    assert body[offset..offset + |a|] == (a + b)[..|a|];
    assert body[offset + |a|..offset + |a| + |b|] == (a + b)[|a|..];
  }

  lemma {:induction false} LineEndsThere(body: Bytes, offset: nat, line: Bytes, from: nat)
    requires '\r' !in line && ContinuesWith(body, offset, line) && ContinuesWith(body, offset + |line|, CRLF)
    requires offset <= from <= offset + |line|
    ensures FindLineEnd(body, from) == Some(offset + |line|)
    decreases offset + |line| - from
  {
    var n := offset + |line|;
    if from < n {
      assert body[from] == body[offset..n][from - offset] == line[from - offset];
      LineEndsThere(body, offset, line, from + 1);
    } else {
      assert body[n] == body[n..n + 2][0] && body[n + 1] == body[n..n + 2][1];
    }
  }

  lemma TurnOnPiece(read: SizeReader, body: Bytes, offset: nat, p: Piece)
    requires PieceOk(read, p) && ContinuesWith(body, offset, p.line + CRLF)
    requires ContinuesWith(body, offset + |p.line| + 2, p.data)
    ensures TurnAt(read, body, offset) ==
      if p.data == [] then Ended else Chunk(|p.data|, p.data, offset + |p.line| + |p.data| + 4)
  {
    ContinuesInParts(body, offset, p.line, CRLF);
    LineEndsThere(body, offset, p.line, offset);
  }

  /** The decoder undoes the encoder, whatever the size lines and the trailers look like. */
  lemma {:induction false} DecodesPieces(
    read: SizeReader, body: Bytes, offset: nat, pieces: seq<Piece>, last: Bytes, trailers: Bytes)
    requires forall i :: 0 <= i < |pieces| ==> PieceOk(read, pieces[i]) && pieces[i].data != []
    requires PieceOk(read, Piece(last, []))
    requires ContinuesWith(body, offset, EncodePieces(pieces) + (last + CRLF + trailers))
    ensures UnsignedFrom(read, body, offset) && EndsFrom(read, body, offset)
    ensures DechunkFrom(read, body, offset) == Some(Data(pieces))
    decreases |pieces|
  {
    var end := last + CRLF + trailers;
    ContinuesInParts(body, offset, EncodePieces(pieces), end);
    if pieces == [] {
      ContinuesInParts(body, offset, last + CRLF, trailers);
      TurnOnPiece(read, body, offset, Piece(last, []));
    } else {
      var p, rest := pieces[0], EncodePieces(pieces[1..]);
      assert EncodePieces(pieces) + end == EncodePiece(p) + (rest + end);
      ContinuesInParts(body, offset, EncodePiece(p), rest + end);
      PieceTurn(read, body, offset, p);
      DecodesPieces(read, body, offset + |EncodePiece(p)|, pieces[1..], last, trailers);
      DechunkStep(read, body, offset);
    }
  }

  lemma PieceTurn(read: SizeReader, body: Bytes, offset: nat, p: Piece)
    requires PieceOk(read, p) && p.data != [] && ContinuesWith(body, offset, EncodePiece(p))
    ensures TurnAt(read, body, offset) == Chunk(|p.data|, p.data, offset + |EncodePiece(p)|)
  {
    ContinuesInParts(body, offset, p.line + CRLF, p.data + CRLF);
    ContinuesInParts(body, offset + |p.line + CRLF|, p.data, CRLF);
    TurnOnPiece(read, body, offset, p);
  }

  /** A chunk as section 7.1 writes it: digits in any case, leading zeros, and extensions are allowed. */
  predicate IsChunk(digits: Bytes, extension: Bytes, data: Bytes) {
    digits != [] && IsHex(digits) && ExtensionOk(extension) && HexValue(digits) == |data|
  }

  datatype StandardChunk = StandardChunk(digits: Bytes, extension: Bytes, data: Bytes)

  function ToPiece(c: StandardChunk): Piece {
    Piece(c.digits + c.extension, c.data)
  }

  function ToPieces(chunks: seq<StandardChunk>): seq<Piece> {
    seq(|chunks|, i requires 0 <= i < |chunks| => ToPiece(chunks[i]))
  }

  /** Every body that section 7.1 allows decodes to the data of its chunks. */
  lemma DechunkUndoesEncode(chunks: seq<StandardChunk>, digits: Bytes, extension: Bytes, trailers: Bytes)
    requires forall i :: 0 <= i < |chunks| ==>
      IsChunk(chunks[i].digits, chunks[i].extension, chunks[i].data) && chunks[i].data != []
    requires IsChunk(digits, extension, [])
    ensures var body := Encode(ToPieces(chunks), digits + extension, trailers);
      EndsFrom(ChunkSize, body, 0) && DechunkFrom(ChunkSize, body, 0) == Some(Data(ToPieces(chunks)))
  {
    var pieces := ToPieces(chunks);
    forall i | 0 <= i < |pieces|
      ensures PieceOk(ChunkSize, pieces[i]) && pieces[i].data != []
    {
      StandardLine(chunks[i].digits, chunks[i].extension, chunks[i].data);
    }
    StandardLine(digits, extension, []);
    DecodesPieces(ChunkSize, Encode(pieces, digits + extension, trailers), 0, pieces, digits + extension, trailers);
  }

  lemma StandardLine(digits: Bytes, extension: Bytes, data: Bytes)
    requires IsChunk(digits, extension, data)
    ensures PieceOk(ChunkSize, Piece(digits + extension, data))
  {
    SizeOnTheLine(digits, extension);
    LineHasNoReturn(digits, extension);
  }

  lemma NothingLeft(read: SizeReader, body: Bytes)
    ensures TurnAt(read, body, |body|) == Malformed
  {
    assert FindLineEnd(body, |body|).None?;
  }

  /** Without its last chunk a body does not decode. */
  lemma {:induction false} UnterminatedIsRejected(read: SizeReader, body: Bytes, offset: nat, pieces: seq<Piece>)
    requires forall i :: 0 <= i < |pieces| ==> PieceOk(read, pieces[i]) && pieces[i].data != []
    requires ContinuesWith(body, offset, EncodePieces(pieces)) && offset + |EncodePieces(pieces)| == |body|
    ensures UnsignedFrom(read, body, offset) && EndsFrom(read, body, offset)
    ensures DechunkFrom(read, body, offset) == None
    decreases |pieces|
  {
    if pieces == [] {
      NothingLeft(read, body);
    } else {
      var p := pieces[0];
      ContinuesInParts(body, offset, EncodePiece(p), EncodePieces(pieces[1..]));
      PieceTurn(read, body, offset, p);
      UnterminatedIsRejected(read, body, offset + |EncodePiece(p)|, pieces[1..]);
      DechunkStep(read, body, offset);
    }
  }
}
