/** The size line of a chunk in the chunked transfer coding (section 7.1 of RFC 9112), as the meter reads it. */
module ChunkSizes {
  import opened Prelude

  /** A byte string; a byte is the character of its number. */
  type Bytes = string

  // ---------------------------------------------------------------------------
  // Byte strings

  predicate IsSpace(b: char) {
    b == ' ' || '\t' <= b <= '\r'
  }

  function StripLeft(s: Bytes): Bytes {
    if s != [] && IsSpace(s[0]) then StripLeft(s[1..]) else s
  }

  function StripRight(s: Bytes): Bytes {
    if s != [] && IsSpace(s[|s| - 1]) then StripRight(s[..|s| - 1]) else s
  }

  function Strip(s: Bytes): Bytes {
    StripRight(StripLeft(s))
  }

  /** What precedes the first semicolon. */
  function BeforeSemicolon(s: Bytes): Bytes {
    if s == [] || s[0] == ';' then [] else [s[0]] + BeforeSemicolon(s[1..])
  }

  // ---------------------------------------------------------------------------
  // Sizes

  function HexDigit(b: char): Option<nat> {
    if '0' <= b <= '9' then Some(b as int - '0' as int)
    else if 'a' <= b <= 'f' then Some(b as int - 'a' as int + 10)
    else if 'A' <= b <= 'F' then Some(b as int - 'A' as int + 10)
    else None
  }

  predicate IsHex(s: Bytes) {
    forall i :: 0 <= i < |s| ==> HexDigit(s[i]).Some?
  }

  function HexValue(s: Bytes): nat
    requires IsHex(s)
  {
    if s == [] then 0 else 16 * HexValue(s[..|s| - 1]) + HexDigit(s[|s| - 1]).value
  }

  /** Digits with single underscores between them. */
  function ParseDigits(s: Bytes, value: nat, afterDigit: bool): Option<nat> {
    if s == [] then (if afterDigit then Some(value) else None)
    else if s[0] == '_' then (if afterDigit then ParseDigits(s[1..], value, false) else None)
    else if HexDigit(s[0]).Some? then ParseDigits(s[1..], 16 * value + HexDigit(s[0]).value, true)
    else None
  }

  /** Drops a radix prefix and one underscore after it. */
  function SkipPrefix(s: Bytes): Bytes {
    if |s| >= 2 && s[0] == '0' && (s[1] == 'x' || s[1] == 'X') then
      (if |s| >= 3 && s[2] == '_' then s[3..] else s[2..])
    else s
  }

  /** A hexadecimal number as Python reads one: a sign, a prefix and underscores are allowed. */
  function ParseHex(s: Bytes): Option<int> {
    if s == [] then None
    else if s[0] == '-' then
      var n := ParseDigits(SkipPrefix(s[1..]), 0, false);
      if n.Some? then Some(-(n.value as int)) else None
    else
      var n := ParseDigits(SkipPrefix(if s[0] == '+' then s[1..] else s), 0, false);
      if n.Some? then Some(n.value as int) else None
  }

  /** The size on a chunk's first line; an empty one counts as zero. */
  function ChunkSize(line: Bytes): Option<int> {
    var text := Strip(BeforeSemicolon(line));
    if text == [] then Some(0) else ParseHex(text)
  }

  // ---------------------------------------------------------------------------
  // Sizes without a minus sign

  lemma {:induction false} PartsHaveNoMinus(s: Bytes)
    requires '-' !in s
    ensures '-' !in StripLeft(s) && '-' !in StripRight(s) && '-' !in BeforeSemicolon(s)
    decreases |s|
  {
    if s != [] {
      PartsHaveNoMinus(s[1..]);
      PartsHaveNoMinus(s[..|s| - 1]);
    }
  }

  lemma UnsignedSize(line: Bytes)
    requires '-' !in line && ChunkSize(line).Some?
    ensures ChunkSize(line).value >= 0
  {
    PartsHaveNoMinus(line);
    PartsHaveNoMinus(BeforeSemicolon(line));
    PartsHaveNoMinus(StripLeft(BeforeSemicolon(line)));
  }

  // ---------------------------------------------------------------------------
  // Size lines as section 7.1 writes them: digits, and an extension that may be empty

  /** Blanks before a semicolon, and then no carriage return. */
  predicate ExtensionOk(e: Bytes) {
    '\r' !in e && (e != [] ==> BlankBefore(e))
  }

  predicate BlankBefore(e: Bytes) {
    e != [] && (e[0] == ';' || ((e[0] == ' ' || e[0] == '\t') && BlankBefore(e[1..])))
  }

  lemma {:induction false} DigitsEndAtExtension(digits: Bytes, e: Bytes)
    requires IsHex(digits)
    ensures BeforeSemicolon(digits + e) == digits + BeforeSemicolon(e)
  {
    if digits == [] {
      assert digits + e == e && digits + BeforeSemicolon(e) == BeforeSemicolon(e);
    } else {
      assert HexDigit(digits[0]).Some?;
      assert (digits + e)[1..] == digits[1..] + e;
      DigitsEndAtExtension(digits[1..], e);
      assert [digits[0]] + (digits[1..] + BeforeSemicolon(e)) == digits + BeforeSemicolon(e);
    }
  }

  predicate AllBlank(s: Bytes) {
    forall i :: 0 <= i < |s| ==> IsSpace(s[i])
  }

  lemma {:induction false} ExtensionStartsBlank(e: Bytes)
    requires e != [] ==> BlankBefore(e)
    ensures AllBlank(BeforeSemicolon(e))
  {
    if e != [] && e[0] != ';' {
      ExtensionStartsBlank(e[1..]);
    }
  }

  lemma {:induction false} StripBlanks(digits: Bytes, blanks: Bytes)
    requires digits != [] && IsHex(digits) && AllBlank(blanks)
    ensures StripRight(digits + blanks) == digits
    decreases |blanks|
  {
    var s := digits + blanks;
    if blanks == [] {
      assert s == digits && HexDigit(digits[|digits| - 1]).Some?;
    } else {
      assert s[..|s| - 1] == digits + blanks[..|blanks| - 1];
      StripBlanks(digits, blanks[..|blanks| - 1]);
    }
  }

  lemma {:induction false} ParseSnoc(s: Bytes, d: char, value: nat, afterDigit: bool)
    requires s != [] && IsHex(s) && HexDigit(d).Some?
    ensures ParseDigits(s, value, afterDigit).Some?
    ensures ParseDigits(s + [d], value, afterDigit)
         == Some(16 * ParseDigits(s, value, afterDigit).value + HexDigit(d).value)
  {
    assert HexDigit(s[0]).Some?;
    assert (s + [d])[1..] == s[1..] + [d];
    var v := 16 * value + HexDigit(s[0]).value;
    if |s| == 1 {
      assert s[1..] == [] && [d][1..] == [];
      assert ParseDigits([d], v, true) == Some(16 * v + HexDigit(d).value);
    } else {
      ParseSnoc(s[1..], d, v, true);
    }
  }

  lemma {:induction false} ParseIsHexValue(s: Bytes)
    requires s != [] && IsHex(s)
    ensures ParseDigits(s, 0, false) == Some(HexValue(s))
    decreases |s|
  {
    var n := |s| - 1;
    assert s[..n] + [s[n]] == s;
    if n == 0 {
      assert s[1..] == [] && s[..0] == [] && HexDigit(s[0]).Some?;
      assert ParseDigits(s, 0, false) == ParseDigits([], HexDigit(s[0]).value, true);
    } else {
      ParseIsHexValue(s[..n]);
      ParseSnoc(s[..n], s[n], 0, false);
    }
  }

  /** The size of a line is the number that its digits denote, whatever the extension. */
  lemma SizeOnTheLine(digits: Bytes, extension: Bytes)
    requires digits != [] && IsHex(digits) && ExtensionOk(extension)
    ensures ChunkSize(digits + extension) == Some(HexValue(digits))
  {
    var blanks := BeforeSemicolon(extension);
    DigitsEndAtExtension(digits, extension);
    ExtensionStartsBlank(extension);
    assert HexDigit((digits + blanks)[0]).Some?;
    assert StripLeft(digits + blanks) == digits + blanks;
    StripBlanks(digits, blanks);
    assert HexDigit(digits[0]).Some? && (|digits| > 1 ==> HexDigit(digits[1]).Some?);
    assert SkipPrefix(digits) == digits;
    ParseIsHexValue(digits);
  }

  lemma LineHasNoReturn(digits: Bytes, extension: Bytes)
    requires IsHex(digits) && ExtensionOk(extension)
    ensures '\r' !in digits + extension
  {
    forall i | 0 <= i < |digits|
      ensures digits[i] != '\r'
    {
      assert HexDigit(digits[i]).Some?;
    }
  }

  lemma MinusSix()
    ensures ChunkSize("-6") == Some(-6)
  {
    var line := "-6";
    assert line[1..] == "6" && "6"[1..] == [];
    assert BeforeSemicolon("6") == "6" by {
      assert BeforeSemicolon([]) == [];
    }
    assert BeforeSemicolon(line) == line;
    assert Strip(line) == line;
    assert ParseDigits("6", 0, false) == Some(6);
  }
}
