/** Clipping text by its size as a JSON string with ASCII escapes. */
module EncodedText {

  const ELLIPSIS := "\U{2026}"
  const ELLIPSIS_BYTES := 6
  const ACTION_ERROR_BYTES := 2_000

  /** The bytes one character takes inside a JSON string literal that escapes everything but printable ASCII. */
  function EncodedCost(c: char): (n: nat)
    ensures 1 <= n <= 12
  {
    if c == '"' || c == '\\' || c == '\n' || c == '\r' || c == '\t' || c == '\U{8}' || c == '\U{C}' then 2
    else if ' ' <= c <= '~' then 1
    else if c < '\U{10000}' then 6
    else 12 // a surrogate pair
  }

  function EncodedSize(s: string): (n: nat)
    ensures |s| <= n <= 12 * |s|
  {
    if s == "" then 0 else EncodedSize(s[..|s| - 1]) + EncodedCost(s[|s| - 1])
  }

  function Hex(n: nat): char
    requires n < 16
  {
    "0123456789abcdef"[n]
  }

  /** A code unit of sixteen bits as an escape. */
  function UnitEscape(n: nat): string
    requires n < 0x1_0000
  {
    "\\u" + [Hex(n / 4_096), Hex(n / 256 % 16), Hex(n / 16 % 16), Hex(n % 16)]
  }

  /** One character as a JSON string literal of printable ASCII holds it (section 7 of RFC 8259). */
  function Escaped(c: char): string {
    match c
    case '"' => "\\\""
    case '\\' => "\\\\"
    case '\n' => "\\n"
    case '\r' => "\\r"
    case '\t' => "\\t"
    case '\U{8}' => "\\b"
    case '\U{C}' => "\\f"
    case _ =>
      if ' ' <= c <= '~' then [c]
      else if c as int < 0x1_0000 then UnitEscape(c as int)
      else
        var n := c as int - 0x1_0000;
        UnitEscape(0xD800 + n / 0x400) + UnitEscape(0xDC00 + n % 0x400)
  }

  function EscapedText(s: string): string {
    if s == "" then "" else EscapedText(s[..|s| - 1]) + Escaped(s[|s| - 1])
  }

  /** The size is the length of the literal itself. */
  lemma {:induction false} EncodedSizeIsExact(s: string)
    ensures |EscapedText(s)| == EncodedSize(s)
    decreases |s|
  {
    if s != "" {
      EncodedSizeIsExact(s[..|s| - 1]);
    }
  }

  /** Longer prefixes take strictly more bytes. */
  lemma {:induction false} LongerPrefixCostsMore(s: string, i: nat, j: nat)
    requires i <= j <= |s|
    ensures EncodedSize(s[..i]) + (j - i) <= EncodedSize(s[..j])
    decreases j
  {
    if i < j {
      LongerPrefixCostsMore(s, i, j - 1);
      assert s[..j][..j - 1] == s[..j - 1];
    }
  }

  lemma {:induction false} EncodedSizeConcat(a: string, b: string)
    ensures EncodedSize(a + b) == EncodedSize(a) + EncodedSize(b)
    decreases |b|
  {
    if b == "" {
      assert a + b == a;
    } else {
      EncodedSizeConcat(a, b[..|b| - 1]);
      assert (a + b)[..|a + b| - 1] == a + b[..|b| - 1];
    }
  }

  /** `clipped` is the longest prefix of `text` that fits the budget. */
  ghost predicate IsLongestFit(text: string, budget: nat, clipped: string) {
    && clipped <= text
    && EncodedSize(clipped) <= budget
    && forall n :: |clipped| < n <= |text| ==> EncodedSize(text[..n]) > budget
  }

  /** Only one prefix is the longest that fits. */
  lemma LongestFitIsUnique(text: string, budget: nat, a: string, b: string)
    requires IsLongestFit(text, budget, a) && IsLongestFit(text, budget, b)
    ensures a == b
  {
    assert a == text[..|a|] && b == text[..|b|];
  }

  /** Binary search for the longest fitting prefix. Every character takes at least a byte, which bounds the search. */
  method ClipEncodedText(text: string, budget: nat) returns (clipped: string, truncated: bool)
    ensures IsLongestFit(text, budget, clipped)
    ensures truncated <==> EncodedSize(text) > budget
    ensures truncated <==> clipped != text
  {
    assert text[..|text|] == text;
    if EncodedSize(text) <= budget {
      return text, false;
    }
    var bound := if |text| < budget then |text| else budget;
    var low, high := 0, bound;
    while low < high
      invariant 0 <= low <= high <= bound
      invariant EncodedSize(text[..low]) <= budget
      invariant forall n :: high < n <= |text| ==> EncodedSize(text[..n]) > budget
    {
      var middle := (low + high + 1) / 2;
      if EncodedSize(text[..middle]) <= budget {
        low := middle;
      } else {
        forall n | middle <= n <= |text| ensures EncodedSize(text[..n]) > budget {
          LongerPrefixCostsMore(text, middle, n);
        }
        high := middle - 1;
      }
    }
    return text[..low], true;
  }

  lemma EllipsisSize(prefix: string)
    ensures EncodedSize(prefix + ELLIPSIS) == EncodedSize(prefix) + ELLIPSIS_BYTES
  {
    EncodedSizeConcat(prefix, ELLIPSIS);
    assert ELLIPSIS[..0] == "";
  }

  /** A display value: the text, or a prefix with a visible ellipsis, within the budget either way. */
  method SnapshotText(text: string, budget: nat) returns (shown: string)
    requires budget >= ELLIPSIS_BYTES
    ensures EncodedSize(shown) <= budget
    ensures EncodedSize(text) <= budget ==> shown == text
    ensures EncodedSize(text) > budget ==>
      exists prefix :: shown == prefix + ELLIPSIS && IsLongestFit(text, budget - ELLIPSIS_BYTES, prefix)
  {
    var clipped, truncated := ClipEncodedText(text, budget);
    if !truncated {
      return clipped;
    }
    clipped, truncated := ClipEncodedText(text, budget - ELLIPSIS_BYTES);
    EllipsisSize(clipped);
    shown := clipped + ELLIPSIS;
  }

  /**
   * The reasons that are reported in more than their nominal size: too long to
   * be kept whole, and with a prefix that ends in the last three bytes which a
   * kept prefix may use. Only three bytes are reserved for the ellipsis, and it takes six.
   */
  predicate Overruns(error: string) {
    && EncodedSize(error) > ACTION_ERROR_BYTES - 3
    && exists n :: 0 <= n <= |error|
         && ACTION_ERROR_BYTES - ELLIPSIS_BYTES < EncodedSize(error[..n]) <= ACTION_ERROR_BYTES - 3
  }

  lemma BoundedErrorOverrun(error: string, prefix: string)
    requires EncodedSize(error) > ACTION_ERROR_BYTES - 3 && IsLongestFit(error, ACTION_ERROR_BYTES - 3, prefix)
    ensures EncodedSize(prefix + ELLIPSIS) > ACTION_ERROR_BYTES <==> Overruns(error)
  {
    EllipsisSize(prefix);
    assert error[..|prefix|] == prefix;
    if Overruns(error) {
      var n :| 0 <= n <= |error|
        && ACTION_ERROR_BYTES - ELLIPSIS_BYTES < EncodedSize(error[..n]) <= ACTION_ERROR_BYTES - 3;
      LongerPrefixCostsMore(error, n, |prefix|);
    }
  }

  /** The bounded reason of a rejected action, and exactly when it exceeds its bound. */
  method BoundedActionError(error: string) returns (bounded: string)
    ensures EncodedSize(error) <= ACTION_ERROR_BYTES - 3 ==> bounded == error
    ensures EncodedSize(error) > ACTION_ERROR_BYTES - 3 ==>
      exists prefix :: bounded == prefix + ELLIPSIS && IsLongestFit(error, ACTION_ERROR_BYTES - 3, prefix)
    ensures EncodedSize(bounded) <= ACTION_ERROR_BYTES + 3
    ensures EncodedSize(bounded) > ACTION_ERROR_BYTES <==> Overruns(error)
  {
    var clipped, truncated := ClipEncodedText(error, ACTION_ERROR_BYTES - 3);
    if !truncated {
      return clipped;
    }
    EllipsisSize(clipped);
    BoundedErrorOverrun(error, clipped);
    bounded := clipped + ELLIPSIS;
  }

  lemma {:induction false} PlainSize(n: nat)
    ensures EncodedSize(seq(n, _ => 'a')) == n
  {
    if n > 0 {
      PlainSize(n - 1);
      assert seq(n, _ => 'a')[..n - 1] == seq(n - 1, _ => 'a');
    }
  }

  /** Such reasons exist: a plain one of 1,998 letters is reported in 2,003 bytes. */
  lemma BoundedErrorOverrunExample() returns (error: string, prefix: string)
    ensures EncodedSize(error) > ACTION_ERROR_BYTES - 3 && IsLongestFit(error, ACTION_ERROR_BYTES - 3, prefix)
    ensures EncodedSize(prefix + ELLIPSIS) == ACTION_ERROR_BYTES + 3
  {
    error, prefix := seq(ACTION_ERROR_BYTES - 2, _ => 'a'), seq(ACTION_ERROR_BYTES - 3, _ => 'a');
    PlainSize(ACTION_ERROR_BYTES - 2);
    PlainSize(ACTION_ERROR_BYTES - 3);
    assert error[..|prefix|] == prefix;
    assert error[..|error|] == error;
    EllipsisSize(prefix);
  }
}
