/** The checksum loops and run scans that recognise numbers and phrases in tool parameters. */
module Checksums {

  // ---------------------------------------------------------------------------
  // Luhn (Annex B of ISO/IEC 7812-1)

  /** What one character adds, as its distance from the right end decides. */
  function Term(digit: int, doubled: bool): int {
    if !doubled then digit else if 2 * digit > 9 then 2 * digit - 9 else 2 * digit
  }

  function Code(c: char): int {
    c as int - 48
  }

  /** The sum over a number: every second term from the right is doubled. */
  function LuhnSum(s: string): int {
    if s == "" then 0 else Term(Code(s[0]), (|s| - 1) % 2 == 1) + LuhnSum(s[1..])
  }

  method LuhnOk(digits: string) returns (ok: bool)
    ensures ok <==> LuhnSum(digits) % 10 == 0
  {
    var total := 0;
    var n := |digits|;
    assert digits[n..] == "";
    for index := 0 to n
      invariant total == LuhnSum(digits[n - index..])
    {
      var at := n - index - 1;
      var digit := Code(digits[at]);
      if index % 2 == 1 {
        digit := digit * 2;
        if digit > 9 {
          digit := digit - 9;
        }
      }
      total := total + digit;
      assert digits[at..][1..] == digits[n - index..];
    }
    assert digits[0..] == digits;
    ok := total % 10 == 0;
  }

  predicate IsNumber(s: string) {
    forall i :: 0 <= i < |s| ==> '0' <= s[i] <= '9'
  }

  predicate DoubledAt(s: string, k: nat)
    requires k < |s|
  {
    (|s| - 1 - k) % 2 == 1
  }

  lemma {:induction false} LuhnUpdate(s: string, k: nat, c: char)
    requires k < |s|
    ensures LuhnSum(s[k := c]) == LuhnSum(s) - Term(Code(s[k]), DoubledAt(s, k)) + Term(Code(c), DoubledAt(s, k))
  {
    if k == 0 {
      assert s[k := c][1..] == s[1..];
    } else {
      assert s[k := c][1..] == s[1..][k - 1 := c];
      LuhnUpdate(s[1..], k - 1, c);
    }
  }

  /** Changing any one digit of a valid number makes it invalid. */
  lemma LuhnCatchesOneDigit(s: string, k: nat, c: char)
    requires IsNumber(s) && LuhnSum(s) % 10 == 0 && k < |s| && '0' <= c <= '9' && c != s[k]
    ensures LuhnSum(s[k := c]) % 10 != 0
  {
    LuhnUpdate(s, k, c);
    var a, b := Term(Code(s[k]), DoubledAt(s, k)), Term(Code(c), DoubledAt(s, k));
    assert 0 <= a <= 9 && 0 <= b <= 9 && a != b;
    NotMultipleOfTen(LuhnSum(s), b - a);
  }

  lemma NotMultipleOfTen(sum: int, d: int)
    requires sum % 10 == 0 && d % 10 != 0
    ensures (sum + d) % 10 != 0
  {
  }

  /** Swapping two adjacent digits of a valid number leaves it valid exactly for equal digits and for 0 and 9. */
  lemma LuhnOnSwaps(s: string, k: nat)
    requires IsNumber(s) && LuhnSum(s) % 10 == 0 && k + 1 < |s|
    ensures LuhnSum(s[k := s[k + 1]][k + 1 := s[k]]) % 10 == 0 <==>
      s[k] == s[k + 1] || (s[k] == '0' && s[k + 1] == '9') || (s[k] == '9' && s[k + 1] == '0')
  {
    var a, b := s[k], s[k + 1];
    var t := s[k := b];
    LuhnUpdate(s, k, b);
    LuhnUpdate(t, k + 1, a);
    var doubled := DoubledAt(s, k);
    assert DoubledAt(t, k + 1) == !doubled && t[k + 1] == b;
    var gain := Gain(Code(b)) - Gain(Code(a));
    assert LuhnSum(t[k + 1 := a]) == LuhnSum(s) + (if doubled then gain else -gain);
    GainsDiffer(Code(a), Code(b));
    if gain != 0 {
      NotMultipleOfTen(LuhnSum(s), if doubled then gain else -gain);
    }
  }

  /** Two digits at a time from the right: the right one counts as it is, the left one by the digits of its double. */
  lemma {:induction false} LuhnByPairs(s: string)
    requires IsNumber(s)
    ensures s == "" ==> LuhnSum(s) == 0
    ensures |s| == 1 ==> LuhnSum(s) == s[0] as int - 48
    ensures |s| >= 2 ==>
      var twice := 2 * (s[|s| - 2] as int - 48);
      LuhnSum(s) == LuhnSum(s[..|s| - 2]) + twice / 10 + twice % 10 + (s[|s| - 1] as int - 48)
  {
    if |s| > 2 {
      LuhnByPairs(s[1..]);
      assert s[1..][..|s| - 3] == s[..|s| - 2][1..];
      assert (|s| - 1) % 2 == (|s[..|s| - 2]| - 1) % 2;
    } else if |s| == 2 {
      assert s[1..][1..] == "";
    }
  }

  lemma OnlyDigit(sum: int) returns (c: char)
    ensures '0' <= c <= '9' && (sum + Code(c)) % 10 == 0
    ensures forall d :: '0' <= d <= '9' && (sum + Code(d)) % 10 == 0 ==> d == c
  {
    c := ((10 - sum % 10) % 10 + 48) as char;
  }

  /** Every number has exactly one check digit. */
  lemma LuhnCheckDigit(s: string) returns (c: char)
    requires IsNumber(s)
    ensures '0' <= c <= '9' && LuhnSum(s + [c]) % 10 == 0
    ensures forall d :: '0' <= d <= '9' && LuhnSum(s + [d]) % 10 == 0 ==> d == c
  {
    var zero := s + ['0'];
    c := OnlyDigit(LuhnSum(zero));
    forall d | '0' <= d <= '9' ensures LuhnSum(s + [d]) == LuhnSum(zero) + Code(d) {
      LuhnUpdate(zero, |s|, d);
      assert zero[|s| := d] == s + [d];
    }
  }

  /** What doubling adds to a digit's term. */
  function Gain(digit: int): int {
    Term(digit, true) - Term(digit, false)
  }

  lemma GainsDiffer(a: int, b: int)
    requires 0 <= a <= 9 && 0 <= b <= 9
    ensures Gain(a) == Gain(b) <==> a == b || (a == 0 && b == 9) || (a == 9 && b == 0)
    ensures Gain(a) != Gain(b) ==> (Gain(b) - Gain(a)) % 10 != 0 && (Gain(a) - Gain(b)) % 10 != 0
  {
  }

  // ---------------------------------------------------------------------------
  // IBAN (MOD 97-10 of ISO 7064)

  predicate IsAlphanumeric(c: char) {
    '0' <= c <= '9' || 'A' <= c <= 'Z'
  }

  predicate IsDigit(c: char) {
    '0' <= c <= '9'
  }

  function Base36(c: char): (n: nat)
    requires IsAlphanumeric(c)
    ensures n < 36 && (n < 10 <==> IsDigit(c))
  {
    if IsDigit(c) then c as int - '0' as int else c as int - 'A' as int + 10
  }

  /** How far the digits of a character move those before it. */
  function Shift(c: char): int {
    if IsDigit(c) then 10 else 100
  }

  predicate IsCode(s: string) {
    forall i :: 0 <= i < |s| ==> IsAlphanumeric(s[i])
  }

  /** The number whose digits are those of all characters, letters as two digits. */
  function Numeric(s: string): int
    requires IsCode(s)
  {
    if s == "" then 0 else Numeric(s[..|s| - 1]) * Shift(s[|s| - 1]) + Base36(s[|s| - 1])
  }

  function ExpectedLength(country: string): int {
    match country
    case "AT" => 20 case "BE" => 16 case "CH" => 21 case "CZ" => 24 case "DE" => 22 case "DK" => 18
    case "ES" => 24 case "FI" => 18 case "FR" => 27 case "GB" => 22 case "IE" => 22 case "IT" => 27
    case "LU" => 20 case "NL" => 18 case "NO" => 15 case "PL" => 28 case "PT" => 25 case "SE" => 24
    case _ => -1
  }

  function Rearranged(s: string): string
    requires |s| >= 4
  {
    s[4..] + s[..4]
  }

  /** A candidate of a known country, of which the expected length counts. */
  predicate IbanOk(compact: string)
    requires IsCode(compact) && |compact| >= 4
  {
    var expected := ExpectedLength(compact[..2]);
    expected >= 15 && |compact| >= expected && Numeric(Rearranged(compact[..expected])) % 97 == 1
  }

  predicate SameClass(a: char, b: char) {
    IsAlphanumeric(a) && IsAlphanumeric(b) && IsDigit(a) == IsDigit(b)
  }

  /** Nothing but multiples of 97 becomes one by shifting: 68 times 10 is one more than a multiple of 97. */
  lemma ShiftKeepsRemainder(d: int, c: char)
    requires d % 97 != 0
    ensures (d * Shift(c)) % 97 != 0
  {
    if IsDigit(c) {
      TimesTen(d);
    } else {
      TimesTen(d);
      TimesTen(d * 10);
      assert d * 100 == d * 10 * 10;
    }
  }

  lemma TimesTen(d: int)
    requires d % 97 != 0
    ensures (d * 10) % 97 != 0
  {
  }

  /** One changed character moves the number by something that is no multiple of 97. */
  lemma {:induction false} NumericUpdate(s: string, k: nat, c: char)
    requires IsCode(s) && k < |s| && SameClass(s[k], c) && c != s[k]
    ensures IsCode(s[k := c]) && (Numeric(s[k := c]) - Numeric(s)) % 97 != 0
    decreases |s|
  {
    var n := |s| - 1;
    var t := s[k := c];
    if k == n {
      assert t[..n] == s[..n];
      assert Numeric(t) - Numeric(s) == Base36(c) - Base36(s[k]);
    } else {
      assert t[..n] == s[..n][k := c];
      NumericUpdate(s[..n], k, c);
      var d := Numeric(t[..n]) - Numeric(s[..n]);
      ShiftKeepsRemainder(d, s[n]);
      Distribute(Numeric(t[..n]), Numeric(s[..n]), Shift(s[n]));
    }
  }

  lemma Distribute(a: int, b: int, m: int)
    ensures a * m - b * m == (a - b) * m
  {
  }

  lemma RearrangedUpdate(s: string, k: nat, c: char)
    requires 4 <= |s| && k < |s|
    ensures Rearranged(s[k := c]) == Rearranged(s)[(if k < 4 then |s| - 4 + k else k - 4) := c]
    ensures Rearranged(s)[if k < 4 then |s| - 4 + k else k - 4] == s[k]
  {
  }

  lemma DifferentRemainders(a: int, b: int)
    requires a % 97 == 1 && (b - a) % 97 != 0
    ensures b % 97 != 1
  {
  }

  /** The change lies in what counts, and the country, which may be another one, counts as much. */
  lemma SameLengthIsCaught(s: string, k: nat, c: char)
    requires IsCode(s) && |s| >= 4 && IbanOk(s) && k < ExpectedLength(s[..2]) && SameClass(s[k], c) && c != s[k]
    requires ExpectedLength(s[k := c][..2]) == ExpectedLength(s[..2])
    ensures IsCode(s[k := c]) && !IbanOk(s[k := c])
  {
    var expected := ExpectedLength(s[..2]);
    var counted := s[..expected];
    assert s[k := c][..expected] == counted[k := c];
    RearrangedUpdate(counted, k, c);
    var at := if k < 4 then expected - 4 + k else k - 4;
    NumericUpdate(Rearranged(counted), at, c);
    DifferentRemainders(Numeric(Rearranged(counted)), Numeric(Rearranged(counted[k := c])));
  }

  /** How far the digits of a text move those before it. */
  function ShiftOf(s: string): int {
    if s == "" then 1 else ShiftOf(s[..|s| - 1]) * Shift(s[|s| - 1])
  }

  lemma {:induction false} NumericOfConcat(a: string, b: string)
    requires IsCode(a) && IsCode(b)
    ensures IsCode(a + b) && Numeric(a + b) == Numeric(a) * ShiftOf(b) + Numeric(b)
    decreases |b|
  {
    if b == "" {
      assert a + b == a;
    } else {
      var n := |b| - 1;
      NumericOfConcat(a, b[..n]);
      assert (a + b)[..|a + b| - 1] == a + b[..n];
      Regroup(Numeric(a), ShiftOf(b[..n]), Numeric(b[..n]), Shift(b[n]));
    }
  }

  lemma Regroup(a: int, m: int, b: int, t: int)
    ensures (a * m + b) * t == a * (m * t) + b * t
  {
  }

  lemma Grown(s: string, c: char)
    requires IsCode(s) && IsAlphanumeric(c)
    ensures IsCode(s + [c]) && Numeric(s + [c]) == Numeric(s) * Shift(c) + Base36(c)
    ensures ShiftOf(s + [c]) == ShiftOf(s) * Shift(c)
  {
    assert (s + [c])[..|s|] == s;
  }

  /** How far the number moves when the characters from `lo` to `hi` count as well. */
  function CountedTail(s: string, lo: nat, hi: nat): int
    requires IsCode(s) && 4 <= lo <= hi <= |s|
  {
    (Numeric(s[4..lo]) * (ShiftOf(s[lo..hi]) - 1) + Numeric(s[lo..hi])) * ShiftOf(s[..4])
  }

  lemma PartOfCode(s: string, from: nat, to: nat)
    requires IsCode(s) && from <= to <= |s|
    ensures IsCode(s[from..to])
  {
  }

  lemma RearrangedIsCode(s: string, n: nat)
    requires IsCode(s) && 4 <= n <= |s|
    ensures IsCode(Rearranged(s[..n])) && Rearranged(s[..n]) == s[4..n] + s[..4]
  {
    PartOfCode(s, 4, n);
    PartOfCode(s, 0, 4);
  }

  lemma LongerCount(s: string, lo: nat, hi: nat)
    requires IsCode(s) && 4 <= lo <= hi <= |s|
    ensures Numeric(Rearranged(s[..hi])) == Numeric(Rearranged(s[..lo])) + CountedTail(s, lo, hi)
  {
    var body, tail, head := s[4..lo], s[lo..hi], s[..4];
    PartOfCode(s, 4, lo);
    PartOfCode(s, lo, hi);
    PartOfCode(s, 0, 4);
    RearrangedIsCode(s, lo);
    RearrangedIsCode(s, hi);
    assert s[4..hi] == body + tail;
    NumericOfConcat(body, head);
    NumericOfConcat(body, tail);
    NumericOfConcat(body + tail, head);
    Spread(Numeric(body), ShiftOf(tail), Numeric(tail), ShiftOf(head));
  }

  lemma Spread(a: int, m: int, b: int, t: int)
    ensures (a * m + b) * t == a * t + (a * (m - 1) + b) * t
  {
  }

  /** How far the number moves when one of its first four characters is another one. */
  function HeadChange(s: string, k: nat, c: char): int
    requires |s| >= 4 && k < 4 && IsAlphanumeric(s[k]) && IsAlphanumeric(c)
  {
    (Base36(c) - Base36(s[k])) * ShiftOf(s[k + 1..4])
  }

  lemma OneUpdate(s: string, k: nat, c: char)
    requires IsCode(s) && k < |s| && SameClass(s[k], c)
    ensures IsCode(s[k := c])
    ensures Numeric(s[k := c]) == Numeric(s) + (Base36(c) - Base36(s[k])) * ShiftOf(s[k + 1..])
  {
    var rest := s[k + 1..];
    assert s == (s[..k] + [s[k]]) + rest && s[k := c] == (s[..k] + [c]) + rest;
    NumericOfConcat(s[..k] + [s[k]], rest);
    NumericOfConcat(s[..k] + [c], rest);
    Grown(s[..k], s[k]);
    Grown(s[..k], c);
    Distribute(Numeric(s[..k] + [c]), Numeric(s[..k] + [s[k]]), ShiftOf(rest));
  }

  lemma HeadUpdate(s: string, n: nat, k: nat, c: char)
    requires IsCode(s) && 4 <= n <= |s| && k < 4 && SameClass(s[k], c)
    ensures IsCode(s[k := c])
    ensures Numeric(Rearranged(s[k := c][..n])) == Numeric(Rearranged(s[..n])) + HeadChange(s, k, c)
  {
    var body, head := s[4..n], s[..4];
    PartOfCode(s, 4, n);
    PartOfCode(s, 0, 4);
    RearrangedIsCode(s, n);
    RearrangedIsCode(s[k := c], n);
    assert Rearranged(s[k := c][..n]) == body + head[k := c];
    assert head[k + 1..] == s[k + 1..4];
    OneUpdate(head, k, c);
    NumericOfConcat(body, head);
    NumericOfConcat(body, head[k := c]);
    SameClassesShiftAlike(head, k, c);
  }

  lemma {:induction false} SameClassesShiftAlike(s: string, k: nat, c: char)
    requires k < |s| && SameClass(s[k], c)
    ensures ShiftOf(s[k := c]) == ShiftOf(s)
    decreases |s|
  {
    var n := |s| - 1;
    if k < n {
      assert s[k := c][..n] == s[..n][k := c];
      SameClassesShiftAlike(s[..n], k, c);
    } else {
      assert s[k := c][..n] == s[..n];
    }
  }

  /** How far the number moves when the character changes and `m` characters count instead of `n`. */
  function Moved(s: string, n: nat, m: nat, k: nat, c: char): int
    requires IsCode(s) && 4 <= n <= |s| && 4 <= m <= |s| && k < 4 && IsAlphanumeric(c)
  {
    HeadChange(s, k, c) + if m < n then -CountedTail(s, m, n) else CountedTail(s, n, m)
  }

  lemma NumberMoves(s: string, n: nat, m: nat, k: nat, c: char)
    requires IsCode(s) && 4 <= n <= |s| && 4 <= m <= |s| && k < 4 && SameClass(s[k], c)
    ensures IsCode(s[k := c])
    ensures Numeric(Rearranged(s[k := c][..m])) == Numeric(Rearranged(s[..n])) + Moved(s, n, m, k, c)
  {
    if m < n {
      LongerCount(s, m, n);
    } else {
      LongerCount(s, n, m);
    }
    HeadUpdate(s, m, k, c);
  }

  /**
   * The change makes the country one whose expected length is another one, and
   * no longer than the candidate; and the characters that count in one country
   * only weigh, modulo 97, just as much as the changed letter.
   */
  predicate CountryChangeCancels(s: string, k: nat, c: char)
    requires IsCode(s) && |s| >= 4 && 15 <= ExpectedLength(s[..2]) <= |s| && k < |s| && SameClass(s[k], c)
  {
    var n, m := ExpectedLength(s[..2]), ExpectedLength(s[k := c][..2]);
    k < 2 && m != n && 15 <= m <= |s| && Moved(s, n, m, k, c) % 97 == 0
  }

  lemma OtherLengthExactly(s: string, k: nat, c: char)
    requires IsCode(s) && |s| >= 4 && IbanOk(s) && k < 2 && SameClass(s[k], c)
    requires ExpectedLength(s[k := c][..2]) != ExpectedLength(s[..2]) && 15 <= ExpectedLength(s[k := c][..2]) <= |s|
    ensures IsCode(s[k := c]) && (IbanOk(s[k := c]) <==> CountryChangeCancels(s, k, c))
  {
    var n, m := ExpectedLength(s[..2]), ExpectedLength(s[k := c][..2]);
    NumberMoves(s, n, m, k, c);
    RearrangedIsCode(s, n);
    StaysOne(Numeric(Rearranged(s[..n])), Moved(s, n, m, k, c));
  }

  lemma StaysOne(a: int, d: int)
    requires a % 97 == 1
    ensures (a + d) % 97 == 1 <==> d % 97 == 0
  {
  }

  /**
   * One digit changed into another digit, or one letter into another letter, in
   * a valid candidate: it is caught wherever it counts, but for a change of the
   * country to one that expects another length which the candidate has. That one
   * is missed exactly if the letter and what counts only once cancel.
   */
  lemma IbanOnOneCharacter(s: string, k: nat, c: char)
    requires IsCode(s) && |s| >= 4 && IbanOk(s) && k < |s| && SameClass(s[k], c) && c != s[k]
    ensures IsCode(s[k := c])
    ensures IbanOk(s[k := c]) <==> k >= ExpectedLength(s[..2]) || CountryChangeCancels(s, k, c)
  {
    var n, m := ExpectedLength(s[..2]), ExpectedLength(s[k := c][..2]);
    assert k >= 2 ==> s[k := c][..2] == s[..2];
    if k >= n {
      IbanIgnoresTheRest(s, s[k := c]);
    } else if m == n {
      SameLengthIsCaught(s, k, c);
    } else {
      if 15 <= m <= |s| {
        OtherLengthExactly(s, k, c);
      }
    }
  }

  /** So a change within the country, or to an unknown one or one that expects more than there is, is always caught. */
  lemma IbanCatchesOneCharacter(s: string, k: nat, c: char)
    requires IsCode(s) && |s| >= 4 && IbanOk(s) && k < ExpectedLength(s[..2]) && SameClass(s[k], c) && c != s[k]
    requires var m := ExpectedLength(s[k := c][..2]); m == ExpectedLength(s[..2]) || m < 0 || m > |s|
    ensures IsCode(s[k := c]) && !IbanOk(s[k := c])
  {
    IbanOnOneCharacter(s, k, c);
  }

  /** Three characters read as one number. */
  lemma OfThree(s: string)
    requires |s| == 3 && IsCode(s)
    ensures Numeric(s) == (Base36(s[0]) * Shift(s[1]) + Base36(s[1])) * Shift(s[2]) + Base36(s[2])
    ensures ShiftOf(s) == Shift(s[0]) * Shift(s[1]) * Shift(s[2])
  {
    Grown("", s[0]);
    Grown([s[0]], s[1]);
    Grown([s[0], s[1]], s[2]);
    assert "" + [s[0]] == [s[0]] && [s[0]] + [s[1]] == [s[0], s[1]] && [s[0], s[1]] + [s[2]] == s;
  }

  lemma {:induction false} ZerosAreNothing(z: string, s: string)
    requires (forall i :: 0 <= i < |z| ==> z[i] == '0') && IsCode(s)
    ensures IsCode(z + s) && Numeric(z + s) == Numeric(s)
    decreases |z|
  {
    if z == "" {
      assert z + s == s;
    } else {
      var n := |z| - 1;
      ZerosAreNothing(z[..n], "");
      assert z[..n] + "" == z[..n];
      NumericOfConcat(z, s);
    }
  }

  lemma DutchAndNorwegian()
    ensures IsCode("65NL13") && Numeric("65NL13") == 65_232_113
    ensures IsCode("NO13") && Numeric("NO13") == 232_413
  {
    OfThree("65N");
    OfThree("L13");
    NumericOfConcat("65N", "L13");
    assert "65N" + "L13" == "65NL13";
    OfThree("NO1");
    Grown("NO1", '3');
    assert "NO1" + "3" == "NO13";
  }

  /** And one letter of the country can be missed: the last three digits no longer count. */
  lemma CountryChangeMissed()
    ensures var s := "NL13" + "00000000000" + "065"; var t := s[1 := 'O'];
      IsCode(s) && IsCode(t) && IbanOk(s) && IbanOk(t)
  {
    var s := "NL13" + "00000000000" + "065";
    var t := s[1 := 'O'];
    assert s[..2] == "NL" && t[..2] == "NO" && s[..18] == s;
    assert Rearranged(s) == "000000000000" + "65NL13";
    assert Rearranged(t[..15]) == "00000000000" + "NO13";
    DutchAndNorwegian();
    ZerosAreNothing("000000000000", "65NL13");
    ZerosAreNothing("00000000000", "NO13");
  }

  /** Characters beyond the expected length do not count. */
  lemma IbanIgnoresTheRest(s: string, t: string)
    requires IsCode(s) && |s| >= 4 && IsCode(t) && |t| >= 4 && IbanOk(s)
    requires |t| >= ExpectedLength(s[..2]) && t[..ExpectedLength(s[..2])] == s[..ExpectedLength(s[..2])]
    ensures IbanOk(t)
  {
    var expected := ExpectedLength(s[..2]);
    assert t[..2] == t[..expected][..2] && s[..2] == s[..expected][..2];
  }

  // ---------------------------------------------------------------------------
  // ABA routing numbers

  /** Weights 3, 7 and 1 in turn. */
  function Weighted(k: nat, digit: int): int {
    if k % 3 == 0 then 3 * digit else if k % 3 == 1 then 7 * digit else digit
  }

  /** The weighted sum of a number from some place on. */
  function WeightedSum(s: string, k: nat): int
    requires k <= |s|
    decreases |s| - k
  {
    if k == |s| then 0 else Weighted(k, Code(s[k])) + WeightedSum(s, k + 1)
  }

  lemma {:induction false} WeightedUpdate(s: string, from: nat, k: nat, c: char)
    requires from <= |s| && k < |s|
    ensures WeightedSum(s[k := c], from) ==
      WeightedSum(s, from) + if from <= k then Weighted(k, Code(c)) - Weighted(k, Code(s[k])) else 0
    decreases |s| - from
  {
    if from < |s| {
      WeightedUpdate(s, from + 1, k, c);
    }
  }

  /** The checksum of nine digits, as one expression. */
  function AbaChecksum(s: string): int
    requires |s| == 9
  {
    3 * (Code(s[0]) + Code(s[3]) + Code(s[6])) + 7 * (Code(s[1]) + Code(s[4]) + Code(s[7]))
    + (Code(s[2]) + Code(s[5]) + Code(s[8]))
  }

  lemma ChecksumIsWeightedSum(s: string)
    requires |s| == 9
    ensures AbaChecksum(s) == WeightedSum(s, 0)
  {
    assert WeightedSum(s, 8) == Code(s[8]) + WeightedSum(s, 9);
    assert WeightedSum(s, 7) == 7 * Code(s[7]) + Code(s[8]);
    assert WeightedSum(s, 5) == Code(s[5]) + 3 * Code(s[6]) + WeightedSum(s, 7);
    assert WeightedSum(s, 3) == 3 * Code(s[3]) + 7 * Code(s[4]) + WeightedSum(s, 5);
    assert WeightedSum(s, 1) == 7 * Code(s[1]) + Code(s[2]) + WeightedSum(s, 3);
  }

  predicate FederalReserveDistrict(prefix: int) {
    0 <= prefix <= 12 || 21 <= prefix <= 32 || 61 <= prefix <= 72 || prefix == 80
  }

  predicate AbaOk(s: string)
    requires |s| == 9
  {
    FederalReserveDistrict(10 * Code(s[0]) + Code(s[1])) && AbaChecksum(s) % 10 == 0
  }

  lemma AbaUpdate(s: string, k: nat, c: char)
    requires |s| == 9 && k < 9
    ensures AbaChecksum(s[k := c]) == AbaChecksum(s) + (Weighted(k, Code(c)) - Weighted(k, Code(s[k])))
  {
    ChecksumIsWeightedSum(s);
    ChecksumIsWeightedSum(s[k := c]);
    WeightedUpdate(s, 0, k, c);
  }

  /** Two valid routing numbers and an invalid one; no other order of the three weights accepts both. */
  lemma RoutingNumbers()
    ensures AbaOk("021000021") && AbaOk("111000025") && !AbaOk("210000210")
  {
    assert AbaChecksum("021000021") == 30;
    assert AbaChecksum("111000025") == 30;
    assert AbaChecksum("210000210") == 3 * 4 + 7 * 2;
  }

  /** Changing any one digit makes a routing number invalid. */
  lemma AbaCatchesOneDigit(s: string, k: nat, c: char)
    requires |s| == 9 && IsNumber(s) && AbaOk(s) && k < 9 && '0' <= c <= '9' && c != s[k]
    ensures !AbaOk(s[k := c])
  {
    AbaUpdate(s, k, c);
    WeightsSeparate(k, Code(c), Code(s[k]));
    NotMultipleOfTen(AbaChecksum(s), Weighted(k, Code(c)) - Weighted(k, Code(s[k])));
  }

  lemma WeightsSeparate(k: nat, a: int, b: int)
    requires 0 <= a <= 9 && 0 <= b <= 9 && a != b
    ensures (Weighted(k, a) - Weighted(k, b)) % 10 != 0
  {
  }

  /** Swapping two adjacent digits is missed exactly when they differ by five, or not at all. */
  lemma AbaOnSwaps(s: string, k: nat)
    requires |s| == 9 && IsNumber(s) && AbaChecksum(s) % 10 == 0 && k < 8
    ensures AbaChecksum(s[k := s[k + 1]][k + 1 := s[k]]) % 10 == 0 <==> (Code(s[k]) - Code(s[k + 1])) % 5 == 0
  {
    var a, b := Code(s[k]), Code(s[k + 1]);
    AbaUpdate(s, k, s[k + 1]);
    AbaUpdate(s[k := s[k + 1]], k + 1, s[k]);
    SwapsInTen(AbaChecksum(s), k, a, b);
  }

  lemma SwapsInTen(sum: int, k: nat, a: int, b: int)
    requires sum % 10 == 0 && 0 <= a <= 9 && 0 <= b <= 9
    ensures (sum + (Weighted(k, b) - Weighted(k, a)) + (Weighted(k + 1, a) - Weighted(k + 1, b))) % 10 == 0 <==> (a - b) % 5 == 0
  {
    var change := (Weighted(k, b) - Weighted(k, a)) + (Weighted(k + 1, a) - Weighted(k + 1, b));
    SwapChange(k, a, b);
    if change % 10 != 0 {
      NotMultipleOfTen(sum, change);
    }
  }

  lemma SwapChange(k: nat, a: int, b: int)
    requires 0 <= a <= 9 && 0 <= b <= 9
    ensures ((Weighted(k, b) - Weighted(k, a)) + (Weighted(k + 1, a) - Weighted(k + 1, b))) % 10 == 0 <==> (a - b) % 5 == 0
  {
    EvenMultiples(a - b);
    assert (k + 1) % 3 == if k % 3 == 2 then 0 else k % 3 + 1;
  }

  lemma EvenMultiples(x: int)
    requires -9 <= x <= 9
    ensures (4 * x) % 10 == 0 <==> x % 5 == 0
    ensures (-6 * x) % 10 == 0 <==> x % 5 == 0
    ensures (2 * x) % 10 == 0 <==> x % 5 == 0
  {
  }

  // ---------------------------------------------------------------------------
  // Runs and segments

  const SEED_PHRASE_RUN := 12

  predicate AllWords(tokens: seq<string>, words: set<string>, lower: string -> string, from: nat, to: nat)
    requires from <= to <= |tokens|
  {
    forall i :: from <= i < to ==> lower(tokens[i]) in words
  }

  /** Twelve words of the list in a row. */
  predicate SeedPhraseAt(tokens: seq<string>, words: set<string>, lower: string -> string, start: nat) {
    start + SEED_PHRASE_RUN <= |tokens| && AllWords(tokens, words, lower, start, start + SEED_PHRASE_RUN)
  }

  method HasSeedPhrase(tokens: seq<string>, words: set<string>, lower: string -> string) returns (found: bool)
    ensures found <==> exists start :: SeedPhraseAt(tokens, words, lower, start)
  {
    var run := 0;
    for i := 0 to |tokens|
      invariant 0 <= run < SEED_PHRASE_RUN && run <= i && AllWords(tokens, words, lower, i - run, i)
      invariant run < i ==> lower(tokens[i - run - 1]) !in words
      invariant forall start: nat :: start + SEED_PHRASE_RUN <= i ==> !SeedPhraseAt(tokens, words, lower, start)
    {
      if lower(tokens[i]) in words {
        run := run + 1;
        if run >= SEED_PHRASE_RUN {
          assert SeedPhraseAt(tokens, words, lower, i + 1 - SEED_PHRASE_RUN);
          return true;
        }
        forall start: nat | start + SEED_PHRASE_RUN <= i + 1
          ensures !SeedPhraseAt(tokens, words, lower, start)
        {
          if start + SEED_PHRASE_RUN == i + 1 {
            assert start <= i - run < start + SEED_PHRASE_RUN;
          }
        }
      } else {
        run := 0;
      }
    }
    found := false;
  }

  const SHORTEST_SEGMENT := 4
  const LONGEST_SEGMENT := 8

  /** A part of the token, four to eight characters long, is a word. */
  predicate SegmentAt(token: string, words: set<string>, start: nat, length: nat) {
    SHORTEST_SEGMENT <= length <= LONGEST_SEGMENT && start + length <= |token| && token[start..start + length] in words
  }

  /** A segment as a slice takes it: shorter at the end of the token. */
  function Segment(token: string, start: nat, length: nat): string
    requires start <= |token|
  {
    if start + length <= |token| then token[start..start + length] else token[start..]
  }

  method HasDictionarySegment(lowered: string, words: set<string>) returns (found: bool)
    ensures found <==> exists start, length :: SegmentAt(lowered, words, start, length)
  {
    for start := 0 to |lowered|
      invariant forall s, n :: 0 <= s < start ==> !SegmentAt(lowered, words, s, n)
    {
      var length := SHORTEST_SEGMENT;
      while length <= LONGEST_SEGMENT
        invariant SHORTEST_SEGMENT <= length <= LONGEST_SEGMENT + 1
        invariant forall n :: SHORTEST_SEGMENT <= n < length ==> !SegmentAt(lowered, words, start, n)
        decreases LONGEST_SEGMENT - length
      {
        var segment := Segment(lowered, start, length);
        if |segment| < SHORTEST_SEGMENT {
          break;
        }
        if segment in words {
          assert lowered[start..start + |segment|] == segment;
          assert SegmentAt(lowered, words, start, |segment|);
          return true;
        }
        length := length + 1;
      }
      assert forall n :: !SegmentAt(lowered, words, start, n);
    }
    found := false;
  }
}
