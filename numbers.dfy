/** .NET's `int.Parse` / `int.TryParse` with the default integer style
    (surrounding white space, an optional leading sign, decimal digits,
    32-bit range) and the decimal formatting of an integer (`$"{n}"`). */
module Numbers {

  const Int32Min: int := -0x8000_0000
  const Int32Max: int := 0x7FFF_FFFF

  predicate InInt32(n: int) {
    Int32Min <= n <= Int32Max
  }

  /** `int.Parse` returns `Parsed`; it throws `FormatException` for
      `BadFormat` and `OverflowException` for `Overflow`. `int.TryParse`
      returns true exactly for `Parsed`. */
  datatype ParseResult = Parsed(value: int) | BadFormat | Overflow

  /** White space as the default integer style admits it: U+0009 to U+000D and U+0020. */
  predicate IsWhite(c: char) {
    c == ' ' || '\t' <= c <= '\r'
  }

  predicate IsDigit(c: char) {
    '0' <= c <= '9'
  }

  predicate AllDigits(s: string) {
    forall i :: 0 <= i < |s| ==> IsDigit(s[i])
  }

  function TrimStart(s: string): (r: string)
    ensures |r| <= |s| && r == s[|s| - |r|..]
    ensures r == [] || !IsWhite(r[0])
    ensures (s == [] || !IsWhite(s[0])) ==> r == s
  {
    if s != [] && IsWhite(s[0]) then TrimStart(s[1..]) else s
  }

  function TrimEnd(s: string): (r: string)
    ensures |r| <= |s| && r == s[..|r|]
    ensures r == [] || !IsWhite(r[|r| - 1])
    ensures (s == [] || !IsWhite(s[|s| - 1])) ==> r == s
  {
    if s != [] && IsWhite(s[|s| - 1]) then TrimEnd(s[..|s| - 1]) else s
  }

  /** The value of a string of decimal digits, most significant first. */
  function DigitsValue(s: string): (n: nat)
    requires AllDigits(s)
  {
    if s == [] then 0
    else DigitsValue(s[..|s| - 1]) * 10 + (s[|s| - 1] as int - '0' as int)
  }

  /** `int.Parse(s)` under the default integer style. */
  function ParseInt32(s: string): ParseResult {
    ParseTrimmed(TrimEnd(TrimStart(s)))
  }

  /** The parse of the text left after trimming: an optional sign, then digits. */
  function ParseTrimmed(t: string): ParseResult {
    if |t| > 0 && t[0] == '-' then ParseDigits(true, t[1..])
    else if |t| > 0 && t[0] == '+' then ParseDigits(false, t[1..])
    else ParseDigits(false, t)
  }

  /** The value of at least one digit, with its sign, when it fits in 32 bits. */
  function ParseDigits(negative: bool, digits: string): ParseResult {
    if digits == [] || !AllDigits(digits) then BadFormat
    else
      var v: int := if negative then -(DigitsValue(digits) as int) else DigitsValue(digits);
      if InInt32(v) then Parsed(v) else Overflow
  }

  function DigitChar(d: nat): char
    requires d < 10
  {
    ('0' as int + d) as char
  }

  /** The decimal digits of a natural number, without leading zeros. */
  function Digits(n: nat): (s: string)
    ensures |s| >= 1 && AllDigits(s)
  {
    if n < 10 then [DigitChar(n)] else Digits(n / 10) + [DigitChar(n % 10)]
  }

  /** `$"{n}"` for an integer: a minus sign for negative numbers, then the digits. */
  function FormatInt(n: int): (s: string)
    ensures |s| >= 1
  {
    if n < 0 then "-" + Digits(-n) else Digits(n)
  }

  lemma {:induction false} DigitsValueOfDigits(n: nat)
    ensures DigitsValue(Digits(n)) == n
  {
    if n >= 10 {
      var s := Digits(n);
      assert s[..|s| - 1] == Digits(n / 10);
      DigitsValueOfDigits(n / 10);
    }
  }

  /** The text of an integer has no white space to trim: it starts with a
      minus sign or a digit and ends with a digit. */
  lemma FormatIntIsTrimmed(n: int)
    ensures TrimEnd(TrimStart(FormatInt(n))) == FormatInt(n)
  {
    var s := FormatInt(n);
    assert !IsWhite(s[0]) && !IsWhite(s[|s| - 1]) by {
      DigitsEndsWithDigit(if n < 0 then -n else n);
    }
    assert TrimStart(s) == s;
  }

  /** The digits of a number start and end with a digit. */
  lemma DigitsEndsWithDigit(d: nat)
    ensures IsDigit(Digits(d)[0]) && IsDigit(Digits(d)[|Digits(d)| - 1])
    ensures IsDigit(FormatInt(d)[0])
    ensures FormatInt(-(d as int))[|FormatInt(-(d as int))| - 1] == Digits(d)[|Digits(d)| - 1]
  {
    var ds := Digits(d);
    assert IsDigit(ds[0]) && IsDigit(ds[|ds| - 1]);
  }

  /** Formatting then parsing an integer gives it back when it fits in 32
      bits, and overflows when it does not. */
  lemma ParseFormatRoundTrip(n: int)
    ensures ParseInt32(FormatInt(n)) == if InInt32(n) then Parsed(n) else Overflow
  {
    FormatIntIsTrimmed(n);
    FormatIntSplitsSign(n);
    ParseDigitsOfMagnitude(n);
  }

  /** The text of an integer is a sign for negative numbers, then the digits of its magnitude. */
  lemma FormatIntSplitsSign(n: int)
    ensures ParseTrimmed(FormatInt(n)) == ParseDigits(n < 0, Digits(if n < 0 then -n else n))
  {
    var s := FormatInt(n);
    if n < 0 {
      assert s[0] == '-' && s[1..] == Digits(-n);
    } else {
      assert IsDigit(s[0]);
    }
  }

  /** The digits of the magnitude of an integer, with its sign, parse back to it. */
  lemma ParseDigitsOfMagnitude(n: int)
    ensures ParseDigits(n < 0, Digits(if n < 0 then -n else n)) == if InInt32(n) then Parsed(n) else Overflow
  {
    DigitsValueOfDigits(if n < 0 then -n else n);
  }

  /** Trimming the start never removes a character that is not white space. */
  lemma {:induction false} TrimStartKeeps(s: string, i: nat)
    requires i < |s| && !IsWhite(s[i])
    ensures |s| - |TrimStart(s)| <= i
  {
    if s != [] && IsWhite(s[0]) {
      TrimStartKeeps(s[1..], i - 1);
    }
  }

  /** Trimming the end never removes a character that is not white space. */
  lemma {:induction false} TrimEndKeeps(s: string, i: nat)
    requires i < |s| && !IsWhite(s[i])
    ensures i < |TrimEnd(s)|
  {
    if s != [] && IsWhite(s[|s| - 1]) {
      TrimEndKeeps(s[..|s| - 1], i);
    }
  }

  /** A character that has no place in an integer: neither white space, a sign nor a digit. */
  predicate IsForeign(c: char) {
    !IsWhite(c) && !IsDigit(c) && c != '-' && c != '+'
  }

  /** A trimmed text holding a foreign character is not an integer. */
  lemma TrimmedRejectsForeign(t: string, k: nat)
    requires k < |t| && IsForeign(t[k])
    ensures ParseTrimmed(t) == BadFormat
  {
    if t[0] == '-' || t[0] == '+' {
      assert t[1..][k - 1] == t[k];
    }
  }

  /** A text holding a character that is neither white space, a sign nor a
      digit (a decimal point, an exponent) is never an integer. */
  lemma RejectsForeignCharacter(s: string, i: nat)
    requires i < |s| && IsForeign(s[i])
    ensures ParseInt32(s) == BadFormat
  {
    var ts := TrimStart(s);
    TrimStartKeeps(s, i);
    var k := i - (|s| - |ts|);
    assert ts[k] == s[i];
    TrimEndKeeps(ts, k);
    TrimmedRejectsForeign(TrimEnd(ts), k);
  }

  /** The decimal texts of the default timeouts. */
  lemma FormatDefaultTimeouts()
    ensures FormatInt(10000) == "10000" && FormatInt(30000) == "30000"
  {
    assert Digits(1) == "1" && Digits(3) == "3";
    assert Digits(10) == "10" && Digits(30) == "30";
    assert Digits(100) == "100" && Digits(300) == "300";
    assert Digits(1000) == "1000" && Digits(3000) == "3000";
    assert Digits(10000) == "10000" && Digits(30000) == "30000";
  }

  /** The default timeout texts parse to the numbers they spell. */
  lemma ParseDefaultTimeouts()
    ensures ParseInt32("10000") == Parsed(10000)
    ensures ParseInt32("30000") == Parsed(30000)
  {
    FormatDefaultTimeouts();
    ParseFormatRoundTrip(10000);
    ParseFormatRoundTrip(30000);
  }

  /** The texts of the default attempt settings parse to the numbers they spell. */
  lemma ParseDefaultAttemptSettings()
    ensures ParseInt32("15000") == Parsed(15000)
    ensures ParseInt32("1") == Parsed(1)
  {
    assert Digits(1) == "1" && Digits(15) == "15" && Digits(150) == "150";
    assert Digits(1500) == "1500" && Digits(15000) == "15000";
    ParseFormatRoundTrip(15000);
    ParseFormatRoundTrip(1);
  }

  /** `int.Parse` never yields a value outside the 32-bit range, and a
      parsed text always holds at least one digit. */
  lemma ParsedIsInRange(s: string)
    ensures ParseInt32(s).Parsed? ==> InInt32(ParseInt32(s).value)
    ensures ParseInt32(s).Parsed? ==> exists i :: 0 <= i < |s| && IsDigit(s[i])
  {
    if ParseInt32(s).Parsed? {
      var t := TrimEnd(TrimStart(s));
      var ts := TrimStart(s);
      var digits := if |t| > 0 && (t[0] == '-' || t[0] == '+') then t[1..] else t;
      var i := |digits| - 1;
      var j := if |t| > 0 && (t[0] == '-' || t[0] == '+') then i + 1 else i;
      assert t[j] == digits[i];
      assert ts[j] == t[j];
      assert s[|s| - |ts| + j] == ts[j];
    }
  }
}
