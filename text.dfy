/** Character classes and the Kotlin string operations the decoder relies on:
    `split` on a one-character delimiter, `trim`, `contains` and `toIntOrNull`. */
module Text {
  import opened Wrappers

  /** An ASCII decimal digit, the class `\d` of the version pattern. */
  predicate IsDigit(c: char) {
    '0' <= c <= '9'
  }

  /** The value of an ASCII digit. */
  function DigitValue(c: char): (d: nat)
    requires IsDigit(c)
    ensures d < 10
  {
    c as int - '0' as int
  }

  /** The digit whose value is d. */
  function DigitChar(d: nat): (c: char)
    requires d < 10
    ensures IsDigit(c) && DigitValue(c) == d
  {
    ('0' as int + d) as char
  }

  /** A word character of the extractor pattern's `\b`: an ASCII letter, an
      ASCII digit or the underscore. */
  predicate IsWordChar(c: char) {
    ('a' <= c <= 'z') || ('A' <= c <= 'Z') || IsDigit(c) || c == '_'
  }

  /** A line terminator, which the pattern's `.` does not match: line feed,
      carriage return, next line, line separator, paragraph separator. */
  predicate IsLineTerminator(c: char) {
    c == '\n' || c == '\r' || c == '\U{0085}' || c == '\U{2028}' || c == '\U{2029}'
  }

  lemma LineTerminatorIsNotWordChar(c: char)
    ensures IsLineTerminator(c) ==> !IsWordChar(c)
  {
  }

  /** Kotlin's `Char.isWhitespace`: Java whitespace (tab, line feed, vertical
      tab, form feed, carriage return, the four information separators) and
      every Unicode space, line or paragraph separator. */
  predicate IsWhitespace(c: char) {
    c == '\t' || c == '\n' || c == '\U{000B}' || c == '\U{000C}' || c == '\r'
    || ('\U{001C}' <= c <= '\U{001F}')
    || c == ' ' || c == '\U{00A0}' || c == '\U{1680}' || ('\U{2000}' <= c <= '\U{200A}')
    || c == '\U{2028}' || c == '\U{2029}' || c == '\U{202F}' || c == '\U{205F}'
    || c == '\U{3000}'
  }

  /** p occurs in s at index i. */
  predicate OccursAt(s: string, p: string, i: int) {
    0 <= i && i + |p| <= |s| && s[i..i + |p|] == p
  }

  /** Kotlin's `contains` on a string argument. */
  predicate Contains(s: string, p: string) {
    exists i | 0 <= i <= |s| - |p| :: OccursAt(s, p, i)
  }

  /** Index of the first occurrence of c in s. */
  function IndexOf(s: string, c: char): (i: nat)
    requires c in s
    ensures i < |s| && s[i] == c && c !in s[..i]
  {
    if s[0] == c then 0 else 1 + IndexOf(s[1..], c)
  }

  /** The first position holding c is the index of c. */
  lemma {:induction false} IndexOfFirst(s: string, c: char, j: nat)
    requires j < |s| && s[j] == c && c !in s[..j]
    ensures IndexOf(s, c) == j
  {
    if j > 0 {
      assert s[0] == s[..j][0];
      assert s[1..][..j - 1] == s[..j][1..];
      IndexOfFirst(s[1..], c, j - 1);
    }
  }

  /** Kotlin's `split` on a one-character delimiter: every token, empty ones
      included, in order. */
  function Split(s: string, sep: char): (parts: seq<string>)
    ensures |parts| >= 1
    ensures forall k :: 0 <= k < |parts| ==> sep !in parts[k]
    decreases |s|
  {
    if sep !in s then [s]
    else
      var i := IndexOf(s, sep);
      [s[..i]] + Split(s[i + 1..], sep)
  }

  /** Tokens joined back with the delimiter. */
  function Join(parts: seq<string>, sep: char): string
    requires |parts| >= 1
  {
    if |parts| == 1 then parts[0] else parts[0] + [sep] + Join(parts[1..], sep)
  }

  /** Splitting loses nothing: joining the tokens gives the input back. */
  lemma {:induction false} JoinSplit(s: string, sep: char)
    ensures Join(Split(s, sep), sep) == s
    decreases |s|
  {
    if sep in s {
      var i := IndexOf(s, sep);
      JoinSplit(s[i + 1..], sep);
      assert s == s[..i] + [sep] + s[i + 1..];
    }
  }

  /** Tokens free of the delimiter are recovered by splitting their join. */
  lemma {:induction false} SplitJoin(parts: seq<string>, sep: char)
    requires |parts| >= 1
    requires forall k :: 0 <= k < |parts| ==> sep !in parts[k]
    ensures Split(Join(parts, sep), sep) == parts
  {
    if |parts| > 1 {
      JoinHead(parts, sep);
      SplitJoin(parts[1..], sep);
    }
  }

  /** The join of two or more tokens splits at the end of the first token. */
  lemma JoinHead(parts: seq<string>, sep: char)
    requires |parts| > 1
    requires sep !in parts[0]
    ensures sep in Join(parts, sep)
    ensures Split(Join(parts, sep), sep) == [parts[0]] + Split(Join(parts[1..], sep), sep)
  {
    var s := Join(parts, sep);
    assert s == parts[0] + ([sep] + Join(parts[1..], sep));
    assert s[|parts[0]|] == sep;
    assert s[..|parts[0]|] == parts[0];
    IndexOfFirst(s, sep, |parts[0]|);
    assert s[|parts[0]| + 1..] == Join(parts[1..], sep);
  }

  /** The last token, Kotlin's `lastOrNull` on a split (never null). */
  function LastToken(s: string, sep: char): (t: string)
    ensures sep !in t
  {
    var parts := Split(s, sep);
    parts[|parts| - 1]
  }

  /** The first token, Kotlin's `firstOrNull` on a split (never null). */
  function FirstToken(s: string, sep: char): (t: string)
    ensures sep !in t
  {
    Split(s, sep)[0]
  }

  /** The first token is the longest prefix free of the delimiter. */
  lemma FirstTokenIsPrefix(s: string, sep: char)
    ensures FirstToken(s, sep) <= s
    ensures |FirstToken(s, sep)| < |s| ==> s[|FirstToken(s, sep)|] == sep
  {
    if sep in s {
      var i := IndexOf(s, sep);
      assert FirstToken(s, sep) == s[..i];
    }
  }

  /** Drops leading whitespace. */
  function TrimStart(s: string): (t: string)
    ensures |t| <= |s| && t == s[|s| - |t|..]
    ensures forall k {:trigger IsWhitespace(s[k])} :: 0 <= k < |s| - |t| ==> IsWhitespace(s[k])
    ensures |t| > 0 ==> !IsWhitespace(t[0])
  {
    if |s| > 0 && IsWhitespace(s[0]) then TrimStart(s[1..]) else s
  }

  /** Drops trailing whitespace. */
  function TrimEnd(s: string): (t: string)
    ensures |t| <= |s| && t == s[..|t|]
    ensures forall k {:trigger IsWhitespace(s[k])} :: |t| <= k < |s| ==> IsWhitespace(s[k])
    ensures |t| > 0 ==> !IsWhitespace(t[|t| - 1])
  {
    if |s| > 0 && IsWhitespace(s[|s| - 1]) then TrimEnd(s[..|s| - 1]) else s
  }

  /** Kotlin's `trim`: the input with whitespace removed at both ends. */
  function Trim(s: string): (t: string)
  {
    TrimEnd(TrimStart(s))
  }

  /** A prefix of a suffix of s is a slice of s, and what follows that prefix
      within the suffix follows the slice within s. */
  lemma {:induction false} SliceOfSuffix(s: string, a: nat, n: nat)
    requires a + n <= |s|
    ensures s[a..][..n] == s[a..a + n]
    ensures forall k :: a + n <= k < |s| ==> s[k] == s[a..][k - a]
  {
    forall k | 0 <= k < n
      ensures s[a..][..n][k] == s[a..a + n][k]
    {
      assert s[a..][..n][k] == s[a + k];
    }
  }

  /** The trimmed string starts where the leading whitespace ends. */
  lemma {:induction false} TrimIsSlice(s: string)
    ensures var a := |s| - |TrimStart(s)|; a + |Trim(s)| <= |s| && Trim(s) == s[a..a + |Trim(s)|]
  {
    var u := TrimStart(s);
    SliceOfSuffix(s, |s| - |u|, |TrimEnd(u)|);
  }

  /** Everything after the trimmed string is whitespace. */
  lemma {:induction false} TrimLeavesTrailing(s: string)
    ensures forall k {:trigger IsWhitespace(s[k])} :: |s| - |TrimStart(s)| + |Trim(s)| <= k < |s| ==> IsWhitespace(s[k])
  {
    var u := TrimStart(s);
    var a := |s| - |u|;
    SliceOfSuffix(s, a, |TrimEnd(u)|);
    forall k | a + |TrimEnd(u)| <= k < |s|
      ensures IsWhitespace(s[k])
    {
      assert |TrimEnd(u)| <= k - a < |u|;
    }
  }

  /** Neither end of a non-empty trimmed string is whitespace. */
  lemma {:induction false} TrimEnds(s: string)
    ensures |Trim(s)| > 0 ==> !IsWhitespace(Trim(s)[0]) && !IsWhitespace(Trim(s)[|Trim(s)| - 1])
  {
    var u := TrimStart(s);
    if |TrimEnd(u)| > 0 {
      assert TrimEnd(u)[0] == u[0];
    }
  }

  /** The trimmed string is the slice of the input between its leading and
      trailing whitespace, and neither of its ends is whitespace. */
  lemma TrimIsCore(s: string) returns (a: nat, b: nat)
    ensures a <= b <= |s| && Trim(s) == s[a..b]
    ensures forall k {:trigger IsWhitespace(s[k])} :: 0 <= k < a ==> IsWhitespace(s[k])
    ensures forall k {:trigger IsWhitespace(s[k])} :: b <= k < |s| ==> IsWhitespace(s[k])
    ensures |Trim(s)| > 0 ==> !IsWhitespace(Trim(s)[0]) && !IsWhitespace(Trim(s)[|Trim(s)| - 1])
  {
    a := |s| - |TrimStart(s)|;
    b := a + |Trim(s)|;
    TrimIsSlice(s);
    TrimLeavesTrailing(s);
    TrimEnds(s);
  }

  /** Trimming twice trims nothing more. */
  lemma TrimIdempotent(s: string)
    ensures Trim(Trim(s)) == Trim(s)
  {
    var t := Trim(s);
    var a, b := TrimIsCore(s);
    if |t| > 0 {
      assert TrimStart(t) == t;
      assert TrimEnd(t) == t;
    }
  }

  /** Every character is an ASCII digit. */
  predicate AllDigits(s: string) {
    forall k :: 0 <= k < |s| ==> IsDigit(s[k])
  }

  /** The code point of the digit zero of each script whose decimal digits
      (Unicode general category Nd) lie in the Basic Multilingual Plane, in
      increasing order. Each zero is followed by the digits one to nine. */
  const DecimalZeros: seq<int> :=
    [0x0030, 0x0660, 0x06F0, 0x07C0, 0x0966, 0x09E6, 0x0A66, 0x0AE6, 0x0B66, 0x0BE6,
     0x0C66, 0x0CE6, 0x0D66, 0x0DE6, 0x0E50, 0x0ED0, 0x0F20, 0x1040, 0x1090, 0x17E0,
     0x1810, 0x1946, 0x19D0, 0x1A80, 0x1A90, 0x1B50, 0x1BB0, 0x1C40, 0x1C50, 0xA620,
     0xA8D0, 0xA900, 0xA9D0, 0xA9F0, 0xAA50, 0xABF0, 0xFF10]

  /** Each zero lies at least ten code points above the previous one. */
  predicate ZerosApart(zeros: seq<int>) {
    forall k :: 0 < k < |zeros| ==> zeros[k - 1] + 10 <= zeros[k]
  }

  /** The value of code point c as a digit of the first run of ten that holds it. */
  function DigitIn(c: int, zeros: seq<int>): (d: Option<nat>)
    requires ZerosApart(zeros)
    ensures d.Some? ==> |zeros| > 0 && d.value < 10 && zeros[0] <= c
    ensures |zeros| > 0 && zeros[0] <= c < zeros[0] + 10 ==> d == Some(c - zeros[0])
  {
    if |zeros| == 0 then None
    else if zeros[0] <= c < zeros[0] + 10 then Some(c - zeros[0])
    else
      var d := DigitIn(c, zeros[1..]);
      assert d.Some? ==> zeros[1] <= c;
      d
  }

  /** A code point in the last run of ten is a digit of that run. */
  lemma {:induction false} DigitInLast(c: int, zeros: seq<int>)
    requires ZerosApart(zeros) && |zeros| > 0
    requires zeros[|zeros| - 1] <= c < zeros[|zeros| - 1] + 10
    ensures DigitIn(c, zeros) == Some(c - zeros[|zeros| - 1])
  {
    if |zeros| > 1 {
      var rest := zeros[1..];
      assert ZerosApart(rest) && rest[|rest| - 1] == zeros[|zeros| - 1];
      DigitInLast(c, rest);
      assert zeros[0] + 10 <= zeros[1] <= c;
    }
  }

  /** Java's `Character.digit(c, 10)`, which Kotlin's `toIntOrNull` uses: the
      value of a decimal digit of any script; ASCII digits keep their value,
      and nothing below U+0660 other than them is a digit. */
  function DecimalDigit(c: char): (d: Option<nat>)
    ensures d.Some? ==> d.value < 10
    ensures IsDigit(c) ==> d == Some(DigitValue(c))
    ensures !IsDigit(c) && (c as int) < 0x0660 ==> d.None?
  {
    assert ZerosApart(DecimalZeros);
    assert DecimalZeros[0] == 0x0030 && DecimalZeros[1] == 0x0660;
    DigitIn(c as int, DecimalZeros)
  }

  /** Every character is a decimal digit of some script. */
  predicate AllDecimal(s: string) {
    forall k :: 0 <= k < |s| ==> DecimalDigit(s[k]).Some?
  }

  /** The value of a run of decimal digits. */
  function DecimalValue(s: string): (n: nat)
    requires AllDecimal(s)
  {
    if |s| == 0 then 0 else DecimalValue(s[..|s| - 1]) * 10 + DecimalDigit(s[|s| - 1]).value
  }

  const MinInt: int := -0x8000_0000
  const MaxInt: int := 0x7FFF_FFFF

  /** Kotlin's `String.toIntOrNull()` in base 10: an optional leading sign and
      at least one decimal digit of any script, in the range of a 32-bit Int. */
  function ToIntOrNull(s: string): (r: Option<int>)
    ensures r.Some? ==> MinInt <= r.value <= MaxInt
  {
    if |s| == 0 then None
    else if s[0] == '-' || s[0] == '+' then
      var digits := s[1..];
      if |digits| == 0 || !AllDecimal(digits) then None
      else
        var v: int := if s[0] == '-' then -(DecimalValue(digits) as int) else DecimalValue(digits);
        if MinInt <= v <= MaxInt then Some(v) else None
    else if AllDecimal(s) then
      var v := DecimalValue(s);
      if v <= MaxInt then Some(v) else None
    else None
  }

  /** Decimal digits of a natural number, without leading zeros. */
  function NatDigits(n: nat): (s: string)
    ensures |s| >= 1 && AllDigits(s)
  {
    if n < 10 then [DigitChar(n)] else NatDigits(n / 10) + [DigitChar(n % 10)]
  }

  /** Kotlin's `Int.toString()`. */
  function IntToString(n: int): string {
    if n < 0 then "-" + NatDigits(-n) else NatDigits(n)
  }

  /** ASCII digits are decimal digits. */
  lemma AsciiDigitsAreDecimal(s: string)
    requires AllDigits(s)
    ensures AllDecimal(s)
  {
    forall k | 0 <= k < |s|
      ensures DecimalDigit(s[k]).Some?
    {
      assert IsDigit(s[k]);
    }
  }

  lemma {:induction false} DecimalValueOfNatDigits(n: nat)
    ensures AllDecimal(NatDigits(n)) && DecimalValue(NatDigits(n)) == n
  {
    AsciiDigitsAreDecimal(NatDigits(n));
    if n >= 10 {
      DecimalValueOfNatDigits(n / 10);
      var s := NatDigits(n);
      assert s[..|s| - 1] == NatDigits(n / 10);
      assert IsDigit(s[|s| - 1]);
    } else {
      assert IsDigit(NatDigits(n)[0]);
    }
  }

  /** Parsing the decimal rendering of an Int gives the Int back. */
  lemma ToIntOrNullOfIntToString(n: int)
    requires MinInt <= n <= MaxInt
    ensures ToIntOrNull(IntToString(n)) == Some(n)
  {
    var s := IntToString(n);
    if n < 0 {
      DecimalValueOfNatDigits(-n);
      assert s[0] == '-' && s[1..] == NatDigits(-n);
    } else {
      DecimalValueOfNatDigits(n);
      assert s == NatDigits(n);
      assert IsDigit(s[0]);
      assert s[0] != '-' && s[0] != '+';
    }
  }

  /** Two decimal digits always parse, to their two-digit value. */
  lemma ToIntOrNullOfTwoDecimals(s: string)
    requires |s| == 2 && DecimalDigit(s[0]).Some? && DecimalDigit(s[1]).Some?
    ensures ToIntOrNull(s) == Some(10 * DecimalDigit(s[0]).value + DecimalDigit(s[1]).value)
  {
    assert AllDecimal(s);
    assert s[0] != '-' && s[0] != '+';
    assert DecimalValue(s) == DecimalValue(s[..1]) * 10 + DecimalDigit(s[1]).value;
    assert DecimalValue(s[..1]) == DecimalValue(s[..1][..0]) * 10 + DecimalDigit(s[0]).value;
  }

  /** Two ASCII digits always parse, to their two-digit value. */
  lemma ToIntOrNullOfTwoDigits(s: string)
    requires |s| == 2 && AllDigits(s)
    ensures ToIntOrNull(s) == Some(10 * DigitValue(s[0]) + DigitValue(s[1]))
  {
    assert IsDigit(s[0]) && IsDigit(s[1]);
    ToIntOrNullOfTwoDecimals(s);
  }

  /** Arabic-Indic seven and zero read as 70. */
  lemma ToIntOrNullOfArabicIndic()
    ensures ToIntOrNull("\U{0667}\U{0660}") == Some(70)
  {
    var s := "\U{0667}\U{0660}";
    assert DecimalDigit(s[0]) == Some(7) && DecimalDigit(s[1]) == Some(0);
    ToIntOrNullOfTwoDecimals(s);
  }

  /** Fullwidth seven and zero read as 70. */
  lemma ToIntOrNullOfFullwidth()
    ensures ToIntOrNull("\U{FF17}\U{FF10}") == Some(70)
  {
    var s := "\U{FF17}\U{FF10}";
    assert ZerosApart(DecimalZeros) && DecimalZeros[|DecimalZeros| - 1] == 0xFF10;
    DigitInLast(s[0] as int, DecimalZeros);
    DigitInLast(s[1] as int, DecimalZeros);
    ToIntOrNullOfTwoDecimals(s);
  }

  /** A string that parses has decimal digits after an optional sign and
      nothing else. */
  lemma ToIntOrNullShape(s: string)
    requires ToIntOrNull(s).Some?
    ensures |s| >= 1
    ensures AllDecimal(s) || ((s[0] == '-' || s[0] == '+') && |s| >= 2 && AllDecimal(s[1..]))
  {
  }
}
