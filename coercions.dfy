/** The typed readings of raw field values: flags, dates, names, height,
    weight and postal code. Each takes the raw text that the extractor found
    for its elements (nothing when the field is absent). Library conversions
    the decoder calls but does not define (`toDoubleOrNull`, the date
    formatter, the unit conversions) are passed in as functions. */
module Coercions {
  import opened Wrappers
  import opened Text
  import opened IdCards
  import Elements

  /** The two date layouts the decoder uses. */
  datatype DateFormat = MonthDayYear | YearMonthDay {
    /** The `SimpleDateFormat` pattern. */
    function Pattern(): (p: string)
      ensures |p| == 8
    {
      match this
      case MonthDayYear => "MMddyyyy"
      case YearMonthDay => "yyyyMMdd"
    }
  }

  /** Why decoding a licence can fail. */
  datatype DecodeError =
    | DateRejected(element: Elements.Element, raw: string, format: DateFormat)
    | PostalCodeTooShort(raw: string)

  /** `parseBoolean`: a present flag is true exactly when it reads "1". */
  function ParseBoolean(raw: Option<string>): (r: Option<bool>)
    ensures r.None? <==> raw.None?
    ensures r == Some(true) <==> raw == Some("1")
  {
    match raw
    case None => None
    case Some(s) => Some(s == "1")
  }

  /** `parseDate`: nothing when the raw value is absent or empty; otherwise
      the formatter's reading, and a failure when the formatter rejects it. */
  function ParseDate(element: Elements.Element, raw: Option<string>, format: DateFormat,
                     parse: (DateFormat, string) -> Option<Date>): (r: Result<Option<Date>, DecodeError>)
    ensures (raw.None? || raw == Some("")) ==> r == Success(None)
    ensures r.Failure? <==> raw.Some? && raw.value != "" && parse(format, raw.value).None?
    ensures r.Failure? ==> r.error == DateRejected(element, raw.value, format)
    ensures r.Success? && r.value.Some? ==> raw.Some? && parse(format, raw.value) == r.value
  {
    match raw
    case None => Success(None)
    case Some(s) =>
      if s == "" then Success(None)
      else match parse(format, s)
        case None => Failure(DateRejected(element, s, format))
        case Some(d) => Success(Some(d))
  }

  /** A code lookup applied to a raw value that may be absent: a value comes
      out only when one was read and the lookup knows it. */
  function OfRaw<T>(raw: Option<string>, of: string -> Option<T>): (r: Option<T>)
    ensures raw.None? ==> r.None?
    ensures raw.Some? ==> r == of(raw.value)
    ensures r.Some? <==> raw.Some? && of(raw.value).Some?
  {
    match raw
    case None => None
    case Some(s) => of(s)
  }

  /** The trimmed comma-separated parts of a name. */
  function NameParts(s: string): (parts: seq<string>)
    ensures |parts| == |Split(s, ',')| >= 1
    ensures forall k :: 0 <= k < |parts| ==> parts[k] == Trim(Split(s, ',')[k])
  {
    var tokens := Split(s, ',');
    seq(|tokens|, k requires 0 <= k < |tokens| => Trim(tokens[k]))
  }

  /** `parsedFirstName`: the first name, else the trimmed last comma part of
      the given names, else that of the full name. */
  function ParsedFirstName(first: Option<string>, given: Option<string>, fullName: Option<string>): (r: Option<string>)
    ensures r.None? <==> first.None? && given.None? && fullName.None?
    ensures first.Some? ==> r == first
    ensures first.None? && given.Some? ==> r == Some(Trim(LastToken(given.value, ',')))
    ensures first.None? && given.None? && fullName.Some? ==> r == Some(Trim(LastToken(fullName.value, ',')))
  {
    if first.Some? then first
    else if given.Some? then Some(Trim(LastToken(given.value, ',')))
    else if fullName.Some? then Some(Trim(LastToken(fullName.value, ',')))
    else None
  }

  /** `parsedMiddleNames`: the middle name alone, else every trimmed comma
      part of the given names, else every part of the full name, else none. */
  function ParsedMiddleNames(middle: Option<string>, given: Option<string>, fullName: Option<string>): (r: seq<string>)
    ensures r == [] <==> middle.None? && given.None? && fullName.None?
    ensures middle.Some? ==> r == [middle.value]
    ensures middle.None? && given.Some? ==> r == NameParts(given.value)
    ensures middle.None? && given.None? && fullName.Some? ==> r == NameParts(fullName.value)
  {
    if middle.Some? then [middle.value]
    else if given.Some? then NameParts(given.value)
    else if fullName.Some? then NameParts(fullName.value)
    else []
  }

  /** `parsedLastName`: the family name, else the trimmed last comma part of
      the full name. */
  function ParsedLastName(last: Option<string>, fullName: Option<string>): (r: Option<string>)
    ensures r.None? <==> last.None? && fullName.None?
    ensures last.Some? ==> r == last
    ensures last.None? && fullName.Some? ==> r == Some(Trim(LastToken(fullName.value, ',')))
  {
    if last.Some? then last
    else if fullName.Some? then Some(Trim(LastToken(fullName.value, ',')))
    else None
  }

  /** When the first and middle names come from the given names, the first
      name is the last of the middle names. */
  lemma FirstNameIsLastMiddleName(given: string, fullName: Option<string>)
    ensures var middles := ParsedMiddleNames(None, Some(given), fullName);
            ParsedFirstName(None, Some(given), fullName) == Some(middles[|middles| - 1])
  {
    var parts := NameParts(given);
    var last := |Split(given, ',')| - 1;
    assert ParsedMiddleNames(None, Some(given), fullName) == parts;
    assert parts[last] == Trim(Split(given, ',')[last]);
  }

  /** With only the full name present, the first name, the last name and the
      last middle name are all its last comma part. */
  lemma FullNameOnly(fullName: string)
    ensures var middles := ParsedMiddleNames(None, None, Some(fullName));
            ParsedFirstName(None, None, Some(fullName)) == Some(middles[|middles| - 1])
            && ParsedLastName(None, Some(fullName)) == ParsedFirstName(None, None, Some(fullName))
  {
  }

  /** Given names written "a,b" with no comma in b yield the first name b
      (trimmed), and the middle names a and b. */
  lemma FirstNameOfTwoParts(a: string, b: string)
    requires ',' !in a && ',' !in b
    ensures ParsedFirstName(None, Some(a + "," + b), None) == Some(Trim(b))
    ensures ParsedMiddleNames(None, Some(a + "," + b), None) == [Trim(a), Trim(b)]
  {
    TwoPartsSplit(a, b);
    var parts := NameParts(a + "," + b);
    assert |parts| == 2 && parts[0] == Trim(a) && parts[1] == Trim(b);
  }

  /** "a,b" splits at its comma into a and b. */
  lemma TwoPartsSplit(a: string, b: string)
    requires ',' !in a && ',' !in b
    ensures Split(a + "," + b, ',') == [a, b]
  {
    SplitJoin([a, b], ',');
    assert Join([a, b], ',') == a + "," + b by {
      assert Join([a, b][1..], ',') == b;
    }
  }

  /** `parsedHeight` of the base parser: the first space-separated token of the
      raw value read as a number, converted from centimetres when the raw value
      mentions "cm". */
  function InchesHeight(raw: Option<string>, toDouble: string -> Option<real>,
                        inchesFromCentimeters: real -> real): (r: Option<real>)
    ensures r.Some? <==> raw.Some? && toDouble(FirstToken(raw.value, ' ')).Some?
    ensures r.Some? && !Contains(raw.value, "cm") ==> r == toDouble(FirstToken(raw.value, ' '))
    ensures r.Some? && Contains(raw.value, "cm") ==>
              r == Some(inchesFromCentimeters(toDouble(FirstToken(raw.value, ' ')).value))
  {
    match raw
    case None => None
    case Some(s) =>
      match toDouble(FirstToken(s, ' '))
      case None => None
      case Some(h) => if Contains(s, "cm") then Some(inchesFromCentimeters(h)) else Some(h)
  }

  /** A number reader that, like `toDoubleOrNull`, never accepts a text
      containing the letter m (no decimal, hexadecimal or special floating
      literal has one). */
  ghost predicate RejectsLetterM(toDouble: string -> Option<real>) {
    forall s :: toDouble(s).Some? ==> 'm' !in s
  }

  /** "173 cm" is read as 173 centimetres. */
  lemma HeightWithSpacedUnit(toDouble: string -> Option<real>, inchesFromCentimeters: real -> real)
    requires toDouble("173") == Some(173.0)
    ensures InchesHeight(Some("173 cm"), toDouble, inchesFromCentimeters) == Some(inchesFromCentimeters(173.0))
  {
    var s := "173 cm";
    assert s[3] == ' ' && s[..3] == "173";
    IndexOfFirst(s, ' ', 3);
    assert FirstToken(s, ' ') == "173";
    assert s[4..6] == "cm";
    assert OccursAt(s, "cm", 4);
  }

  /** "173cm" has no height: its only token is not a number. */
  lemma HeightWithJoinedUnit(toDouble: string -> Option<real>, inchesFromCentimeters: real -> real)
    requires RejectsLetterM(toDouble)
    ensures InchesHeight(Some("173cm"), toDouble, inchesFromCentimeters) == None
  {
    assert ' ' !in "173cm";
    assert 'm' in "173cm";
  }

  /** Kotlin's `Int` division of a by a positive b: the quotient truncated
      toward zero. */
  function TruncatingDiv(a: int, b: int): (q: int)
    requires b > 0
    ensures a >= 0 ==> 0 <= q && q * b <= a < q * b + b
    ensures a < 0 ==> q <= 0 && q * b - b < a <= q * b
  {
    if a >= 0 then a / b else -((-a) / b)
  }

  /** The version 1 height number FII (feet, then two digits of inches) in
      inches: feet are the number divided by 100 with truncation, inches the
      rest. */
  function TotalInches(n: int): int {
    var feet := TruncatingDiv(n, 100);
    var inches := n - feet * 100;
    feet * 12 + inches
  }

  /** A height written as feet followed by two digits of inches gives
      12 inches per foot plus the inches: 510 is 70 inches. */
  lemma TotalInchesOfFeetAndInches(feet: nat, inches: nat)
    requires inches < 100
    ensures TotalInches(feet * 100 + inches) == feet * 12 + inches
  {
    assert (feet * 100 + inches) / 100 == feet;
  }

  /** A number below 100 is a height in inches alone. */
  lemma TotalInchesBelowOneHundred(n: nat)
    requires n < 100
    ensures TotalInches(n) == n
  {
    TotalInchesOfFeetAndInches(0, n);
  }

  /** Because the division truncates toward zero, a negative height number is
      read as the negative of its magnitude. */
  lemma TotalInchesOfNegative(n: int)
    ensures TotalInches(-n) == -TotalInches(n)
  {
  }

  /** `parsedHeight` of version 1: a numeric centimetre field wins and is
      converted; otherwise the inch field must be a 32-bit integer FII. */
  function FeetInchesHeight(centimetres: Option<string>, inches: Option<string>,
                            toDouble: string -> Option<real>, inchesFromCentimeters: real -> real): (r: Option<real>)
    ensures centimetres.Some? && toDouble(centimetres.value).Some? ==>
              r == Some(inchesFromCentimeters(toDouble(centimetres.value).value))
    ensures !(centimetres.Some? && toDouble(centimetres.value).Some?) ==>
              (r.Some? <==> inches.Some? && ToIntOrNull(inches.value).Some?)
    ensures !(centimetres.Some? && toDouble(centimetres.value).Some?) && r.Some? ==>
              r == Some(TotalInches(ToIntOrNull(inches.value).value) as real)
  {
    if centimetres.Some? && toDouble(centimetres.value).Some? then
      Some(inchesFromCentimeters(toDouble(centimetres.value).value))
    else if inches.None? then None
    else match ToIntOrNull(inches.value)
      case None => None
      case Some(n) => Some(TotalInches(n) as real)
  }

  /** "070 in" is not a plain integer, so without a centimetre reading it
      gives no height. */
  lemma FeetInchesHeightNeedsInteger(toDouble: string -> Option<real>, inchesFromCentimeters: real -> real)
    ensures FeetInchesHeight(None, Some("070 in"), toDouble, inchesFromCentimeters) == None
  {
    assert !IsDigit("070 in"[3]);
  }

  /** `parsedWeight`: pounds if they read as a number, else kilograms
      converted to pounds, else the weight range if it reads as an integer. */
  function ParseWeight(pounds: Option<string>, kilograms: Option<string>, range: Option<string>,
                       toDouble: string -> Option<real>, poundsFromKilograms: real -> real): (r: Option<Weight>)
    ensures r.Some? ==> (r.value.pounds.Some? <==> r.value.range.None?)
    ensures r.None? <==> (pounds.None? || toDouble(pounds.value).None?)
                         && (kilograms.None? || toDouble(kilograms.value).None?)
                         && (range.None? || ToIntOrNull(range.value).None?)
    ensures pounds.Some? && toDouble(pounds.value).Some? ==>
              r == Some(Weight(None, toDouble(pounds.value)))
    ensures (pounds.None? || toDouble(pounds.value).None?) && kilograms.Some? && toDouble(kilograms.value).Some? ==>
              r == Some(Weight(None, Some(poundsFromKilograms(toDouble(kilograms.value).value))))
    ensures (pounds.None? || toDouble(pounds.value).None?) && (kilograms.None? || toDouble(kilograms.value).None?)
            && range.Some? && ToIntOrNull(range.value).Some? ==>
              r == Some(Weight(Some(WeightRange(ToIntOrNull(range.value).value)), None))
  {
    if pounds.Some? && toDouble(pounds.value).Some? then
      Some(Weight(None, toDouble(pounds.value)))
    else if kilograms.Some? && toDouble(kilograms.value).Some? then
      Some(Weight(None, Some(poundsFromKilograms(toDouble(kilograms.value).value))))
    else if range.Some? && ToIntOrNull(range.value).Some? then
      Some(Weight(Some(WeightRange(ToIntOrNull(range.value).value)), None))
    else None
  }

  /** The first source that reads wins; a present source that does not read
      falls through to the next. */
  lemma WeightPriority(pounds: Option<string>, kilograms: Option<string>, range: Option<string>,
                       toDouble: string -> Option<real>, poundsFromKilograms: real -> real)
    ensures pounds.Some? && toDouble(pounds.value).Some? ==>
              ParseWeight(pounds, kilograms, range, toDouble, poundsFromKilograms).value.pounds == toDouble(pounds.value)
    ensures (pounds.None? || toDouble(pounds.value).None?) && kilograms.Some? && toDouble(kilograms.value).Some? ==>
              ParseWeight(pounds, kilograms, range, toDouble, poundsFromKilograms).value.pounds
                == Some(poundsFromKilograms(toDouble(kilograms.value).value))
    ensures (pounds.None? || toDouble(pounds.value).None?) && (kilograms.None? || toDouble(kilograms.value).None?) ==>
              ParseWeight(pounds, kilograms, range, toDouble, poundsFromKilograms)
                == ParseWeight(None, None, range, toDouble, poundsFromKilograms)
  {
  }

  /** Without pounds or kilograms the weight is a range or nothing. */
  lemma WeightRangeOnly(range: Option<string>, toDouble: string -> Option<real>, poundsFromKilograms: real -> real)
    ensures var w := ParseWeight(None, None, range, toDouble, poundsFromKilograms);
            w.None? || (w.value.pounds.None? && w.value.range.Some?)
  {
  }

  /** `parsedPostalCode`: the first five characters, then a hyphen and the
      rest unless the rest is "0000". A raw code shorter than five characters
      makes `substring` throw. */
  function FormatPostalCode(raw: Option<string>): (r: Result<Option<string>, DecodeError>)
    ensures raw.None? <==> r == Success(None)
    ensures r.Failure? <==> raw.Some? && |raw.value| < 5
    ensures r.Failure? ==> r.error == PostalCodeTooShort(raw.value)
    ensures r.Success? && r.value.Some? ==> raw.value[..5] <= r.value.value
  {
    match raw
    case None => Success(None)
    case Some(s) =>
      if |s| < 5 then Failure(PostalCodeTooShort(s))
      else
        var rest := s[5..];
        if rest != "0000" then Success(Some(s[..5] + "-" + rest))
        else Success(Some(s[..5]))
  }

  /** Formatting only inserts the hyphen after five characters, or drops a
      trailing "0000": the raw code can be read back from the result. */
  lemma PostalCodeKeepsCharacters(raw: string)
    requires |raw| >= 5
    ensures var p := FormatPostalCode(Some(raw)).value.value;
            if raw[5..] == "0000" then p + "0000" == raw
            else |p| == |raw| + 1 && p[5] == '-' && p[..5] + p[6..] == raw
  {
    assert raw == raw[..5] + raw[5..];
  }

  /** ZIP+4 codes come out hyphenated, a "0000" extension is dropped, and a
      bare five-character code gets a trailing hyphen. */
  lemma PostalCodeExamples()
    ensures FormatPostalCode(Some("123456789")) == Success(Some("12345-6789"))
    ensures FormatPostalCode(Some("123450000")) == Success(Some("12345"))
    ensures FormatPostalCode(Some("12345")) == Success(Some("12345-"))
    ensures FormatPostalCode(Some("1234")) == Failure(PostalCodeTooShort("1234"))
  {
    assert "123456789"[..5] == "12345" && "123456789"[5..] == "6789";
    assert "12345" + "-" + "6789" == "12345-6789";
    assert "123450000"[..5] == "12345" && "123450000"[5..] == "0000";
    assert "12345"[..5] == "12345" && "12345"[5..] == "";
    assert "12345" + "-" + "" == "12345-";
  }
}
