# AAMVA driver-licence barcode parser, modelled in Dafny

This project models the parsing core of a Kotlin library that reads the
text stored in the PDF417 barcode on a North American driver licence or
identity card (the AAMVA card design standard). It turns that text into an
`IdCard` record.

The model covers:

- **Finding the version.** The version number is the two digits after the
  six-digit issuer number. It follows the first non-digit that is followed
  by eight digits. Modules: `VersionDetector`, `Text`.
- **Choosing a field table.** The base parser keeps a table from data
  elements to three-letter element identifiers (`DAC`, `DCS`, ...). The
  parser for versions 1, 2, 3, 5, 6, 7, 8 and 9 edits a copy of that table
  in its initialiser, with removals and replacements in source order.
  Modules: `Parsers` (class `AamvaParser`, with `Remove`/`Put` methods and
  one constructor per version), `FieldTables`, `ElementGroups`, `Elements`.
- **Reading one element.** This is `parseString`: the leftmost match of
  "identifier, then one or more characters up to a word boundary" on one
  line, without the identifier. Module: `Extractor`.
- **Turning raw values into typed values.** This covers names, dates,
  booleans, height, weight, postal code and the enumerations (eye colour,
  hair colour, country, truncation, gender). Modules: `Coercions`,
  `EyeColors`, `HairColors`, `IssuingCountries`, `Truncations`, `Genders`.
- **Assembling the `IdCard`.** The record is built in the order of its
  constructor arguments. Module: `Decoding`.
- **The card's derived questions.** These are `isExpired`, `isIssued`,
  `isAcceptable` and `isJuvenile`. `IdCard.IsJuvenileAsWritten` is
  `isJuvenile` as the source computes it; `IdCard.IsJuvenile` is the
  corrected rule described under "## Findings". Modules: `IdCards`,
  `Calendar`.
- **What each version's card carries and leaves empty.** Module:
  `VersionProperties`.

The Kotlin code throws in two places:

- `SimpleDateFormat.parse` rejects a date;
- `substring(0, 5)` is called on a postal code shorter than five
  characters.

The model returns these as the two `DecodeError` cases of a `Result`.
Because dates are parsed before the postal code, a date error wins.

The model reaches outside collaborators only through a `Library` value:

- date parsing;
- `toDoubleOrNull`;
- the unit conversions of `Utils`;
- `NameSuffix.of`;
- the version 4 field table.

`AamvaParser.Parse` is proved equal to the pure function `Decoding.Decode`.

Edge cases of the code that the model keeps:

- The first name taken from the given names, or from the full name, is the
  LAST comma-separated part, trimmed (`AAMVAParser.kt:195-196`). The middle
  names are ALL the parts, the first name's part included
  (`AAMVAParser.kt:204-212`).
- `parse` can fail, with a rejected date or a postal code shorter than five
  characters. It does not always return a card.
- A five-character postal code becomes `"12345-"`, because the second part
  is `""`, which is not `"0000"`.

All paths below are relative to `aamvaparser/src/main/java/net/prxnxt/aamvaparser/`
in the repository; in the table they are written out in full.

## Model

| member | source | states |
|---|---|---|
| VersionDetector.VersionNumber | aamvaparser/src/main/java/net/prxnxt/aamvaparser/parser/AAMVAParser.kt:77-82 | there is no version exactly when no non-digit is followed by eight digits; otherwise the version is the value of the last two of the eight digits of the leftmost such run, between 0 and 99 |
| VersionDetector.VersionNumberOfHeader | aamvaparser/src/main/java/net/prxnxt/aamvaparser/parser/AAMVAParser.kt:77-82 | for data starting with non-digits, a six-digit issuer number and two digits, the version is the value of those two digits |
| VersionDetector.FindHeader | aamvaparser/src/main/java/net/prxnxt/aamvaparser/parser/AAMVAParser.kt:79 | `find` returns the leftmost position where a non-digit and eight digits start, or none if there is none |
| VersionDetector.FindHeaderIsLeftmost | aamvaparser/src/main/java/net/prxnxt/aamvaparser/parser/AAMVAParser.kt:79 | a header with no header before it is the one that is found |
| Extractor.ParseString | aamvaparser/src/main/java/net/prxnxt/aamvaparser/parser/AAMVAParser.kt:169-173 | no value for an element with no identifier; a value is non-empty, contains no line terminator and occurs right after the identifier in the data; no value while an identifier exists means the pattern matches nowhere |
| Extractor.ParseStringOfLine | aamvaparser/src/main/java/net/prxnxt/aamvaparser/parser/AAMVAParser.kt:169-173 | with the identifier not occurring earlier, an identifier followed by a value that ends in a word character and ends its line yields exactly that value |
| Extractor.ParseStringEndsInWord | aamvaparser/src/main/java/net/prxnxt/aamvaparser/parser/AAMVAParser.kt:171 | every value read ends in a word character (the `\b` after a greedy `.+`) |
| Extractor.MatchEnd | aamvaparser/src/main/java/net/prxnxt/aamvaparser/parser/AAMVAParser.kt:171 | the match end chosen at a position is the longest possible one, and there is none when no end matches |
| Extractor.FindMatch | aamvaparser/src/main/java/net/prxnxt/aamvaparser/parser/AAMVAParser.kt:171 | the match found is at the leftmost position where the pattern matches, and there is none when it matches nowhere |
| Extractor.FindMatchIsLeftmost | aamvaparser/src/main/java/net/prxnxt/aamvaparser/parser/AAMVAParser.kt:171 | a matching position with no match before it is the one found |
| Extractor.LastBoundary | aamvaparser/src/main/java/net/prxnxt/aamvaparser/parser/AAMVAParser.kt:171 | the backtracking of `.+\b`: the last word boundary in a range, or none |
| Extractor.LineEnd | aamvaparser/src/main/java/net/prxnxt/aamvaparser/parser/AAMVAParser.kt:171 | `.` stops at the first line terminator |
| Text.JoinSplit | aamvaparser/src/main/java/net/prxnxt/aamvaparser/parser/AAMVAParser.kt:205 | `split` loses nothing: joining the parts with the delimiter gives the input back |
| Text.SplitJoin | aamvaparser/src/main/java/net/prxnxt/aamvaparser/parser/AAMVAParser.kt:205 | splitting a join of delimiter-free parts gives those parts back |
| Text.Split | aamvaparser/src/main/java/net/prxnxt/aamvaparser/parser/AAMVAParser.kt:205 | `split` yields at least one part and no part contains the delimiter |
| Text.FirstTokenIsPrefix | aamvaparser/src/main/java/net/prxnxt/aamvaparser/parser/AAMVAParser.kt:257-258 | `split(" ").firstOrNull()` is the longest prefix free of spaces |
| Text.TrimIsCore | aamvaparser/src/main/java/net/prxnxt/aamvaparser/parser/AAMVAParser.kt:195 | `trim` is a slice of the input with only whitespace cut off at each end, and the slice neither starts nor ends with whitespace |
| Text.TrimIdempotent | aamvaparser/src/main/java/net/prxnxt/aamvaparser/parser/AAMVAParser.kt:195 | trimming twice gives the same as trimming once |
| Text.DecimalDigit | aamvaparser/src/main/java/net/prxnxt/aamvaparser/parser/AAMVAParser.kt:274 | a digit of `toIntOrNull` is a decimal digit of any script, as `Character.digit` decides; ASCII digits keep their value and nothing else below U+0660 is a digit |
| Text.ToIntOrNull | aamvaparser/src/main/java/net/prxnxt/aamvaparser/parser/AAMVAParser.kt:274 | `toIntOrNull` yields only values in the 32-bit Int range |
| Text.ToIntOrNullOfIntToString | aamvaparser/src/main/java/net/prxnxt/aamvaparser/parser/AAMVAParser.kt:274 | `toIntOrNull` reads back every Int written in decimal |
| Text.ToIntOrNullShape | aamvaparser/src/main/java/net/prxnxt/aamvaparser/parser/AAMVAParser.kt:274 | a string that parses is decimal digits, with an optional leading sign, and nothing else |
| Text.ToIntOrNullOfTwoDecimals | aamvaparser/src/main/java/net/prxnxt/aamvaparser/parser/AAMVAParser.kt:274 | two decimal digits of any script always parse to their two-digit value |
| Text.ToIntOrNullOfTwoDigits | aamvaparser/src/main/java/net/prxnxt/aamvaparser/parser/AAMVAParser.kt:81 | two ASCII digits always parse to their two-digit value |
| Text.ToIntOrNullOfArabicIndic | aamvaparser/src/main/java/net/prxnxt/aamvaparser/parser/AAMVAParser.kt:274 | Arabic-Indic digits seven and zero parse to 70 |
| Text.ToIntOrNullOfFullwidth | aamvaparser/src/main/java/net/prxnxt/aamvaparser/parser/AAMVAParser.kt:274 | fullwidth digits seven and zero parse to 70 |
| Text.AsciiDigitsAreDecimal | aamvaparser/src/main/java/net/prxnxt/aamvaparser/parser/AAMVAParser.kt:274 | ASCII digits are digits for `toIntOrNull` |
| Text.DecimalValueOfNatDigits | aamvaparser/src/main/java/net/prxnxt/aamvaparser/parser/AAMVAParser.kt:274 | the decimal digits of a natural number have that number as their value |
| Lookup.FirstWithRaw | aamvaparser/src/main/java/net/prxnxt/aamvaparser/definitions/Gender.kt:12-13 | `entries.firstOrNull`: the entry found has the raw value asked for; nothing is found exactly when no entry has it |
| EyeColors.Of | aamvaparser/src/main/java/net/prxnxt/aamvaparser/definitions/EyeColor.kt:19-20 | a colour found has the code looked up |
| EyeColors.OfRawValue | aamvaparser/src/main/java/net/prxnxt/aamvaparser/definitions/EyeColor.kt:6-20 | looking up a colour's code gives that colour back |
| EyeColors.OfUnknown | aamvaparser/src/main/java/net/prxnxt/aamvaparser/definitions/EyeColor.kt:19-20 | a code that no colour has gives null |
| EyeColors.RawValueInjective | aamvaparser/src/main/java/net/prxnxt/aamvaparser/definitions/EyeColor.kt:8-16 | no two colours share a code |
| EyeColors.OfRejectsUnknownCode | aamvaparser/src/main/java/net/prxnxt/aamvaparser/definitions/EyeColor.kt:19-20 | lookup is case-sensitive: "blu" is not blue |
| EyeColors.OfRejectsOtherCode | aamvaparser/src/main/java/net/prxnxt/aamvaparser/definitions/EyeColor.kt:8-16 | "UNK" is not an eye colour |
| HairColors.Of | aamvaparser/src/main/java/net/prxnxt/aamvaparser/definitions/HairColor.kt:18-19 | a colour found has the code looked up |
| HairColors.OfRawValue | aamvaparser/src/main/java/net/prxnxt/aamvaparser/definitions/HairColor.kt:6-19 | looking up a colour's code gives that colour back |
| HairColors.OfUnknown | aamvaparser/src/main/java/net/prxnxt/aamvaparser/definitions/HairColor.kt:18-19 | a code that no colour has gives null |
| HairColors.RawValueInjective | aamvaparser/src/main/java/net/prxnxt/aamvaparser/definitions/HairColor.kt:8-15 | no two colours share a code |
| HairColors.OfRejectsUnknownCode | aamvaparser/src/main/java/net/prxnxt/aamvaparser/definitions/HairColor.kt:8-15 | "UNK" is not a hair colour |
| HairColors.OfRejectsOtherCode | aamvaparser/src/main/java/net/prxnxt/aamvaparser/definitions/HairColor.kt:18-19 | lookup is case-sensitive: "blk" is not black |
| IssuingCountries.Of | aamvaparser/src/main/java/net/prxnxt/aamvaparser/definitions/IssuingCountry.kt:12-13 | a country found has the code looked up |
| IssuingCountries.OfRawValue | aamvaparser/src/main/java/net/prxnxt/aamvaparser/definitions/IssuingCountry.kt:6-13 | looking up a country's code gives that country back |
| IssuingCountries.OfUnknown | aamvaparser/src/main/java/net/prxnxt/aamvaparser/definitions/IssuingCountry.kt:12-13 | a code that no country has gives null |
| IssuingCountries.RawValueInjective | aamvaparser/src/main/java/net/prxnxt/aamvaparser/definitions/IssuingCountry.kt:8-9 | the two countries have different codes |
| IssuingCountries.OfRejectsUnknownCode | aamvaparser/src/main/java/net/prxnxt/aamvaparser/definitions/IssuingCountry.kt:8-9 | "MEX" is not an issuing country |
| IssuingCountries.OfRejectsOtherCode | aamvaparser/src/main/java/net/prxnxt/aamvaparser/definitions/IssuingCountry.kt:12-13 | lookup is case-sensitive: "usa" is not the United States |
| Truncations.Of | aamvaparser/src/main/java/net/prxnxt/aamvaparser/definitions/Truncation.kt:12-13 | a truncation found has the code looked up |
| Truncations.OfRawValue | aamvaparser/src/main/java/net/prxnxt/aamvaparser/definitions/Truncation.kt:6-13 | looking up a truncation's code gives it back |
| Truncations.OfUnknown | aamvaparser/src/main/java/net/prxnxt/aamvaparser/definitions/Truncation.kt:12-13 | a code that no truncation has gives null |
| Truncations.RawValueInjective | aamvaparser/src/main/java/net/prxnxt/aamvaparser/definitions/Truncation.kt:8-9 | the two truncation values have different codes |
| Truncations.OfRejectsUnknownCode | aamvaparser/src/main/java/net/prxnxt/aamvaparser/definitions/Truncation.kt:8-9 | "U" (unknown) has no entry and gives null |
| Truncations.OfRejectsOtherCode | aamvaparser/src/main/java/net/prxnxt/aamvaparser/definitions/Truncation.kt:12-13 | lookup is case-sensitive: "t" is not truncated |
| Genders.Of | aamvaparser/src/main/java/net/prxnxt/aamvaparser/definitions/Gender.kt:12-13 | a gender found has the code looked up |
| Genders.OfRawValue | aamvaparser/src/main/java/net/prxnxt/aamvaparser/definitions/Gender.kt:6-13 | looking up a gender's code gives it back |
| Genders.OfUnknown | aamvaparser/src/main/java/net/prxnxt/aamvaparser/definitions/Gender.kt:12-13 | a code that no gender has gives null |
| Genders.RawValueInjective | aamvaparser/src/main/java/net/prxnxt/aamvaparser/definitions/Gender.kt:8-9 | the two genders have different codes |
| Genders.OfRejectsUnknownCode | aamvaparser/src/main/java/net/prxnxt/aamvaparser/definitions/Gender.kt:8-9 | "9" (not specified) has no entry and gives null |
| Genders.OfRejectsOtherCode | aamvaparser/src/main/java/net/prxnxt/aamvaparser/definitions/Gender.kt:12-13 | "M" is not a gender code here; only "1" and "2" are |
| FieldTables.BaseTableShape | aamvaparser/src/main/java/net/prxnxt/aamvaparser/parser/AAMVAParser.kt:20-70 | the base table carries 49 elements, all but the first-name alias, suffix alias and height in centimetres, under 49 distinct three-letter identifiers |
| FieldTables.VersionOneTableKeys | aamvaparser/src/main/java/net/prxnxt/aamvaparser/parser/VersionOneParser.kt:12-42 | version 1 carries every element except the 21 it lacks |
| FieldTables.VersionOneTableSize | aamvaparser/src/main/java/net/prxnxt/aamvaparser/parser/VersionOneParser.kt:12-42 | the version 1 table has 31 entries |
| FieldTables.VersionOneTableInjective | aamvaparser/src/main/java/net/prxnxt/aamvaparser/parser/VersionOneParser.kt:12-42 | the version 1 identifiers are distinct and three letters long |
| FieldTables.VersionOneTableRenames | aamvaparser/src/main/java/net/prxnxt/aamvaparser/parser/VersionOneParser.kt:12-42 | version 1 keeps the base identifier of every element it shares, except those it renames, whose identifiers differ from the base ones |
| FieldTables.VersionOneTableExtras | aamvaparser/src/main/java/net/prxnxt/aamvaparser/parser/VersionOneParser.kt:26-28 | the suffix alias and the height in centimetres are the only elements version 1 adds to the base table |
| FieldTables.VersionTwoTableKeys | aamvaparser/src/main/java/net/prxnxt/aamvaparser/parser/VersionTwoParser.kt:11-27 | version 2 carries every element except the 19 it lacks |
| FieldTables.VersionTwoTableSize | aamvaparser/src/main/java/net/prxnxt/aamvaparser/parser/VersionTwoParser.kt:11-27 | the version 2 table has 33 entries |
| FieldTables.VersionTwoTableKeepsBase | aamvaparser/src/main/java/net/prxnxt/aamvaparser/parser/VersionTwoParser.kt:11-27 | version 2 only removes elements: every identifier it keeps is the base one, so the identifiers stay distinct |
| FieldTables.VersionThreeTableExtends | aamvaparser/src/main/java/net/prxnxt/aamvaparser/parser/VersionThreeParser.kt:11-24 | the version 3 table is the version 2 table plus the last-name and given-name aliases |
| FieldTables.VersionThreeTableKeys | aamvaparser/src/main/java/net/prxnxt/aamvaparser/parser/VersionThreeParser.kt:11-24 | version 3 carries every element except the 17 it lacks |
| FieldTables.VersionThreeTableSize | aamvaparser/src/main/java/net/prxnxt/aamvaparser/parser/VersionThreeParser.kt:11-24 | the version 3 table has 35 entries |
| FieldTables.VersionThreeTableKeepsBase | aamvaparser/src/main/java/net/prxnxt/aamvaparser/parser/VersionThreeParser.kt:11-24 | version 3 keeps the base identifiers, all distinct |
| FieldTables.VersionFiveTableReduces | aamvaparser/src/main/java/net/prxnxt/aamvaparser/parser/VersionFiveParser.kt:11-15 | version 5 is version 6 without the organ-donor flag |
| FieldTables.VersionFiveTableKeys | aamvaparser/src/main/java/net/prxnxt/aamvaparser/parser/VersionFiveParser.kt:11-15 | version 5 carries every element except the 8 it lacks |
| FieldTables.VersionFiveTableSize | aamvaparser/src/main/java/net/prxnxt/aamvaparser/parser/VersionFiveParser.kt:11-15 | the version 5 table has 44 entries |
| FieldTables.VersionFiveTableKeepsBase | aamvaparser/src/main/java/net/prxnxt/aamvaparser/parser/VersionFiveParser.kt:11-15 | version 5 keeps the base identifiers, all distinct |
| FieldTables.VersionSixTableReduces | aamvaparser/src/main/java/net/prxnxt/aamvaparser/parser/VersionSixParser.kt:11-14 | version 6 is version 7 without the veteran flag |
| FieldTables.VersionSixTableKeys | aamvaparser/src/main/java/net/prxnxt/aamvaparser/parser/VersionSixParser.kt:11-14 | version 6 carries every element except the 7 it lacks |
| FieldTables.VersionSixTableSize | aamvaparser/src/main/java/net/prxnxt/aamvaparser/parser/VersionSixParser.kt:11-14 | the version 6 table has 45 entries |
| FieldTables.VersionSixTableKeepsBase | aamvaparser/src/main/java/net/prxnxt/aamvaparser/parser/VersionSixParser.kt:11-14 | version 6 keeps the base identifiers, all distinct |
| FieldTables.VersionSevenTableReduces | aamvaparser/src/main/java/net/prxnxt/aamvaparser/parser/VersionSevenParser.kt:11-13 | versions 7 to 9 are the base table without the federal vehicle code, the full name and the given names |
| FieldTables.VersionSevenTableKeys | aamvaparser/src/main/java/net/prxnxt/aamvaparser/parser/VersionSevenParser.kt:11-13 | versions 7 to 9 carry every element except the 6 they lack |
| FieldTables.VersionSevenTableSize | aamvaparser/src/main/java/net/prxnxt/aamvaparser/parser/VersionSevenParser.kt:11-13 | the version 7 table has 46 entries |
| FieldTables.VersionSevenTableKeepsBase | aamvaparser/src/main/java/net/prxnxt/aamvaparser/parser/VersionSevenParser.kt:11-13 | versions 7 to 9 keep the base identifiers, all distinct |
| ElementGroups.VersionOneMissingSize | aamvaparser/src/main/java/net/prxnxt/aamvaparser/parser/VersionOneParser.kt:12-42 | version 1 lacks 21 elements: the 20 its initialiser removes and the first-name alias |
| ElementGroups.VersionTwoMissingSize | aamvaparser/src/main/java/net/prxnxt/aamvaparser/parser/VersionTwoParser.kt:11-27 | version 2 lacks 19 elements: the 16 it removes from the base table and the 3 the base table never had |
| ElementGroups.LaterMissingSizes | aamvaparser/src/main/java/net/prxnxt/aamvaparser/parser/VersionFiveParser.kt:11-15 | versions 7, 6 and 5 lack 6, 7 and 8 elements |
| Parsers.VersionOneEditsOfBase | aamvaparser/src/main/java/net/prxnxt/aamvaparser/parser/VersionOneParser.kt:12-42 | applying the initialiser's removals and replacements, in order, to the base table gives exactly the version 1 table |
| Parsers.VersionOneEditsKeys | aamvaparser/src/main/java/net/prxnxt/aamvaparser/parser/VersionOneParser.kt:12-42 | after the edits, an element has an identifier exactly when version 1 gives it one |
| Parsers.VersionOneEditsValues | aamvaparser/src/main/java/net/prxnxt/aamvaparser/parser/VersionOneParser.kt:12-42 | after the edits, each element has its version 1 identifier |
| Parsers.VersionTwoEditsOfBase | aamvaparser/src/main/java/net/prxnxt/aamvaparser/parser/VersionTwoParser.kt:11-27 | the version 2 removals turn the base table into exactly the version 2 table |
| Parsers.VersionThreeEditsOfBase | aamvaparser/src/main/java/net/prxnxt/aamvaparser/parser/VersionThreeParser.kt:11-24 | the version 3 removals turn the base table into exactly the version 3 table |
| Parsers.VersionFiveEditsOfBase | aamvaparser/src/main/java/net/prxnxt/aamvaparser/parser/VersionFiveParser.kt:11-15 | the version 5 removals turn the base table into exactly the version 5 table |
| Parsers.VersionSixEditsOfBase | aamvaparser/src/main/java/net/prxnxt/aamvaparser/parser/VersionSixParser.kt:11-14 | the version 6 removals turn the base table into exactly the version 6 table |
| Parsers.VersionSevenEditsOfBase | aamvaparser/src/main/java/net/prxnxt/aamvaparser/parser/VersionSevenParser.kt:11-13 | the version 7 removals turn the base table into exactly the version 7 table |
| Parsers.AamvaParser.constructor | aamvaparser/src/main/java/net/prxnxt/aamvaparser/parser/AAMVAParser.kt:14-90 | a base parser holds its data, the base table, the US month-first and Canadian year-first formats and the base height rule |
| Parsers.AamvaParser.VersionOne | aamvaparser/src/main/java/net/prxnxt/aamvaparser/parser/VersionOneParser.kt:11-60 | after the initialiser, the parser holds the version 1 table, the year-first US format and the feet-and-inches height rule |
| Parsers.AamvaParser.VersionTwo | aamvaparser/src/main/java/net/prxnxt/aamvaparser/parser/VersionTwoParser.kt:10-30 | after the initialiser, the parser holds the version 2 table and the month-first Canadian format |
| Parsers.AamvaParser.VersionThree | aamvaparser/src/main/java/net/prxnxt/aamvaparser/parser/VersionThreeParser.kt:10-25 | after the initialiser, the parser holds the version 3 table |
| Parsers.AamvaParser.VersionFour | aamvaparser/src/main/java/net/prxnxt/aamvaparser/parser/AAMVAParser.kt:104 | the version 4 parser holds the profile it is given |
| Parsers.AamvaParser.VersionFive | aamvaparser/src/main/java/net/prxnxt/aamvaparser/parser/VersionFiveParser.kt:10-16 | after the initialiser, the parser holds the version 5 table |
| Parsers.AamvaParser.VersionSix | aamvaparser/src/main/java/net/prxnxt/aamvaparser/parser/VersionSixParser.kt:10-15 | after the initialiser, the parser holds the version 6 table |
| Parsers.AamvaParser.VersionSeven | aamvaparser/src/main/java/net/prxnxt/aamvaparser/parser/VersionSevenParser.kt:10-14 | after the initialiser, the parser holds the version 7 table |
| Parsers.AamvaParser.VersionEight | aamvaparser/src/main/java/net/prxnxt/aamvaparser/parser/VersionEightParser.kt:10-14 | the version 8 parser holds the same table as version 7 |
| Parsers.AamvaParser.VersionNine | aamvaparser/src/main/java/net/prxnxt/aamvaparser/parser/VersionNineParser.kt:10-14 | the version 9 parser holds the same table as version 7 |
| Parsers.AamvaParser.Remove | aamvaparser/src/main/java/net/prxnxt/aamvaparser/parser/VersionOneParser.kt:12 | `fields.remove` drops that one key and changes nothing else |
| Parsers.AamvaParser.Put | aamvaparser/src/main/java/net/prxnxt/aamvaparser/parser/VersionOneParser.kt:15 | `fields[key] = code` sets that one entry and changes nothing else |
| Parsers.AamvaParser.VersionParser | aamvaparser/src/main/java/net/prxnxt/aamvaparser/parser/AAMVAParser.kt:99-111 | a fresh parser for the same data, holding the profile for the detected version |
| Parsers.AamvaParser.Parse | aamvaparser/src/main/java/net/prxnxt/aamvaparser/parser/AAMVAParser.kt:113-167 | the card parsed is the card `Decoding.Decode` specifies for the data |
| Decoding.ProfileFor | aamvaparser/src/main/java/net/prxnxt/aamvaparser/parser/AAMVAParser.kt:99-111 | no version or one outside 1 to 9 selects the base parser; version 4 selects the version 4 profile; versions 7, 8 and 9 share one profile |
| Decoding.Raw | aamvaparser/src/main/java/net/prxnxt/aamvaparser/parser/AAMVAParser.kt:169-173 | an element that the version's table lacks is never read |
| Decoding.Reader | aamvaparser/src/main/java/net/prxnxt/aamvaparser/parser/AAMVAParser.kt:169-173 | the reader reads each element as `parseString` does with the parser's table: nothing for an element without a code, and otherwise a non-empty value that follows the element's code in the text |
| Decoding.CountryOf | aamvaparser/src/main/java/net/prxnxt/aamvaparser/parser/AAMVAParser.kt:231-234 | the country is present exactly when the COUNTRY element is read and `IssuingCountry.of` knows its code, and is then that country |
| Decoding.HeightOf | aamvaparser/src/main/java/net/prxnxt/aamvaparser/parser/AAMVAParser.kt:254-261 | no height when neither height element is read; under the version 1 rule a centimetre reading that is a number wins, converted to inches (`Coercions.InchesHeight` and `Coercions.FeetInchesHeight` state the two rules) |
| Decoding.DateFormatOf | aamvaparser/src/main/java/net/prxnxt/aamvaparser/parser/AAMVAParser.kt:92-97 | a Canadian card uses the Canadian format; any other card, a card with no country included, uses the US format |
| Decoding.ReadDates | aamvaparser/src/main/java/net/prxnxt/aamvaparser/parser/AAMVAParser.kt:128-132 | reading the five dates fails exactly when some date is rejected; the error names the FIRST rejected element in the order expiration, issue, birth, hazmat, revision, with its raw value and the format used |
| Decoding.Record | aamvaparser/src/main/java/net/prxnxt/aamvaparser/parser/AAMVAParser.kt:116-166 | the card records the version detected and the data it was read from |
| Decoding.Assemble | aamvaparser/src/main/java/net/prxnxt/aamvaparser/parser/AAMVAParser.kt:113-167 | parsing fails exactly when a date is rejected or the postal code is shorter than five characters, and a date error comes first; on success the card holds the dates read and the formatted postal code |
| Decoding.DecodeWith | aamvaparser/src/main/java/net/prxnxt/aamvaparser/parser/AAMVAParser.kt:113-167 | a card decoded with a profile records the version and the data |
| Decoding.Decode | aamvaparser/src/main/java/net/prxnxt/aamvaparser/parser/AAMVAParser.kt:113-167 | a card parsed records the version number found in the data and the data itself |
| Coercions.ParseBoolean | aamvaparser/src/main/java/net/prxnxt/aamvaparser/parser/AAMVAParser.kt:187-190 | a flag is null exactly when its element is not read, and true exactly when the raw value is "1" |
| Coercions.ParseDate | aamvaparser/src/main/java/net/prxnxt/aamvaparser/parser/AAMVAParser.kt:181-185 | an absent or empty raw date gives no date; a date is rejected exactly when the formatter rejects a non-empty raw value, and the error names it; a date given is the formatter's |
| Coercions.OfRaw | aamvaparser/src/main/java/net/prxnxt/aamvaparser/parser/AAMVAParser.kt:231-234 | an enumeration is present exactly when its element is read and the lookup knows the raw value, and is then that lookup |
| Coercions.NameParts | aamvaparser/src/main/java/net/prxnxt/aamvaparser/parser/AAMVAParser.kt:205-206 | one trimmed part per comma-separated part of the input |
| Coercions.ParsedFirstName | aamvaparser/src/main/java/net/prxnxt/aamvaparser/parser/AAMVAParser.kt:192-196 | the first name if read, else the trimmed last comma part of the given names, else of the full name; null exactly when none of the three is read |
| Coercions.ParsedMiddleNames | aamvaparser/src/main/java/net/prxnxt/aamvaparser/parser/AAMVAParser.kt:198-214 | the middle name alone if read, else all trimmed parts of the given names, else of the full name; empty exactly when none is read |
| Coercions.ParsedLastName | aamvaparser/src/main/java/net/prxnxt/aamvaparser/parser/AAMVAParser.kt:216-218 | the family name if read, else the trimmed last comma part of the full name; null exactly when neither is read |
| Coercions.FirstNameIsLastMiddleName | aamvaparser/src/main/java/net/prxnxt/aamvaparser/parser/AAMVAParser.kt:192-214 | without a first or middle name element, the first name taken from the given names is the last of the middle names |
| Coercions.FullNameOnly | aamvaparser/src/main/java/net/prxnxt/aamvaparser/parser/AAMVAParser.kt:192-218 | from a full name alone, the first name and the last name are the same last comma part, which is also the last middle name |
| Coercions.FirstNameOfTwoParts | aamvaparser/src/main/java/net/prxnxt/aamvaparser/parser/AAMVAParser.kt:192-207 | given names "a,b" give the first name b and the middle names a and b, trimmed |
| Coercions.InchesHeight | aamvaparser/src/main/java/net/prxnxt/aamvaparser/parser/AAMVAParser.kt:254-261 | a height exists exactly when the first space-separated token parses as a number; it is that number, or its conversion from centimetres when the raw value contains "cm" |
| Coercions.HeightWithSpacedUnit | aamvaparser/src/main/java/net/prxnxt/aamvaparser/parser/AAMVAParser.kt:256-260 | "173 cm" is converted from 173 centimetres |
| Coercions.HeightWithJoinedUnit | aamvaparser/src/main/java/net/prxnxt/aamvaparser/parser/AAMVAParser.kt:256-258 | "173cm" gives no height when the number parser rejects the letter m |
| Coercions.TruncatingDiv | aamvaparser/src/main/java/net/prxnxt/aamvaparser/parser/VersionOneParser.kt:56 | Kotlin's Int division rounds toward zero for both signs |
| Coercions.TotalInches | aamvaparser/src/main/java/net/prxnxt/aamvaparser/parser/VersionOneParser.kt:56-58 | feet are the height number divided by 100 with truncation and inches the rest; its properties are stated by `Coercions.TotalInchesOfFeetAndInches`, `Coercions.TotalInchesBelowOneHundred` and `Coercions.TotalInchesOfNegative` |
| Coercions.TotalInchesOfFeetAndInches | aamvaparser/src/main/java/net/prxnxt/aamvaparser/parser/VersionOneParser.kt:55-59 | a raw height fffii of feet and inches below 100 is feet × 12 + inches |
| Coercions.TotalInchesBelowOneHundred | aamvaparser/src/main/java/net/prxnxt/aamvaparser/parser/VersionOneParser.kt:55-59 | a raw height below 100 is taken as inches unchanged |
| Coercions.TotalInchesOfNegative | aamvaparser/src/main/java/net/prxnxt/aamvaparser/parser/VersionOneParser.kt:55-59 | a negative raw height gives the negated total, because the division truncates |
| Coercions.FeetInchesHeight | aamvaparser/src/main/java/net/prxnxt/aamvaparser/parser/VersionOneParser.kt:47-60 | a parseable centimetre value wins, converted to inches; otherwise a height exists exactly when the raw inches parse as an Int, and it is their feet-and-inches total |
| Coercions.FeetInchesHeightNeedsInteger | aamvaparser/src/main/java/net/prxnxt/aamvaparser/parser/VersionOneParser.kt:55 | "070 in" gives no height, because `toIntOrNull` rejects it |
| Coercions.ParseWeight | aamvaparser/src/main/java/net/prxnxt/aamvaparser/parser/AAMVAParser.kt:266-278 | a weight holds either pounds or a range, never both; it is null exactly when pounds, kilograms and range all fail to parse; otherwise it is the pounds read, else the kilograms converted to pounds, else the weight range of the integer read |
| Coercions.WeightPriority | aamvaparser/src/main/java/net/prxnxt/aamvaparser/parser/AAMVAParser.kt:266-278 | pounds come first, then kilograms converted to pounds, then the range |
| Coercions.WeightRangeOnly | aamvaparser/src/main/java/net/prxnxt/aamvaparser/parser/AAMVAParser.kt:274-276 | with neither pounds nor kilograms, a weight is a range with no pounds |
| Coercions.FormatPostalCode | aamvaparser/src/main/java/net/prxnxt/aamvaparser/parser/AAMVAParser.kt:283-291 | no code gives no postal code; it fails exactly when the code is shorter than five characters; a result starts with the first five characters |
| Coercions.PostalCodeKeepsCharacters | aamvaparser/src/main/java/net/prxnxt/aamvaparser/parser/AAMVAParser.kt:283-291 | formatting only drops a "0000" tail or inserts one hyphen after the fifth character |
| Coercions.PostalCodeExamples | aamvaparser/src/main/java/net/prxnxt/aamvaparser/parser/AAMVAParser.kt:280-291 | "123456789" becomes "12345-6789", "123450000" becomes "12345", "12345" becomes "12345-", and "1234" fails |
| IdCards.IdCard.IsExpired | aamvaparser/src/main/java/net/prxnxt/aamvaparser/models/IdCard.kt:69-72 | false without an expiration date, otherwise whether now is past it; `IdCards.ExpiredStaysExpired` and `IdCards.MissingDatesNeverHold` state its properties |
| IdCards.IdCard.IsIssued | aamvaparser/src/main/java/net/prxnxt/aamvaparser/models/IdCard.kt:77-80 | false without an issue date, otherwise whether now is past it; `IdCards.IssuedStaysIssued` and `IdCards.MissingDatesNeverHold` state its properties |
| IdCards.IdCard.IsAcceptable | aamvaparser/src/main/java/net/prxnxt/aamvaparser/models/IdCard.kt:85 | whether the licence number was read; `VersionProperties.AcceptableWhenLicenceNumberRead` states it for a decoded card |
| IdCards.IdCard.IsJuvenile | aamvaparser/src/main/java/net/prxnxt/aamvaparser/models/IdCard.kt:90-103 | the corrected rule: under 18 until the 18th birthday, as `IdCards.JuvenileUntilEighteenth` and `IdCards.JuvenileEnds` state |
| IdCards.IdCard.IsJuvenileAsWritten | aamvaparser/src/main/java/net/prxnxt/aamvaparser/models/IdCard.kt:90-103 | the rule as written, comparing days of the year; `IdCards.AgeAsWrittenLagsOnBirthday` shows it still counts 17 on the 18th birthday |
| IdCards.ExpiredStaysExpired | aamvaparser/src/main/java/net/prxnxt/aamvaparser/models/IdCard.kt:69-72 | once a card is expired it stays expired at every later instant |
| IdCards.IssuedStaysIssued | aamvaparser/src/main/java/net/prxnxt/aamvaparser/models/IdCard.kt:77-80 | once a card is issued it stays issued at every later instant |
| IdCards.MissingDatesNeverHold | aamvaparser/src/main/java/net/prxnxt/aamvaparser/models/IdCard.kt:69-80 | with no expiration date a card is never expired; with no issue date it is never issued |
| IdCards.Age | aamvaparser/src/main/java/net/prxnxt/aamvaparser/models/IdCard.kt:90-103 | the age is at least n exactly when the n-th birthday is not after today |
| IdCards.AgeGrows | aamvaparser/src/main/java/net/prxnxt/aamvaparser/models/IdCard.kt:90-103 | the age never decreases as time passes |
| IdCards.JuvenileUntilEighteenth | aamvaparser/src/main/java/net/prxnxt/aamvaparser/models/IdCard.kt:90-103 | a holder is juvenile exactly when a birth date is known and the 18th birthday is still ahead |
| IdCards.JuvenileEnds | aamvaparser/src/main/java/net/prxnxt/aamvaparser/models/IdCard.kt:90-103 | once a holder is not juvenile, they never become juvenile again |
| IdCards.AgeAsWritten | aamvaparser/src/main/java/net/prxnxt/aamvaparser/models/IdCard.kt:97-101 | the source's age is the year difference or one less |
| IdCards.AgeAsWrittenInYearsOfOneKind | aamvaparser/src/main/java/net/prxnxt/aamvaparser/models/IdCard.kt:97-101 | when the birth year and the current year are both leap years or both common years, the day-of-year rule gives the true age |
| IdCards.AgeAsWrittenLagsOnBirthday | aamvaparser/src/main/java/net/prxnxt/aamvaparser/models/IdCard.kt:97-101 | someone born on 2008-03-01 is 17 by the day-of-year rule on 2026-03-01, their 18th birthday |
| Calendar.DayOfYearOrder | aamvaparser/src/main/java/net/prxnxt/aamvaparser/models/IdCard.kt:99 | in two years of the same kind, an earlier day of the year means an earlier month and day |
| Calendar.DayOfYearRange | aamvaparser/src/main/java/net/prxnxt/aamvaparser/models/IdCard.kt:99 | `DAY_OF_YEAR` of a valid date lies between 1 and the length of its year |
| VersionProperties.UnreadElementsEmpty | aamvaparser/src/main/java/net/prxnxt/aamvaparser/parser/AAMVAParser.kt:120-154 | every card field read by `parseString`, `parseTruncation`, `parseBoolean` or the country lookup is null when its element is not read |
| VersionProperties.UnreadJurisdictionEmpty | aamvaparser/src/main/java/net/prxnxt/aamvaparser/parser/AAMVAParser.kt:158-163 | the six jurisdiction fields are null when their elements are not read |
| VersionProperties.UnreadWeightIsRange | aamvaparser/src/main/java/net/prxnxt/aamvaparser/parser/AAMVAParser.kt:266-278 | with neither pounds nor kilograms read, a card's weight can only be a range |
| VersionProperties.NamesRead | aamvaparser/src/main/java/net/prxnxt/aamvaparser/parser/AAMVAParser.kt:117-119 | the card's first, middle and last names are the name rules applied to the elements read |
| VersionProperties.DatesFollowLayout | aamvaparser/src/main/java/net/prxnxt/aamvaparser/parser/AAMVAParser.kt:181-185 | the birth, expiration and issue dates are the formatter's reading in the card's format, null for an absent or empty value; unread hazmat and revision dates are null |
| VersionProperties.FlagsRead | aamvaparser/src/main/java/net/prxnxt/aamvaparser/parser/AAMVAParser.kt:151-153 | each of the three flags is true exactly when its raw value is "1" |
| VersionProperties.AcceptableWhenLicenceNumberRead | aamvaparser/src/main/java/net/prxnxt/aamvaparser/models/IdCard.kt:85 | a card is acceptable exactly when the licence number is read |
| VersionProperties.ReaderOmits | aamvaparser/src/main/java/net/prxnxt/aamvaparser/parser/AAMVAParser.kt:169-173 | a parser reads nothing for elements its table lacks |
| VersionProperties.VersionOneReaderOmits | aamvaparser/src/main/java/net/prxnxt/aamvaparser/parser/VersionOneParser.kt:12-42 | the version 1 parser reads none of the 21 elements it lacks |
| VersionProperties.VersionTwoReaderOmits | aamvaparser/src/main/java/net/prxnxt/aamvaparser/parser/VersionTwoParser.kt:11-27 | the version 2 parser reads none of the 19 elements it lacks |
| VersionProperties.VersionThreeReaderOmits | aamvaparser/src/main/java/net/prxnxt/aamvaparser/parser/VersionThreeParser.kt:11-24 | the version 3 parser reads none of the 17 elements it lacks |
| VersionProperties.VersionFiveReaderOmits | aamvaparser/src/main/java/net/prxnxt/aamvaparser/parser/VersionFiveParser.kt:11-15 | the version 5 parser reads none of the 8 elements it lacks |
| VersionProperties.VersionSixReaderOmits | aamvaparser/src/main/java/net/prxnxt/aamvaparser/parser/VersionSixParser.kt:11-14 | the version 6 parser reads none of the 7 elements it lacks |
| VersionProperties.VersionSevenReaderOmits | aamvaparser/src/main/java/net/prxnxt/aamvaparser/parser/VersionSevenParser.kt:11-13 | the parsers for versions 7 to 9 read none of the 6 elements they lack |
| VersionProperties.NothingReadAssembles | aamvaparser/src/main/java/net/prxnxt/aamvaparser/parser/AAMVAParser.kt:113-167 | when no element is read, parsing yields a card for every version, so the per-version lemmas below apply to some reader |
| VersionProperties.OnlyVersionOneReadsSuffixAlias | aamvaparser/src/main/java/net/prxnxt/aamvaparser/parser/VersionOneParser.kt:26 | among the versions modelled, exactly version 1 reads the suffix alias |
| VersionProperties.OnlyVersionOneReadsCentimetres | aamvaparser/src/main/java/net/prxnxt/aamvaparser/parser/VersionOneParser.kt:28 | among the versions modelled, exactly version 1 reads a height in centimetres |
| VersionProperties.OnlyVersionOneReadsFeet | aamvaparser/src/main/java/net/prxnxt/aamvaparser/parser/VersionOneParser.kt:47-60 | exactly version 1, and version 4 if its profile says so, read heights as feet and inches |
| VersionProperties.VersionOneLeavesOut | aamvaparser/src/main/java/net/prxnxt/aamvaparser/parser/VersionOneParser.kt:12-42 | a version 1 card leaves empty the 19 fields whose elements the initialiser removes |
| VersionProperties.VersionOneDates | aamvaparser/src/main/java/net/prxnxt/aamvaparser/parser/VersionOneParser.kt:17-45 | with no country, version 1 reads dates year first, and only the expiration, issue and birth dates can be rejected |
| VersionProperties.VersionTwoReadsMonthFirst | aamvaparser/src/main/java/net/prxnxt/aamvaparser/parser/VersionTwoParser.kt:30 | version 2 reads every date month first, whatever the country |
| VersionProperties.VersionTwoLeavesOut | aamvaparser/src/main/java/net/prxnxt/aamvaparser/parser/VersionTwoParser.kt:11-27 | a version 2 card leaves the truncations, aliases, compliance type, revision and hazmat dates and flags empty, and its weight can only be a range |
| VersionProperties.GivenNamesOnly | aamvaparser/src/main/java/net/prxnxt/aamvaparser/parser/AAMVAParser.kt:192-207 | from the given names alone, the middle names are their parts and the first name is the last of them |
| VersionProperties.NamesFromGivenNames | aamvaparser/src/main/java/net/prxnxt/aamvaparser/parser/AAMVAParser.kt:192-218 | without first name, middle name and full name, the last name is the family name read; with no given names the first name is null and there are no middle names; otherwise the names come from the given names |
| VersionProperties.VersionTwoNames | aamvaparser/src/main/java/net/prxnxt/aamvaparser/parser/VersionTwoParser.kt:11-27 | a version 2 card takes its last name from the family name, and has no first or middle names without given names |
| VersionProperties.VersionTwoFirstName | aamvaparser/src/main/java/net/prxnxt/aamvaparser/parser/VersionTwoParser.kt:11-27 | with given names, a version 2 card's first name is its last middle name |
| VersionProperties.VersionThreeLeavesOut | aamvaparser/src/main/java/net/prxnxt/aamvaparser/parser/VersionThreeParser.kt:11-24 | a version 3 card leaves the truncations, compliance type, revision and hazmat dates and flags empty, and its weight can only be a range |
| VersionProperties.VersionFiveLeavesOut | aamvaparser/src/main/java/net/prxnxt/aamvaparser/parser/VersionFiveParser.kt:11-15 | a version 5 card has no organ-donor or veteran flag and no federal vehicle code, and its first and last names are the name elements read |
| VersionProperties.VersionSixFlags | aamvaparser/src/main/java/net/prxnxt/aamvaparser/parser/VersionSixParser.kt:11-14 | a version 6 card has no veteran flag and no federal vehicle code, and reads the organ-donor flag |
| VersionProperties.VersionSevenNames | aamvaparser/src/main/java/net/prxnxt/aamvaparser/parser/VersionSevenParser.kt:11-13 | a card of versions 7 to 9 has no federal vehicle code, and its names are exactly the first, middle and family name elements read |

## Left out

- VersionFourParser.kt is not part of this model. The version 4 parser is a
  `Profile` value that the caller supplies in the `Library`. The lemmas
  about version 4 hold for any such profile.
- NameSuffix.kt and WeightRange are not part of this model.
  `NameSuffix.of` is a function in the `Library`, and a weight range is
  kept as the `Int` it was built from.
- `SimpleDateFormat.parse` (lenient parsing, locale, time zone) is a
  function in the `Library`. The model decides when it is called, with
  which format and which raw value, and what a rejection does.
- `toDoubleOrNull`, `Utils.inchesFromCentimeters` and
  `Utils.poundsFromKilograms` work on floating point. They are functions in
  the `Library` over `real`.
- Text.DecimalDigit: the table of decimal digits is that of Unicode 7.0
  and later (Java 9 and later). Older Java runtimes do not count the Sinhala
  Lith and Myanmar Tai Laing digits.
- `subfileCount` (`AAMVAParser.kt:87`) is private and unused, and
  `parseDouble` (`AAMVAParser.kt:175-179`) is never called by `parse`, so
  neither is modelled.
- The clock (`Date()`, `Calendar.getInstance()`) becomes parameters: the
  instant `now`, the civil date `today`, and a function from an instant to
  its civil date in the local time zone. Calendars other than the
  proleptic Gregorian one are not modelled.
- Regular expressions follow Java's rules for an ASCII word character
  `[A-Za-z0-9_]` and Java's line terminators. A character is one Unicode
  scalar value, while a Kotlin string is a sequence of UTF-16 code units;
  strings with characters outside the Basic Multilingual Plane and Unicode
  word characters are not modelled.
- `IdCard`'s properties are `var`s, but nothing in the core changes a card
  after `parse` builds it, so the card is an immutable datatype.
- Extractor.ParseString: for an arbitrary input, its contract bounds the
  value (non-empty, one line, right after the identifier) rather than
  giving it outright. `Extractor.ParseStringOfLine` gives it exactly when the value
  ends its line and the identifier does not occur earlier.
- The per-version lemmas in `VersionProperties` are stated for any reader
  that reads nothing outside that version's table. The
  `VersionXReaderOmits` lemmas show that the real reader of each version is
  such a reader. `VersionTwoFirstName` is stated on the record the parse
  assembles, which is the card `Assemble` returns on success.

## Findings

| source | as written | input that shows it | evidently intended | confidence | as-written member | corrected member |
|---|---|---|---|---|---|---|
| aamvaparser/src/main/java/net/prxnxt/aamvaparser/models/IdCard.kt:97-102 | the age is the year difference, less one when today's `DAY_OF_YEAR` is smaller than the birth date's; a leap day shifts the day numbers of March to December by one between leap and common years | born 2008-03-01 (day 61 of a leap year), today 2026-03-01 (day 60 of a common year): age 17, so `isJuvenile` is true on the 18th birthday | under 18 until the 18th birthday, comparing month and day | not executed | IdCards.AgeAsWrittenLagsOnBirthday | IdCards.JuvenileUntilEighteenth |
