/** Decoding a barcode text into a licence record. A version's parser is
    described by its profile: its field table, its two date layouts and its
    height rule. Library code the decoder calls but does not define is passed
    in as a `Library` of functions. */
module Decoding {
  import opened Wrappers
  import Text
  import opened Extractor
  import opened VersionDetector
  import opened FieldTables
  import opened Coercions
  import opened IdCards
  import E = Elements
  import Truncations
  import Genders
  import EyeColors
  import HairColors
  import IssuingCountries

  /** How a version reads the height. */
  datatype HeightRule =
    | InchesOrCentimetres      // the base rule: a number, in centimetres when "cm" appears
    | FeetInchesOrCentimetres  // version 1: a centimetre field, else feet and inches

  /** What a version parser changes: its table, its date layouts for United
      States and Canadian licences, and its height rule. */
  datatype Profile = Profile(fields: map<E.Element, string>, unitedStatesFormat: DateFormat,
                             canadaFormat: DateFormat, heightRule: HeightRule)

  /** The library behaviour the decoder depends on: `SimpleDateFormat.parse`,
      `toDoubleOrNull`, the unit conversions, `NameSuffix.of`, and the profile
      of the version 4 parser. */
  datatype Library = Library(
    parseDate: (DateFormat, string) -> Option<Date>,
    toDouble: string -> Option<real>,
    inchesFromCentimeters: real -> real,
    poundsFromKilograms: real -> real,
    nameSuffixOf: string -> Option<NameSuffix>,
    versionFour: Profile)

  function BaseProfile(): Profile {
    Profile(BaseTable(), MonthDayYear, YearMonthDay, InchesOrCentimetres)
  }

  /** Version 1 reads every date as year, month, day and heights in feet and
      inches. */
  function VersionOneProfile(): Profile {
    Profile(VersionOneTable(), YearMonthDay, YearMonthDay, FeetInchesOrCentimetres)
  }

  /** Version 2 reads Canadian dates as month, day, year too. */
  function VersionTwoProfile(): Profile {
    Profile(VersionTwoTable(), MonthDayYear, MonthDayYear, InchesOrCentimetres)
  }

  function VersionThreeProfile(): Profile {
    Profile(VersionThreeTable(), MonthDayYear, YearMonthDay, InchesOrCentimetres)
  }

  function VersionFiveProfile(): Profile {
    Profile(VersionFiveTable(), MonthDayYear, YearMonthDay, InchesOrCentimetres)
  }

  function VersionSixProfile(): Profile {
    Profile(VersionSixTable(), MonthDayYear, YearMonthDay, InchesOrCentimetres)
  }

  /** Versions 7, 8 and 9 share one profile. */
  function VersionSevenProfile(): Profile {
    Profile(VersionSevenTable(), MonthDayYear, YearMonthDay, InchesOrCentimetres)
  }

  /** `versionParser`: versions 1 to 9 select their own parser, anything else
      (no version, 0, 10 to 99) the base parser. */
  function ProfileFor(version: Option<int>, versionFour: Profile): (p: Profile)
    ensures !(version.Some? && 1 <= version.value <= 9) ==> p == BaseProfile()
    ensures version == Some(4) ==> p == versionFour
    ensures version.Some? && 7 <= version.value <= 9 ==> p == VersionSevenProfile()
  {
    match version
    case Some(1) => VersionOneProfile()
    case Some(2) => VersionTwoProfile()
    case Some(3) => VersionThreeProfile()
    case Some(4) => versionFour
    case Some(5) => VersionFiveProfile()
    case Some(6) => VersionSixProfile()
    case Some(7) => VersionSevenProfile()
    case Some(8) => VersionSevenProfile()
    case Some(9) => VersionSevenProfile()
    case _ => BaseProfile()
  }

  /** `parseString` under the profile's table. */
  function Raw(p: Profile, data: string, e: E.Element): (r: Option<string>)
    ensures e !in p.fields ==> r.None?
  {
    ParseString(p.fields, data, e)
  }

  /** What the parser reads for each element of the barcode text: nothing for
      an element without a code, and otherwise a non-empty value on one line
      that stands right after the element's code somewhere in the text. */
  function Reader(p: Profile, data: string): (read: E.Element -> Option<string>)
    ensures forall e :: read(e) == Raw(p, data, e)
    ensures forall e :: e !in p.fields ==> read(e).None?
    ensures forall e :: read(e).Some? ==>
              e in p.fields && |read(e).value| > 0 && Text.Contains(data, p.fields[e] + read(e).value)
  {
    e => Raw(p, data, e)
  }

  /** `parsedCountry`: a country only when the country element is read and
      its code is known. */
  function CountryOf(read: E.Element -> Option<string>): (c: Option<IssuingCountries.IssuingCountry>)
    ensures c.Some? <==> read(E.Country).Some? && IssuingCountries.Of(read(E.Country).value).Some?
    ensures c.Some? ==> c == IssuingCountries.Of(read(E.Country).value)
  {
    OfRaw(read(E.Country), IssuingCountries.Of)
  }

  /** `dateFormat`: the Canadian layout for a Canadian licence, the United
      States layout otherwise, also when the country is absent or unknown. */
  function DateFormatOf(p: Profile, read: E.Element -> Option<string>): (f: DateFormat)
    ensures CountryOf(read) == Some(IssuingCountries.Canada) ==> f == p.canadaFormat
    ensures CountryOf(read) != Some(IssuingCountries.Canada) ==> f == p.unitedStatesFormat
  {
    var country := CountryOf(read);
    if country == Some(IssuingCountries.UnitedStates) then p.unitedStatesFormat
    else if country == Some(IssuingCountries.Canada) then p.canadaFormat
    else p.unitedStatesFormat
  }

  /** `parsedHeight` under the profile's height rule: no height when neither
      height element is read, and under the version 1 rule a centimetre
      reading that is a number wins over the inch element. */
  function HeightOf(p: Profile, read: E.Element -> Option<string>, lib: Library): (h: Option<real>)
    ensures read(E.HeightInches).None? && read(E.HeightCentimeters).None? ==> h.None?
    ensures p.heightRule == FeetInchesOrCentimetres && read(E.HeightCentimeters).Some?
            && lib.toDouble(read(E.HeightCentimeters).value).Some? ==>
              h == Some(lib.inchesFromCentimeters(lib.toDouble(read(E.HeightCentimeters).value).value))
  {
    match p.heightRule
    case InchesOrCentimetres =>
      InchesHeight(read(E.HeightInches), lib.toDouble, lib.inchesFromCentimeters)
    case FeetInchesOrCentimetres =>
      FeetInchesHeight(read(E.HeightCentimeters), read(E.HeightInches),
                       lib.toDouble, lib.inchesFromCentimeters)
  }

  /** The formatter rejects the date element e. */
  predicate DateRejectedAt(p: Profile, read: E.Element -> Option<string>, lib: Library, e: E.Element) {
    var raw := read(e);
    raw.Some? && raw.value != "" && lib.parseDate(DateFormatOf(p, read), raw.value).None?
  }

  /** Some date element is rejected by the formatter. */
  predicate SomeDateRejected(p: Profile, read: E.Element -> Option<string>, lib: Library) {
    DateRejectedAt(p, read, lib, E.ExpirationDate) || DateRejectedAt(p, read, lib, E.IssueDate)
    || DateRejectedAt(p, read, lib, E.BirthDate) || DateRejectedAt(p, read, lib, E.HazmatExpirationDate)
    || DateRejectedAt(p, read, lib, E.RevisionDate)
  }

  /** The postal code is present but shorter than five characters. */
  predicate PostalCodeTooShortIn(read: E.Element -> Option<string>) {
    var raw := read(E.PostalCode);
    raw.Some? && |raw.value| < 5
  }

  /** The five dates of a record, in the order `parse` reads them. */
  datatype Dates = Dates(expiration: Option<Date>, issued: Option<Date>, birth: Option<Date>,
                         hazmat: Option<Date>, revision: Option<Date>)

  /** `parseDate` for the five date elements in turn: the first the formatter
      rejects makes the reading fail. */
  function ReadDates(p: Profile, read: E.Element -> Option<string>, lib: Library): (r: Result<Dates, DecodeError>)
    ensures r.Failure? <==> SomeDateRejected(p, read, lib)
    ensures r.Failure? ==> r.error.DateRejected?
    ensures r.Failure? ==>
              DateRejectedAt(p, read, lib, r.error.element)
              && r.error.raw == read(r.error.element).value
              && r.error.format == DateFormatOf(p, read)
    ensures DateRejectedAt(p, read, lib, E.ExpirationDate) ==>
              r.Failure? && r.error.element == E.ExpirationDate
    ensures !DateRejectedAt(p, read, lib, E.ExpirationDate) && DateRejectedAt(p, read, lib, E.IssueDate) ==>
              r.Failure? && r.error.element == E.IssueDate
    ensures !DateRejectedAt(p, read, lib, E.ExpirationDate) && !DateRejectedAt(p, read, lib, E.IssueDate)
            && DateRejectedAt(p, read, lib, E.BirthDate) ==>
              r.Failure? && r.error.element == E.BirthDate
    ensures !DateRejectedAt(p, read, lib, E.ExpirationDate) && !DateRejectedAt(p, read, lib, E.IssueDate)
            && !DateRejectedAt(p, read, lib, E.BirthDate) && DateRejectedAt(p, read, lib, E.HazmatExpirationDate) ==>
              r.Failure? && r.error.element == E.HazmatExpirationDate
    ensures !DateRejectedAt(p, read, lib, E.ExpirationDate) && !DateRejectedAt(p, read, lib, E.IssueDate)
            && !DateRejectedAt(p, read, lib, E.BirthDate) && !DateRejectedAt(p, read, lib, E.HazmatExpirationDate)
            && DateRejectedAt(p, read, lib, E.RevisionDate) ==>
              r.Failure? && r.error.element == E.RevisionDate
  {
    var format := DateFormatOf(p, read);
    var expiration :- ParseDate(E.ExpirationDate, read(E.ExpirationDate), format, lib.parseDate);
    var issued :- ParseDate(E.IssueDate, read(E.IssueDate), format, lib.parseDate);
    var birth :- ParseDate(E.BirthDate, read(E.BirthDate), format, lib.parseDate);
    var hazmat :- ParseDate(E.HazmatExpirationDate, read(E.HazmatExpirationDate), format, lib.parseDate);
    var revision :- ParseDate(E.RevisionDate, read(E.RevisionDate), format, lib.parseDate);
    Success(Dates(expiration, issued, birth, hazmat, revision))
  }

  /** The record `parse` builds, field by field in the order of its
      declaration, once the dates and the postal code have been read. */
  function Record(p: Profile, read: E.Element -> Option<string>, dates: Dates, postalCode: Option<string>,
                  data: string, version: Option<int>, lib: Library): (card: IdCard)
    ensures card.version == version && card.pdf417Data == Some(data)
  {
    IdCard(
      ParsedFirstName(read(E.FirstName), read(E.GivenName), read(E.DriverLicenseName)),
      ParsedMiddleNames(read(E.MiddleName), read(E.GivenName), read(E.DriverLicenseName)),
      ParsedLastName(read(E.LastName), read(E.DriverLicenseName)),
      read(E.FirstNameAlias),
      read(E.GivenNameAlias),
      read(E.LastNameAlias),
      read(E.SuffixAlias),
      OfRaw(read(E.Suffix), lib.nameSuffixOf),
      OfRaw(read(E.FirstNameTruncation), Truncations.Of),
      OfRaw(read(E.MiddleNameTruncation), Truncations.Of),
      OfRaw(read(E.LastNameTruncation), Truncations.Of),
      dates.expiration,
      dates.issued,
      dates.birth,
      dates.hazmat,
      dates.revision,
      read(E.Race),
      OfRaw(read(E.Gender), Genders.Of),
      OfRaw(read(E.EyeColor), EyeColors.Of),
      HeightOf(p, read, lib),
      ParseWeight(read(E.WeightPounds), read(E.WeightKilograms), read(E.WeightRange),
                  lib.toDouble, lib.poundsFromKilograms),
      OfRaw(read(E.HairColor), HairColors.Of),
      read(E.PlaceOfBirth),
      read(E.StreetAddress),
      read(E.StreetAddressTwo),
      read(E.City),
      read(E.State),
      postalCode,
      CountryOf(read),
      read(E.DriverLicenseNumber),
      read(E.UniqueDocumentId),
      read(E.AuditInformation),
      read(E.InventoryControlNumber),
      read(E.ComplianceType),
      ParseBoolean(read(E.IsOrganDonor)),
      ParseBoolean(read(E.IsVeteran)),
      ParseBoolean(read(E.IsTemporaryDocument)),
      read(E.FederalVehicleCode),
      read(E.StandardVehicleCode),
      read(E.StandardRestrictionCode),
      read(E.StandardEndorsementCode),
      read(E.JurisdictionVehicleClass),
      read(E.JurisdictionRestrictionCode),
      read(E.JurisdictionEndorsementCode),
      read(E.JurisdictionVehicleClassDescription),
      read(E.JurisdictionRestrictionCodeDescription),
      read(E.JurisdictionEndorsementCodeDescription),
      version,
      Some(data))
  }

  /** The body of `parse` for one parser, given what it reads for each
      element. The first date the formatter rejects, or else a postal code
      too short to split, makes it fail. */
  function Assemble(p: Profile, read: E.Element -> Option<string>, data: string, version: Option<int>,
                    lib: Library): (r: Result<IdCard, DecodeError>)
    ensures r.Failure? <==> SomeDateRejected(p, read, lib) || PostalCodeTooShortIn(read)
    ensures r.Failure? && r.error.DateRejected? ==>
              DateRejectedAt(p, read, lib, r.error.element)
              && r.error.raw == read(r.error.element).value
              && r.error.format == DateFormatOf(p, read)
    ensures r.Failure? && r.error.PostalCodeTooShort? ==>
              !SomeDateRejected(p, read, lib) && read(E.PostalCode) == Some(r.error.raw)
    ensures r.Success? ==>
              ReadDates(p, read, lib).Success? && FormatPostalCode(read(E.PostalCode)).Success?
              && r.value == Record(p, read, ReadDates(p, read, lib).value,
                                   FormatPostalCode(read(E.PostalCode)).value, data, version, lib)
  {
    var dates :- ReadDates(p, read, lib);
    var postalCode :- FormatPostalCode(read(E.PostalCode));
    Success(Record(p, read, dates, postalCode, data, version, lib))
  }

  /** `parse` with a given parser. */
  function DecodeWith(p: Profile, data: string, version: Option<int>, lib: Library): (r: Result<IdCard, DecodeError>)
    ensures r.Success? ==> r.value.version == version && r.value.pdf417Data == Some(data)
  {
    Assemble(p, Reader(p, data), data, version, lib)
  }

  /** `parse`: detect the version, select its parser and decode with it. The
      record carries the detected version and the text unchanged. */
  function Decode(data: string, lib: Library): (r: Result<IdCard, DecodeError>)
    ensures r.Success? ==> r.value.version == VersionNumber(data) && r.value.pdf417Data == Some(data)
  {
    var version := VersionNumber(data);
    DecodeWith(ProfileFor(version, lib.versionFour), data, version, lib)
  }
}
