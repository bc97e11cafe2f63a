/** What the record decoded from a barcode holds under each version: the
    elements a version's table lacks come out empty, the date layout a version
    uses, and where the names come from. */
module VersionProperties {
  import opened Wrappers
  import opened VersionDetector
  import opened IdCards
  import E = Elements
  import FT = FieldTables
  import G = ElementGroups
  import C = Coercions
  import D = Decoding
  import IssuingCountries

  /** The reader reads nothing for the elements of s. */
  ghost predicate Unread(read: E.Element -> Option<string>, s: set<E.Element>) {
    forall e :: e in s ==> read(e).None?
  }

  /** Reading nothing for an element leaves its field of the record empty. */
  lemma UnreadElementsEmpty(p: D.Profile, read: E.Element -> Option<string>, dates: D.Dates,
      postalCode: Option<string>, data: string, version: Option<int>, lib: D.Library)
    ensures var card := D.Record(p, read, dates, postalCode, data, version, lib);
            && (read(E.Country).None? ==> card.country.None?)
            && (read(E.Race).None? ==> card.race.None?)
            && (read(E.PlaceOfBirth).None? ==> card.placeOfBirth.None?)
            && (read(E.AuditInformation).None? ==> card.auditInformation.None?)
            && (read(E.InventoryControlNumber).None? ==> card.inventoryControlNumber.None?)
            && (read(E.ComplianceType).None? ==> card.complianceType.None?)
            && (read(E.FirstNameTruncation).None? ==> card.firstNameTruncation.None?)
            && (read(E.MiddleNameTruncation).None? ==> card.middleNameTruncation.None?)
            && (read(E.LastNameTruncation).None? ==> card.lastNameTruncation.None?)
            && (read(E.FirstNameAlias).None? ==> card.firstNameAlias.None?)
            && (read(E.GivenNameAlias).None? ==> card.givenNameAlias.None?)
            && (read(E.LastNameAlias).None? ==> card.lastNameAlias.None?)
            && (read(E.SuffixAlias).None? ==> card.suffixAlias.None?)
            && (read(E.IsOrganDonor).None? ==> card.isOrganDonor.None?)
            && (read(E.IsVeteran).None? ==> card.isVeteran.None?)
            && (read(E.IsTemporaryDocument).None? ==> card.isTemporaryDocument.None?)
            && (read(E.FederalVehicleCode).None? ==> card.federalVehicleCode.None?)
  {
  }

  /** The jurisdiction codes and their descriptions are empty when unread. */
  lemma UnreadJurisdictionEmpty(p: D.Profile, read: E.Element -> Option<string>, dates: D.Dates,
      postalCode: Option<string>, data: string, version: Option<int>, lib: D.Library)
    ensures var card := D.Record(p, read, dates, postalCode, data, version, lib);
            && (read(E.JurisdictionVehicleClass).None? ==> card.jurisdictionVehicleCode.None?)
            && (read(E.JurisdictionRestrictionCode).None? ==> card.jurisdictionRestrictionCode.None?)
            && (read(E.JurisdictionEndorsementCode).None? ==> card.jurisdictionEndorsementCode.None?)
            && (read(E.JurisdictionVehicleClassDescription).None? ==> card.jurisdictionVehicleDescription.None?)
            && (read(E.JurisdictionRestrictionCodeDescription).None? ==> card.jurisdictionRestrictionDescription.None?)
            && (read(E.JurisdictionEndorsementCodeDescription).None? ==> card.jurisdictionEndorsementDescription.None?)
  {
  }

  /** Without pounds or kilograms the weight of the record is at most a range. */
  lemma UnreadWeightIsRange(p: D.Profile, read: E.Element -> Option<string>, dates: D.Dates,
      postalCode: Option<string>, data: string, version: Option<int>, lib: D.Library)
    requires read(E.WeightPounds).None? && read(E.WeightKilograms).None?
    ensures var card := D.Record(p, read, dates, postalCode, data, version, lib);
            card.weight.None? || (card.weight.value.pounds.None? && card.weight.value.range.Some?)
  {
    C.WeightRangeOnly(read(E.WeightRange), lib.toDouble, lib.poundsFromKilograms);
  }

  /** The names of the record come from the first, given and full name
      elements, as the name rules order them. */
  lemma NamesRead(p: D.Profile, read: E.Element -> Option<string>, dates: D.Dates,
      postalCode: Option<string>, data: string, version: Option<int>, lib: D.Library)
    ensures var card := D.Record(p, read, dates, postalCode, data, version, lib);
            && card.firstName == C.ParsedFirstName(read(E.FirstName), read(E.GivenName), read(E.DriverLicenseName))
            && card.middleNames == C.ParsedMiddleNames(read(E.MiddleName), read(E.GivenName), read(E.DriverLicenseName))
            && card.lastName == C.ParsedLastName(read(E.LastName), read(E.DriverLicenseName))
  {
  }

  /** The dates are those the formatter gives for the raw text in the
      record's date layout; an unread or empty element gives no date. */
  lemma DatesFollowLayout(p: D.Profile, read: E.Element -> Option<string>, lib: D.Library)
    requires D.ReadDates(p, read, lib).Success?
    ensures var dates := D.ReadDates(p, read, lib).value;
            var format := D.DateFormatOf(p, read);
            && (var raw := read(E.BirthDate);
                dates.birth == if raw.None? || raw == Some("") then None else lib.parseDate(format, raw.value))
            && (var raw := read(E.ExpirationDate);
                dates.expiration == if raw.None? || raw == Some("") then None else lib.parseDate(format, raw.value))
            && (var raw := read(E.IssueDate);
                dates.issued == if raw.None? || raw == Some("") then None else lib.parseDate(format, raw.value))
            && (read(E.HazmatExpirationDate).None? ==> dates.hazmat.None?)
            && (read(E.RevisionDate).None? ==> dates.revision.None?)
  {
  }

  /** A flag is true exactly when its element reads "1". */
  lemma FlagsRead(p: D.Profile, read: E.Element -> Option<string>, dates: D.Dates,
      postalCode: Option<string>, data: string, version: Option<int>, lib: D.Library)
    ensures var card := D.Record(p, read, dates, postalCode, data, version, lib);
            && (card.isOrganDonor == Some(true) <==> read(E.IsOrganDonor) == Some("1"))
            && (card.isVeteran == Some(true) <==> read(E.IsVeteran) == Some("1"))
            && (card.isTemporaryDocument == Some(true) <==> read(E.IsTemporaryDocument) == Some("1"))
  {
  }

  /** A record is acceptable exactly when the licence number was read. */
  lemma AcceptableWhenLicenceNumberRead(p: D.Profile, read: E.Element -> Option<string>, dates: D.Dates,
      postalCode: Option<string>, data: string, version: Option<int>, lib: D.Library)
    ensures D.Record(p, read, dates, postalCode, data, version, lib).IsAcceptable() <==> read(E.DriverLicenseNumber).Some?
  {
  }

  /** The real reader of a profile reads nothing that the profile's table
      leaves out. */
  lemma ReaderOmits(p: D.Profile, data: string, s: set<E.Element>)
    requires forall e :: e in s ==> e !in p.fields
    ensures Unread(D.Reader(p, data), s)
  {
  }

  /** The version 1 reader reads none of the elements version 1 does not carry. */
  lemma VersionOneReaderOmits(data: string)
    ensures Unread(D.Reader(D.VersionOneProfile(), data), G.VersionOneMissing())
  {
    FT.VersionOneTableKeys();
    ReaderOmits(D.VersionOneProfile(), data, G.VersionOneMissing());
  }

  /** The version 2 reader reads none of the elements version 2 does not carry. */
  lemma VersionTwoReaderOmits(data: string)
    ensures Unread(D.Reader(D.VersionTwoProfile(), data), G.VersionTwoMissing())
  {
    FT.VersionTwoTableKeys();
    ReaderOmits(D.VersionTwoProfile(), data, G.VersionTwoMissing());
  }

  /** The version 3 reader reads none of the elements version 3 does not carry. */
  lemma VersionThreeReaderOmits(data: string)
    ensures Unread(D.Reader(D.VersionThreeProfile(), data), G.VersionThreeMissing())
  {
    FT.VersionThreeTableKeys();
    ReaderOmits(D.VersionThreeProfile(), data, G.VersionThreeMissing());
  }

  /** The version 5 reader reads none of the elements version 5 does not carry. */
  lemma VersionFiveReaderOmits(data: string)
    ensures Unread(D.Reader(D.VersionFiveProfile(), data), G.VersionFiveMissing())
  {
    FT.VersionFiveTableKeys();
    ReaderOmits(D.VersionFiveProfile(), data, G.VersionFiveMissing());
  }

  /** The version 6 reader reads none of the elements version 6 does not carry. */
  lemma VersionSixReaderOmits(data: string)
    ensures Unread(D.Reader(D.VersionSixProfile(), data), G.VersionSixMissing())
  {
    FT.VersionSixTableKeys();
    ReaderOmits(D.VersionSixProfile(), data, G.VersionSixMissing());
  }

  /** The version 7 to 9 reader reads none of the elements version 7 to 9 does not carry. */
  lemma VersionSevenReaderOmits(data: string)
    ensures Unread(D.Reader(D.VersionSevenProfile(), data), G.VersionSevenMissing())
  {
    FT.VersionSevenTableKeys();
    ReaderOmits(D.VersionSevenProfile(), data, G.VersionSevenMissing());
  }

  /** A reader that reads nothing leaves every element unread and always
      yields a card: the preconditions of the per-version lemmas below can
      be met by every version. */
  lemma NothingReadAssembles(p: D.Profile, data: string, version: Option<int>, lib: D.Library,
                             s: set<E.Element>)
    ensures Unread(e => None, s)
    ensures D.Assemble(p, e => None, data, version, lib).Success?
  {
  }

  /** Only version 1 reads the suffix alias (when the version 4 table lacks it too). */
  lemma OnlyVersionOneReadsSuffixAlias(version: Option<int>, versionFour: D.Profile)
    requires E.SuffixAlias !in versionFour.fields
    ensures E.SuffixAlias in D.ProfileFor(version, versionFour).fields <==> version == Some(1)
  {
    if version == Some(1) {
      assert FT.VersionOneCode(E.SuffixAlias).Some?;
    } else if version == Some(2) {
      assert FT.VersionTwoCode(E.SuffixAlias).None?;
    } else if version == Some(3) {
      assert FT.VersionThreeCode(E.SuffixAlias).None?;
    } else if version == Some(5) {
      assert FT.VersionFiveCode(E.SuffixAlias).None?;
    } else if version == Some(6) {
      assert FT.VersionSixCode(E.SuffixAlias).None?;
    } else if version.Some? && 7 <= version.value <= 9 {
      assert FT.VersionSevenCode(E.SuffixAlias).None?;
    } else if version != Some(4) {
      assert FT.BaseCode(E.SuffixAlias).None?;
    }
  }

  /** Only version 1 reads the height in centimetres (when the version 4 table lacks it too). */
  lemma OnlyVersionOneReadsCentimetres(version: Option<int>, versionFour: D.Profile)
    requires E.HeightCentimeters !in versionFour.fields
    ensures E.HeightCentimeters in D.ProfileFor(version, versionFour).fields <==> version == Some(1)
  {
    if version == Some(1) {
      assert FT.VersionOneCode(E.HeightCentimeters).Some?;
    } else if version == Some(2) {
      assert FT.VersionTwoCode(E.HeightCentimeters).None?;
    } else if version == Some(3) {
      assert FT.VersionThreeCode(E.HeightCentimeters).None?;
    } else if version == Some(5) {
      assert FT.VersionFiveCode(E.HeightCentimeters).None?;
    } else if version == Some(6) {
      assert FT.VersionSixCode(E.HeightCentimeters).None?;
    } else if version.Some? && 7 <= version.value <= 9 {
      assert FT.VersionSevenCode(E.HeightCentimeters).None?;
    } else if version != Some(4) {
      assert FT.BaseCode(E.HeightCentimeters).None?;
    }
  }

  /** Only version 1 (and a version 4 parser that says so) reads heights as
      feet and inches. */
  lemma OnlyVersionOneReadsFeet(version: Option<int>, versionFour: D.Profile)
    ensures var rule := D.ProfileFor(version, versionFour).heightRule;
            (rule == D.FeetInchesOrCentimetres)
              <==> (version == Some(1) || (version == Some(4) && versionFour.heightRule == D.FeetInchesOrCentimetres))
  {
  }

  /** A version 1 record lacks the elements the version 1 table lacks. */
  lemma VersionOneLeavesOut(read: E.Element -> Option<string>, data: string, lib: D.Library)
    requires Unread(read, G.VersionOneMissing())
    requires D.Assemble(D.VersionOneProfile(), read, data, Some(1), lib).Success?
    ensures var card := D.Assemble(D.VersionOneProfile(), read, data, Some(1), lib).value;
            && card.country.None? && card.race.None? && card.placeOfBirth.None?
            && card.auditInformation.None? && card.inventoryControlNumber.None? && card.complianceType.None?
            && card.firstNameTruncation.None? && card.middleNameTruncation.None? && card.lastNameTruncation.None?
            && card.revisionDate.None? && card.hazmatExpirationDate.None?
            && card.isTemporaryDocument.None? && card.isVeteran.None?
            && card.jurisdictionVehicleCode.None? && card.jurisdictionRestrictionCode.None?
            && card.jurisdictionEndorsementCode.None? && card.jurisdictionVehicleDescription.None?
            && card.jurisdictionRestrictionDescription.None? && card.jurisdictionEndorsementDescription.None?
  {
    var p := D.VersionOneProfile();
    var dates := D.ReadDates(p, read, lib).value;
    var postalCode := C.FormatPostalCode(read(E.PostalCode)).value;
    UnreadElementsEmpty(p, read, dates, postalCode, data, Some(1), lib);
    UnreadJurisdictionEmpty(p, read, dates, postalCode, data, Some(1), lib);
    DatesFollowLayout(p, read, lib);
  }

  /** Version 1 does not read the country, so it reads every date year first,
      and it never rejects a revision or hazmat date, which it does not read. */
  lemma VersionOneDates(read: E.Element -> Option<string>, data: string, lib: D.Library)
    requires Unread(read, G.VersionOneMissing())
    ensures D.CountryOf(read).None? && D.DateFormatOf(D.VersionOneProfile(), read) == C.YearMonthDay
    ensures var r := D.Assemble(D.VersionOneProfile(), read, data, Some(1), lib);
            r.Failure? && r.error.DateRejected? ==>
              r.error.element in {E.ExpirationDate, E.IssueDate, E.BirthDate}
  {
    assert E.Country in G.VersionOneMissing();
    assert E.RevisionDate in G.VersionOneMissing() && E.HazmatExpirationDate in G.VersionOneMissing();
  }

  /** Version 2 reads every date month first, Canadian licences included. */
  lemma VersionTwoReadsMonthFirst(read: E.Element -> Option<string>)
    ensures D.DateFormatOf(D.VersionTwoProfile(), read) == C.MonthDayYear
  {
  }

  /** A version 2 record lacks the truncations, the aliases, the revision and
      hazmat dates and the flags, and its weight is at most a range. */
  lemma VersionTwoLeavesOut(read: E.Element -> Option<string>, data: string, lib: D.Library)
    requires Unread(read, G.VersionTwoMissing())
    requires D.Assemble(D.VersionTwoProfile(), read, data, Some(2), lib).Success?
    ensures var card := D.Assemble(D.VersionTwoProfile(), read, data, Some(2), lib).value;
            && card.firstNameTruncation.None? && card.middleNameTruncation.None? && card.lastNameTruncation.None?
            && card.firstNameAlias.None? && card.givenNameAlias.None? && card.lastNameAlias.None?
            && card.suffixAlias.None?
            && card.complianceType.None? && card.revisionDate.None? && card.hazmatExpirationDate.None?
            && card.isTemporaryDocument.None? && card.isOrganDonor.None? && card.isVeteran.None?
            && (card.weight.None? || (card.weight.value.pounds.None? && card.weight.value.range.Some?))
  {
    var p := D.VersionTwoProfile();
    var dates := D.ReadDates(p, read, lib).value;
    var postalCode := C.FormatPostalCode(read(E.PostalCode)).value;
    UnreadElementsEmpty(p, read, dates, postalCode, data, Some(2), lib);
    UnreadWeightIsRange(p, read, dates, postalCode, data, Some(2), lib);
    DatesFollowLayout(p, read, lib);
  }

  /** The name rules with only the given names to go on: the middle names
      are their trimmed comma parts and the first name is the last of them. */
  lemma GivenNamesOnly(given: string)
    ensures var middles := C.ParsedMiddleNames(None, Some(given), None);
            && middles == C.NameParts(given)
            && C.ParsedFirstName(None, Some(given), None) == Some(middles[|middles| - 1])
  {
    C.FirstNameIsLastMiddleName(given, None);
  }

  /** With neither a first, a middle nor a full name element read, the first
      and middle names come from the given names, the first name being the
      last of them. */
  lemma NamesFromGivenNames(p: D.Profile, read: E.Element -> Option<string>, dates: D.Dates,
      postalCode: Option<string>, data: string, version: Option<int>, lib: D.Library)
    requires read(E.FirstName).None? && read(E.MiddleName).None? && read(E.DriverLicenseName).None?
    ensures var card := D.Record(p, read, dates, postalCode, data, version, lib);
            var given := read(E.GivenName);
            && card.lastName == read(E.LastName)
            && (given.None? ==> card.firstName.None? && |card.middleNames| == 0)
            && (given.Some? ==> card.middleNames == C.NameParts(given.value)
                                && card.firstName == Some(card.middleNames[|card.middleNames| - 1]))
  {
    var card := D.Record(p, read, dates, postalCode, data, version, lib);
    NamesRead(p, read, dates, postalCode, data, version, lib);
    assert card.firstName == C.ParsedFirstName(None, read(E.GivenName), None);
    assert card.middleNames == C.ParsedMiddleNames(None, read(E.GivenName), None);
    if read(E.GivenName).Some? {
      GivenNamesOnly(read(E.GivenName).value);
    }
  }

  /** Version 2 takes the last name from its own element only, and has no
      first or middle names without given names. */
  lemma VersionTwoNames(read: E.Element -> Option<string>, data: string, lib: D.Library)
    requires Unread(read, G.VersionTwoMissing())
    requires D.Assemble(D.VersionTwoProfile(), read, data, Some(2), lib).Success?
    ensures var card := D.Assemble(D.VersionTwoProfile(), read, data, Some(2), lib).value;
            && card.lastName == read(E.LastName)
            && (read(E.GivenName).None? ==> card.firstName.None? && |card.middleNames| == 0)
  {
    var p := D.VersionTwoProfile();
    var dates := D.ReadDates(p, read, lib).value;
    var postalCode := C.FormatPostalCode(read(E.PostalCode)).value;
    assert read(E.FirstName).None? && read(E.MiddleName).None? && read(E.DriverLicenseName).None? by {
      assert E.FirstName in G.VersionTwoMissing() && E.MiddleName in G.VersionTwoMissing();
      assert E.DriverLicenseName in G.VersionTwoMissing();
    }
    NamesFromGivenNames(p, read, dates, postalCode, data, Some(2), lib);
  }

  /** Version 2 takes the first and middle names from the given names, the
      first name being the last of them. (A successful decoding is this
      record, by the contract of `Assemble`.) */
  lemma VersionTwoFirstName(read: E.Element -> Option<string>, dates: D.Dates, postalCode: Option<string>,
                            data: string, lib: D.Library)
    requires Unread(read, G.VersionTwoMissing())
    ensures var card := D.Record(D.VersionTwoProfile(), read, dates, postalCode, data, Some(2), lib);
            read(E.GivenName).Some? ==>
              |card.middleNames| > 0 && card.firstName == Some(card.middleNames[|card.middleNames| - 1])
  {
    assert E.FirstName in G.VersionTwoMissing() && E.MiddleName in G.VersionTwoMissing();
    assert E.DriverLicenseName in G.VersionTwoMissing();
    NamesFromGivenNames(D.VersionTwoProfile(), read, dates, postalCode, data, Some(2), lib);
  }

  /** A version 3 record lacks the truncations, the revision and hazmat dates
      and the flags, and its weight is at most a range. */
  lemma VersionThreeLeavesOut(read: E.Element -> Option<string>, data: string, lib: D.Library)
    requires Unread(read, G.VersionThreeMissing())
    requires D.Assemble(D.VersionThreeProfile(), read, data, Some(3), lib).Success?
    ensures var card := D.Assemble(D.VersionThreeProfile(), read, data, Some(3), lib).value;
            && card.firstNameTruncation.None? && card.middleNameTruncation.None? && card.lastNameTruncation.None?
            && card.complianceType.None? && card.revisionDate.None? && card.hazmatExpirationDate.None?
            && card.isTemporaryDocument.None? && card.isOrganDonor.None? && card.isVeteran.None?
            && (card.weight.None? || (card.weight.value.pounds.None? && card.weight.value.range.Some?))
  {
    var p := D.VersionThreeProfile();
    var dates := D.ReadDates(p, read, lib).value;
    var postalCode := C.FormatPostalCode(read(E.PostalCode)).value;
    UnreadElementsEmpty(p, read, dates, postalCode, data, Some(3), lib);
    UnreadWeightIsRange(p, read, dates, postalCode, data, Some(3), lib);
    DatesFollowLayout(p, read, lib);
  }

  /** Version 5 reads neither flag nor the federal vehicle code, and takes
      the first and last names from their own elements only. */
  lemma VersionFiveLeavesOut(read: E.Element -> Option<string>, data: string, lib: D.Library)
    requires Unread(read, G.VersionFiveMissing())
    requires D.Assemble(D.VersionFiveProfile(), read, data, Some(5), lib).Success?
    ensures var card := D.Assemble(D.VersionFiveProfile(), read, data, Some(5), lib).value;
            && card.isOrganDonor.None? && card.isVeteran.None? && card.federalVehicleCode.None?
            && card.firstName == read(E.FirstName)
            && card.lastName == read(E.LastName)
  {
    var p := D.VersionFiveProfile();
    var dates := D.ReadDates(p, read, lib).value;
    var postalCode := C.FormatPostalCode(read(E.PostalCode)).value;
    UnreadElementsEmpty(p, read, dates, postalCode, data, Some(5), lib);
    NamesRead(p, read, dates, postalCode, data, Some(5), lib);
    assert read(E.GivenName).None? && read(E.DriverLicenseName).None?;
  }

  /** Version 6 reads the organ donor flag but not the veteran flag. */
  lemma VersionSixFlags(read: E.Element -> Option<string>, data: string, lib: D.Library)
    requires Unread(read, G.VersionSixMissing())
    requires D.Assemble(D.VersionSixProfile(), read, data, Some(6), lib).Success?
    ensures var card := D.Assemble(D.VersionSixProfile(), read, data, Some(6), lib).value;
            && card.isVeteran.None? && card.federalVehicleCode.None?
            && (card.isOrganDonor == Some(true) <==> read(E.IsOrganDonor) == Some("1"))
  {
    var p := D.VersionSixProfile();
    var dates := D.ReadDates(p, read, lib).value;
    var postalCode := C.FormatPostalCode(read(E.PostalCode)).value;
    UnreadElementsEmpty(p, read, dates, postalCode, data, Some(6), lib);
    FlagsRead(p, read, dates, postalCode, data, Some(6), lib);
  }

  /** Versions 7 to 9 take the names from the first, middle and last name
      elements only, and do not read the federal vehicle code. */
  lemma VersionSevenNames(read: E.Element -> Option<string>, data: string, version: Option<int>, lib: D.Library)
    requires version == Some(7) || version == Some(8) || version == Some(9)
    requires Unread(read, G.VersionSevenMissing())
    requires D.Assemble(D.VersionSevenProfile(), read, data, version, lib).Success?
    ensures var card := D.Assemble(D.VersionSevenProfile(), read, data, version, lib).value;
            var middle := read(E.MiddleName);
            && card.federalVehicleCode.None?
            && card.firstName == read(E.FirstName)
            && card.lastName == read(E.LastName)
            && card.middleNames == (if middle.Some? then [middle.value] else [])
  {
    var p := D.VersionSevenProfile();
    var dates := D.ReadDates(p, read, lib).value;
    var postalCode := C.FormatPostalCode(read(E.PostalCode)).value;
    UnreadElementsEmpty(p, read, dates, postalCode, data, version, lib);
    NamesRead(p, read, dates, postalCode, data, version, lib);
    assert read(E.GivenName).None? && read(E.DriverLicenseName).None?;
  }
}
