/** The parser objects: a base parser whose table of element identifiers each
    version's parser edits in place when it is built, and the dispatch that
    picks the parser for the version a barcode declares. */
module Parsers {
  import opened Wrappers
  import opened Elements
  import opened FieldTables
  import opened VersionDetector
  import C = Coercions
  import D = Decoding
  import IdCards

  /** The edits of the version 1 parser, part 1 of 4, in source order. */
  ghost function VersionOneStage1(m: map<Element, string>): map<Element, string> {
    var m1 := m - {JurisdictionVehicleClass};
    var m2 := m1 - {JurisdictionRestrictionCode};
    var m3 := m2 - {JurisdictionEndorsementCode};
    var m4 := m3[LastName := "DAB"];
    var m5 := m4[UniqueDocumentId := "DBJ"];
    var m6 := m5 - {Country};
    var m7 := m6 - {LastNameTruncation};
    var m8 := m7 - {FirstNameTruncation};
    m8
  }

  lemma VersionOneStage1At(m: map<Element, string>, e: Element)
    ensures e in VersionOneStage1(m) <==> e in {LastName, UniqueDocumentId} || (e in m && e !in {JurisdictionVehicleClass, JurisdictionRestrictionCode, JurisdictionEndorsementCode, Country, LastNameTruncation, FirstNameTruncation})
    ensures e in VersionOneStage1(m) ==> VersionOneStage1(m)[e] == (if e == LastName then "DAB" else if e == UniqueDocumentId then "DBJ" else m[e])
  {
  }

  /** The edits of the version 1 parser, part 2 of 4, in source order. */
  ghost function VersionOneStage2(m: map<Element, string>): map<Element, string> {
    var m1 := m - {MiddleNameTruncation};
    var m2 := m1 - {PlaceOfBirth};
    var m3 := m2 - {AuditInformation};
    var m4 := m3 - {InventoryControlNumber};
    var m5 := m4[LastNameAlias := "DBO"];
    var m6 := m5[GivenNameAlias := "DBP"];
    var m7 := m6[SuffixAlias := "DBR"];
    var m8 := m7[Suffix := "DAE"];
    m8
  }

  lemma VersionOneStage2At(m: map<Element, string>, e: Element)
    ensures e in VersionOneStage2(m) <==> e in {LastNameAlias, GivenNameAlias, SuffixAlias, Suffix} || (e in m && e !in {MiddleNameTruncation, PlaceOfBirth, AuditInformation, InventoryControlNumber})
    ensures e in VersionOneStage2(m) ==> VersionOneStage2(m)[e] == (if e == LastNameAlias then "DBO" else if e == GivenNameAlias then "DBP" else if e == SuffixAlias then "DBR" else if e == Suffix then "DAE" else m[e])
  {
  }

  /** The edits of the version 1 parser, part 3 of 4, in source order. */
  ghost function VersionOneStage3(m: map<Element, string>): map<Element, string> {
    var m1 := m[HeightCentimeters := "DAV"];
    var m2 := m1 - {WeightRange};
    var m3 := m2 - {Race};
    var m4 := m3[StandardVehicleCode := "PAA"];
    var m5 := m4[StandardEndorsementCode := "PAF"];
    var m6 := m5[StandardRestrictionCode := "PAE"];
    var m7 := m6 - {JurisdictionVehicleClassDescription};
    var m8 := m7 - {JurisdictionEndorsementCodeDescription};
    m8
  }

  lemma VersionOneStage3At(m: map<Element, string>, e: Element)
    ensures e in VersionOneStage3(m) <==> e in {HeightCentimeters, StandardVehicleCode, StandardEndorsementCode, StandardRestrictionCode} || (e in m && e !in {WeightRange, Race, JurisdictionVehicleClassDescription, JurisdictionEndorsementCodeDescription})
    ensures e in VersionOneStage3(m) ==> VersionOneStage3(m)[e] == (if e == HeightCentimeters then "DAV" else if e == StandardVehicleCode then "PAA" else if e == StandardEndorsementCode then "PAF" else if e == StandardRestrictionCode then "PAE" else m[e])
  {
  }

  /** The edits of the version 1 parser, part 4 of 4, in source order. */
  ghost function VersionOneStage4(m: map<Element, string>): map<Element, string> {
    var m1 := m - {JurisdictionRestrictionCodeDescription};
    var m2 := m1 - {ComplianceType};
    var m3 := m2 - {RevisionDate};
    var m4 := m3 - {HazmatExpirationDate};
    var m5 := m4 - {IsTemporaryDocument};
    var m6 := m5[IsOrganDonor := "DBH"];
    var m7 := m6 - {IsVeteran};
    m7
  }

  lemma VersionOneStage4At(m: map<Element, string>, e: Element)
    ensures e in VersionOneStage4(m) <==> e in {IsOrganDonor} || (e in m && e !in {JurisdictionRestrictionCodeDescription, ComplianceType, RevisionDate, HazmatExpirationDate, IsTemporaryDocument, IsVeteran})
    ensures e in VersionOneStage4(m) ==> VersionOneStage4(m)[e] == (if e == IsOrganDonor then "DBH" else m[e])
  {
  }

  /** All edits of the version 1 parser. */
  ghost function VersionOneEdits(m: map<Element, string>): map<Element, string> {
    VersionOneStage4(VersionOneStage3(VersionOneStage2(VersionOneStage1(m))))
  }

  /** An element carries an identifier after the version 1 edits exactly when
      the version 1 table gives it one. */
  lemma VersionOneEditsKeys(e: Element)
    ensures e in VersionOneEdits(BaseTable()) <==> VersionOneCode(e).Some?
  {
    var m1 := VersionOneStage1(BaseTable());
    var m2 := VersionOneStage2(m1);
    var m3 := VersionOneStage3(m2);
    VersionOneStage1At(BaseTable(), e);
    VersionOneStage2At(m1, e);
    VersionOneStage3At(m2, e);
    VersionOneStage4At(m3, e);
    BaseCodeMissing(e);
    VersionOneCodeMissing(e);
  }

  /** After the version 1 edits an element carries its version 1 identifier. */
  lemma VersionOneEditsValues(e: Element)
    requires e in VersionOneEdits(BaseTable())
    ensures VersionOneCode(e).Some? && VersionOneEdits(BaseTable())[e] == VersionOneCode(e).value
  {
    var m1 := VersionOneStage1(BaseTable());
    var m2 := VersionOneStage2(m1);
    var m3 := VersionOneStage3(m2);
    VersionOneEditsKeys(e);
    VersionOneStage1At(BaseTable(), e);
    VersionOneStage2At(m1, e);
    VersionOneStage3At(m2, e);
    VersionOneStage4At(m3, e);
    VersionOneCodeKept(e);
  }

  /** The edits of the version 1 parser turn the base table into the
      version 1 table. */
  lemma VersionOneEditsOfBase()
    ensures VersionOneEdits(BaseTable()) == VersionOneTable()
  {
    var edited, expected := VersionOneEdits(BaseTable()), VersionOneTable();
    forall e: Element ensures (e in edited <==> e in expected) && (e in edited ==> edited[e] == expected[e]) {
      VersionOneEditsKeys(e);
      if e in edited {
        VersionOneEditsValues(e);
      }
    }
  }

  /** The edits of the version 2 parser, part 1 of 3, in source order. */
  ghost function VersionTwoStage1(m: map<Element, string>): map<Element, string> {
    var m1 := m - {FirstName};
    var m2 := m1 - {MiddleName};
    var m3 := m2 - {LastNameTruncation};
    var m4 := m3 - {FirstNameTruncation};
    var m5 := m4 - {MiddleNameTruncation};
    var m6 := m5 - {LastNameAlias};
    m6
  }

  lemma VersionTwoStage1At(m: map<Element, string>, e: Element)
    ensures e in VersionTwoStage1(m) <==> (e in m && e !in {FirstName, MiddleName, LastNameTruncation, FirstNameTruncation, MiddleNameTruncation, LastNameAlias})
    ensures e in VersionTwoStage1(m) ==> VersionTwoStage1(m)[e] == (m[e])
  {
  }

  /** The edits of the version 2 parser, part 2 of 3, in source order. */
  ghost function VersionTwoStage2(m: map<Element, string>): map<Element, string> {
    var m1 := m - {GivenNameAlias};
    var m2 := m1 - {SuffixAlias};
    var m3 := m2 - {ComplianceType};
    var m4 := m3 - {RevisionDate};
    var m5 := m4 - {HazmatExpirationDate};
    var m6 := m5 - {WeightPounds};
    m6
  }

  lemma VersionTwoStage2At(m: map<Element, string>, e: Element)
    ensures e in VersionTwoStage2(m) <==> (e in m && e !in {GivenNameAlias, SuffixAlias, ComplianceType, RevisionDate, HazmatExpirationDate, WeightPounds})
    ensures e in VersionTwoStage2(m) ==> VersionTwoStage2(m)[e] == (m[e])
  {
  }

  /** The edits of the version 2 parser, part 3 of 3, in source order. */
  ghost function VersionTwoStage3(m: map<Element, string>): map<Element, string> {
    var m1 := m - {WeightKilograms};
    var m2 := m1 - {IsTemporaryDocument};
    var m3 := m2 - {IsOrganDonor};
    var m4 := m3 - {IsVeteran};
    var m5 := m4 - {DriverLicenseName};
    m5
  }

  lemma VersionTwoStage3At(m: map<Element, string>, e: Element)
    ensures e in VersionTwoStage3(m) <==> (e in m && e !in {WeightKilograms, IsTemporaryDocument, IsOrganDonor, IsVeteran, DriverLicenseName})
    ensures e in VersionTwoStage3(m) ==> VersionTwoStage3(m)[e] == (m[e])
  {
  }

  /** All edits of the version 2 parser. */
  ghost function VersionTwoEdits(m: map<Element, string>): map<Element, string> {
    VersionTwoStage3(VersionTwoStage2(VersionTwoStage1(m)))
  }

  /** The edits of the version 2 parser turn the base table into the
      version 2 table. */
  lemma VersionTwoEditsOfBase()
    ensures VersionTwoEdits(BaseTable()) == VersionTwoTable()
  {
    var edited, expected := VersionTwoEdits(BaseTable()), VersionTwoTable();
    forall e: Element ensures (e in edited <==> e in expected) && (e in edited ==> edited[e] == expected[e]) {
      VersionTwoStage1At(BaseTable(), e);
      VersionTwoStage2At(VersionTwoStage1(BaseTable()), e);
      VersionTwoStage3At(VersionTwoStage2(VersionTwoStage1(BaseTable())), e);
      BaseCodeMissing(e);
      VersionTwoCodeMissing(e);
      VersionTwoCodeKept(e);
    }
  }

  /** The edits of the version 3 parser, part 1 of 2, in source order. */
  ghost function VersionThreeStage1(m: map<Element, string>): map<Element, string> {
    var m1 := m - {FirstName};
    var m2 := m1 - {MiddleName};
    var m3 := m2 - {LastNameTruncation};
    var m4 := m3 - {FirstNameTruncation};
    var m5 := m4 - {MiddleNameTruncation};
    var m6 := m5 - {ComplianceType};
    var m7 := m6 - {RevisionDate};
    m7
  }

  lemma VersionThreeStage1At(m: map<Element, string>, e: Element)
    ensures e in VersionThreeStage1(m) <==> (e in m && e !in {FirstName, MiddleName, LastNameTruncation, FirstNameTruncation, MiddleNameTruncation, ComplianceType, RevisionDate})
    ensures e in VersionThreeStage1(m) ==> VersionThreeStage1(m)[e] == (m[e])
  {
  }

  /** The edits of the version 3 parser, part 2 of 2, in source order. */
  ghost function VersionThreeStage2(m: map<Element, string>): map<Element, string> {
    var m1 := m - {HazmatExpirationDate};
    var m2 := m1 - {WeightPounds};
    var m3 := m2 - {WeightKilograms};
    var m4 := m3 - {IsTemporaryDocument};
    var m5 := m4 - {IsOrganDonor};
    var m6 := m5 - {IsVeteran};
    var m7 := m6 - {DriverLicenseName};
    m7
  }

  lemma VersionThreeStage2At(m: map<Element, string>, e: Element)
    ensures e in VersionThreeStage2(m) <==> (e in m && e !in {HazmatExpirationDate, WeightPounds, WeightKilograms, IsTemporaryDocument, IsOrganDonor, IsVeteran, DriverLicenseName})
    ensures e in VersionThreeStage2(m) ==> VersionThreeStage2(m)[e] == (m[e])
  {
  }

  /** All edits of the version 3 parser. */
  ghost function VersionThreeEdits(m: map<Element, string>): map<Element, string> {
    VersionThreeStage2(VersionThreeStage1(m))
  }

  /** The edits of the version 3 parser turn the base table into the
      version 3 table. */
  lemma VersionThreeEditsOfBase()
    ensures VersionThreeEdits(BaseTable()) == VersionThreeTable()
  {
    var edited, expected := VersionThreeEdits(BaseTable()), VersionThreeTable();
    forall e: Element ensures (e in edited <==> e in expected) && (e in edited ==> edited[e] == expected[e]) {
      VersionThreeStage1At(BaseTable(), e);
      VersionThreeStage2At(VersionThreeStage1(BaseTable()), e);
      BaseCodeMissing(e);
      VersionTwoCodeMissing(e);
      VersionThreeCodeExtends(e);
      VersionThreeCodeKept(e);
    }
  }

  /** The edits of the version 5 parser, in source order. */
  ghost function VersionFiveEdits(m: map<Element, string>): map<Element, string> {
    var m1 := m - {IsOrganDonor};
    var m2 := m1 - {IsVeteran};
    var m3 := m2 - {FederalVehicleCode};
    var m4 := m3 - {DriverLicenseName};
    var m5 := m4 - {GivenName};
    m5
  }

  lemma VersionFiveEditsAt(m: map<Element, string>, e: Element)
    ensures e in VersionFiveEdits(m) <==> (e in m && e !in {IsOrganDonor, IsVeteran, FederalVehicleCode, DriverLicenseName, GivenName})
    ensures e in VersionFiveEdits(m) ==> VersionFiveEdits(m)[e] == (m[e])
  {
  }

  /** The edits of the version 5 parser turn the base table into the
      version 5 table. */
  lemma VersionFiveEditsOfBase()
    ensures VersionFiveEdits(BaseTable()) == VersionFiveTable()
  {
    var edited, expected := VersionFiveEdits(BaseTable()), VersionFiveTable();
    forall e: Element ensures (e in edited <==> e in expected) && (e in edited ==> edited[e] == expected[e]) {
      VersionFiveEditsAt(BaseTable(), e);
      VersionFiveCodeReduces(e);
      VersionSixCodeReduces(e);
      VersionSevenCodeReduces(e);
    }
  }

  /** The edits of the version 6 parser, in source order. */
  ghost function VersionSixEdits(m: map<Element, string>): map<Element, string> {
    var m1 := m - {IsVeteran};
    var m2 := m1 - {FederalVehicleCode};
    var m3 := m2 - {DriverLicenseName};
    var m4 := m3 - {GivenName};
    m4
  }

  lemma VersionSixEditsAt(m: map<Element, string>, e: Element)
    ensures e in VersionSixEdits(m) <==> (e in m && e !in {IsVeteran, FederalVehicleCode, DriverLicenseName, GivenName})
    ensures e in VersionSixEdits(m) ==> VersionSixEdits(m)[e] == (m[e])
  {
  }

  /** The edits of the version 6 parser turn the base table into the
      version 6 table. */
  lemma VersionSixEditsOfBase()
    ensures VersionSixEdits(BaseTable()) == VersionSixTable()
  {
    var edited, expected := VersionSixEdits(BaseTable()), VersionSixTable();
    forall e: Element ensures (e in edited <==> e in expected) && (e in edited ==> edited[e] == expected[e]) {
      VersionSixEditsAt(BaseTable(), e);
      VersionSixCodeReduces(e);
      VersionSevenCodeReduces(e);
    }
  }

  /** The edits of the version 7 parser, in source order. */
  ghost function VersionSevenEdits(m: map<Element, string>): map<Element, string> {
    var m1 := m - {FederalVehicleCode};
    var m2 := m1 - {DriverLicenseName};
    var m3 := m2 - {GivenName};
    m3
  }

  lemma VersionSevenEditsAt(m: map<Element, string>, e: Element)
    ensures e in VersionSevenEdits(m) <==> (e in m && e !in {FederalVehicleCode, DriverLicenseName, GivenName})
    ensures e in VersionSevenEdits(m) ==> VersionSevenEdits(m)[e] == (m[e])
  {
  }

  /** The edits of the version 7 parser turn the base table into the
      version 7 table. */
  lemma VersionSevenEditsOfBase()
    ensures VersionSevenEdits(BaseTable()) == VersionSevenTable()
  {
    var edited, expected := VersionSevenEdits(BaseTable()), VersionSevenTable();
    forall e: Element ensures (e in edited <==> e in expected) && (e in edited ==> edited[e] == expected[e]) {
      VersionSevenEditsAt(BaseTable(), e);
      VersionSevenCodeReduces(e);
    }
  }

  /** `AAMVAParser` and its version subclasses. A parser holds the barcode
      text, its mutable table of identifiers, its date layouts and its height
      rule. */
  class AamvaParser {
    const data: string
    var fields: map<Element, string>
    const unitedStatesFormat: C.DateFormat
    const canadaFormat: C.DateFormat
    const heightRule: D.HeightRule

    /** The settings the parser decodes with. */
    function Profile(): D.Profile
      reads this
    {
      D.Profile(fields, unitedStatesFormat, canadaFormat, heightRule)
    }

    /** The base parser, used for barcodes without a version from 1 to 9. */
    constructor (data: string)
      ensures this.data == data && Profile() == D.BaseProfile()
    {
      this.data := data;
      fields := BaseTable();
      unitedStatesFormat := C.MonthDayYear;
      canadaFormat := C.YearMonthDay;
      heightRule := D.InchesOrCentimetres;
    }

    /** The version 4 parser, whose settings are given. */
    constructor VersionFour(data: string, profile: D.Profile)
      ensures this.data == data && Profile() == profile
    {
      this.data := data;
      fields := profile.fields;
      unitedStatesFormat := profile.unitedStatesFormat;
      canadaFormat := profile.canadaFormat;
      heightRule := profile.heightRule;
    }

    /** The version 1 parser: the base table with its edits. */
    constructor VersionOne(data: string)
      ensures this.data == data && Profile() == D.VersionOneProfile()
    {
      this.data := data;
      fields := BaseTable();
      unitedStatesFormat := C.YearMonthDay;
      canadaFormat := C.YearMonthDay;
      heightRule := D.FeetInchesOrCentimetres;
      new;
      Remove(JurisdictionVehicleClass);
      Remove(JurisdictionRestrictionCode);
      Remove(JurisdictionEndorsementCode);
      Put(LastName, "DAB");
      Put(UniqueDocumentId, "DBJ");
      Remove(Country);
      Remove(LastNameTruncation);
      Remove(FirstNameTruncation);
      assert fields == VersionOneStage1(BaseTable());
      Remove(MiddleNameTruncation);
      Remove(PlaceOfBirth);
      Remove(AuditInformation);
      Remove(InventoryControlNumber);
      Put(LastNameAlias, "DBO");
      Put(GivenNameAlias, "DBP");
      Put(SuffixAlias, "DBR");
      Put(Suffix, "DAE");
      assert fields == VersionOneStage2(VersionOneStage1(BaseTable()));
      Put(HeightCentimeters, "DAV");
      Remove(WeightRange);
      Remove(Race);
      Put(StandardVehicleCode, "PAA");
      Put(StandardEndorsementCode, "PAF");
      Put(StandardRestrictionCode, "PAE");
      Remove(JurisdictionVehicleClassDescription);
      Remove(JurisdictionEndorsementCodeDescription);
      assert fields == VersionOneStage3(VersionOneStage2(VersionOneStage1(BaseTable())));
      Remove(JurisdictionRestrictionCodeDescription);
      Remove(ComplianceType);
      Remove(RevisionDate);
      Remove(HazmatExpirationDate);
      Remove(IsTemporaryDocument);
      Put(IsOrganDonor, "DBH");
      Remove(IsVeteran);
      assert fields == VersionOneStage4(VersionOneStage3(VersionOneStage2(VersionOneStage1(BaseTable()))));
      VersionOneEditsOfBase();
    }

    /** The version 2 parser: the base table with its edits. */
    constructor VersionTwo(data: string)
      ensures this.data == data && Profile() == D.VersionTwoProfile()
    {
      this.data := data;
      fields := BaseTable();
      unitedStatesFormat := C.MonthDayYear;
      canadaFormat := C.MonthDayYear;
      heightRule := D.InchesOrCentimetres;
      new;
      Remove(FirstName);
      Remove(MiddleName);
      Remove(LastNameTruncation);
      Remove(FirstNameTruncation);
      Remove(MiddleNameTruncation);
      Remove(LastNameAlias);
      assert fields == VersionTwoStage1(BaseTable());
      Remove(GivenNameAlias);
      Remove(SuffixAlias);
      Remove(ComplianceType);
      Remove(RevisionDate);
      Remove(HazmatExpirationDate);
      Remove(WeightPounds);
      assert fields == VersionTwoStage2(VersionTwoStage1(BaseTable()));
      Remove(WeightKilograms);
      Remove(IsTemporaryDocument);
      Remove(IsOrganDonor);
      Remove(IsVeteran);
      Remove(DriverLicenseName);
      assert fields == VersionTwoStage3(VersionTwoStage2(VersionTwoStage1(BaseTable())));
      VersionTwoEditsOfBase();
    }

    /** The version 3 parser: the base table with its edits. */
    constructor VersionThree(data: string)
      ensures this.data == data && Profile() == D.VersionThreeProfile()
    {
      this.data := data;
      fields := BaseTable();
      unitedStatesFormat := C.MonthDayYear;
      canadaFormat := C.YearMonthDay;
      heightRule := D.InchesOrCentimetres;
      new;
      Remove(FirstName);
      Remove(MiddleName);
      Remove(LastNameTruncation);
      Remove(FirstNameTruncation);
      Remove(MiddleNameTruncation);
      Remove(ComplianceType);
      Remove(RevisionDate);
      assert fields == VersionThreeStage1(BaseTable());
      Remove(HazmatExpirationDate);
      Remove(WeightPounds);
      Remove(WeightKilograms);
      Remove(IsTemporaryDocument);
      Remove(IsOrganDonor);
      Remove(IsVeteran);
      Remove(DriverLicenseName);
      assert fields == VersionThreeStage2(VersionThreeStage1(BaseTable()));
      VersionThreeEditsOfBase();
    }

    /** The version 5 parser: the base table with its edits. */
    constructor VersionFive(data: string)
      ensures this.data == data && Profile() == D.VersionFiveProfile()
    {
      this.data := data;
      fields := BaseTable();
      unitedStatesFormat := C.MonthDayYear;
      canadaFormat := C.YearMonthDay;
      heightRule := D.InchesOrCentimetres;
      new;
      Remove(IsOrganDonor);
      Remove(IsVeteran);
      Remove(FederalVehicleCode);
      Remove(DriverLicenseName);
      Remove(GivenName);
      VersionFiveEditsOfBase();
    }

    /** The version 6 parser: the base table with its edits. */
    constructor VersionSix(data: string)
      ensures this.data == data && Profile() == D.VersionSixProfile()
    {
      this.data := data;
      fields := BaseTable();
      unitedStatesFormat := C.MonthDayYear;
      canadaFormat := C.YearMonthDay;
      heightRule := D.InchesOrCentimetres;
      new;
      Remove(IsVeteran);
      Remove(FederalVehicleCode);
      Remove(DriverLicenseName);
      Remove(GivenName);
      VersionSixEditsOfBase();
    }

    /** The version 7 parser: the base table with its edits. */
    constructor VersionSeven(data: string)
      ensures this.data == data && Profile() == D.VersionSevenProfile()
    {
      this.data := data;
      fields := BaseTable();
      unitedStatesFormat := C.MonthDayYear;
      canadaFormat := C.YearMonthDay;
      heightRule := D.InchesOrCentimetres;
      new;
      Remove(FederalVehicleCode);
      Remove(DriverLicenseName);
      Remove(GivenName);
      VersionSevenEditsOfBase();
    }

    /** The version 8 parser: the base table with its edits. */
    constructor VersionEight(data: string)
      ensures this.data == data && Profile() == D.VersionSevenProfile()
    {
      this.data := data;
      fields := BaseTable();
      unitedStatesFormat := C.MonthDayYear;
      canadaFormat := C.YearMonthDay;
      heightRule := D.InchesOrCentimetres;
      new;
      Remove(FederalVehicleCode);
      Remove(DriverLicenseName);
      Remove(GivenName);
      VersionSevenEditsOfBase();
    }

    /** The version 9 parser: the base table with its edits. */
    constructor VersionNine(data: string)
      ensures this.data == data && Profile() == D.VersionSevenProfile()
    {
      this.data := data;
      fields := BaseTable();
      unitedStatesFormat := C.MonthDayYear;
      canadaFormat := C.YearMonthDay;
      heightRule := D.InchesOrCentimetres;
      new;
      Remove(FederalVehicleCode);
      Remove(DriverLicenseName);
      Remove(GivenName);
      VersionSevenEditsOfBase();
    }

    /** `fields.remove`: the element loses its identifier. */
    method Remove(e: Element)
      modifies this
      ensures fields == old(fields) - {e}
    {
      fields := fields - {e};
    }

    /** `fields[e] = code`: the element is read under a new identifier. */
    method Put(e: Element, code: string)
      modifies this
      ensures fields == old(fields)[e := code]
    {
      fields := fields[e := code];
    }

    /** `versionParser`: a new parser for the version the text declares, the
        base parser when it declares none from 1 to 9. */
    method VersionParser(versionFour: D.Profile) returns (parser: AamvaParser)
      ensures fresh(parser)
      ensures parser.data == data
      ensures parser.Profile() == D.ProfileFor(VersionNumber(data), versionFour)
    {
      var version := VersionNumber(data);
      if version == Some(1) {
        parser := new AamvaParser.VersionOne(data);
      } else if version == Some(2) {
        parser := new AamvaParser.VersionTwo(data);
      } else if version == Some(3) {
        parser := new AamvaParser.VersionThree(data);
      } else if version == Some(4) {
        parser := new AamvaParser.VersionFour(data, versionFour);
      } else if version == Some(5) {
        parser := new AamvaParser.VersionFive(data);
      } else if version == Some(6) {
        parser := new AamvaParser.VersionSix(data);
      } else if version == Some(7) {
        parser := new AamvaParser.VersionSeven(data);
      } else if version == Some(8) {
        parser := new AamvaParser.VersionEight(data);
      } else if version == Some(9) {
        parser := new AamvaParser.VersionNine(data);
      } else {
        parser := new AamvaParser(data);
      }
    }

    /** `parse`: the record read by the parser for the declared version. */
    method Parse(lib: D.Library) returns (r: Result<IdCards.IdCard, C.DecodeError>)
      ensures r == D.Decode(data, lib)
    {
      var parser := VersionParser(lib.versionFour);
      r := D.DecodeWith(parser.Profile(), data, VersionNumber(data), lib);
    }
  }
}
