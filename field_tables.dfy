/** The groups of elements that the version tables leave out or rename. The
    larger groups are unions of smaller ones that are counted on their own. */
module ElementGroups {
  import opened Elements

  /** The elements that the base table does not carry. */
  function BaseMissing(): set<Element> {
    {FirstNameAlias, SuffixAlias, HeightCentimeters}
  }

  /** The jurisdiction-specific vehicle class, restriction and endorsement
      codes and their descriptions. */
  function JurisdictionElements(): set<Element> {
    {JurisdictionVehicleClass, JurisdictionRestrictionCode, JurisdictionEndorsementCode,
     JurisdictionVehicleClassDescription, JurisdictionEndorsementCodeDescription,
     JurisdictionRestrictionCodeDescription}
  }

  /** Country, truncations, place of birth, audit and inventory data, weight
      range and race, which version 1 removes. */
  function VersionOneDropsPersonal(): set<Element> {
    {Country, LastNameTruncation, FirstNameTruncation, MiddleNameTruncation, PlaceOfBirth,
     AuditInformation, InventoryControlNumber, WeightRange, Race}
  }

  /** Compliance type, revision and hazmat dates and two flags, which version 1
      removes, and the first-name alias, which no shown table carries. */
  function VersionOneDropsLater(): set<Element> {
    {ComplianceType, RevisionDate, HazmatExpirationDate, IsTemporaryDocument, IsVeteran,
     FirstNameAlias}
  }

  /** The elements that version 1 does not carry: the twenty it removes and
      the first-name alias. */
  function VersionOneMissing(): set<Element> {
    JurisdictionElements() + VersionOneDropsPersonal() + VersionOneDropsLater()
  }

  /** The nine elements whose identifier version 1 replaces. */
  function VersionOneRenamed(): set<Element> {
    {LastName, UniqueDocumentId, LastNameAlias, GivenNameAlias, Suffix,
     StandardVehicleCode, StandardEndorsementCode, StandardRestrictionCode, IsOrganDonor}
  }

  /** Name elements and aliases that version 2 does not carry. */
  function VersionTwoDropsNames(): set<Element> {
    {FirstName, MiddleName, DriverLicenseName, LastNameAlias, GivenNameAlias, SuffixAlias,
     FirstNameAlias}
  }

  /** Truncations, compliance type, revision and hazmat dates, which version 2
      removes. */
  function VersionTwoDropsRecords(): set<Element> {
    {LastNameTruncation, FirstNameTruncation, MiddleNameTruncation, ComplianceType,
     RevisionDate, HazmatExpirationDate}
  }

  /** Pounds, kilograms, the three flags and the height in centimetres, which
      version 2 does not carry. */
  function VersionTwoDropsMeasures(): set<Element> {
    {WeightPounds, WeightKilograms, IsTemporaryDocument, IsOrganDonor, IsVeteran,
     HeightCentimeters}
  }

  /** The elements that version 2 does not carry. */
  function VersionTwoMissing(): set<Element> {
    VersionTwoDropsNames() + VersionTwoDropsRecords() + VersionTwoDropsMeasures()
  }

  /** The elements that version 3 does not carry: those of version 2 but
      the last-name and given-name aliases. */
  function VersionThreeMissing(): set<Element> {
    VersionTwoDropsRecords() + VersionTwoDropsMeasures()
    + {FirstName, MiddleName, DriverLicenseName, SuffixAlias, FirstNameAlias}
  }

  /** The elements that versions 7 to 9 do not carry. */
  function VersionSevenMissing(): set<Element> {
    BaseMissing() + {FederalVehicleCode, DriverLicenseName, GivenName}
  }

  /** The elements that version 6 does not carry. */
  function VersionSixMissing(): set<Element> {
    VersionSevenMissing() + {IsVeteran}
  }

  /** The elements that version 5 does not carry. */
  function VersionFiveMissing(): set<Element> {
    VersionSixMissing() + {IsOrganDonor}
  }

  lemma LaterMissingSizes()
    ensures |VersionSevenMissing()| == 6
    ensures |VersionSixMissing()| == 7
    ensures |VersionFiveMissing()| == 8
  {
  }

  /** Disjoint groups are counted apart. */
  lemma DisjointSize(a: set<Element>, b: set<Element>)
    requires a !! b
    ensures |a + b| == |a| + |b|
  {
    assert a * b == {};
  }

  lemma VersionOneGroupSizes()
    ensures |JurisdictionElements()| == 6
    ensures |VersionOneDropsPersonal()| == 9
    ensures |VersionOneDropsLater()| == 6
  {
  }

  lemma VersionOneGroupsDisjoint()
    ensures JurisdictionElements() !! VersionOneDropsPersonal()
    ensures JurisdictionElements() !! VersionOneDropsLater()
    ensures VersionOneDropsPersonal() !! VersionOneDropsLater()
  {
  }

  lemma VersionOneMissingSize()
    ensures |VersionOneMissing()| == 21
  {
    VersionOneGroupSizes();
    VersionOneGroupsDisjoint();
    DisjointSize(JurisdictionElements(), VersionOneDropsPersonal());
    DisjointSize(JurisdictionElements() + VersionOneDropsPersonal(), VersionOneDropsLater());
  }

  lemma VersionTwoGroupSizes()
    ensures |VersionTwoDropsNames()| == 7
    ensures |VersionTwoDropsRecords()| == 6
    ensures |VersionTwoDropsMeasures()| == 6
  {
  }

  lemma VersionTwoGroupsDisjoint()
    ensures VersionTwoDropsNames() !! VersionTwoDropsRecords()
    ensures VersionTwoDropsNames() !! VersionTwoDropsMeasures()
    ensures VersionTwoDropsRecords() !! VersionTwoDropsMeasures()
  {
  }

  lemma VersionTwoMissingSize()
    ensures |VersionTwoMissing()| == 19
  {
    VersionTwoGroupSizes();
    VersionTwoGroupsDisjoint();
    DisjointSize(VersionTwoDropsNames(), VersionTwoDropsRecords());
    DisjointSize(VersionTwoDropsNames() + VersionTwoDropsRecords(), VersionTwoDropsMeasures());
  }
}

/** Per-version field tables: for each element, the three-letter data-element
    identifier that precedes its value in the barcode text. Each table is listed
    here in full, as the reference the parser constructors are checked against. */
module FieldTables {
  import opened ElementGroups
  import opened Wrappers
  import opened Elements

  /** The base table, common to all or most versions (the identifiers of the mandatory and optional element tables of the current standard). */
  function BaseCode(e: Element): Option<string> {
    match e
    case JurisdictionVehicleClass => Some("DCA")
    case JurisdictionRestrictionCode => Some("DCB")
    case JurisdictionEndorsementCode => Some("DCD")
    case ExpirationDate => Some("DBA")
    case IssueDate => Some("DBD")
    case FirstName => Some("DAC")
    case MiddleName => Some("DAD")
    case LastName => Some("DCS")
    case BirthDate => Some("DBB")
    case Gender => Some("DBC")
    case EyeColor => Some("DAY")
    case HeightInches => Some("DAU")
    case StreetAddress => Some("DAG")
    case City => Some("DAI")
    case State => Some("DAJ")
    case PostalCode => Some("DAK")
    case DriverLicenseNumber => Some("DAQ")
    case UniqueDocumentId => Some("DCF")
    case Country => Some("DCG")
    case LastNameTruncation => Some("DDE")
    case FirstNameTruncation => Some("DDF")
    case MiddleNameTruncation => Some("DDG")
    case StreetAddressTwo => Some("DAH")
    case HairColor => Some("DAZ")
    case PlaceOfBirth => Some("DCI")
    case AuditInformation => Some("DCJ")
    case InventoryControlNumber => Some("DCK")
    case LastNameAlias => Some("DBN")
    case GivenNameAlias => Some("DBG")
    case Suffix => Some("DBS")
    case WeightRange => Some("DCE")
    case Race => Some("DCL")
    case StandardVehicleCode => Some("DCM")
    case StandardEndorsementCode => Some("DCN")
    case StandardRestrictionCode => Some("DCO")
    case JurisdictionVehicleClassDescription => Some("DCP")
    case JurisdictionEndorsementCodeDescription => Some("DCQ")
    case JurisdictionRestrictionCodeDescription => Some("DCR")
    case ComplianceType => Some("DDA")
    case RevisionDate => Some("DDB")
    case HazmatExpirationDate => Some("DDC")
    case WeightPounds => Some("DAW")
    case WeightKilograms => Some("DAX")
    case IsTemporaryDocument => Some("DDD")
    case IsOrganDonor => Some("DDK")
    case IsVeteran => Some("DDL")
    case FederalVehicleCode => Some("DCH")
    case DriverLicenseName => Some("DAA")
    case GivenName => Some("DCT")
    case _ => None
  }

  function BaseTable(): map<Element, string> {
    map e: Element | BaseCode(e).Some? :: BaseCode(e).value
  }

  /** Version 1 (published 2000): twenty elements dropped, nine identifiers replaced, two added. */
  function VersionOneCode(e: Element): Option<string> {
    match e
    case ExpirationDate => Some("DBA")
    case IssueDate => Some("DBD")
    case FirstName => Some("DAC")
    case MiddleName => Some("DAD")
    case LastName => Some("DAB")
    case BirthDate => Some("DBB")
    case Gender => Some("DBC")
    case EyeColor => Some("DAY")
    case HeightInches => Some("DAU")
    case StreetAddress => Some("DAG")
    case City => Some("DAI")
    case State => Some("DAJ")
    case PostalCode => Some("DAK")
    case DriverLicenseNumber => Some("DAQ")
    case UniqueDocumentId => Some("DBJ")
    case StreetAddressTwo => Some("DAH")
    case HairColor => Some("DAZ")
    case LastNameAlias => Some("DBO")
    case GivenNameAlias => Some("DBP")
    case Suffix => Some("DAE")
    case StandardVehicleCode => Some("PAA")
    case StandardEndorsementCode => Some("PAF")
    case StandardRestrictionCode => Some("PAE")
    case WeightPounds => Some("DAW")
    case WeightKilograms => Some("DAX")
    case IsOrganDonor => Some("DBH")
    case FederalVehicleCode => Some("DCH")
    case DriverLicenseName => Some("DAA")
    case GivenName => Some("DCT")
    case SuffixAlias => Some("DBR")
    case HeightCentimeters => Some("DAV")
    case _ => None
  }

  function VersionOneTable(): map<Element, string> {
    map e: Element | VersionOneCode(e).Some? :: VersionOneCode(e).value
  }

  /** Version 2 (published 09-2003): no separate first and middle name, no truncation, alias, compliance or flag elements, no pounds or kilograms. */
  function VersionTwoCode(e: Element): Option<string> {
    match e
    case JurisdictionVehicleClass => Some("DCA")
    case JurisdictionRestrictionCode => Some("DCB")
    case JurisdictionEndorsementCode => Some("DCD")
    case ExpirationDate => Some("DBA")
    case IssueDate => Some("DBD")
    case LastName => Some("DCS")
    case BirthDate => Some("DBB")
    case Gender => Some("DBC")
    case EyeColor => Some("DAY")
    case HeightInches => Some("DAU")
    case StreetAddress => Some("DAG")
    case City => Some("DAI")
    case State => Some("DAJ")
    case PostalCode => Some("DAK")
    case DriverLicenseNumber => Some("DAQ")
    case UniqueDocumentId => Some("DCF")
    case Country => Some("DCG")
    case StreetAddressTwo => Some("DAH")
    case HairColor => Some("DAZ")
    case PlaceOfBirth => Some("DCI")
    case AuditInformation => Some("DCJ")
    case InventoryControlNumber => Some("DCK")
    case Suffix => Some("DBS")
    case WeightRange => Some("DCE")
    case Race => Some("DCL")
    case StandardVehicleCode => Some("DCM")
    case StandardEndorsementCode => Some("DCN")
    case StandardRestrictionCode => Some("DCO")
    case JurisdictionVehicleClassDescription => Some("DCP")
    case JurisdictionEndorsementCodeDescription => Some("DCQ")
    case JurisdictionRestrictionCodeDescription => Some("DCR")
    case FederalVehicleCode => Some("DCH")
    case GivenName => Some("DCT")
    case _ => None
  }

  function VersionTwoTable(): map<Element, string> {
    map e: Element | VersionTwoCode(e).Some? :: VersionTwoCode(e).value
  }

  /** Version 3 (published 03-2005). */
  function VersionThreeCode(e: Element): Option<string> {
    match e
    case JurisdictionVehicleClass => Some("DCA")
    case JurisdictionRestrictionCode => Some("DCB")
    case JurisdictionEndorsementCode => Some("DCD")
    case ExpirationDate => Some("DBA")
    case IssueDate => Some("DBD")
    case LastName => Some("DCS")
    case BirthDate => Some("DBB")
    case Gender => Some("DBC")
    case EyeColor => Some("DAY")
    case HeightInches => Some("DAU")
    case StreetAddress => Some("DAG")
    case City => Some("DAI")
    case State => Some("DAJ")
    case PostalCode => Some("DAK")
    case DriverLicenseNumber => Some("DAQ")
    case UniqueDocumentId => Some("DCF")
    case Country => Some("DCG")
    case StreetAddressTwo => Some("DAH")
    case HairColor => Some("DAZ")
    case PlaceOfBirth => Some("DCI")
    case AuditInformation => Some("DCJ")
    case InventoryControlNumber => Some("DCK")
    case LastNameAlias => Some("DBN")
    case GivenNameAlias => Some("DBG")
    case Suffix => Some("DBS")
    case WeightRange => Some("DCE")
    case Race => Some("DCL")
    case StandardVehicleCode => Some("DCM")
    case StandardEndorsementCode => Some("DCN")
    case StandardRestrictionCode => Some("DCO")
    case JurisdictionVehicleClassDescription => Some("DCP")
    case JurisdictionEndorsementCodeDescription => Some("DCQ")
    case JurisdictionRestrictionCodeDescription => Some("DCR")
    case FederalVehicleCode => Some("DCH")
    case GivenName => Some("DCT")
    case _ => None
  }

  function VersionThreeTable(): map<Element, string> {
    map e: Element | VersionThreeCode(e).Some? :: VersionThreeCode(e).value
  }

  /** Version 5 (published 07-2010). */
  function VersionFiveCode(e: Element): Option<string> {
    match e
    case JurisdictionVehicleClass => Some("DCA")
    case JurisdictionRestrictionCode => Some("DCB")
    case JurisdictionEndorsementCode => Some("DCD")
    case ExpirationDate => Some("DBA")
    case IssueDate => Some("DBD")
    case FirstName => Some("DAC")
    case MiddleName => Some("DAD")
    case LastName => Some("DCS")
    case BirthDate => Some("DBB")
    case Gender => Some("DBC")
    case EyeColor => Some("DAY")
    case HeightInches => Some("DAU")
    case StreetAddress => Some("DAG")
    case City => Some("DAI")
    case State => Some("DAJ")
    case PostalCode => Some("DAK")
    case DriverLicenseNumber => Some("DAQ")
    case UniqueDocumentId => Some("DCF")
    case Country => Some("DCG")
    case LastNameTruncation => Some("DDE")
    case FirstNameTruncation => Some("DDF")
    case MiddleNameTruncation => Some("DDG")
    case StreetAddressTwo => Some("DAH")
    case HairColor => Some("DAZ")
    case PlaceOfBirth => Some("DCI")
    case AuditInformation => Some("DCJ")
    case InventoryControlNumber => Some("DCK")
    case LastNameAlias => Some("DBN")
    case GivenNameAlias => Some("DBG")
    case Suffix => Some("DBS")
    case WeightRange => Some("DCE")
    case Race => Some("DCL")
    case StandardVehicleCode => Some("DCM")
    case StandardEndorsementCode => Some("DCN")
    case StandardRestrictionCode => Some("DCO")
    case JurisdictionVehicleClassDescription => Some("DCP")
    case JurisdictionEndorsementCodeDescription => Some("DCQ")
    case JurisdictionRestrictionCodeDescription => Some("DCR")
    case ComplianceType => Some("DDA")
    case RevisionDate => Some("DDB")
    case HazmatExpirationDate => Some("DDC")
    case WeightPounds => Some("DAW")
    case WeightKilograms => Some("DAX")
    case IsTemporaryDocument => Some("DDD")
    case _ => None
  }

  function VersionFiveTable(): map<Element, string> {
    map e: Element | VersionFiveCode(e).Some? :: VersionFiveCode(e).value
  }

  /** Version 6 (published 07-2011). */
  function VersionSixCode(e: Element): Option<string> {
    match e
    case JurisdictionVehicleClass => Some("DCA")
    case JurisdictionRestrictionCode => Some("DCB")
    case JurisdictionEndorsementCode => Some("DCD")
    case ExpirationDate => Some("DBA")
    case IssueDate => Some("DBD")
    case FirstName => Some("DAC")
    case MiddleName => Some("DAD")
    case LastName => Some("DCS")
    case BirthDate => Some("DBB")
    case Gender => Some("DBC")
    case EyeColor => Some("DAY")
    case HeightInches => Some("DAU")
    case StreetAddress => Some("DAG")
    case City => Some("DAI")
    case State => Some("DAJ")
    case PostalCode => Some("DAK")
    case DriverLicenseNumber => Some("DAQ")
    case UniqueDocumentId => Some("DCF")
    case Country => Some("DCG")
    case LastNameTruncation => Some("DDE")
    case FirstNameTruncation => Some("DDF")
    case MiddleNameTruncation => Some("DDG")
    case StreetAddressTwo => Some("DAH")
    case HairColor => Some("DAZ")
    case PlaceOfBirth => Some("DCI")
    case AuditInformation => Some("DCJ")
    case InventoryControlNumber => Some("DCK")
    case LastNameAlias => Some("DBN")
    case GivenNameAlias => Some("DBG")
    case Suffix => Some("DBS")
    case WeightRange => Some("DCE")
    case Race => Some("DCL")
    case StandardVehicleCode => Some("DCM")
    case StandardEndorsementCode => Some("DCN")
    case StandardRestrictionCode => Some("DCO")
    case JurisdictionVehicleClassDescription => Some("DCP")
    case JurisdictionEndorsementCodeDescription => Some("DCQ")
    case JurisdictionRestrictionCodeDescription => Some("DCR")
    case ComplianceType => Some("DDA")
    case RevisionDate => Some("DDB")
    case HazmatExpirationDate => Some("DDC")
    case WeightPounds => Some("DAW")
    case WeightKilograms => Some("DAX")
    case IsTemporaryDocument => Some("DDD")
    case IsOrganDonor => Some("DDK")
    case _ => None
  }

  function VersionSixTable(): map<Element, string> {
    map e: Element | VersionSixCode(e).Some? :: VersionSixCode(e).value
  }

  /** Versions 7, 8 and 9 (published 06-2012, 08-2013 and 2016) share this table. */
  function VersionSevenCode(e: Element): Option<string> {
    match e
    case JurisdictionVehicleClass => Some("DCA")
    case JurisdictionRestrictionCode => Some("DCB")
    case JurisdictionEndorsementCode => Some("DCD")
    case ExpirationDate => Some("DBA")
    case IssueDate => Some("DBD")
    case FirstName => Some("DAC")
    case MiddleName => Some("DAD")
    case LastName => Some("DCS")
    case BirthDate => Some("DBB")
    case Gender => Some("DBC")
    case EyeColor => Some("DAY")
    case HeightInches => Some("DAU")
    case StreetAddress => Some("DAG")
    case City => Some("DAI")
    case State => Some("DAJ")
    case PostalCode => Some("DAK")
    case DriverLicenseNumber => Some("DAQ")
    case UniqueDocumentId => Some("DCF")
    case Country => Some("DCG")
    case LastNameTruncation => Some("DDE")
    case FirstNameTruncation => Some("DDF")
    case MiddleNameTruncation => Some("DDG")
    case StreetAddressTwo => Some("DAH")
    case HairColor => Some("DAZ")
    case PlaceOfBirth => Some("DCI")
    case AuditInformation => Some("DCJ")
    case InventoryControlNumber => Some("DCK")
    case LastNameAlias => Some("DBN")
    case GivenNameAlias => Some("DBG")
    case Suffix => Some("DBS")
    case WeightRange => Some("DCE")
    case Race => Some("DCL")
    case StandardVehicleCode => Some("DCM")
    case StandardEndorsementCode => Some("DCN")
    case StandardRestrictionCode => Some("DCO")
    case JurisdictionVehicleClassDescription => Some("DCP")
    case JurisdictionEndorsementCodeDescription => Some("DCQ")
    case JurisdictionRestrictionCodeDescription => Some("DCR")
    case ComplianceType => Some("DDA")
    case RevisionDate => Some("DDB")
    case HazmatExpirationDate => Some("DDC")
    case WeightPounds => Some("DAW")
    case WeightKilograms => Some("DAX")
    case IsTemporaryDocument => Some("DDD")
    case IsOrganDonor => Some("DDK")
    case IsVeteran => Some("DDL")
    case _ => None
  }

  function VersionSevenTable(): map<Element, string> {
    map e: Element | VersionSevenCode(e).Some? :: VersionSevenCode(e).value
  }

  /** The element that owns an identifier in the base or the version 1 table. */
  function CodeOwner(code: string): Option<Element> {
    match code
    case "DCA" => Some(JurisdictionVehicleClass)
    case "DCB" => Some(JurisdictionRestrictionCode)
    case "DCD" => Some(JurisdictionEndorsementCode)
    case "DBA" => Some(ExpirationDate)
    case "DBD" => Some(IssueDate)
    case "DAC" => Some(FirstName)
    case "DAD" => Some(MiddleName)
    case "DCS" => Some(LastName)
    case "DBB" => Some(BirthDate)
    case "DBC" => Some(Gender)
    case "DAY" => Some(EyeColor)
    case "DAU" => Some(HeightInches)
    case "DAG" => Some(StreetAddress)
    case "DAI" => Some(City)
    case "DAJ" => Some(State)
    case "DAK" => Some(PostalCode)
    case "DAQ" => Some(DriverLicenseNumber)
    case "DCF" => Some(UniqueDocumentId)
    case "DCG" => Some(Country)
    case "DDE" => Some(LastNameTruncation)
    case "DDF" => Some(FirstNameTruncation)
    case "DDG" => Some(MiddleNameTruncation)
    case "DAH" => Some(StreetAddressTwo)
    case "DAZ" => Some(HairColor)
    case "DCI" => Some(PlaceOfBirth)
    case "DCJ" => Some(AuditInformation)
    case "DCK" => Some(InventoryControlNumber)
    case "DBN" => Some(LastNameAlias)
    case "DBG" => Some(GivenNameAlias)
    case "DBS" => Some(Suffix)
    case "DCE" => Some(WeightRange)
    case "DCL" => Some(Race)
    case "DCM" => Some(StandardVehicleCode)
    case "DCN" => Some(StandardEndorsementCode)
    case "DCO" => Some(StandardRestrictionCode)
    case "DCP" => Some(JurisdictionVehicleClassDescription)
    case "DCQ" => Some(JurisdictionEndorsementCodeDescription)
    case "DCR" => Some(JurisdictionRestrictionCodeDescription)
    case "DDA" => Some(ComplianceType)
    case "DDB" => Some(RevisionDate)
    case "DDC" => Some(HazmatExpirationDate)
    case "DAW" => Some(WeightPounds)
    case "DAX" => Some(WeightKilograms)
    case "DDD" => Some(IsTemporaryDocument)
    case "DDK" => Some(IsOrganDonor)
    case "DDL" => Some(IsVeteran)
    case "DCH" => Some(FederalVehicleCode)
    case "DAA" => Some(DriverLicenseName)
    case "DCT" => Some(GivenName)
    case "DAB" => Some(LastName)
    case "DBJ" => Some(UniqueDocumentId)
    case "DBO" => Some(LastNameAlias)
    case "DBP" => Some(GivenNameAlias)
    case "DAE" => Some(Suffix)
    case "PAA" => Some(StandardVehicleCode)
    case "PAF" => Some(StandardEndorsementCode)
    case "PAE" => Some(StandardRestrictionCode)
    case "DBH" => Some(IsOrganDonor)
    case "DBR" => Some(SuffixAlias)
    case "DAV" => Some(HeightCentimeters)
    case _ => None
  }

  /** No two elements of the table share an identifier. */
  ghost predicate Injective(m: map<Element, string>) {
    forall a, b :: a in m && b in m && a != b ==> m[a] != m[b]
  }

  /** Every identifier is three characters long. */
  ghost predicate ThreeLetterCodes(m: map<Element, string>) {
    forall e :: e in m ==> |m[e]| == 3
  }

  /** m keeps the code that the base table gives each of its elements. */
  ghost predicate KeepsBaseCodes(m: map<Element, string>) {
    forall e :: e in m ==> e in BaseTable() && m[e] == BaseTable()[e]
  }

  /** Removing a subset removes exactly its elements from the count. */
  lemma DifferenceSize(a: set<Element>, b: set<Element>)
    requires b <= a
    ensures |a - b| == |a| - |b|
  {
    assert a * b == b;
  }

  /** A table in which every identifier names its own element is injective. */
  lemma OwnedIsInjective(m: map<Element, string>)
    requires forall e :: e in m ==> CodeOwner(m[e]) == Some(e)
    ensures Injective(m)
  {
    forall a, b | a in m && b in m && a != b
      ensures m[a] != m[b]
    {
      assert CodeOwner(m[a]) != CodeOwner(m[b]);
    }
  }

  /** The size of a table follows from the elements it lacks. */
  lemma SizeFromMissing(m: map<Element, string>, missing: set<Element>)
    requires m.Keys == AllElements() - missing
    ensures |m| == ElementCount - |missing|
  {
    AllElementsSize();
    assert missing <= AllElements() by {
      forall e | e in missing ensures e in AllElements() { InAllElements(e); }
    }
    DifferenceSize(AllElements(), missing);
    assert |m| == |m.Keys|;
  }

  /** A table that keeps base identifiers inherits the base table's injectivity
      and identifier length. */
  lemma KeepsBaseCodesShape(m: map<Element, string>)
    requires KeepsBaseCodes(m)
    ensures Injective(m) && ThreeLetterCodes(m)
  {
    BaseTableShape();
  }

  lemma BaseCodeOwned0(e: Element)
    requires 0 <= Ordinal(e) < 13
    ensures BaseCode(e).Some? ==> CodeOwner(BaseCode(e).value) == Some(e) && |BaseCode(e).value| == 3
  {
  }

  lemma BaseCodeOwned13(e: Element)
    requires 13 <= Ordinal(e) < 26
    ensures BaseCode(e).Some? ==> CodeOwner(BaseCode(e).value) == Some(e) && |BaseCode(e).value| == 3
  {
  }

  lemma BaseCodeOwned26(e: Element)
    requires 26 <= Ordinal(e) < 39
    ensures BaseCode(e).Some? ==> CodeOwner(BaseCode(e).value) == Some(e) && |BaseCode(e).value| == 3
  {
  }

  lemma BaseCodeOwned39(e: Element)
    requires 39 <= Ordinal(e) < 52
    ensures BaseCode(e).Some? ==> CodeOwner(BaseCode(e).value) == Some(e) && |BaseCode(e).value| == 3
  {
  }

  lemma BaseCodeOwned(e: Element)
    ensures BaseCode(e).Some? ==> CodeOwner(BaseCode(e).value) == Some(e) && |BaseCode(e).value| == 3
  {
    var i := Ordinal(e);
    if i < 13 { BaseCodeOwned0(e); }
    else if i < 26 { BaseCodeOwned13(e); }
    else if i < 39 { BaseCodeOwned26(e); }
    else { BaseCodeOwned39(e); }
  }

  lemma BaseCodeMissing0(e: Element)
    requires 0 <= Ordinal(e) < 13
    ensures BaseCode(e).None? <==> e in BaseMissing()
  {
  }

  lemma BaseCodeMissing13(e: Element)
    requires 13 <= Ordinal(e) < 26
    ensures BaseCode(e).None? <==> e in BaseMissing()
  {
  }

  lemma BaseCodeMissing26(e: Element)
    requires 26 <= Ordinal(e) < 39
    ensures BaseCode(e).None? <==> e in BaseMissing()
  {
  }

  lemma BaseCodeMissing39(e: Element)
    requires 39 <= Ordinal(e) < 52
    ensures BaseCode(e).None? <==> e in BaseMissing()
  {
  }

  lemma BaseCodeMissing(e: Element)
    ensures BaseCode(e).None? <==> e in BaseMissing()
  {
    var i := Ordinal(e);
    if i < 13 { BaseCodeMissing0(e); }
    else if i < 26 { BaseCodeMissing13(e); }
    else if i < 39 { BaseCodeMissing26(e); }
    else { BaseCodeMissing39(e); }
  }

  /** The base table carries 49 elements, all but the first-name alias, the
      suffix alias and the height in centimetres, under 49 distinct
      three-letter identifiers. */
  lemma BaseTableShape()
    ensures BaseTable().Keys == AllElements() - BaseMissing()
    ensures |BaseTable()| == 49
    ensures Injective(BaseTable()) && ThreeLetterCodes(BaseTable())
  {
    forall e ensures e in BaseTable() <==> e in AllElements() - BaseMissing() {
      BaseCodeMissing(e);
    }
    SizeFromMissing(BaseTable(), BaseMissing());
    forall e | e in BaseTable()
      ensures CodeOwner(BaseTable()[e]) == Some(e) && |BaseTable()[e]| == 3
    {
      BaseCodeOwned(e);
    }
    OwnedIsInjective(BaseTable());
  }

  lemma VersionOneCodeMissing0(e: Element)
    requires 0 <= Ordinal(e) < 13
    ensures VersionOneCode(e).None? <==> e in VersionOneMissing()
  {
  }

  lemma VersionOneCodeMissing13(e: Element)
    requires 13 <= Ordinal(e) < 26
    ensures VersionOneCode(e).None? <==> e in VersionOneMissing()
  {
  }

  lemma VersionOneCodeMissing26(e: Element)
    requires 26 <= Ordinal(e) < 39
    ensures VersionOneCode(e).None? <==> e in VersionOneMissing()
  {
  }

  lemma VersionOneCodeMissing39(e: Element)
    requires 39 <= Ordinal(e) < 52
    ensures VersionOneCode(e).None? <==> e in VersionOneMissing()
  {
  }

  lemma VersionOneCodeMissing(e: Element)
    ensures VersionOneCode(e).None? <==> e in VersionOneMissing()
  {
    var i := Ordinal(e);
    if i < 13 { VersionOneCodeMissing0(e); }
    else if i < 26 { VersionOneCodeMissing13(e); }
    else if i < 39 { VersionOneCodeMissing26(e); }
    else { VersionOneCodeMissing39(e); }
  }

  lemma VersionOneCodeOwned0(e: Element)
    requires 0 <= Ordinal(e) < 13
    ensures VersionOneCode(e).Some? ==>
              CodeOwner(VersionOneCode(e).value) == Some(e) && |VersionOneCode(e).value| == 3
  {
  }

  lemma VersionOneCodeOwned13(e: Element)
    requires 13 <= Ordinal(e) < 26
    ensures VersionOneCode(e).Some? ==>
              CodeOwner(VersionOneCode(e).value) == Some(e) && |VersionOneCode(e).value| == 3
  {
  }

  lemma VersionOneCodeOwned26(e: Element)
    requires 26 <= Ordinal(e) < 39
    ensures VersionOneCode(e).Some? ==>
              CodeOwner(VersionOneCode(e).value) == Some(e) && |VersionOneCode(e).value| == 3
  {
  }

  lemma VersionOneCodeOwned39(e: Element)
    requires 39 <= Ordinal(e) < 52
    ensures VersionOneCode(e).Some? ==>
              CodeOwner(VersionOneCode(e).value) == Some(e) && |VersionOneCode(e).value| == 3
  {
  }

  lemma VersionOneCodeOwned(e: Element)
    ensures VersionOneCode(e).Some? ==>
              CodeOwner(VersionOneCode(e).value) == Some(e) && |VersionOneCode(e).value| == 3
  {
    var i := Ordinal(e);
    if i < 13 { VersionOneCodeOwned0(e); }
    else if i < 26 { VersionOneCodeOwned13(e); }
    else if i < 39 { VersionOneCodeOwned26(e); }
    else { VersionOneCodeOwned39(e); }
  }

  lemma VersionOneCodeKept(e: Element)
    ensures VersionOneCode(e).Some? && BaseCode(e).Some? && e !in VersionOneRenamed() ==>
              VersionOneCode(e) == BaseCode(e)
  {
  }

  lemma VersionOneCodeRenamed0(e: Element)
    requires 0 <= Ordinal(e) < 13
    ensures e in VersionOneRenamed() ==>
              VersionOneCode(e).Some? && BaseCode(e).Some? && VersionOneCode(e) != BaseCode(e)
  {
  }

  lemma VersionOneCodeRenamed13(e: Element)
    requires 13 <= Ordinal(e) < 26
    ensures e in VersionOneRenamed() ==>
              VersionOneCode(e).Some? && BaseCode(e).Some? && VersionOneCode(e) != BaseCode(e)
  {
  }

  lemma VersionOneCodeRenamed26(e: Element)
    requires 26 <= Ordinal(e) < 39
    ensures e in VersionOneRenamed() ==>
              VersionOneCode(e).Some? && BaseCode(e).Some? && VersionOneCode(e) != BaseCode(e)
  {
  }

  lemma VersionOneCodeRenamed39(e: Element)
    requires 39 <= Ordinal(e) < 52
    ensures e in VersionOneRenamed() ==>
              VersionOneCode(e).Some? && BaseCode(e).Some? && VersionOneCode(e) != BaseCode(e)
  {
  }

  lemma VersionOneCodeRenamed(e: Element)
    ensures e in VersionOneRenamed() ==>
              VersionOneCode(e).Some? && BaseCode(e).Some? && VersionOneCode(e) != BaseCode(e)
  {
    var i := Ordinal(e);
    if i < 13 { VersionOneCodeRenamed0(e); }
    else if i < 26 { VersionOneCodeRenamed13(e); }
    else if i < 39 { VersionOneCodeRenamed26(e); }
    else { VersionOneCodeRenamed39(e); }
  }

  /** Version 1 carries every element but the 21 it lacks. */
  lemma VersionOneTableKeys()
    ensures VersionOneTable().Keys == AllElements() - VersionOneMissing()
  {
    forall e ensures e in VersionOneTable() <==> e in AllElements() - VersionOneMissing() {
      VersionOneCodeMissing(e);
      InAllElements(e);
    }
  }

  /** Version 1 carries 31 elements. */
  lemma VersionOneTableSize()
    ensures |VersionOneTable()| == 31
  {
    VersionOneTableKeys();
    VersionOneMissingSize();
    SizeFromMissing(VersionOneTable(), VersionOneMissing());
  }

  /** Version 1 identifiers are distinct and three letters long. */
  lemma VersionOneTableInjective()
    ensures Injective(VersionOneTable()) && ThreeLetterCodes(VersionOneTable())
  {
    forall e | e in VersionOneTable()
      ensures CodeOwner(VersionOneTable()[e]) == Some(e) && |VersionOneTable()[e]| == 3
    {
      VersionOneCodeOwned(e);
    }
    OwnedIsInjective(VersionOneTable());
  }

  /** The nine renamed elements get a new identifier, every other element
      version 1 shares with the base table keeps its base identifier. */
  lemma VersionOneTableRenames()
    ensures forall e :: e in VersionOneTable() && e in BaseTable() && e !in VersionOneRenamed() ==>
              VersionOneTable()[e] == BaseTable()[e]
    ensures forall e :: e in VersionOneRenamed() ==>
              e in VersionOneTable() && e in BaseTable() && VersionOneTable()[e] != BaseTable()[e]
  {
    forall e | e in VersionOneTable() && e in BaseTable() && e !in VersionOneRenamed()
      ensures VersionOneTable()[e] == BaseTable()[e]
    {
      VersionOneCodeKept(e);
    }
    forall e | e in VersionOneRenamed()
      ensures e in VersionOneTable() && e in BaseTable() && VersionOneTable()[e] != BaseTable()[e]
    {
      VersionOneCodeRenamed(e);
    }
  }

  /** Version 1 is the only table that carries the suffix alias and the
      height in centimetres. */
  lemma VersionOneTableExtras()
    ensures VersionOneTable().Keys - BaseTable().Keys == {SuffixAlias, HeightCentimeters}
  {
    forall e ensures e in VersionOneTable().Keys - BaseTable().Keys <==> e in {SuffixAlias, HeightCentimeters} {
      VersionOneCodeMissing(e);
      BaseCodeMissing(e);
    }
  }

  lemma VersionTwoCodeMissing0(e: Element)
    requires 0 <= Ordinal(e) < 13
    ensures VersionTwoCode(e).None? <==> e in VersionTwoMissing()
  {
  }

  lemma VersionTwoCodeMissing13(e: Element)
    requires 13 <= Ordinal(e) < 26
    ensures VersionTwoCode(e).None? <==> e in VersionTwoMissing()
  {
  }

  lemma VersionTwoCodeMissing26(e: Element)
    requires 26 <= Ordinal(e) < 39
    ensures VersionTwoCode(e).None? <==> e in VersionTwoMissing()
  {
  }

  lemma VersionTwoCodeMissing39(e: Element)
    requires 39 <= Ordinal(e) < 52
    ensures VersionTwoCode(e).None? <==> e in VersionTwoMissing()
  {
  }

  lemma VersionTwoCodeMissing(e: Element)
    ensures VersionTwoCode(e).None? <==> e in VersionTwoMissing()
  {
    var i := Ordinal(e);
    if i < 13 { VersionTwoCodeMissing0(e); }
    else if i < 26 { VersionTwoCodeMissing13(e); }
    else if i < 39 { VersionTwoCodeMissing26(e); }
    else { VersionTwoCodeMissing39(e); }
  }

  lemma VersionTwoCodeKept(e: Element)
    ensures VersionTwoCode(e).Some? ==> VersionTwoCode(e) == BaseCode(e)
  {
  }

  /** Version 2 carries every element but the 19 it lacks. */
  lemma VersionTwoTableKeys()
    ensures VersionTwoTable().Keys == AllElements() - VersionTwoMissing()
  {
    forall e ensures e in VersionTwoTable() <==> e in AllElements() - VersionTwoMissing() {
      VersionTwoCodeMissing(e);
      InAllElements(e);
    }
  }

  /** Version 2 carries 33 elements. */
  lemma VersionTwoTableSize()
    ensures |VersionTwoTable()| == 33
  {
    VersionTwoTableKeys();
    VersionTwoMissingSize();
    SizeFromMissing(VersionTwoTable(), VersionTwoMissing());
  }

  /** Version 2 keeps every element under its base identifier. */
  lemma VersionTwoTableKeepsBase()
    ensures KeepsBaseCodes(VersionTwoTable())
    ensures Injective(VersionTwoTable()) && ThreeLetterCodes(VersionTwoTable())
  {
    forall e | e in VersionTwoTable()
      ensures e in BaseTable() && VersionTwoTable()[e] == BaseTable()[e]
    {
      VersionTwoCodeKept(e);
    }
    KeepsBaseCodesShape(VersionTwoTable());
  }

  lemma VersionThreeCodeExtends(e: Element)
    ensures VersionThreeCode(e) ==
              if e == LastNameAlias then Some("DBN")
              else if e == GivenNameAlias then Some("DBG")
              else VersionTwoCode(e)
  {
  }

  lemma VersionThreeCodeKept(e: Element)
    ensures VersionThreeCode(e).Some? ==> VersionThreeCode(e) == BaseCode(e)
  {
  }

  /** Version 3 is version 2 plus the last-name alias and the given-name alias
      under their base identifiers. */
  lemma VersionThreeTableExtends()
    ensures VersionThreeTable() == VersionTwoTable()[LastNameAlias := "DBN"][GivenNameAlias := "DBG"]
  {
    var extended := VersionTwoTable()[LastNameAlias := "DBN"][GivenNameAlias := "DBG"];
    forall e
      ensures e in VersionThreeTable() <==> e in extended
      ensures e in VersionThreeTable() ==> VersionThreeTable()[e] == extended[e]
    {
      VersionThreeCodeExtends(e);
    }
    assert VersionThreeTable() == extended;
  }

  lemma VersionThreeCodeMissing0(e: Element)
    requires 0 <= Ordinal(e) < 13
    ensures VersionThreeCode(e).None? <==> e in VersionThreeMissing()
  {
  }

  lemma VersionThreeCodeMissing13(e: Element)
    requires 13 <= Ordinal(e) < 26
    ensures VersionThreeCode(e).None? <==> e in VersionThreeMissing()
  {
  }

  lemma VersionThreeCodeMissing26(e: Element)
    requires 26 <= Ordinal(e) < 39
    ensures VersionThreeCode(e).None? <==> e in VersionThreeMissing()
  {
  }

  lemma VersionThreeCodeMissing39(e: Element)
    requires 39 <= Ordinal(e) < 52
    ensures VersionThreeCode(e).None? <==> e in VersionThreeMissing()
  {
  }

  lemma VersionThreeCodeMissing(e: Element)
    ensures VersionThreeCode(e).None? <==> e in VersionThreeMissing()
  {
    var i := Ordinal(e);
    if i < 13 { VersionThreeCodeMissing0(e); }
    else if i < 26 { VersionThreeCodeMissing13(e); }
    else if i < 39 { VersionThreeCodeMissing26(e); }
    else { VersionThreeCodeMissing39(e); }
  }

  /** Version 3 carries every element but the 17 it lacks. */
  lemma VersionThreeTableKeys()
    ensures VersionThreeTable().Keys == AllElements() - VersionThreeMissing()
  {
    forall e ensures e in VersionThreeTable() <==> e in AllElements() - VersionThreeMissing() {
      VersionThreeCodeMissing(e);
      InAllElements(e);
    }
  }

  /** Version 3 carries 35 elements. */
  lemma VersionThreeTableSize()
    ensures |VersionThreeTable()| == 35
  {
    VersionThreeTableExtends();
    VersionTwoTableSize();
    VersionTwoCodeMissing(LastNameAlias);
    VersionTwoCodeMissing(GivenNameAlias);
    var m := VersionTwoTable()[LastNameAlias := "DBN"];
    assert |m| == 34;
    assert GivenNameAlias !in m;
  }

  /** Version 3 keeps the base identifiers. */
  lemma VersionThreeTableKeepsBase()
    ensures KeepsBaseCodes(VersionThreeTable())
    ensures Injective(VersionThreeTable()) && ThreeLetterCodes(VersionThreeTable())
  {
    forall e | e in VersionThreeTable()
      ensures e in BaseTable() && VersionThreeTable()[e] == BaseTable()[e]
    {
      VersionThreeCodeKept(e);
    }
    KeepsBaseCodesShape(VersionThreeTable());
  }

  lemma VersionSevenCodeReduces(e: Element)
    ensures VersionSevenCode(e) ==
              if e in {FederalVehicleCode, DriverLicenseName, GivenName} then None else BaseCode(e)
  {
  }

  /** Versions 7 to 9 carry the base table without the federal vehicle code,
      the driver licence name and the given name. */
  lemma VersionSevenTableReduces()
    ensures VersionSevenTable() == BaseTable() - {FederalVehicleCode, DriverLicenseName, GivenName}
  {
    var reduced := BaseTable() - {FederalVehicleCode, DriverLicenseName, GivenName};
    forall e
      ensures e in VersionSevenTable() <==> e in reduced
      ensures e in VersionSevenTable() ==> VersionSevenTable()[e] == reduced[e]
    {
      VersionSevenCodeReduces(e);
    }
    assert VersionSevenTable() == reduced;
  }

  /** Versions 7 to 9 carry every element but the six they lack. */
  lemma VersionSevenTableKeys()
    ensures VersionSevenTable().Keys == AllElements() - VersionSevenMissing()
  {
    forall e ensures e in VersionSevenTable() <==> e in AllElements() - VersionSevenMissing() {
      VersionSevenCodeReduces(e);
      BaseCodeMissing(e);
      InAllElements(e);
    }
  }

  /** Versions 7 to 9 carry 46 elements. */
  lemma VersionSevenTableSize()
    ensures |VersionSevenTable()| == 46
  {
    VersionSevenTableKeys();
    LaterMissingSizes();
    SizeFromMissing(VersionSevenTable(), VersionSevenMissing());
  }

  /** Versions 7 to 9 keep the base identifiers. */
  lemma VersionSevenTableKeepsBase()
    ensures KeepsBaseCodes(VersionSevenTable())
    ensures Injective(VersionSevenTable()) && ThreeLetterCodes(VersionSevenTable())
  {
    VersionSevenTableReduces();
    KeepsBaseCodesShape(VersionSevenTable());
  }

  lemma VersionSixCodeReduces(e: Element)
    ensures VersionSixCode(e) == if e == IsVeteran then None else VersionSevenCode(e)
  {
  }

  /** Version 6 is the version 7 table without the veteran flag. */
  lemma VersionSixTableReduces()
    ensures VersionSixTable() == VersionSevenTable() - {IsVeteran}
  {
    var reduced := VersionSevenTable() - {IsVeteran};
    forall e
      ensures e in VersionSixTable() <==> e in reduced
      ensures e in VersionSixTable() ==> VersionSixTable()[e] == reduced[e]
    {
      VersionSixCodeReduces(e);
    }
    assert VersionSixTable() == reduced;
  }

  /** Version 6 carries every element but the seven it lacks. */
  lemma VersionSixTableKeys()
    ensures VersionSixTable().Keys == AllElements() - VersionSixMissing()
  {
    forall e ensures e in VersionSixTable() <==> e in AllElements() - VersionSixMissing() {
      VersionSixCodeReduces(e);
      VersionSevenCodeReduces(e);
      BaseCodeMissing(e);
      InAllElements(e);
    }
  }

  /** Version 6 carries 45 elements. */
  lemma VersionSixTableSize()
    ensures |VersionSixTable()| == 45
  {
    VersionSixTableKeys();
    LaterMissingSizes();
    SizeFromMissing(VersionSixTable(), VersionSixMissing());
  }

  /** Version 6 keeps the base identifiers. */
  lemma VersionSixTableKeepsBase()
    ensures KeepsBaseCodes(VersionSixTable())
    ensures Injective(VersionSixTable()) && ThreeLetterCodes(VersionSixTable())
  {
    VersionSixTableReduces();
    VersionSevenTableKeepsBase();
    KeepsBaseCodesShape(VersionSixTable());
  }

  lemma VersionFiveCodeReduces(e: Element)
    ensures VersionFiveCode(e) == if e == IsOrganDonor then None else VersionSixCode(e)
  {
  }

  /** Version 5 is the version 6 table without the organ-donor flag. */
  lemma VersionFiveTableReduces()
    ensures VersionFiveTable() == VersionSixTable() - {IsOrganDonor}
  {
    var reduced := VersionSixTable() - {IsOrganDonor};
    forall e
      ensures e in VersionFiveTable() <==> e in reduced
      ensures e in VersionFiveTable() ==> VersionFiveTable()[e] == reduced[e]
    {
      VersionFiveCodeReduces(e);
    }
    assert VersionFiveTable() == reduced;
  }

  /** Version 5 carries every element but the eight it lacks. */
  lemma VersionFiveTableKeys()
    ensures VersionFiveTable().Keys == AllElements() - VersionFiveMissing()
  {
    forall e ensures e in VersionFiveTable() <==> e in AllElements() - VersionFiveMissing() {
      VersionFiveCodeReduces(e);
      VersionSixCodeReduces(e);
      VersionSevenCodeReduces(e);
      BaseCodeMissing(e);
      InAllElements(e);
    }
  }

  /** Version 5 carries 44 elements. */
  lemma VersionFiveTableSize()
    ensures |VersionFiveTable()| == 44
  {
    VersionFiveTableKeys();
    LaterMissingSizes();
    SizeFromMissing(VersionFiveTable(), VersionFiveMissing());
  }

  /** Version 5 keeps the base identifiers. */
  lemma VersionFiveTableKeepsBase()
    ensures KeepsBaseCodes(VersionFiveTable())
    ensures Injective(VersionFiveTable()) && ThreeLetterCodes(VersionFiveTable())
  {
    VersionFiveTableReduces();
    VersionSixTableKeepsBase();
    KeepsBaseCodesShape(VersionFiveTable());
  }
}
