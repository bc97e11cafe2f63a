/** The data elements a decoded licence can carry. The declaration order is the
    order of the base field table, followed by the three elements that the base
    table does not list. */
module Elements {

  datatype Element =
    | JurisdictionVehicleClass
    | JurisdictionRestrictionCode
    | JurisdictionEndorsementCode
    | ExpirationDate
    | IssueDate
    | FirstName
    | MiddleName
    | LastName
    | BirthDate
    | Gender
    | EyeColor
    | HeightInches
    | StreetAddress
    | City
    | State
    | PostalCode
    | DriverLicenseNumber
    | UniqueDocumentId
    | Country
    | LastNameTruncation
    | FirstNameTruncation
    | MiddleNameTruncation
    | StreetAddressTwo
    | HairColor
    | PlaceOfBirth
    | AuditInformation
    | InventoryControlNumber
    | LastNameAlias
    | GivenNameAlias
    | Suffix
    | WeightRange
    | Race
    | StandardVehicleCode
    | StandardEndorsementCode
    | StandardRestrictionCode
    | JurisdictionVehicleClassDescription
    | JurisdictionEndorsementCodeDescription
    | JurisdictionRestrictionCodeDescription
    | ComplianceType
    | RevisionDate
    | HazmatExpirationDate
    | WeightPounds
    | WeightKilograms
    | IsTemporaryDocument
    | IsOrganDonor
    | IsVeteran
    | FederalVehicleCode
    | DriverLicenseName
    | GivenName
    | FirstNameAlias
    | SuffixAlias
    | HeightCentimeters

  /** Number of elements. */
  const ElementCount: nat := 52

  /** Position of an element in the declaration order. */
  function Ordinal(e: Element): (i: nat)
    ensures i < ElementCount
  {
    match e
    case JurisdictionVehicleClass => 0
    case JurisdictionRestrictionCode => 1
    case JurisdictionEndorsementCode => 2
    case ExpirationDate => 3
    case IssueDate => 4
    case FirstName => 5
    case MiddleName => 6
    case LastName => 7
    case BirthDate => 8
    case Gender => 9
    case EyeColor => 10
    case HeightInches => 11
    case StreetAddress => 12
    case City => 13
    case State => 14
    case PostalCode => 15
    case DriverLicenseNumber => 16
    case UniqueDocumentId => 17
    case Country => 18
    case LastNameTruncation => 19
    case FirstNameTruncation => 20
    case MiddleNameTruncation => 21
    case StreetAddressTwo => 22
    case HairColor => 23
    case PlaceOfBirth => 24
    case AuditInformation => 25
    case InventoryControlNumber => 26
    case LastNameAlias => 27
    case GivenNameAlias => 28
    case Suffix => 29
    case WeightRange => 30
    case Race => 31
    case StandardVehicleCode => 32
    case StandardEndorsementCode => 33
    case StandardRestrictionCode => 34
    case JurisdictionVehicleClassDescription => 35
    case JurisdictionEndorsementCodeDescription => 36
    case JurisdictionRestrictionCodeDescription => 37
    case ComplianceType => 38
    case RevisionDate => 39
    case HazmatExpirationDate => 40
    case WeightPounds => 41
    case WeightKilograms => 42
    case IsTemporaryDocument => 43
    case IsOrganDonor => 44
    case IsVeteran => 45
    case FederalVehicleCode => 46
    case DriverLicenseName => 47
    case GivenName => 48
    case FirstNameAlias => 49
    case SuffixAlias => 50
    case HeightCentimeters => 51
  }

  /** The element at a position of the declaration order. */
  function ElementAt(i: nat): Element
    requires i < ElementCount
  {
    match i
    case 0 => JurisdictionVehicleClass
    case 1 => JurisdictionRestrictionCode
    case 2 => JurisdictionEndorsementCode
    case 3 => ExpirationDate
    case 4 => IssueDate
    case 5 => FirstName
    case 6 => MiddleName
    case 7 => LastName
    case 8 => BirthDate
    case 9 => Gender
    case 10 => EyeColor
    case 11 => HeightInches
    case 12 => StreetAddress
    case 13 => City
    case 14 => State
    case 15 => PostalCode
    case 16 => DriverLicenseNumber
    case 17 => UniqueDocumentId
    case 18 => Country
    case 19 => LastNameTruncation
    case 20 => FirstNameTruncation
    case 21 => MiddleNameTruncation
    case 22 => StreetAddressTwo
    case 23 => HairColor
    case 24 => PlaceOfBirth
    case 25 => AuditInformation
    case 26 => InventoryControlNumber
    case 27 => LastNameAlias
    case 28 => GivenNameAlias
    case 29 => Suffix
    case 30 => WeightRange
    case 31 => Race
    case 32 => StandardVehicleCode
    case 33 => StandardEndorsementCode
    case 34 => StandardRestrictionCode
    case 35 => JurisdictionVehicleClassDescription
    case 36 => JurisdictionEndorsementCodeDescription
    case 37 => JurisdictionRestrictionCodeDescription
    case 38 => ComplianceType
    case 39 => RevisionDate
    case 40 => HazmatExpirationDate
    case 41 => WeightPounds
    case 42 => WeightKilograms
    case 43 => IsTemporaryDocument
    case 44 => IsOrganDonor
    case 45 => IsVeteran
    case 46 => FederalVehicleCode
    case 47 => DriverLicenseName
    case 48 => GivenName
    case 49 => FirstNameAlias
    case 50 => SuffixAlias
    case _ => HeightCentimeters
  }

  /** The inverse, proved a quarter of the elements at a time. */
  lemma OrdinalInverse0(e: Element)
    requires 0 <= Ordinal(e) < 13
    ensures ElementAt(Ordinal(e)) == e
  {
  }

  lemma OrdinalInverse13(e: Element)
    requires 13 <= Ordinal(e) < 26
    ensures ElementAt(Ordinal(e)) == e
  {
  }

  lemma OrdinalInverse26(e: Element)
    requires 26 <= Ordinal(e) < 39
    ensures ElementAt(Ordinal(e)) == e
  {
  }

  lemma OrdinalInverse39(e: Element)
    requires 39 <= Ordinal(e) < 52
    ensures ElementAt(Ordinal(e)) == e
  {
  }

  lemma OrdinalInverse(e: Element)
    ensures ElementAt(Ordinal(e)) == e
  {
    var i := Ordinal(e);
    if i < 13 { OrdinalInverse0(e); }
    else if i < 26 { OrdinalInverse13(e); }
    else if i < 39 { OrdinalInverse26(e); }
    else { OrdinalInverse39(e); }
  }

  lemma ElementAtInverse(i: nat)
    requires i < ElementCount
    ensures Ordinal(ElementAt(i)) == i
  {
  }

  /** The elements whose ordinal is below n. */
  function Below(n: nat): set<Element> {
    set e: Element | Ordinal(e) < n
  }

  /** Every element. */
  function AllElements(): set<Element> {
    Below(ElementCount)
  }

  lemma InAllElements(e: Element)
    ensures e in AllElements()
  {
  }

  lemma BelowStep(n: nat)
    requires 0 < n <= ElementCount
    ensures Below(n) == Below(n - 1) + {ElementAt(n - 1)}
    ensures ElementAt(n - 1) !in Below(n - 1)
  {
    ElementAtInverse(n - 1);
    forall e ensures e in Below(n) <==> e in Below(n - 1) + {ElementAt(n - 1)} {
      OrdinalInverse(e);
    }
  }

  /** Counting by ordinal: exactly n elements have an ordinal below n. */
  lemma {:induction false} BelowSize(n: nat)
    requires n <= ElementCount
    ensures |Below(n)| == n
  {
    if n > 0 {
      BelowSize(n - 1);
      BelowStep(n);
    }
  }

  lemma AllElementsSize()
    ensures |AllElements()| == ElementCount
  {
    BelowSize(ElementCount);
  }
}
