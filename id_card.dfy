/** The decoded licence record and the questions it answers about its holder. */
module IdCards {
  import opened Wrappers
  import opened Calendar
  import Truncations
  import Genders
  import EyeColors
  import HairColors
  import IssuingCountries

  /** `java.util.Date`: an instant, in milliseconds since the epoch. */
  datatype Date = Date(epochMillis: int)

  /** `Date.compareTo`: instant a is strictly later than instant b. */
  predicate After(a: Date, b: Date) {
    a.epochMillis > b.epochMillis
  }

  /** A name suffix, known here only by the code it was read from. */
  datatype NameSuffix = NameSuffix(rawValue: string)

  /** A weight range, known here only by its number. */
  datatype WeightRange = WeightRange(code: int)

  /** A weight: either a range or a number of pounds. */
  datatype Weight = Weight(range: Option<WeightRange>, pounds: Option<real>)

  /** The decoded licence. Every field is optional except the middle names. */
  datatype IdCard = IdCard(
    firstName: Option<string>,
    middleNames: seq<string>,
    lastName: Option<string>,

    firstNameAlias: Option<string>,
    givenNameAlias: Option<string>,
    lastNameAlias: Option<string>,
    suffixAlias: Option<string>,
    suffix: Option<NameSuffix>,
    firstNameTruncation: Option<Truncations.Truncation>,
    middleNameTruncation: Option<Truncations.Truncation>,
    lastNameTruncation: Option<Truncations.Truncation>,

    expirationDate: Option<Date>,
    issuedDate: Option<Date>,
    birthdate: Option<Date>,
    hazmatExpirationDate: Option<Date>,
    revisionDate: Option<Date>,

    race: Option<string>,
    gender: Option<Genders.Gender>,
    eyeColor: Option<EyeColors.EyeColor>,
    height: Option<real>,
    weight: Option<Weight>,
    hairColor: Option<HairColors.HairColor>,

    placeOfBirth: Option<string>,
    streetAddress: Option<string>,
    streetAddressTwo: Option<string>,
    city: Option<string>,
    state: Option<string>,
    postalCode: Option<string>,
    country: Option<IssuingCountries.IssuingCountry>,

    licenseNumber: Option<string>,
    documentId: Option<string>,
    auditInformation: Option<string>,
    inventoryControlNumber: Option<string>,
    complianceType: Option<string>,
    isOrganDonor: Option<bool>,
    isVeteran: Option<bool>,
    isTemporaryDocument: Option<bool>,

    federalVehicleCode: Option<string>,
    standardVehicleCode: Option<string>,
    standardRestrictionCode: Option<string>,
    standardEndorsementCode: Option<string>,

    jurisdictionVehicleCode: Option<string>,
    jurisdictionRestrictionCode: Option<string>,
    jurisdictionEndorsementCode: Option<string>,

    jurisdictionVehicleDescription: Option<string>,
    jurisdictionRestrictionDescription: Option<string>,
    jurisdictionEndorsementDescription: Option<string>,

    version: Option<int>,
    pdf417Data: Option<string>)
  {
    /** `isExpired`: an expiration date is known and now is past it. */
    predicate IsExpired(now: Date) {
      match expirationDate
      case None => false
      case Some(expiry) => After(now, expiry)
    }

    /** `isIssued`: an issue date is known and now is past it. */
    predicate IsIssued(now: Date) {
      match issuedDate
      case None => false
      case Some(issued) => After(now, issued)
    }

    /** `isAcceptable`: the licence number was read. */
    predicate IsAcceptable() {
      licenseNumber.Some?
    }

    /** The rule `isJuvenile` is evidently meant to follow, with the age
        counted in whole years: a birth date is known and its holder is not
        yet 18 on `today`. The source computes `IsJuvenileAsWritten` instead;
        README.md's "Findings" table says where the two differ. `civil` is
        the calendar view of an instant in the local time zone. */
    predicate IsJuvenile(today: CivilDate, civil: Date -> CivilDate) {
      match birthdate
      case None => false
      case Some(born) => Age(civil(born), today) < 18
    }

    /** `isJuvenile` as the source computes it, comparing days of the year. */
    predicate IsJuvenileAsWritten(today: CivilDate, civil: Date -> CivilDate) {
      match birthdate
      case None => false
      case Some(born) => AgeAsWritten(civil(born), today) < 18
    }
  }

  /** The date on which someone born on `birth` turns n. */
  function Anniversary(birth: CivilDate, n: int): CivilDate {
    CivilDate(birth.year + n, birth.month, birth.day)
  }

  /** Age in whole years on `today`: the year difference, less one while this
      year's birthday is still ahead. */
  function Age(birth: CivilDate, today: CivilDate): (age: int)
    ensures forall n :: age >= n <==> NotAfter(Anniversary(birth, n), today)
  {
    var years := today.year - birth.year;
    if MonthDayBefore(today, birth) then years - 1 else years
  }

  /** The age rule as the source writes it: the year difference, less one
      when today's day of the year is smaller than that of the birth date. */
  function AgeAsWritten(birth: CivilDate, today: CivilDate): (age: int)
    ensures age == today.year - birth.year || age == today.year - birth.year - 1
  {
    var years := today.year - birth.year;
    if DayOfYear(today) < DayOfYear(birth) then years - 1 else years
  }

  /** The day-of-year rule gives the true age whenever the birth year and the
      current year are both leap years or both common years. */
  lemma AgeAsWrittenInYearsOfOneKind(birth: CivilDate, today: CivilDate)
    requires Valid(birth) && Valid(today)
    requires IsLeapYear(birth.year) == IsLeapYear(today.year)
    ensures AgeAsWritten(birth, today) == Age(birth, today)
  {
    DayOfYearOrder(today, birth);
  }

  /** Someone born on 1 March 2008 turns 18 on 1 March 2026, but that day is
      day 60 of 2026 while their birth was day 61 of 2008, so the day-of-year
      rule still counts 17. */
  lemma AgeAsWrittenLagsOnBirthday()
    ensures AgeAsWritten(CivilDate(2008, 3, 1), CivilDate(2026, 3, 1)) == 17
    ensures Age(CivilDate(2008, 3, 1), CivilDate(2026, 3, 1)) == 18
  {
    assert DayOfYear(CivilDate(2026, 3, 1)) == 60;
    assert DayOfYear(CivilDate(2008, 3, 1)) == 61;
  }

  /** The holder's age never goes down as time goes on. */
  lemma AgeGrows(birth: CivilDate, t1: CivilDate, t2: CivilDate)
    requires NotAfter(t1, t2)
    ensures Age(birth, t1) <= Age(birth, t2)
  {
    var n := Age(birth, t1);
    assert NotAfter(Anniversary(birth, n), t1);
  }

  /** A holder is juvenile exactly until their 18th birthday. */
  lemma JuvenileUntilEighteenth(card: IdCard, today: CivilDate, civil: Date -> CivilDate)
    ensures card.IsJuvenile(today, civil) <==>
              (card.birthdate.Some? && !NotAfter(Anniversary(civil(card.birthdate.value), 18), today))
  {
  }

  /** Once a holder is no longer juvenile, they stay so. */
  lemma JuvenileEnds(card: IdCard, t1: CivilDate, t2: CivilDate, civil: Date -> CivilDate)
    requires card.birthdate.Some? && NotAfter(t1, t2)
    ensures !card.IsJuvenile(t1, civil) ==> !card.IsJuvenile(t2, civil)
  {
    AgeGrows(civil(card.birthdate.value), t1, t2);
  }

  /** An expired licence stays expired. */
  lemma ExpiredStaysExpired(card: IdCard, t1: Date, t2: Date)
    requires !After(t1, t2)
    ensures card.IsExpired(t1) ==> card.IsExpired(t2)
  {
  }

  /** An issued licence stays issued. */
  lemma IssuedStaysIssued(card: IdCard, t1: Date, t2: Date)
    requires !After(t1, t2)
    ensures card.IsIssued(t1) ==> card.IsIssued(t2)
  {
  }

  /** A licence without an expiration date is never expired, and one
      without an issue date never counts as issued. */
  lemma MissingDatesNeverHold(card: IdCard, now: Date)
    ensures card.expirationDate.None? ==> !card.IsExpired(now)
    ensures card.issuedDate.None? ==> !card.IsIssued(now)
  {
  }
}
