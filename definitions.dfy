/** `entries.firstOrNull { it.rawValue == rawValue }`, the lookup shared by
    every code enumeration of the barcode. */
module Lookup {
  import opened Wrappers

  /** The first entry whose raw code is s. */
  function FirstWithRaw<T>(entries: seq<T>, raw: T -> string, s: string): (r: Option<T>)
    ensures r.Some? ==> r.value in entries && raw(r.value) == s
    ensures r.None? <==> forall k :: 0 <= k < |entries| ==> raw(entries[k]) != s
  {
    if |entries| == 0 then None
    else if raw(entries[0]) == s then Some(entries[0])
    else
      var r := FirstWithRaw(entries[1..], raw, s);
      assert forall k :: 1 <= k < |entries| ==> entries[k] == entries[1..][k - 1];
      r
  }
}

/** The eye colour codes. */
module EyeColors {
  import opened Wrappers
  import Lookup

  datatype EyeColor = Black | Blue | Brown | Gray | Green | Hazel | Maroon | Pink | Dichromatic {
    /** The code the barcode uses for this value. */
    function RawValue(): (code: string)
      ensures |code| == 3
    {
      match this
      case Black => "BLK"
      case Blue => "BLU"
      case Brown => "BRO"
      case Gray => "GRY"
      case Green => "GRN"
      case Hazel => "HAZ"
      case Maroon => "MAR"
      case Pink => "PNK"
      case Dichromatic => "DIC"
    }
  }

  /** The values in declaration order. */
  const Entries: seq<EyeColor> := [Black, Blue, Brown, Gray, Green, Hazel, Maroon, Pink, Dichromatic]

  /** `of`: the value whose code is rawValue, if any. */
  function Of(rawValue: string): (r: Option<EyeColor>)
    ensures r.Some? ==> r.value.RawValue() == rawValue
  {
    Lookup.FirstWithRaw(Entries, (v: EyeColor) => v.RawValue(), rawValue)
  }

  /** No two values share a code. */
  lemma RawValueInjective(a: EyeColor, b: EyeColor)
    ensures a.RawValue() == b.RawValue() ==> a == b
  {
  }

  /** Every value is found again from its code. */
  lemma OfRawValue(v: EyeColor)
    ensures Of(v.RawValue()) == Some(v)
  {
    assert v in Entries;
    RawValueInjective(Of(v.RawValue()).value, v);
  }

  /** A string that is no value's code finds nothing. */
  lemma OfUnknown(s: string)
    requires forall v: EyeColor :: v.RawValue() != s
    ensures Of(s) == None
  {
  }

  lemma OfRejectsUnknownCode()
    ensures Of("blu") == None
  {
    OfUnknown("blu");
  }

  lemma OfRejectsOtherCode()
    ensures Of("UNK") == None
  {
    OfUnknown("UNK");
  }
}

/** The hair colour codes. */
module HairColors {
  import opened Wrappers
  import Lookup

  datatype HairColor = Bald | Black | Blond | Brown | Grey | Red | Sandy | White {
    /** The code the barcode uses for this value. */
    function RawValue(): (code: string)
      ensures |code| == 3
    {
      match this
      case Bald => "BAL"
      case Black => "BLK"
      case Blond => "BLN"
      case Brown => "BRO"
      case Grey => "GRY"
      case Red => "RED"
      case Sandy => "SDY"
      case White => "WHI"
    }
  }

  /** The values in declaration order. */
  const Entries: seq<HairColor> := [Bald, Black, Blond, Brown, Grey, Red, Sandy, White]

  /** `of`: the value whose code is rawValue, if any. */
  function Of(rawValue: string): (r: Option<HairColor>)
    ensures r.Some? ==> r.value.RawValue() == rawValue
  {
    Lookup.FirstWithRaw(Entries, (v: HairColor) => v.RawValue(), rawValue)
  }

  /** No two values share a code. */
  lemma RawValueInjective(a: HairColor, b: HairColor)
    ensures a.RawValue() == b.RawValue() ==> a == b
  {
  }

  /** Every value is found again from its code. */
  lemma OfRawValue(v: HairColor)
    ensures Of(v.RawValue()) == Some(v)
  {
    assert v in Entries;
    RawValueInjective(Of(v.RawValue()).value, v);
  }

  /** A string that is no value's code finds nothing. */
  lemma OfUnknown(s: string)
    requires forall v: HairColor :: v.RawValue() != s
    ensures Of(s) == None
  {
  }

  lemma OfRejectsUnknownCode()
    ensures Of("UNK") == None
  {
    OfUnknown("UNK");
  }

  lemma OfRejectsOtherCode()
    ensures Of("blk") == None
  {
    OfUnknown("blk");
  }
}

/** The issuing country codes. */
module IssuingCountries {
  import opened Wrappers
  import Lookup

  datatype IssuingCountry = UnitedStates | Canada {
    /** The code the barcode uses for this value. */
    function RawValue(): (code: string)
      ensures |code| == 3
    {
      match this
      case UnitedStates => "USA"
      case Canada => "CAN"
    }
  }

  /** The values in declaration order. */
  const Entries: seq<IssuingCountry> := [UnitedStates, Canada]

  /** `of`: the value whose code is rawValue, if any. */
  function Of(rawValue: string): (r: Option<IssuingCountry>)
    ensures r.Some? ==> r.value.RawValue() == rawValue
  {
    Lookup.FirstWithRaw(Entries, (v: IssuingCountry) => v.RawValue(), rawValue)
  }

  /** No two values share a code. */
  lemma RawValueInjective(a: IssuingCountry, b: IssuingCountry)
    ensures a.RawValue() == b.RawValue() ==> a == b
  {
  }

  /** Every value is found again from its code. */
  lemma OfRawValue(v: IssuingCountry)
    ensures Of(v.RawValue()) == Some(v)
  {
    assert v in Entries;
    RawValueInjective(Of(v.RawValue()).value, v);
  }

  /** A string that is no value's code finds nothing. */
  lemma OfUnknown(s: string)
    requires forall v: IssuingCountry :: v.RawValue() != s
    ensures Of(s) == None
  {
  }

  lemma OfRejectsUnknownCode()
    ensures Of("MEX") == None
  {
    OfUnknown("MEX");
  }

  lemma OfRejectsOtherCode()
    ensures Of("usa") == None
  {
    OfUnknown("usa");
  }
}

/** The name truncation codes. */
module Truncations {
  import opened Wrappers
  import Lookup

  datatype Truncation = Truncated | NotTruncated {
    /** The code the barcode uses for this value. */
    function RawValue(): (code: string)
      ensures |code| == 1
    {
      match this
      case Truncated => "T"
      case NotTruncated => "N"
    }
  }

  /** The values in declaration order. */
  const Entries: seq<Truncation> := [Truncated, NotTruncated]

  /** `of`: the value whose code is rawValue, if any. */
  function Of(rawValue: string): (r: Option<Truncation>)
    ensures r.Some? ==> r.value.RawValue() == rawValue
  {
    Lookup.FirstWithRaw(Entries, (v: Truncation) => v.RawValue(), rawValue)
  }

  /** No two values share a code. */
  lemma RawValueInjective(a: Truncation, b: Truncation)
    ensures a.RawValue() == b.RawValue() ==> a == b
  {
  }

  /** Every value is found again from its code. */
  lemma OfRawValue(v: Truncation)
    ensures Of(v.RawValue()) == Some(v)
  {
    assert v in Entries;
    RawValueInjective(Of(v.RawValue()).value, v);
  }

  /** A string that is no value's code finds nothing. */
  lemma OfUnknown(s: string)
    requires forall v: Truncation :: v.RawValue() != s
    ensures Of(s) == None
  {
  }

  lemma OfRejectsUnknownCode()
    ensures Of("U") == None
  {
    OfUnknown("U");
  }

  lemma OfRejectsOtherCode()
    ensures Of("t") == None
  {
    OfUnknown("t");
  }
}

/** The gender codes. */
module Genders {
  import opened Wrappers
  import Lookup

  datatype Gender = Male | Female {
    /** The code the barcode uses for this value. */
    function RawValue(): (code: string)
      ensures |code| == 1
    {
      match this
      case Male => "1"
      case Female => "2"
    }
  }

  /** The values in declaration order. */
  const Entries: seq<Gender> := [Male, Female]

  /** `of`: the value whose code is rawValue, if any. */
  function Of(rawValue: string): (r: Option<Gender>)
    ensures r.Some? ==> r.value.RawValue() == rawValue
  {
    Lookup.FirstWithRaw(Entries, (v: Gender) => v.RawValue(), rawValue)
  }

  /** No two values share a code. */
  lemma RawValueInjective(a: Gender, b: Gender)
    ensures a.RawValue() == b.RawValue() ==> a == b
  {
  }

  /** Every value is found again from its code. */
  lemma OfRawValue(v: Gender)
    ensures Of(v.RawValue()) == Some(v)
  {
    assert v in Entries;
    RawValueInjective(Of(v.RawValue()).value, v);
  }

  /** A string that is no value's code finds nothing. */
  lemma OfUnknown(s: string)
    requires forall v: Gender :: v.RawValue() != s
    ensures Of(s) == None
  {
  }

  lemma OfRejectsUnknownCode()
    ensures Of("9") == None
  {
    OfUnknown("9");
  }

  lemma OfRejectsOtherCode()
    ensures Of("M") == None
  {
    OfUnknown("M");
  }
}
