/** Version detection: the pattern `\D(\d{6}(\d{2}))` searched for in the
    barcode text. In a conforming header the six digits are the issuer
    identification number and the two that follow are the AAMVA version. */
module VersionDetector {
  import opened Wrappers
  import opened Text

  /** A non-digit at i followed by eight ASCII digits. */
  predicate HeaderAt(data: string, i: nat) {
    i + 9 <= |data| && !IsDigit(data[i]) && AllDigits(data[i + 1..i + 9])
  }

  /** The leftmost index at or after `from` where the pattern matches. */
  function FindHeader(data: string, from: nat): (r: Option<nat>)
    ensures r.Some? ==> from <= r.value && HeaderAt(data, r.value)
    ensures r.Some? ==> forall j: nat :: from <= j < r.value ==> !HeaderAt(data, j)
    ensures r.None? ==> forall j: nat :: from <= j ==> !HeaderAt(data, j)
    decreases |data| - from
  {
    if from + 9 > |data| then None
    else if HeaderAt(data, from) then Some(from)
    else FindHeader(data, from + 1)
  }

  /** `versionNumber`: the last two of the eight digits of the leftmost match,
      as an Int, or nothing when the text has no such run. */
  function VersionNumber(data: string): (v: Option<int>)
    ensures v.Some? ==> 0 <= v.value <= 99
    ensures v.None? <==> forall j: nat :: !HeaderAt(data, j)
    ensures v.Some? ==> FindHeader(data, 0).Some?
    ensures v.Some? ==> var i := FindHeader(data, 0).value; IsDigit(data[i + 7]) && IsDigit(data[i + 8])
    ensures v.Some? ==> var i := FindHeader(data, 0).value;
                        v.value == 10 * DigitValue(data[i + 7]) + DigitValue(data[i + 8])
  {
    match FindHeader(data, 0)
    case None => None
    case Some(i) =>
      var digits := data[i + 7..i + 9];
      assert digits == data[i + 1..i + 9][6..8];
      ToIntOrNullOfTwoDigits(digits);
      assert digits[0] == data[i + 7] && digits[1] == data[i + 8];
      ToIntOrNull(digits)
  }

  /** The search stops at the first index where the pattern matches. */
  lemma {:induction false} FindHeaderIsLeftmost(data: string, from: nat, i: nat)
    requires from <= i && HeaderAt(data, i)
    requires forall j: nat :: from <= j < i ==> !HeaderAt(data, j)
    ensures FindHeader(data, from) == Some(i)
    decreases i - from
  {
    if from < i {
      FindHeaderIsLeftmost(data, from + 1, i);
    }
  }

  /** A header written as non-digits, the six-digit issuer number and the
      two-digit version gives that version back, whatever follows. */
  lemma VersionNumberOfHeader(prefix: string, issuer: string, version: string, rest: string)
    requires |prefix| > 0 && forall k :: 0 <= k < |prefix| ==> !IsDigit(prefix[k])
    requires |issuer| == 6 && AllDigits(issuer)
    requires |version| == 2 && AllDigits(version)
    ensures VersionNumber(prefix + issuer + version + rest)
              == Some(10 * DigitValue(version[0]) + DigitValue(version[1]))
  {
    var data := prefix + issuer + version + rest;
    var i := |prefix| - 1;
    assert data[i + 1..i + 9] == issuer + version;
    assert HeaderAt(data, i);
    forall j: nat | j < i ensures !HeaderAt(data, j) {
      assert data[j + 1] == prefix[j + 1];
    }
    FindHeaderIsLeftmost(data, 0, i);
    assert data[i + 7..i + 9] == version;
    ToIntOrNullOfTwoDigits(version);
  }
}
