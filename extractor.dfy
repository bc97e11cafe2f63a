/** The field extractor: the pattern `CODE(.+)\b` searched for in the barcode
    text, stated directly on sequences. A match at index i is the code, then at
    least one character that is not a line terminator, ending at a word
    boundary; the search takes the leftmost index with a match and, there, the
    longest match (greedy `.+` backtracking to the last boundary). */
module Extractor {
  import opened Wrappers
  import opened Text
  import opened Elements

  /** The index of the first line terminator at or after k, or the end. */
  function LineEnd(data: string, k: nat): (e: nat)
    requires k <= |data|
    ensures k <= e <= |data|
    ensures e < |data| ==> IsLineTerminator(data[e])
    ensures forall j :: k <= j < e ==> !IsLineTerminator(data[j])
    decreases |data| - k
  {
    if k == |data| || IsLineTerminator(data[k]) then k else LineEnd(data, k + 1)
  }

  /** A word character just before position p. */
  predicate WordBefore(data: string, p: nat)
    requires p <= |data|
  {
    p > 0 && IsWordChar(data[p - 1])
  }

  /** A word character at position p. */
  predicate WordAt(data: string, p: nat)
    requires p <= |data|
  {
    p < |data| && IsWordChar(data[p])
  }

  /** `\b` at position p: a word character on exactly one side. */
  predicate IsBoundary(data: string, p: nat)
    requires p <= |data|
  {
    WordBefore(data, p) != WordAt(data, p)
  }

  /** The pattern `CODE(.+)\b` matches data[i..end]. */
  predicate Matches(data: string, code: string, i: nat, end: nat) {
    OccursAt(data, code, i) && i + |code| < end <= |data|
    && (forall j :: i + |code| <= j < end ==> !IsLineTerminator(data[j]))
    && IsBoundary(data, end)
  }

  /** The largest boundary in (lo, hi]. */
  function LastBoundary(data: string, lo: nat, hi: nat): (r: Option<nat>)
    requires lo <= hi <= |data|
    ensures r.Some? ==> lo < r.value <= hi && IsBoundary(data, r.value)
    ensures r.Some? ==> forall q :: r.value < q <= hi ==> !IsBoundary(data, q)
    ensures r.None? ==> forall q :: lo < q <= hi ==> !IsBoundary(data, q)
    decreases hi - lo
  {
    if hi == lo then None
    else if IsBoundary(data, hi) then Some(hi)
    else LastBoundary(data, lo, hi - 1)
  }

  /** The end of the greedy match that starts at i, if any. */
  function MatchEnd(data: string, code: string, i: nat): (r: Option<nat>)
    ensures r.Some? ==> Matches(data, code, i, r.value)
    ensures r.Some? ==> forall end: nat :: Matches(data, code, i, end) ==> end <= r.value
    ensures r.None? ==> forall end: nat :: !Matches(data, code, i, end)
  {
    if !OccursAt(data, code, i) then None
    else
      var start := i + |code|;
      var lineEnd := LineEnd(data, start);
      var r := LastBoundary(data, start, lineEnd);
      assert forall end: nat :: Matches(data, code, i, end) ==> end <= lineEnd;
      r
  }

  /** The leftmost index at or after `from` where a match starts, with the end
      of that match. */
  function FindMatch(data: string, code: string, from: nat): (r: Option<(nat, nat)>)
    ensures r.Some? ==> from <= r.value.0 && MatchEnd(data, code, r.value.0) == Some(r.value.1)
    ensures r.Some? ==> forall j: nat :: from <= j < r.value.0 ==> MatchEnd(data, code, j).None?
    ensures r.None? ==> forall j: nat :: from <= j ==> MatchEnd(data, code, j).None?
    decreases |data| - from
  {
    if from >= |data| then
      assert forall j: nat :: from <= j ==> !OccursAt(data, code, j) || |code| == 0;
      None
    else
      match MatchEnd(data, code, from)
      case Some(end) => Some((from, end))
      case None => FindMatch(data, code, from + 1)
  }

  /** `parseString`: the text after the code of `key` in the leftmost match,
      or nothing when the active table has no code for `key` or the pattern
      does not match. */
  function ParseString(fields: map<Element, string>, data: string, key: Element): (r: Option<string>)
    ensures key !in fields ==> r.None?
    ensures r.Some? ==> |r.value| > 0 && forall k :: 0 <= k < |r.value| ==> !IsLineTerminator(r.value[k])
    ensures r.Some? ==> exists i :: OccursAt(data, fields[key] + r.value, i)
    ensures key in fields && r.None? ==> forall i: nat, end: nat :: !Matches(data, fields[key], i, end)
  {
    if key !in fields then None
    else
      var code := fields[key];
      match FindMatch(data, code, 0)
      case None =>
        assert forall i: nat, end: nat :: !Matches(data, code, i, end) by {
          forall i: nat, end: nat ensures !Matches(data, code, i, end) {
            assert MatchEnd(data, code, i).None?;
          }
        }
        None
      case Some((i, end)) =>
        var value := data[i + |code|..end];
        assert data[i..end] == code + value;
        assert OccursAt(data, code + value, i);
        Some(value)
  }

  /** The end of the run of word characters that starts at p. */
  function WordRunEnd(data: string, p: nat): (q: nat)
    requires p <= |data|
    ensures p <= q <= |data|
    ensures forall j :: p <= j < q ==> IsWordChar(data[j])
    ensures q == |data| || !IsWordChar(data[q])
    decreases |data| - p
  {
    if p == |data| || !IsWordChar(data[p]) then p else WordRunEnd(data, p + 1)
  }

  /** A boundary with a word character after it is followed, within a stretch
      that does not end in a word character, by the boundary that ends that
      word. */
  lemma WordEndsAtBoundary(data: string, p: nat, hi: nat)
    requires p <= hi <= |data|
    requires WordAt(data, p) && !WordAt(data, hi)
    ensures p < WordRunEnd(data, p) <= hi && IsBoundary(data, WordRunEnd(data, p))
  {
  }

  /** When no word character follows hi, the last boundary up to hi has a word
      character before it. */
  lemma LastBoundaryAfterWord(data: string, lo: nat, hi: nat)
    requires lo <= hi <= |data|
    requires !WordAt(data, hi)
    requires LastBoundary(data, lo, hi).Some?
    ensures WordBefore(data, LastBoundary(data, lo, hi).value)
  {
    var p := LastBoundary(data, lo, hi).value;
    if !WordBefore(data, p) {
      WordEndsAtBoundary(data, p, hi);
      assert false;
    }
  }

  /** The extracted text ends with a word character. */
  lemma ParseStringEndsInWord(fields: map<Element, string>, data: string, key: Element)
    requires ParseString(fields, data, key).Some?
    ensures var v := ParseString(fields, data, key).value; IsWordChar(v[|v| - 1])
  {
    var code := fields[key];
    var r := FindMatch(data, code, 0);
    var i, end := r.value.0, r.value.1;
    var start := i + |code|;
    var lineEnd := LineEnd(data, start);
    LineTerminatorIsNotWordChar(if lineEnd < |data| then data[lineEnd] else ' ');
    LastBoundaryAfterWord(data, start, lineEnd);
    assert data[start..end][end - start - 1] == data[end - 1];
  }

  /** The line end is the first line terminator. */
  lemma LineEndIs(data: string, k: nat, e: nat)
    requires k <= e <= |data|
    requires e == |data| || IsLineTerminator(data[e])
    requires forall j :: k <= j < e ==> !IsLineTerminator(data[j])
    ensures LineEnd(data, k) == e
  {
  }

  /** The search stops at the first index where a match starts. */
  lemma {:induction false} FindMatchIsLeftmost(data: string, code: string, from: nat, i: nat)
    requires from <= i && MatchEnd(data, code, i).Some?
    requires forall j: nat :: from <= j < i ==> MatchEnd(data, code, j).None?
    ensures FindMatch(data, code, from) == Some((i, MatchEnd(data, code, i).value))
    decreases i - from
  {
    if from < i {
      FindMatchIsLeftmost(data, code, from + 1, i);
    }
  }

  /** A field written as its code followed by a value that ends a line is
      read back exactly, when the code does not occur earlier in the text. */
  lemma ParseStringOfLine(fields: map<Element, string>, key: Element,
                          prefix: string, value: string, rest: string)
    requires key in fields
    requires |value| > 0 && IsWordChar(value[|value| - 1])
    requires forall k :: 0 <= k < |value| ==> !IsLineTerminator(value[k])
    requires rest == [] || IsLineTerminator(rest[0])
    requires forall j :: 0 <= j < |prefix| ==> !OccursAt(prefix + fields[key] + value + rest, fields[key], j)
    ensures ParseString(fields, prefix + fields[key] + value + rest, key) == Some(value)
  {
    var code := fields[key];
    var data := prefix + code + value + rest;
    var i := |prefix|;
    var start := i + |code|;
    var hi := start + |value|;
    assert data[i..start] == code;
    assert data[start..hi] == value;
    assert OccursAt(data, code, i);
    assert forall j :: start <= j < hi ==> data[j] == value[j - start];
    assert hi < |data| ==> data[hi] == rest[0];
    LineTerminatorIsNotWordChar(if hi < |data| then data[hi] else ' ');
    LineEndIs(data, start, hi);
    assert IsBoundary(data, hi);
    assert MatchEnd(data, code, i) == Some(hi);
    forall j: nat | j < i ensures MatchEnd(data, code, j).None? {
      assert !OccursAt(data, code, j);
    }
    FindMatchIsLeftmost(data, code, 0, i);
  }
}
