/**
 * The acceptance conditions of the finance manager's three input validators.
 *
 * The validators re-prompt until a line is accepted; here each takes one line
 * that has already been parsed (None stands for a line the number parser
 * rejects) and says whether it is accepted and what is returned.
 */
module Validation {
  import opened Wrappers

  /** The characters that Java's `String.trim` strips: code points up to the
      space character. */
  predicate IsTrimSpace(c: char)
  {
    c <= ' '
  }

  /** Every character at an index in [lo, hi) is strippable. */
  predicate TrimmedBetween(s: string, lo: int, hi: int)
    requires 0 <= lo && hi <= |s|
  {
    forall k :: lo <= k < hi ==> IsTrimSpace(s[k])
  }

  /** Drops the strippable characters at the front. */
  function TrimStart(s: string): (r: string)
    ensures |r| <= |s| && r == s[|s| - |r|..]
    ensures TrimmedBetween(s, 0, |s| - |r|)
    ensures r == [] || !IsTrimSpace(r[0])
  {
    if s != [] && IsTrimSpace(s[0]) then TrimStart(s[1..]) else s
  }

  /** Drops the strippable characters at the back. */
  function TrimEnd(s: string): (r: string)
    ensures |r| <= |s| && r == s[..|r|]
    ensures TrimmedBetween(s, |r|, |s|)
    ensures r == [] || !IsTrimSpace(r[|r| - 1])
  {
    if s != [] && IsTrimSpace(s[|s| - 1]) then TrimEnd(s[..|s| - 1]) else s
  }

  /** Java's `String.trim`. */
  function Trim(s: string): string
  {
    TrimEnd(TrimStart(s))
  }

  /** How many characters trim drops at the front. */
  function TrimOffset(s: string): (i: nat)
    ensures i <= |s|
  {
    |s| - |TrimStart(s)|
  }

  /** What trim keeps is the slice of the line that starts after the leading
      strippable characters, and everything it drops is strippable. */
  lemma TrimSlice(s: string)
    ensures TrimOffset(s) + |Trim(s)| <= |s|
    ensures Trim(s) == s[TrimOffset(s)..TrimOffset(s) + |Trim(s)|]
    ensures TrimmedBetween(s, 0, TrimOffset(s))
    ensures TrimmedBetween(s, TrimOffset(s) + |Trim(s)|, |s|)
  {
    var l := TrimStart(s);
    var r := TrimEnd(l);
    var i := |s| - |l|;
    PrefixOfSuffix(s, i, |r|);
    forall k | i + |r| <= k < |s| ensures IsTrimSpace(s[k]) {
      assert s[k] == l[k - i];
    }
  }

  /** Taking n characters after dropping i is the slice from i to i + n. */
  lemma PrefixOfSuffix(s: string, i: nat, n: nat)
    requires i + n <= |s|
    ensures s[i..][..n] == s[i..i + n]
  {
  }

  /** The trimmed line neither starts nor ends with a strippable character. */
  lemma TrimEdges(s: string)
    ensures Trim(s) == [] || (!IsTrimSpace(Trim(s)[0]) && !IsTrimSpace(Trim(s)[|Trim(s)| - 1]))
  {
    var l := TrimStart(s);
    var r := TrimEnd(l);
    if r != [] {
      assert r[0] == l[0];
    }
  }

  /** Trimming twice is trimming once. */
  lemma TrimIdempotent(s: string)
    ensures Trim(Trim(s)) == Trim(s)
  {
    var r := Trim(s);
    TrimEdges(s);
    assert TrimStart(r) == r;
    assert TrimEnd(r) == r;
  }

  /** `getValidIntInput(min, max)` accepts exactly the parsed numbers in the
      inclusive range. */
  predicate IntAccepted(x: int, min: int, max: int)
  {
    min <= x && x <= max
  }

  function AcceptInt(parsed: Option<int>, min: int, max: int): (r: Option<int>)
    ensures r.Some? <==> parsed.Some? && min <= parsed.value <= max
    ensures r.Some? ==> r == parsed
  {
    match parsed
    case None => None
    case Some(x) => if IntAccepted(x, min, max) then Some(x) else None
  }

  /** `getValidDoubleInput` accepts exactly the positive amounts. */
  predicate AmountAccepted(x: real)
  {
    x > 0.0
  }

  function AcceptAmount(parsed: Option<real>): (r: Option<real>)
    ensures r.Some? <==> parsed.Some? && parsed.value > 0.0
    ensures r.Some? ==> r == parsed
  {
    match parsed
    case None => None
    case Some(x) => if AmountAccepted(x) then Some(x) else None
  }

  predicate IsDigit(c: char)
  {
    '0' <= c <= '9'
  }

  /** Java's `s.matches("\\d+")`: one or more ASCII digits and nothing else. */
  predicate MatchesDigits(s: string)
  {
    |s| >= 1 && forall i :: 0 <= i < |s| ==> IsDigit(s[i])
  }

  /** The condition `getValidDescription` puts on the trimmed line. */
  predicate DescriptionAccepted(d: string)
  {
    d != [] && !MatchesDigits(d)
  }

  /** What `getValidDescription` returns: a trimmed, accepted line. */
  predicate IsDescription(d: string)
  {
    d == Trim(d) && DescriptionAccepted(d)
  }

  /** Trims the line and returns it when accepted. */
  function AcceptDescription(line: string): (r: Option<string>)
    ensures r.Some? <==> DescriptionAccepted(Trim(line))
    ensures r.Some? ==> r.value == Trim(line) && IsDescription(r.value)
  {
    TrimIdempotent(line);
    var d := Trim(line);
    if DescriptionAccepted(d) then Some(d) else None
  }

  /** A description is accepted exactly when it holds some character that is
      not a digit. */
  lemma DescriptionAcceptedIffNonDigit(d: string)
    ensures DescriptionAccepted(d) <==> exists i :: 0 <= i < |d| && !IsDigit(d[i])
  {
    if DescriptionAccepted(d) {
      assert !MatchesDigits(d);
    }
  }

  /** An accepted description is accepted again as it stands. */
  lemma AcceptDescriptionStable(line: string)
    requires AcceptDescription(line).Some?
    ensures AcceptDescription(AcceptDescription(line).value) == AcceptDescription(line)
  {
    TrimIdempotent(line);
  }
}
