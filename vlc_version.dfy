/** The VLC version check of `MediaPlayerVlc`: the engine reports a text such as
    "3.0.11.1 Vetinari"; the version is the dotted number at its head, and a
    version whose major number is below 3 is refused. */
module VlcVersion {
  import opened Results

  datatype VersionError = VersionNotFound | VlcTooOld(found: seq<nat>)

  /** The major number that the player requires at least. */
  const MinimumMajor: nat := 3

  predicate IsDigit(c: char) { '0' <= c <= '9' }

  function DigitValue(c: char): nat
    requires IsDigit(c)
  {
    (c as int - '0' as int) as nat
  }

  /** Number of digits at the head of `s`. */
  function LeadingDigits(s: string): (n: nat)
    ensures n <= |s|
    ensures forall i :: 0 <= i < n ==> IsDigit(s[i])
    ensures n < |s| ==> !IsDigit(s[n])
  {
    if |s| > 0 && IsDigit(s[0]) then 1 + LeadingDigits(s[1..]) else 0
  }

  /** Decimal value of a run of digits. */
  function DigitsValue(d: string): nat
    requires forall i :: 0 <= i < |d| ==> IsDigit(d[i])
  {
    if |d| == 0 then 0 else 10 * DigitsValue(d[..|d| - 1]) + DigitValue(d[|d| - 1])
  }

  /** The components of the dotted number at the head of `s`: a run of digits,
      then as long as a dot is followed by a digit, one more run. */
  function ParseComponents(s: string): (v: seq<nat>)
    requires |s| > 0 && IsDigit(s[0])
    ensures |v| >= 1
    decreases |s|
  {
    var n := LeadingDigits(s);
    var c := DigitsValue(s[..n]);
    if n + 1 < |s| && s[n] == '.' && IsDigit(s[n + 1]) then [c] + ParseComponents(s[n + 1..])
    else [c]
  }

  /** get_version: the leading dotted number of the engine's version text, or
      VersionNotFound when the text does not start with a digit. */
  function ParseVersion(s: string): (r: Result<seq<nat>, VersionError>)
    ensures r.Success? <==> |s| > 0 && IsDigit(s[0])
    ensures r.Failure? ==> r.error == VersionNotFound
    ensures r.Success? ==> |r.value| >= 1
  {
    if |s| > 0 && IsDigit(s[0]) then Success(ParseComponents(s)) else Failure(VersionNotFound)
  }

  /** check_version: a version whose major number is below 3 is too old. */
  function CheckVersion(v: seq<nat>): (r: Result<seq<nat>, VersionError>)
    requires |v| >= 1
    ensures r.Success? ==> r.value == v && v[0] >= MinimumMajor
    ensures r.Failure? ==> r.error == VlcTooOld(v) && v[0] < MinimumMajor
  {
    if v[0] < MinimumMajor then Failure(VlcTooOld(v)) else Success(v)
  }

  /** The whole startup check: parse the engine's text, then compare. */
  function CheckEngineVersion(s: string): (r: Result<seq<nat>, VersionError>)
    ensures r.Success? ==> ParseVersion(s) == r && r.value[0] >= MinimumMajor
    ensures r == Failure(VersionNotFound) <==> ParseVersion(s).Failure?
  {
    match ParseVersion(s)
    case Failure(e) => Failure(e)
    case Success(v) => CheckVersion(v)
  }

  // ---------------------------------------------------------------------------
  // Comparison of release numbers as the packaging library does it: component by
  // component, a missing component counting as zero.

  function At(v: seq<nat>, i: nat): nat { if i < |v| then v[i] else 0 }

  predicate VersionLess(a: seq<nat>, b: seq<nat>)
    decreases |a| + |b|
  {
    if |a| == 0 && |b| == 0 then false
    else if At(a, 0) != At(b, 0) then At(a, 0) < At(b, 0)
    else VersionLess(if |a| == 0 then [] else a[1..], if |b| == 0 then [] else b[1..])
  }

  /** No release number is below an all-zero one. */
  lemma {:induction false} NotLessThanZeros(a: seq<nat>, z: seq<nat>)
    requires forall i :: 0 <= i < |z| ==> z[i] == 0
    ensures !VersionLess(a, z)
    decreases |a| + |z|
  {
    if |a| == 0 && |z| == 0 {
    } else if At(a, 0) != At(z, 0) {
      assert At(z, 0) == 0;
    } else {
      var z' := if |z| == 0 then [] else z[1..];
      assert forall i :: 0 <= i < |z'| ==> z'[i] == z[i + 1];
      NotLessThanZeros(if |a| == 0 then [] else a[1..], z');
    }
  }

  /** Refusing a major number below 3 is the same as refusing every version
      that compares below 3.0.0. */
  lemma CheckVersionIsComparison(v: seq<nat>)
    requires |v| >= 1
    ensures CheckVersion(v).Failure? <==> VersionLess(v, [3, 0, 0])
  {
    if v[0] == 3 {
      NotLessThanZeros(v[1..], [0, 0]);
    }
  }

  // ---------------------------------------------------------------------------
  // Writing a version back as text, and the round trip with ParseVersion.

  function DigitChar(d: nat): (c: char)
    requires d < 10
    ensures IsDigit(c) && DigitValue(c) == d
  {
    ('0' as int + d) as char
  }

  function NatToDigits(n: nat): (s: string)
    ensures |s| >= 1
    ensures forall i :: 0 <= i < |s| ==> IsDigit(s[i])
  {
    if n < 10 then [DigitChar(n)] else NatToDigits(n / 10) + [DigitChar(n % 10)]
  }

  function FormatVersion(v: seq<nat>): (s: string)
    requires |v| >= 1
    ensures |s| > 0 && IsDigit(s[0])
  {
    if |v| == 1 then NatToDigits(v[0]) else NatToDigits(v[0]) + "." + FormatVersion(v[1..])
  }

  lemma {:induction false} DigitsValueOfNat(n: nat)
    ensures DigitsValue(NatToDigits(n)) == n
  {
    var s := NatToDigits(n);
    if n >= 10 {
      DigitsValueOfNat(n / 10);
      assert s[..|s| - 1] == NatToDigits(n / 10);
    }
  }

  lemma {:induction false} LeadingDigitsOfPrefix(d: string, rest: string)
    requires forall i :: 0 <= i < |d| ==> IsDigit(d[i])
    requires |rest| > 0 ==> !IsDigit(rest[0])
    ensures LeadingDigits(d + rest) == |d|
  {
    if |d| > 0 {
      assert (d + rest)[1..] == d[1..] + rest;
      LeadingDigitsOfPrefix(d[1..], rest);
    }
  }

  /** A text that may follow a version without being read as part of it. */
  predicate IsVersionSuffix(rest: string)
  {
    (|rest| > 0 ==> !IsDigit(rest[0])) && !(|rest| > 1 && rest[0] == '.' && IsDigit(rest[1]))
  }

  /** Parsing a formatted version, followed by any suffix that does not extend
      it (such as a code name after a space), gives the version back. */
  lemma {:induction false} ParseFormatRoundTrip(v: seq<nat>, rest: string)
    requires |v| >= 1
    requires IsVersionSuffix(rest)
    ensures ParseVersion(FormatVersion(v) + rest) == Success(v)
  {
    ParseComponentsFormat(v, rest);
  }

  lemma {:induction false} ParseComponentsFormat(v: seq<nat>, rest: string)
    requires |v| >= 1
    requires IsVersionSuffix(rest)
    ensures |FormatVersion(v) + rest| > 0 && IsDigit((FormatVersion(v) + rest)[0])
    ensures ParseComponents(FormatVersion(v) + rest) == v
    decreases |v|
  {
    var d := NatToDigits(v[0]);
    DigitsValueOfNat(v[0]);
    if |v| == 1 {
      assert FormatVersion(v) + rest == d + rest;
      LastComponent(d, rest);
    } else {
      var tail := FormatVersion(v[1..]) + rest;
      assert FormatVersion(v) + rest == d + "." + tail;
      ParseComponentsFormat(v[1..], rest);
      NextComponent(d, tail);
    }
  }

  /** A run of digits followed by a suffix that does not extend it is the last component. */
  lemma LastComponent(d: string, rest: string)
    requires |d| > 0 && forall i :: 0 <= i < |d| ==> IsDigit(d[i])
    requires IsVersionSuffix(rest)
    ensures ParseComponents(d + rest) == [DigitsValue(d)]
  {
    var s := d + rest;
    LeadingDigitsOfPrefix(d, rest);
    assert s[..|d|] == d;
    if |d| + 1 < |s| {
      assert s[|d|] == rest[0] && s[|d| + 1] == rest[1];
    }
  }

  /** A run of digits followed by a dot and a digit is one component among several. */
  lemma NextComponent(d: string, tail: string)
    requires |d| > 0 && forall i :: 0 <= i < |d| ==> IsDigit(d[i])
    requires |tail| > 0 && IsDigit(tail[0])
    ensures ParseComponents(d + "." + tail) == [DigitsValue(d)] + ParseComponents(tail)
  {
    var s := d + "." + tail;
    LeadingDigitsOfPrefix(d, "." + tail);
    assert s == d + ("." + tail);
    assert s[..|d|] == d;
    assert s[|d|] == '.' && s[|d| + 1] == tail[0];
    assert s[|d| + 1..] == tail;
  }

  /** The engine text of the tests: "3.0.11.1 Vetinari" reads as 3.0.11.1. */
  lemma LongVersionWithCodeName()
    ensures ParseVersion("3.0.11.1 Vetinari") == Success([3, 0, 11, 1])
    ensures CheckEngineVersion("3.0.11.1 Vetinari").Success?
  {
    assert FormatVersion([3, 0, 11, 1]) + " Vetinari" == "3.0.11.1 Vetinari";
    ParseFormatRoundTrip([3, 0, 11, 1], " Vetinari");
  }

  /** "none" carries no version; 2.0.0 is too old and 3.0.0 is accepted. */
  lemma VersionExamples()
    ensures ParseVersion("none") == Failure(VersionNotFound)
    ensures CheckVersion([2, 0, 0]) == Failure(VlcTooOld([2, 0, 0]))
    ensures CheckVersion([3, 0, 0]) == Success([3, 0, 0])
  {
  }
}
