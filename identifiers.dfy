/**
 * The identifier validators and prefix extractors of the front end's
 * utility module: VIN, VSN and certificate number are fixed-length strings
 * over fixed alphabets, each checked by one anchored regular expression.
 */
module Identifiers {
  import opened Js
  import opened Text

  /** One range `lo-hi` of a regular-expression character class. */
  datatype CharRange = CharRange(lo: char, hi: char)

  predicate InClass(c: char, cls: seq<CharRange>) {
    exists k :: 0 <= k < |cls| && cls[k].lo <= c <= cls[k].hi
  }

  /** `^[cls]{n}$` matched character by character, as a regex engine does. */
  predicate MatchesRepeat(s: string, cls: seq<CharRange>, n: nat)
    decreases |s|
  {
    if s == [] then n == 0
    else n > 0 && InClass(s[0], cls) && MatchesRepeat(s[1..], cls, n - 1)
  }

  /** `^[cls]+$` */
  predicate MatchesPlus(s: string, cls: seq<CharRange>)
    decreases |s|
  {
    s != [] && InClass(s[0], cls) && (|s| == 1 || MatchesPlus(s[1..], cls))
  }

  predicate AllInClass(s: string, cls: seq<CharRange>) {
    forall i :: 0 <= i < |s| ==> InClass(s[i], cls)
  }

  /** The anchored repetition accepts exactly the strings of length n over the class. */
  lemma {:induction false} MatchesRepeatIff(s: string, cls: seq<CharRange>, n: nat)
    ensures MatchesRepeat(s, cls, n) <==> |s| == n && AllInClass(s, cls)
    decreases |s|
  {
    if n > 0 && s != [] {
      MatchesRepeatIff(s[1..], cls, n - 1);
      assert forall i :: 1 <= i < |s| ==> s[1..][i - 1] == s[i];
    }
  }

  /** The anchored `+` accepts exactly the non-empty strings over the class. */
  lemma {:induction false} MatchesPlusIff(s: string, cls: seq<CharRange>)
    ensures MatchesPlus(s, cls) <==> |s| >= 1 && AllInClass(s, cls)
    decreases |s|
  {
    if |s| > 1 {
      MatchesPlusIff(s[1..], cls);
      assert forall i :: 1 <= i < |s| ==> s[1..][i - 1] == s[i];
    }
  }

  /** `[A-HJ-NPR-Z0-9]` */
  const VinClass: seq<CharRange> :=
    [CharRange('A', 'H'), CharRange('J', 'N'), CharRange('P', 'P'), CharRange('R', 'Z'), CharRange('0', '9')]

  /** `[A-Z0-9]` */
  const UpperAlnumClass: seq<CharRange> := [CharRange('A', 'Z'), CharRange('0', '9')]

  /** `\d` */
  const DigitClass: seq<CharRange> := [CharRange('0', '9')]

  /** A VIN character in the sense of ISO 3779: an upper-case letter or digit other than I, O and Q. */
  predicate IsVinChar(c: char) {
    (IsAsciiUpper(c) || IsAsciiDigit(c)) && c != 'I' && c != 'O' && c != 'Q'
  }

  lemma VinClassIsIsoAlphabet(c: char)
    ensures InClass(c, VinClass) <==> IsVinChar(c)
  {
    if IsVinChar(c) {
      if 'A' <= c <= 'H' { assert VinClass[0].lo <= c <= VinClass[0].hi; }
      else if 'J' <= c <= 'N' { assert VinClass[1].lo <= c <= VinClass[1].hi; }
      else if c == 'P' { assert VinClass[2].lo <= c <= VinClass[2].hi; }
      else if 'R' <= c <= 'Z' { assert VinClass[3].lo <= c <= VinClass[3].hi; }
      else { assert VinClass[4].lo <= c <= VinClass[4].hi; }
    }
  }

  lemma UpperAlnumClassIs(c: char)
    ensures InClass(c, UpperAlnumClass) <==> IsAsciiUpper(c) || IsAsciiDigit(c)
  {
    if IsAsciiUpper(c) { assert UpperAlnumClass[0].lo <= c <= UpperAlnumClass[0].hi; }
    if IsAsciiDigit(c) { assert UpperAlnumClass[1].lo <= c <= UpperAlnumClass[1].hi; }
  }

  lemma DigitClassIs(c: char)
    ensures InClass(c, DigitClass) <==> IsAsciiDigit(c)
  {
    if IsAsciiDigit(c) { assert DigitClass[0].lo <= c <= DigitClass[0].hi; }
  }

  /** `validateVIN`: a non-empty string matching `^[A-HJ-NPR-Z0-9]{17}$`. */
  predicate ValidateVin(v: JsValue) {
    Truthy(v) && v.Str? && MatchesRepeat(v.s, VinClass, 17)
  }

  /** `validateVSN`: a non-empty string matching `^[A-Z0-9]{13}$`. */
  predicate ValidateVsn(v: JsValue) {
    Truthy(v) && v.Str? && MatchesRepeat(v.s, UpperAlnumClass, 13)
  }

  /** `validateCertificateNo`: a non-empty string matching `^[A-Z0-9]{14}$`. */
  predicate ValidateCertificateNo(v: JsValue) {
    Truthy(v) && v.Str? && MatchesRepeat(v.s, UpperAlnumClass, 14)
  }

  /** A VIN is valid iff it is a string of 17 ISO 3779 characters; I, O and Q are refused. */
  lemma ValidateVinIff(v: JsValue)
    ensures ValidateVin(v) <==>
      v.Str? && |v.s| == 17 && forall i :: 0 <= i < |v.s| ==> IsVinChar(v.s[i])
  {
    if v.Str? {
      MatchesRepeatIff(v.s, VinClass, 17);
      forall i | 0 <= i < |v.s| { VinClassIsIsoAlphabet(v.s[i]); }
    }
  }

  lemma ValidateVsnIff(v: JsValue)
    ensures ValidateVsn(v) <==>
      v.Str? && |v.s| == 13 && forall i :: 0 <= i < |v.s| ==> IsAsciiUpper(v.s[i]) || IsAsciiDigit(v.s[i])
  {
    if v.Str? {
      MatchesRepeatIff(v.s, UpperAlnumClass, 13);
      forall i | 0 <= i < |v.s| { UpperAlnumClassIs(v.s[i]); }
    }
  }

  lemma ValidateCertificateNoIff(v: JsValue)
    ensures ValidateCertificateNo(v) <==>
      v.Str? && |v.s| == 14 && forall i :: 0 <= i < |v.s| ==> IsAsciiUpper(v.s[i]) || IsAsciiDigit(v.s[i])
  {
    if v.Str? {
      MatchesRepeatIff(v.s, UpperAlnumClass, 14);
      forall i | 0 <= i < |v.s| { UpperAlnumClassIs(v.s[i]); }
    }
  }

  /** Empty and non-string inputs are refused by all three validators. */
  lemma ValidatorsRefuseEmptyAndNonStrings(v: JsValue)
    requires !v.Str? || v.s == ""
    ensures !ValidateVin(v) && !ValidateVsn(v) && !ValidateCertificateNo(v)
  {
  }

  /** No case folding: one lower-case letter makes every validator refuse. */
  lemma ValidatorsRefuseLowerCase(s: string, i: nat)
    requires i < |s| && IsAsciiLower(s[i])
    ensures !ValidateVin(Str(s)) && !ValidateVsn(Str(s)) && !ValidateCertificateNo(Str(s))
  {
    ValidateVinIff(Str(s));
    ValidateVsnIff(Str(s));
    ValidateCertificateNoIff(Str(s));
  }

  /** `getVINPrefix`: the first 8 characters, or "" for a shorter VIN. */
  function VinPrefix(vin: string): (p: string)
    ensures |p| == if |vin| < 8 then 0 else 8
    ensures p <= vin
  {
    if vin == "" || |vin| < 8 then "" else vin[..8]
  }

  /** `getVSNPrefix`: the first 2 characters, or "" for a shorter VSN. */
  function VsnPrefix(vsn: string): (p: string)
    ensures |p| == if |vsn| < 2 then 0 else 2
    ensures p <= vsn
  {
    if vsn == "" || |vsn| < 2 then "" else vsn[..2]
  }

  /** Every valid VIN has a full 8-character prefix, made of VIN characters. */
  lemma ValidVinHasPrefix(vin: string)
    requires ValidateVin(Str(vin))
    ensures |VinPrefix(vin)| == 8 && VinPrefix(vin) == vin[..8]
    ensures forall i :: 0 <= i < 8 ==> IsVinChar(VinPrefix(vin)[i])
  {
    ValidateVinIff(Str(vin));
  }
}
