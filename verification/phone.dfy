/**
 Per-country phone rules of the COD verifier script.

 The script tests the local number against one regular expression per
 country code: `^[6-9]\d{9}$` for +91, `^[2-9]\d{9}$` for +1 and
 `^7\d{9}$` for +44. Each of these is a fixed-length sequence of
 character classes anchored at both ends, so a pattern is modelled as a
 sequence of ranges matched position by position. In JavaScript `\d`
 means the ASCII digits only and `$` (no multiline flag) only matches at
 the very end of the input.
 */
module Phone {
  import Decimal

  /** One bracket or escape class of a regular expression: the chars lo..hi. */
  datatype CharClass = Range(lo: char, hi: char) {
    predicate Accepts(c: char) {
      lo <= c <= hi
    }
  }

  datatype Option<T> = None | Some(value: T)

  const DigitClass: CharClass := Range('0', '9')

  /** `[lead]\d{9}` anchored at both ends. */
  function TenDigitPattern(lead: CharClass): (p: seq<CharClass>)
    ensures |p| == 10 && p[0] == lead
    ensures forall i :: 1 <= i < 10 ==> p[i] == DigitClass
  {
    [lead] + seq(9, _ => DigitClass)
  }

  /** Whole-string match of an anchored sequence of classes. */
  function Matches(p: seq<CharClass>, s: string): bool
    decreases |p|
  {
    if p == [] then s == []
    else s != [] && p[0].Accepts(s[0]) && Matches(p[1..], s[1..])
  }

  /** Matching an anchored class sequence is position-wise acceptance. */
  lemma {:induction false} MatchesIff(p: seq<CharClass>, s: string)
    ensures Matches(p, s) <==> |p| == |s| && forall i :: 0 <= i < |s| ==> p[i].Accepts(s[i])
    decreases |p|
  {
    if p != [] && s != [] {
      MatchesIff(p[1..], s[1..]);
      if |p| == |s| && forall i :: 0 <= i < |s| ==> p[i].Accepts(s[i]) {
        forall i | 0 <= i < |s| - 1
          ensures p[1..][i].Accepts(s[1..][i])
        {
          assert p[i + 1].Accepts(s[i + 1]);
        }
      }
    }
  }

  /** The regular expression the script applies for a country code, if any. */
  function PatternFor(countryCode: string): (r: Option<seq<CharClass>>)
    ensures r.Some? <==> countryCode in RuleCodes
  {
    if countryCode == "+91" then Some(TenDigitPattern(Range('6', '9')))
    else if countryCode == "+1" then Some(TenDigitPattern(Range('2', '9')))
    else if countryCode == "+44" then Some(TenDigitPattern(Range('7', '7')))
    else None
  }

  /** The country codes the validator's switch has a case for. */
  const RuleCodes: set<string> := {"+91", "+1", "+44"}

  /** `validatePhoneInput`'s `isValid`: false unless a case matched. */
  function IsValidPhone(countryCode: string, phone: string): bool {
    match PatternFor(countryCode)
    case Some(p) => Matches(p, phone)
    case None => false
  }

  /** The rule stated without regular expressions: ten ASCII digits, the first in lo..hi. */
  predicate TenDigitsLeading(lo: char, hi: char, phone: string) {
    && |phone| == 10
    && lo <= phone[0] <= hi
    && forall i :: 1 <= i < 10 ==> Decimal.IsDigit(phone[i])
  }

  lemma TenDigitMatch(lo: char, hi: char, phone: string)
    ensures Matches(TenDigitPattern(Range(lo, hi)), phone) <==> TenDigitsLeading(lo, hi, phone)
  {
    MatchesIff(TenDigitPattern(Range(lo, hi)), phone);
  }

  /** Validity per country code, and `false` for every other code. */
  lemma ValidityByCountry(countryCode: string, phone: string)
    ensures countryCode == "+91" ==> (IsValidPhone(countryCode, phone) <==> TenDigitsLeading('6', '9', phone))
    ensures countryCode == "+1" ==> (IsValidPhone(countryCode, phone) <==> TenDigitsLeading('2', '9', phone))
    ensures countryCode == "+44" ==> (IsValidPhone(countryCode, phone) <==> TenDigitsLeading('7', '7', phone))
    ensures countryCode !in RuleCodes ==> !IsValidPhone(countryCode, phone)
  {
    if countryCode == "+91" {
      TenDigitMatch('6', '9', phone);
    } else if countryCode == "+1" {
      TenDigitMatch('2', '9', phone);
    } else if countryCode == "+44" {
      TenDigitMatch('7', '7', phone);
    }
  }

  /** A valid number is always exactly ten ASCII digits long. */
  lemma ValidIsTenDigits(countryCode: string, phone: string)
    requires IsValidPhone(countryCode, phone)
    ensures |phone| == 10 && Decimal.AllDigits(phone)
  {
    var lo, hi := if countryCode == "+91" then '6' else if countryCode == "+1" then '2' else '7',
                  if countryCode == "+44" then '7' else '9';
    assert PatternFor(countryCode) == Some(TenDigitPattern(Range(lo, hi)));
    TenDigitMatch(lo, hi, phone);
  }

  /** The sample number each country's hint quotes. */
  function SampleNumber(countryCode: string): string {
    if countryCode == "+91" then "7039940998"
    else if countryCode == "+1" then "2125551234"
    else "7700900123"
  }

  /** `updatePhoneHelperText`: the hint shown under the phone field. */
  function HelperText(countryCode: string): string {
    if countryCode == "+91" then "Enter 10-digit Indian mobile number (e.g., 7039940998)"
    else if countryCode == "+1" then "Enter 10-digit US phone number (e.g., 2125551234)"
    else if countryCode == "+44" then "Enter UK phone number (e.g., 7700900123)"
    else "Select country and enter phone number"
  }

  /** The sample number quoted in each country's hint passes that country's rule. */
  lemma SampleNumbersAreValid(countryCode: string)
    requires countryCode in RuleCodes
    ensures IsValidPhone(countryCode, SampleNumber(countryCode))
  {
    var lo, hi := if countryCode == "+91" then '6' else if countryCode == "+1" then '2' else '7',
                  if countryCode == "+44" then '7' else '9';
    assert PatternFor(countryCode) == Some(TenDigitPattern(Range(lo, hi)));
    var n := SampleNumber(countryCode);
    assert TenDigitsLeading(lo, hi, n) by {
      forall i | 1 <= i < 10 ensures Decimal.IsDigit(n[i]) { }
    }
    TenDigitMatch(lo, hi, n);
  }

  /** The lowest first digit of the Indian rule is accepted. */
  lemma IndianLowestAccepted()
    ensures IsValidPhone("+91", "6000000000")
  {
    var n := "6000000000";
    assert TenDigitsLeading('6', '9', n) by {
      forall i | 1 <= i < 10 ensures Decimal.IsDigit(n[i]) { }
    }
    TenDigitMatch('6', '9', n);
  }

  /** The highest first digit of the Indian rule is accepted. */
  lemma IndianHighestAccepted()
    ensures IsValidPhone("+91", "9999999999")
  {
    var n := "9999999999";
    assert TenDigitsLeading('6', '9', n) by {
      forall i | 1 <= i < 10 ensures Decimal.IsDigit(n[i]) { }
    }
    TenDigitMatch('6', '9', n);
  }

  /** A leading 5, nine digits or eleven digits are refused. */
  lemma IndianBoundariesRefused()
    ensures !IsValidPhone("+91", "5999999999")
    ensures !IsValidPhone("+91", "600000000")
    ensures !IsValidPhone("+91", "60000000000")
  {
    TenDigitMatch('6', '9', "5999999999");
    TenDigitMatch('6', '9', "600000000");
    TenDigitMatch('6', '9', "60000000000");
  }
}
