/**
 The configuration projection of the verification box template
 (templates/otp-box.php): which plugin options are read, with which
 defaults, and what the template consequently renders: the country codes
 offered for the configured region, the helper text, which sections and
 status badges appear, the token step number, and the settings object it
 writes for the script. Markup, styling and animations are not modelled.
 */
module Template {
  import Phone
  import Decimal

  /** The stored plugin options, by option name; an absent key is an unset option. */
  type Options = map<string, string>

  /** WordPress `get_option(name, default)` over the stored options. */
  function GetOption(opts: Options, name: string, default: string): string {
    if name in opts then opts[name] else default
  }

  const EnableOtpKey := "cod_verifier_enable_otp"
  const EnableTokenKey := "cod_verifier_enable_token"
  const TestModeKey := "cod_verifier_test_mode"
  const RegionsKey := "cod_verifier_allowed_regions"
  const TimerKey := "cod_verifier_otp_timer_duration"

  /** The timer option's default, which `get_option` returns as an integer. */
  const DefaultTimer: int := 30

  /** PHP's integer range on a 64-bit build. */
  const PhpIntMax: int := 0x7fff_ffff_ffff_ffff
  const PhpIntMin: int := -0x8000_0000_0000_0000

  predicate IsPhpSpace(c: char) {
    c == ' ' || c == '\t' || c == '\n' || c == '\r' || c == '\U{000B}' || c == '\U{000C}'
  }

  function SkipSpace(s: string): (t: string)
    ensures |t| <= |s| && t == s[|s| - |t|..]
    ensures t != [] ==> !IsPhpSpace(t[0])
    decreases |s|
  {
    if s != [] && IsPhpSpace(s[0]) then SkipSpace(s[1..]) else s
  }

  /**
   The least magnitude a decimal numeral rounds to infinity at as an IEEE
   754 double: 2^1024 - 2^970, halfway between the largest finite double
   and 2^1024.
   */
  const DoubleOverflow: int :=
    0xFFFFFFFFFFFFFC00_0000000000000000_0000000000000000_0000000000000000_0000000000000000_0000000000000000_0000000000000000_0000000000000000_0000000000000000_0000000000000000_0000000000000000_0000000000000000_0000000000000000_0000000000000000_0000000000000000_0000000000000000

  /**
   How PHP turns a digit string too large for an integer into one: read
   as a double, an infinite value becomes 0 and a finite one saturates to
   the integer range.
   */
  function Saturate(v: int): (r: int)
    ensures PhpIntMin <= r <= PhpIntMax
    ensures PhpIntMin <= v <= PhpIntMax ==> r == v
  {
    if v >= DoubleOverflow || v <= -DoubleOverflow then 0
    else if v > PhpIntMax then PhpIntMax
    else if v < PhpIntMin then PhpIntMin
    else v
  }

  /**
   PHP `intval` of a string: leading whitespace, an optional sign, then
   the longest run of decimal digits; no digits reads as 0, and a run
   beyond the integer range goes through `Saturate`.
   */
  function IntVal(s: string): (v: int)
    ensures PhpIntMin <= v <= PhpIntMax
  {
    var t := SkipSpace(s);
    var negative := t != [] && t[0] == '-';
    var digits := if t != [] && (t[0] == '-' || t[0] == '+') then t[1..] else t;
    var magnitude: int := Decimal.DigitsValue(Decimal.LeadingDigits(digits));
    Saturate(if negative then -magnitude else magnitude)
  }

  /** `intval` reads back every integer in PHP's range from its decimal text. */
  lemma IntValRoundTrip(i: int)
    requires PhpIntMin <= i <= PhpIntMax
    ensures IntVal(Decimal.IntToString(i)) == i
  {
    var s := Decimal.IntToString(i);
    assert SkipSpace(s) == s;
    if i < 0 {
      assert s[1..] == Decimal.NatToString(-i);
      Decimal.NatRoundTrip(-i);
    } else {
      Decimal.NatRoundTrip(i);
    }
  }

  /** A plain digit run needs no whitespace skipping and no sign. */
  lemma DigitRunRead(s: string)
    requires s != [] && Decimal.AllDigits(s)
    ensures IntVal(s) == Saturate(Decimal.DigitsValue(s))
  {
    assert Decimal.IsDigit(s[0]);
    assert SkipSpace(s) == s;
    assert Decimal.LeadingDigits(s) == s;
  }

  /**
   A plain digit run reads as its value while it fits; beyond PHP's range
   it saturates, and once its double rounds to infinity it reads as 0.
   */
  lemma IntValOfDigitRun(s: string)
    requires s != [] && Decimal.AllDigits(s)
    ensures Decimal.DigitsValue(s) <= PhpIntMax ==> IntVal(s) == Decimal.DigitsValue(s)
    ensures PhpIntMax < Decimal.DigitsValue(s) < DoubleOverflow ==> IntVal(s) == PhpIntMax
    ensures Decimal.DigitsValue(s) >= DoubleOverflow ==> IntVal(s) == 0
  {
    DigitRunRead(s);
  }

  /** The country codes the region setting offers, in option order. */
  function OfferedCodes(region: string): (codes: seq<string>)
  {
    (if region == "global" || region == "india" then ["+91"] else [])
    + (if region == "global" || region == "usa" then ["+1"] else [])
    + (if region == "global" || region == "uk" then ["+44"] else [])
  }

  /** The helper text the template prints for a region, without the surrounding whitespace. */
  function RegionHelperText(region: string): string {
    if region == "india" then "Enter 10-digit Indian mobile number (e.g., 7039940998)"
    else if region == "usa" then "Enter 10-digit US phone number (e.g., 2125551234)"
    else if region == "uk" then "Enter UK phone number (e.g., 7700900123)"
    else "Select country and enter phone number"
  }

  /** A status badge: not rendered, or rendered with its text. */
  datatype Badge = Absent | Rendered(text: string)

  /** The object the template writes for the script (`window.codVerifierSettings`). */
  datatype Settings = Settings(allowedRegions: string, otpTimerDuration: int, testMode: string)

  /** What the template renders, stripped of markup. */
  datatype Page = Page(
    testBadge: bool,
    otpSection: bool,
    countryOptions: seq<string>,
    selectedCode: string,
    helpText: string,
    tokenSection: bool,
    tokenStep: string,
    otpBadge: Badge,
    tokenBadge: Badge,
    settings: Settings)

  /** The template, as a function of the stored options. */
  function Render(opts: Options): Page {
    var enableOtp := GetOption(opts, EnableOtpKey, "1");
    var enableToken := GetOption(opts, EnableTokenKey, "1");
    var testMode := GetOption(opts, TestModeKey, "1");
    var region := GetOption(opts, RegionsKey, "india");
    var timer := if TimerKey in opts then IntVal(opts[TimerKey]) else DefaultTimer;
    var codes := OfferedCodes(region);
    Page(
      testBadge := testMode == "1",
      otpSection := enableOtp == "1",
      countryOptions := codes,
      // +91 carries `selected`; otherwise the browser selects the first option
      selectedCode := if codes != [] then codes[0] else "",
      helpText := RegionHelperText(region),
      tokenSection := enableToken == "1",
      tokenStep := if enableOtp == "1" then "2" else "1",
      otpBadge := if enableOtp == "1" then Rendered("Pending") else Absent,
      tokenBadge := if enableToken == "1" then Rendered("Pending") else Absent,
      settings := Settings(region, timer, testMode))
  }

  /** Which region settings offer which code; any other region offers none. */
  lemma OfferedCodesByRegion(region: string)
    ensures "+91" in OfferedCodes(region) <==> region == "global" || region == "india"
    ensures "+1" in OfferedCodes(region) <==> region == "global" || region == "usa"
    ensures "+44" in OfferedCodes(region) <==> region == "global" || region == "uk"
    ensures region !in {"global", "india", "usa", "uk"} ==> OfferedCodes(region) == []
  {
  }

  /**
   Every offered code has a case in the script's validator, so the
   validator's default `false` is never reached for a code the page
   offers, and each such code accepts its hint's sample number.
   */
  lemma OfferedCodesHaveRules(region: string, c: string)
    requires c in OfferedCodes(region)
    ensures c in Phone.RuleCodes
    ensures Phone.IsValidPhone(c, Phone.SampleNumber(c))
  {
    Phone.SampleNumbersAreValid(c);
  }

  /**
   For a single-region setting the page offers exactly one code, selects
   it, and prints the same helper text the script shows for that code.
   */
  lemma SingleRegionHelperAgrees(opts: Options)
    requires GetOption(opts, RegionsKey, "india") in {"india", "usa", "uk"}
    ensures |Render(opts).countryOptions| == 1
    ensures Render(opts).selectedCode == Render(opts).countryOptions[0]
    ensures Render(opts).helpText == Phone.HelperText(Render(opts).selectedCode)
  {
    var region := GetOption(opts, RegionsKey, "india");
    if region == "india" {
      assert Phone.HelperText("+91") == RegionHelperText(region);
    } else if region == "usa" {
      assert Phone.HelperText("+1") == RegionHelperText(region);
    } else {
      assert Phone.HelperText("+44") == RegionHelperText(region);
    }
  }

  /**
   With every region offered, the page selects +91 but prints the generic
   hint, which differs from the hint the script shows for +91.
   */
  lemma GlobalHelperIsGeneric(opts: Options)
    requires GetOption(opts, RegionsKey, "india") == "global"
    ensures Render(opts).countryOptions == ["+91", "+1", "+44"]
    ensures Render(opts).selectedCode == "+91"
    ensures Render(opts).helpText == Phone.HelperText("")
    ensures Render(opts).helpText != Phone.HelperText(Render(opts).selectedCode)
  {
    assert |Phone.HelperText("+91")| == 54 && |Phone.HelperText("")| == 37;
  }

  /** Sections and badges follow the enable options; badges start as "Pending". */
  lemma SectionsFollowOptions(opts: Options)
    ensures Render(opts).otpSection <==> GetOption(opts, EnableOtpKey, "1") == "1"
    ensures Render(opts).tokenSection <==> GetOption(opts, EnableTokenKey, "1") == "1"
    ensures Render(opts).otpBadge.Rendered? <==> Render(opts).otpSection
    ensures Render(opts).tokenBadge.Rendered? <==> Render(opts).tokenSection
    ensures Render(opts).otpBadge.Rendered? ==> Render(opts).otpBadge.text == "Pending"
    ensures Render(opts).tokenBadge.Rendered? ==> Render(opts).tokenBadge.text == "Pending"
    ensures Render(opts).tokenStep == (if Render(opts).otpSection then "2" else "1")
  {
  }

  /** With no option stored: OTP on, token on, test mode on, region india, timer 30. */
  lemma Defaults()
    ensures Render(map[]) == Page(
      testBadge := true,
      otpSection := true,
      countryOptions := ["+91"],
      selectedCode := "+91",
      helpText := Phone.HelperText("+91"),
      tokenSection := true,
      tokenStep := "2",
      otpBadge := Rendered("Pending"),
      tokenBadge := Rendered("Pending"),
      settings := Settings("india", 30, "1"))
  {
  }

  /** The template prints a stored timer option's `intval`, so any 64-bit integer's text is printed unchanged. */
  lemma TimerSettingIsIntval(opts: Options, i: int)
    requires PhpIntMin <= i <= PhpIntMax
    requires TimerKey in opts && opts[TimerKey] == Decimal.IntToString(i)
    ensures Render(opts).settings.otpTimerDuration == i
  {
    IntValRoundTrip(i);
  }
}
