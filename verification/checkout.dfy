/**
 The client-side COD verification gate of assets/script.js as a pure
 state machine.

 The script keeps its state in module-level flags (`otpTimer`,
 `otpTimerInterval`, `isOTPVerified`, `isTokenPaid`) and in the DOM
 (button enabled flags and labels, status badges, hidden marker inputs).
 `State` holds all of it. Every user action and every asynchronous
 completion (AJAX reply, gateway callback, `setTimeout`/`setInterval`
 firing) is an `Event`, and `Step` runs the handler the script attaches
 to it. A completion arrives only for a request that was actually made,
 so `State` also counts the requests, gateway sessions and timers still
 outstanding; a completion with nothing outstanding leaves the state as
 it is.
 */
module Checkout {
  import Phone
  import Decimal

  /** The script's settings object, read at page load and never changed. */
  datatype Config = Config(
    otpEnabled: bool,        // codVerifier.enableOTP === '1'
    tokenEnabled: bool,      // codVerifier.enableToken === '1'
    otpTimerDuration: int)   // parseInt(codVerifier.otpTimerDuration)

  /** The hidden inputs, each with value "1", appended to the checkout form. */
  datatype Marker =
    | OtpVerifiedMarker      // name="cod_otp_verified"
    | TokenVerifiedMarker    // name="cod_token_verified"

  /** The outcome of an AJAX round trip. */
  datatype Reply = Accepted | Rejected | NetworkError

  /** The outcome of the create-payment-order request. */
  datatype OrderReply =
    | TestModeOrder                   // success with data.test_mode set
    | LiveOrder(sdkLoaded: bool)      // success; `Razorpay` defined or not
    | OrderRejected
    | OrderNetworkError

  datatype MessageKind = Success | Error

  /** The inline OTP message box. */
  datatype Message = Hidden | Shown(kind: MessageKind)

  datatype Button = Button(enabled: bool, text: string)

  datatype Event =
    | PaymentMethodChanged(selected: string)
    | CheckoutUpdated
    | CountryChanged(code: string)
    | PhoneInput(phone: string)
    | SendClicked
    | SendReplied(reply: Reply)
    | OtpInput(otp: string)
    | VerifyClicked
    | VerifyReplied(reply: Reply)
    | TimerTick                       // one live countdown interval fires
    | PayClicked
    | OrderReplied(orderReply: OrderReply)
    | TestModeDelayElapsed            // the 1500 ms test-mode timeout fires
    | GatewaySucceeded                // Razorpay `handler` callback
    | GatewayFailed                   // Razorpay `payment.failed` callback
    | PaymentVerifyReplied(reply: Reply)
    | ConfirmationChanged(checked: bool)

  /** The host checkout page as the script sees it. */
  datatype Page = Page(
    paymentMethod: string,       // the checked `payment_method` radio
    panelShown: bool,            // the verification box is displayed
    warningShown: bool,          // the "complete COD verification" banner
    placeOrderEnabled: bool,
    markers: seq<Marker>)        // hidden inputs appended to form.checkout, in order

  /** The phone-verification section and its module-level variables. */
  datatype Otp = Otp(
    countryCode: string,         // the selected option of #cod_country_code ("" if none)
    helpText: string,
    phone: string,
    code: string,                // the entered one-time passcode
    send: Button,
    verify: Button,
    message: Message,
    badge: string,
    timer: int,                  // otpTimer
    intervalTracked: bool,       // otpTimerInterval is not null
    orphanIntervals: nat,        // intervals started whose reference was overwritten
    sendsInFlight: nat,
    verifiesInFlight: nat,
    verified: bool)              // isOTPVerified

  /** The token-payment section and its module-level variable. */
  datatype Token = Token(
    pay: Button,
    confirmed: bool,             // #cod_token_confirmed is checked
    badge: string,
    feedbackShown: bool,         // success animation and refund message
    ordersInFlight: nat,
    testDelaysPending: nat,
    gatewaysOpen: nat,           // Razorpay checkouts opened and not yet answered
    checksInFlight: nat,         // server payment verifications outstanding
    paid: bool)                  // isTokenPaid

  datatype State = State(page: Page, otp: Otp, token: Token)

  const SendLabel := "Send OTP"
  const SendingLabel := "Sending..."
  const ResendLabel := "Resend OTP"
  const VerifyLabel := "Verify"
  const VerifyingLabel := "Verifying..."
  const VerifiedLabel := "\U{2713} Verified"
  const PayLabel := "Pay \U{20B9}1 Token"
  const ProcessingLabel := "Processing Payment..."

  /** The Send label while the countdown runs: `Resend (${otpTimer}s)`. */
  function CountdownLabel(remaining: int): string {
    "Resend (" + Decimal.IntToString(remaining) + "s)"
  }

  /** `updateOTPStatus`: only 'verified' shows as "Verified". */
  function OtpBadgeText(status: string): (text: string)
    ensures text == "Verified" <==> status == "verified"
    ensures text != "Verified" ==> text == "Pending"
  {
    if status == "verified" then "Verified" else "Pending"
  }

  /** `updateTokenStatus`: success and verified read "Verified", failed reads "Failed". */
  function TokenBadgeText(status: string): (text: string)
    ensures text == "Verified" <==> status in {"success", "verified"}
    ensures text == "Failed" <==> status == "failed"
    ensures text == "Pending" <==> status !in {"success", "verified", "failed"}
  {
    if status == "success" || status == "verified" then "Verified"
    else if status == "failed" then "Failed"
    else "Pending"
  }

  /**
   The page right after `initializeCODVerifier`: the template's markup
   (Send and Pay enabled, Verify disabled, both badges "Pending", the box
   hidden) followed by `checkCODSelection` and the helper text for the
   selected code.
   */
  function Init(cfg: Config, countryCode: string, paymentMethod: string): State {
    var page := Page(paymentMethod, false, false, false, []);
    var otp := Otp(
      countryCode := countryCode,
      helpText := Phone.HelperText(countryCode),
      phone := "",
      code := "",
      send := Button(true, SendLabel),
      verify := Button(false, VerifyLabel),
      message := Hidden,
      badge := "Pending",
      timer := 0,
      intervalTracked := false,
      orphanIntervals := 0,
      sendsInFlight := 0,
      verifiesInFlight := 0,
      verified := false);
    var token := Token(
      pay := Button(true, PayLabel),
      confirmed := false,
      badge := "Pending",
      feedbackShown := false,
      ordersInFlight := 0,
      testDelaysPending := 0,
      gatewaysOpen := 0,
      checksInFlight := 0,
      paid := false);
    CheckCODSelection(State(page, otp, token))
  }

  // ----- checkout page -----

  /**
   `checkCODSelection`. Showing the box renames its element id, so later
   look-ups by the original id find nothing: once shown, the box is
   never hidden again. The warning test reads both flags, whatever the
   configuration enables.
   */
  function CheckCODSelection(s: State): (r: State)
    ensures r.page.panelShown <==> s.page.panelShown || s.page.paymentMethod == "cod"
    ensures s.page.paymentMethod != "cod" ==> !r.page.warningShown
    ensures s.page.paymentMethod == "cod" && !(s.otp.verified && s.token.paid) ==> r.page.warningShown
    ensures s.page.paymentMethod == "cod" && s.otp.verified && s.token.paid ==> r.page.warningShown == s.page.warningShown
    ensures r == s.(page := s.page.(panelShown := r.page.panelShown, warningShown := r.page.warningShown))
  {
    var wrapperFound := !s.page.panelShown;
    if s.page.paymentMethod == "cod" then
      s.(page := s.page.(
        panelShown := if wrapperFound then true else s.page.panelShown,
        warningShown := if !s.otp.verified || !s.token.paid then true else s.page.warningShown))
    else
      s.(page := s.page.(
        panelShown := if wrapperFound then false else s.page.panelShown,
        warningShown := false))
  }

  /** The completion condition `checkVerificationComplete` tests. */
  predicate GateComplete(cfg: Config, s: State) {
    (!cfg.otpEnabled || s.otp.verified) && (!cfg.tokenEnabled || s.token.paid)
  }

  /**
   `checkVerificationComplete`: when complete, hide the warning and
   enable Place Order; otherwise change nothing.
   */
  function CheckVerificationComplete(cfg: Config, s: State): (r: State)
    ensures GateComplete(cfg, s) ==> !r.page.warningShown && r.page.placeOrderEnabled
    ensures r == s.(page := s.page.(warningShown := r.page.warningShown, placeOrderEnabled := r.page.placeOrderEnabled))
    ensures !GateComplete(cfg, s) ==> r == s
  {
    if GateComplete(cfg, s) then s.(page := s.page.(warningShown := false, placeOrderEnabled := true)) else s
  }

  /**
   JavaScript's `length` of a string: the number of UTF-16 code units,
   two for each character outside the Basic Multilingual Plane.
   */
  function Utf16Length(s: string): (n: nat)
    ensures |s| <= n <= 2 * |s|
    ensures n == |s| <==> forall i :: 0 <= i < |s| ==> s[i] < '\U{10000}'
  {
    if s == [] then 0
    else
      var rest := Utf16Length(s[1..]);
      assert forall i :: 1 <= i < |s| ==> s[i] == s[1..][i - 1];
      (if s[0] < '\U{10000}' then 1 else 2) + rest
  }

  /** JavaScript's `length` adds up over concatenation. */
  lemma {:induction false} Utf16LengthAppend(a: string, b: string)
    ensures Utf16Length(a + b) == Utf16Length(a) + Utf16Length(b)
  {
    if a == [] {
      assert a + b == b;
    } else {
      assert (a + b)[0] == a[0] && (a + b)[1..] == a[1..] + b;
      Utf16LengthAppend(a[1..], b);
    }
  }

  /**
   Four digits and a character outside the Basic Multilingual Plane make
   five characters but six code units; five digits and one make seven.
   */
  lemma AstralCodeLengths()
    ensures |"1234\U{1F600}"| == 5 && Utf16Length("1234\U{1F600}") == 6
    ensures Utf16Length("12345\U{1F600}") == 7
  {
    var astral := "\U{1F600}";
    assert Utf16Length(astral) == 2;
    assert Utf16Length("1234") == 4;
    Utf16LengthAppend("1234", astral);
    assert "1234" + astral == "1234\U{1F600}";
    assert Utf16Length("12345") == 5;
    Utf16LengthAppend("12345", astral);
    assert "12345" + astral == "12345\U{1F600}";
  }

  // ----- phone verification -----

  /** `validatePhoneInput`: Send is enabled iff the number is valid and no countdown runs. */
  function ValidatePhoneInput(o: Otp): (r: Otp)
    ensures r.send.enabled <==> Phone.IsValidPhone(o.countryCode, o.phone) && o.timer <= 0
    ensures r == o.(send := r.send) && r.send.text == o.send.text
  {
    o.(send := o.send.(enabled := Phone.IsValidPhone(o.countryCode, o.phone) && !(o.timer > 0)))
  }

  /**
   `clearOTPTimer`: stops the referenced interval, if any, and zeroes the
   counter. An interval whose reference was overwritten keeps running.
   */
  function ClearOTPTimer(o: Otp): (r: Otp)
    ensures r.timer == 0 && !r.intervalTracked
    ensures r == o.(timer := 0, intervalTracked := false)
  {
    if o.intervalTracked then o.(intervalTracked := false, timer := 0)
    else o.(timer := 0)
  }

  /**
   `startOTPTimer`: sets the counter and starts a fresh interval; a
   still-referenced interval is not cleared first and becomes an orphan.
   The Send button is left as it is.
   */
  function StartOTPTimer(cfg: Config, o: Otp): (r: Otp)
    ensures r.timer == cfg.otpTimerDuration && r.intervalTracked
    ensures r.orphanIntervals == o.orphanIntervals + (if o.intervalTracked then 1 else 0)
    ensures r == o.(timer := r.timer, intervalTracked := true, orphanIntervals := r.orphanIntervals)
  {
    o.(timer := cfg.otpTimerDuration,
       orphanIntervals := o.orphanIntervals + (if o.intervalTracked then 1 else 0),
       intervalTracked := true)
  }

  /** The number of countdown intervals still scheduled. */
  function LiveIntervals(o: Otp): nat {
    o.orphanIntervals + (if o.intervalTracked then 1 else 0)
  }

  /**
   One firing of a countdown interval: decrement and relabel; at zero or
   below, clear the timer, re-enable Send as "Resend OTP" and re-validate
   the phone.
   */
  function Tick(o: Otp): (r: Otp)
    ensures o.timer - 1 > 0 ==> r == o.(timer := o.timer - 1, send := o.send.(text := CountdownLabel(o.timer - 1)))
    ensures o.timer - 1 <= 0 ==> r.timer == 0 && !r.intervalTracked && r.send.text == ResendLabel
    ensures o.timer - 1 <= 0 ==> (r.send.enabled <==> Phone.IsValidPhone(o.countryCode, o.phone))
    ensures o.timer - 1 <= 0 ==> r == o.(timer := 0, intervalTracked := false, send := r.send)
  {
    var t := o.timer - 1;
    var counted := o.(timer := t, send := o.send.(text := CountdownLabel(t)));
    if t <= 0 then
      ValidatePhoneInput(ClearOTPTimer(counted).(send := Button(true, ResendLabel)))
    else
      counted
  }

  /**
   `resetOTPForm`: empties phone and code, disables both buttons, restores
   the Send label, stops the timer and hides the message. The verified
   flag and the badge are left alone.
   */
  function ResetOTPForm(o: Otp): (r: Otp)
    ensures r.phone == "" && r.code == ""
    ensures r.send == Button(false, SendLabel) && !r.verify.enabled && r.verify.text == o.verify.text
    ensures r.timer == 0 && !r.intervalTracked && r.message == Hidden
    ensures r.verified == o.verified && r.badge == o.badge
    ensures r.countryCode == o.countryCode && r.helpText == o.helpText
    ensures r.orphanIntervals == o.orphanIntervals
    ensures r.sendsInFlight == o.sendsInFlight && r.verifiesInFlight == o.verifiesInFlight
  {
    var cleared := o.(phone := "", code := "", send := Button(false, SendLabel),
                      verify := o.verify.(enabled := false));
    ClearOTPTimer(cleared).(message := Hidden)
  }

  function OnSendReplied(cfg: Config, o: Otp, reply: Reply): (r: Otp)
    requires o.sendsInFlight > 0
    ensures r.verified == o.verified && r.badge == o.badge && r.verifiesInFlight == o.verifiesInFlight
    ensures r.orphanIntervals >= o.orphanIntervals
  {
    var o := o.(sendsInFlight := o.sendsInFlight - 1);
    match reply
    case Accepted => StartOTPTimer(cfg, o.(message := Shown(Success)))
    case _ => o.(message := Shown(Error), send := Button(true, SendLabel))
  }

  /** The OTP section's own handlers: everything but an accepted verify reply. */
  function OtpLocal(cfg: Config, o: Otp, e: Event): (r: Otp)
    requires !(e.VerifyReplied? && e.reply == Accepted && o.verifiesInFlight > 0)
    ensures r.verified == o.verified && r.badge == o.badge
    ensures r.orphanIntervals >= o.orphanIntervals
  {
    match e
    case CountryChanged(code) =>
      ResetOTPForm(o.(countryCode := code, helpText := Phone.HelperText(code)))
    case PhoneInput(phone) =>
      ValidatePhoneInput(o.(phone := phone))
    case SendClicked =>
      if !o.send.enabled then o
      else o.(send := Button(false, SendingLabel), sendsInFlight := o.sendsInFlight + 1)
    case SendReplied(reply) =>
      if o.sendsInFlight == 0 then o else OnSendReplied(cfg, o, reply)
    case OtpInput(code) =>
      o.(code := code, verify := o.verify.(enabled := Utf16Length(code) == 6))
    case VerifyClicked =>
      if !o.verify.enabled then o
      else o.(verify := Button(false, VerifyingLabel), verifiesInFlight := o.verifiesInFlight + 1)
    case VerifyReplied(reply) =>
      if o.verifiesInFlight == 0 then o
      else o.(verifiesInFlight := o.verifiesInFlight - 1, message := Shown(Error),
              verify := Button(true, VerifyLabel))
    case _ => o
  }

  /**
   An accepted verify reply: set the flag, the badge, the button text and
   the `cod_otp_verified` marker, then run the gate.
   */
  function OnVerifyAccepted(cfg: Config, s: State): (r: State)
    requires s.otp.verifiesInFlight > 0
    ensures r.otp.verified && r.otp.badge == "Verified" && r.otp.message == Shown(Success)
    ensures r.otp.verify == Button(s.otp.verify.enabled, VerifiedLabel)
    ensures r.otp.verifiesInFlight == s.otp.verifiesInFlight - 1
    ensures r.otp == s.otp.(verifiesInFlight := r.otp.verifiesInFlight, verified := true,
                            message := r.otp.message, badge := r.otp.badge, verify := r.otp.verify)
    ensures r.page.markers == s.page.markers + [OtpVerifiedMarker]
    ensures r.token == s.token
    ensures GateComplete(cfg, r) <==> !cfg.tokenEnabled || s.token.paid
    ensures GateComplete(cfg, r) ==> !r.page.warningShown && r.page.placeOrderEnabled
    ensures !GateComplete(cfg, r) ==> r.page == s.page.(markers := r.page.markers)
    ensures r.page.paymentMethod == s.page.paymentMethod && r.page.panelShown == s.page.panelShown
  {
    var o := s.otp.(verifiesInFlight := s.otp.verifiesInFlight - 1, verified := true,
                    message := Shown(Success), badge := OtpBadgeText("verified"),
                    verify := s.otp.verify.(text := VerifiedLabel));
    var page := s.page.(markers := s.page.markers + [OtpVerifiedMarker]);
    CheckVerificationComplete(cfg, State(page, o, s.token))
  }

  /** The handlers `initializeOTPHandlers` attaches (only when OTP is enabled). */
  function OtpStep(cfg: Config, s: State, e: Event): State {
    if e.VerifyReplied? && e.reply == Accepted && s.otp.verifiesInFlight > 0 then OnVerifyAccepted(cfg, s)
    else s.(otp := OtpLocal(cfg, s.otp, e))
  }

  // ----- token payment -----

  function OnOrderReplied(t: Token, reply: OrderReply): (r: Token)
    requires t.ordersInFlight > 0
    ensures r.paid == t.paid && r.badge == t.badge && r.checksInFlight == t.checksInFlight
  {
    var t := t.(ordersInFlight := t.ordersInFlight - 1);
    match reply
    case TestModeOrder =>
      // handleTestModePayment: immediate success feedback, then a 1500 ms timeout
      t.(feedbackShown := true, testDelaysPending := t.testDelaysPending + 1)
    case LiveOrder(sdkLoaded) =>
      // openRazorpayCheckout
      if sdkLoaded then t.(gatewaysOpen := t.gatewaysOpen + 1)
      else t.(pay := Button(true, PayLabel))
    case _ => t.(pay := Button(true, PayLabel))
  }

  /**
   The token section's handlers that leave the page alone: clicks, order
   replies, gateway callbacks and rejected server checks.
   */
  function TokenLocal(t: Token, e: Event): (r: Token)
    requires !(e.TestModeDelayElapsed? && t.testDelaysPending > 0)
    requires !(e.PaymentVerifyReplied? && e.reply == Accepted && t.checksInFlight > 0)
    requires !e.ConfirmationChanged?
    ensures r.paid == t.paid
  {
    match e
    case PayClicked =>
      if !t.pay.enabled then t
      else t.(pay := Button(false, ProcessingLabel), ordersInFlight := t.ordersInFlight + 1)
    case OrderReplied(reply) =>
      if t.ordersInFlight == 0 then t else OnOrderReplied(t, reply)
    case GatewaySucceeded =>
      if t.gatewaysOpen == 0 then t
      else t.(gatewaysOpen := t.gatewaysOpen - 1, feedbackShown := true,
              checksInFlight := t.checksInFlight + 1)
    case GatewayFailed =>
      if t.gatewaysOpen == 0 then t
      else t.(gatewaysOpen := t.gatewaysOpen - 1, pay := Button(true, PayLabel),
              badge := TokenBadgeText("failed"))
    case PaymentVerifyReplied(reply) =>
      // a rejected or failed server check: badge "Failed", Pay stays disabled
      if t.checksInFlight == 0 then t
      else t.(checksInFlight := t.checksInFlight - 1, badge := TokenBadgeText("failed"))
    case _ => t
  }

  /**
   A confirmed payment (the test-mode delay elapsing, or the server
   accepting the gateway payment): set the flag and the badge and enable
   Place Order directly, without running the gate.
   */
  function OnTokenPaid(s: State, t: Token): (r: State)
    ensures r.token.paid && r.token.badge == "Verified" && r.page.placeOrderEnabled
    ensures r.otp == s.otp && r.page == s.page.(placeOrderEnabled := true)
    ensures r.token == t.(paid := true, badge := "Verified")
  {
    State(s.page.(placeOrderEnabled := true), s.otp,
          t.(paid := true, badge := TokenBadgeText("success")))
  }

  /**
   The confirmation checkbox: record the tick; when ticked with the
   payment confirmed, show "Verified", append `cod_token_verified` and
   run the gate.
   */
  function OnConfirmationChanged(cfg: Config, s: State, checked: bool): (r: State)
    ensures r.token.confirmed == checked && r.token.paid == s.token.paid && r.otp == s.otp
    ensures checked && s.token.paid ==> r.page.markers == s.page.markers + [TokenVerifiedMarker]
    ensures checked && s.token.paid ==> r.token == s.token.(confirmed := true, badge := "Verified")
    ensures checked && s.token.paid ==> (GateComplete(cfg, r) <==> !cfg.otpEnabled || s.otp.verified)
    ensures checked && s.token.paid && GateComplete(cfg, r) ==> !r.page.warningShown && r.page.placeOrderEnabled
    ensures checked && s.token.paid && !GateComplete(cfg, r) ==> r.page == s.page.(markers := r.page.markers)
    ensures r.page.paymentMethod == s.page.paymentMethod && r.page.panelShown == s.page.panelShown
    ensures !(checked && s.token.paid) ==> r == s.(token := s.token.(confirmed := checked))
  {
    var s := s.(token := s.token.(confirmed := checked));
    if checked && s.token.paid then
      CheckVerificationComplete(cfg, State(s.page.(markers := s.page.markers + [TokenVerifiedMarker]),
                                           s.otp, s.token.(badge := TokenBadgeText("verified"))))
    else s
  }

  /** The handlers `initializeTokenHandlers` attaches (only when the token is enabled). */
  function TokenStep(cfg: Config, s: State, e: Event): State {
    var t := s.token;
    if e.TestModeDelayElapsed? && t.testDelaysPending > 0 then
      OnTokenPaid(s, t.(testDelaysPending := t.testDelaysPending - 1))
    else if e.PaymentVerifyReplied? && e.reply == Accepted && t.checksInFlight > 0 then
      OnTokenPaid(s, t.(checksInFlight := t.checksInFlight - 1))
    else if e.ConfirmationChanged? then
      OnConfirmationChanged(cfg, s, e.checked)
    else
      s.(token := TokenLocal(t, e))
  }

  predicate IsOtpEvent(e: Event) {
    e.CountryChanged? || e.PhoneInput? || e.SendClicked? || e.SendReplied?
    || e.OtpInput? || e.VerifyClicked? || e.VerifyReplied?
  }

  predicate IsTokenEvent(e: Event) {
    e.PayClicked? || e.OrderReplied? || e.TestModeDelayElapsed? || e.GatewaySucceeded?
    || e.GatewayFailed? || e.PaymentVerifyReplied? || e.ConfirmationChanged?
  }

  /** The page's reaction to one event. */
  function Step(cfg: Config, s: State, e: Event): State {
    match e
    case PaymentMethodChanged(selected) => CheckCODSelection(s.(page := s.page.(paymentMethod := selected)))
    case CheckoutUpdated => CheckCODSelection(s)
    case TimerTick => if LiveIntervals(s.otp) == 0 then s else s.(otp := Tick(s.otp))
    case _ =>
      if IsOtpEvent(e) then (if cfg.otpEnabled then OtpStep(cfg, s, e) else s)
      else if cfg.tokenEnabled then TokenStep(cfg, s, e) else s
  }

  /** The page after a sequence of events, in order. */
  function Run(cfg: Config, s: State, es: seq<Event>): State
    decreases |es|
  {
    if es == [] then s else Run(cfg, Step(cfg, s, es[0]), es[1..])
  }
}
