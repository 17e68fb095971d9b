/**
 What one event does to the page: for every handler of the verification
 box, the fields it sets and, field by field, that nothing else changes.
 */
module Outcomes {
  import opened Checkout
  import Phone

  // ----- sections that are switched off -----

  /** With OTP disabled no OTP handler is attached, so OTP events change nothing. */
  lemma OtpEventsIgnoredWhenDisabled(cfg: Config, s: State, e: Event)
    requires !cfg.otpEnabled && IsOtpEvent(e)
    ensures Step(cfg, s, e) == s
  {
  }

  /** With the token disabled no token handler is attached, so token events change nothing. */
  lemma TokenEventsIgnoredWhenDisabled(cfg: Config, s: State, e: Event)
    requires !cfg.tokenEnabled && IsTokenEvent(e)
    ensures Step(cfg, s, e) == s
  {
  }

  // ----- phone verification -----

  /**
   Editing the phone number stores it and enables Send exactly when the
   number passes its country's rule and no countdown runs.
   */
  lemma SendFollowsPhoneEdit(cfg: Config, s: State, phone: string)
    requires cfg.otpEnabled
    ensures var r := Step(cfg, s, PhoneInput(phone));
      && (r.otp.send.enabled <==> Phone.IsValidPhone(s.otp.countryCode, phone) && s.otp.timer <= 0)
      && r == s.(otp := s.otp.(phone := phone, send := s.otp.send.(enabled := r.otp.send.enabled)))
  {
  }

  /** Editing the code stores it and enables Verify exactly when its JavaScript length, in UTF-16 code units, is six. */
  lemma VerifyFollowsCodeEdit(cfg: Config, s: State, code: string)
    requires cfg.otpEnabled
    ensures var r := Step(cfg, s, OtpInput(code));
      && (r.otp.verify.enabled <==> Utf16Length(code) == 6)
      && r == s.(otp := s.otp.(code := code, verify := s.otp.verify.(enabled := r.otp.verify.enabled)))
  {
  }

  /**
   A code of four digits and one character outside the Basic Multilingual
   Plane is five characters but six code units long, so it enables Verify;
   six digits and such a character do not.
   */
  lemma VerifyCountsCodeUnits(cfg: Config, s: State)
    requires cfg.otpEnabled
    ensures Step(cfg, s, OtpInput("1234\U{1F600}")).otp.verify.enabled
    ensures !Step(cfg, s, OtpInput("12345\U{1F600}")).otp.verify.enabled
  {
    AstralCodeLengths();
    VerifyFollowsCodeEdit(cfg, s, "1234\U{1F600}");
    VerifyFollowsCodeEdit(cfg, s, "12345\U{1F600}");
  }

  /**
   Choosing a country shows its hint and resets the form; the verified
   flag, the badge and any marker already appended stay as they were.
   */
  lemma CountryChangeResets(cfg: Config, s: State, code: string)
    requires cfg.otpEnabled
    ensures var r := Step(cfg, s, CountryChanged(code));
      && r.otp.countryCode == code && r.otp.helpText == Phone.HelperText(code)
      && r.otp.phone == "" && r.otp.code == ""
      && r.otp.send == Button(false, SendLabel) && !r.otp.verify.enabled
      && r.otp.timer == 0 && !r.otp.intervalTracked && r.otp.message == Hidden
      && r.otp.verified == s.otp.verified && r.otp.badge == s.otp.badge
      && r.page == s.page && r.token == s.token
  {
  }

  /** `resetOTPForm` stops the timer but does not undo a completed verification. */
  lemma ResetKeepsVerified(o: Otp)
    ensures ResetOTPForm(o).verified == o.verified
    ensures ResetOTPForm(o).badge == o.badge
    ensures ResetOTPForm(o).timer == 0 && LiveIntervals(ResetOTPForm(o)) == o.orphanIntervals
  {
  }

  /** Clicking an enabled Send disables it as "Sending..." and sends one request; a disabled one does nothing. */
  lemma SendClickOutcome(cfg: Config, s: State)
    requires cfg.otpEnabled
    ensures s.otp.send.enabled ==>
      Step(cfg, s, SendClicked) ==
      s.(otp := s.otp.(send := Button(false, SendingLabel), sendsInFlight := s.otp.sendsInFlight + 1))
    ensures !s.otp.send.enabled ==> Step(cfg, s, SendClicked) == s
  {
  }

  /**
   An accepted send shows a success message and starts the countdown from
   the configured duration; the Send button keeps its disabled "Sending..."
   state until the first firing relabels it.
   */
  lemma SendAcceptedStartsCountdown(cfg: Config, s: State)
    requires cfg.otpEnabled && s.otp.sendsInFlight > 0
    ensures var r := Step(cfg, s, SendReplied(Accepted));
      && r.otp.timer == cfg.otpTimerDuration && r.otp.intervalTracked
      && r.otp.orphanIntervals == s.otp.orphanIntervals + (if s.otp.intervalTracked then 1 else 0)
      && r == s.(otp := s.otp.(sendsInFlight := s.otp.sendsInFlight - 1, message := Shown(Success),
                               timer := r.otp.timer, intervalTracked := true,
                               orphanIntervals := r.otp.orphanIntervals))
  {
  }

  /** A rejected or failed send shows an error and re-enables Send as "Send OTP". */
  lemma SendFailureOutcome(cfg: Config, s: State, reply: Reply)
    requires cfg.otpEnabled && s.otp.sendsInFlight > 0 && reply != Accepted
    ensures Step(cfg, s, SendReplied(reply)) ==
      s.(otp := s.otp.(sendsInFlight := s.otp.sendsInFlight - 1, message := Shown(Error),
                       send := Button(true, SendLabel)))
  {
  }

  /** Clicking an enabled Verify disables it as "Verifying..." and sends one request; a disabled one does nothing. */
  lemma VerifyClickOutcome(cfg: Config, s: State)
    requires cfg.otpEnabled
    ensures s.otp.verify.enabled ==>
      Step(cfg, s, VerifyClicked) ==
      s.(otp := s.otp.(verify := Button(false, VerifyingLabel), verifiesInFlight := s.otp.verifiesInFlight + 1))
    ensures !s.otp.verify.enabled ==> Step(cfg, s, VerifyClicked) == s
  {
  }

  /**
   An accepted verify sets `isOTPVerified`, shows "Verified" on the badge
   and "✓ Verified" on the (still disabled) button, appends the
   `cod_otp_verified` marker and runs the gate.
   */
  lemma VerifySuccessOutcome(cfg: Config, s: State)
    requires cfg.otpEnabled && s.otp.verifiesInFlight > 0
    ensures var r := Step(cfg, s, VerifyReplied(Accepted));
      var o := s.otp.(verifiesInFlight := s.otp.verifiesInFlight - 1, verified := true,
                      message := Shown(Success), badge := "Verified",
                      verify := s.otp.verify.(text := VerifiedLabel));
      var page := s.page.(markers := s.page.markers + [OtpVerifiedMarker]);
      r == CheckVerificationComplete(cfg, State(page, o, s.token))
  {
  }

  /** A rejected or failed verify shows an error and re-enables Verify; the flag stays unset. */
  lemma VerifyFailureOutcome(cfg: Config, s: State, reply: Reply)
    requires cfg.otpEnabled && s.otp.verifiesInFlight > 0 && reply != Accepted
    ensures Step(cfg, s, VerifyReplied(reply)) ==
      s.(otp := s.otp.(verifiesInFlight := s.otp.verifiesInFlight - 1, message := Shown(Error),
                       verify := Button(true, VerifyLabel)))
  {
  }

  /** `clearOTPTimer` twice is `clearOTPTimer` once. */
  lemma ClearOTPTimerIdempotent(o: Otp)
    ensures ClearOTPTimer(ClearOTPTimer(o)) == ClearOTPTimer(o)
  {
  }

  // ----- token payment -----

  /** Clicking an enabled Pay disables it as "Processing Payment..." and requests an order; a disabled one does nothing. */
  lemma PayClickOutcome(cfg: Config, s: State)
    requires cfg.tokenEnabled
    ensures s.token.pay.enabled ==>
      Step(cfg, s, PayClicked) ==
      s.(token := s.token.(pay := Button(false, ProcessingLabel), ordersInFlight := s.token.ordersInFlight + 1))
    ensures !s.token.pay.enabled ==> Step(cfg, s, PayClicked) == s
  {
  }

  /**
   The order reply: in test mode the success feedback appears at once and
   the confirmation is scheduled; a live order opens the gateway when its
   SDK is loaded; anything else re-enables Pay.
   */
  lemma OrderReplyOutcome(cfg: Config, s: State, reply: OrderReply)
    requires cfg.tokenEnabled && s.token.ordersInFlight > 0
    ensures var r := Step(cfg, s, OrderReplied(reply));
      var t := s.token.(ordersInFlight := s.token.ordersInFlight - 1);
      && (reply == TestModeOrder ==>
            r == s.(token := t.(feedbackShown := true, testDelaysPending := t.testDelaysPending + 1)))
      && (reply == LiveOrder(true) ==> r == s.(token := t.(gatewaysOpen := t.gatewaysOpen + 1)))
      && (reply !in {TestModeOrder, LiveOrder(true)} ==> r == s.(token := t.(pay := Button(true, PayLabel))))
  {
  }

  /**
   The test-mode delay elapsing confirms the payment: the flag, the
   "Verified" badge, and Place Order enabled without the gate being run.
   */
  lemma TestModeDelayOutcome(cfg: Config, s: State)
    requires cfg.tokenEnabled && s.token.testDelaysPending > 0
    ensures Step(cfg, s, TestModeDelayElapsed) ==
      State(s.page.(placeOrderEnabled := true), s.otp,
            s.token.(testDelaysPending := s.token.testDelaysPending - 1, paid := true, badge := "Verified"))
  {
  }

  /** A gateway success shows the feedback and asks the server to check the payment. */
  lemma GatewaySuccessOutcome(cfg: Config, s: State)
    requires cfg.tokenEnabled && s.token.gatewaysOpen > 0
    ensures Step(cfg, s, GatewaySucceeded) ==
      s.(token := s.token.(gatewaysOpen := s.token.gatewaysOpen - 1, feedbackShown := true,
                           checksInFlight := s.token.checksInFlight + 1))
  {
  }

  /** A gateway failure reads "Failed" and re-enables Pay; the flag stays as it was. */
  lemma GatewayFailureOutcome(cfg: Config, s: State)
    requires cfg.tokenEnabled && s.token.gatewaysOpen > 0
    ensures Step(cfg, s, GatewayFailed) ==
      s.(token := s.token.(gatewaysOpen := s.token.gatewaysOpen - 1, pay := Button(true, PayLabel), badge := "Failed"))
  {
  }

  /**
   The server confirming the gateway payment sets the flag, shows
   "Verified" and enables Place Order directly, without the gate.
   */
  lemma ServerConfirmationOutcome(cfg: Config, s: State)
    requires cfg.tokenEnabled && s.token.checksInFlight > 0
    ensures Step(cfg, s, PaymentVerifyReplied(Accepted)) ==
      State(s.page.(placeOrderEnabled := true), s.otp,
            s.token.(checksInFlight := s.token.checksInFlight - 1, paid := true, badge := "Verified"))
  {
  }

  /**
   The server rejecting the payment, or the check failing, reads "Failed"
   but neither re-enables Pay nor withdraws the success feedback already
   shown.
   */
  lemma ServerRejectionOutcome(cfg: Config, s: State, reply: Reply)
    requires cfg.tokenEnabled && s.token.checksInFlight > 0 && reply != Accepted
    ensures Step(cfg, s, PaymentVerifyReplied(reply)) ==
      s.(token := s.token.(checksInFlight := s.token.checksInFlight - 1, badge := "Failed"))
  {
  }

  /**
   The confirmation box: ticked with the payment confirmed, it shows
   "Verified", appends `cod_token_verified` and runs the gate; otherwise
   only the tick itself is recorded.
   */
  lemma ConfirmationOutcome(cfg: Config, s: State, checked: bool)
    requires cfg.tokenEnabled
    ensures var r := Step(cfg, s, ConfirmationChanged(checked));
      && (checked && s.token.paid ==>
            r == CheckVerificationComplete(cfg,
                   State(s.page.(markers := s.page.markers + [TokenVerifiedMarker]), s.otp,
                         s.token.(confirmed := true, badge := "Verified"))))
      && (!(checked && s.token.paid) ==> r == s.(token := s.token.(confirmed := checked)))
  {
  }

  // ----- checkout page -----

  /** Switching payment method records it and re-runs `checkCODSelection`. */
  lemma PaymentMethodOutcome(cfg: Config, s: State, selected: string)
    ensures var r := Step(cfg, s, PaymentMethodChanged(selected));
      && r.page.paymentMethod == selected
      && (r.page.panelShown <==> s.page.panelShown || selected == "cod")
      && (r.page.warningShown <==> selected == "cod" && (!(s.otp.verified && s.token.paid) || s.page.warningShown))
      && r == s.(page := s.page.(paymentMethod := selected, panelShown := r.page.panelShown,
                                 warningShown := r.page.warningShown))
  {
  }

  /** A checkout refresh re-runs `checkCODSelection` on the current method. */
  lemma CheckoutUpdatedOutcome(cfg: Config, s: State)
    ensures var r := Step(cfg, s, CheckoutUpdated);
      && (r.page.panelShown <==> s.page.panelShown || s.page.paymentMethod == "cod")
      && (r.page.warningShown <==> s.page.paymentMethod == "cod" && (!(s.otp.verified && s.token.paid) || s.page.warningShown))
      && r == s.(page := s.page.(panelShown := r.page.panelShown, warningShown := r.page.warningShown))
  {
  }
}
