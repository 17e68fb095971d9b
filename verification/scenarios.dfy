/**
 Event traces: the end-to-end checkout flows, and the places where the
 script's behaviour is surprising: the gate ignores the confirmation
 checkbox, a confirmed payment enables Place Order on its own, a country
 change keeps a completed verification, and countdown intervals can be
 orphaned.
 */
module Scenarios {
  import opened Checkout
  import opened Traces
  import opened Outcomes
  import Phone

  /** The sample number the Indian hint quotes. */
  const IndianNumber := Phone.SampleNumber("+91")

  /** Enter a number, send, the server accepts; enter a code, verify, the server accepts. */
  function VerifyPhone(phone: string, code: string): (es: seq<Event>)
    ensures |es| == 6
    ensures es[..3] == [PhoneInput(phone), SendClicked, SendReplied(Accepted)]
    ensures es[3..] == [OtpInput(code), VerifyClicked, VerifyReplied(Accepted)]
  {
    [PhoneInput(phone), SendClicked, SendReplied(Accepted), OtpInput(code), VerifyClicked, VerifyReplied(Accepted)]
  }

  /** The flow with the Indian sample number and a six-digit code. */
  const VerifyIndianPhone: seq<Event> := VerifyPhone(IndianNumber, "123456")

  /** Pay in test mode and let the confirmation delay elapse. */
  const PayInTestMode: seq<Event> := [PayClicked, OrderReplied(TestModeOrder), TestModeDelayElapsed]

  /** The page right after load with "+91" selected and cash on delivery chosen. */
  lemma CodPageAtLoad(cfg: Config)
    ensures var s := Init(cfg, "+91", "cod");
      && s.page == Page("cod", true, true, false, [])
      && s.otp.countryCode == "+91" && s.otp.timer == 0 && !s.otp.intervalTracked
      && s.otp.orphanIntervals == 0 && s.otp.sendsInFlight == 0 && s.otp.verifiesInFlight == 0
      && !s.otp.verified && s.otp.badge == "Pending"
      && s.token == Token(Button(true, PayLabel), false, "Pending", false, 0, 0, 0, 0, false)
  {
  }

  /**
   The first half of the phone flow: a valid number entered and sent, and
   the send accepted. The countdown starts and Send stays disabled as
   "Sending..." until the first firing.
   */
  lemma SendPhase(cfg: Config, s: State, phone: string)
    requires cfg.otpEnabled && Phone.IsValidPhone(s.otp.countryCode, phone) && s.otp.timer <= 0
    ensures Run(cfg, s, [PhoneInput(phone), SendClicked, SendReplied(Accepted)]) ==
      s.(otp := s.otp.(phone := phone, send := Button(false, SendingLabel), message := Shown(Success),
                       timer := cfg.otpTimerDuration, intervalTracked := true,
                       orphanIntervals := s.otp.orphanIntervals + (if s.otp.intervalTracked then 1 else 0)))
  {
    var s1 := Step(cfg, s, PhoneInput(phone));
    SendFollowsPhoneEdit(cfg, s, phone);
    var s2 := Step(cfg, s1, SendClicked);
    SendClickOutcome(cfg, s1);
    var s3 := Step(cfg, s2, SendReplied(Accepted));
    SendAcceptedStartsCountdown(cfg, s2);
    assert Run(cfg, s2, [SendReplied(Accepted)]) == s3;
    assert Run(cfg, s1, [SendClicked, SendReplied(Accepted)]) == s3;
  }

  /**
   The second half: a six-character code entered, verified and accepted.
   The flag, badge, button text and marker are set and the gate is run.
   */
  lemma VerifyPhase(cfg: Config, s: State, code: string)
    requires cfg.otpEnabled && Utf16Length(code) == 6
    ensures Run(cfg, s, [OtpInput(code), VerifyClicked, VerifyReplied(Accepted)]) ==
      CheckVerificationComplete(cfg,
        State(s.page.(markers := s.page.markers + [OtpVerifiedMarker]),
              s.otp.(code := code, verify := Button(false, VerifiedLabel), verified := true,
                     message := Shown(Success), badge := "Verified"),
              s.token))
  {
    var s1 := Step(cfg, s, OtpInput(code));
    VerifyFollowsCodeEdit(cfg, s, code);
    var s2 := Step(cfg, s1, VerifyClicked);
    VerifyClickOutcome(cfg, s1);
    var s3 := Step(cfg, s2, VerifyReplied(Accepted));
    VerifySuccessOutcome(cfg, s2);
    assert Run(cfg, s2, [VerifyReplied(Accepted)]) == s3;
    assert Run(cfg, s1, [VerifyClicked, VerifyReplied(Accepted)]) == s3;
  }

  /**
   From any page with no countdown running, entering a number valid for
   the selected country and a six-character code, with both requests
   accepted, verifies the phone, appends `cod_otp_verified`, starts the
   countdown, leaves the token section alone, and completes the gate
   exactly when the token is not required or already paid.
   */
  lemma PhoneFlow(cfg: Config, s: State, phone: string, code: string)
    requires cfg.otpEnabled && Phone.IsValidPhone(s.otp.countryCode, phone) && s.otp.timer <= 0 && Utf16Length(code) == 6
    ensures var r := Run(cfg, s, VerifyPhone(phone, code));
      && r.otp.verified && r.otp.badge == "Verified" && r.otp.verify.text == VerifiedLabel
      && r.otp.timer == cfg.otpTimerDuration && r.otp.intervalTracked
      && r.otp.orphanIntervals == s.otp.orphanIntervals + (if s.otp.intervalTracked then 1 else 0)
      && r.page.markers == s.page.markers + [OtpVerifiedMarker]
      && r.token == s.token
      && r.page.paymentMethod == s.page.paymentMethod && r.page.panelShown == s.page.panelShown
      && (GateComplete(cfg, r) <==> !cfg.tokenEnabled || s.token.paid)
      && (GateComplete(cfg, r) ==> r.page.placeOrderEnabled && !r.page.warningShown)
      && (!GateComplete(cfg, r) ==>
            r.page.placeOrderEnabled == s.page.placeOrderEnabled && r.page.warningShown == s.page.warningShown)
  {
    var es := VerifyPhone(phone, code);
    SendPhase(cfg, s, phone);
    var mid := Run(cfg, s, es[..3]);
    VerifyPhase(cfg, mid, code);
    assert es == es[..3] + es[3..];
    RunAppend(cfg, s, es[..3], es[3..]);
  }

  /**
   From any page where Pay is enabled, paying
   in test mode confirms the token: flag, "Verified" badge, feedback and
   Place Order enabled; Pay stays disabled and nothing else changes.
   */
  lemma TestModeFlow(cfg: Config, s: State)
    requires cfg.tokenEnabled && s.token.pay.enabled
    ensures Run(cfg, s, PayInTestMode) ==
      State(s.page.(placeOrderEnabled := true), s.otp,
            s.token.(pay := Button(false, ProcessingLabel), feedbackShown := true, paid := true, badge := "Verified"))
  {
    var s1 := Step(cfg, s, PayClicked);
    PayClickOutcome(cfg, s);
    var s2 := Step(cfg, s1, OrderReplied(TestModeOrder));
    OrderReplyOutcome(cfg, s1, TestModeOrder);
    var s3 := Step(cfg, s2, TestModeDelayElapsed);
    TestModeDelayOutcome(cfg, s2);
    assert Run(cfg, s2, [TestModeDelayElapsed]) == s3;
    assert Run(cfg, s1, [OrderReplied(TestModeOrder), TestModeDelayElapsed]) == s3;
  }

  /**
   OTP only: after the phone flow the gate is complete, Place Order
   enabled, the warning hidden and exactly `cod_otp_verified` appended.
   */
  lemma OtpOnlyCheckout()
    ensures var cfg := Config(true, false, 30);
      var r := Run(cfg, Init(cfg, "+91", "cod"), VerifyIndianPhone);
      && GateComplete(cfg, r) && r.page.placeOrderEnabled && !r.page.warningShown
      && r.page.markers == [OtpVerifiedMarker] && r.otp.badge == "Verified"
      && r.otp.timer == 30
  {
    var cfg := Config(true, false, 30);
    CodPageAtLoad(cfg);
    Phone.SampleNumbersAreValid("+91");
    PhoneFlow(cfg, Init(cfg, "+91", "cod"), IndianNumber, "123456");
  }

  /**
   Token only, live gateway: pay, the order is created, the gateway
   reports failure. The badge reads "Failed", Place Order stays disabled
   and Pay is enabled again.
   */
  lemma GatewayCancelled()
    ensures var cfg := Config(false, true, 30);
      var r := Run(cfg, Init(cfg, "+91", "cod"),
        [PayClicked, OrderReplied(LiveOrder(true)), GatewayFailed]);
      && r.token.badge == "Failed" && !r.page.placeOrderEnabled
      && r.token.pay == Button(true, PayLabel) && !GateComplete(cfg, r)
  {
    var cfg := Config(false, true, 30);
    var s0 := Init(cfg, "+91", "cod");
    CodPageAtLoad(cfg);
    var s1 := Step(cfg, s0, PayClicked);
    PayClickOutcome(cfg, s0);
    var s2 := Step(cfg, s1, OrderReplied(LiveOrder(true)));
    OrderReplyOutcome(cfg, s1, LiveOrder(true));
    var s3 := Step(cfg, s2, GatewayFailed);
    GatewayFailureOutcome(cfg, s2);
    assert Run(cfg, s2, [GatewayFailed]) == s3;
    assert Run(cfg, s1, [OrderReplied(LiveOrder(true)), GatewayFailed]) == s3;
  }

  /** In test mode the token is confirmed without any gateway session. */
  lemma TestModePayment()
    ensures var cfg := Config(false, true, 30);
      var r := Run(cfg, Init(cfg, "+91", "cod"), PayInTestMode);
      && r.token.paid && r.token.badge == "Verified" && r.page.placeOrderEnabled
      && r.token.feedbackShown && r.token.gatewaysOpen == 0
      && r.token.pay == Button(false, ProcessingLabel)
  {
    var cfg := Config(false, true, 30);
    CodPageAtLoad(cfg);
    TestModeFlow(cfg, Init(cfg, "+91", "cod"));
  }

  /**
   The gateway reports success, the success feedback is shown, then the
   server rejects the payment: the badge reads "Failed", the feedback
   stays, Pay stays disabled, and ticking the box appends no marker.
   */
  lemma OptimisticSuccessThenRejection()
    ensures var cfg := Config(false, true, 30);
      var r := Run(cfg, Init(cfg, "+91", "cod"),
        [PayClicked, OrderReplied(LiveOrder(true)), GatewaySucceeded,
         PaymentVerifyReplied(Rejected), ConfirmationChanged(true)]);
      && r.token.badge == "Failed" && r.token.feedbackShown && !r.token.paid
      && !r.token.pay.enabled && r.page.markers == [] && !r.page.placeOrderEnabled
  {
    var cfg := Config(false, true, 30);
    var s0 := Init(cfg, "+91", "cod");
    CodPageAtLoad(cfg);
    var s1 := Step(cfg, s0, PayClicked);
    PayClickOutcome(cfg, s0);
    var s2 := Step(cfg, s1, OrderReplied(LiveOrder(true)));
    OrderReplyOutcome(cfg, s1, LiveOrder(true));
    var s3 := Step(cfg, s2, GatewaySucceeded);
    GatewaySuccessOutcome(cfg, s2);
    var s4 := Step(cfg, s3, PaymentVerifyReplied(Rejected));
    ServerRejectionOutcome(cfg, s3, Rejected);
    var s5 := Step(cfg, s4, ConfirmationChanged(true));
    ConfirmationOutcome(cfg, s4, true);
    assert Run(cfg, s4, [ConfirmationChanged(true)]) == s5;
    assert Run(cfg, s3, [PaymentVerifyReplied(Rejected), ConfirmationChanged(true)]) == s5;
    assert Run(cfg, s2, [GatewaySucceeded, PaymentVerifyReplied(Rejected), ConfirmationChanged(true)]) == s5;
  }

  /**
   With both steps required, a confirmed payment alone enables Place
   Order although the phone was never verified.
   */
  lemma PlaceOrderBeforeOtp()
    ensures var cfg := Config(true, true, 30);
      var r := Run(cfg, Init(cfg, "+91", "cod"),
        [PayClicked, OrderReplied(LiveOrder(true)), GatewaySucceeded, PaymentVerifyReplied(Accepted)]);
      && r.page.placeOrderEnabled && !GateComplete(cfg, r) && !r.otp.verified
  {
    var cfg := Config(true, true, 30);
    var s0 := Init(cfg, "+91", "cod");
    CodPageAtLoad(cfg);
    var s1 := Step(cfg, s0, PayClicked);
    PayClickOutcome(cfg, s0);
    var s2 := Step(cfg, s1, OrderReplied(LiveOrder(true)));
    OrderReplyOutcome(cfg, s1, LiveOrder(true));
    var s3 := Step(cfg, s2, GatewaySucceeded);
    GatewaySuccessOutcome(cfg, s2);
    var s4 := Step(cfg, s3, PaymentVerifyReplied(Accepted));
    ServerConfirmationOutcome(cfg, s3);
    assert Run(cfg, s3, [PaymentVerifyReplied(Accepted)]) == s4;
    assert Run(cfg, s2, [GatewaySucceeded, PaymentVerifyReplied(Accepted)]) == s4;
    assert Run(cfg, s1, [OrderReplied(LiveOrder(true)), GatewaySucceeded, PaymentVerifyReplied(Accepted)]) == s4;
  }

  /**
   The gate reads the payment flag, not the confirmation box: both steps
   done, the box never ticked, the gate is complete and Place Order
   enabled, yet `cod_token_verified` was never appended.
   */
  lemma GateWithoutCheckbox()
    ensures var cfg := Config(true, true, 30);
      var r := Run(cfg, Init(cfg, "+91", "cod"), PayInTestMode + VerifyIndianPhone);
      && GateComplete(cfg, r) && r.page.placeOrderEnabled && !r.token.confirmed
      && TokenVerifiedMarker !in r.page.markers
  {
    var cfg := Config(true, true, 30);
    var s0 := Init(cfg, "+91", "cod");
    CodPageAtLoad(cfg);
    TestModeFlow(cfg, s0);
    var s1 := Run(cfg, s0, PayInTestMode);
    Phone.SampleNumbersAreValid("+91");
    PhoneFlow(cfg, s1, IndianNumber, "123456");
    RunAppend(cfg, s0, PayInTestMode, VerifyIndianPhone);
  }

  /**
   With both completions outstanding, either order of arrival ends with
   the gate complete and Place Order enabled, but a shown warning is
   hidden only when the phone is verified last: a confirmed payment
   enables Place Order without running the gate.
   */
  lemma CompletionOrderAndWarning(cfg: Config, s: State)
    requires cfg.otpEnabled && cfg.tokenEnabled
    requires !s.otp.verified && s.otp.verifiesInFlight > 0
    requires !s.token.paid && s.token.testDelaysPending > 0
    requires s.page.warningShown
    ensures var otpFirst := Run(cfg, s, [VerifyReplied(Accepted), TestModeDelayElapsed]);
      var tokenFirst := Run(cfg, s, [TestModeDelayElapsed, VerifyReplied(Accepted)]);
      && GateComplete(cfg, otpFirst) && GateComplete(cfg, tokenFirst)
      && otpFirst.page.placeOrderEnabled && tokenFirst.page.placeOrderEnabled
      && otpFirst.page.warningShown && !tokenFirst.page.warningShown
  {
    var a1 := Step(cfg, s, VerifyReplied(Accepted));
    VerifySuccessOutcome(cfg, s);
    TestModeDelayOutcome(cfg, a1);
    assert Run(cfg, a1, [TestModeDelayElapsed]) == Step(cfg, a1, TestModeDelayElapsed);
    var b1 := Step(cfg, s, TestModeDelayElapsed);
    TestModeDelayOutcome(cfg, s);
    VerifySuccessOutcome(cfg, b1);
    assert Run(cfg, b1, [VerifyReplied(Accepted)]) == Step(cfg, b1, VerifyReplied(Accepted));
  }

  /** At page load Send is enabled although the phone field is empty. */
  lemma SendEnabledAtLoad(cfg: Config, countryCode: string, paymentMethod: string)
    ensures var r := Init(cfg, countryCode, paymentMethod);
      r.otp.send.enabled && !Phone.IsValidPhone(r.otp.countryCode, r.otp.phone)
  {
    Phone.ValidityByCountry(countryCode, "");
  }

  /**
   While a send is outstanding `otpTimer` is still 0, so editing the
   number re-enables Send; the accepted reply then starts the countdown
   with Send enabled, and a second send during the countdown overwrites
   the first interval's reference, which can no longer be stopped.
   */
  lemma DoubleSend(cfg: Config, s: State)
    requires cfg.otpEnabled && cfg.otpTimerDuration > 0
    requires Phone.IsValidPhone(s.otp.countryCode, s.otp.phone) && s.otp.timer <= 0
    requires s.otp.send.enabled && !s.otp.intervalTracked
    ensures var counting := Run(cfg, s, [SendClicked, PhoneInput(s.otp.phone), SendReplied(Accepted)]);
      var r := Run(cfg, counting, [SendClicked, SendReplied(Accepted)]);
      && counting.otp.timer == cfg.otpTimerDuration && counting.otp.send.enabled
      && r.otp.orphanIntervals == s.otp.orphanIntervals + 1 && r.otp.intervalTracked
  {
    var s1 := Step(cfg, s, SendClicked);
    SendClickOutcome(cfg, s);
    var s2 := Step(cfg, s1, PhoneInput(s.otp.phone));
    SendFollowsPhoneEdit(cfg, s1, s.otp.phone);
    var s3 := Step(cfg, s2, SendReplied(Accepted));
    SendAcceptedStartsCountdown(cfg, s2);
    assert Run(cfg, s2, [SendReplied(Accepted)]) == s3;
    assert Run(cfg, s1, [PhoneInput(s.otp.phone), SendReplied(Accepted)]) == s3;
    var s4 := Step(cfg, s3, SendClicked);
    SendClickOutcome(cfg, s3);
    var s5 := Step(cfg, s4, SendReplied(Accepted));
    SendAcceptedStartsCountdown(cfg, s4);
    assert Run(cfg, s4, [SendReplied(Accepted)]) == s5;
  }

  /**
   An orphaned interval is never stopped: after any further events it is
   still scheduled, so the countdown callback keeps firing for the life of
   the page.
   */
  lemma OrphanNeverStops(cfg: Config, s: State, es: seq<Event>)
    requires s.otp.orphanIntervals > 0
    ensures LiveIntervals(Run(cfg, s, es).otp) > 0
  {
    RunMonotone(cfg, s, es);
  }

  /**
   Once shown, the verification box is never hidden again: switching to
   another payment method leaves it displayed (the warning is removed).
   */
  lemma BoxStaysShown()
    ensures var cfg := Config(true, true, 30);
      var r := Run(cfg, Init(cfg, "+91", "cod"), [PaymentMethodChanged("bacs")]);
      r.page.panelShown && !r.page.warningShown
  {
  }

  /**
   The warning test of `checkCODSelection` ignores the configuration: with
   only OTP required and verified, the gate is complete, yet the next
   checkout refresh shows the warning again.
   */
  lemma WarningReturnsAfterRefresh()
    ensures var cfg := Config(true, false, 30);
      var s := Run(cfg, Init(cfg, "+91", "cod"), VerifyIndianPhone);
      var r := Step(cfg, s, CheckoutUpdated);
      && !s.page.warningShown && GateComplete(cfg, r) && r.page.warningShown
  {
    var cfg := Config(true, false, 30);
    CodPageAtLoad(cfg);
    Phone.SampleNumbersAreValid("+91");
    PhoneFlow(cfg, Init(cfg, "+91", "cod"), IndianNumber, "123456");
    CheckoutUpdatedOutcome(cfg, Run(cfg, Init(cfg, "+91", "cod"), VerifyIndianPhone));
  }

  /**
   Changing the country after verifying resets the form but not the
   verification: the flag, the badge and the marker all remain.
   */
  lemma ResetKeepsVerification()
    ensures var cfg := Config(true, false, 30);
      var s := Run(cfg, Init(cfg, "+91", "cod"), VerifyIndianPhone + [CountryChanged("+44")]);
      && s.otp.verified && s.otp.badge == "Verified" && s.page.markers == [OtpVerifiedMarker]
      && s.otp.phone == "" && s.otp.send == Button(false, SendLabel) && GateComplete(cfg, s)
  {
    var cfg := Config(true, false, 30);
    var s0 := Init(cfg, "+91", "cod");
    CodPageAtLoad(cfg);
    Phone.SampleNumbersAreValid("+91");
    PhoneFlow(cfg, s0, IndianNumber, "123456");
    var s1 := Run(cfg, s0, VerifyIndianPhone);
    CountryChangeResets(cfg, s1, "+44");
    RunAppend(cfg, s0, VerifyIndianPhone, [CountryChanged("+44")]);
    assert Run(cfg, s1, [CountryChanged("+44")]) == Step(cfg, s1, CountryChanged("+44"));
  }
}
