/**
 Properties of the verification gate over whole event traces: the
 invariant every reachable page keeps, the flags that never fall back,
 how each flag and marker can come to be set, the resend countdown, and
 the token section that a rejected payment locks for good.
 */
module Traces {
  import opened Checkout
  import Phone

  /** Token-payment operations still outstanding: order request, test-mode delay, gateway session, server check. */
  function TokenOps(s: State): nat {
    s.token.ordersInFlight + s.token.testDelaysPending + s.token.gatewaysOpen + s.token.checksInFlight
  }

  /** What holds of every page reachable from `Init`. */
  predicate Inv(cfg: Config, s: State) {
    // the OTP badge is "Verified" exactly when the flag is set, "Pending" otherwise
    && (s.otp.badge == "Verified" <==> s.otp.verified)
    && (s.otp.badge == "Verified" || s.otp.badge == "Pending")
    && (OtpVerifiedMarker in s.page.markers <==> s.otp.verified)
    // the token badge is "Verified" exactly when the flag is set
    && (s.token.badge == "Verified" <==> s.token.paid)
    && (s.token.badge == "Verified" || s.token.badge == "Pending" || s.token.badge == "Failed")
    && (TokenVerifiedMarker in s.page.markers ==> s.token.paid)
    // at most one token operation at a time, none while Pay is enabled or once paid
    && TokenOps(s) <= 1
    && (s.token.pay.enabled ==> TokenOps(s) == 0 && !s.token.paid)
    && (s.token.paid ==> TokenOps(s) == 0 && !s.token.pay.enabled)
    // Place Order is only ever enabled by the gate or by a confirmed payment
    && (s.page.placeOrderEnabled ==> GateComplete(cfg, s) || s.token.paid)
    // a disabled step never progresses
    && (!cfg.otpEnabled ==> !s.otp.verified)
    && (!cfg.tokenEnabled ==> !s.token.paid && TokenOps(s) == 0)
  }

  lemma InitInv(cfg: Config, countryCode: string, paymentMethod: string)
    ensures Inv(cfg, Init(cfg, countryCode, paymentMethod))
  {
  }

  lemma OtpStepInv(cfg: Config, s: State, e: Event)
    requires Inv(cfg, s) && cfg.otpEnabled && IsOtpEvent(e)
    ensures Inv(cfg, OtpStep(cfg, s, e))
  {
    if e.VerifyReplied? && s.otp.verifiesInFlight > 0 {
      var r := OtpStep(cfg, s, e);
      assert OtpVerifiedMarker in r.page.markers <==> r.otp.verified;
    }
  }

  lemma ConfirmationInv(cfg: Config, s: State, checked: bool)
    requires Inv(cfg, s) && cfg.tokenEnabled
    ensures Inv(cfg, OnConfirmationChanged(cfg, s, checked))
  {
    var r := OnConfirmationChanged(cfg, s, checked);
    if checked && s.token.paid {
      assert OtpVerifiedMarker in r.page.markers <==> OtpVerifiedMarker in s.page.markers;
    }
  }

  lemma TokenPaidInv(cfg: Config, s: State, t: Token)
    requires Inv(cfg, s) && cfg.tokenEnabled
    requires t.ordersInFlight + t.testDelaysPending + t.gatewaysOpen + t.checksInFlight == 0 && !t.pay.enabled
    ensures Inv(cfg, OnTokenPaid(s, t))
  {
  }

  lemma TokenLocalInv(cfg: Config, s: State, e: Event)
    requires Inv(cfg, s) && cfg.tokenEnabled && IsTokenEvent(e)
    requires !(e.TestModeDelayElapsed? && s.token.testDelaysPending > 0)
    requires !(e.PaymentVerifyReplied? && e.reply == Accepted && s.token.checksInFlight > 0)
    requires !e.ConfirmationChanged?
    ensures Inv(cfg, s.(token := TokenLocal(s.token, e)))
  {
  }

  lemma TokenStepInv(cfg: Config, s: State, e: Event)
    requires Inv(cfg, s) && cfg.tokenEnabled && IsTokenEvent(e)
    ensures Inv(cfg, TokenStep(cfg, s, e))
  {
    var t := s.token;
    if e.TestModeDelayElapsed? && t.testDelaysPending > 0 {
      TokenPaidInv(cfg, s, t.(testDelaysPending := t.testDelaysPending - 1));
    } else if e.PaymentVerifyReplied? && e.reply == Accepted && t.checksInFlight > 0 {
      TokenPaidInv(cfg, s, t.(checksInFlight := t.checksInFlight - 1));
    } else if e.ConfirmationChanged? {
      ConfirmationInv(cfg, s, e.checked);
    } else {
      TokenLocalInv(cfg, s, e);
    }
  }

  lemma SelectionInv(cfg: Config, s: State)
    requires Inv(cfg, s)
    ensures Inv(cfg, CheckCODSelection(s))
  {
  }

  lemma TickInv(cfg: Config, s: State)
    requires Inv(cfg, s)
    ensures Inv(cfg, Step(cfg, s, TimerTick))
  {
  }

  /** Every event keeps the invariant. */
  lemma StepInv(cfg: Config, s: State, e: Event)
    requires Inv(cfg, s)
    ensures Inv(cfg, Step(cfg, s, e))
  {
    match e
    case PaymentMethodChanged(selected) => SelectionInv(cfg, s.(page := s.page.(paymentMethod := selected)));
    case CheckoutUpdated => SelectionInv(cfg, s);
    case TimerTick => TickInv(cfg, s);
    case _ =>
      if IsOtpEvent(e) {
        if cfg.otpEnabled { OtpStepInv(cfg, s, e); }
      } else if cfg.tokenEnabled {
        TokenStepInv(cfg, s, e);
      }
  }

  lemma {:induction false} RunInv(cfg: Config, s: State, es: seq<Event>)
    requires Inv(cfg, s)
    ensures Inv(cfg, Run(cfg, s, es))
    decreases |es|
  {
    if es != [] {
      StepInv(cfg, s, es[0]);
      RunInv(cfg, Step(cfg, s, es[0]), es[1..]);
    }
  }

  /** Running two traces one after the other is running their concatenation. */
  lemma {:induction false} RunAppend(cfg: Config, s: State, a: seq<Event>, b: seq<Event>)
    ensures Run(cfg, s, a + b) == Run(cfg, Run(cfg, s, a), b)
    decreases |a|
  {
    if a != [] {
      assert (a + b)[0] == a[0] && (a + b)[1..] == a[1..] + b;
      RunAppend(cfg, Step(cfg, s, a[0]), a[1..], b);
    } else {
      assert a + b == b;
    }
  }

  /**
   On every page reachable from load, Place Order is enabled only when the
   gate is complete or a token payment was confirmed, and each badge reads
   "Verified" exactly when its flag is set.
   */
  lemma ReachableInv(cfg: Config, countryCode: string, paymentMethod: string, es: seq<Event>)
    ensures var r := Run(cfg, Init(cfg, countryCode, paymentMethod), es);
      && (r.page.placeOrderEnabled ==> GateComplete(cfg, r) || r.token.paid)
      && (r.otp.badge == "Verified" <==> r.otp.verified)
      && (r.token.badge == "Verified" <==> r.token.paid)
      && (OtpVerifiedMarker in r.page.markers <==> r.otp.verified)
      && (TokenVerifiedMarker in r.page.markers ==> r.token.paid)
      && TokenOps(r) <= 1
  {
    InitInv(cfg, countryCode, paymentMethod);
    RunInv(cfg, Init(cfg, countryCode, paymentMethod), es);
  }

  // ----- monotone flags and markers -----

  /**
   No event clears a flag, removes a marker, hides a shown verification
   box or stops an orphaned interval; at most one marker is appended.
   */
  lemma StepMonotone(cfg: Config, s: State, e: Event)
    ensures var r := Step(cfg, s, e);
      && (s.otp.verified ==> r.otp.verified)
      && (s.token.paid ==> r.token.paid)
      && s.page.markers <= r.page.markers && |r.page.markers| <= |s.page.markers| + 1
      && (s.page.panelShown ==> r.page.panelShown)
      && r.otp.orphanIntervals >= s.otp.orphanIntervals
  {
  }

  lemma {:induction false} RunMonotone(cfg: Config, s: State, es: seq<Event>)
    ensures var r := Run(cfg, s, es);
      && (s.otp.verified ==> r.otp.verified)
      && (s.token.paid ==> r.token.paid)
      && s.page.markers <= r.page.markers && |r.page.markers| <= |s.page.markers| + |es|
      && (s.page.panelShown ==> r.page.panelShown)
      && r.otp.orphanIntervals >= s.otp.orphanIntervals
    decreases |es|
  {
    if es != [] {
      StepMonotone(cfg, s, es[0]);
      RunMonotone(cfg, Step(cfg, s, es[0]), es[1..]);
    }
  }

  /** Once complete, the gate stays complete whatever happens next. */
  lemma GateStaysComplete(cfg: Config, s: State, es: seq<Event>)
    requires GateComplete(cfg, s)
    ensures GateComplete(cfg, Run(cfg, s, es))
  {
    RunMonotone(cfg, s, es);
  }

  /** The two completion flags the gate reads. */
  datatype Flag = OtpFlag | TokenFlag

  function FlagValue(s: State, f: Flag): bool {
    match f
    case OtpFlag => s.otp.verified
    case TokenFlag => s.token.paid
  }

  /** The i-th event of the trace is the one that sets flag `f`. */
  predicate CompletedAt(cfg: Config, s: State, es: seq<Event>, i: nat, f: Flag)
    requires i < |es|
  {
    var before := Run(cfg, s, es[..i]);
    !FlagValue(before, f) && FlagValue(Step(cfg, before, es[i]), f)
  }

  /** Flag `f` holds at the start or some event of the trace sets it. */
  predicate SetDuring(cfg: Config, s: State, es: seq<Event>, f: Flag) {
    FlagValue(s, f) || exists i :: 0 <= i < |es| && CompletedAt(cfg, s, es, i, f)
  }

  lemma RunSplit(cfg: Config, s: State, es: seq<Event>, i: nat)
    requires 1 <= i <= |es|
    ensures Run(cfg, s, es[..i]) == Run(cfg, Step(cfg, s, es[0]), es[1..][..i - 1])
  {
    assert es[..i][1..] == es[1..][..i - 1];
  }

  lemma SetDuringShift(cfg: Config, s: State, es: seq<Event>, f: Flag)
    requires es != []
    ensures SetDuring(cfg, s, es, f) <==> SetDuring(cfg, Step(cfg, s, es[0]), es[1..], f)
  {
    var s1 := Step(cfg, s, es[0]);
    StepMonotone(cfg, s, es[0]);
    forall i | 1 <= i < |es|
      ensures CompletedAt(cfg, s, es, i, f) <==> CompletedAt(cfg, s1, es[1..], i - 1, f)
    {
      RunSplit(cfg, s, es, i);
    }
    if SetDuring(cfg, s, es, f) && !FlagValue(s, f) {
      var i :| 0 <= i < |es| && CompletedAt(cfg, s, es, i, f);
      if i > 0 {
        assert CompletedAt(cfg, s1, es[1..], i - 1, f);
      }
    }
    if SetDuring(cfg, s1, es[1..], f) && !FlagValue(s, f) {
      if FlagValue(s1, f) {
        assert CompletedAt(cfg, s, es, 0, f);
      } else {
        var j :| 0 <= j < |es[1..]| && CompletedAt(cfg, s1, es[1..], j, f);
        assert CompletedAt(cfg, s, es, j + 1, f);
      }
    }
  }

  /** A flag holds after a trace exactly when it held before or some event set it. */
  lemma {:induction false} FlagAfterRun(cfg: Config, s: State, es: seq<Event>, f: Flag)
    ensures FlagValue(Run(cfg, s, es), f) <==> SetDuring(cfg, s, es, f)
    decreases |es|
  {
    if es != [] {
      FlagAfterRun(cfg, Step(cfg, s, es[0]), es[1..], f);
      SetDuringShift(cfg, s, es, f);
    }
  }

  /**
   The gate is complete after a trace exactly when each enabled step was
   already done or was completed by some event of the trace, in whichever
   order the two completions arrive.
   */
  lemma GateCompleteIffSteps(cfg: Config, s: State, es: seq<Event>)
    ensures GateComplete(cfg, Run(cfg, s, es)) <==>
      (!cfg.otpEnabled || SetDuring(cfg, s, es, OtpFlag))
      && (!cfg.tokenEnabled || SetDuring(cfg, s, es, TokenFlag))
  {
    FlagAfterRun(cfg, s, es, OtpFlag);
    FlagAfterRun(cfg, s, es, TokenFlag);
  }

  // ----- how the flags and markers come to be set -----

  /** `isOTPVerified` is set by an accepted verify reply, and by nothing else. */
  lemma OtpVerifiedOnlyByAcceptedReply(cfg: Config, s: State, e: Event)
    requires !s.otp.verified
    ensures Step(cfg, s, e).otp.verified <==>
      cfg.otpEnabled && e == VerifyReplied(Accepted) && s.otp.verifiesInFlight > 0
  {
  }

  /**
   `isTokenPaid` is set by the server confirming the gateway payment or
   by the test-mode delay elapsing, and by nothing else.
   */
  lemma TokenPaidOnlyByConfirmation(cfg: Config, s: State, e: Event)
    requires !s.token.paid
    ensures Step(cfg, s, e).token.paid <==>
      cfg.tokenEnabled &&
      ((e == PaymentVerifyReplied(Accepted) && s.token.checksInFlight > 0)
       || (e == TestModeDelayElapsed && s.token.testDelaysPending > 0))
  {
  }

  /**
   `cod_token_verified` is appended exactly when the confirmation box is
   ticked while the payment is already confirmed; `cod_otp_verified`
   exactly on an accepted verify reply.
   */
  lemma MarkerAppendedWhen(cfg: Config, s: State, e: Event)
    ensures var r := Step(cfg, s, e);
      && s.page.markers <= r.page.markers
      && (TokenVerifiedMarker in r.page.markers[|s.page.markers|..] <==>
          cfg.tokenEnabled && e == ConfirmationChanged(true) && s.token.paid)
      && (OtpVerifiedMarker in r.page.markers[|s.page.markers|..] <==>
          cfg.otpEnabled && e == VerifyReplied(Accepted) && s.otp.verifiesInFlight > 0)
  {
    var r := Step(cfg, s, e);
    if cfg.tokenEnabled && e == ConfirmationChanged(true) && s.token.paid {
      assert r.page.markers[|s.page.markers|..] == [TokenVerifiedMarker];
    } else if cfg.otpEnabled && e == VerifyReplied(Accepted) && s.otp.verifiesInFlight > 0 {
      assert r.page.markers[|s.page.markers|..] == [OtpVerifiedMarker];
    } else {
      assert r.page.markers[|s.page.markers|..] == [];
    }
  }

  // ----- resend countdown -----

  /** The page after `n` firings of the countdown interval. */
  function Ticks(cfg: Config, s: State, n: nat): State
    decreases n
  {
    if n == 0 then s else Ticks(cfg, Step(cfg, s, TimerTick), n - 1)
  }

  lemma {:induction false} TicksAdd(cfg: Config, s: State, a: nat, b: nat)
    ensures Ticks(cfg, s, a + b) == Ticks(cfg, Ticks(cfg, s, a), b)
    decreases a
  {
    if a > 0 {
      TicksAdd(cfg, Step(cfg, s, TimerTick), a - 1, b);
    }
  }

  /**
   With one interval running and `d` seconds left, each of the first
   `k < d` firings takes one second off and relabels Send "Resend (Ns)";
   nothing else changes.
   */
  lemma {:induction false} CountdownRunning(cfg: Config, s: State, k: nat)
    requires s.otp.intervalTracked && s.otp.orphanIntervals == 0
    requires k < s.otp.timer
    ensures var r := Ticks(cfg, s, k);
      && r.otp.timer == s.otp.timer - k
      && r.otp.intervalTracked && r.otp.orphanIntervals == 0
      && r.otp.send.enabled == s.otp.send.enabled
      && (k > 0 ==> r.otp.send.text == CountdownLabel(s.otp.timer - k))
      && r == s.(otp := s.otp.(timer := r.otp.timer, send := r.otp.send))
    decreases k
  {
    if k > 0 {
      var s1 := Step(cfg, s, TimerTick);
      assert s1 == s.(otp := s.otp.(timer := s.otp.timer - 1, send := s.otp.send.(text := CountdownLabel(s.otp.timer - 1))));
      CountdownRunning(cfg, s1, k - 1);
    }
  }

  /**
   After exactly `d` firings from `d >= 1` seconds, the interval is
   cleared, `otpTimer` is 0, Send reads "Resend OTP" and is enabled iff the
   phone number is valid; further firings change nothing.
   */
  lemma CountdownEnds(cfg: Config, s: State)
    requires s.otp.intervalTracked && s.otp.orphanIntervals == 0
    requires s.otp.timer >= 1
    ensures var r := Ticks(cfg, s, s.otp.timer);
      && r.otp.timer == 0 && LiveIntervals(r.otp) == 0
      && r.otp.send.text == ResendLabel
      && (r.otp.send.enabled <==> Phone.IsValidPhone(s.otp.countryCode, s.otp.phone))
      && Step(cfg, r, TimerTick) == r
  {
    var d := s.otp.timer;
    CountdownRunning(cfg, s, d - 1);
    TicksAdd(cfg, s, d - 1, 1);
  }

  /** Pay is disabled, nothing is outstanding and the payment is unconfirmed. */
  predicate TokenLocked(s: State) {
    !s.token.pay.enabled && TokenOps(s) == 0 && !s.token.paid
  }

  lemma StepKeepsTokenLocked(cfg: Config, s: State, e: Event)
    requires TokenLocked(s)
    ensures TokenLocked(Step(cfg, s, e))
  {
  }

  lemma {:induction false} RunKeepsTokenLocked(cfg: Config, s: State, es: seq<Event>)
    requires TokenLocked(s)
    ensures TokenLocked(Run(cfg, s, es))
    decreases |es|
  {
    if es != [] {
      StepKeepsTokenLocked(cfg, s, es[0]);
      RunKeepsTokenLocked(cfg, Step(cfg, s, es[0]), es[1..]);
    }
  }

  /**
   After the server rejects a gateway payment, no sequence of events
   re-enables Pay or confirms the token, so with the token required the
   gate never completes for the rest of the page's life.
   */
  lemma ServerRejectionLocksToken(cfg: Config, s: State, reply: Reply, es: seq<Event>)
    requires Inv(cfg, s) && cfg.tokenEnabled && s.token.checksInFlight > 0 && reply != Accepted
    ensures var r := Run(cfg, Step(cfg, s, PaymentVerifyReplied(reply)), es);
      !r.token.pay.enabled && !r.token.paid && !GateComplete(cfg, r)
  {
    RunKeepsTokenLocked(cfg, Step(cfg, s, PaymentVerifyReplied(reply)), es);
  }

  /** The gate reads the payment flag only: ticking or unticking the box never changes it. */
  lemma GateIgnoresCheckbox(cfg: Config, s: State, checked: bool)
    ensures GateComplete(cfg, Step(cfg, s, ConfirmationChanged(checked))) == GateComplete(cfg, s)
  {
  }
}
