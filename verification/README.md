# COD verification gate — a Dafny model

This project models the browser side of a WooCommerce "cash on delivery
verifier": the script that decides when a cash-on-delivery checkout may
place its order (assets/script.js), and the configuration projection of
the verification box template (templates/otp-box.php).

A customer who chooses cash on delivery must complete up to two steps:

- **phone verification**: pick a country code, enter a number valid for
  it, request a one-time passcode (OTP), enter it and have it verified;
- **token payment**: pay a ₹1 token, either in test mode or through the
  Razorpay gateway, and have the server confirm it.

When every enabled step is complete the script hides the warning banner
and enables Place Order. It also appends hidden `cod_otp_verified` and
`cod_token_verified` inputs to the checkout form.

The model is a pure state machine:

- `Checkout.State` holds the script's module-level variables
  (`otpTimer`, `isOTPVerified`, `isTokenPaid`, the interval reference) and
  the DOM state it reads and writes: button enabled flags and labels,
  badges, the message box, the warning banner, Place Order and the
  appended markers.
- Every user action and every asynchronous completion is a
  `Checkout.Event`. Completions are AJAX replies, Razorpay callbacks and
  timer firings. `Checkout.Step` runs the handler the script attaches to
  the event, and `Checkout.Run` folds a trace of events.
- A completion arrives only for a request that was actually made. So the
  state also counts outstanding requests, open gateway sessions, pending
  test-mode delays and live countdown intervals. A completion with
  nothing outstanding changes nothing.
- The script attaches the OTP handlers only when OTP is enabled, and the
  token handlers only when the token is enabled. Events for a section
  that is switched off change nothing. A disabled button never fires a
  click.

Modules:

- `Decimal`: decimal text of integers, as printed in the "Resend (Ns)"
  label and read back by PHP `intval`.
- `Phone`: the per-country regular expressions, the helper texts and
  their sample numbers.
- `Template`: what the template renders for given stored options.
- `Checkout`: the state, the events and the handlers.
- `Outcomes`: what each event does, field by field.
- `Traces`: the invariant of reachable pages, monotonicity, gate
  completion in any order, and the countdown.
- `Scenarios`: end-to-end flows, and the places where the code's
  behaviour is surprising.

The model follows the code as written, including these behaviours:

- The gate reads `isTokenPaid` and never the confirmation checkbox.
  `Scenarios.GateWithoutCheckbox` shows a complete gate without the box
  ever ticked. The checkbox only adds the `cod_token_verified` marker.
- A confirmed payment enables Place Order directly, without running the
  gate (`Scenarios.PlaceOrderBeforeOtp`). It also does not hide the
  warning (`Scenarios.CompletionOrderAndWarning`).
- `resetOTPForm` (run on a country change) keeps `isOTPVerified`, the
  badge and the appended marker (`Scenarios.ResetKeepsVerification`).
  Nothing ever re-disables Place Order.
- The markers are named `cod_otp_verified` and `cod_token_verified`.
- A rejected server payment check leaves Pay disabled for good
  (`Traces.ServerRejectionLocksToken`). It also does not withdraw the
  success feedback (`Scenarios.OptimisticSuccessThenRejection`).
- While a send is outstanding `otpTimer` is still 0, so a phone edit
  re-enables Send. A second send then orphans the first countdown
  interval, and nothing can stop an orphaned interval
  (`Scenarios.DoubleSend`, `Scenarios.OrphanNeverStops`).
- Send is enabled at page load, before any number is entered
  (`Scenarios.SendEnabledAtLoad`).
- `checkCODSelection` renames the box's element id when it shows the
  box. Once shown, the box is therefore never hidden again
  (`Scenarios.BoxStaysShown`).
- Its warning test reads both flags whatever the configuration. With only
  OTP enabled, a checkout refresh brings the warning back after the gate
  completed (`Scenarios.WarningReturnsAfterRefresh`).

## Model

| member | source | states |
|---|---|---|
| Phone.TenDigitPattern | assets/script.js:137-146 | each of the three regular expressions is a leading class followed by nine `\d`, anchored at both ends: ten classes in all |
| Phone.MatchesIff | assets/script.js:137-146 | an anchored regular expression without quantifiers accepts exactly the strings of its own length that its classes accept position by position |
| Phone.PatternFor | assets/script.js:137-147 | the validator has a case for exactly the codes +91, +1 and +44 |
| Phone.TenDigitMatch | assets/script.js:139-146 | `[lo-hi]\d{9}` matches exactly the ten-character strings of ASCII digits whose first digit lies in lo..hi |
| Phone.ValidityByCountry | assets/script.js:130-147 | +91 accepts ten digits with first digit 6–9, +1 ten digits with first digit 2–9, +44 ten digits with first digit 7; any other code is invalid |
| Phone.ValidIsTenDigits | assets/script.js:130-147 | every accepted number is exactly ten ASCII digits |
| Phone.SampleNumbersAreValid | assets/script.js:111-128 | the example number each country's hint quotes passes that country's rule |
| Phone.IndianLowestAccepted | assets/script.js:139-140 | the +91 rule accepts a number starting with 6 |
| Phone.IndianHighestAccepted | assets/script.js:139-140 | the +91 rule accepts a number starting with 9 |
| Phone.IndianBoundariesRefused | assets/script.js:139-140 | the +91 rule refuses a leading 5, nine digits and eleven digits |
| Decimal.IntToString | assets/script.js:249 | the number in the "Resend (Ns)" label is non-empty decimal text that starts with '-' exactly for negative values |
| Template.IntVal | templates/otp-box.php:205 | PHP `intval` of the stored timer option always yields an integer in PHP's 64-bit range |
| Template.DigitRunRead | templates/otp-box.php:205 | `intval` of a plain digit run reads the whole run, before the out-of-range handling |
| Template.IntValOfDigitRun | templates/otp-box.php:205 | a digit run reads as its value while it fits in 64 bits, saturates to the largest integer beyond that, and reads as 0 once its double rounds to infinity (2^1024 - 2^970 and up) |
| Template.IntValRoundTrip | templates/otp-box.php:205 | `intval` reads back every 64-bit integer from its decimal text |
| Template.OfferedCodesByRegion | templates/otp-box.php:44-52 | +91 is offered iff the region is global or india, +1 iff global or usa, +44 iff global or uk; any other region offers no code |
| Template.OfferedCodesHaveRules | templates/otp-box.php:44-52 | every offered code has a case in the validator, so the validator's default `false` is never reached for an offered code, and each accepts its hint's sample |
| Template.SingleRegionHelperAgrees | templates/otp-box.php:63-71 | for india, usa or uk exactly one code is offered and selected, and the hint literal the template prints equals the script's hint for that code |
| Template.GlobalHelperIsGeneric | templates/otp-box.php:63-71 | with every region offered the page selects +91 yet prints the generic hint, which differs from the script's +91 hint |
| Template.SectionsFollowOptions | templates/otp-box.php:31-155 | the OTP section and badge render iff OTP is enabled, the token section and badge iff the token is enabled; both badges start "Pending"; the token step is "2" with OTP enabled and "1" otherwise |
| Template.Defaults | templates/otp-box.php:6-10 | with no stored option: OTP on, token on, test mode on, region india (so +91 only), timer 30, step "2", both badges "Pending" |
| Template.TimerSettingIsIntval | templates/otp-box.php:10 | PHP prints the `intval` of a stored timer option into the settings, so any 64-bit integer's decimal text is printed as that integer |
| Checkout.OtpBadgeText | assets/script.js:276-280 | `updateOTPStatus` shows "Verified" exactly for status 'verified' and "Pending" for everything else |
| Checkout.TokenBadgeText | assets/script.js:506-521 | `updateTokenStatus` shows "Verified" exactly for 'success' or 'verified', "Failed" exactly for 'failed', "Pending" otherwise |
| Checkout.CheckCODSelection | assets/script.js:35-52 | with cash on delivery selected the box is shown, and the warning is shown unless both flags hold; otherwise the warning is removed; a box once shown stays shown; nothing else changes |
| Checkout.CheckVerificationComplete | assets/script.js:523-534 | when every enabled step is complete the warning is hidden and Place Order enabled; otherwise nothing changes |
| Checkout.ValidatePhoneInput | assets/script.js:130-150 | Send is enabled iff the number is valid for the selected code and `otpTimer` is not positive; its label and everything else are kept |
| Checkout.ClearOTPTimer | assets/script.js:259-265 | `clearOTPTimer` leaves `otpTimer` 0 and no referenced interval, and changes nothing else |
| Checkout.StartOTPTimer | assets/script.js:243-257 | `startOTPTimer` sets `otpTimer` to the configured duration and references a new interval; a still-referenced one becomes an orphan |
| Checkout.Tick | assets/script.js:247-256 | each firing takes one second off and labels Send "Resend (Ns)"; at zero or below it clears the timer, labels Send "Resend OTP" and enables it iff the number is valid |
| Checkout.ResetOTPForm | assets/script.js:152-159 | `resetOTPForm` empties phone and code, disables both buttons, restores "Send OTP", stops the timer and hides the message, keeping the verified flag and badge |
| Checkout.OnSendReplied | assets/script.js:179-199 | a send reply never touches the verified flag, the badge or the outstanding verifies |
| Checkout.OtpLocal | assets/script.js:80-108 | the OTP handlers other than an accepted verify never set the verified flag or change the badge |
| Checkout.OnVerifyAccepted | assets/script.js:216-230 | an accepted verify sets the flag, shows the success message, sets the "Verified" badge and the "✓ Verified" label, and appends `cod_otp_verified`; then the gate completes iff the token is off or paid, and when it does the warning is hidden and Place Order enabled, otherwise the page keeps everything but the marker; the token section is untouched |
| Checkout.OnOrderReplied | assets/script.js:324-344 | an order reply never confirms the payment or changes the badge |
| Checkout.TokenLocal | assets/script.js:310-462 | the Pay click, order replies, gateway callbacks and rejected checks never confirm the payment |
| Checkout.OnTokenPaid | assets/script.js:444-450 | a confirmed payment sets `isTokenPaid` and the "Verified" badge and enables Place Order; Pay, the checkbox and the counters are kept, and the OTP section is untouched |
| Checkout.OnConfirmationChanged | assets/script.js:293-306 | the checkbox records its tick; ticked with the payment confirmed it sets the "Verified" badge, appends `cod_token_verified` and runs the gate, which completes iff OTP is off or verified and then hides the warning and enables Place Order; otherwise nothing else changes |
| Outcomes.OtpEventsIgnoredWhenDisabled | assets/script.js:77-78 | with OTP disabled no OTP handler is attached, so OTP events change nothing |
| Outcomes.TokenEventsIgnoredWhenDisabled | assets/script.js:283-284 | with the token disabled no token handler is attached, so token events change nothing |
| Outcomes.SendFollowsPhoneEdit | assets/script.js:130-150 | a phone edit stores the number and enables Send iff the number is valid and no countdown runs; nothing else changes |
| Checkout.Utf16Length | assets/script.js:98-99 | JavaScript's `length` lies between the character count and twice it, and equals the character count iff no character lies outside the Basic Multilingual Plane |
| Checkout.Utf16LengthAppend | assets/script.js:98-99 | JavaScript's `length` of a concatenation is the sum of the lengths |
| Checkout.AstralCodeLengths | assets/script.js:98-99 | four digits and an emoji are five characters but six code units; five digits and an emoji are seven code units |
| Outcomes.VerifyFollowsCodeEdit | assets/script.js:97-100 | a code edit stores it and enables Verify iff its JavaScript length (UTF-16 code units) is six; nothing else changes |
| Outcomes.VerifyCountsCodeUnits | assets/script.js:97-100 | four digits and an emoji enable Verify, five digits and an emoji do not |
| Outcomes.CountryChangeResets | assets/script.js:81-84 | a country change shows that country's hint and resets the form, keeping the verified flag, the badge, the page and the token section |
| Outcomes.ResetKeepsVerified | assets/script.js:152-159 | `resetOTPForm` does not undo a verification, and stops only the referenced interval |
| Outcomes.SendClickOutcome | assets/script.js:161-167 | clicking an enabled Send disables it as "Sending..." and issues one request; clicking a disabled one does nothing |
| Outcomes.SendAcceptedStartsCountdown | assets/script.js:179-182 | an accepted send shows success and starts the countdown from the configured duration; Send keeps its "Sending..." state until the first firing |
| Outcomes.SendFailureOutcome | assets/script.js:190-198 | a rejected or failed send shows an error, re-enables Send as "Send OTP" and starts no timer |
| Outcomes.VerifyClickOutcome | assets/script.js:202-206 | clicking an enabled Verify disables it as "Verifying..." and issues one request; a disabled one does nothing |
| Outcomes.VerifySuccessOutcome | assets/script.js:216-230 | an accepted verify sets the flag, the "Verified" badge, the "✓ Verified" label and `cod_otp_verified`, then runs the gate |
| Outcomes.VerifyFailureOutcome | assets/script.js:231-239 | a rejected or failed verify shows an error and re-enables Verify as "Verify"; the flag is unchanged |
| Outcomes.ClearOTPTimerIdempotent | assets/script.js:259-265 | clearing the timer twice is the same as clearing it once |
| Outcomes.PayClickOutcome | assets/script.js:310-314 | clicking an enabled Pay disables it as "Processing Payment..." and requests an order; a disabled one does nothing |
| Outcomes.OrderReplyOutcome | assets/script.js:325-343 | a test-mode order shows the success feedback and schedules the confirmation; a live order opens the gateway when the SDK is loaded; any other reply re-enables Pay |
| Outcomes.TestModeDelayOutcome | assets/script.js:354-357 | the test-mode delay sets `isTokenPaid`, the "Verified" badge and Place Order, without the gate |
| Outcomes.GatewaySuccessOutcome | assets/script.js:382-395 | a gateway success shows the success feedback and asks the server to check the payment |
| Outcomes.GatewayFailureOutcome | assets/script.js:417-422 | a gateway failure re-enables Pay and shows "Failed"; the flag is unchanged |
| Outcomes.ServerConfirmationOutcome | assets/script.js:443-450 | a server confirmation sets `isTokenPaid`, the "Verified" badge and Place Order, without the gate |
| Outcomes.ServerRejectionOutcome | assets/script.js:452-462 | a server rejection or error shows "Failed" but neither re-enables Pay nor withdraws the success feedback |
| Outcomes.ConfirmationOutcome | assets/script.js:293-306 | ticking the box with the payment confirmed shows "Verified", appends `cod_token_verified` and runs the gate; otherwise only the tick is recorded |
| Outcomes.PaymentMethodOutcome | assets/script.js:35-52 | a payment-method change records the method; the box shows for cash on delivery and stays shown; the warning shows only for cash on delivery with a flag unset or the warning already up |
| Outcomes.CheckoutUpdatedOutcome | assets/script.js:30-32 | a checkout refresh re-runs the same selection check on the current method |
| Traces.InitInv | assets/script.js:5-33 | the page after load satisfies the invariant of reachable pages |
| Traces.StepInv | assets/script.js:35-534 | every event keeps the invariant: badges agree with the flags, markers only follow the flags, at most one token operation is outstanding, Place Order is enabled only by the gate or a confirmed payment |
| Traces.RunInv | assets/script.js:35-534 | every trace keeps the invariant |
| Traces.ReachableInv | assets/script.js:5-534 | on every reachable page Place Order is enabled only with the gate complete or the payment confirmed, and each badge reads "Verified" exactly when its flag is set |
| Traces.StepMonotone | assets/script.js:8-9 | no event clears a flag, removes a marker, hides a shown box or stops an orphaned interval; at most one marker is appended |
| Traces.RunMonotone | assets/script.js:8-9 | over any trace no flag is cleared, no marker removed, no shown box hidden and no orphaned interval stopped, and at most one marker is appended per event |
| Traces.GateStaysComplete | assets/script.js:523-534 | once complete, the gate stays complete whatever happens next |
| Traces.FlagAfterRun | assets/script.js:8-9 | a flag holds after a trace exactly when it held before or some event of the trace set it |
| Traces.GateCompleteIffSteps | assets/script.js:523-534 | the gate is complete after a trace iff each enabled step was done before or completed during the trace, in either order |
| Traces.OtpVerifiedOnlyByAcceptedReply | assets/script.js:216-218 | `isOTPVerified` is set by an accepted verify reply and by nothing else |
| Traces.TokenPaidOnlyByConfirmation | assets/script.js:354-448 | `isTokenPaid` is set by the server confirmation or the test-mode delay and by nothing else |
| Traces.MarkerAppendedWhen | assets/script.js:224-303 | `cod_token_verified` is appended exactly on a tick with the payment confirmed, `cod_otp_verified` exactly on an accepted verify |
| Traces.CountdownRunning | assets/script.js:247-249 | each of the first k < d firings takes one second off and labels Send "Resend (Ns)"; nothing else changes |
| Traces.CountdownEnds | assets/script.js:251-255 | after exactly d firings the interval is cleared, `otpTimer` is 0, Send reads "Resend OTP" and is enabled iff the number is valid; further firings do nothing |
| Traces.StepKeepsTokenLocked | assets/script.js:452-462 | once Pay is disabled with nothing outstanding and no payment, no event changes that |
| Traces.RunKeepsTokenLocked | assets/script.js:452-462 | the same over any trace |
| Traces.ServerRejectionLocksToken | assets/script.js:452-462 | after a server rejection no trace re-enables Pay or confirms the token, so with the token required the gate never completes |
| Traces.GateIgnoresCheckbox | assets/script.js:523-534 | ticking or unticking the confirmation box never changes whether the gate is complete |
| Scenarios.CodPageAtLoad | assets/script.js:16-18 | right after load with cash on delivery: box and warning shown, Place Order disabled, no marker, nothing outstanding, Pay enabled |
| Scenarios.SendPhase | assets/script.js:161-182 | entering a valid number, sending and an accepted reply start the countdown with Send left "Sending..." |
| Scenarios.VerifyPhase | assets/script.js:202-230 | entering a six-character code, verifying and an accepted reply set the flag, badge, label and marker and run the gate |
| Scenarios.PhoneFlow | assets/script.js:87-241 | the full phone flow verifies the phone and completes the gate exactly when the token is off or already paid |
| Scenarios.TestModeFlow | assets/script.js:310-362 | paying in test mode confirms the token and enables Place Order, with Pay left disabled |
| Scenarios.OtpOnlyCheckout | assets/script.js:202-241 | OTP only: after the phone flow the gate is complete, Place Order enabled, the warning hidden and only `cod_otp_verified` appended |
| Scenarios.GatewayCancelled | assets/script.js:310-426 | token only: a gateway failure leaves "Failed", Place Order disabled and Pay enabled again |
| Scenarios.TestModePayment | assets/script.js:348-362 | test mode confirms the token without any gateway session |
| Scenarios.OptimisticSuccessThenRejection | assets/script.js:452-462 | gateway success then server rejection: "Failed", the success feedback not withdrawn, Pay disabled, and ticking the box appends no marker |
| Scenarios.PlaceOrderBeforeOtp | assets/script.js:446-450 | with both steps required, a confirmed payment alone enables Place Order although the phone was never verified |
| Scenarios.GateWithoutCheckbox | assets/script.js:523-534 | both steps done and the box never ticked: the gate is complete and Place Order enabled, yet `cod_token_verified` is absent |
| Scenarios.CompletionOrderAndWarning | assets/script.js:354-357 | either completion order completes the gate, but the warning is hidden only when the phone is verified last |
| Scenarios.SendEnabledAtLoad | templates/otp-box.php:59 | Send is enabled at load although the phone field is empty |
| Scenarios.DoubleSend | assets/script.js:149 | a phone edit during a send re-enables Send, the countdown then runs with Send enabled, and a second send orphans the first interval |
| Scenarios.OrphanNeverStops | assets/script.js:243-265 | an orphaned interval stays scheduled after any further events |
| Scenarios.BoxStaysShown | assets/script.js:35-52 | after switching away from cash on delivery the box stays displayed while the warning is removed |
| Scenarios.WarningReturnsAfterRefresh | assets/script.js:44-46 | with only OTP required and verified, a checkout refresh shows the warning again though the gate is complete |
| Scenarios.ResetKeepsVerification | assets/script.js:152-159 | changing the country after verifying resets the form but keeps the flag, the badge and the marker |

## Left out

- The DOM, CSS classes, the HTML and SVG markup and the animations are
  presentation only. The box is a flag, the message box is a kind, and
  server-supplied message texts are not modelled.
- `$.ajax` transport, nonces and the server handlers are not part of this
  model. Each reply is an abstract accepted, rejected or network-error
  event. The test-mode OTP returned by the server and its `alert` are
  not modelled.
- The Razorpay SDK (`new Razorpay`, `rzp1.open`, the options object and
  the signature) is a third-party library. Only its success and failure
  callbacks are modelled, as events. Whether `Razorpay` is defined is
  part of the order-reply event.
- Checkout.TokenLocal: each opened gateway session reports exactly one
  of success or failure. The script does not close the checkout on
  `payment.failed`, so a retry inside the gateway window after a failure
  can still reach the success handler; that is not modelled. The
  invariant's "at most one token operation outstanding" and
  `Traces.ServerRejectionLocksToken` rest on this assumption.
- Checkout.Tick: JavaScript numbers are doubles, so the model assumes
  a timer duration of at most 2^53. Above it `otpTimer--` can leave the
  value unchanged, and from 10^21 up `${otpTimer}` prints exponent form.
  `Traces.CountdownEnds` rests on the same assumption.
- Template.TimerSettingIsIntval: it states what PHP prints. The script
  reads that text as a double, so a value above 2^53 does not reach the
  script unchanged.
- Wall-clock time is not modelled. The 1000 ms interval is a tick event
  and the 1500 ms test-mode delay is its own event. The 500 ms alert
  delay is left out. So is the 5 s `hidePaymentPopup`, so
  `Token.feedbackShown` records that the feedback was displayed, not that
  it is still visible.
- `alert` and `console` output, and `generateQRCode` (unused, wraps a
  foreign library), are left out.
- WordPress `get_option` storage and `esc_js` are left out. The script's
  settings are a given `Checkout.Config`. The template writes
  `window.codVerifierSettings` while the script reads `codVerifier`, and
  that wiring is not modelled.
- `parseInt` of the timer duration is not modelled. `Config.otpTimerDuration`
  is already an integer, so a non-numeric setting (NaN) is not covered.
- `enablePlaceOrderButton` is assumed to find the button. The script never
  disables Place Order, so the model assumes the host page renders it
  disabled.
- Appending a marker assumes `form.checkout` exists.
- The host re-rendering the template (a checkout fragment refresh that
  replaces the box) is not modelled.
- At load the model sets the helper text for the selected code even when
  OTP is disabled. In that case the section is not rendered at all.
- The template's helper text is modelled with its surrounding whitespace
  stripped.
- Template.IntVal: its own contract only bounds the result. What it
  reads is stated by `Template.IntValRoundTrip` for canonical decimal
  text and by `Template.IntValOfDigitRun` for digit runs of any length. Exponent notation ("1e3") is read as its leading digits, whereas
  PHP 7.1 and later read it as a number.
- Checkout.OnSendReplied: its contract states only what a send reply
  keeps. Its results are stated by `Outcomes.SendAcceptedStartsCountdown`
  and `Outcomes.SendFailureOutcome`.
- Checkout.OtpLocal: its contract states only that the flag and badge
  are kept. The per-event results are stated by the `Outcomes` lemmas.
- Checkout.OnOrderReplied: its contract states only what an order reply
  keeps. Its results are stated by `Outcomes.OrderReplyOutcome`.
- Checkout.TokenLocal: its contract states only that the payment flag is
  kept. The per-event results are stated by the `Outcomes` lemmas.
- Decimal.IntToString: its contract states the sign character. Its
  inverse is stated by `Template.IntValRoundTrip`.
