/**
 * The service-backed citizen login page: a phone step and an OTP step.
 * The phone step sends a six-digit code through the authentication
 * service; the OTP step verifies it, can resend after a countdown, and can
 * go back to change the number. Each handler of the page is a method of
 * the class below; the page's `localStorage` writes go to the `storage` map.
 */
module CitizenAuthPage {
  import opened Wrappers
  import opened Strings
  import opened Validation
  import opened AuthServiceModel
  import opened ResendCountdown

  datatype Step = PhoneStep | OtpStep

  /** The phone field's change handler: `raw.replace(/\D/g, '').slice(0, 10)`. */
  function SanitizePhone(raw: string): (phone: string)
    ensures AllDigits(phone) && |phone| <= 10
    ensures |phone| <= |DigitsOnly(raw)| && phone == DigitsOnly(raw)[..|phone|]
    ensures |phone| == 10 || phone == DigitsOnly(raw)
  {
    Take(DigitsOnly(raw), 10)
  }

  /** Sanitising an already sanitised number changes nothing. */
  lemma SanitizePhoneIdempotent(raw: string)
    ensures SanitizePhone(SanitizePhone(raw)) == SanitizePhone(raw)
  {
    DigitsOnlyOfDigits(SanitizePhone(raw));
  }

  datatype PhoneOutcome = PhoneBlank | PhoneInvalid | SendRejected(message: string) | OtpSent(message: string)
  datatype OtpOutcome = OtpIncomplete | OtpRejected(message: string) | LoggedIn(token: string)
  datatype ResendOutcome = ResendBlocked | ResendRejected(message: string) | Resent

  const TokenKey := "citizen_token"
  const PhoneKey := "citizen_phone"
  const OtpLength: nat := 6

  class CitizenAuth {
    var step: Step
    var phone: string
    var otp: string
    var loading: bool
    var resendTimer: nat
    var canResend: bool
    /** The page's view of `localStorage`. */
    var storage: map<string, string>
    const service: AuthService

    /**
     * Between handlers: nothing is loading, the countdown fields agree, the
     * phone is a sanitised number, the OTP step is reached only with a
     * ten-digit phone, and the OTP field is empty on the phone step.
     */
    ghost predicate Valid()
      reads this, service
    {
      && service.Valid()
      && !loading
      && CountdownConsistent(resendTimer, canResend)
      && AllDigits(phone) && |phone| <= 10
      && (step == OtpStep ==> IsTenDigitPhone(phone))
      && (step == PhoneStep ==> otp == "")
    }

    constructor (service: AuthService, storage: map<string, string>)
      requires service.Valid()
      ensures Valid()
      ensures this.service == service && this.storage == storage
      ensures step == PhoneStep && phone == "" && otp == ""
      ensures resendTimer == 0 && canResend
    {
      this.service := service;
      this.storage := storage;
      step := PhoneStep;
      phone := "";
      otp := "";
      loading := false;
      resendTimer := 0;
      canResend := true;
    }

    /** Typing in the phone field (rendered on the phone step). */
    method EnterPhone(raw: string)
      requires Valid() && step == PhoneStep
      modifies this
      ensures Valid()
      ensures phone == SanitizePhone(raw)
      ensures step == old(step) && otp == old(otp) && storage == old(storage)
      ensures resendTimer == old(resendTimer) && canResend == old(canResend)
    {
      phone := SanitizePhone(raw);
    }

    /** The OTP widget's `onChange` (rendered on the OTP step). */
    method EnterOtp(code: string)
      requires Valid() && step == OtpStep
      modifies this
      ensures Valid()
      ensures otp == code
      ensures step == old(step) && phone == old(phone) && storage == old(storage)
      ensures resendTimer == old(resendTimer) && canResend == old(canResend)
    {
      otp := code;
    }

    /** `startResendTimer`, without the interval itself (see ResendTick). */
    method StartResendTimer()
      modifies this
      ensures !canResend && resendTimer == ResendSeconds
      ensures step == old(step) && phone == old(phone) && otp == old(otp)
      ensures storage == old(storage) && loading == old(loading)
    {
      canResend := false;
      resendTimer := ResendSeconds;
    }

    /** `handlePhoneSubmit` with the service's random draw given as pick. */
    method PhoneSubmit(pick: nat) returns (r: PhoneOutcome)
      requires Valid() && step == PhoneStep && pick < OtpSpan
      modifies this, service
      ensures Valid()
      ensures r == PhoneBlank <==> IsBlank(old(phone))
      ensures r == PhoneBlank <==> old(phone) == []
      ensures r == PhoneInvalid <==> old(phone) != [] && !IsTenDigitPhone(old(phone))
      ensures r.OtpSent? <==> IsTenDigitPhone(old(phone))
      ensures !r.SendRejected?
      ensures !r.OtpSent? ==> service.store == old(service.store) && step == PhoneStep
                              && resendTimer == old(resendTimer) && canResend == old(canResend)
      ensures r.OtpSent? ==>
                && service.store == Issue(old(service.store), OtpRequest(phone, Citizen), pick).store
                && r.message == SentToPhoneMessage
                && step == OtpStep && resendTimer == ResendSeconds && !canResend
      ensures phone == old(phone) && otp == old(otp) && storage == old(storage)
    {
      DigitsBlankIffEmpty(phone);
      if IsBlank(phone) {
        return PhoneBlank;
      }
      if !IsTenDigitPhone(phone) {
        return PhoneInvalid;
      }
      loading := true;
      var result := service.SendOTP(OtpRequest(phone, Citizen), pick);
      if result.success {
        step := OtpStep;
        StartResendTimer();
        r := OtpSent(result.message);
      } else {
        r := SendRejected(result.message);
      }
      loading := false;
    }

    /** `handleOTPSubmit` with the `Date.now()` reading given as now. */
    method OtpSubmit(now: nat) returns (r: OtpOutcome)
      requires Valid() && step == OtpStep
      modifies this, service
      ensures Valid()
      ensures r == OtpIncomplete <==> |old(otp)| != OtpLength
      ensures r == OtpIncomplete ==> service.store == old(service.store) && storage == old(storage)
      ensures |old(otp)| == OtpLength ==>
                var o := Verify(old(service.store), OtpVerify(phone, otp, Citizen), now);
                && service.store == o.store
                && (r.LoggedIn? <==> o.result.success)
                && (r.LoggedIn? ==> Some(r.token) == o.result.token
                                    && storage == old(storage)[TokenKey := r.token][PhoneKey := phone])
                && (!r.LoggedIn? ==> r == OtpRejected(RejectionText(o.result.message))
                                     && storage == old(storage))
      ensures step == old(step) && phone == old(phone) && otp == old(otp)
      ensures resendTimer == old(resendTimer) && canResend == old(canResend)
    {
      if |otp| != OtpLength {
        return OtpIncomplete;
      }
      ghost var o := Verify(service.store, OtpVerify(phone, otp, Citizen), now);
      loading := true;
      var result := service.VerifyOTP(OtpVerify(phone, otp, Citizen), now);
      assert result == o.result && service.store == o.store;
      if result.success && result.token.Some? && result.token.value != "" {
        storage := storage[TokenKey := result.token.value];
        storage := storage[PhoneKey := phone];
        r := LoggedIn(result.token.value);
      } else {
        r := OtpRejected(RejectionText(result.message));
      }
      loading := false;
    }

    /** One firing of the one-second resend interval. */
    method ResendTick()
      requires Valid()
      modifies this
      ensures Valid()
      ensures resendTimer == TickTimer(old(resendTimer))
      ensures canResend == (old(canResend) || TickEnables(old(resendTimer)))
      ensures step == old(step) && phone == old(phone) && otp == old(otp) && storage == old(storage)
    {
      TickKeepsConsistent(resendTimer, canResend);
      if resendTimer <= 1 {
        canResend := true;
        resendTimer := 0;
      } else {
        resendTimer := resendTimer - 1;
      }
    }

    /** `handleResendOTP` (its button is rendered on the OTP step). */
    method ResendOtp(pick: nat) returns (r: ResendOutcome)
      requires Valid() && step == OtpStep && pick < OtpSpan
      modifies this, service
      ensures Valid()
      ensures r == ResendBlocked <==> !old(canResend)
      ensures !r.ResendRejected?
      ensures r == ResendBlocked ==> service.store == old(service.store)
                                     && resendTimer == old(resendTimer) && !canResend
      ensures r == Resent ==> service.store == Issue(old(service.store), OtpRequest(phone, Citizen), pick).store
                              && resendTimer == ResendSeconds && !canResend
      ensures step == old(step) && phone == old(phone) && otp == old(otp) && storage == old(storage)
    {
      if !canResend {
        return ResendBlocked;
      }
      loading := true;
      var result := service.SendOTP(OtpRequest(phone, Citizen), pick);
      if result.success {
        StartResendTimer();
        r := Resent;
      } else {
        r := ResendRejected(result.message);
      }
      loading := false;
    }

    /** The "Change phone number" button on the OTP step. */
    method ChangePhone()
      requires Valid() && step == OtpStep
      modifies this
      ensures Valid()
      ensures step == PhoneStep && otp == ""
      ensures phone == old(phone) && storage == old(storage)
      ensures resendTimer == old(resendTimer) && canResend == old(canResend)
    {
      step := PhoneStep;
      otp := "";
    }
  }
}
