/**
 * The service-backed authority login page: an e-mail step, an Auth ID step
 * and an OTP step, with back buttons from the later steps and the same
 * resend countdown as the citizen page. Each handler of the page is a
 * method of the class below; `localStorage` writes go to the `storage` map.
 */
module AuthorityAuthPage {
  import opened Wrappers
  import opened Strings
  import opened Validation
  import opened AuthServiceModel
  import opened ResendCountdown

  datatype Step = EmailStep | AuthIdStep | OtpStep

  datatype EmailOutcome = EmailBlank | EmailMalformed | EmailNotRegistered | EmailAccepted
  datatype AuthIdOutcome = AuthIdBlank | AuthIdRejected(message: string) | SendRejected(message: string) | OtpSent(message: string)
  datatype OtpOutcome = OtpIncomplete | OtpRejected(message: string) | LoggedIn(token: string)
  datatype ResendOutcome = ResendBlocked | ResendRejected(message: string) | Resent

  const TokenKey := "authority_token"
  const EmailKey := "authority_email"
  const AuthIdKey := "authority_authid"
  const NameKey := "authority_name"
  const OtpLength: nat := 6

  /** `result.authorityName || ''`. */
  function NameOrEmpty(name: Option<string>): (n: string)
    ensures name.Some? ==> n == name.value
    ensures name.None? ==> n == ""
  {
    match name
    case Some(n) => n
    case None => ""
  }

  predicate NoLowerAscii(s: string) {
    forall i :: 0 <= i < |s| ==> !IsLowerAscii(s[i])
  }

  /** An e-mail the e-mail step lets through: well formed and in the authority table. */
  predicate RegisteredEmail(email: string) {
    IsEmail(email) && CheckAuthorityEmail(email).emailExists
  }

  /** The guards of `handleEmailSubmit` in order: blank, malformed, not in the table. */
  function EmailVerdict(email: string): (r: EmailOutcome)
    ensures r == EmailBlank <==> IsBlank(email)
    ensures r == EmailMalformed <==> !IsBlank(email) && !IsEmail(email)
    ensures r == EmailAccepted <==> !IsBlank(email) && RegisteredEmail(email)
  {
    if IsBlank(email) then EmailBlank
    else if !IsEmail(email) then EmailMalformed
    else if CheckAuthorityEmail(email).emailExists then EmailAccepted
    else EmailNotRegistered
  }

  /**
   * The form fields between handlers: the countdown fields agree, the
   * Auth ID is upper case, and each step has passed the checks of the
   * steps before it: past the e-mail step the e-mail is well formed (so
   * the service never rejects it); on the OTP step the Auth ID is valid.
   */
  predicate FormValid(step: Step, email: string, authID: string, otp: string, resendTimer: nat, canResend: bool) {
    && CountdownConsistent(resendTimer, canResend)
    && NoLowerAscii(authID)
    && (step != EmailStep ==> IsEmail(email))
    && (step == OtpStep ==> ValidateAuthID(authID).valid)
    && (step == EmailStep ==> authID == "")
    && (step != OtpStep ==> otp == "")
  }

  class AuthorityAuth {
    var step: Step
    var email: string
    var authID: string
    var otp: string
    var loading: bool
    var resendTimer: nat
    var canResend: bool
    var authorityName: string
    /** The page's view of `localStorage`. */
    var storage: map<string, string>
    const service: AuthService

    /**
     * Between handlers: nothing is loading, the countdown fields agree, the
     * Auth ID is upper case, and each step has passed the checks of the
     * steps before it: past the e-mail step the e-mail is well formed (so
     * the service never rejects it); on the OTP step the Auth ID is valid.
     */
    ghost predicate Valid()
      reads this, service
    {
      service.Valid() && !loading && FormValid(step, email, authID, otp, resendTimer, canResend)
    }

    constructor (service: AuthService, storage: map<string, string>)
      requires service.Valid()
      ensures Valid()
      ensures this.service == service && this.storage == storage
      ensures step == EmailStep && email == "" && authID == "" && otp == "" && authorityName == ""
      ensures resendTimer == 0 && canResend
    {
      this.service := service;
      this.storage := storage;
      step := EmailStep;
      email := "";
      authID := "";
      otp := "";
      loading := false;
      resendTimer := 0;
      canResend := true;
      authorityName := "";
    }

    /** Typing in the e-mail field (rendered on the e-mail step). */
    method EnterEmail(text: string)
      requires Valid() && step == EmailStep
      modifies this
      ensures Valid()
      ensures email == text
      ensures step == old(step) && authID == old(authID) && otp == old(otp)
      ensures authorityName == old(authorityName) && storage == old(storage)
      ensures resendTimer == old(resendTimer) && canResend == old(canResend)
    {
      email := text;
    }

    /** Typing in the Auth ID field (rendered on the Auth ID step): the text is upper-cased. */
    method EnterAuthId(text: string)
      requires Valid() && step == AuthIdStep
      modifies this
      ensures Valid()
      ensures authID == ToUpperAscii(text)
      ensures step == old(step) && email == old(email) && otp == old(otp)
      ensures authorityName == old(authorityName) && storage == old(storage)
      ensures resendTimer == old(resendTimer) && canResend == old(canResend)
    {
      authID := ToUpperAscii(text);
    }

    /** The OTP widget's `onChange` (rendered on the OTP step). */
    method EnterOtp(code: string)
      requires Valid() && step == OtpStep
      modifies this
      ensures Valid()
      ensures otp == code
      ensures step == old(step) && email == old(email) && authID == old(authID)
      ensures authorityName == old(authorityName) && storage == old(storage)
      ensures resendTimer == old(resendTimer) && canResend == old(canResend)
    {
      otp := code;
    }

    /** `startResendTimer`, without the interval itself (see ResendTick). */
    method StartResendTimer()
      modifies this
      ensures !canResend && resendTimer == ResendSeconds
      ensures step == old(step) && email == old(email) && authID == old(authID) && otp == old(otp)
      ensures authorityName == old(authorityName) && storage == old(storage) && loading == old(loading)
    {
      canResend := false;
      resendTimer := ResendSeconds;
    }

    /** `handleEmailSubmit`. */
    method EmailSubmit() returns (r: EmailOutcome)
      requires Valid() && step == EmailStep
      modifies this
      ensures Valid()
      ensures r == EmailVerdict(old(email))
      ensures step == (if r == EmailAccepted then AuthIdStep else EmailStep)
      ensures r == EmailAccepted ==> authorityName == NameOrEmpty(CheckAuthorityEmail(email).authorityName)
      ensures r != EmailAccepted ==> authorityName == old(authorityName)
      ensures email == old(email) && authID == old(authID) && otp == old(otp) && storage == old(storage)
      ensures resendTimer == old(resendTimer) && canResend == old(canResend)
    {
      r := EmailVerdict(email);
      if r == EmailAccepted {
        assert IsEmail(email);
        loading := true;
        var result := CheckAuthorityEmail(email);
        authorityName := NameOrEmpty(result.authorityName);
        step := AuthIdStep;
        loading := false;
      }
    }

    /** `handleAuthIDSubmit` with the service's random draw given as pick. */
    method AuthIdSubmit(pick: nat) returns (r: AuthIdOutcome)
      requires Valid() && step == AuthIdStep && pick < OtpSpan
      modifies this, service
      ensures Valid()
      ensures r == AuthIdBlank <==> IsBlank(old(authID))
      ensures r.AuthIdRejected? <==> !IsBlank(old(authID)) && !ValidateAuthID(old(authID)).valid
      ensures r.AuthIdRejected? ==> r.message == AuthIdInvalidMessage
      ensures r.OtpSent? <==> !IsBlank(old(authID)) && ValidateAuthID(old(authID)).valid
      ensures !r.SendRejected?
      ensures !r.OtpSent? ==> service.store == old(service.store) && step == AuthIdStep
                              && resendTimer == old(resendTimer) && canResend == old(canResend)
      ensures r.OtpSent? ==>
                && service.store == Issue(old(service.store), OtpRequest(email, Authority), pick).store
                && r.message == SentToEmailMessage
                && step == OtpStep && resendTimer == ResendSeconds && !canResend
      ensures email == old(email) && authID == old(authID) && otp == old(otp)
      ensures authorityName == old(authorityName) && storage == old(storage)
    {
      if IsBlank(authID) {
        return AuthIdBlank;
      }
      loading := true;
      var result := ValidateAuthID(authID);
      if result.valid {
        var otpResult := service.SendOTP(OtpRequest(email, Authority), pick);
        if otpResult.success {
          step := OtpStep;
          StartResendTimer();
          r := OtpSent(otpResult.message);
        } else {
          r := SendRejected(otpResult.message);
        }
      } else {
        r := AuthIdRejected(result.message);
      }
      loading := false;
    }

    /** `handleOTPSubmit` with the `Date.now()` reading given as now. */
    method OtpSubmit(now: nat) returns (r: OtpOutcome)
      requires Valid() && step == OtpStep
      modifies this, service
      ensures Valid()
      ensures r == OtpIncomplete <==> |old(otp)| != OtpLength
      ensures r == OtpIncomplete ==> service.store == old(service.store) && storage == old(storage)
      ensures |old(otp)| == OtpLength ==>
                var o := Verify(old(service.store), OtpVerify(email, otp, Authority), now);
                && service.store == o.store
                && (r.LoggedIn? <==> o.result.success)
                && (r.LoggedIn? ==> Some(r.token) == o.result.token
                                    && storage == old(storage)[TokenKey := r.token][EmailKey := email]
                                                   [AuthIdKey := authID][NameKey := authorityName])
                && (!r.LoggedIn? ==> r == OtpRejected(RejectionText(o.result.message))
                                     && storage == old(storage))
      ensures step == old(step) && email == old(email) && authID == old(authID) && otp == old(otp)
      ensures authorityName == old(authorityName)
      ensures resendTimer == old(resendTimer) && canResend == old(canResend)
    {
      if |otp| != OtpLength {
        return OtpIncomplete;
      }
      ghost var o := Verify(service.store, OtpVerify(email, otp, Authority), now);
      loading := true;
      var result := service.VerifyOTP(OtpVerify(email, otp, Authority), now);
      assert result == o.result && service.store == o.store;
      assert result.success == (result.token.Some? && result.token.value != "");
      if result.success && result.token.Some? && result.token.value != "" {
        SaveSession(result.token.value);
        r := LoggedIn(result.token.value);
      } else {
        r := OtpRejected(RejectionText(result.message));
      }
      loading := false;
    }

    /** The four `localStorage.setItem` calls of a successful login. */
    method SaveSession(token: string)
      modifies this
      ensures storage == old(storage)[TokenKey := token][EmailKey := email][AuthIdKey := authID][NameKey := authorityName]
      ensures step == old(step) && email == old(email) && authID == old(authID) && otp == old(otp)
      ensures authorityName == old(authorityName) && loading == old(loading)
      ensures resendTimer == old(resendTimer) && canResend == old(canResend)
    {
      storage := storage[TokenKey := token];
      storage := storage[EmailKey := email];
      storage := storage[AuthIdKey := authID];
      storage := storage[NameKey := authorityName];
    }

    /** One firing of the one-second resend interval. */
    method ResendTick()
      requires Valid()
      modifies this
      ensures Valid()
      ensures resendTimer == TickTimer(old(resendTimer))
      ensures canResend == (old(canResend) || TickEnables(old(resendTimer)))
      ensures step == old(step) && email == old(email) && authID == old(authID) && otp == old(otp)
      ensures authorityName == old(authorityName) && storage == old(storage)
    {
      TickKeepsConsistent(resendTimer, canResend);
      if resendTimer <= 1 {
        canResend := true;
        resendTimer := 0;
      } else {
        resendTimer := resendTimer - 1;
      }
    }

    /** `handleResendOTP` (its button is rendered on the OTP step). */
    method ResendOtp(pick: nat) returns (r: ResendOutcome)
      requires Valid() && step == OtpStep && pick < OtpSpan
      modifies this, service
      ensures Valid()
      ensures r == ResendBlocked <==> !old(canResend)
      ensures !r.ResendRejected?
      ensures r == ResendBlocked ==> service.store == old(service.store)
                                     && resendTimer == old(resendTimer) && !canResend
      ensures r == Resent ==> service.store == Issue(old(service.store), OtpRequest(email, Authority), pick).store
                              && resendTimer == ResendSeconds && !canResend
      ensures step == old(step) && email == old(email) && authID == old(authID) && otp == old(otp)
      ensures authorityName == old(authorityName) && storage == old(storage)
    {
      if !canResend {
        return ResendBlocked;
      }
      loading := true;
      var result := service.SendOTP(OtpRequest(email, Authority), pick);
      if result.success {
        StartResendTimer();
        r := Resent;
      } else {
        r := ResendRejected(result.message);
      }
      loading := false;
    }

    /** The back button of the Auth ID step: to the e-mail step, clearing the Auth ID. */
    method BackToEmail()
      requires Valid() && step == AuthIdStep
      modifies this
      ensures Valid()
      ensures step == EmailStep && authID == ""
      ensures email == old(email) && otp == old(otp) && authorityName == old(authorityName)
      ensures storage == old(storage) && resendTimer == old(resendTimer) && canResend == old(canResend)
    {
      step := EmailStep;
      authID := "";
    }

    /** The back button of the OTP step: to the Auth ID step, clearing the OTP. */
    method BackToAuthId()
      requires Valid() && step == OtpStep
      modifies this
      ensures Valid()
      ensures step == AuthIdStep && otp == ""
      ensures email == old(email) && authID == old(authID) && authorityName == old(authorityName)
      ensures storage == old(storage) && resendTimer == old(resendTimer) && canResend == old(canResend)
    {
      step := AuthIdStep;
      otp := "";
    }
  }

  /**
   * The Auth ID field upper-cases what is typed, so an ID typed in lower
   * case is still one of the valid IDs.
   */
  lemma LowerCaseAuthIdAccepted()
    ensures ValidateAuthID(ToUpperAscii("auth001")).valid
  {
    assert ToUpperAscii("auth001") == "AUTH001";
  }

  /** A registered address is never blank, so the blank guard never hides a registered one. */
  /**
   * On the one path that uses it, the `|| ''` fallback never fires: a
   * registered address always comes with its entry's non-empty name.
   */
  lemma RegisteredNameShown(email: string)
    requires CheckAuthorityEmail(email).emailExists
    ensures NameOrEmpty(CheckAuthorityEmail(email).authorityName) != ""
    ensures exists i :: 0 <= i < |MockAuthorityDB| && MockAuthorityDB[i].email == email
                        && NameOrEmpty(CheckAuthorityEmail(email).authorityName) == MockAuthorityDB[i].name
  {
    RegisteredAddresses(email);
  }

  lemma RegisteredEmailIsNotBlank(email: string)
    requires RegisteredEmail(email)
    ensures !IsBlank(email)
  {
    BlankIffAllWhitespace(email);
    assert IndexOf(email, '@') > 0;
    assert !IsWhitespace(email[0]);
  }
}
