/**
 * The self-contained authority login page of the frontend app: "sending" a code only
 * raises a flag, and the login compares the typed CAPTCHA and code with
 * two fixed strings. The sign-up tab only reports that the registration
 * was submitted.
 */
module AuthorityLoginPage {

  /** The CAPTCHA the page displays, and the one code it accepts. */
  const FixedCaptcha := "X7K9M2"
  const FixedOtp := "123456"
  const RegistrationMessage := "Your registration is pending verification. You will receive an email confirmation."

  datatype LoginOutcome = OtpNotSent | CaptchaRejected | OtpRejected | LoginSucceeded

  /** The sign-up form's fields. */
  datatype SignupData = SignupData(authorityId: string, name: string, designation: string,
                                   department: string, email: string, password: string)

  /** `handleSignup`: the same report whatever was entered. */
  function HandleSignup(data: SignupData): (message: string)
    ensures message == RegistrationMessage
  {
    RegistrationMessage
  }

  class AuthorityLogin {
    var email: string
    var otp: string
    var captcha: string
    var isOtpSent: bool

    /** Before a code is "sent" the OTP and CAPTCHA fields are not rendered, so they are empty. */
    ghost predicate Valid()
      reads this
    {
      !isOtpSent ==> otp == "" && captcha == ""
    }

    constructor ()
      ensures Valid()
      ensures email == "" && otp == "" && captcha == "" && !isOtpSent
    {
      email := "";
      otp := "";
      captcha := "";
      isOtpSent := false;
    }

    /** Typing in the e-mail field. */
    method EnterEmail(text: string)
      requires Valid()
      modifies this
      ensures Valid()
      ensures email == text
      ensures otp == old(otp) && captcha == old(captcha) && isOtpSent == old(isOtpSent)
    {
      email := text;
    }

    /** Typing in the OTP field (rendered once the flag is set). */
    method EnterOtp(text: string)
      requires Valid() && isOtpSent
      modifies this
      ensures Valid()
      ensures otp == text
      ensures email == old(email) && captcha == old(captcha) && isOtpSent == old(isOtpSent)
    {
      otp := text;
    }

    /** Typing in the CAPTCHA field (rendered once the flag is set). */
    method EnterCaptcha(text: string)
      requires Valid() && isOtpSent
      modifies this
      ensures Valid()
      ensures captcha == text
      ensures email == old(email) && otp == old(otp) && isOtpSent == old(isOtpSent)
    {
      captcha := text;
    }

    /**
     * `handleSendOtp` (its button is rendered until the flag is set): an
     * empty e-mail is refused, any other text sets the flag, with no format
     * check. The OTP and CAPTCHA fields it reveals start out empty.
     */
    method SendOtp() returns (sent: bool)
      requires Valid() && !isOtpSent
      modifies this
      ensures Valid()
      ensures sent <==> old(email) != ""
      ensures isOtpSent == sent
      ensures email == old(email) && otp == old(otp) && captcha == old(captcha)
      ensures otp == "" && captcha == ""
    {
      if email == "" {
        return false;
      }
      isOtpSent := true;
      sent := true;
    }

    /**
     * `handleLogin`: the flag is checked first, then the CAPTCHA, then the
     * code. It changes no state, whatever the outcome.
     */
    method Login() returns (r: LoginOutcome)
      ensures r == OtpNotSent <==> !isOtpSent
      ensures r == CaptchaRejected <==> isOtpSent && captcha != FixedCaptcha
      ensures r == OtpRejected <==> isOtpSent && captcha == FixedCaptcha && otp != FixedOtp
      ensures r == LoginSucceeded <==> isOtpSent && captcha == FixedCaptcha && otp == FixedOtp
    {
      if !isOtpSent {
        return OtpNotSent;
      }
      if captcha != FixedCaptcha {
        return CaptchaRejected;
      }
      if otp != FixedOtp {
        return OtpRejected;
      }
      return LoginSucceeded;
    }
  }
}
