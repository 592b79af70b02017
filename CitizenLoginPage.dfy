/**
 * The self-contained citizen login page of the frontend app: it checks the phone
 * number itself, makes up a four-digit code locally, and guards the submit
 * with a six-character CAPTCHA that a one-minute interval regenerates.
 * Random draws are parameters: `Math.floor(Math.random() * n)` becomes a
 * pick below n.
 */
module CitizenLoginPage {
  import opened Strings
  import opened Decimal
  import opened Validation
  import opened AuthServiceModel
  import CitizenAuthPage

  /** The CAPTCHA alphabet: upper-case letters and digits without I, O, 0 and 1. */
  const CaptchaAlphabet := "ABCDEFGHJKLMNPQRSTUVWXYZ23456789"
  const CaptchaLength: nat := 6
  const CaptchaSeconds: nat := 60

  /** One draw per CAPTCHA character, each an index into the alphabet. */
  predicate CaptchaPicks(picks: seq<nat>) {
    |picks| == CaptchaLength && forall i :: 0 <= i < |picks| ==> picks[i] < |CaptchaAlphabet|
  }

  /** A string generateCaptcha can return: six characters of the alphabet. */
  predicate IsCaptcha(c: string) {
    |c| == CaptchaLength && forall i :: 0 <= i < |c| ==> c[i] in CaptchaAlphabet
  }

  /** The CAPTCHA the draws pick out, character by character. */
  function CaptchaOf(picks: seq<nat>): (c: string)
    requires CaptchaPicks(picks)
    ensures |c| == |picks|
    ensures forall i :: 0 <= i < |c| ==> c[i] == CaptchaAlphabet[picks[i]]
  {
    seq(|picks|, i requires 0 <= i < |picks| => CaptchaAlphabet[picks[i]])
  }

  /** The alphabet spelled out: A to Z without I and O, then 2 to 9. */
  predicate IsCaptchaChar(c: char) {
    ('A' <= c <= 'Z' && c != 'I' && c != 'O') || ('2' <= c <= '9')
  }

  /** The alphabet has 32 characters, and each of them is one of those. */
  lemma AlphabetIsCaptchaChars()
    ensures |CaptchaAlphabet| == 32
    ensures forall k :: 0 <= k < |CaptchaAlphabet| ==> IsCaptchaChar(CaptchaAlphabet[k])
  {
  }

  /** The hard-to-read characters never appear in a CAPTCHA. */
  lemma CaptchaAvoidsLookalikes(c: string)
    requires IsCaptcha(c)
    ensures forall i :: 0 <= i < |c| ==> IsCaptchaChar(c[i])
    ensures forall i :: 0 <= i < |c| ==> c[i] != 'I' && c[i] != 'O' && c[i] != '0' && c[i] != '1'
  {
    AlphabetIsCaptchaChars();
    forall i | 0 <= i < |c| ensures IsCaptchaChar(c[i]) {
      var k :| 0 <= k < |CaptchaAlphabet| && CaptchaAlphabet[k] == c[i];
    }
  }

  /** Every draw gives a CAPTCHA, and every CAPTCHA comes from some draw. */
  lemma CaptchaOfCoversAll(picks: seq<nat>, c: string)
    ensures CaptchaPicks(picks) ==> IsCaptcha(CaptchaOf(picks))
    ensures IsCaptcha(c) ==> exists p :: CaptchaPicks(p) && CaptchaOf(p) == c
  {
    if IsCaptcha(c) {
      var p := PicksFor(CaptchaAlphabet, c);
      assert CaptchaOf(p) == c;
    }
  }

  /** For each character of c, a position of that character in the alphabet a. */
  ghost function PicksFor(a: string, c: string): (p: seq<nat>)
    requires forall i :: 0 <= i < |c| ==> c[i] in a
    ensures |p| == |c|
    ensures forall i :: 0 <= i < |p| ==> p[i] < |a| && a[p[i]] == c[i]
  {
    if c == [] then []
    else
      var k :| 0 <= k < |a| && a[k] == c[0];
      [k] + PicksFor(a, c[1..])
  }

  /** `generateCaptcha`: six appends of a drawn alphabet character. */
  method GenerateCaptcha(picks: seq<nat>) returns (captcha: string)
    requires CaptchaPicks(picks)
    ensures captcha == CaptchaOf(picks)
    ensures IsCaptcha(captcha)
  {
    captcha := "";
    var i := 0;
    while i < CaptchaLength
      invariant 0 <= i <= CaptchaLength
      invariant captcha == CaptchaOf(picks)[..i]
    {
      captcha := captcha + [CaptchaAlphabet[picks[i]]];
      i := i + 1;
    }
    assert CaptchaOf(picks)[..CaptchaLength] == CaptchaOf(picks);
  }

  /** A code this page generates: four decimal digits without a leading zero. */
  predicate IsFourDigitCode(code: string) {
    |code| == 4 && AllDigits(code) && 1000 <= DecimalValue(code) <= 9999
  }

  /** `Math.floor(1000 + Math.random() * 9000).toString()` for the pick the draw made. */
  function GenerateOtp(pick: nat): (code: string)
    requires pick < 9000
    ensures IsFourDigitCode(code)
    ensures DecimalValue(code) == 1000 + pick
  {
    FourDigits(1000 + pick);
    DecimalRoundTrip(1000 + pick);
    NatToDecimal(1000 + pick)
  }

  /**
   * The two citizen pages disagree on the code length: no code this page
   * makes up is one the service would issue, which has six digits.
   */
  lemma LocalCodesAreNeverIssued(code: string)
    requires IsFourDigitCode(code)
    ensures !IsIssuedCode(code)
  {
  }

  /**
   * A code of this page does not get through the service-backed page:
   * its length guard turns it away, and even past that guard it never
   * verifies against a store of issued codes.
   */
  lemma LocalCodeNeverLogsIn(store: Store, phone: string, code: string, now: nat)
    requires CodesWellFormed(store) && IsFourDigitCode(code)
    ensures |code| != CitizenAuthPage.OtpLength
    ensures !Verify(store, OtpVerify(phone, code, Citizen), now).result.success
  {
    var key := StoreKey(Citizen, phone);
    if key in store {
      assert IsIssuedCode(store[key]);
    }
  }

  /** `isValidIndianPhone`: a length check, then a scan that returns at the first non-digit. */
  method IsValidIndianPhone(phone: string) returns (ok: bool)
    ensures ok <==> IsTenDigitPhone(phone)
  {
    if |phone| != 10 {
      return false;
    }
    var i := 0;
    while i < |phone|
      invariant 0 <= i <= |phone|
      invariant forall k :: 0 <= k < i ==> IsDigit(phone[k])
    {
      if phone[i] < '0' || phone[i] > '9' {
        return false;
      }
      i := i + 1;
    }
    return true;
  }

  /** The countdown interval's updater: `prev > 0 ? prev - 1 : 0`. */
  function CaptchaTimerTick(prev: int): (next: int)
    ensures prev > 0 ==> next == prev - 1
    ensures prev <= 0 ==> next == 0
    ensures next >= 0
  {
    if prev > 0 then prev - 1 else 0
  }

  datatype SubmitOutcome = CaptchaRejected | OtpRejected | Authenticated

  class CitizenLogin {
    var isOtpSent: bool
    var name: string
    var phone: string
    var otp: string
    var captchaInput: string
    var captcha: string
    var captchaTimer: int
    var generatedOtp: string

    /**
     * Between handlers: the CAPTCHA is one generateCaptcha can return, its
     * countdown is between 0 and 60, a sent code has four digits, and before
     * a code is sent the OTP and CAPTCHA fields (not rendered yet) are empty.
     */
    ghost predicate Valid()
      reads this
    {
      && IsCaptcha(captcha)
      && 0 <= captchaTimer <= CaptchaSeconds
      && (isOtpSent ==> IsFourDigitCode(generatedOtp))
      && (!isOtpSent ==> generatedOtp == "" && otp == "" && captchaInput == "")
    }

    /** The initial state, with the draws of the first `generateCaptcha`. */
    constructor (picks: seq<nat>)
      requires CaptchaPicks(picks)
      ensures Valid()
      ensures !isOtpSent && name == "" && phone == "" && otp == "" && captchaInput == ""
      ensures captcha == CaptchaOf(picks) && captchaTimer == CaptchaSeconds && generatedOtp == ""
    {
      isOtpSent := false;
      name := "";
      phone := "";
      otp := "";
      captchaInput := "";
      captcha := CaptchaOf(picks);
      captchaTimer := CaptchaSeconds;
      generatedOtp := "";
    }

    /** Typing in the name field of the sign-up tab. */
    method EnterName(text: string)
      requires Valid()
      modifies this
      ensures Valid()
      ensures name == text
      ensures isOtpSent == old(isOtpSent) && phone == old(phone) && otp == old(otp)
      ensures captchaInput == old(captchaInput) && captcha == old(captcha)
      ensures captchaTimer == old(captchaTimer) && generatedOtp == old(generatedOtp)
    {
      name := text;
    }

    /** Typing in the phone field; the value is stored as typed, not sanitised. */
    method EnterPhone(text: string)
      requires Valid()
      modifies this
      ensures Valid()
      ensures phone == text
      ensures isOtpSent == old(isOtpSent) && name == old(name) && otp == old(otp)
      ensures captchaInput == old(captchaInput) && captcha == old(captcha)
      ensures captchaTimer == old(captchaTimer) && generatedOtp == old(generatedOtp)
    {
      phone := text;
    }

    /** Typing in the OTP field (rendered once a code is sent). */
    method EnterOtp(text: string)
      requires Valid() && isOtpSent
      modifies this
      ensures Valid()
      ensures otp == text
      ensures isOtpSent == old(isOtpSent) && name == old(name) && phone == old(phone)
      ensures captchaInput == old(captchaInput) && captcha == old(captcha)
      ensures captchaTimer == old(captchaTimer) && generatedOtp == old(generatedOtp)
    {
      otp := text;
    }

    /** Typing in the CAPTCHA field (rendered once a code is sent). */
    method EnterCaptcha(text: string)
      requires Valid() && isOtpSent
      modifies this
      ensures Valid()
      ensures captchaInput == text
      ensures isOtpSent == old(isOtpSent) && name == old(name) && phone == old(phone)
      ensures otp == old(otp) && captcha == old(captcha)
      ensures captchaTimer == old(captchaTimer) && generatedOtp == old(generatedOtp)
    {
      captchaInput := text;
    }

    /**
     * A fresh CAPTCHA with its countdown back at 60: the refresh button,
     * one firing of the one-minute interval, and the tail of both handlers.
     */
    method RefreshCaptcha(picks: seq<nat>)
      requires Valid() && CaptchaPicks(picks)
      modifies this
      ensures Valid()
      ensures captcha == CaptchaOf(picks) && captchaTimer == CaptchaSeconds
      ensures isOtpSent == old(isOtpSent) && name == old(name) && phone == old(phone)
      ensures otp == old(otp) && captchaInput == old(captchaInput) && generatedOtp == old(generatedOtp)
    {
      captcha := GenerateCaptcha(picks);
      captchaTimer := CaptchaSeconds;
    }

    /** One firing of the one-second countdown interval. */
    method CaptchaTick()
      requires Valid()
      modifies this
      ensures Valid()
      ensures captchaTimer == CaptchaTimerTick(old(captchaTimer))
      ensures isOtpSent == old(isOtpSent) && name == old(name) && phone == old(phone) && otp == old(otp)
      ensures captchaInput == old(captchaInput) && captcha == old(captcha) && generatedOtp == old(generatedOtp)
    {
      captchaTimer := CaptchaTimerTick(captchaTimer);
    }

    /**
     * `handleSendOtp` (its button is rendered until a code is sent), with
     * the draws of `generateOtp` and `generateCaptcha` as parameters.
     */
    method SendOtp(otpPick: nat, captchaPicks: seq<nat>) returns (sent: bool)
      requires Valid() && !isOtpSent && otpPick < 9000 && CaptchaPicks(captchaPicks)
      modifies this
      ensures Valid()
      ensures sent <==> IsTenDigitPhone(old(phone))
      ensures !sent ==> isOtpSent == old(isOtpSent) && generatedOtp == old(generatedOtp)
                        && captcha == old(captcha) && captchaTimer == old(captchaTimer)
      ensures sent ==> isOtpSent && generatedOtp == GenerateOtp(otpPick)
                       && captcha == CaptchaOf(captchaPicks) && captchaTimer == CaptchaSeconds
      ensures name == old(name) && phone == old(phone) && otp == old(otp) && captchaInput == old(captchaInput)
    {
      var valid := IsValidIndianPhone(phone);
      if !valid {
        return false;
      }
      var code := GenerateOtp(otpPick);
      generatedOtp := code;
      isOtpSent := true;
      RefreshCaptcha(captchaPicks);
      sent := true;
    }

    /**
     * `handleSubmit` for either tab: the CAPTCHA is compared first, then
     * the code; each mismatch draws a new CAPTCHA. The countdown plays no
     * part in the decision.
     */
    method Submit(captchaPicks: seq<nat>) returns (r: SubmitOutcome)
      requires Valid() && CaptchaPicks(captchaPicks)
      modifies this
      ensures Valid()
      ensures r == CaptchaRejected <==> old(captchaInput) != old(captcha)
      ensures r == OtpRejected <==> old(captchaInput) == old(captcha) && otp != generatedOtp
      ensures r == Authenticated <==> old(captchaInput) == old(captcha) && otp == generatedOtp
      ensures r == Authenticated ==> isOtpSent && |generatedOtp| == 4
      ensures !old(isOtpSent) ==> r == CaptchaRejected
      ensures r != Authenticated ==> captcha == CaptchaOf(captchaPicks) && captchaTimer == CaptchaSeconds
      ensures r == Authenticated ==> captcha == old(captcha) && captchaTimer == old(captchaTimer)
      ensures isOtpSent == old(isOtpSent) && name == old(name) && phone == old(phone) && otp == old(otp)
      ensures captchaInput == old(captchaInput) && generatedOtp == old(generatedOtp)
    {
      if captchaInput != captcha {
        RefreshCaptcha(captchaPicks);
        return CaptchaRejected;
      }
      if otp != generatedOtp {
        RefreshCaptcha(captchaPicks);
        return OtpRejected;
      }
      r := Authenticated;
    }
  }
}
