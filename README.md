# Simulated OTP authentication of the pothole-detection system

This project models, in Dafny, the login logic of the pothole-detection web
application and proves properties of it. The application has two user kinds,
citizens (identified by a ten-digit phone number) and authorities (identified
by an official e-mail address). Both log in with a one-time code.

- **The mock authentication service** (`AuthService.dfy`, module
  `AuthServiceModel`). Its private code store is a `map<string, string>`
  keyed by `type + "_" + identifier`. `Issue`, `Verify` and `ExpireKey` are
  pure functions that say exactly how that map changes. The class
  `AuthService` holds the map as a field; its methods `SendOTP`, `VerifyOTP`
  and `Expire` are proved equal to those functions. There are also the two
  constant lookups: the Auth ID list and the three-entry authority table.
- **The two format checks** (`Validation.dfy`). The ten-digit phone check is
  a predicate. The e-mail regex `^[^\s@]+@[^\s@]+\.[^\s@]+$` is checked by a
  hand-written predicate (exactly one `@`, a non-empty local part, no
  whitespace, and a dot in the domain that is neither its first nor its last
  character). A lemma proves it equivalent to a pattern predicate that
  follows the regex piece by piece.
- **The six-box OTP input component** (`OtpInput.dfy`): the string edits of
  typing a digit, Backspace and paste. This includes JavaScript's
  sparse-array `join`: writing past the end appends, and writing `''`
  deletes a character.
- **The resend countdown** shared by the service-backed pages
  (`ResendCountdown.dfy`).
- **Four login pages, each a class whose methods are the page's handlers.**
  - The service-backed citizen page: phone → OTP (`CitizenAuthPage.dfy`).
  - The service-backed authority page: e-mail → Auth ID → OTP
    (`AuthorityAuthPage.dfy`).
  - The self-contained citizen page under `frontend/` (`CitizenLoginPage.dfy`).
    It has a local four-digit code and a six-character CAPTCHA.
  - The self-contained authority page under `frontend/`
    (`AuthorityLoginPage.dfy`). It compares the typed values against a fixed
    CAPTCHA and a fixed code.

  A handler whose form or button is rendered only on one step (or only once
  a code was sent) requires that step. `localStorage` is a `storage` map
  field of the page.

Supporting modules:
- `Strings`: digit filtering, `trim`, ASCII upper-casing, counting and
  searching.
- `Decimal`: `Number.prototype.toString` for the values the program prints
  (the six- and four-digit codes and `Date.now()` timestamps), with its round
  trip.

Inputs the program reads from its environment become parameters. A
`Math.random()` draw is a `pick` below the range the code multiplies by.
`Date.now()` is `now`. Each firing of a `setTimeout` or `setInterval` is an
explicit method (`Expire`, `ResendTick`, `CaptchaTick`, `RefreshCaptcha`).

The service's comment says the code expires after five minutes
(src/services/authService.ts:49). The code never cancels an earlier timer,
however, so an old timer deletes a code that was issued later for the same
key. `AuthServiceModel.StaleTimerDeletesNewerCode` proves this behaviour. The
timer's callback captures only the key, so `Expire` takes only the key, and
which issuance scheduled the timer makes no difference to what it deletes.

The two citizen pages disagree on the code length. The page under `frontend/`
makes up four-digit codes, while the service issues six-digit ones.
`CitizenLoginPage.LocalCodesAreNeverIssued` and
`CitizenLoginPage.LocalCodeNeverLogsIn` state that the two never meet.

## Model

| member | source | states |
|---|---|---|
| Strings.DigitsOnly | src/components/OTPInput.tsx:23 | `replace(/\D/g, '')`: the result is all digits, is no longer than the input, and is empty exactly when the input holds no digit |
| Strings.DigitsOnlyAppend | src/components/OTPInput.tsx:23 | filtering a concatenation filters each part and concatenates, so together with `DigitsOnlyChar` every digit is kept, in its order, and nothing else |
| Strings.DigitsOnlyChar | src/components/OTPInput.tsx:23 | one character is kept exactly when it is a digit |
| Strings.DigitsOnlyHead | src/components/OTPInput.tsx:23-27 | the first character of the filtered text is the first digit of the input |
| Strings.Take | src/pages/CitizenAuth.tsx:161 | `slice(0, n)`: a prefix of the input whose length is n, or the whole input when it is shorter |
| Strings.DigitsOnlyOfDigits | src/pages/CitizenAuth.tsx:161 | removing non-digits from an all-digit string gives it back unchanged |
| Strings.TrimStart | src/pages/CitizenAuth.tsx:31 | the result is a suffix of the input; everything cut off is whitespace; the result does not start with whitespace |
| Strings.TrimEnd | src/pages/CitizenAuth.tsx:31 | the result is a prefix of the input; everything cut off is whitespace; the result does not end with whitespace |
| Strings.Trim | src/pages/CitizenAuth.tsx:31 | `trim()`: a contiguous piece of the input with only whitespace around it, which neither starts nor ends with whitespace |
| Strings.IsBlank | src/pages/CitizenAuth.tsx:31 | `!s.trim()`: from the start, whitespace runs to the end of the string (its meaning is stated by the next two lemmas) |
| Strings.BlankIffTrimEmpty | src/pages/CitizenAuth.tsx:31 | the blank test used by the guards holds exactly when `trim()` leaves the empty string |
| Strings.BlankIffAllWhitespace | src/pages/AuthorityAuth.tsx:32 | a string is blank exactly when every character is whitespace |
| Strings.DigitsBlankIffEmpty | src/pages/CitizenAuth.tsx:31 | for an all-digit string, blank means empty |
| Strings.UpperAsciiChar | src/pages/AuthorityAuth.tsx:220 | a lower-case letter a to z becomes its capital (32 code points lower); every other character is unchanged |
| Strings.ToUpperAscii | src/pages/AuthorityAuth.tsx:220 | `toUpperCase()` keeps the length, maps each character by `UpperAsciiChar`, and leaves no lower-case letter |
| Strings.ToUpperAsciiIdempotent | src/pages/AuthorityAuth.tsx:220 | upper-casing twice gives the same as upper-casing once |
| Decimal.NatToDecimal | src/services/authService.ts:40 | `toString()` of a natural is a non-empty digit string without a leading zero |
| Decimal.DecimalRoundTrip | src/services/authService.ts:40 | reading back the printed number gives the number |
| Decimal.DecimalInjective | src/services/authService.ts:40 | different numbers print differently |
| Decimal.SixDigits | src/services/authService.ts:40 | every number in [100000, 999999] prints as exactly six characters |
| Decimal.FourDigits | frontend/src/pages/CitizenAuth.tsx:24 | every number in [1000, 9999] prints as exactly four characters |
| Validation.IsTenDigitPhone | src/services/authService.ts:24-25 | `/^[0-9]{10}$/`: exactly ten characters, each 0 to 9 (the same test as src/pages/CitizenAuth.tsx:36-37) |
| Validation.IsEmail | src/services/authService.ts:30-31 | the hand-written e-mail check: exactly one `@`, not first, no whitespace, and a dot after the `@` that is neither the domain's first nor its last character (the same regex as src/pages/AuthorityAuth.tsx:37) |
| Validation.MatchesEmailPattern | src/services/authService.ts:30 | the regex read literally: a non-empty run of non-space, non-`@` characters, `@`, a run, a dot, a run |
| Validation.EmailCheckMatchesPattern | src/services/authService.ts:30-31 | the e-mail check accepts a string exactly when it matches the regex `^[^\s@]+@[^\s@]+\.[^\s@]+$`, written as runs of non-space, non-`@` characters |
| Validation.EmailToPattern | src/services/authService.ts:30-31 | every string the check accepts matches the regex |
| Validation.PatternToEmail | src/services/authService.ts:30-31 | every string matching the regex is accepted by the check |
| Validation.RunsMakeEmail | src/pages/AuthorityAuth.tsx:37-38 | joining three non-empty runs of non-space, non-`@` characters as `local@left.right` always gives an accepted address |
| AuthServiceModel.StoreKey | src/services/authService.ts:41 | the key `${type}_${identifier}` (its shape is stated by `StoreKeySplits`) |
| AuthServiceModel.StoreKeySplits | src/services/authService.ts:41 | a key is the type tag, then `_`, then the identifier, and nothing else |
| AuthServiceModel.IdentifierAccepted | src/services/authService.ts:22-37 | the format check `sendOTP` applies: the phone test for citizens, the e-mail test for authorities |
| AuthServiceModel.HasLiveCode | src/services/authService.ts:65-67 | `storedOTP` is truthy: the key is present and its value is not "" |
| AuthServiceModel.StoreKeyInjective | src/services/authService.ts:41 | two requests share a store key exactly when both their type and their identifier are equal |
| AuthServiceModel.RolesDoNotShareEntries | src/services/authService.ts:41-44 | issuing for one user kind leaves the other kind's entry for the same identifier as it was |
| AuthServiceModel.IssueCode | src/services/authService.ts:40 | the code is six digits and denotes 100000 plus the random pick, so it lies in [100000, 999999] |
| AuthServiceModel.Issue | src/services/authService.ts:22-59 | success exactly when the identifier passes its kind's format check; a failure leaves the store unchanged and gives that kind's message; a success maps the key to the new code, overwriting any earlier one, keeps every other key, and gives the kind's "sent" message |
| AuthServiceModel.MintToken | src/services/authService.ts:79 | the token starts with `mock-jwt-token-` and ends with the identifier |
| AuthServiceModel.Verify | src/services/authService.ts:63-86 | with no live code: "expired or not found", store unchanged; with a different code: "Invalid OTP", store unchanged; success exactly when the stored code equals the typed one, and then the key is removed, everything else is kept, and the token ends in the identifier |
| AuthServiceModel.ExpireKey | src/services/authService.ts:50-52 | the timer's `delete` removes the key and keeps every other entry |
| AuthServiceModel.RejectionText | src/pages/CitizenAuth.tsx:85 | the text both pages show on a failed verification (the same expression as src/pages/AuthorityAuth.tsx:120): the message, or 'Invalid OTP' when it is empty |
| AuthServiceModel.RejectionTextShown | src/pages/CitizenAuth.tsx:85 | the text shown is never empty, and a non-empty message is shown as it is |
| AuthServiceModel.WellFormedCodesAreLive | src/services/authService.ts:65-67 | in a store of issued codes, `!storedOTP` is false exactly for the present keys |
| AuthServiceModel.OperationsPreserveWellFormed | src/services/authService.ts:40-52 | issuing, verifying and expiring keep every stored value a six-digit issued code |
| AuthServiceModel.IssueThenVerify | src/services/authService.ts:40-85 | for an accepted identifier, verifying the code just issued succeeds and removes its key |
| AuthServiceModel.VerifyIsSingleUse | src/services/authService.ts:75-76 | after a successful verification, the same verification fails as "expired or not found" |
| AuthServiceModel.WrongCodeAllowsRetry | src/services/authService.ts:71-73 | a wrong code fails with "Invalid OTP" and the right code still verifies afterwards |
| AuthServiceModel.ReissueInvalidatesEarlierCode | src/services/authService.ts:44 | after a second issuance with a different draw, the first code is rejected as "Invalid OTP" |
| AuthServiceModel.ExpiredCodeNeverVerifies | src/services/authService.ts:50-52 | once its key has expired, no code verifies, and the answer is "expired or not found" |
| AuthServiceModel.StaleTimerDeletesNewerCode | src/services/authService.ts:50-52 | when the first issuance's timer fires after a re-issue, it deletes the newer code, which then fails as "expired or not found" |
| AuthServiceModel.ValidateAuthID | src/services/authService.ts:93-97 | valid exactly for AUTH001, AUTH002 and AUTH003, with the matching message |
| AuthServiceModel.FindByEmail | src/services/authService.ts:110 | `find` returns nothing exactly when no record has the e-mail, and otherwise the first record that has it |
| AuthServiceModel.CheckAuthorityEmail | src/services/authService.ts:102-116 | `exists` exactly when some table entry has the e-mail, and then `authorityName` is that entry's name; otherwise there is no name |
| AuthServiceModel.RegisteredAddresses | src/services/authService.ts:104-108 | the table spelled out: exactly the three mock addresses are registered, each with its department's name |
| AuthServiceModel.AuthIdNotBoundToEmail | src/services/authService.ts:93-110 | the police address passes the e-mail check, and the traffic department's Auth ID passes the Auth ID check, although the table pairs the address with another ID |
| AuthServiceModel.AuthService.constructor | src/services/authService.ts:16 | the service starts with an empty store |
| AuthServiceModel.AuthService.SendOTP | src/services/authService.ts:20-60 | the new store and the answer are exactly those of `Issue`, and the store stays a store of issued codes |
| AuthServiceModel.AuthService.VerifyOTP | src/services/authService.ts:63-86 | the new store and the answer are exactly those of `Verify` |
| AuthServiceModel.AuthService.Expire | src/services/authService.ts:50-52 | the new store is exactly that of `ExpireKey` |
| OtpInputModel.Split | src/components/OTPInput.tsx:26 | `split('')` gives one single-character string per character |
| OtpInputModel.Assign | src/components/OTPInput.tsx:27 | `otpArray[index] = x` sets that slot, keeps the others, and grows the array with holes when index is past the end |
| OtpInputModel.Join | src/components/OTPInput.tsx:28 | `join('')`: the cells concatenated in order, holes as "" |
| OtpInputModel.JoinAppend | src/components/OTPInput.tsx:28 | joining two arrays laid end to end concatenates their joins |
| OtpInputModel.JoinSplit | src/components/OTPInput.tsx:26-28 | joining the split characters gives the string back |
| OtpInputModel.JoinReplace | src/components/OTPInput.tsx:27-28 | writing x at an index inside the string and joining splices x in place of that character |
| OtpInputModel.JoinPastEnd | src/components/OTPInput.tsx:27-28 | writing x at or past the end and joining appends x, because holes join as "" |
| OtpInputModel.HandleChange | src/components/OTPInput.tsx:22-36 | `onChange` is called exactly when the typed text contains a digit |
| OtpInputModel.FirstDigitLeads | src/components/OTPInput.tsx:23-27 | when `typed[k]` is the first digit typed, `newValue[0]` is `typed[k]` |
| OtpInputModel.HandleChangeWritesFirstDigit | src/components/OTPInput.tsx:23-29 | only the first typed digit `typed[k]` is used: the value is cut to `length`, then that digit replaces position index, or is appended when index is at or past the cut end |
| OtpInputModel.HandleChangeStaysInBounds | src/components/OTPInput.tsx:26-29 | for an index below `length`, the new value has at most `length` characters and stays all digits if it was |
| OtpInputModel.HandleKeyDown | src/components/OTPInput.tsx:38-50 | `onChange` is called exactly for Backspace |
| OtpInputModel.BackspaceDeletesAt | src/components/OTPInput.tsx:46-48 | Backspace removes the character at index and shifts the later ones left; at or past the end the value is unchanged |
| OtpInputModel.HandlePaste | src/components/OTPInput.tsx:52-61 | nothing happens when the clipboard holds no digit (or `length` is 0); otherwise the value is the first `length` digits of the clipboard, and the focused box is its last one, which lies in [0, length - 1] |
| ResendCountdown.TickTimer | src/pages/CitizenAuth.tsx:99-105 | a tick from 1 or less gives 0; from more, one less |
| ResendCountdown.TickKeepsConsistent | src/pages/CitizenAuth.tsx:94-107 | a tick keeps the timer within 30 seconds, and keeps resending allowed exactly when no time is left |
| ResendCountdown.CountdownRunsOut | src/pages/CitizenAuth.tsx:98-107 | as many ticks as seconds are left bring the timer to zero |
| ResendCountdown.FreshCountdownLasts | src/pages/CitizenAuth.tsx:95-107 | after k ≤ 30 firings from a fresh start, 30 - k remain on the timer, so resending opens after exactly 30 firings (firings, not seconds: see Left out) |
| ResendCountdown.AfterTicksLast | src/pages/CitizenAuth.tsx:98-107 | k + 1 ticks are k ticks followed by one more |
| CitizenAuthPage.SanitizePhone | src/pages/CitizenAuth.tsx:161 | the phone field keeps only digits, at most ten, taken in order from the start of what was typed |
| CitizenAuthPage.SanitizePhoneIdempotent | src/pages/CitizenAuth.tsx:161 | sanitising an already sanitised number changes nothing |
| CitizenAuthPage.CitizenAuth.constructor | src/pages/CitizenAuth.tsx:21-26 | the page starts on the phone step with empty fields, no countdown and resending allowed |
| CitizenAuthPage.CitizenAuth.EnterPhone | src/pages/CitizenAuth.tsx:161 | the stored phone is the sanitised text |
| CitizenAuthPage.CitizenAuth.EnterOtp | src/pages/CitizenAuth.tsx:189 | the OTP widget's value is stored as given; the countdown and every other field are unchanged |
| CitizenAuthPage.CitizenAuth.StartResendTimer | src/pages/CitizenAuth.tsx:94-96 | resending is disabled and the timer set to 30 |
| CitizenAuthPage.CitizenAuth.PhoneSubmit | src/pages/CitizenAuth.tsx:28-61 | a blank phone and one that is not ten digits are rejected in that order, without calling the service, and the step stays on the phone; otherwise the service issues a code for the citizen key, the page moves to the OTP step and the countdown starts at 30; the service never rejects what the page lets through; loading ends false |
| CitizenAuthPage.CitizenAuth.OtpSubmit | src/pages/CitizenAuth.tsx:63-92 | a code that is not six characters long is rejected without calling the service; otherwise the store becomes that of `Verify`, the token and phone are saved exactly when verification succeeds, and a failure reports the service's message; loading ends false |
| CitizenAuthPage.CitizenAuth.ResendTick | src/pages/CitizenAuth.tsx:98-107 | one interval firing: the timer steps as `TickTimer` and resending opens when it runs out |
| CitizenAuthPage.CitizenAuth.ResendOtp | src/pages/CitizenAuth.tsx:110-131 | nothing happens while resending is disabled; otherwise a new code is issued for the same key and the countdown restarts at 30 |
| CitizenAuthPage.CitizenAuth.ChangePhone | src/pages/CitizenAuth.tsx:228-231 | back to the phone step, with the OTP cleared and the phone kept |
| AuthorityAuthPage.NameOrEmpty | src/pages/AuthorityAuth.tsx:48 | `result.authorityName || ''`, a definition; what it yields on the path that uses it is stated by RegisteredNameShown |
| AuthorityAuthPage.RegisteredNameShown | src/pages/AuthorityAuth.tsx:47-48 | for a registered address the fallback never fires: the name recorded is non-empty and is the name of that address's table entry (src/services/authService.ts:104-114) |
| AuthorityAuthPage.EmailVerdict | src/pages/AuthorityAuth.tsx:32-50 | the e-mail step's verdict: blank, then malformed, then unregistered, in that order; accepted exactly when the address is non-blank, well formed and in the authority table |
| AuthorityAuthPage.LowerCaseAuthIdAccepted | src/pages/AuthorityAuth.tsx:220 | an Auth ID typed as "auth001" is stored upper-cased and passes `validateAuthID` |
| AuthorityAuthPage.RegisteredEmailIsNotBlank | src/pages/AuthorityAuth.tsx:32-47 | a registered, well-formed address is never blank, so the blank guard never turns one away |
| AuthorityAuthPage.AuthorityAuth.constructor | src/pages/AuthorityAuth.tsx:20-27 | the page starts on the e-mail step with empty fields, no countdown and resending allowed |
| AuthorityAuthPage.AuthorityAuth.EnterEmail | src/pages/AuthorityAuth.tsx:193 | the e-mail is stored as typed; the countdown and every other field are unchanged |
| AuthorityAuthPage.AuthorityAuth.EnterAuthId | src/pages/AuthorityAuth.tsx:220 | the Auth ID is stored upper-cased; the countdown and every other field are unchanged |
| AuthorityAuthPage.AuthorityAuth.EnterOtp | src/pages/AuthorityAuth.tsx:263 | the OTP widget's value is stored as given |
| AuthorityAuthPage.AuthorityAuth.StartResendTimer | src/pages/AuthorityAuth.tsx:129-131 | resending is disabled and the timer set to 30 |
| AuthorityAuthPage.AuthorityAuth.EmailSubmit | src/pages/AuthorityAuth.tsx:29-59 | the outcome is `EmailVerdict` of the e-mail; only an accepted address moves to the Auth ID step and records the table's name for it; otherwise the name and step are kept; loading ends false |
| AuthorityAuthPage.AuthorityAuth.AuthIdSubmit | src/pages/AuthorityAuth.tsx:61-94 | a blank Auth ID is rejected next; an invalid one gets the service's "Invalid Auth ID" message; a valid one makes the service issue a code for the authority key, moves to the OTP step and starts the countdown; the service never rejects the e-mail, which passed the format check; loading ends false |
| AuthorityAuthPage.AuthorityAuth.OtpSubmit | src/pages/AuthorityAuth.tsx:96-127 | a code that is not six characters long is rejected without calling the service; otherwise the store becomes that of `Verify`, and token, e-mail, Auth ID and authority name are saved exactly when verification succeeds; loading ends false |
| AuthorityAuthPage.AuthorityAuth.SaveSession | src/pages/AuthorityAuth.tsx:114-117 | the four `localStorage` writes, in order |
| AuthorityAuthPage.AuthorityAuth.ResendTick | src/pages/AuthorityAuth.tsx:133-142 | one interval firing: the timer steps as `TickTimer` and resending opens when it runs out |
| AuthorityAuthPage.AuthorityAuth.ResendOtp | src/pages/AuthorityAuth.tsx:145-166 | nothing happens while resending is disabled; otherwise a new code is issued for the same key and the countdown restarts at 30 |
| AuthorityAuthPage.AuthorityAuth.BackToEmail | src/pages/AuthorityAuth.tsx:242-245 | back to the e-mail step with the Auth ID cleared |
| AuthorityAuthPage.AuthorityAuth.BackToAuthId | src/pages/AuthorityAuth.tsx:302-305 | back to the Auth ID step with the OTP cleared |
| CitizenLoginPage.CaptchaOf | frontend/src/pages/CitizenAuth.tsx:12-19 | character i of the CAPTCHA is the alphabet character picked by draw i |
| CitizenLoginPage.AlphabetIsCaptchaChars | frontend/src/pages/CitizenAuth.tsx:13 | the alphabet has 32 characters: A to Z without I and O, and 2 to 9 |
| CitizenLoginPage.CaptchaAvoidsLookalikes | frontend/src/pages/CitizenAuth.tsx:13 | no CAPTCHA contains I, O, 0 or 1 |
| CitizenLoginPage.CaptchaOfCoversAll | frontend/src/pages/CitizenAuth.tsx:12-19 | every draw gives six alphabet characters, and every such string comes from some draw |
| CitizenLoginPage.GenerateCaptcha | frontend/src/pages/CitizenAuth.tsx:12-19 | the loop of six appends returns `CaptchaOf` of the draws: six characters of the alphabet |
| CitizenLoginPage.GenerateOtp | frontend/src/pages/CitizenAuth.tsx:23-25 | the code is four digits denoting 1000 plus the pick, so it lies in [1000, 9999] |
| CitizenLoginPage.LocalCodesAreNeverIssued | frontend/src/pages/CitizenAuth.tsx:23-25 | no four-digit code of this page is a code the service issues (six digits) |
| CitizenLoginPage.LocalCodeNeverLogsIn | frontend/src/pages/CitizenAuth.tsx:23-25 | a four-digit code of this page fails the six-character guard of src/pages/CitizenAuth.tsx:66, and never verifies against a store of issued codes |
| CitizenLoginPage.IsValidIndianPhone | frontend/src/pages/CitizenAuth.tsx:30-37 | the length check and the digit loop accept exactly the ten-digit strings, the same set as the service's `/^[0-9]{10}$/` |
| CitizenLoginPage.CaptchaTimerTick | frontend/src/pages/CitizenAuth.tsx:73 | the countdown steps down by one and never goes below 0 |
| CitizenLoginPage.CitizenLogin.constructor | frontend/src/pages/CitizenAuth.tsx:43-61 | empty form, no code sent, a first CAPTCHA from the draws, and 60 seconds on its countdown |
| CitizenLoginPage.CitizenLogin.EnterName | frontend/src/pages/CitizenAuth.tsx:249-251 | the name is stored as typed |
| CitizenLoginPage.CitizenLogin.EnterPhone | frontend/src/pages/CitizenAuth.tsx:186-188 | the phone is stored as typed |
| CitizenLoginPage.CitizenLogin.EnterOtp | frontend/src/pages/CitizenAuth.tsx:202-204 | the OTP is stored as typed |
| CitizenLoginPage.CitizenLogin.EnterCaptcha | frontend/src/pages/CitizenAuth.tsx:230-232 | the typed CAPTCHA is stored as typed |
| CitizenLoginPage.CitizenLogin.RefreshCaptcha | frontend/src/pages/CitizenAuth.tsx:66-70 | a fresh CAPTCHA from the draws and the countdown back at 60, with nothing else changed |
| CitizenLoginPage.CitizenLogin.CaptchaTick | frontend/src/pages/CitizenAuth.tsx:72-74 | one countdown firing: the timer steps as `CaptchaTimerTick` |
| CitizenLoginPage.CitizenLogin.SendOtp | frontend/src/pages/CitizenAuth.tsx:85-109 | an invalid phone changes nothing; a valid one stores the generated four-digit code, marks it sent, draws a new CAPTCHA and resets its countdown to 60 |
| CitizenLoginPage.CitizenLogin.Submit | frontend/src/pages/CitizenAuth.tsx:113-144 | the CAPTCHA is compared before the code; either mismatch rejects and draws a new CAPTCHA; success exactly when both match, which needs a code to have been sent |
| AuthorityLoginPage.HandleSignup | frontend/src/pages/AuthorityAuth.tsx:96-103 | the same "pending verification" report whatever was entered |
| AuthorityLoginPage.AuthorityLogin.constructor | frontend/src/pages/AuthorityAuth.tsx:28-35 | empty login form and no code sent |
| AuthorityLoginPage.AuthorityLogin.EnterEmail | frontend/src/pages/AuthorityAuth.tsx:152 | the e-mail is stored as typed |
| AuthorityLoginPage.AuthorityLogin.EnterOtp | frontend/src/pages/AuthorityAuth.tsx:169 | the OTP is stored as typed |
| AuthorityLoginPage.AuthorityLogin.EnterCaptcha | frontend/src/pages/AuthorityAuth.tsx:186 | the CAPTCHA is stored as typed |
| AuthorityLoginPage.AuthorityLogin.SendOtp | frontend/src/pages/AuthorityAuth.tsx:38-53 | an empty e-mail leaves the flag unset; any other text sets it, with no format check; the OTP and CAPTCHA fields it reveals are empty |
| AuthorityLoginPage.AuthorityLogin.Login | frontend/src/pages/AuthorityAuth.tsx:56-93 | the flag is checked first, then the CAPTCHA against X7K9M2, then the code against 123456; success exactly when all three pass; no outcome changes any state |

## Left out

- Rendering, CSS, icons, toasts and navigation are not modelled. A handler's outcome is returned as a value instead.
- The dashboards, the home page, the account selection page and the route table hold no login logic.
- `async`/`await`, the 500 ms delay in `validateAuthID`, and the `try`/`catch` branches are left out. The service calls of the model cannot throw, and the `localStorage.setItem` writes are taken to succeed. So the "Failed to …" and "Verification failed. Please try again." messages never occur. In the source, a write that throws (src/pages/CitizenAuth.tsx:81-82) comes after the code was already consumed.
- Random draws, the clock and timers are inputs: picks, `now`, and explicit firing methods. The order in which the event loop runs them is concurrency and is not modelled.
- One page can have several resend intervals running at once. A resend cannot cause this, since `canResend` turns true only in the firing that clears the interval (src/pages/CitizenAuth.tsx:100-103). Going back ("Change phone number", src/pages/CitizenAuth.tsx:228-231, or the authority page's back button) and submitting again starts a second interval while the first still runs. The timer then steps twice a second and reaches 0 in about 15 seconds. The interleaving is not modelled: each `ResendTick` is one firing of some interval, and `FreshCountdownLasts` counts firings, not seconds.
- `console.log` of the code has no effect in the model.
- `toUpperCase` is modelled for the ASCII letters a to z only. JavaScript's full Unicode case mapping is not modelled.
- String lengths count characters, not UTF-16 code units.
- OtpInputModel.HandleChange, OtpInputModel.HandleKeyDown: the local `otpArray` is modelled as a sequence value (`Assign`, `Join`) rather than an array updated in place. It is local to the handler, so no aliasing is lost.
- The focus moves, refs and `autoFocus` of the OTP component are not modelled. The focus index of a paste is returned as a value.
- The `InputOTP` widget of the service-backed pages is not modelled. Its `onChange` is taken to deliver any string.
- The `maxLength` attributes of the inputs of the citizen page under `frontend/` are not modelled. The phone and OTP are stored as typed, as their handlers do.
- The `maxLength` attributes of the service-backed pages are not modelled either: `maxLength={10}` on the phone input (src/pages/CitizenAuth.tsx:165), and `maxLength={6}` on the OTP widgets (src/pages/CitizenAuth.tsx:187, src/pages/AuthorityAuth.tsx:261). This loses nothing. `EnterPhone` takes any raw text and `SanitizePhone` keeps at most ten digits. `OtpSubmit` checks the length itself.
- AuthorityAuthPage.AuthorityAuth.Valid: past the e-mail step, the invariant records only that the e-mail is well formed. It does not record that the e-mail is in the authority table or that `authorityName` is its entry's name. `EmailSubmit`'s contract states both at the one transition that leads there, via `EmailVerdict`.
- AuthorityLoginPage.AuthorityLogin.SendOtp: the toast that names the e-mail is not modelled.
