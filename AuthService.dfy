/**
 * The mock authentication service: an in-memory map from
 * `type + "_" + identifier` to a one-time code, issuance with format
 * validation, single-use verification, expiry as an explicit event, and the
 * two constant lookups for authority Auth IDs and e-mail addresses.
 */
module AuthServiceModel {
  import opened Wrappers
  import opened Strings
  import opened Decimal
  import opened Validation

  datatype UserKind = Citizen | Authority

  /** The `type` string of a request. */
  function KindTag(kind: UserKind): string {
    match kind
    case Citizen => "citizen"
    case Authority => "authority"
  }

  datatype OtpRequest = OtpRequest(identifier: string, kind: UserKind)
  datatype OtpVerify = OtpVerify(identifier: string, otp: string, kind: UserKind)
  datatype SendResult = SendResult(success: bool, message: string)
  datatype VerifyResult = VerifyResult(success: bool, message: string, token: Option<string>)

  /** The contents of the service's private `mockOTPStore` map. */
  type Store = map<string, string>

  const InvalidPhoneMessage := "Invalid phone number format. Use 10 digits."
  const InvalidEmailMessage := "Invalid email format"
  const SentToPhoneMessage := "OTP sent to your phone number"
  const SentToEmailMessage := "OTP sent to your email"
  const NotFoundMessage := "OTP expired or not found. Please request a new one."
  const MismatchMessage := "Invalid OTP. Please try again."
  const VerifiedMessage := "OTP verified successfully"
  const TokenPrefix := "mock-jwt-token-"

  /** Codes are `Math.floor(100000 + Math.random() * 900000)`: OtpLow plus a pick below OtpSpan. */
  const OtpLow: nat := 100000
  const OtpSpan: nat := 900000

  /** The store key `${type}_${identifier}`. */
  function StoreKey(kind: UserKind, identifier: string): string {
    KindTag(kind) + "_" + identifier
  }

  /** A key splits back into the type tag, the underscore and the identifier. */
  lemma StoreKeySplits(kind: UserKind, identifier: string)
    ensures var key := StoreKey(kind, identifier);
            var n := |KindTag(kind)|;
            && |key| == n + 1 + |identifier|
            && key[..n] == KindTag(kind) && key[n] == '_'
            && key[n + 1..] == identifier
  {
  }

  /** Two requests share a store entry only when both their type and identifier agree. */
  lemma StoreKeyInjective(k1: UserKind, id1: string, k2: UserKind, id2: string)
    ensures StoreKey(k1, id1) == StoreKey(k2, id2) <==> k1 == k2 && id1 == id2
  {
    var a, b := StoreKey(k1, id1), StoreKey(k2, id2);
    if a == b {
      assert a[0] == b[0];
      var n := |KindTag(k1)| + 1;
      assert a[n..] == id1;
      assert b[n..] == id2;
    }
  }

  /** The format check `sendOTP` applies before issuing. */
  predicate IdentifierAccepted(kind: UserKind, identifier: string) {
    match kind
    case Citizen => IsTenDigitPhone(identifier)
    case Authority => IsEmail(identifier)
  }

  function RejectionMessage(kind: UserKind): string {
    match kind
    case Citizen => InvalidPhoneMessage
    case Authority => InvalidEmailMessage
  }

  function SentMessage(kind: UserKind): string {
    match kind
    case Citizen => SentToPhoneMessage
    case Authority => SentToEmailMessage
  }

  /** A code as the service issues it: six decimal digits denoting a number in [100000, 999999]. */
  predicate IsIssuedCode(code: string) {
    |code| == 6 && AllDigits(code) && OtpLow <= DecimalValue(code) < OtpLow + OtpSpan
  }

  /** The store invariant: every stored value is an issued code. */
  predicate CodesWellFormed(store: Store) {
    forall k :: k in store ==> IsIssuedCode(store[k])
  }

  /** `Math.floor(100000 + r * 900000).toString()` for the pick the random draw made. */
  function IssueCode(pick: nat): (code: string)
    requires pick < OtpSpan
    ensures IsIssuedCode(code)
    ensures DecimalValue(code) == OtpLow + pick
  {
    SixDigits(OtpLow + pick);
    DecimalRoundTrip(OtpLow + pick);
    NatToDecimal(OtpLow + pick)
  }

  datatype Issued = Issued(store: Store, result: SendResult)

  /** What `sendOTP` does to the store and what it answers. */
  function Issue(store: Store, request: OtpRequest, pick: nat): (o: Issued)
    requires pick < OtpSpan
    ensures o.result.success <==> IdentifierAccepted(request.kind, request.identifier)
    ensures !o.result.success ==> o.store == store && o.result.message == RejectionMessage(request.kind)
    ensures o.result.success ==> o.result.message == SentMessage(request.kind)
    ensures o.result.success ==>
              var key := StoreKey(request.kind, request.identifier);
              && key in o.store
              && IsIssuedCode(o.store[key])
              && DecimalValue(o.store[key]) == OtpLow + pick
              && o.store.Keys == store.Keys + {key}
              && forall k :: k in store && k != key ==> o.store[k] == store[k]
  {
    if !IdentifierAccepted(request.kind, request.identifier) then
      Issued(store, SendResult(false, RejectionMessage(request.kind)))
    else
      var key := StoreKey(request.kind, request.identifier);
      Issued(store[key := IssueCode(pick)], SendResult(true, SentMessage(request.kind)))
  }

  /** `mock-jwt-token-${Date.now()}-${identifier}`. */
  function MintToken(now: nat, identifier: string): (token: string)
    ensures |token| > |TokenPrefix| + |identifier|
    ensures token[..|TokenPrefix|] == TokenPrefix
    ensures token[|token| - |identifier|..] == identifier
  {
    var t := TokenPrefix + NatToDecimal(now) + "-" + identifier;
    assert t == (TokenPrefix + (NatToDecimal(now) + "-")) + identifier;
    t
  }

  /** `mockOTPStore.get(key)` is truthy: present and not the empty string. */
  predicate HasLiveCode(store: Store, key: string) {
    key in store && store[key] != ""
  }

  datatype Verified = Verified(store: Store, result: VerifyResult)

  /** What `verifyOTP` does to the store and what it answers, at clock reading now. */
  function Verify(store: Store, v: OtpVerify, now: nat): (o: Verified)
    ensures var key := StoreKey(v.kind, v.identifier);
              !HasLiveCode(store, key) ==>
                o == Verified(store, VerifyResult(false, NotFoundMessage, None))
    ensures var key := StoreKey(v.kind, v.identifier);
              HasLiveCode(store, key) && store[key] != v.otp ==>
                o == Verified(store, VerifyResult(false, MismatchMessage, None))
    ensures var key := StoreKey(v.kind, v.identifier);
              o.result.success <==> HasLiveCode(store, key) && store[key] == v.otp
    ensures var key := StoreKey(v.kind, v.identifier);
              o.result.success ==>
                && o.store.Keys == store.Keys - {key}
                && (forall k :: k in o.store ==> o.store[k] == store[k])
                && o.result.message == VerifiedMessage
                && o.result.token.Some?
                && var t := o.result.token.value;
                   |t| > |v.identifier| && t[|t| - |v.identifier|..] == v.identifier
    ensures !o.result.success ==> o.result.token == None && o.store == store
  {
    var key := StoreKey(v.kind, v.identifier);
    if !HasLiveCode(store, key) then
      Verified(store, VerifyResult(false, NotFoundMessage, None))
    else if store[key] != v.otp then
      Verified(store, VerifyResult(false, MismatchMessage, None))
    else
      Verified(store - {key}, VerifyResult(true, VerifiedMessage, Some(MintToken(now, v.identifier))))
  }

  /** The five-minute timer of one issuance firing: `mockOTPStore.delete(key)`, unconditionally. */
  function ExpireKey(store: Store, key: string): (s: Store)
    ensures key !in s
    ensures s.Keys == store.Keys - {key}
    ensures forall k :: k in s ==> s[k] == store[k]
  {
    store - {key}
  }

  /** What both login pages show when verification fails: `result.message || 'Invalid OTP'`. */
  function RejectionText(message: string): string {
    if message == "" then "Invalid OTP" else message
  }

  /** The text shown is never empty, and a non-empty message is shown as it is. */
  lemma RejectionTextShown(message: string)
    ensures RejectionText(message) != ""
    ensures message != "" ==> RejectionText(message) == message
  {
  }

  // ----- properties over several calls -----

  /** In a well-formed store, a present key always holds a live (truthy) code. */
  lemma WellFormedCodesAreLive(store: Store, key: string)
    requires CodesWellFormed(store)
    ensures HasLiveCode(store, key) <==> key in store
  {
    if key in store {
      assert |store[key]| == 6;
    }
  }

  /** Issuance, verification and expiry keep every stored value an issued code. */
  lemma OperationsPreserveWellFormed(store: Store, request: OtpRequest, pick: nat, v: OtpVerify, now: nat, key: string)
    requires CodesWellFormed(store) && pick < OtpSpan
    ensures CodesWellFormed(Issue(store, request, pick).store)
    ensures CodesWellFormed(Verify(store, v, now).store)
    ensures CodesWellFormed(ExpireKey(store, key))
  {
    var o := Issue(store, request, pick);
    if o.result.success {
      var k0 := StoreKey(request.kind, request.identifier);
      forall k | k in o.store ensures IsIssuedCode(o.store[k]) {
        if k != k0 {
          assert k in store;
        }
      }
    }
  }

  /** For an accepted identifier, issuing and then verifying with the issued code succeeds. */
  lemma IssueThenVerify(store: Store, request: OtpRequest, pick: nat, now: nat)
    requires pick < OtpSpan && IdentifierAccepted(request.kind, request.identifier)
    ensures var s := Issue(store, request, pick).store;
            var code := s[StoreKey(request.kind, request.identifier)];
            var o := Verify(s, OtpVerify(request.identifier, code, request.kind), now);
            o.result.success && StoreKey(request.kind, request.identifier) !in o.store
  {
    var s := Issue(store, request, pick).store;
    var key := StoreKey(request.kind, request.identifier);
    assert |s[key]| == 6;
  }

  /** A code is accepted at most once: after a successful verify, the same verify finds nothing. */
  lemma VerifyIsSingleUse(store: Store, v: OtpVerify, now: nat, later: nat)
    requires Verify(store, v, now).result.success
    ensures Verify(Verify(store, v, now).store, v, later).result
            == VerifyResult(false, NotFoundMessage, None)
  {
  }

  /** A wrong code leaves the stored code in place, so the right code still verifies afterwards. */
  lemma WrongCodeAllowsRetry(store: Store, key: string, v: OtpVerify, retry: string, now: nat, later: nat)
    requires key == StoreKey(v.kind, v.identifier) && HasLiveCode(store, key)
    requires v.otp != store[key] && retry == store[key]
    ensures Verify(store, v, now).result == VerifyResult(false, MismatchMessage, None)
    ensures Verify(Verify(store, v, now).store, OtpVerify(v.identifier, retry, v.kind), later).result.success
  {
  }

  /** Issuing again for the same key overwrites the earlier code, which then no longer verifies. */
  lemma ReissueInvalidatesEarlierCode(store: Store, request: OtpRequest, p1: nat, p2: nat, now: nat)
    requires p1 < OtpSpan && p2 < OtpSpan && p1 != p2
    requires IdentifierAccepted(request.kind, request.identifier)
    ensures var key := StoreKey(request.kind, request.identifier);
            var s1 := Issue(store, request, p1).store;
            var s2 := Issue(s1, request, p2).store;
            Verify(s2, OtpVerify(request.identifier, s1[key], request.kind), now).result
              == VerifyResult(false, MismatchMessage, None)
  {
    var key := StoreKey(request.kind, request.identifier);
    var s1 := Issue(store, request, p1).store;
    var s2 := Issue(s1, request, p2).store;
    assert DecimalValue(s1[key]) != DecimalValue(s2[key]);
    assert |s2[key]| == 6;
  }

  /** A citizen and an authority with the same identifier hold separate entries. */
  lemma RolesDoNotShareEntries(store: Store, identifier: string, kind: UserKind, other: UserKind, pick: nat)
    requires pick < OtpSpan && kind != other
    ensures var s := Issue(store, OtpRequest(identifier, kind), pick).store;
            var key := StoreKey(other, identifier);
            (key in s <==> key in store) && (key in store ==> s[key] == store[key])
  {
    StoreKeyInjective(kind, identifier, other, identifier);
  }

  /** Once its key has expired, no code verifies. */
  lemma ExpiredCodeNeverVerifies(store: Store, v: OtpVerify, now: nat)
    ensures var s := ExpireKey(store, StoreKey(v.kind, v.identifier));
            Verify(s, v, now).result == VerifyResult(false, NotFoundMessage, None)
  {
  }

  /**
   * Expiry as written: the timer of an earlier issuance is never cancelled,
   * so when it fires after a re-issue it deletes the newer code, and the
   * newer code then fails as "expired or not found". The timer's callback
   * captures only the key, so Expire takes only the key: which issuance
   * scheduled it makes no difference to what it deletes.
   */
  lemma StaleTimerDeletesNewerCode(store: Store, request: OtpRequest, p1: nat, p2: nat, now: nat)
    requires p1 < OtpSpan && p2 < OtpSpan
    requires IdentifierAccepted(request.kind, request.identifier)
    ensures var key := StoreKey(request.kind, request.identifier);
            var s1 := Issue(store, request, p1).store;
            var s2 := Issue(s1, request, p2).store;
            var fired := ExpireKey(s2, key);
            key in s2
            && Verify(fired, OtpVerify(request.identifier, s2[key], request.kind), now).result
               == VerifyResult(false, NotFoundMessage, None)
  {
  }

  // ----- the constant lookups -----

  const MockAuthIDs: seq<string> := ["AUTH001", "AUTH002", "AUTH003"]
  const AuthIdValidMessage := "Auth ID is valid"
  const AuthIdInvalidMessage := "Invalid Auth ID. Please contact admin."

  datatype AuthIdResult = AuthIdResult(valid: bool, message: string)

  /** `validateAuthID`: membership in the three mock Auth IDs. */
  function ValidateAuthID(authID: string): (r: AuthIdResult)
    ensures r.valid <==> authID == "AUTH001" || authID == "AUTH002" || authID == "AUTH003"
    ensures r.message == (if r.valid then AuthIdValidMessage else AuthIdInvalidMessage)
  {
    var ok := authID in MockAuthIDs;
    AuthIdResult(ok, if ok then AuthIdValidMessage else AuthIdInvalidMessage)
  }

  datatype AuthorityRecord = AuthorityRecord(email: string, name: string, authID: string)

  const MockAuthorityDB: seq<AuthorityRecord> := [
    AuthorityRecord("police@example.com", "City Police Department", "AUTH001"),
    AuthorityRecord("municipal@example.com", "Municipal Corporation", "AUTH002"),
    AuthorityRecord("traffic@example.com", "Traffic Department", "AUTH003")
  ]

  /** `db.find(a => a.email === email)`: the first record with that e-mail. */
  function FindByEmail(db: seq<AuthorityRecord>, email: string): (r: Option<AuthorityRecord>)
    ensures r.None? <==> forall i :: 0 <= i < |db| ==> db[i].email != email
    ensures r.Some? ==> exists i :: 0 <= i < |db| && db[i] == r.value && r.value.email == email
                                    && forall j :: 0 <= j < i ==> db[j].email != email
  {
    FindByEmailFrom(db, email, 0)
  }

  /** The search from position start on, with no match before it. */
  function FindByEmailFrom(db: seq<AuthorityRecord>, email: string, start: nat): (r: Option<AuthorityRecord>)
    requires start <= |db|
    requires forall j :: 0 <= j < start ==> db[j].email != email
    ensures r.None? <==> forall i :: 0 <= i < |db| ==> db[i].email != email
    ensures r.Some? ==> exists i :: 0 <= i < |db| && db[i] == r.value && r.value.email == email
                                    && forall j :: 0 <= j < i ==> db[j].email != email
    decreases |db| - start
  {
    if start == |db| then None
    else if db[start].email == email then Some(db[start])
    else FindByEmailFrom(db, email, start + 1)
  }

  datatype EmailCheck = EmailCheck(emailExists: bool, authorityName: Option<string>)

  /** `checkAuthorityEmail`: whether the address is in the mock table, and the first such entry's name. */
  function CheckAuthorityEmail(email: string): (r: EmailCheck)
    ensures r.emailExists <==> exists i :: 0 <= i < |MockAuthorityDB| && MockAuthorityDB[i].email == email
    ensures r.emailExists ==> exists i :: && 0 <= i < |MockAuthorityDB| && MockAuthorityDB[i].email == email
                                          && r.authorityName == Some(MockAuthorityDB[i].name)
    ensures !r.emailExists ==> r.authorityName == None
  {
    var found := FindByEmail(MockAuthorityDB, email);
    EmailCheck(found.Some?, if found.Some? then Some(found.value.name) else None)
  }

  /** The table spelled out: exactly three addresses are registered, each with its department. */
  lemma RegisteredAddresses(email: string)
    ensures CheckAuthorityEmail(email).emailExists <==> email == "police@example.com" || email == "municipal@example.com"
                                                        || email == "traffic@example.com"
    ensures email == "police@example.com" ==> CheckAuthorityEmail(email).authorityName == Some("City Police Department")
    ensures email == "municipal@example.com" ==> CheckAuthorityEmail(email).authorityName == Some("Municipal Corporation")
    ensures email == "traffic@example.com" ==> CheckAuthorityEmail(email).authorityName == Some("Traffic Department")
  {
  }

  /**
   * The Auth ID check is not tied to the e-mail: the police address is
   * accepted with the traffic department's ID.
   */
  lemma AuthIdNotBoundToEmail()
    ensures CheckAuthorityEmail("police@example.com").emailExists
    ensures MockAuthorityDB[0].email == "police@example.com" && MockAuthorityDB[0].authID != "AUTH003"
    ensures ValidateAuthID("AUTH003").valid
  {
    RegisteredAddresses("police@example.com");
  }

  /**
   * The service object. Its one piece of mutable state is the code store;
   * the five-minute `setTimeout` of each issuance is the explicit event Expire.
   */
  class AuthService {
    var store: Store

    ghost predicate Valid()
      reads this
    {
      CodesWellFormed(store)
    }

    constructor ()
      ensures Valid() && store == map[]
    {
      store := map[];
    }

    /** `sendOTP` with the random draw given as pick. */
    method SendOTP(request: OtpRequest, pick: nat) returns (r: SendResult)
      requires Valid() && pick < OtpSpan
      modifies this
      ensures Valid()
      ensures store == Issue(old(store), request, pick).store
      ensures r == Issue(old(store), request, pick).result
    {
      match request.kind {
        case Citizen =>
          if !IsTenDigitPhone(request.identifier) {
            return SendResult(false, InvalidPhoneMessage);
          }
        case Authority =>
          if !IsEmail(request.identifier) {
            return SendResult(false, InvalidEmailMessage);
          }
      }
      var otp := IssueCode(pick);
      var key := StoreKey(request.kind, request.identifier);
      OperationsPreserveWellFormed(store, request, pick, OtpVerify("", "", request.kind), 0, key);
      store := store[key := otp];
      r := SendResult(true, if request.kind == Citizen then SentToPhoneMessage else SentToEmailMessage);
    }

    /** `verifyOTP` with the `Date.now()` reading given as now. */
    method VerifyOTP(verify: OtpVerify, now: nat) returns (r: VerifyResult)
      requires Valid()
      modifies this
      ensures Valid()
      ensures store == Verify(old(store), verify, now).store
      ensures r == Verify(old(store), verify, now).result
    {
      var key := StoreKey(verify.kind, verify.identifier);
      if key !in store || store[key] == "" {
        return VerifyResult(false, NotFoundMessage, None);
      }
      var storedOtp := store[key];
      if storedOtp != verify.otp {
        return VerifyResult(false, MismatchMessage, None);
      }
      store := store - {key};
      var mockToken := MintToken(now, verify.identifier);
      r := VerifyResult(true, VerifiedMessage, Some(mockToken));
    }

    /** The expiry timer scheduled for key fires. */
    method Expire(key: string)
      requires Valid()
      modifies this
      ensures Valid()
      ensures store == ExpireKey(old(store), key)
    {
      store := store - {key};
    }
  }
}
