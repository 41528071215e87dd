/**
 * The authentication service: phone and email validation rules, and the
 * in-memory session (a token and a user) that verifying the OTP fills and
 * logging out clears.
 */
module Auth {
  import opened Js

  /** The signed-in user record. */
  datatype User = User(id: string, name: string, role: string, token: string)

  /** The fixed user every successful verification signs in, and the fallback of `getUser`. */
  const MockUser: User := User("user_123", "John Doe", "Site Engineer", "mock-jwt-token-xyz")

  /** The OTP the mock verification accepts. */
  const AcceptedOtp: string := "1234"

  // Email: `^[A-Za-z0-9._%+-]+@[A-Za-z0-9.-]+\.[A-Za-z]{2,}$` on the trimmed text.

  predicate Letter(c: char) {
    'A' <= c <= 'Z' || 'a' <= c <= 'z'
  }

  predicate LocalChar(c: char) {
    Letter(c) || IsDigit(c) || c == '.' || c == '_' || c == '%' || c == '+' || c == '-'
  }

  predicate DomainChar(c: char) {
    Letter(c) || IsDigit(c) || c == '.' || c == '-'
  }

  /**
   * The pattern matches `t` with its `@` at `i` and its escaped dot at `j`:
   * a non-empty local part before `i`, a non-empty domain part between, and at
   * least two letters after `j`.
   */
  predicate EmailSplit(t: string, i: int, j: int) {
    && 0 < i && i + 1 < j && j + 3 <= |t|
    && t[i] == '@' && t[j] == '.'
    && (forall k :: 0 <= k < i ==> LocalChar(t[k]))
    && (forall k :: i < k < j ==> DomainChar(t[k]))
    && (forall k :: j < k < |t| ==> Letter(t[k]))
  }

  /** `validateEmail`: the trimmed text matches the pattern at some split. */
  predicate ValidateEmail(email: string) {
    var t := Trim(email);
    exists i, j :: 0 <= i < |t| && 0 <= j < |t| && EmailSplit(t, i, j)
  }

  /** A split of the pattern leaves the `@` at `i` as the only one. */
  lemma SplitHasOneAt(t: string, i: int, j: int)
    requires EmailSplit(t, i, j)
    ensures multiset(t)['@'] == 1
  {
    var a, b := t[..i], t[i + 1..];
    assert t == a + [t[i]] + b;
    forall k | 0 <= k < |a| ensures a[k] != '@' {
      assert LocalChar(t[k]);
    }
    forall k | 0 <= k < |b| ensures b[k] != '@' {
      assert b[k] == t[i + 1 + k];
    }
    assert '@' !in a && '@' !in b;
  }

  /** A matched address holds exactly one `@`: no character class of the pattern admits one. */
  lemma ValidEmailHasOneAt(email: string)
    requires ValidateEmail(email)
    ensures multiset(Trim(email))['@'] == 1
  {
    var t := Trim(email);
    var i, j :| 0 <= i < |t| && 0 <= j < |t| && EmailSplit(t, i, j);
    SplitHasOneAt(t, i, j);
  }

  // Phone: a required length and a pattern per known country code.

  /** The country codes the service has rules for. */
  predicate KnownCode(countryCode: string) {
    countryCode == "+91" || countryCode == "+1" || countryCode == "+44"
  }

  /** `lengthMap[countryCode]`. */
  function RequiredLength(countryCode: string): (n: Option<nat>)
    ensures n.Some? <==> KnownCode(countryCode)
    ensures n.Some? ==> n.value == 10
  {
    if KnownCode(countryCode) then Some(10) else None
  }

  /** `regexMap[countryCode].test(digits)`: `^[6-9]\d{9}$` for +91, `^\d{10}$` for +1 and +44. */
  predicate MatchesFormat(countryCode: string, digits: string)
    requires KnownCode(countryCode)
  {
    if countryCode == "+91" then |digits| == 10 && '6' <= digits[0] <= '9' && AllDigits(digits[1..])
    else |digits| == 10 && AllDigits(digits)
  }

  /** A `{ valid, error }` result. */
  datatype Validation = Valid | Invalid(error: string)

  function LengthError(countryCode: string, n: nat): string {
    "Phone number for " + countryCode + " must be exactly " + NatToString(n) + " digits."
  }

  function FormatError(countryCode: string): string {
    "Phone number does not match required format for " + countryCode + "."
  }

  /**
   * `validatePhone`: the non-digits are stripped; a known code then needs
   * exactly 10 digits (reported first) and, for +91, a first digit 6 to 9;
   * any other code is valid whatever the phone.
   */
  function ValidatePhone(phone: string, countryCode: string): (r: Validation)
    ensures !KnownCode(countryCode) ==> r == Valid
    ensures KnownCode(countryCode) && |DigitsOnly(phone)| != 10 ==> r == Invalid(LengthError(countryCode, 10))
    ensures KnownCode(countryCode) && |DigitsOnly(phone)| == 10 && r.Invalid? ==> r == Invalid(FormatError(countryCode))
    ensures r == Valid <==>
              !KnownCode(countryCode)
              || (|DigitsOnly(phone)| == 10 && (countryCode == "+91" ==> '6' <= DigitsOnly(phone)[0] <= '9'))
  {
    var digits := DigitsOnly(phone);
    var required := RequiredLength(countryCode);
    if required.Some? && |digits| != required.value then Invalid(LengthError(countryCode, required.value))
    else if KnownCode(countryCode) && !MatchesFormat(countryCode, digits) then Invalid(FormatError(countryCode))
    else Valid
  }

  /** The length error reads "... exactly 10 digits.". */
  lemma LengthErrorText(countryCode: string)
    ensures LengthError(countryCode, 10) == "Phone number for " + countryCode + " must be exactly 10 digits."
  {
    assert NatToString(10) == NatToString(1) + [DigitChar(0)];
  }

  /**
   * The verdict depends only on the digits of the input: stripping before the
   * call, as the login screen does, gives the same verdict as passing the raw
   * text.
   */
  lemma PhoneVerdictOnDigits(phone: string, countryCode: string)
    ensures ValidatePhone(DigitsOnly(phone), countryCode) == ValidatePhone(phone, countryCode)
  {
    DigitsOnlyIdempotent(phone);
  }

  /** A code without rules accepts every phone, even an empty one. */
  lemma UnknownCodeAcceptsAll(phone: string, countryCode: string)
    requires !KnownCode(countryCode)
    ensures ValidatePhone(phone, countryCode) == Valid
  {
  }

  /** Ten digits starting with 5 are refused for +91 for their format, and pass for +1. */
  lemma IndianLeadingDigit(d: string)
    requires |d| == 10 && AllDigits(d) && d[0] == '5'
    ensures ValidatePhone(d, "+91") == Invalid(FormatError("+91"))
    ensures ValidatePhone(d, "+1") == Valid
  {
    DigitsOnlyKeepsDigits(d);
  }

  /** Spaces in the phone text are stripped before the rules apply: `"98765 43210"` passes for +91. */
  lemma SpacedIndianNumber(a: string, b: string)
    requires AllDigits(a) && AllDigits(b) && |a| + |b| == 10
    requires a != [] && '6' <= a[0] <= '9'
    ensures ValidatePhone(a + " " + b, "+91") == Valid
  {
    assert a + " " + b == a + (" " + b);
    DigitsOnlyConcat(a, " " + b);
    assert " " + b == [' '] + b;
    assert (" " + b)[1..] == b;
    DigitsOnlyKeepsDigits(a);
    DigitsOnlyKeepsDigits(b);
    assert DigitsOnly(a + " " + b) == a + b;
  }

  /** The pattern needs at least six characters: one before `@`, one between, a dot and two letters. */
  lemma ShortAddressRejected(email: string)
    requires |Trim(email)| < 6
    ensures !ValidateEmail(email)
  {
  }

  /** What `verifyOtp` resolves with. */
  datatype OtpResponse = OtpAccepted(token: string, user: User) | OtpRejected(error: string)

  /** The module-level session cells. */
  class Session {
    var token: Option<string>
    var user: Option<User>

    /** Nobody is signed in at start. */
    constructor ()
      ensures token == None && user == None
    {
      token := None;
      user := None;
    }

    /** `setSession`: the token is replaced; the user only when one is given. */
    method SetSession(newToken: string, newUser: Option<User>)
      modifies this
      ensures token == Some(newToken)
      ensures user == if newUser.Some? then newUser else old(user)
    {
      token := Some(newToken);
      if newUser.Some? {
        user := newUser;
      }
    }

    /** `logout`: both cells are cleared. */
    method Logout()
      modifies this
      ensures token == None && user == None
    {
      token := None;
      user := None;
    }

    /** `getUser`: never empty; the mock user stands in when nobody is stored. */
    function GetUser(): (u: User)
      reads this
      ensures user.Some? ==> u == user.value
      ensures user == None ==> u == MockUser
    {
      if user.Some? then user.value else MockUser
    }

    /** `isAuthenticated`: a token is stored and is not the empty string. */
    predicate IsAuthenticated()
      reads this
    {
      Present(token)
    }

    /**
     * The decision inside `verifyOtp`: only `"1234"` is accepted, and then the
     * session holds the mock token and the mock user; any other code leaves the
     * session as it was.
     */
    method VerifyOtp(identifier: string, otp: string) returns (r: OtpResponse)
      modifies this
      ensures r.OtpAccepted? <==> otp == AcceptedOtp
      ensures r.OtpAccepted? ==>
                r == OtpAccepted(MockUser.token, MockUser) && token == Some(MockUser.token) && user == Some(MockUser)
      ensures r.OtpRejected? ==> r.error == "Invalid OTP" && token == old(token) && user == old(user)
    {
      if otp == AcceptedOtp {
        SetSession(MockUser.token, Some(MockUser));
        r := OtpAccepted(MockUser.token, MockUser);
      } else {
        r := OtpRejected("Invalid OTP");
      }
    }
  }

  /**
   * A session's life: verifying `"1234"` signs in; a later token without a user
   * keeps the user; logging out signs out, after which `getUser` falls back to
   * the mock user.
   */
  method SessionLifecycle() returns (s: Session)
    ensures !s.IsAuthenticated() && s.GetUser() == MockUser && s.token == None
  {
    s := new Session();
    var r := s.VerifyOtp("+919876543210", "1234");
    assert s.IsAuthenticated();
    s.SetSession("refreshed", None);
    assert s.user == Some(MockUser);
    s.Logout();
  }
}
