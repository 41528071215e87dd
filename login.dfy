/**
 * The login screen: a phone or email identifier, the screen's own loose
 * checks, the service's stricter rules behind them, and the OTP request.
 */
module Login {
  import opened Js
  import opened Auth

  /** A character of the loose email pattern's runs, `[^\s@]`. */
  predicate Plain(c: char) {
    !IsSpace(c) && c != '@'
  }

  /** `^[^\s@]+@[^\s@]+\.[^\s@]+$` matches `t` with its `@` at `i` and its escaped dot at `j`. */
  predicate LooseSplit(t: string, i: int, j: int) {
    && 0 < i && i + 1 < j && j + 1 < |t|
    && t[i] == '@' && t[j] == '.'
    && (forall k :: 0 <= k < i ==> Plain(t[k]))
    && (forall k :: i < k < j ==> Plain(t[k]))
    && (forall k :: j < k < |t| ==> Plain(t[k]))
  }

  /** `emailValid`: the trimmed text matches the loose pattern at some split. */
  predicate EmailValid(v: string) {
    var t := Trim(v);
    exists i, j :: 0 <= i < |t| && 0 <= j < |t| && LooseSplit(t, i, j)
  }

  /** `countryCodeValid`: the trimmed text is `+` and one to three digits. */
  predicate CountryCodeValid(v: string) {
    var t := Trim(v);
    2 <= |t| <= 4 && t[0] == '+' && AllDigits(t[1..])
  }

  /** Each character class of the strict pattern lies inside the loose one. */
  lemma StrictSplitIsLoose(t: string, i: int, j: int)
    requires EmailSplit(t, i, j)
    ensures LooseSplit(t, i, j)
  {
  }

  /** The service's email rule is stricter than the screen's: every address it accepts the screen accepts. */
  lemma StrictEmailIsLoose(email: string)
    requires ValidateEmail(email)
    ensures EmailValid(email)
  {
    var t := Trim(email);
    var i, j :| 0 <= i < |t| && 0 <= j < |t| && EmailSplit(t, i, j);
    StrictSplitIsLoose(t, i, j);
  }

  /** A split of the trimmed text that the loose pattern accepts makes the screen accept the address. */
  lemma LooseWitness(v: string, i: int, j: int)
    requires 0 <= i < |Trim(v)| && 0 <= j < |Trim(v)| && LooseSplit(Trim(v), i, j)
    ensures EmailValid(v)
  {
  }

  /** ... and strictly so: every address shorter than six characters that the screen accepts, the service refuses. */
  lemma ShortLooseEmailNotStrict(v: string, i: int, j: int)
    requires 0 <= i < |Trim(v)| && 0 <= j < |Trim(v)| && LooseSplit(Trim(v), i, j)
    requires |Trim(v)| < 6
    ensures EmailValid(v) && !ValidateEmail(v)
  {
    ShortAddressRejected(v);
  }

  /** Five characters `a@b.c` with nothing blank or `@` in the three parts are, trimmed, themselves and a loose split. */
  lemma FiveCharLoose(a: char, b: char, c: char)
    requires Plain(a) && Plain(b) && Plain(c)
    ensures Trim([a, '@', b, '.', c]) == [a, '@', b, '.', c]
    ensures EmailValid([a, '@', b, '.', c])
  {
    var t := [a, '@', b, '.', c];
    TrimVisibleEnds(t);
    assert LooseSplit(t, 1, 3);
    LooseWitness(t, 1, 3);
  }

  /** A one-letter top-level domain, as in `"a@b.c"`, passes the screen and fails the service. */
  lemma LooseEmailNotStrict(a: char, b: char, c: char)
    requires Plain(a) && Plain(b) && Plain(c)
    ensures EmailValid([a, '@', b, '.', c]) && !ValidateEmail([a, '@', b, '.', c])
  {
    FiveCharLoose(a, b, c);
    ShortAddressRejected([a, '@', b, '.', c]);
  }

  datatype Mode = PhoneMode | EmailMode

  /** Why `onContinue` stops before requesting an OTP. */
  datatype Refusal = BadCountryCode | BadPhone(message: string) | BadEmailShape | BadEmailFormat

  /** The alert each refusal raises: a title and a message. */
  function RefusalAlert(r: Refusal): (string, string) {
    match r
    case BadCountryCode => ("Invalid country code", "Please enter a valid country code (e.g., +91).")
    case BadPhone(m) => ("Invalid phone", m)
    case BadEmailShape => ("Invalid Email", "Please enter a valid email address.")
    case BadEmailFormat => ("Invalid Email", "Email format is incorrect.")
  }

  /** `validation.error || "Phone number is invalid."`. */
  function PhoneAlert(error: string): string {
    if error != "" then error else "Phone number is invalid."
  }

  /**
   * The checks of `onContinue` as written, in their order: in phone mode the
   * country code first, then the service's phone rules on the stripped digits
   * against the RAW country code; in email mode the loose pattern first, then
   * the service's.
   */
  function Precheck(mode: Mode, phone: string, countryCode: string, email: string): (r: Option<Refusal>)
    ensures mode == PhoneMode && !CountryCodeValid(countryCode) ==> r == Some(BadCountryCode)
    ensures mode == PhoneMode ==>
              (r == None <==> CountryCodeValid(countryCode) && ValidatePhone(phone, countryCode) == Valid)
    ensures mode == EmailMode && !EmailValid(email) ==> r == Some(BadEmailShape)
    ensures mode == EmailMode ==> (r == None <==> EmailValid(email) && ValidateEmail(email))
  {
    PhoneVerdictOnDigits(phone, countryCode);
    match mode
    case PhoneMode =>
      if !CountryCodeValid(countryCode) then Some(BadCountryCode)
      else (match ValidatePhone(DigitsOnly(phone), countryCode)
            case Invalid(e) => Some(BadPhone(PhoneAlert(e)))
            case Valid => None)
    case EmailMode =>
      if !EmailValid(email) then Some(BadEmailShape)
      else if !ValidateEmail(email) then Some(BadEmailFormat)
      else None
  }

  /** As written, a padded known code skips the phone rules: `"+91 "` with no phone at all passes. */
  lemma PaddedCodeSkipsPhoneRules()
    ensures Trim("+91 ") == "+91" && KnownCode(Trim("+91 "))
    ensures Precheck(PhoneMode, "", "+91 ", "") == None
  {
    PaddedCodeTrims();
  }

  lemma PaddedCodeTrims()
    ensures Trim("+91 ") == "+91"
  {
    var s := "+91 ";
    assert TrimStart(s) == s;
    assert s[..|s| - 1] == "+91";
    assert TrimEnd("+91") == "+91";
  }

  /**
   * The checks with the country code trimmed before it reaches the phone
   * rules, the same text the country-code check approved.
   */
  function PrecheckTrimmed(mode: Mode, phone: string, countryCode: string, email: string): (r: Option<Refusal>)
    ensures mode == PhoneMode && !CountryCodeValid(countryCode) ==> r == Some(BadCountryCode)
    ensures mode == PhoneMode ==>
              (r == None <==> CountryCodeValid(countryCode) && ValidatePhone(phone, Trim(countryCode)) == Valid)
    ensures mode == EmailMode ==> r == Precheck(mode, phone, countryCode, email)
  {
    PhoneVerdictOnDigits(phone, Trim(countryCode));
    match mode
    case PhoneMode =>
      if !CountryCodeValid(countryCode) then Some(BadCountryCode)
      else (match ValidatePhone(DigitsOnly(phone), Trim(countryCode))
            case Invalid(e) => Some(BadPhone(PhoneAlert(e)))
            case Valid => None)
    case EmailMode => Precheck(mode, phone, countryCode, email)
  }

  /** With the trim, whenever the approved code has rules the phone must carry exactly ten digits. */
  lemma TrimmedCodeKeepsPhoneRules(phone: string, countryCode: string)
    requires PrecheckTrimmed(PhoneMode, phone, countryCode, "") == None
    requires KnownCode(Trim(countryCode))
    ensures |DigitsOnly(phone)| == 10
  {
  }

  /** The padded code from the finding is now refused for the missing digits. */
  lemma PaddedCodeRefusedWhenTrimmed()
    ensures PrecheckTrimmed(PhoneMode, "", "+91 ", "") == Some(BadPhone(LengthError("+91", 10)))
  {
    PaddedCodeTrims();
    LengthErrorText("+91");
  }

  /** The identifier the OTP is requested for: the raw country code and the raw phone text, or the email. */
  function Identifier(mode: Mode, phone: string, countryCode: string, email: string): string {
    match mode
    case PhoneMode => countryCode + phone
    case EmailMode => email
  }

  /** How `onContinue` ended. */
  datatype LoginOutcome = Stopped(refusal: Refusal) | OtpSent(identifier: string) | SendFailed

  /** The input cells of the login screen. */
  class LoginScreen {
    var mode: Mode
    var phone: string
    var countryCode: string
    var email: string
    var loading: bool

    /** Phone mode, country code `+91`, empty inputs, not loading. */
    constructor ()
      ensures mode == PhoneMode && phone == "" && countryCode == "+91" && email == "" && !loading
    {
      mode := PhoneMode;
      phone := "";
      countryCode := "+91";
      email := "";
      loading := false;
    }

    /** The Phone / Email toggle. */
    method SetMode(m: Mode)
      modifies this`mode
      ensures mode == m
    {
      mode := m;
    }

    method SetPhone(s: string)
      modifies this`phone
      ensures phone == s
    {
      phone := s;
    }

    method SetCountryCode(s: string)
      modifies this`countryCode
      ensures countryCode == s
    {
      countryCode := s;
    }

    method SetEmail(s: string)
      modifies this`email
      ensures email == s
    {
      email := s;
    }

    /**
     * `onContinue` as written: any refusal of `Precheck` stops before an OTP
     * is requested; otherwise the OTP is requested for the identifier, and
     * `sendSucceeds` is the service's reply. `loading` ends false on every path.
     */
    method OnContinue(sendSucceeds: bool) returns (r: LoginOutcome, requestedFor: Option<string>)
      modifies this`loading
      ensures !loading
      ensures Precheck(mode, phone, countryCode, email).Some? ==>
                r == Stopped(Precheck(mode, phone, countryCode, email).value) && requestedFor == None
      ensures Precheck(mode, phone, countryCode, email) == None ==>
                requestedFor == Some(Identifier(mode, phone, countryCode, email))
                && r == (if sendSucceeds then OtpSent(Identifier(mode, phone, countryCode, email)) else SendFailed)
    {
      loading := true;
      var refusal := Precheck(mode, phone, countryCode, email);
      if refusal.Some? {
        loading := false;
        return Stopped(refusal.value), None;
      }
      var id := Identifier(mode, phone, countryCode, email);
      requestedFor := Some(id);
      r := if sendSucceeds then OtpSent(id) else SendFailed;
      loading := false;
    }

    /** `onContinue` with the corrected checks, which hand the trimmed country code to the phone rules. */
    method OnContinueCorrected(sendSucceeds: bool) returns (r: LoginOutcome, requestedFor: Option<string>)
      modifies this`loading
      ensures !loading
      ensures PrecheckTrimmed(mode, phone, countryCode, email).Some? ==>
                r == Stopped(PrecheckTrimmed(mode, phone, countryCode, email).value) && requestedFor == None
      ensures PrecheckTrimmed(mode, phone, countryCode, email) == None ==>
                requestedFor == Some(Identifier(mode, phone, countryCode, email))
                && r == (if sendSucceeds then OtpSent(Identifier(mode, phone, countryCode, email)) else SendFailed)
    {
      loading := true;
      var refusal := PrecheckTrimmed(mode, phone, countryCode, email);
      if refusal.Some? {
        loading := false;
        return Stopped(refusal.value), None;
      }
      var id := Identifier(mode, phone, countryCode, email);
      requestedFor := Some(id);
      r := if sendSucceeds then OtpSent(id) else SendFailed;
      loading := false;
    }
  }

  /** A fresh screen with the country code changed to `"+91 "` and no phone typed. */
  method PaddedCodeScreen() returns (screen: LoginScreen)
    ensures fresh(screen)
    ensures screen.mode == PhoneMode && screen.phone == "" && screen.countryCode == "+91 " && screen.email == ""
  {
    screen := new LoginScreen();
    screen.SetCountryCode("+91 ");
  }

  /** As written, typing `"+91 "` and no phone requests an OTP for `"+91 "`. */
  method PaddedCodeRequested() returns (r: LoginOutcome, requestedFor: Option<string>)
    ensures requestedFor == Some("+91 ") && r == OtpSent("+91 ")
  {
    var screen := PaddedCodeScreen();
    PaddedCodeSkipsPhoneRules();
    assert Identifier(PhoneMode, "", "+91 ", "") == "+91 ";
    r, requestedFor := screen.OnContinue(true);
  }

  /** Corrected, the same input stops at the phone rules and requests nothing. */
  method PaddedCodeStopped() returns (r: LoginOutcome, requestedFor: Option<string>)
    ensures requestedFor == None && r == Stopped(BadPhone(LengthError("+91", 10)))
  {
    var screen := PaddedCodeScreen();
    PaddedCodeRefusedWhenTrimmed();
    r, requestedFor := screen.OnContinueCorrected(true);
  }

  /**
   * As written, an OTP is requested only for a valid country code whose RAW
   * text the phone rules accept, or for an email both patterns accept, with
   * exactly one `@`.
   */
  lemma RequestedOnlyWhenApproved(mode: Mode, phone: string, countryCode: string, email: string)
    requires Precheck(mode, phone, countryCode, email) == None
    ensures mode == PhoneMode ==> CountryCodeValid(countryCode) && ValidatePhone(phone, countryCode) == Valid
    ensures mode == EmailMode ==> EmailValid(email) && ValidateEmail(email) && multiset(Trim(email))['@'] == 1
  {
    if mode == EmailMode {
      ValidEmailHasOneAt(email);
    }
  }

  /** Corrected, an OTP is requested only when the phone rules accept the TRIMMED code the check approved. */
  lemma CorrectedRequestedOnlyWhenApproved(mode: Mode, phone: string, countryCode: string, email: string)
    requires PrecheckTrimmed(mode, phone, countryCode, email) == None
    ensures mode == PhoneMode ==> CountryCodeValid(countryCode) && ValidatePhone(phone, Trim(countryCode)) == Valid
    ensures mode == EmailMode ==> EmailValid(email) && ValidateEmail(email) && multiset(Trim(email))['@'] == 1
  {
    if mode == EmailMode {
      ValidEmailHasOneAt(email);
    }
  }
}
