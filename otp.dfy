/**
 * The OTP screen: six one-character cells, focus that follows typing, and the
 * verification that only runs on a full code.
 */
module Otp {
  import opened Js
  import opened Auth
  import Login

  const Cells: int := 6

  /** `/^\d?$/`: empty, or exactly one ASCII digit. */
  predicate DigitCell(v: string) {
    v == "" || (|v| == 1 && IsDigit(v[0]))
  }

  /** Whether the verification is sent over email or phone. */
  datatype Channel = EmailChannel | PhoneChannel

  /** `contactInfo.includes('@') ? 'email' : 'phone'`. */
  function ChannelOf(contact: string): (c: Channel)
    ensures c == EmailChannel <==> Contains(contact, "@")
  {
    if Contains(contact, "@") then EmailChannel else PhoneChannel
  }

  /** Six filled one-digit cells join into a six-character code, which is never the accepted `"1234"`. */
  lemma FullCodeNeverAccepted(code: seq<string>)
    requires |code| == Cells
    requires forall i :: 0 <= i < |code| ==> DigitCell(code[i]) && code[i] != ""
    ensures |Join(code)| == Cells
    ensures Join(code) != AcceptedOtp
  {
    JoinOfSingles(code);
  }

  /** An `@` in the trimmed text is an `@` of the text itself. */
  lemma AtInTrimmed(email: string, t: string, i: int)
    requires t == Trim(email)
    requires 0 <= i < |t| && t[i] == '@'
    ensures ChannelOf(email) == EmailChannel
  {
    var k := TrimOffset(email);
    assert email[k + i] == t[i];
    assert email[k + i..k + i + 1] == "@";
    assert OccursAt(email, "@", k + i);
  }

  /** An address the login screen accepts routes the verification over email. */
  lemma LoginEmailUsesEmail(email: string)
    requires Login.EmailValid(email)
    ensures ChannelOf(email) == EmailChannel
  {
    var t := Trim(email);
    var i, j :| 0 <= i < |t| && 0 <= j < |t| && Login.LooseSplit(t, i, j);
    LooseSplitAt(t, i, j);
    AtInTrimmed(email, t, i);
  }

  /** The loose pattern's split point holds the `@`. */
  lemma LooseSplitAt(t: string, i: int, j: int)
    requires Login.LooseSplit(t, i, j)
    ensures 0 <= i < |t| && t[i] == '@'
  {
  }

  /** Where the trimmed text starts inside the text it came from. */
  lemma TrimOffset(s: string) returns (k: nat)
    ensures k + |Trim(s)| <= |s|
    ensures Trim(s) == s[k..k + |Trim(s)|]
  {
    var a := TrimStart(s);
    k := |s| - |a|;
    PrefixOfSuffix(s, k, |TrimEnd(a)|);
  }

  /** Taking a prefix of a suffix is taking a middle slice. */
  lemma PrefixOfSuffix(s: string, k: int, n: int)
    requires 0 <= k <= |s| && 0 <= n <= |s| - k
    ensures s[k..][..n] == s[k..k + n]
  {
  }

  /** How pressing Verify ended. */
  datatype VerifyOutcome = IncompleteWarning | Welcome | InvalidOtp

  /** The screen's cells; `contact` is the route parameter, `""` when absent. */
  class OtpScreen {
    const contact: string
    var code: seq<string>
    /** The cell that has focus. */
    var focus: int
    var loading: bool

    /** Six cells, each empty or one digit, and a focus inside them. */
    ghost predicate Valid()
      reads this
    {
      |code| == Cells && (forall i :: 0 <= i < |code| ==> DigitCell(code[i])) && 0 <= focus < Cells
    }

    /** Six empty cells, focus on the first. */
    constructor (contact: Option<string>)
      ensures Valid()
      ensures this.contact == (if contact.Some? then contact.value else "")
      ensures code == ["", "", "", "", "", ""] && focus == 0 && !loading
    {
      this.contact := if contact.Some? then contact.value else "";
      code := ["", "", "", "", "", ""];
      focus := 0;
      loading := false;
    }

    /**
     * `setDigit(index, val)`: anything but an empty string or a single digit is
     * ignored; otherwise only that cell changes, and focus moves forward after a
     * digit (before the last cell) and backward after clearing (after the first).
     */
    method SetDigit(index: int, val: string) returns (accepted: bool)
      requires Valid() && 0 <= index < Cells
      modifies this`code, this`focus
      ensures Valid()
      ensures accepted <==> DigitCell(val)
      ensures accepted ==> code == old(code)[index := val]
      ensures !accepted ==> code == old(code) && focus == old(focus)
      ensures accepted && val != "" && index < Cells - 1 ==> focus == index + 1
      ensures accepted && val == "" && index > 0 ==> focus == index - 1
      ensures accepted && ((val != "" && index == Cells - 1) || (val == "" && index == 0)) ==> focus == old(focus)
    {
      if !DigitCell(val) {
        return false;
      }
      code := code[index := val];
      if val != "" && index < Cells - 1 {
        focus := index + 1;
      }
      if val == "" && index > 0 {
        focus := index - 1;
      }
      accepted := true;
    }

    /**
     * `onVerify`: with an empty cell it only warns; otherwise it sends the joined
     * code, which is six characters long and so is always rejected. The session
     * is therefore never changed, and the welcome path is unreachable.
     */
    method OnVerify(session: Session) returns (r: VerifyOutcome, sent: Option<(string, string, Channel)>)
      requires Valid()
      modifies this`loading, session
      ensures (exists i :: 0 <= i < |code| && code[i] == "") ==>
                r == IncompleteWarning && sent == None && loading == old(loading)
      ensures (forall i :: 0 <= i < |code| ==> code[i] != "") ==>
                r == InvalidOtp && sent == Some((contact, Join(code), ChannelOf(contact))) && !loading
      ensures r != Welcome
      ensures session.token == old(session.token) && session.user == old(session.user)
    {
      if exists i :: 0 <= i < |code| && code[i] == "" {
        return IncompleteWarning, None;
      }
      loading := true;
      var otp := Join(code);
      FullCodeNeverAccepted(code);
      sent := Some((contact, otp, ChannelOf(contact)));
      var response := session.VerifyOtp(contact, otp);
      if response.OtpAccepted? {
        r := Welcome;
      } else {
        r := InvalidOtp;
        loading := false;
      }
    }
  }
}
