/**
 * The parts of the SMS carrier client that are not network traffic: the
 * request timestamp, the token derived from it, and the checks `sendSMS`
 * makes before it logs in to the carrier. Login and campaign creation are
 * remote calls; the model takes their outcomes as booleans.
 */
module SmsService {
  import opened Wrappers
  import opened Text

  const MaxMessageLength := 160

  const RequiredMessage := "Phone number and message are required"
  const InvalidPhoneMessage := "Invalid phone number format"
  const TooLongMessage := "Message too long (max 160 characters)"
  const AuthFailedMessage := "Authentication failed"
  const SentMessage := "SMS sent successfully"
  const SendFailedMessage := "Failed to send SMS"

  /** What `sendSMS` resolves to (the echoed `data` on success is left out). */
  datatype SmsResponse = SmsResponse(success: bool, message: string)

  // ---------------------------------------------------------------------------
  // Request timestamp and token

  /**
   * `Math.floor(Math.random() * (999 - 111 + 1)) + 111` for a draw `r` of
   * `Math.random()`, which lies in [0, 1).
   */
  function RandomSuffix(r: real): (n: int)
    requires 0.0 <= r < 1.0
    ensures 111 <= n <= 999
  {
    (r * 889.0).Floor + 111
  }

  /**
   * `generateTimestamp`: the whole seconds of the clock reading `nowMs`
   * (milliseconds) followed by the random suffix.
   */
  function GenerateTimestamp(nowMs: int, r: real): (ts: string)
    requires 0.0 <= r < 1.0
    ensures |ts| >= 4
    ensures ts[..|ts| - 3] == IntToDecimal(nowMs / 1000)
    ensures forall i :: |ts| - 3 <= i < |ts| ==> IsDigit(ts[i])
    ensures DigitsValue(ts[|ts| - 3..]) == RandomSuffix(r)
  {
    var seconds := IntToDecimal(nowMs / 1000);
    var suffix := NatToDecimal(RandomSuffix(r));
    NatToDecimalThreeDigits(RandomSuffix(r));
    NatToDecimalRoundTrip(RandomSuffix(r));
    SplitLastThree(seconds, suffix);
    seconds + suffix
  }

  /** A string ending in three characters splits back into its head and those three. */
  lemma SplitLastThree(head: string, tail: string)
    requires |tail| == 3
    ensures (head + tail)[..|head + tail| - 3] == head
    ensures (head + tail)[|head + tail| - 3..] == tail
  {
  }

  /** The characters of `s` at the even indices 0, 2, 4, ... */
  function EvenIndexed(s: string): string
  {
    if |s| <= 1 then s else [s[0]] + EvenIndexed(s[2..])
  }

  /** `EvenIndexed(s)` holds ceil(|s| / 2) characters, the k-th being `s[2 * k]`. */
  lemma {:induction false} EvenIndexedAt(s: string)
    ensures |EvenIndexed(s)| == (|s| + 1) / 2
    ensures forall k :: 0 <= k < |EvenIndexed(s)| ==> EvenIndexed(s)[k] == s[2 * k]
  {
    if |s| > 1 {
      EvenIndexedAt(s[2..]);
    }
  }

  /**
   * `generateToken`: the state name, the timestamp, then every second
   * character of the timestamp, gathered by a loop that steps by two.
   */
  method GenerateToken(timestamp: string, stateName: string) returns (token: string)
    ensures token == stateName + timestamp + EvenIndexed(timestamp)
    ensures |token| == |stateName| + |timestamp| + (|timestamp| + 1) / 2
  {
    var picked := "";
    var i := 0;
    while i < |timestamp|
      invariant i % 2 == 0 && i <= |timestamp| + 1
      invariant |picked| == i / 2
      invariant forall k :: 0 <= k < |picked| ==> picked[k] == timestamp[2 * k]
    {
      picked := picked + [timestamp[i]];
      i := i + 2;
    }
    EvenIndexedAt(timestamp);
    assert picked == EvenIndexed(timestamp);
    token := stateName + timestamp + picked;
  }

  // ---------------------------------------------------------------------------
  // Input checks of sendSMS

  /** `01[3-9]\d{8}`: an eleven-digit Bangladeshi mobile number. */
  predicate IsLocalMobile(s: string)
  {
    |s| == 11 && s[0] == '0' && s[1] == '1' && '3' <= s[2] <= '9'
    && forall i :: 3 <= i < 11 ==> IsDigit(s[i])
  }

  /** `^(\+88)?01[3-9]\d{8}$`: a local number, optionally after the country code. */
  predicate IsBangladeshiMobile(p: string)
  {
    IsLocalMobile(p) || (StartsWith(p, "+88") && IsLocalMobile(p[3..]))
  }

  /** The country code is optional: with or without it the same numbers pass. */
  lemma CountryCodeOptional(local: string)
    ensures IsBangladeshiMobile("+88" + local) <==> IsLocalMobile(local)
    ensures IsBangladeshiMobile(local) ==> |local| == 11 || |local| == 14
  {
    assert ("+88" + local)[..3] == "+88";
    assert ("+88" + local)[3..] == local;
  }

  /** Some numbers the pattern accepts and some it refuses. */
  lemma PhonePatternExamples()
    ensures IsBangladeshiMobile("01712345678")
    ensures IsBangladeshiMobile("+8801912345678")
    ensures !IsBangladeshiMobile("01212345678")
    ensures !IsBangladeshiMobile("8801712345678")
    ensures !IsBangladeshiMobile("0171234567")
    ensures !IsBangladeshiMobile("017123456789")
  {
    assert "+8801912345678"[..3] == "+88";
    assert "+8801912345678"[3..] == "01912345678";
  }

  /**
   * The pre-checks of `sendSMS`, in order: both fields present, phone
   * pattern, message length. The result is the rejection message, if any.
   */
  function InputError(phone: string, message: string): (e: Option<string>)
    ensures e.None? <==> phone != "" && message != "" && IsBangladeshiMobile(phone) && |message| <= MaxMessageLength
    ensures phone == "" || message == "" ==> e == Some(RequiredMessage)
    ensures e == Some(InvalidPhoneMessage) <==> phone != "" && message != "" && !IsBangladeshiMobile(phone)
    ensures e == Some(TooLongMessage) <==>
      phone != "" && message != "" && IsBangladeshiMobile(phone) && |message| > MaxMessageLength
  {
    if phone == "" || message == "" then Some(RequiredMessage)
    else if !IsBangladeshiMobile(phone) then Some(InvalidPhoneMessage)
    else if |message| > MaxMessageLength then Some(TooLongMessage)
    else None
  }

  /**
   * `sendSMS`: the pre-checks, then login (`loginOk`: credentials came back),
   * then campaign creation (`campaignOk`: the carrier answered "success").
   */
  function SendSms(phone: string, message: string, loginOk: bool, campaignOk: bool): (r: SmsResponse)
    ensures r.success <==> InputError(phone, message).None? && loginOk && campaignOk
    ensures InputError(phone, message).Some? ==> r.message == InputError(phone, message).value
    ensures InputError(phone, message).None? && !loginOk ==> r.message == AuthFailedMessage
    ensures InputError(phone, message).None? && loginOk && !campaignOk ==> r.message == SendFailedMessage
    ensures r.success ==> r.message == SentMessage
    ensures r.message != ""
  {
    match InputError(phone, message)
    case Some(error) => SmsResponse(false, error)
    case None =>
      if !loginOk then SmsResponse(false, AuthFailedMessage)
      else if campaignOk then SmsResponse(true, SentMessage)
      else SmsResponse(false, SendFailedMessage)
  }

  /**
   * A rejected input is answered before any login attempt: the outcome does
   * not depend on what the carrier would have said.
   */
  lemma RejectedBeforeLogin(phone: string, message: string, l1: bool, c1: bool, l2: bool, c2: bool)
    requires InputError(phone, message).Some?
    ensures SendSms(phone, message, l1, c1) == SendSms(phone, message, l2, c2)
    ensures !SendSms(phone, message, l1, c1).success
  {
  }

  /** The 160-character bound is inclusive. */
  lemma MessageLengthBoundary(phone: string, message: string)
    requires IsBangladeshiMobile(phone) && message != ""
    ensures |message| == MaxMessageLength ==> InputError(phone, message).None?
    ensures |message| == MaxMessageLength + 1 ==> InputError(phone, message) == Some(TooLongMessage)
  {
    assert phone != "";
  }
}
