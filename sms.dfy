/** The SMS helpers of backend/src/textbelt_sms.rs: choosing the provider
    from the environment, normalising a phone number toward ITU-T E.164,
    the Twilio sender's "+" prefix, and how the two providers' replies become
    `Result`s. The HTTP calls themselves are parameters: a function from the
    outgoing request to what came back. */
module Sms {
  import opened Wrappers
  import opened Text

  datatype SmsProvider = Twilio | Textbelt

  const DEFAULT_PROVIDER: string := "textbelt"
  const DEFAULT_TEXTBELT_URL: string := "https://textbelt.com/text"
  const INVALID_PHONE: string := "Invalid phone number format. Must be at least 10 digits."

  // ---------------------------------------------------------------------------
  // Configuration

  /** The environment variables `SmsConfig::from_env` reads, each possibly unset. */
  datatype SmsEnv = SmsEnv(
    smsProvider: Option<string>,
    twilioAccountSid: Option<string>,
    twilioAuthToken: Option<string>,
    twilioFromPhone: Option<string>,
    textbeltApiKey: Option<string>,
    textbeltApiUrl: Option<string>)

  datatype SmsConfig = SmsConfig(
    provider: SmsProvider,
    twilioAccountSid: Option<string>,
    twilioAuthToken: Option<string>,
    twilioFromPhone: Option<string>,
    textbeltApiKey: Option<string>,
    textbeltApiUrl: string)

  function ProviderFromEnv(smsProvider: Option<string>): SmsProvider {
    if Lower(smsProvider.GetOr(DEFAULT_PROVIDER)) == "twilio" then Twilio else Textbelt
  }

  /** Twilio is chosen exactly when the variable is set and lower-cases to
      "twilio"; unset, or any other value, chooses Textbelt. */
  lemma ProviderChoice(smsProvider: Option<string>)
    ensures ProviderFromEnv(smsProvider) == Twilio <==> smsProvider.Some? && Lower(smsProvider.value) == "twilio"
    ensures smsProvider.None? ==> ProviderFromEnv(smsProvider) == Textbelt
    ensures ProviderFromEnv(Some("TWILIO")) == Twilio && ProviderFromEnv(Some("Twilio")) == Twilio
  {
    if smsProvider.None? {
      assert Lower(DEFAULT_PROVIDER)[0] == 't' && Lower(DEFAULT_PROVIDER)[1] == 'e';
    }
    assert Lower("TWILIO") == "twilio";
    assert Lower("Twilio") == "twilio";
  }

  /** `from_env` never fails: every setting is optional and the Textbelt URL
      has a default. */
  function ConfigFromEnv(env: SmsEnv): (r: Option<SmsConfig>)
    ensures r.Some? && r.value.provider == ProviderFromEnv(env.smsProvider)
    ensures r.Some? && r.value.textbeltApiUrl == (if env.textbeltApiUrl.Some? then env.textbeltApiUrl.value else DEFAULT_TEXTBELT_URL)
    ensures r.Some? && r.value.textbeltApiKey == env.textbeltApiKey && r.value.twilioAccountSid == env.twilioAccountSid
    ensures r.Some? && r.value.twilioAuthToken == env.twilioAuthToken && r.value.twilioFromPhone == env.twilioFromPhone
  {
    Some(SmsConfig(
      ProviderFromEnv(env.smsProvider),
      env.twilioAccountSid, env.twilioAuthToken, env.twilioFromPhone,
      env.textbeltApiKey, env.textbeltApiUrl.GetOr(DEFAULT_TEXTBELT_URL)))
  }

  // ---------------------------------------------------------------------------
  // Phone numbers

  /** The ASCII digits of `s`, in order. */
  function Digits(s: string): string {
    if s == [] then []
    else if IsAsciiDigit(s[0]) then [s[0]] + Digits(s[1..])
    else Digits(s[1..])
  }

  lemma {:induction false} DigitsDistributes(a: string, b: string)
    ensures Digits(a + b) == Digits(a) + Digits(b)
  {
    if a == [] {
      assert a + b == b;
    } else {
      assert (a + b)[0] == a[0] && (a + b)[1..] == a[1..] + b;
      DigitsDistributes(a[1..], b);
    }
  }

  /** Only digits are kept, every digit is kept, and a string of digits is
      its own digit string. */
  lemma {:induction false} DigitsMeaning(s: string)
    ensures AllDigits(Digits(s))
    ensures forall c :: c in Digits(s) <==> c in s && IsAsciiDigit(c)
    ensures |Digits(s)| <= |s|
    ensures AllDigits(s) ==> Digits(s) == s
  {
    if s != [] {
      DigitsMeaning(s[1..]);
      assert s == [s[0]] + s[1..];
    }
  }

  function FormatPhoneNumber(phone: string): Result<string, string> {
    var digits := Digits(phone);
    if |digits| == 10 then Success("+1" + digits)
    else if |digits| == 11 && digits[0] == '1' then Success("+" + digits)
    else if |digits| >= 10 then Success("+" + digits)
    else Failure(INVALID_PHONE)
  }

  /** Ten digits gain "+1", eleven or more gain "+", fewer than ten are
      refused. */
  lemma FormatPhoneNumberCases(phone: string)
    ensures var d := Digits(phone);
      && (FormatPhoneNumber(phone).Success? <==> |d| >= 10)
      && (|d| == 10 ==> FormatPhoneNumber(phone) == Success("+1" + d))
      && (|d| >= 11 ==> FormatPhoneNumber(phone) == Success("+" + d))
      && (|d| < 10 ==> FormatPhoneNumber(phone) == Failure(INVALID_PHONE))
  {
  }

  /** Every accepted number is '+' followed by at least ten digits. */
  lemma FormatPhoneNumberShape(phone: string)
    ensures FormatPhoneNumber(phone).Success? ==>
      var v := FormatPhoneNumber(phone).value;
      |v| >= 11 && v[0] == '+' && AllDigits(v[1..])
  {
    DigitsMeaning(phone);
    var d := Digits(phone);
    if |d| == 10 {
      assert ("+1" + d)[1..] == "1" + d;
    } else if |d| >= 11 {
      assert ("+" + d)[1..] == d;
    }
  }

  /** Only the digits decide: every other character is ignored. */
  lemma FormatPhoneNumberOnlyDigits(phone: string)
    ensures FormatPhoneNumber(phone) == FormatPhoneNumber(Digits(phone))
  {
    DigitsMeaning(phone);
    DigitsMeaning(Digits(phone));
  }

  /** An accepted number is accepted again unchanged. */
  lemma FormatPhoneNumberIdempotent(phone: string)
    requires FormatPhoneNumber(phone).Success?
    ensures FormatPhoneNumber(FormatPhoneNumber(phone).value) == FormatPhoneNumber(phone)
  {
    var d := Digits(phone);
    DigitsMeaning(phone);
    FormatPhoneNumberCases(phone);
    FormatPhoneNumberShape(phone);
    var v := FormatPhoneNumber(phone).value;
    assert v == "+" + v[1..];
    DigitsDistributes("+", v[1..]);
    assert Digits("+") == "";
    DigitsMeaning(v[1..]);
    assert Digits(v) == v[1..];
  }

  /** The Twilio sender number, prefixed with '+' unless it has one. */
  function TwilioFromPhone(fromPhone: string): string {
    if StartsWith(fromPhone, "+") then fromPhone else "+" + fromPhone
  }

  /** The result always starts with '+', ends with the configured number, is
      unchanged exactly when it already started with '+', and prefixing twice
      is prefixing once. */
  lemma TwilioFromPhoneMeaning(fromPhone: string)
    ensures var r := TwilioFromPhone(fromPhone);
      && StartsWith(r, "+")
      && r[|r| - |fromPhone|..] == fromPhone
      && (r == fromPhone <==> StartsWith(fromPhone, "+"))
      && TwilioFromPhone(r) == r
  {
    var r := TwilioFromPhone(fromPhone);
    if !StartsWith(fromPhone, "+") {
      assert r[..1] == "+";
      assert r[1..] == fromPhone && |r| == |fromPhone| + 1;
    }
  }

  // ---------------------------------------------------------------------------
  // Sending

  /** How an HTTP exchange came back: no response, a reply that did not
      parse, or the parsed reply. */
  datatype Exchange<T> = SendFailed(reason: string) | ParseFailed(reason: string) | Parsed(reply: T)

  datatype TextbeltRequest = TextbeltRequest(url: string, phone: string, message: string, key: string)
  datatype TextbeltReply = TextbeltReply(success: bool, quotaRemaining: Option<int>, textId: Option<string>, error: Option<string>)

  function SendTextbelt(config: SmsConfig, phone: string, message: string,
                        post: TextbeltRequest -> Exchange<TextbeltReply>): Result<TextbeltReply, string>
  {
    match config.textbeltApiKey
    case None => Failure("TEXTBELT_API_KEY not configured")
    case Some(key) =>
      match post(TextbeltRequest(config.textbeltApiUrl, phone, message, key))
      case SendFailed(e) => Failure("Failed to send SMS: " + e)
      case ParseFailed(e) => Failure("Failed to parse Textbelt response: " + e)
      case Parsed(reply) =>
        if !reply.success then Failure(reply.error.GetOr("Unknown error")) else Success(reply)
  }

  /** No request is made without a key; a reply with `success = false` is an
      error carrying its own message or "Unknown error"; only a successful
      reply to the configured URL is returned. */
  lemma TextbeltOutcomes(config: SmsConfig, phone: string, message: string,
                         post: TextbeltRequest -> Exchange<TextbeltReply>)
    ensures config.textbeltApiKey.None? ==>
      SendTextbelt(config, phone, message, post) == Failure("TEXTBELT_API_KEY not configured")
    ensures config.textbeltApiKey.Some? ==>
      var req := TextbeltRequest(config.textbeltApiUrl, phone, message, config.textbeltApiKey.value);
      && (post(req).Parsed? && !post(req).reply.success ==>
            SendTextbelt(config, phone, message, post) == Failure(post(req).reply.error.GetOr("Unknown error")))
      && (SendTextbelt(config, phone, message, post).Success? <==> post(req).Parsed? && post(req).reply.success)
    ensures SendTextbelt(config, phone, message, post).Success? ==> SendTextbelt(config, phone, message, post).value.success
  {
  }

  datatype TwilioRequest = TwilioRequest(url: string, accountSid: string, authToken: string, to: string, from: string, body: string)
  datatype TwilioReply = TwilioReply(sid: Option<string>, status: Option<string>, errorCode: Option<int>, errorMessage: Option<string>)

  /** A Twilio answer: the exchange, or a non-success status (its display
      text, and the body text if it could be read). */
  datatype TwilioAnswer = Answered(exchange: Exchange<TwilioReply>) | HttpError(status: string, body: Option<string>)

  function TwilioUrl(accountSid: string): string {
    "https://api.twilio.com/2010-04-01/Accounts/" + accountSid + "/Messages.json"
  }

  function SendTwilio(config: SmsConfig, phone: string, message: string,
                      post: TwilioRequest -> TwilioAnswer): Result<TwilioReply, string>
  {
    if config.twilioAccountSid.None? then Failure("TWILIO_ACCOUNT_SID not configured")
    else if config.twilioAuthToken.None? then Failure("TWILIO_AUTH_TOKEN not configured")
    else if config.twilioFromPhone.None? then Failure("TWILIO_FROM_PHONE not configured")
    else
      var sid := config.twilioAccountSid.value;
      var req := TwilioRequest(TwilioUrl(sid), sid, config.twilioAuthToken.value, phone,
                               TwilioFromPhone(config.twilioFromPhone.value), message);
      match post(req)
      case HttpError(status, body) => Failure("Twilio API error (" + status + "): " + body.GetOr("HTTP " + status))
      case Answered(SendFailed(e)) => Failure("Failed to send SMS via Twilio: " + e)
      case Answered(ParseFailed(e)) => Failure("Failed to parse Twilio response: " + e)
      case Answered(Parsed(reply)) => Success(reply)
  }

  /** The three settings are demanded in that order, before anything is sent. */
  lemma TwilioMissingSettings(config: SmsConfig, phone: string, message: string, post: TwilioRequest -> TwilioAnswer)
    ensures config.twilioAccountSid.None? ==>
      SendTwilio(config, phone, message, post) == Failure("TWILIO_ACCOUNT_SID not configured")
    ensures config.twilioAccountSid.Some? && config.twilioAuthToken.None? ==>
      SendTwilio(config, phone, message, post) == Failure("TWILIO_AUTH_TOKEN not configured")
    ensures config.twilioAccountSid.Some? && config.twilioAuthToken.Some? && config.twilioFromPhone.None? ==>
      SendTwilio(config, phone, message, post) == Failure("TWILIO_FROM_PHONE not configured")
  {
  }

  /** With all three settings the message goes from a '+' number to the
      account's Messages URL; only a parsed reply to a success status is a
      success, and an unreadable error body is reported by its status. */
  lemma TwilioRequestOutcomes(config: SmsConfig, phone: string, message: string, post: TwilioRequest -> TwilioAnswer)
    requires config.twilioAccountSid.Some? && config.twilioAuthToken.Some? && config.twilioFromPhone.Some?
    ensures var req := TwilioRequest(TwilioUrl(config.twilioAccountSid.value), config.twilioAccountSid.value,
                                     config.twilioAuthToken.value, phone, TwilioFromPhone(config.twilioFromPhone.value), message);
      && StartsWith(req.from, "+") && req.to == phone && req.body == message
      && (SendTwilio(config, phone, message, post).Success? <==> post(req).Answered? && post(req).exchange.Parsed?)
      && (post(req).HttpError? && post(req).body.None? ==>
            SendTwilio(config, phone, message, post) ==
            Failure("Twilio API error (" + post(req).status + "): HTTP " + post(req).status))
  {
    TwilioFromPhoneMeaning(config.twilioFromPhone.value);
    var req := TwilioRequest(TwilioUrl(config.twilioAccountSid.value), config.twilioAccountSid.value,
                             config.twilioAuthToken.value, phone, TwilioFromPhone(config.twilioFromPhone.value), message);
    if post(req).HttpError? {
      var st := post(req).status;
      assert "Twilio API error (" + st + "): " + ("HTTP " + st) == "Twilio API error (" + st + "): HTTP " + st;
    }
  }

  /** `send_sms_via_provider`: Twilio reports `(true, None)`, Textbelt its
      own success flag and remaining quota. */
  function SendSmsViaProvider(config: SmsConfig, phone: string, message: string,
                              textbelt: TextbeltRequest -> Exchange<TextbeltReply>,
                              twilio: TwilioRequest -> TwilioAnswer): Result<(bool, Option<int>), string>
  {
    match config.provider
    case Twilio =>
      (match SendTwilio(config, phone, message, twilio)
       case Failure(e) => Failure(e)
       case Success(_) => Success((true, None)))
    case Textbelt =>
      (match SendTextbelt(config, phone, message, textbelt)
       case Failure(e) => Failure(e)
       case Success(reply) => Success((reply.success, reply.quotaRemaining)))
  }

  /** The provider chosen is the one called; its errors pass through
      unchanged, and every success reports `true`. */
  lemma SendSmsViaProviderMeaning(config: SmsConfig, phone: string, message: string,
                                  textbelt: TextbeltRequest -> Exchange<TextbeltReply>,
                                  twilio: TwilioRequest -> TwilioAnswer)
    ensures var r := SendSmsViaProvider(config, phone, message, textbelt, twilio);
      && (r.Success? ==> r.value.0)
      && (config.provider == Twilio ==>
            match SendTwilio(config, phone, message, twilio)
            case Failure(e) => r == Failure(e)
            case Success(_) => r == Success((true, None)))
      && (config.provider == Textbelt ==>
            match SendTextbelt(config, phone, message, textbelt)
            case Failure(e) => r == Failure(e)
            case Success(reply) => r == Success((true, reply.quotaRemaining)))
  {
    TextbeltOutcomes(config, phone, message, textbelt);
  }
}
