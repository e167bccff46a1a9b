/**
 * The transactional e-mail sender: the choice of delivery provider from the
 * configured name, what each provider answers given the remote service's
 * reply, and the per-address anti-spam limiter (at most `maxEmails` sends
 * per address in a fixed window).
 */
module EmailSender {
  import opened Wrappers
  import opened JsText
  import opened RateWindow

  const DefaultMaxEmails := 3
  const DefaultWindowMs := 60 * 60 * 1000

  datatype Provider = Postmark | SendGrid | Ses | Mock

  /**
   * The provider picked by the configured name: lower-cased as `toLowerCase` does,
   * with an unset or empty setting meaning `mock` and an unknown name falling
   * through to the mock sender too.
   */
  function ProviderFor(setting: Option<string>): Provider {
    var name := if setting.Some? && setting.value != "" then LowerCase(setting.value) else "mock";
    if name == "postmark" then Postmark
    else if name == "sendgrid" then SendGrid
    else if name == "ses" then Ses
    else Mock
  }

  /** Only the three known names, in any letter case, leave the mock sender; the KELVIN SIGN counts as a 'k'. */
  lemma ProviderFallback(setting: Option<string>)
    ensures setting.None? || setting.value == "" ==> ProviderFor(setting) == Mock
    ensures ProviderFor(setting) != Mock ==>
      setting.Some? && LowerCase(setting.value) in {"postmark", "sendgrid", "ses"}
    ensures setting.Some? && LowerCase(setting.value) !in {"postmark", "sendgrid", "ses"} ==>
      ProviderFor(setting) == Mock
    ensures ProviderFor(Some("Postmark")) == Postmark && ProviderFor(Some("SES")) == Ses
    ensures ProviderFor(Some("POSTMAR" + [Kelvin])) == Postmark
  {
    LowerCaseAt("POSTMAR" + [Kelvin]);
    assert LowerCase("POSTMAR" + [Kelvin]) == "postmark";
    assert LowerCase("Postmark") == "postmark";
    assert LowerCase("SES") == "ses";
    if setting.Some? && setting.value == "" {
      assert LowerCase(setting.value) == "";
    }
  }

  /** The reply of a remote provider's HTTP API: accepted with a message id, or an error text. */
  datatype Remote = Accepted(messageId: string) | Rejected(detail: string)

  datatype EmailResult = EmailResult(success: bool, messageId: Option<string>, error: Option<string>)

  /**
   * What `sendEmail` answers: the remote providers report the remote reply
   * (SendGrid's missing message id reads "unknown"), SES always fails and the
   * mock sender always succeeds with its generated id.
   */
  function SendEmail(setting: Option<string>, remote: Remote, mockId: string): (r: EmailResult) {
    match ProviderFor(setting)
    case Postmark =>
      if remote.Accepted? then EmailResult(true, Some(remote.messageId), None)
      else EmailResult(false, None, Some("Postmark error: " + remote.detail))
    case SendGrid =>
      if remote.Accepted? then EmailResult(true, Some(if remote.messageId == "" then "unknown" else remote.messageId), None)
      else EmailResult(false, None, Some("SendGrid error: " + remote.detail))
    case Ses => EmailResult(false, None, Some("SES provider not implemented"))
    case Mock => EmailResult(true, Some(mockId), None)
  }

  /**
   * A send succeeds exactly when the mock sender is chosen or a real remote
   * provider accepted it; a success carries a message id and no error, a
   * failure an error and no id.
   */
  lemma SendEmailOutcome(setting: Option<string>, remote: Remote, mockId: string)
    ensures SendEmail(setting, remote, mockId).success <==>
      ProviderFor(setting) == Mock ||
      (ProviderFor(setting) in {Postmark, SendGrid} && remote.Accepted?)
    ensures SendEmail(setting, remote, mockId).success ==>
      SendEmail(setting, remote, mockId).messageId.Some? && SendEmail(setting, remote, mockId).error.None?
    ensures !SendEmail(setting, remote, mockId).success ==>
      SendEmail(setting, remote, mockId).messageId.None? && SendEmail(setting, remote, mockId).error.Some?
    ensures setting.None? ==> SendEmail(setting, remote, mockId) == EmailResult(true, Some(mockId), None)
  {
  }

  /** The limiter key of an address. */
  function EmailKey(email: string): (key: string)
    ensures StartsWith(key, "email:") && key[6..] == email
  {
    "email:" + email
  }

  /** Distinct addresses have distinct keys, so their windows never share a record. */
  lemma EmailKeyInjective(a: string, b: string)
    requires a != b
    ensures EmailKey(a) != EmailKey(b)
  {
    assert EmailKey(a)[6..] == a;
  }

  /** The limiter's store, keyed by `email:<address>`. */
  class EmailRateLimit {
    const limiter: Limiter

    constructor ()
      ensures fresh(limiter) && limiter.records == map[]
    {
      limiter := new Limiter();
    }

    /** The window record of an address. */
    function RecordOf(email: string): Option<RateRecord>
      reads this, limiter
    {
      limiter.Record(EmailKey(email))
    }

    /**
     * `checkEmailRateLimit`: whether one more e-mail to `email` may be sent
     * at `now`, counted in that address's window; every other address's
     * record is left as it was.
     */
    method CheckEmailRateLimit(email: string, now: int, maxEmails: int := DefaultMaxEmails, windowMs: int := DefaultWindowMs)
      returns (allowed: bool)
      modifies limiter
      ensures RecordOf(email).Some? &&
        (allowed, RecordOf(email).value) == Admit(old(RecordOf(email)), now, maxEmails, windowMs)
      ensures forall other :: other != email ==> RecordOf(other) == old(RecordOf(other))
    {
      allowed := limiter.Check(EmailKey(email), now, maxEmails, windowMs);
      forall other | other != email
        ensures RecordOf(other) == old(RecordOf(other))
      {
        EmailKeyInjective(other, email);
      }
    }
  }
}
