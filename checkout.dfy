/**
 * `POST /api/checkout/create`: request validation, then the refusals in
 * their fixed order (invalid request, duplicate, unknown lead, no consent),
 * then the payment provider's session. The idempotency key is marked only
 * once a session exists, so a failed attempt can be retried. The provider's
 * answer is an input.
 */
module Checkout {
  import opened JsText
  import opened JsValue
  import opened LeadStorage
  import LeadApi

  datatype CheckoutIssue = MissingSessionId | MissingVariant | MalformedSessionId {
    function Message(): string {
      match this
      case MissingSessionId => "sessionId is required"
      case MissingVariant => "variant is required"
      case MalformedSessionId => "sessionId must be valid UUID v4"
    }
  }

  /** Whether `body` breaks a rule; the UUID test reads the session id as text, whatever its type. */
  predicate Fails(body: Json, issue: CheckoutIssue)
    requires !Nullish(body)
  {
    var sid := Get(body, "sessionId");
    var variant := Get(body, "variant");
    match issue
    case MissingSessionId => !Truthy(sid) || !sid.JStr?
    case MissingVariant => !Truthy(variant) || !variant.JStr?
    case MalformedSessionId => Truthy(sid) && !LeadApi.IsUuidV4(ToText(sid))
  }

  /** The failed rules, in the order the validator checks them. */
  function Failures(body: Json): (r: seq<CheckoutIssue>)
    requires !Nullish(body)
    ensures forall issue :: issue in r <==> Fails(body, issue)
  {
    (if Fails(body, MissingSessionId) then [MissingSessionId] else []) +
    (if Fails(body, MissingVariant) then [MissingVariant] else []) +
    (if Fails(body, MalformedSessionId) then [MalformedSessionId] else [])
  }

  /** `validateRequest`: valid exactly when no message was pushed. */
  method ValidateRequest(body: Json) returns (valid: bool, errors: seq<CheckoutIssue>)
    requires !Nullish(body)
    ensures errors == Failures(body)
    ensures valid <==> errors == []
  {
    errors := [];
    var sid := Get(body, "sessionId");
    if !Truthy(sid) || !sid.JStr? {
      errors := errors + [MissingSessionId];
    }
    var variant := Get(body, "variant");
    if !Truthy(variant) || !variant.JStr? {
      errors := errors + [MissingVariant];
    }
    if Truthy(sid) && !LeadApi.IsUuidV4(ToText(sid)) {
      errors := errors + [MalformedSessionId];
    }
    valid := |errors| == 0;
  }

  /** A request is valid exactly when its session id is a version-4 UUID string and its variant a non-empty string. */
  lemma ValidRequestShape(body: Json)
    requires !Nullish(body)
    ensures Failures(body) == [] <==>
      Get(body, "sessionId").JStr? && LeadApi.IsUuidV4(Get(body, "sessionId").s) &&
      Get(body, "variant").JStr? && Get(body, "variant").s != []
  {
    var sid := Get(body, "sessionId");
    if sid.JStr? && LeadApi.IsUuidV4(sid.s) {
      assert Truthy(sid);
    }
    assert Failures(body) == [] <==>
      !Fails(body, MissingSessionId) && !Fails(body, MissingVariant) && !Fails(body, MalformedSessionId);
  }

  /** A non-zero number as session id is reported twice: as missing and as malformed. */
  lemma NumericSessionIdReportedTwice(body: Json, n: int)
    requires !Nullish(body) && Get(body, "sessionId") == JNum(n) && n != 0
    ensures MissingSessionId in Failures(body) && MalformedSessionId in Failures(body)
  {
    var text := ToText(JNum(n));
    var digits := NatToString(if n < 0 then -n else n);
    assert text == digits || text == "-" + digits;
    if |text| == 36 {
      assert IsDigit(text[8]) by {
        if text != digits {
          assert text[8] == digits[7];
        }
      }
      assert !LeadApi.UuidCharOk(8, text[8]);
    }
  }

  /** The payment provider's answer: a session with its URL, a provider error with its code, or any other failure. */
  datatype StripeOutcome = SessionCreated(url: string) | StripeFailed(code: Json) | OtherFailure

  datatype CheckoutResponse =
    | Redirect(url: string)
    | Refused(status: int, error: string, details: seq<string>)
    | ProviderError(code: Json)

  function Messages(issues: seq<CheckoutIssue>): (r: seq<string>)
    ensures |r| == |issues|
    ensures forall i :: 0 <= i < |issues| ==> r[i] == issues[i].Message()
  {
    if issues == [] then [] else [issues[0].Message()] + Messages(issues[1..])
  }

  /** The idempotency key of a session. */
  function CheckoutKey(sessionId: string): string {
    "checkout:" + sessionId
  }

  /**
   * The answer to a request, given the processed keys, the stored leads
   * (objects, as the store keeps them) and the provider's answer. A property
   * read on `null`, or a session id whose conversion to text for the UUID
   * test throws, is answered with a 500.
   */
  function Respond(body: Json, processed: set<string>, leads: seq<(string, Json)>, stripe: StripeOutcome): CheckoutResponse
    requires forall i :: 0 <= i < |leads| ==> leads[i].1.JObj?
  {
    if Nullish(body) || ToPrimitiveThrows(Get(body, "sessionId")) then Refused(500, "Internal server error", [])
    else if Failures(body) != [] then Refused(400, "Validation failed", Messages(Failures(body)))
    else
      var sid := ToText(Get(body, "sessionId"));
      if CheckoutKey(sid) in processed then Refused(409, "Duplicate request", [])
      else if Find(leads, sid).None? then Refused(404, "Session not found or invalid", [])
      else if !Truthy(Get(Find(leads, sid).value, "consent")) then Refused(400, "Consent required", [])
      else match stripe
        case SessionCreated(url) => Redirect(url)
        case StripeFailed(code) => ProviderError(code)
        case OtherFailure => Refused(500, "Internal server error", [])
  }

  /**
   * The refusals come in order: a session id without a conversion to text
   * is a 500, an invalid request a 400 whatever the store holds, a processed key a 409 whatever the lead, an unknown session
   * a 404, a lead without consent a 400; only past all four does the
   * provider's answer matter.
   */
  lemma RefusalOrder(body: Json, processed: set<string>, leads: seq<(string, Json)>, stripe: StripeOutcome)
    requires forall i :: 0 <= i < |leads| ==> leads[i].1.JObj?
    requires !Nullish(body)
    ensures ToPrimitiveThrows(Get(body, "sessionId")) ==>
      Respond(body, processed, leads, stripe) == Refused(500, "Internal server error", [])
    ensures !ToPrimitiveThrows(Get(body, "sessionId")) && Failures(body) != [] ==>
      Respond(body, processed, leads, stripe) == Refused(400, "Validation failed", Messages(Failures(body)))
    ensures Failures(body) == [] && CheckoutKey(Get(body, "sessionId").s) in processed ==>
      Respond(body, processed, leads, stripe) == Refused(409, "Duplicate request", [])
    ensures (Failures(body) == [] && CheckoutKey(Get(body, "sessionId").s) !in processed &&
             Find(leads, Get(body, "sessionId").s).None?) ==>
      Respond(body, processed, leads, stripe) == Refused(404, "Session not found or invalid", [])
    ensures Respond(body, processed, leads, stripe).Redirect? <==>
      Failures(body) == [] && CheckoutKey(Get(body, "sessionId").s) !in processed &&
      Find(leads, Get(body, "sessionId").s).Some? &&
      Truthy(Get(Find(leads, Get(body, "sessionId").s).value, "consent")) &&
      stripe.SessionCreated?
  {
    if Failures(body) == [] {
      ValidRequestShape(body);
    }
  }

  /** Once a session was created and its key marked, the same request is a duplicate. */
  lemma SecondCheckoutIsDuplicate(body: Json, processed: set<string>, leads: seq<(string, Json)>, stripe: StripeOutcome, again: StripeOutcome)
    requires forall i :: 0 <= i < |leads| ==> leads[i].1.JObj?
    requires !Nullish(body) && Respond(body, processed, leads, stripe).Redirect?
    ensures Get(body, "sessionId").JStr?
    ensures Respond(body, processed + {CheckoutKey(Get(body, "sessionId").s)}, leads, again) ==
      Refused(409, "Duplicate request", [])
  {
    ValidRequestShape(body);
  }

  /**
   * A 500 comes either from a session id without a conversion to text, which
   * every retry repeats, or from the provider; that failure leaves the key
   * unmarked, so the same request can still succeed.
   */
  lemma FailedCheckoutRetryable(body: Json, processed: set<string>, leads: seq<(string, Json)>, url: string)
    requires forall i :: 0 <= i < |leads| ==> leads[i].1.JObj?
    requires !Nullish(body) && Respond(body, processed, leads, OtherFailure) == Refused(500, "Internal server error", [])
    ensures !ToPrimitiveThrows(Get(body, "sessionId")) ==> Respond(body, processed, leads, SessionCreated(url)) == Redirect(url)
    ensures ToPrimitiveThrows(Get(body, "sessionId")) ==>
      Respond(body, processed, leads, SessionCreated(url)) == Refused(500, "Internal server error", [])
  {
  }

  /** The endpoint over the shared lead store. */
  class CheckoutEndpoint {
    const storage: Store

    constructor (storage: Store)
      ensures this.storage == storage
    {
      this.storage := storage;
    }

    /**
     * `POST /api/checkout/create`: the answer is `Respond` of the keys
     * processed before the call; the key is marked exactly when a session
     * was created, and no lead changes.
     */
    method Post(body: Json, now: int, stripe: StripeOutcome) returns (resp: CheckoutResponse)
      requires storage.Valid()
      modifies storage
      ensures storage.Valid() && storage.leads == old(storage.leads)
      ensures resp == Respond(body, old(storage.processed), storage.leads, stripe)
      ensures resp.Redirect? ==>
        Get(body, "sessionId").JStr? &&
        storage.processed == old(storage.processed) + {CheckoutKey(Get(body, "sessionId").s)}
      ensures !resp.Redirect? ==> storage.processed == old(storage.processed)
    {
      if Nullish(body) || ToPrimitiveThrows(Get(body, "sessionId")) {
        return Refused(500, "Internal server error", []);
      }
      var valid, errors := ValidateRequest(body);
      if !valid {
        return Refused(400, "Validation failed", Messages(errors));
      }
      ValidRequestShape(body);
      var sessionId := Get(body, "sessionId").s;
      var key := CheckoutKey(sessionId);
      var unseen := storage.CheckIdempotency(key);
      if !unseen {
        return Refused(409, "Duplicate request", []);
      }
      var lead := storage.GetLeadBySessionId(sessionId, now);
      if lead.None? {
        return Refused(404, "Session not found or invalid", []);
      }
      if !Truthy(lead.value.consent) {
        return Refused(400, "Consent required", []);
      }
      match stripe {
        case SessionCreated(url) =>
          storage.MarkProcessed(key);
          return Redirect(url);
        case StripeFailed(code) =>
          return ProviderError(code);
        case OtherFailure =>
          return Refused(500, "Internal server error", []);
      }
    }
  }
}
