/**
 * The lead intake endpoint: the honeypot test, the per-session fixed-window
 * rate limit, the payload validator with its UUID version-4 check, and the
 * order in which the POST handler applies them before storing the lead.
 * The request body is the parsed JSON value; a body that is `null` makes the
 * first property read throw, which the handler answers with a 500.
 */
module LeadApi {
  import opened Wrappers
  import opened JsText
  import opened JsValue
  import opened QuizTypes
  import opened RateWindow
  import LeadStorage
  import QuizDriver

  /** `RATE_LIMIT`: five minutes, one request per session. */
  const WindowMs := 5 * 60 * 1000
  const MaxRequests := 1
  /** A body completed less than this many milliseconds ago is taken for a bot. */
  const MinFillMs := 30000

  /** `[0-9a-f]` under the case-insensitive flag. */
  predicate IsHexDigit(c: char) {
    ('0' <= c <= '9') || ('a' <= c <= 'f') || ('A' <= c <= 'F')
  }

  /** What the UUID pattern accepts at position `i` of a 36-character string. */
  predicate UuidCharOk(i: int, c: char) {
    if i == 8 || i == 13 || i == 18 || i == 23 then c == '-'
    else if i == 14 then c == '4'
    else if i == 19 then c in "89abAB"
    else IsHexDigit(c)
  }

  /** `/^[0-9a-f]{8}-[0-9a-f]{4}-4[0-9a-f]{3}-[89ab][0-9a-f]{3}-[0-9a-f]{12}$/i.test(s)`. */
  predicate IsUuidV4(s: string) {
    |s| == 36 && forall i :: 0 <= i < 36 ==> UuidCharOk(i, s[i])
  }

  function HexValue(c: char): nat
    requires IsHexDigit(c)
  {
    if '0' <= c <= '9' then c as nat - '0' as nat
    else if 'a' <= c <= 'f' then c as nat - 'a' as nat + 10
    else c as nat - 'A' as nat + 10
  }

  predicate IsHyphenPosition(i: int) {
    i == 8 || i == 13 || i == 18 || i == 23
  }

  /**
   * The pattern is the version-4 layout of section 4.4 of RFC 4122: five
   * groups of hex digits split by hyphens, the version nibble (the high
   * nibble of time_hi_and_version, character 14) equal to 4, and the top two
   * bits of clock_seq_hi_and_reserved (character 19) equal to binary 10.
   */
  lemma UuidV4Layout(s: string)
    ensures IsUuidV4(s) <==>
      |s| == 36 &&
      (forall i :: 0 <= i < 36 && IsHyphenPosition(i) ==> s[i] == '-') &&
      (forall i :: 0 <= i < 36 && !IsHyphenPosition(i) ==> IsHexDigit(s[i])) &&
      HexValue(s[14]) == 4 && HexValue(s[19]) / 4 == 2
  {
    if |s| == 36 &&
       (forall i :: 0 <= i < 36 && IsHyphenPosition(i) ==> s[i] == '-') &&
       (forall i :: 0 <= i < 36 && !IsHyphenPosition(i) ==> IsHexDigit(s[i])) &&
       HexValue(s[14]) == 4 && HexValue(s[19]) / 4 == 2
    {
      assert s[14] == '4';
      assert s[19] in "89abAB";
      forall i | 0 <= i < 36 ensures UuidCharOk(i, s[i]) {
        if IsHyphenPosition(i) {
        } else if i == 14 {
        } else if i == 19 {
        }
      }
    }
    if IsUuidV4(s) {
      assert UuidCharOk(14, s[14]) && UuidCharOk(19, s[19]);
      forall i | 0 <= i < 36 && !IsHyphenPosition(i) ensures IsHexDigit(s[i]) {
        assert UuidCharOk(i, s[i]);
      }
    }
  }

  /** `body.website || body.url || body.link`: a trap field is filled (a string body always has `link`). */
  predicate TrapFilled(body: Json)
    requires !Nullish(body)
  {
    TruthyProp(body, "website") || TruthyProp(body, "url") || TruthyProp(body, "link")
  }

  /**
   * `now - completedAt < 30000` once `completedAt` is a number: NaN compares
   * false, an infinite completion time makes the difference infinite.
   */
  predicate TooFast(completedAt: Number, now: int) {
    match completedAt
    case NaN => false
    case PosInfinity => true
    case NegInfinity => false
    case Finite(x) => (now as real) - x < MinFillMs as real
  }

  /**
   * `isHoneypot(body)` at time `now`: `Some` of its verdict, or `None` when
   * the subtraction throws because `completedAt` has no conversion to a
   * number.
   */
  function Honeypot(body: Json, now: int): Option<bool>
    requires !Nullish(body)
  {
    if TrapFilled(body) then Some(true)
    else if ToPrimitiveThrows(Get(body, "completedAt")) then None
    else Some(TooFast(ToNumber(Get(body, "completedAt")), now))
  }

  predicate IsHoneypot(body: Json, now: int)
    requires !Nullish(body)
  {
    Honeypot(body, now) == Some(true)
  }

  predicate PassesHoneypot(body: Json, now: int)
    requires !Nullish(body)
  {
    Honeypot(body, now) == Some(false)
  }

  /**
   * An object body with a numeric completion time is a honeypot exactly when
   * a trap field is filled or it was completed less than 30 seconds before
   * `now`; otherwise it passes.
   */
  lemma NumericTimeVerdict(body: Json, now: int)
    requires body.JObj? && Get(body, "completedAt").JNum?
    ensures IsHoneypot(body, now) <==>
      Truthy(Get(body, "website")) || Truthy(Get(body, "url")) || Truthy(Get(body, "link")) ||
      now - Get(body, "completedAt").n < MinFillMs
    ensures PassesHoneypot(body, now) <==> !IsHoneypot(body, now)
  {
    var t := Get(body, "completedAt").n;
    assert (now as real) - (t as real) < MinFillMs as real <==> now - t < MinFillMs;
  }

  /** Any string body reads a truthy `link`, so it is refused as a bot, whatever its text. */
  lemma StringBodyIsHoneypot(s: string, now: int, rec: Option<RateRecord>)
    ensures IsHoneypot(JStr(s), now)
    ensures Outcome(JStr(s), now, rec) == Refused(400, "Invalid request", [])
  {
  }

  /**
   * A completion time written as text in exponent form counts by its value:
   * "1e13" is ten trillion milliseconds, so a body carrying it is a bot until
   * 30 seconds after that instant.
   */
  lemma ExponentTimeIsHoneypot(m: nat, k: nat, now: int)
    requires (now as real) - Scale(m as real, k) < MinFillMs as real
    ensures IsHoneypot(JObj([("completedAt", JStr(NatToString(m) + "e" + NatToString(k)))]), now)
  {
    ExponentNotation(m, k);
    TextTimeVerdict(NatToString(m) + "e" + NatToString(k), Finite(Scale(m as real, k)), now);
  }

  /** A body holding only a completion time written as text is judged by that text's value as a number. */
  lemma TextTimeVerdict(text: string, completedAt: Number, now: int)
    requires TextToNumber(text) == completedAt
    ensures IsHoneypot(JObj([("completedAt", JStr(text))]), now) <==> TooFast(completedAt, now)
  {
    var body := JObj([("completedAt", JStr(text))]);
    OnlyCompletedAt(JStr(text));
    TimeDecides(body, now);
    assert ToNumber(JStr(text)) == completedAt;
  }

  /** A body holding only a completion time fills no trap field and reads that time back. */
  lemma OnlyCompletedAt(completedAt: Json)
    ensures !TrapFilled(JObj([("completedAt", completedAt)]))
    ensures Get(JObj([("completedAt", completedAt)]), "completedAt") == completedAt
  {
    var props := [("completedAt", completedAt)];
    LookupAbsent(props, "website");
    LookupAbsent(props, "url");
    LookupAbsent(props, "link");
  }

  /** With no trap field filled and a completion time that converts, the time alone decides. */
  lemma TimeDecides(body: Json, now: int)
    requires !Nullish(body) && !TrapFilled(body) && !ToPrimitiveThrows(Get(body, "completedAt"))
    ensures IsHoneypot(body, now) <==> TooFast(ToNumber(Get(body, "completedAt")), now)
    ensures PassesHoneypot(body, now) <==> !IsHoneypot(body, now)
  {
  }

  /** A completion time that is an object with its own `toString` key makes the honeypot test throw, so the handler answers 500. */
  lemma UnconvertibleTimeFails(now: int, rec: Option<RateRecord>)
    ensures Honeypot(JObj([("completedAt", JObj([("toString", JNum(1))]))]), now) == None
    ensures Outcome(JObj([("completedAt", JObj([("toString", JNum(1))]))]), now, rec) == Refused(500, "Internal server error", [])
  {
    var inner := [("toString", JNum(1))];
    assert HasKey(inner, "toString") by {
      assert inner[0].0 == "toString";
    }
  }

  /** The failures `validatePayload` reports, in the order it checks them. */
  datatype PayloadIssue = SessionIdRequired | NomeTooShort | EmailInvalid | ConsentNotTrue | CompletedAtRequired | SessionIdNotUuid {
    function Message(): string {
      match this
      case SessionIdRequired => "sessionId is required"
      case NomeTooShort => "nome must be at least 2 characters"
      case EmailInvalid => "valid email is required"
      case ConsentNotTrue => "consent must be true"
      case CompletedAtRequired => "completedAt is required"
      case SessionIdNotUuid => "sessionId must be valid UUID v4"
    }
  }

  /** Whether rule `issue` fails for `body`. */
  predicate Fails(body: Json, issue: PayloadIssue)
    requires !Nullish(body)
  {
    var sid := Get(body, "sessionId");
    var nome := Get(body, "nome");
    var email := Get(body, "email");
    var completedAt := Get(body, "completedAt");
    match issue
    case SessionIdRequired => !Truthy(sid) || !sid.JStr?
    case NomeTooShort => !Truthy(nome) || !nome.JStr? || JsLength(Trim(nome.s)) < 2
    case EmailInvalid => !Truthy(email) || !email.JStr? || !IsValidEmail(email.s)
    case ConsentNotTrue => Get(body, "consent") != JBool(true)
    case CompletedAtRequired => !Truthy(completedAt) || !completedAt.JNum?
    case SessionIdNotUuid => Truthy(sid) && !IsUuidV4(ToText(sid))
  }

  /** The rules in the order the validator checks them. */
  const RuleOrder: seq<PayloadIssue> :=
    [SessionIdRequired, NomeTooShort, EmailInvalid, ConsentNotTrue, CompletedAtRequired, SessionIdNotUuid]

  /** The failed rules among the first `n`, in order. */
  function FailedAmong(body: Json, n: nat): (r: seq<PayloadIssue>)
    requires !Nullish(body) && n <= |RuleOrder|
    ensures forall issue :: issue in r <==> exists i :: 0 <= i < n && RuleOrder[i] == issue && Fails(body, issue)
  {
    if n == 0 then []
    else FailedAmong(body, n - 1) + (if Fails(body, RuleOrder[n - 1]) then [RuleOrder[n - 1]] else [])
  }

  /** `validatePayload`: push each failed rule's issue in order; valid when none failed. */
  method ValidatePayload(body: Json) returns (valid: bool, errors: seq<PayloadIssue>)
    requires !Nullish(body)
    ensures errors == FailedAmong(body, |RuleOrder|)
    ensures valid <==> errors == []
  {
    errors := [];
    var k := 0;
    while k < |RuleOrder|
      invariant 0 <= k <= |RuleOrder|
      invariant errors == FailedAmong(body, k)
    {
      if Fails(body, RuleOrder[k]) {
        errors := errors + [RuleOrder[k]];
      }
      k := k + 1;
    }
    valid := |errors| == 0;
  }

  /** Every issue is reported exactly when its rule fails. */
  lemma ErrorsAreFailedRules(body: Json, issue: PayloadIssue)
    requires !Nullish(body)
    ensures issue in FailedAmong(body, |RuleOrder|) <==> Fails(body, issue)
  {
    assert RuleOrder[RuleIndex(issue)] == issue;
  }

  /** Where a rule sits in the checking order. */
  function RuleIndex(issue: PayloadIssue): (i: nat)
    ensures i < |RuleOrder|
  {
    match issue
    case SessionIdRequired => 0
    case NomeTooShort => 1
    case EmailInvalid => 2
    case ConsentNotTrue => 3
    case CompletedAtRequired => 4
    case SessionIdNotUuid => 5
  }

  /** A payload passes exactly when no rule fails. */
  lemma ValidIffNoRuleFails(body: Json)
    requires !Nullish(body)
    ensures FailedAmong(body, |RuleOrder|) == [] <==> forall issue: PayloadIssue :: !Fails(body, issue)
  {
    forall issue: PayloadIssue ensures issue in FailedAmong(body, |RuleOrder|) <==> Fails(body, issue) {
      ErrorsAreFailedRules(body, issue);
    }
    if FailedAmong(body, |RuleOrder|) != [] {
      assert FailedAmong(body, |RuleOrder|)[0] in FailedAmong(body, |RuleOrder|);
    }
  }

  /** The two session-id rules pass exactly when the session id is a version-4 UUID string. */
  lemma SessionIdRulesPass(body: Json)
    requires !Nullish(body)
    ensures !Fails(body, SessionIdRequired) && !Fails(body, SessionIdNotUuid) <==>
      Get(body, "sessionId").JStr? && IsUuidV4(Get(body, "sessionId").s)
  {
    var sid := Get(body, "sessionId");
    if sid.JStr? && IsUuidV4(sid.s) {
      assert Truthy(sid);
    }
  }

  /** The name and e-mail rules pass exactly when both are strings, the trimmed name has two code units and the e-mail matches. */
  lemma ContactRulesPass(body: Json)
    requires !Nullish(body)
    ensures !Fails(body, NomeTooShort) && !Fails(body, EmailInvalid) <==>
      Get(body, "nome").JStr? && JsLength(Trim(Get(body, "nome").s)) >= 2 &&
      Get(body, "email").JStr? && IsValidEmail(Get(body, "email").s)
  {
    var nome := Get(body, "nome");
    var email := Get(body, "email");
    if nome.JStr? && JsLength(Trim(nome.s)) >= 2 {
      assert nome.s != [];
    }
    if email.JStr? && IsValidEmail(email.s) {
      assert IndexOf(email.s, '@') > 0;
    }
  }

  /**
   * A payload passes exactly when its session id is a version-4 UUID string,
   * its trimmed name has two code units, its e-mail matches, its consent is
   * `true` and its completion time is a non-zero number.
   */
  lemma ValidPayloadShape(body: Json)
    requires !Nullish(body)
    ensures FailedAmong(body, |RuleOrder|) == [] <==>
      Get(body, "sessionId").JStr? && IsUuidV4(Get(body, "sessionId").s) &&
      Get(body, "nome").JStr? && JsLength(Trim(Get(body, "nome").s)) >= 2 &&
      Get(body, "email").JStr? && IsValidEmail(Get(body, "email").s) &&
      Get(body, "consent") == JBool(true) &&
      Get(body, "completedAt").JNum? && Get(body, "completedAt").n != 0
  {
    ValidIffNoRuleFails(body);
    SessionIdRulesPass(body);
    ContactRulesPass(body);
    if forall issue: PayloadIssue :: !Fails(body, issue) {
      assert !Fails(body, SessionIdRequired) && !Fails(body, SessionIdNotUuid);
      assert !Fails(body, NomeTooShort) && !Fails(body, EmailInvalid);
      assert !Fails(body, ConsentNotTrue) && !Fails(body, CompletedAtRequired);
    } else {
      var issue :| Fails(body, issue);
      assert issue.SessionIdRequired? || issue.SessionIdNotUuid? || issue.NomeTooShort? ||
             issue.EmailInvalid? || issue.ConsentNotTrue? || issue.CompletedAtRequired?;
    }
  }

  /** What the handler answers. */
  datatype ApiResponse = Stored | Refused(status: int, error: string, details: seq<string>)

  function Messages(issues: seq<PayloadIssue>): (r: seq<string>)
    ensures |r| == |issues| && forall i :: 0 <= i < |issues| ==> r[i] == issues[i].Message()
  {
    if issues == [] then [] else [issues[0].Message()] + Messages(issues[1..])
  }

  /** The rate-limit key of a body: the session id as template-literal text. */
  function RateKey(body: Json): string
    requires !Nullish(body)
  {
    "lead:" + ToText(Get(body, "sessionId"))
  }

  /**
   * Whether the handler gets as far as the rate limit: the body is an object
   * or other non-null value, passes the honeypot, and its session id
   * converts to text for the rate key.
   */
  predicate ReachesRateLimit(body: Json, now: int) {
    !Nullish(body) && PassesHoneypot(body, now) && !ToPrimitiveThrows(Get(body, "sessionId"))
  }

  /**
   * The answer of the POST handler given the session's rate record: honeypot
   * first, then the rate limit, then validation, then storage, whose failure
   * is a missing `meta`. A property read on `null`, a `completedAt` or a
   * session id without a conversion throws, which the handler answers with
   * a 500.
   */
  function Outcome(body: Json, now: int, rec: Option<RateRecord>): ApiResponse {
    if Nullish(body) || Honeypot(body, now).None? then Refused(500, "Internal server error", [])
    else if Honeypot(body, now).value then Refused(400, "Invalid request", [])
    else if ToPrimitiveThrows(Get(body, "sessionId")) then Refused(500, "Internal server error", [])
    else if !Admit(rec, now, MaxRequests, WindowMs).0 then Refused(429, "Too many requests", [])
    else
      var issues := FailedAmong(body, |RuleOrder|);
      if issues != [] then Refused(400, "Validation failed", Messages(issues))
      else if Nullish(Get(body, "meta")) then Refused(500, "Storage failed", [])
      else Stored
  }

  /**
   * The handler's order: a honeypot body is refused whatever its quota and
   * content; a honeypot test or rate key that throws is a 500; a body over
   * its quota is refused before validation; a lead is answered as stored
   * only when it is valid, admitted, and has `meta`.
   */
  lemma OutcomeOrder(body: Json, now: int, rec: Option<RateRecord>)
    ensures !Nullish(body) && IsHoneypot(body, now) ==> Outcome(body, now, rec) == Refused(400, "Invalid request", [])
    ensures !Nullish(body) && Honeypot(body, now).None? ==> Outcome(body, now, rec) == Refused(500, "Internal server error", [])
    ensures !Nullish(body) && PassesHoneypot(body, now) && ToPrimitiveThrows(Get(body, "sessionId")) ==>
      Outcome(body, now, rec) == Refused(500, "Internal server error", [])
    ensures ReachesRateLimit(body, now) && !Admit(rec, now, MaxRequests, WindowMs).0 ==>
      Outcome(body, now, rec).Refused? && Outcome(body, now, rec).status == 429
    ensures Outcome(body, now, rec) == Stored <==>
      ReachesRateLimit(body, now) && Admit(rec, now, MaxRequests, WindowMs).0 &&
      FailedAmong(body, |RuleOrder|) == [] && !Nullish(Get(body, "meta"))
  {
  }

  /** A second lead for the same session inside the five-minute window is refused, valid or not. */
  lemma SecondLeadRefused(body: Json, first: int, now: int)
    requires ReachesRateLimit(body, now)
    requires first <= now <= first + WindowMs
    ensures Outcome(body, now, Some(Admit(None, first, MaxRequests, WindowMs).1)) == Refused(429, "Too many requests", [])
  {
  }

  /** The request body the quiz driver posts, with the scalar fields the endpoint reads. */
  function LeadBody(lead: QuizDriver.LeadData): Json {
    JObj([("sessionId", JStr(lead.sessionId)), ("nome", JStr(lead.nome)), ("email", JStr(lead.email)),
          ("consent", JBool(lead.consent)), ("startedAt", JNum(lead.startedAt)),
          ("completedAt", JNum(lead.completedAt)), ("source", JStr(lead.source))])
  }

  /**
   * The driver stamps `completedAt` with the submission time, so a lead that
   * reaches the endpoint within 30 seconds of being built is taken for a bot
   * and refused with a 400.
   */
  lemma DriverLeadLooksLikeBot(s: QuizState, sent: int, utm: map<string, string>, now: int)
    requires now < sent + MinFillMs
    ensures IsHoneypot(LeadBody(QuizDriver.LeadFor(s, sent, utm)), now)
    ensures Outcome(LeadBody(QuizDriver.LeadFor(s, sent, utm)), now, None) == Refused(400, "Invalid request", [])
  {
    var lead := QuizDriver.LeadFor(s, sent, utm);
    var body := LeadBody(lead);
    var front := body.props[..6];
    assert body.props == front + [("source", JStr(lead.source))];
    assert Lookup(body.props, "completedAt") == Lookup(front, "completedAt");
    assert front == front[..5] + [("completedAt", JNum(sent))];
    LookupLast(front[..5], "completedAt", JNum(sent));
    assert Get(body, "completedAt") == JNum(sent);
    NumericTimeVerdict(body, now);
  }

  /** The endpoint's rate records and the lead store it writes to. */
  class Endpoint {
    const limiter: Limiter
    const storage: LeadStorage.Store

    ghost predicate Valid()
      reads this, storage
    {
      storage.Valid()
    }

    constructor (storage: LeadStorage.Store)
      requires storage.Valid()
      ensures Valid() && this.storage == storage && fresh(limiter) && limiter.records == map[]
    {
      this.storage := storage;
      limiter := new Limiter();
    }

    /**
     * `POST /api/lead`: the answer is `Outcome` of the session's old rate
     * record. Any body that reaches the rate limit spends quota, valid or not; only a
     * valid, admitted body is written, and it is written even when the
     * missing `meta` then makes the answer a 500.
     */
    method Post(body: Json, now: int) returns (resp: ApiResponse)
      requires Valid()
      modifies limiter, storage
      ensures Valid()
      ensures !Nullish(body) ==> resp == Outcome(body, now, old(limiter.Record(RateKey(body))))
      ensures Nullish(body) ==> resp == Outcome(body, now, None)
      ensures !ReachesRateLimit(body, now) ==> limiter.records == old(limiter.records)
      ensures ReachesRateLimit(body, now) ==>
        limiter.Record(RateKey(body)) == Some(Admit(old(limiter.Record(RateKey(body))), now, MaxRequests, WindowMs).1)
      ensures !Nullish(body) && (resp == Stored || resp == Refused(500, "Storage failed", [])) ==>
        Get(body, "sessionId").JStr? && storage.leads == LeadStorage.Put(old(storage.leads), Get(body, "sessionId").s, body)
      ensures resp != Stored && resp != Refused(500, "Storage failed", []) ==> storage.leads == old(storage.leads)
      ensures storage.processed == old(storage.processed)
    {
      if Nullish(body) {
        return Refused(500, "Internal server error", []);
      }
      var verdict := Honeypot(body, now);
      if verdict.None? {
        return Refused(500, "Internal server error", []);
      }
      if verdict.value {
        return Refused(400, "Invalid request", []);
      }
      if ToPrimitiveThrows(Get(body, "sessionId")) {
        return Refused(500, "Internal server error", []);
      }
      var key := RateKey(body);
      var allowed := limiter.Check(key, now, MaxRequests, WindowMs);
      if !allowed {
        return Refused(429, "Too many requests", []);
      }
      var valid, errors := ValidatePayload(body);
      if !valid {
        return Refused(400, "Validation failed", Messages(errors));
      }
      assert !Fails(body, SessionIdRequired) by {
        ErrorsAreFailedRules(body, SessionIdRequired);
      }
      var stored := storage.StoreLead(body);
      if !stored {
        return Refused(500, "Storage failed", []);
      }
      return Stored;
    }
  }
}
