/**
 * The quiz page component: the Next and Back handlers that call the
 * engine and then the store in sequence, the lead submission made when
 * leaving the form step, the step-to-field map used by the answer
 * handlers, the UTM filter over the query string, and the enabled state
 * of the two navigation buttons.
 *
 * The component's `state` is the store's state (it is refreshed by the
 * store subscription before each render). The POST of the lead is an
 * input: `accepted` says whether the intake endpoint answered 2xx. The
 * query string is given as its decoded key/value pairs, or None when
 * there is no `window`.
 */
module QuizDriver {
  import opened Wrappers
  import opened JsText
  import opened QuizTypes
  import opened QuizEngine
  import opened QuizStore
  import opened QueryParams

  /** The message shown when the lead submission throws. */
  const GenericError := "Ocorreu um erro. Tente novamente."

  /** The body `handleLeadSubmission` posts to the lead endpoint. */
  datatype LeadData = LeadData(
    sessionId: string,
    nome: string,
    email: string,
    consent: bool,
    answers: QuizState,
    startedAt: int,
    completedAt: int,
    source: string,
    utmParams: map<string, string>)

  /** `getFieldName`: the state field a question step writes, or "" for a step without one. */
  function FieldName(step: int): string {
    if step == 2 then "idade"
    else if step == 4 then "diagnostico"
    else if step == 5 then "horas"
    else if step == 7 then "remedios"
    else if step == 8 then "ansiedade"
    else if step == 9 then "impactos"
    else if step == 10 then "consequencias"
    else if step == 11 then "desejos"
    else if step == 13 then "conhecimento"
    else if step == 14 then "direcionamento"
    else if step == 16 then "micro"
    else ""
  }

  /** The state field an answer's setter writes. */
  function AnswerField(a: Answer): string {
    match a
    case SetIdade(_) => "idade"
    case SetDiagnostico(_) => "diagnostico"
    case SetHoras(_) => "horas"
    case SetRemedios(_) => "remedios"
    case SetAnsiedade(_) => "ansiedade"
    case SetImpactos(_) => "impactos"
    case SetConsequencias(_) => "consequencias"
    case SetDesejos(_) => "desejos"
    case SetConhecimento(_) => "conhecimento"
    case SetDirecionamento(_) => "direcionamento"
    case SetMicro(_) => "micro"
    case SetNome(_) => "nome"
    case SetEmail(_) => "email"
    case SetConsent(_) => "consent"
  }

  /** Exactly the steps 1..18 that show choices have a field; every other step maps to "". */
  lemma FieldNameMatchesStepType(step: int)
    ensures FieldName(step) != [] <==> FirstStep <= step <= FinalStep && GetStepType(step) in {SingleChoice, MultipleChoice}
  {
  }

  /** No two steps share a field. */
  lemma FieldNameInjective(a: int, b: int)
    requires FieldName(a) != [] && FieldName(a) == FieldName(b)
    ensures a == b
  {
  }

  /** An answer for the step's own field (a non-empty list for the list steps) makes the engine accept that step. */
  lemma StepChangeSatisfiesStep(s: QuizState, step: int, a: Answer)
    requires FieldName(step) != [] && AnswerField(a) == FieldName(step)
    requires a.SetImpactos? ==> a.impactos != []
    requires a.SetConsequencias? ==> a.consequencias != []
    requires a.SetDesejos? ==> a.desejos != []
    ensures ValidateStep(ApplyAnswer(s, a), step).Valid?
  {
    match a
    case SetIdade(_) => assert step == 2;
    case SetDiagnostico(_) => assert step == 4;
    case SetHoras(_) => assert step == 5;
    case SetRemedios(_) => assert step == 7;
    case SetAnsiedade(_) => assert step == 8;
    case SetImpactos(_) => assert step == 9;
    case SetConsequencias(_) => assert step == 10;
    case SetDesejos(_) => assert step == 11;
    case SetConhecimento(_) => assert step == 13;
    case SetDirecionamento(_) => assert step == 14;
    case SetMicro(_) => assert step == 16;
    case SetNome(_) => assert false;
    case SetEmail(_) => assert false;
    case SetConsent(_) => assert false;
  }

  /** `getUtmParams`: no window gives {}; otherwise the query's `utm_` entries. */
  method GetUtmParams(query: Option<seq<(string, string)>>) returns (utm: map<string, string>)
    ensures utm == if query.None? then map[] else KeptParams(query.value, false)
  {
    if query.None? {
      return map[];
    }
    utm := FilterQuery(query.value, false);
  }

  /** The guard at the top of `handleLeadSubmission`: name, e-mail and consent all truthy. */
  predicate LeadComplete(s: QuizState) {
    s.nome != [] && s.email != [] && s.consent
  }

  /** The lead built from the state, stamped with the current time as its completion time. */
  function LeadFor(s: QuizState, now: int, utm: map<string, string>): (lead: LeadData)
    ensures lead.completedAt == now && lead.startedAt == s.startedAt && lead.answers == s
  {
    LeadData(s.sessionId, s.nome, s.email, s.consent, s, s.startedAt, now, "quiz", utm)
  }

  /** Whether `handleNext` calls `handleLeadSubmission`: it proceeds from step 6 to another step. */
  predicate SubmitsLead(s: QuizState) {
    NextStep(s).canProceed && s.step == 6 && NextStep(s).targetStep != 6
  }

  /** Whether `handleNext` reaches `setStep`: the engine proceeds and any lead submission succeeded. */
  predicate Advances(s: QuizState, accepted: bool) {
    NextStep(s).canProceed && (SubmitsLead(s) ==> LeadComplete(s) && accepted)
  }

  /** The store's state after `handleNext`: moved to the target and, at step 18, completed now. */
  function NextState(s: QuizState, now: int, accepted: bool): QuizState {
    if Advances(s, accepted) then
      var target := NextStep(s).targetStep;
      var moved := StepSet(s, target, now);
      if target == FinalStep then moved.(completedAt := Some(now)) else moved
    else s
  }

  /** The error shown after `handleNext`. */
  function NextError(s: QuizState, accepted: bool): Option<string> {
    if !NextStep(s).canProceed then NextStep(s).validationError
    else if Advances(s, accepted) then None
    else Some(GenericError)
  }

  /** The `canGoNext` flag given to the shell: the store's validity table. */
  predicate NextEnabled(s: QuizState) {
    IsStepValid(s, s.step)
  }

  /** The `canGoBack` flag given to the shell. */
  predicate BackEnabled(s: QuizState) {
    CanGoBack(s.step)
  }

  /** A state that passed step 6's validation always holds a complete lead, so the incomplete-lead throw never fires from Next. */
  lemma ValidatedLeadIsComplete(s: QuizState)
    requires s.step == 6 && NextStep(s).canProceed
    ensures SubmitsLead(s) && LeadComplete(s)
  {
  }

  /** A refused Next leaves the store alone and shows the step's own validation message. */
  lemma RefusedNextShowsMessage(s: QuizState, now: int, accepted: bool)
    requires ValidateStep(s, s.step).Invalid?
    ensures NextState(s, now, accepted) == s
    ensures NextError(s, accepted) == Some(ValidateStep(s, s.step).message)
  {
  }

  /** A failed lead POST leaves the quiz on step 6 and shows the generic error. */
  lemma FailedLeadKeepsStep(s: QuizState, now: int)
    requires s.step == 6 && ValidateStep(s, 6).Valid?
    ensures SubmitsLead(s)
    ensures NextState(s, now, false) == s
    ensures NextError(s, false) == Some(GenericError)
  {
    ValidatedLeadIsComplete(s);
  }

  /** Next moves strictly forward, never past step 18, and clears the error; a state that does not advance stays. */
  lemma NextMovesForward(s: QuizState, now: int, accepted: bool)
    ensures Advances(s, accepted) && s.step < FinalStep ==>
      s.step < NextState(s, now, accepted).step <= FinalStep && NextError(s, accepted).None?
    ensures !Advances(s, accepted) ==> NextState(s, now, accepted) == s && NextError(s, accepted).Some?
    ensures NextState(s, now, accepted).flags == s.flags
  {
  }

  /** Next from the loading step always reaches the offer and stamps the completion time. */
  lemma LoadingReachesOffer(s: QuizState, now: int, accepted: bool)
    requires s.step == 17
    ensures NextState(s, now, accepted).step == FinalStep
    ensures NextState(s, now, accepted).completedAt == Some(now)
  {
  }

  /** On the branch-consistent path, Back right after Next returns to the step that was left. */
  lemma BackAfterNext(s: QuizState, now: int, accepted: bool)
    requires OnPath(s) && FirstStep <= s.step < FinalStep
    requires Advances(s, accepted)
    ensures PrevStep(NextState(s, now, accepted)).targetStep == s.step
  {
    BackUndoesForward(s);
    var t := NextState(s, now, accepted);
    assert PrevStep(t) == PrevStep(s.(step := NextStep(s).targetStep));
  }

  /** Whenever Next would proceed the Next button is enabled; the reverse fails only on step 6. */
  lemma NextEnabledWhenEngineProceeds(s: QuizState)
    ensures NextStep(s).canProceed ==> NextEnabled(s)
    ensures s.step != 6 ==> (NextEnabled(s) <==> NextStep(s).canProceed)
  {
    if NextStep(s).canProceed {
      EngineValidImpliesStoreValid(s, s.step);
    }
    if s.step != 6 {
      StoreValidMatchesEngineOffSix(s, s.step);
    }
  }

  /** The Back button is enabled exactly when Back moves. */
  lemma BackEnabledIffBackMoves(s: QuizState)
    ensures BackEnabled(s) <==> PrevStep(s).canProceed
  {
  }

  class Driver {
    const store: Store
    /** The message under the step, if any. */
    var validationError: Option<string>
    var isLoading: bool
    /** Every lead body posted to the intake endpoint. */
    var submitted: seq<LeadData>
    /** Every lead handed to `onLeadCapture`. */
    var captured: seq<LeadData>
    /** Every state handed to `onComplete`. */
    var completions: seq<QuizState>

    ghost predicate Valid()
      reads this, store
    {
      store.Valid()
    }

    constructor (store: Store)
      requires store.Valid()
      ensures Valid() && this.store == store
      ensures validationError.None? && !isLoading
      ensures submitted == [] && captured == [] && completions == []
    {
      this.store := store;
      validationError := None;
      isLoading := false;
      submitted := [];
      captured := [];
      completions := [];
    }

    /**
     * `handleLeadSubmission`: false stands for the thrown error. An
     * incomplete lead throws before anything is posted; a non-2xx answer
     * throws after the post.
     */
    method HandleLeadSubmission(now: int, query: Option<seq<(string, string)>>, accepted: bool) returns (ok: bool)
      requires Valid()
      modifies this
      ensures Valid()
      ensures ok <==> LeadComplete(store.state) && accepted
      ensures var lead := LeadFor(store.state, now, if query.None? then map[] else KeptParams(query.value, false));
        submitted == old(submitted) + (if LeadComplete(store.state) then [lead] else []) &&
        captured == old(captured) + (if ok then [lead] else [])
      ensures validationError == old(validationError) && isLoading == old(isLoading)
      ensures completions == old(completions)
    {
      var s := store.state;
      if !(s.nome != [] && s.email != [] && s.consent) {
        return false;
      }
      var utm := GetUtmParams(query);
      var lead := LeadFor(s, now, utm);
      submitted := submitted + [lead];
      if !accepted {
        return false;
      }
      captured := captured + [lead];
      return true;
    }

    /**
     * `handleNext`: a refusal shows the engine's message; leaving step 6
     * submits the lead first, and a failed submission shows the generic
     * error; otherwise the store moves to the target, and reaching step 18
     * completes the quiz and calls `onComplete` with the state before the move.
     */
    method HandleNext(now: int, query: Option<seq<(string, string)>>, accepted: bool)
      requires Valid()
      modifies this, store
      ensures Valid()
      ensures store.state == NextState(old(store.state), now, accepted)
      ensures store.listeners == old(store.listeners)
      ensures validationError == NextError(old(store.state), accepted)
      ensures !isLoading
      ensures var s := old(store.state);
        var lead := LeadFor(s, now, if query.None? then map[] else KeptParams(query.value, false));
        submitted == old(submitted) + (if SubmitsLead(s) && LeadComplete(s) then [lead] else []) &&
        captured == old(captured) + (if SubmitsLead(s) && LeadComplete(s) && accepted then [lead] else []) &&
        completions == old(completions) + (if Advances(s, accepted) && NextStep(s).targetStep == FinalStep then [s] else [])
    {
      isLoading := true;
      validationError := None;
      var s := store.state;
      var nav := NextStep(s);
      if !nav.canProceed {
        validationError := nav.validationError;
        isLoading := false;
        return;
      }
      if s.step == 6 && nav.targetStep != 6 {
        var ok := HandleLeadSubmission(now, query, accepted);
        if !ok {
          validationError := Some(GenericError);
          isLoading := false;
          return;
        }
      }
      store.SetStep(nav.targetStep, now);
      if nav.targetStep == 18 {
        store.Complete(now);
        completions := completions + [s];
      }
      isLoading := false;
    }

    /** `handleBack`: moves to the engine's predecessor only when it proceeds. */
    method HandleBack(now: int)
      requires Valid()
      modifies store
      ensures Valid()
      ensures var s := old(store.state);
        store.state == if PrevStep(s).canProceed then StepSet(s, PrevStep(s).targetStep, now) else s
      ensures store.listeners == old(store.listeners)
    {
      var nav := PrevStep(store.state);
      if nav.canProceed {
        store.SetStep(nav.targetStep, now);
      }
    }

    /** `handleStepChange` with the current step's field: the matching setter runs, and a step without a field changes nothing. */
    method HandleStepChange(step: int, a: Answer)
      requires Valid()
      modifies store
      ensures Valid()
      ensures store.state == if FieldName(step) == AnswerField(a) then ApplyAnswer(old(store.state), a) else old(store.state)
      ensures store.listeners == old(store.listeners)
    {
      var field := FieldName(step);
      if field == AnswerField(a) {
        store.Apply(a);
      }
    }

    /** `handleLeadChange`: each given field is written by its own setter, in the order nome, email, consent. */
    method HandleLeadChange(nome: Option<string>, email: Option<string>, consent: Option<bool>)
      requires Valid()
      modifies store
      ensures Valid()
      ensures store.state == old(store.state).(nome := nome.GetOr(old(store.state).nome),
                                               email := email.GetOr(old(store.state).email),
                                               consent := consent.GetOr(old(store.state).consent))
      ensures store.listeners == old(store.listeners)
    {
      if nome.Some? {
        LeadSetters(store.state, nome.value, "", false);
        store.Apply(SetNome(nome.value));
      }
      if email.Some? {
        LeadSetters(store.state, "", email.value, false);
        store.Apply(SetEmail(email.value));
      }
      if consent.Some? {
        LeadSetters(store.state, "", "", consent.value);
        store.Apply(SetConsent(consent.value));
      }
    }
  }
}
