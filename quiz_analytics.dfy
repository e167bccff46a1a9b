/**
 * The derivations of the quiz analytics tracker: the answer summary that
 * leaves out the lead's personal data, the value sanitiser, the
 * branch-trigger test, the branch path and offer id strings, the user
 * profile and personalisation flags, and the step counters of the
 * navigation events. Event dispatch, the pixels and the timers are not
 * part of this model.
 */
module QuizAnalytics {
  import opened Wrappers
  import opened JsText
  import opened JsValue
  import opened QuizTypes
  import opened QuizEngine
  import opened QuizStore
  import opened QueryParams
  import QuizDriver

  /** `sanitizeAnswers`: the single answers and flags as they are, each list by its length, and nothing of the lead. */
  datatype AnswerSummary = AnswerSummary(
    idade: Option<AgeRange>,
    diagnostico: Option<Diagnostico>,
    horas: Option<Horas>,
    remedios: Option<Remedios>,
    ansiedade: Option<Ansiedade>,
    impactos: nat,
    consequencias: nat,
    desejos: nat,
    conhecimento: Option<Conhecimento>,
    direcionamento: Option<Direcionamento>,
    micro: Option<MicroCompromisso>,
    flags: Flags)

  function SanitizeAnswers(s: QuizState): AnswerSummary {
    AnswerSummary(s.idade, s.diagnostico, s.horas, s.remedios, s.ansiedade,
                  |s.impactos|, |s.consequencias|, |s.desejos|,
                  s.conhecimento, s.direcionamento, s.micro, s.flags)
  }

  /** `generateUserProfile`: the seven single answers under their profile names. */
  datatype UserProfile = UserProfile(
    ageGroup: Option<AgeRange>,
    sleepProblem: Option<Diagnostico>,
    anxietyLevel: Option<Ansiedade>,
    medicationUse: Option<Remedios>,
    sleepKnowledge: Option<Conhecimento>,
    primaryGoal: Option<Direcionamento>,
    commitment: Option<MicroCompromisso>)

  function GenerateUserProfile(s: QuizState): UserProfile {
    UserProfile(s.idade, s.diagnostico, s.ansiedade, s.remedios, s.conhecimento, s.direcionamento, s.micro)
  }

  /**
   * Neither the answer summary nor the profile depends on the name, the
   * e-mail, the consent, the session or the cursor; two states with the same
   * answers and flags give the same summary, and the profile is read off it.
   */
  lemma SummariesCarryNoLeadData(s: QuizState, t: QuizState)
    requires s.idade == t.idade && s.diagnostico == t.diagnostico && s.horas == t.horas
    requires s.remedios == t.remedios && s.ansiedade == t.ansiedade
    requires |s.impactos| == |t.impactos| && |s.consequencias| == |t.consequencias| && |s.desejos| == |t.desejos|
    requires s.conhecimento == t.conhecimento && s.direcionamento == t.direcionamento && s.micro == t.micro
    requires s.flags == t.flags
    ensures SanitizeAnswers(s) == SanitizeAnswers(t)
    ensures GenerateUserProfile(s) == GenerateUserProfile(t)
    ensures var a := SanitizeAnswers(s);
      GenerateUserProfile(s) == UserProfile(a.idade, a.diagnostico, a.ansiedade, a.remedios, a.conhecimento, a.direcionamento, a.micro)
  {
  }

  /** The summary keeps each list's length, which is 0 exactly for an unanswered list. */
  lemma SummaryCounts(s: QuizState)
    ensures SanitizeAnswers(s).impactos == 0 <==> s.impactos == []
    ensures SanitizeAnswers(s).consequencias == 0 <==> s.consequencias == []
    ensures SanitizeAnswers(s).desejos == 0 <==> s.desejos == []
    ensures SanitizeAnswers(s).flags == s.flags && SanitizeAnswers(s).diagnostico == s.diagnostico
  {
  }

  /** `sanitizeValue`: an array becomes its length, anything else is kept. */
  function SanitizeValue(v: Json): Json {
    if v.JArr? then JNum(|v.items|) else v
  }

  /** Sanitising is idempotent, and its result is never an array. */
  lemma SanitizeValueFacts(v: Json)
    ensures !SanitizeValue(v).JArr?
    ensures SanitizeValue(SanitizeValue(v)) == SanitizeValue(v)
    ensures !v.JArr? ==> SanitizeValue(v) == v
  {
  }

  /** The value a setter's answer has once it reaches the tracker. */
  function AnswerValue(a: Answer): Json {
    match a
    case SetIdade(v) => JStr(v.Value())
    case SetDiagnostico(v) => JStr(v.Value())
    case SetHoras(v) => JStr(v.Value())
    case SetRemedios(v) => JStr(v.Value())
    case SetAnsiedade(v) => JStr(v.Value())
    case SetImpactos(v) => JArr(seq(|v|, i requires 0 <= i < |v| => JStr(v[i])))
    case SetConsequencias(v) => JArr(seq(|v|, i requires 0 <= i < |v| => JStr(v[i])))
    case SetDesejos(v) => JArr(seq(|v|, i requires 0 <= i < |v| => JStr(v[i])))
    case SetConhecimento(v) => JStr(v.Value())
    case SetDirecionamento(v) => JStr(v.Value())
    case SetMicro(v) => JStr(v.Value())
    case SetNome(v) => JStr(v)
    case SetEmail(v) => JStr(v)
    case SetConsent(v) => JBool(v)
  }

  /** `checkBranchTrigger`: the four answer values the tracker reports as branching. */
  function CheckBranchTrigger(field: string, value: Json): bool {
    if field == "diagnostico" then value == JStr("sem_problemas")
    else if field == "ansiedade" then value == JStr("nunca")
    else if field == "remedios" then value == JStr("frequente")
    else if field == "micro" then value == JStr("medo_falhar")
    else false
  }

  /**
   * Against the store's flag setters: for diagnosis, remedies and micro the
   * tracker reports a trigger exactly when the store raises a flag. For
   * anxiety it reports "nunca", the answer that skips step 9, and never one
   * that raises the anxiety flag; "tentei" raises a flag the tracker does not
   * report.
   */
  lemma TriggerVersusFlags(a: Answer)
    ensures a.SetDiagnostico? || a.SetRemedios? || a.SetMicro? ==>
      (CheckBranchTrigger(QuizDriver.AnswerField(a), AnswerValue(a)) <==> RaisesFlag(a))
    ensures a.SetAnsiedade? ==>
      (CheckBranchTrigger(QuizDriver.AnswerField(a), AnswerValue(a)) <==> a.ansiedade == NuncaAnsiedade) &&
      (CheckBranchTrigger(QuizDriver.AnswerField(a), AnswerValue(a)) ==> !RaisesFlag(a))
    ensures a == SetConhecimento(Tentei) ==> RaisesFlag(a) && !CheckBranchTrigger(QuizDriver.AnswerField(a), AnswerValue(a))
  {
  }

  /** `getBranchPath`: the set flags' tags joined by ",", or "default" when the join is empty. */
  function GetBranchPath(s: QuizState): string {
    var joined := Join(BranchTags(s.flags), ",");
    if joined != [] then joined else "default"
  }

  /** The branch path is "default" exactly when no flag is set, and otherwise splits on "," back into the tags. */
  lemma {:induction false} BranchPathRoundTrip(s: QuizState)
    ensures GetBranchPath(s) == "default" <==> s.flags == NoFlags
    ensures s.flags != NoFlags ==> Split(GetBranchPath(s), ',') == BranchTags(s.flags)
  {
    var tags := BranchTags(s.flags);
    if tags != [] {
      BranchTagsPlain(s.flags);
      assert forall k, i :: 0 <= k < |tags| && 0 <= i < |tags[k]| ==> tags[k][i] != ',' by {
        forall k, i | 0 <= k < |tags| && 0 <= i < |tags[k]| ensures tags[k][i] != ',' {
          assert tags[k] in tags;
        }
      }
      SplitJoin(tags, ',');
    }
  }

  /** `getPersonalizationFlags`: the five flags under their content names. */
  datatype Personalization = Personalization(
    showRemediosContent: bool,
    showAnxietyContent: bool,
    showReassurance: bool,
    isExperienced: bool,
    fastTrack: bool)

  function GetPersonalizationFlags(s: QuizState): Personalization {
    Personalization(s.flags.branchHeavyRemedios, s.flags.branchHighAnsiedade, s.flags.reassurance,
                    s.flags.experienced, s.flags.branchNoProblems)
  }

  /** The personalisation flags are the branch flags renamed: each one is read back as the flag it came from. */
  lemma PersonalizationRenamesFlags(s: QuizState)
    ensures var p := GetPersonalizationFlags(s);
      Flags(p.fastTrack, p.showRemediosContent, p.showAnxietyContent, p.isExperienced, p.showReassurance) == s.flags
  {
  }

  /** The offer id of a set of personalisation flags, suffix by suffix. */
  function OfferIdOf(p: Personalization): string {
    "base" +
    (if p.fastTrack then "_fast" else "") +
    (if p.showRemediosContent then "_remedios" else "") +
    (if p.showAnxietyContent then "_anxiety" else "") +
    (if p.showReassurance then "_reassurance" else "")
  }

  /** `getOfferIdFromState`: "base" with a suffix appended for each of four flags in turn. */
  method GetOfferIdFromState(s: QuizState) returns (offerId: string)
    ensures offerId == OfferIdOf(GetPersonalizationFlags(s))
  {
    var flags := GetPersonalizationFlags(s);
    offerId := "base";
    if flags.fastTrack {
      offerId := offerId + "_fast";
    }
    assert offerId == "base" + (if flags.fastTrack then "_fast" else "");
    if flags.showRemediosContent {
      offerId := offerId + "_remedios";
    }
    assert offerId == "base" + (if flags.fastTrack then "_fast" else "") + (if flags.showRemediosContent then "_remedios" else "");
    if flags.showAnxietyContent {
      offerId := offerId + "_anxiety";
    }
    if flags.showReassurance {
      offerId := offerId + "_reassurance";
    }
  }

  /** Strip `suffix` from the front of `s` when it is there. */
  function Eat(s: string, suffix: string): (bool, string) {
    if StartsWith(s, suffix) then (true, s[|suffix|..]) else (false, s)
  }

  /** Read the four suffix flags back from an offer id; None when the id does not have that shape. */
  function ParseOfferId(id: string): Option<(bool, bool, bool, bool)> {
    var (based, t) := Eat(id, "base");
    if based then ParseSuffixes(t) else None
  }

  /** The four optional suffixes, in their fixed order, and nothing after them. */
  function ParseSuffixes(t: string): Option<(bool, bool, bool, bool)> {
    var (fast, r1) := Eat(t, "_fast");
    var (remedios, r2) := Eat(r1, "_remedios");
    var (anxiety, r3) := Eat(r2, "_anxiety");
    var (reassurance, r4) := Eat(r3, "_reassurance");
    if r4 == [] then Some((fast, remedios, anxiety, reassurance)) else None
  }

  lemma EatSuffix(suffix: string, rest: string)
    ensures Eat(suffix + rest, suffix) == (true, rest)
  {
    assert (suffix + rest)[..|suffix|] == suffix;
    assert (suffix + rest)[|suffix|..] == rest;
  }

  lemma EatOther(suffix: string, rest: string, i: nat)
    requires i < |suffix| && (i < |rest| ==> rest[i] != suffix[i])
    ensures Eat(rest, suffix) == (false, rest)
  {
    assert !StartsWith(rest, suffix) by {
      if |suffix| <= |rest| {
        assert rest[..|suffix|][i] != suffix[i];
      }
    }
  }

  /** What may follow the fast suffix: the remedies, anxiety and reassurance suffixes, in order. */
  function AfterFast(p: Personalization): string {
    (if p.showRemediosContent then "_remedios" else "") + AfterRemedios(p)
  }

  function AfterRemedios(p: Personalization): string {
    (if p.showAnxietyContent then "_anxiety" else "") + AfterAnxiety(p)
  }

  function AfterAnxiety(p: Personalization): string {
    if p.showReassurance then "_reassurance" else ""
  }

  /** The offer id is the head, the optional fast suffix and the rest of the chain. */
  lemma OfferIdChain(p: Personalization)
    ensures OfferIdOf(p) == "base" + ((if p.fastTrack then "_fast" else "") + AfterFast(p))
  {
  }

  /** Each suffix comes off the front of its part of the chain, or is absent from it, as its flag says. */
  lemma EatFast(p: Personalization)
    ensures Eat((if p.fastTrack then "_fast" else "") + AfterFast(p), "_fast") == (p.fastTrack, AfterFast(p))
  {
    if p.fastTrack {
      EatSuffix("_fast", AfterFast(p));
    } else {
      assert 1 < |AfterFast(p)| ==> AfterFast(p)[1] != 'f';
      EatOther("_fast", AfterFast(p), 1);
      assert "" + AfterFast(p) == AfterFast(p);
    }
  }

  lemma EatRemedios(p: Personalization)
    ensures Eat(AfterFast(p), "_remedios") == (p.showRemediosContent, AfterRemedios(p))
  {
    if p.showRemediosContent {
      EatSuffix("_remedios", AfterRemedios(p));
    } else {
      assert AfterFast(p) == AfterRemedios(p);
      assert 3 < |AfterRemedios(p)| ==> AfterRemedios(p)[3] != 'm';
      EatOther("_remedios", AfterRemedios(p), 3);
    }
  }

  lemma EatAnxiety(p: Personalization)
    ensures Eat(AfterRemedios(p), "_anxiety") == (p.showAnxietyContent, AfterAnxiety(p))
  {
    if p.showAnxietyContent {
      EatSuffix("_anxiety", AfterAnxiety(p));
    } else {
      assert AfterRemedios(p) == AfterAnxiety(p);
      EatOther("_anxiety", AfterAnxiety(p), 1);
    }
  }

  lemma EatReassurance(p: Personalization)
    ensures Eat(AfterAnxiety(p), "_reassurance") == (p.showReassurance, [])
  {
    if p.showReassurance {
      EatSuffix("_reassurance", []);
      assert "_reassurance" + [] == "_reassurance";
    }
  }

  /**
   * The offer id determines the fast-track, remedies, anxiety and reassurance
   * flags: parsing it gives them back. The experienced flag never reaches it.
   */
  lemma OfferIdRoundTrip(p: Personalization)
    ensures ParseOfferId(OfferIdOf(p)) == Some((p.fastTrack, p.showRemediosContent, p.showAnxietyContent, p.showReassurance))
    ensures OfferIdOf(p) == OfferIdOf(p.(isExperienced := !p.isExperienced))
  {
    OfferIdChain(p);
    EatSuffix("base", (if p.fastTrack then "_fast" else "") + AfterFast(p));
    SuffixesRoundTrip(p);
  }

  lemma SuffixesRoundTrip(p: Personalization)
    ensures ParseSuffixes((if p.fastTrack then "_fast" else "") + AfterFast(p))
         == Some((p.fastTrack, p.showRemediosContent, p.showAnxietyContent, p.showReassurance))
  {
    EatFast(p);
    EatRemedios(p);
    EatAnxiety(p);
    EatReassurance(p);
  }

  /** `skippedSteps` of a forward branch event. */
  function SkippedSteps(fromStep: int, toStep: int): int {
    toStep - fromStep - 1
  }

  /** `stepsBack` of a back-navigation event. */
  function StepsBack(fromStep: int, toStep: int): int {
    fromStep - toStep
  }

  /**
   * Along the engine's forward table the skip count is 3 for step 6 on the
   * no-problems branch, 1 for the jumps out of steps 4 and 8, and 0 otherwise.
   */
  lemma SkippedStepsOfForwardMoves(s: QuizState)
    requires FirstStep <= s.step < FinalStep && NextStep(s).canProceed
    ensures var k := SkippedSteps(s.step, NextStep(s).targetStep);
      (k == 3 <==> s.step == 6 && s.flags.branchNoProblems) &&
      (k == 1 <==> (s.step == 4 && s.diagnostico == Some(SemProblemas)) || (s.step == 8 && s.ansiedade == Some(NuncaAnsiedade))) &&
      (k == 0 || k == 1 || k == 3)
  {
  }

  /** Every back move the engine allows goes back at least one step and at most four. */
  lemma StepsBackOfBackMoves(s: QuizState)
    requires FirstStep < s.step <= FinalStep
    ensures 1 <= StepsBack(s.step, PrevStep(s).targetStep) <= 4
    ensures StepsBack(s.step, PrevStep(s).targetStep) == 4 <==> s.step == 10 && s.flags.branchNoProblems
  {
  }

  /** The tracker's query filter: no window gives {}; otherwise the `utm_` and `variant` entries. */
  method GetUtmParams(query: Option<seq<(string, string)>>) returns (params: map<string, string>)
    ensures params == if query.None? then map[] else KeptParams(query.value, true)
  {
    if query.None? {
      return map[];
    }
    params := FilterQuery(query.value, true);
  }
}
