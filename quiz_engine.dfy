/**
 * The quiz navigation engine: the forward transition table with its three
 * branch points (steps 4, 6 and 8), back navigation that re-derives the
 * predecessor from the flags and answers, per-step validation with a fixed
 * error priority, the bounded forward walk of `navigateToStep`, progress
 * arithmetic and the step-type table.
 */
module QuizEngine {
  import opened Wrappers
  import opened JsText
  import opened QuizTypes

  const MsgIdade := "Por favor, selecione sua faixa etária"
  const MsgOption := "Por favor, selecione uma opção"
  const MsgHoras := "Por favor, selecione quantas horas você dorme"
  const MsgNome := "Nome deve ter pelo menos 2 caracteres"
  const MsgEmail := "Por favor, insira um email válido"
  const MsgConsent := "É necessário concordar com o tratamento de dados para continuar"
  const MsgAtLeastOne := "Por favor, selecione pelo menos uma opção"

  datatype Validation = Valid | Invalid(message: string)

  datatype StepDirection = Next | Prev

  /** Steps with nothing to answer. */
  predicate AlwaysValidStep(step: int) {
    step == 1 || step == 3 || step == 12 || step == 15 || step == 17 || step == 18
  }

  /** The name check of step 6: set, and at least two UTF-16 code units once trimmed. */
  predicate NomeAcceptable(nome: string) {
    nome != [] && JsLength(Trim(nome)) >= MinNameLength
  }

  /** The lead step's checks: the name, then the e-mail, then consent. */
  function ValidateLead(nome: string, email: string, consent: bool): Validation {
    if !NomeAcceptable(nome) then Invalid(MsgNome)
    else if email == [] || !IsValidEmail(email) then Invalid(MsgEmail)
    else if !consent then Invalid(MsgConsent)
    else Valid
  }

  /** Validation of one step; the first failing rule's message is reported. */
  function ValidateStep(state: QuizState, step: int): Validation {
    var exempt := state.flags.branchNoProblems;
    if step == 2 then
      if state.idade.None? then Invalid(MsgIdade) else Valid
    else if step == 4 then
      if state.diagnostico.None? then Invalid(MsgOption) else Valid
    else if step == 5 then
      if state.horas.None? && !exempt then Invalid(MsgHoras) else Valid
    else if step == 6 then ValidateLead(state.nome, state.email, state.consent)
    else if step == 7 then
      if state.remedios.None? && !exempt then Invalid(MsgOption) else Valid
    else if step == 8 then
      if state.ansiedade.None? && !exempt then Invalid(MsgOption) else Valid
    else if step == 9 then
      if state.impactos == [] && !exempt && state.ansiedade != Some(NuncaAnsiedade) then Invalid(MsgAtLeastOne) else Valid
    else if step == 10 then
      if state.consequencias == [] then Invalid(MsgAtLeastOne) else Valid
    else if step == 11 then
      if state.desejos == [] then Invalid(MsgAtLeastOne) else Valid
    else if step == 13 then
      if state.conhecimento.None? then Invalid(MsgOption) else Valid
    else if step == 14 then
      if state.direcionamento.None? then Invalid(MsgOption) else Valid
    else if step == 16 then
      if state.micro.None? then Invalid(MsgOption) else Valid
    else Valid
  }

  /** The successor of a step that passed validation. */
  function ForwardTarget(state: QuizState): (t: int)
    ensures state.step < FinalStep ==> state.step < t <= FinalStep
    ensures state.step >= FinalStep ==> t == FinalStep
  {
    var s := state.step;
    if s == 4 then (if state.diagnostico == Some(SemProblemas) then 6 else 5)
    else if s == 6 then (if state.flags.branchNoProblems then 10 else 7)
    else if s == 8 then (if state.ansiedade == Some(NuncaAnsiedade) then 10 else 9)
    else if 1 <= s <= 17 then s + 1
    else if s == 18 then 18
    else if s + 1 < 18 then s + 1 else 18
  }

  /**
   * `nextStep`: a state that fails its own step's validation stays put and
   * reports the message; otherwise the cursor moves strictly forward, never
   * past step 18, and step 18 maps to itself.
   */
  function NextStep(state: QuizState): (r: NavigationResult)
    ensures ValidateStep(state, state.step).Invalid? ==>
      r == NavigationResult(state.step, false, Some(ValidateStep(state, state.step).message))
    ensures ValidateStep(state, state.step).Valid? ==> r.canProceed && r.validationError.None?
    ensures r.canProceed && state.step < FinalStep ==> state.step < r.targetStep <= FinalStep
    ensures r.canProceed && state.step >= FinalStep ==> r.targetStep == FinalStep
  {
    match ValidateStep(state, state.step)
    case Invalid(msg) => NavigationResult(state.step, false, Some(msg))
    case Valid => NavigationResult(ForwardTarget(state), true, None)
  }

  /** `prevStep`: never below step 1, refuses at step 1 or below, and otherwise moves strictly back. */
  function PrevStep(state: QuizState): (r: NavigationResult)
    ensures r.targetStep >= FirstStep && r.validationError.None?
    ensures state.step <= FirstStep ==> r.targetStep == FirstStep && !r.canProceed
    ensures state.step > FirstStep ==> r.canProceed && r.targetStep < state.step
  {
    var s := state.step;
    if s <= 1 then NavigationResult(1, false, None)
    else
      var t :=
        if s == 6 then (if state.flags.branchNoProblems then 4 else 5)
        else if s == 7 then 6
        else if s == 8 then 7
        else if s == 9 then 8
        else if s == 10 then (if state.flags.branchNoProblems then 6 else if state.ansiedade == Some(NuncaAnsiedade) then 8 else 9)
        else s - 1;
      NavigationResult(if t < 1 then 1 else t, true, None)
  }

  /** The three forward branch points and the terminal step. */
  lemma NextStepBranches(state: QuizState)
    requires ValidateStep(state, state.step).Valid?
    ensures state.step == 4 ==> (NextStep(state).targetStep == 6 <==> state.diagnostico == Some(SemProblemas))
    ensures state.step == 4 ==> NextStep(state).targetStep in {5, 6}
    ensures state.step == 6 ==> (NextStep(state).targetStep == 10 <==> state.flags.branchNoProblems)
    ensures state.step == 6 ==> NextStep(state).targetStep in {7, 10}
    ensures state.step == 8 ==> (NextStep(state).targetStep == 10 <==> state.ansiedade == Some(NuncaAnsiedade))
    ensures state.step == 8 ==> NextStep(state).targetStep in {9, 10}
    ensures 1 <= state.step < FinalStep && state.step !in {4, 6, 8} ==> NextStep(state).targetStep == state.step + 1
  {
  }

  /** Step 18 is terminal: whatever the answers, `nextStep` stays on it and proceeds. */
  lemma FinalStepIsTerminal(state: QuizState)
    requires state.step == FinalStep
    ensures NextStep(state) == NavigationResult(FinalStep, true, None)
  {
  }

  /** The back rules at the two branch joins, and step 8 going back to 7 in every case. */
  lemma PrevStepRules(state: QuizState)
    ensures state.step == 6 ==> PrevStep(state).targetStep == (if state.flags.branchNoProblems then 4 else 5)
    ensures state.step == 10 ==>
      PrevStep(state).targetStep == (if state.flags.branchNoProblems then 6 else if state.ansiedade == Some(NuncaAnsiedade) then 8 else 9)
    ensures state.step == 8 ==> PrevStep(state).targetStep == 7
    ensures state.step > FirstStep && state.step !in {6, 10} ==> PrevStep(state).targetStep == state.step - 1
  {
  }

  /**
   * A state on the path the store builds: the no-problems flag agrees with
   * the diagnosis, and the cursor is not on a step that path skips.
   */
  predicate OnPath(state: QuizState) {
    state.flags.branchNoProblems == (state.diagnostico == Some(SemProblemas)) &&
    (state.step in {5, 7, 8, 9} ==> !state.flags.branchNoProblems) &&
    (state.step == 9 ==> state.ansiedade != Some(NuncaAnsiedade))
  }

  /** Going back after going forward returns to the step left, for every state on the path. */
  lemma BackUndoesForward(state: QuizState)
    requires OnPath(state)
    requires FirstStep <= state.step < FinalStep
    requires NextStep(state).canProceed
    ensures PrevStep(state.(step := NextStep(state).targetStep)).targetStep == state.step
  {
  }

  /** The rules each step checks: which steps never fail and which are exempt on which branch. */
  lemma ValidateStepRules(state: QuizState, step: int)
    ensures AlwaysValidStep(step) ==> ValidateStep(state, step).Valid?
    ensures step in {5, 7, 8} && state.flags.branchNoProblems ==> ValidateStep(state, step).Valid?
    ensures step == 9 ==> (ValidateStep(state, step).Valid? <==>
      state.impactos != [] || state.flags.branchNoProblems || state.ansiedade == Some(NuncaAnsiedade))
    ensures step == 10 ==> (ValidateStep(state, step).Valid? <==> state.consequencias != [])
    ensures step == 11 ==> (ValidateStep(state, step).Valid? <==> state.desejos != [])
    ensures (step < 1 || step > 18) ==> ValidateStep(state, step).Valid?
  {
  }

  /** Step 6 reports the name first, then the e-mail, then consent. */
  lemma StepSixPriority(state: QuizState)
    ensures !NomeAcceptable(state.nome) ==> ValidateStep(state, 6) == Invalid(MsgNome)
    ensures NomeAcceptable(state.nome) && !IsValidEmail(state.email) ==> ValidateStep(state, 6) == Invalid(MsgEmail)
    ensures NomeAcceptable(state.nome) && IsValidEmail(state.email) && !state.consent ==> ValidateStep(state, 6) == Invalid(MsgConsent)
    ensures ValidateStep(state, 6).Valid? <==> NomeAcceptable(state.nome) && IsValidEmail(state.email) && state.consent
  {
    assert ValidateStep(state, 6) == ValidateLead(state.nome, state.email, state.consent);
    if IsValidEmail(state.email) {
      ValidEmailNotEmpty(state.email);
    }
  }

  lemma ValidEmailNotEmpty(email: string)
    requires IsValidEmail(email)
    ensures email != []
  {
    assert IndexOf(email, '@') > 0;
  }

  /** The forward walk of `navigateToStep`, as a function. */
  function Forward(state: QuizState, target: int): (r: NavigationResult)
    decreases if state.step < FinalStep then FinalStep - state.step else 0
  {
    if state.step >= target then NavigationResult(state.step, true, None)
    else
      var n := NextStep(state);
      if !n.canProceed then n
      else if n.targetStep >= FinalStep then NavigationResult(n.targetStep, true, None)
      else Forward(state.(step := n.targetStep), target)
  }

  function Navigate(state: QuizState, target: int, direction: StepDirection): NavigationResult {
    if direction == Prev then PrevStep(state) else Forward(state, target)
  }

  /**
   * What the forward walk promises: from a step at most 18 it stops at or
   * before 18 and never goes back; when it proceeds it has reached the target
   * or the final step; when it refuses, it reports the message of the step it
   * stopped on, which fails validation.
   */
  lemma {:induction false} ForwardResult(state: QuizState, target: int)
    requires state.step <= FinalStep
    ensures var r := Forward(state, target);
      state.step <= r.targetStep <= FinalStep &&
      (r.canProceed ==> r.targetStep >= target || r.targetStep == FinalStep) &&
      (!r.canProceed ==>
        r.targetStep < target &&
        ValidateStep(state.(step := r.targetStep), r.targetStep).Invalid? &&
        r.validationError == Some(ValidateStep(state.(step := r.targetStep), r.targetStep).message))
    decreases FinalStep - state.step
  {
    if state.step < target {
      var n := NextStep(state);
      if n.canProceed && n.targetStep < FinalStep {
        var next := state.(step := n.targetStep);
        ForwardResult(next, target);
        assert next.(step := Forward(next, target).targetStep) == state.(step := Forward(next, target).targetStep);
      } else if !n.canProceed {
        assert state.(step := state.step) == state;
      }
    }
  }

  /** `navigateToStep`: backwards it is `prevStep`; forwards it walks `nextStep` until the target, a refusal or step 18. */
  method NavigateToStep(state: QuizState, target: int, direction: StepDirection) returns (r: NavigationResult)
    ensures r == Navigate(state, target, direction)
  {
    if direction == Prev {
      return PrevStep(state);
    }
    var current := state;
    var step := state.step;
    while step < target
      invariant current == state.(step := step)
      invariant Forward(current, target) == Forward(state, target)
      decreases FinalStep - step
    {
      var next := NextStep(current);
      if !next.canProceed {
        return next;
      }
      step := next.targetStep;
      current := current.(step := step);
      if step >= FinalStep {
        break;
      }
    }
    return NavigationResult(step, true, None);
  }

  /** `Math.round(step / 18 * 100)` in exact arithmetic: the fraction 50·step/9 is never exactly one half above an integer. */
  function GetProgress(step: int): (p: int)
    ensures 18 * p - 9 <= 100 * step < 18 * p + 9
  {
    (200 * step + 18) / 36
  }

  /** Progress at the first, the middle and the final step, and its range over the cursor. */
  lemma ProgressFacts(step: int)
    ensures GetProgress(1) == 6 && GetProgress(9) == 50 && GetProgress(FinalStep) == 100
    ensures 0 <= step <= FinalStep ==> 0 <= GetProgress(step) <= 100
  {
  }

  /** Progress never decreases as the cursor advances. */
  lemma ProgressMonotone(a: int, b: int)
    requires a <= b
    ensures GetProgress(a) <= GetProgress(b)
  {
    assert 200 * a + 18 <= 200 * b + 18;
  }

  /** `canGoBack` agrees with whether `prevStep` proceeds. */
  function CanGoBack(step: int): (r: bool)
    ensures forall state: QuizState :: state.step == step ==> (r <==> PrevStep(state).canProceed)
  {
    step > 1
  }

  /** `isFinalStep` holds exactly on the step that `nextStep` maps to itself with proceeding. */
  function IsFinalStep(step: int): (r: bool)
    ensures r ==> forall state: QuizState :: state.step == step ==> NextStep(state) == NavigationResult(step, true, None)
    ensures 1 <= step < FinalStep ==> !r
  {
    step == 18
  }

  function GetStepType(step: int): StepType {
    if step in {1, 3, 12, 15, 18} then Presentation
    else if step == 6 then Form
    else if step in {9, 10, 11} then MultipleChoice
    else if step == 17 then Loading
    else SingleChoice
  }

  /** The steps that need no answer are the presentation and loading steps; the list answers are the multiple-choice steps. */
  lemma StepTypeMatchesValidation(state: QuizState, step: int)
    requires 1 <= step <= FinalStep
    ensures AlwaysValidStep(step) <==> GetStepType(step) in {Presentation, Loading}
    ensures GetStepType(step) == MultipleChoice <==> step in {9, 10, 11}
  {
  }

  /** The branch tags of the set flags, in the fixed order no_problems, heavy_remedios, high_ansiedade, experienced, reassurance. */
  function BranchTags(f: Flags): (tags: seq<string>)
    ensures |tags| <= 5
    ensures tags == [] <==> f == NoFlags
  {
    (if f.branchNoProblems then ["no_problems"] else []) +
    (if f.branchHeavyRemedios then ["heavy_remedios"] else []) +
    (if f.branchHighAnsiedade then ["high_ansiedade"] else []) +
    (if f.experienced then ["experienced"] else []) +
    (if f.reassurance then ["reassurance"] else [])
  }

  /** Each tag is present exactly when its flag is set. */
  lemma BranchTagsNameFlags(f: Flags)
    ensures "no_problems" in BranchTags(f) <==> f.branchNoProblems
    ensures "heavy_remedios" in BranchTags(f) <==> f.branchHeavyRemedios
    ensures "high_ansiedade" in BranchTags(f) <==> f.branchHighAnsiedade
    ensures "experienced" in BranchTags(f) <==> f.experienced
    ensures "reassurance" in BranchTags(f) <==> f.reassurance
  {
    assert "no_problems"[0] == 'n' && "experienced"[0] == 'e' && "reassurance"[0] == 'r';
    assert "heavy_remedios"[1] == 'e' && "high_ansiedade"[1] == 'i';
  }

  /** A tag without commas or spaces. */
  predicate PlainTag(t: string) {
    ',' !in t && ' ' !in t
  }

  /** No branch tag holds a comma or a space. */
  lemma BranchTagsPlain(f: Flags)
    ensures forall t :: t in BranchTags(f) ==> PlainTag(t)
  {
    assert PlainTag("no_problems");
    assert PlainTag("heavy_remedios");
    assert PlainTag("high_ansiedade");
    assert PlainTag("experienced");
    assert PlainTag("reassurance");
  }

  /** `getBranchInfo`: the set tags joined by ", ", or "default" when no flag is set. */
  function GetBranchInfo(state: QuizState): string {
    var tags := BranchTags(state.flags);
    if |tags| > 0 then Join(tags, ", ") else "default"
  }

  /** Every piece of a join appears in it. */
  lemma {:induction false} JoinHoldsPieces(xs: seq<string>, sep: string, k: int)
    requires 0 <= k < |xs|
    ensures IsInfix(xs[k], Join(xs, sep))
  {
    if |xs| == 1 {
      InfixOfConcat([], xs[0], []);
      assert [] + xs[0] + [] == xs[0];
    } else if k == 0 {
      InfixOfConcat([], xs[0], sep + Join(xs[1..], sep));
      assert [] + xs[0] + (sep + Join(xs[1..], sep)) == Join(xs, sep);
    } else {
      JoinHoldsPieces(xs[1..], sep, k - 1);
      var j := Join(xs[1..], sep);
      var i :| 0 <= i <= |j| && OccursAt(xs[k], j, i);
      var whole := xs[0] + sep + j;
      assert whole[|xs[0] + sep| + i..|xs[0] + sep| + i + |xs[k]|] == j[i..i + |xs[k]|];
      assert OccursAt(xs[k], whole, |xs[0] + sep| + i);
    }
  }

  /** The branch info is "default" exactly when no flag is set, and names every set flag otherwise. */
  lemma BranchInfoNamesFlags(state: QuizState)
    ensures GetBranchInfo(state) == "default" <==> state.flags == NoFlags
    ensures forall k :: 0 <= k < |BranchTags(state.flags)| ==> IsInfix(BranchTags(state.flags)[k], GetBranchInfo(state))
  {
    var tags := BranchTags(state.flags);
    forall k | 0 <= k < |tags| ensures IsInfix(tags[k], GetBranchInfo(state)) {
      JoinHoldsPieces(tags, ", ", k);
    }
    if tags != [] {
      JoinHoldsPieces(tags, ", ", 0);
    }
  }
}
