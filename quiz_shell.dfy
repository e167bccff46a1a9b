/**
 * The quiz frame: the weighted progress percentage, the step label, which
 * steps show the navigation buttons, and the keyboard shortcuts. The
 * percentage is computed as the component does, on fractions, and proved
 * equal to an integer formula.
 */
module QuizShell {
  import opened JsText
  import QuizTypes
  import QuizContent

  const DefaultTotalSteps := 18
  const FinalStep := 18

  /** `Math.round`: halves round up. */
  function Round(x: real): int {
    (x + 0.5).Floor
  }

  /** The bonus points: 5 from the lead step (6), 10 more from step 16. */
  function Bonus(step: int): int {
    (if step >= 6 then 5 else 0) + (if step >= 16 then 10 else 0)
  }

  /** The percentage in whole numbers: `round(100·step/total) + bonus`, capped at 100, and 100 on the final step. */
  function Progress(step: int, totalSteps: int): int
    requires totalSteps > 0
  {
    if step == FinalStep then 100
    else
      var p := (200 * step + (2 * Bonus(step) + 1) * totalSteps) / (2 * totalSteps);
      if p < 100 then p else 100
  }

  /** The floor of an integer quotient taken on fractions is the integer quotient. */
  lemma FloorOfQuotient(a: int, b: int)
    requires b > 0
    ensures (a as real / b as real).Floor == a / b
  {
    var q, r := a / b, a % b;
    assert a == q * b + r && 0 <= r < b;
    assert a as real / b as real == q as real + r as real / b as real;
    assert 0.0 <= r as real / b as real < 1.0;
  }

  lemma QuotientOfProduct(x: real, y: real, z: real)
    requires z != 0.0 && x * z == y
    ensures x == y / z
  {
  }

  /** `round(100·s/t + bonus)` in whole numbers. */
  lemma RoundedShare(s: int, t: int, bonus: int)
    requires t > 0
    ensures Round(s as real / t as real * 100.0 + bonus as real) == (200 * s + (2 * bonus + 1) * t) / (2 * t)
  {
    var x := s as real / t as real * 100.0 + bonus as real + 0.5;
    var n := 200 * s + (2 * bonus + 1) * t;
    assert (s as real / t as real) * t as real == s as real;
    assert x * (2.0 * t as real) == n as real;
    QuotientOfProduct(x, n as real, 2.0 * t as real);
    assert (2 * t) as real == 2.0 * t as real;
    FloorOfQuotient(n, 2 * t);
  }

  /** `calculateProgress`: the base share, the bonuses added step by step, the final step forced to 100, rounded and capped. */
  method CalculateProgress(currentStep: int, totalSteps: int := DefaultTotalSteps) returns (r: int)
    requires totalSteps > 0
    ensures r == Progress(currentStep, totalSteps)
  {
    var baseProgress := currentStep as real / totalSteps as real * 100.0;
    var weightedProgress := baseProgress;
    if currentStep >= 6 {
      weightedProgress := weightedProgress + 5.0;
    }
    if currentStep >= 16 {
      weightedProgress := weightedProgress + 10.0;
    }
    if currentStep == FinalStep {
      weightedProgress := 100.0;
    }
    if currentStep != FinalStep {
      assert weightedProgress == baseProgress + Bonus(currentStep) as real;
      RoundedShare(currentStep, totalSteps, Bonus(currentStep));
    }
    var rounded := Round(weightedProgress);
    r := if 100 < rounded then 100 else rounded;
  }

  /** The shown percentage lies between 0 and 100 from the first step on, and is 100 on the final step. */
  lemma ProgressBounds(step: int, totalSteps: int)
    requires totalSteps > 0
    ensures step >= 0 ==> 0 <= Progress(step, totalSteps)
    ensures Progress(step, totalSteps) <= 100
    ensures step == FinalStep ==> Progress(step, totalSteps) == 100
  {
  }

  lemma DivMonotone(a: int, b: int, c: int)
    requires c > 0 && a <= b
    ensures a / c <= b / c
  {
    var q1, q2 := a / c, b / c;
    assert q1 * c <= a && b < q2 * c + c;
    assert (q2 + 1) * c == q2 * c + c;
    ProductOrder(q1, q2 + 1, c);
  }

  /** A smaller product by the same positive factor has the smaller multiplicand. */
  lemma ProductOrder(x: int, y: int, c: int)
    requires c > 0 && x * c < y * c
    ensures x < y
  {
    assert (y - x) * c == y * c - x * c;
  }

  /**
   * Going forward never lowers the percentage, except into and out of the
   * final step when the total is not 18: step 18 is 100 whatever the total.
   */
  lemma ProgressMonotone(s1: int, s2: int, totalSteps: int)
    requires totalSteps > 0 && 0 <= s1 <= s2 && s1 != FinalStep && s2 != FinalStep
    ensures Progress(s1, totalSteps) <= Progress(s2, totalSteps)
  {
    var n1 := 200 * s1 + (2 * Bonus(s1) + 1) * totalSteps;
    var n2 := 200 * s2 + (2 * Bonus(s2) + 1) * totalSteps;
    assert Bonus(s1) <= Bonus(s2);
    assert (2 * Bonus(s1) + 1) * totalSteps <= (2 * Bonus(s2) + 1) * totalSteps;
    DivMonotone(n1, n2, 2 * totalSteps);
  }

  /** With the default 18 steps the bonus already fills the bar from step 16 on, while step 15 shows 88. */
  lemma DefaultBarFullFromStep16(step: int)
    requires step >= 16
    ensures Progress(step, DefaultTotalSteps) == 100
    ensures Progress(15, DefaultTotalSteps) == 88
  {
    if step != FinalStep {
      var n := 200 * step + 31 * 18;
      assert n >= 3200 + 558;
      DivMonotone(3758, n, 36);
    }
  }

  /** `stepLabel`. */
  function StepLabel(step: int, totalSteps: int): string {
    if step == FinalStep then "Completo" else "Etapa " + IntToString(step) + " de " + IntToString(totalSteps)
  }

  /** The label is "Completo" exactly on the final step; any other step is announced as "Etapa …". */
  lemma StepLabelCases(step: int, totalSteps: int)
    ensures StepLabel(step, totalSteps) == "Completo" <==> step == FinalStep
    ensures step != FinalStep ==> StartsWith(StepLabel(step, totalSteps), "Etapa ")
  {
    if step != FinalStep {
      var l := StepLabel(step, totalSteps);
      assert l[0] == 'E' && l[1] == 't';
    }
  }

  /** `isAutoAdvanceStep`: the single-choice steps that move on by themselves. */
  predicate IsAutoAdvanceStep(step: int) {
    step in [2, 4, 5, 7, 8, 13, 14]
  }

  /** `showNavigation`. */
  predicate ShowNavigation(step: int) {
    step != FinalStep && !IsAutoAdvanceStep(step)
  }

  /**
   * Among the quiz's 18 entries, the auto-advancing steps are the
   * single-choice ones except step 16, which keeps its buttons; every
   * presentation, form, list and loading step shows them except the last.
   */
  lemma AutoAdvanceAreSingleChoice(step: int)
    requires 1 <= step <= 18
    ensures IsAutoAdvanceStep(step) <==> QuizContent.EntryType(step) == QuizTypes.SingleChoice && step != 16
    ensures QuizContent.EntryType(step) != QuizTypes.SingleChoice ==> (ShowNavigation(step) <==> step != FinalStep)
  {
  }

  datatype KeyEvent = KeyEvent(key: string, ctrlKey: bool, metaKey: bool)

  /** Which callbacks a key press fires. */
  datatype Fired = Fired(back: bool, next: bool)

  /** `handleKeyDown`: Escape goes back when allowed; Ctrl or Meta with Enter goes forward when allowed and not loading. */
  function HandleKeyDown(e: KeyEvent, canGoBack: bool, canGoNext: bool, isLoading: bool): Fired {
    Fired(e.key == "Escape" && canGoBack,
          (e.ctrlKey || e.metaKey) && e.key == "Enter" && canGoNext && !isLoading)
  }

  /**
   * No key press fires both callbacks; without a modifier Enter does
   * nothing; and the shortcut forward never fires while the Continue
   * button is disabled or loading.
   */
  lemma KeyDownRules(e: KeyEvent, canGoBack: bool, canGoNext: bool, isLoading: bool)
    ensures !(HandleKeyDown(e, canGoBack, canGoNext, isLoading).back && HandleKeyDown(e, canGoBack, canGoNext, isLoading).next)
    ensures !e.ctrlKey && !e.metaKey ==> !HandleKeyDown(e, canGoBack, canGoNext, isLoading).next
    ensures HandleKeyDown(e, canGoBack, canGoNext, isLoading).next ==> canGoNext && !isLoading
    ensures HandleKeyDown(e, canGoBack, canGoNext, isLoading).back <==> e.key == "Escape" && canGoBack
  {
  }
}
