/**
 * The multiple-choice step: checking an option appends its value unless a
 * cap is set and already met, unchecking removes every copy of the value,
 * and the step counts as answered once `minSelections` (1 by default)
 * values are chosen. A cap of 0 stands for an unset cap.
 */
module MultipleChoice {
  import opened Wrappers
  import opened JsText

  const DefaultMinSelections := 1

  /** `handleChange`: the new selection, or nothing when a check meets the cap. */
  function Change(selected: seq<string>, v: string, checked: bool, maxSelections: int): Option<seq<string>> {
    if checked then
      if maxSelections != 0 && |selected| >= maxSelections then None else Some(selected + [v])
    else Some(RemoveAll(selected, v))
  }

  /**
   * A check is refused exactly when a cap is set and met, and otherwise
   * appends the value; an uncheck always goes through and removes every
   * copy of the value, keeping the rest.
   */
  lemma ChangeRules(selected: seq<string>, v: string, checked: bool, maxSelections: int)
    ensures checked ==>
      (Change(selected, v, checked, maxSelections).None? <==> maxSelections != 0 && |selected| >= maxSelections)
    ensures checked && Change(selected, v, checked, maxSelections).Some? ==>
      Change(selected, v, checked, maxSelections).value == selected + [v]
    ensures !checked ==> Change(selected, v, checked, maxSelections).Some?
    ensures !checked ==> v !in Change(selected, v, checked, maxSelections).GetOr([])
    ensures !checked ==>
      forall w :: w != v ==> (w in Change(selected, v, checked, maxSelections).GetOr([]) <==> w in selected)
  {
  }

  /** A selection within a positive cap stays within it. */
  lemma ChangeKeepsCap(selected: seq<string>, v: string, checked: bool, maxSelections: int)
    requires maxSelections > 0 && |selected| <= maxSelections
    ensures |Change(selected, v, checked, maxSelections).GetOr(selected)| <= maxSelections
  {
  }

  /** `isMaxReached`. */
  predicate MaxReached(selected: seq<string>, maxSelections: int) {
    maxSelections != 0 && |selected| >= maxSelections
  }

  /** An option is disabled when it is not chosen and the cap is reached. */
  predicate Disabled(selected: seq<string>, v: string, maxSelections: int) {
    v !in selected && MaxReached(selected, maxSelections)
  }

  /** Checking a disabled option is refused; any unchecked option can be checked while the cap is not reached. */
  lemma DisabledMeansRefused(selected: seq<string>, v: string, maxSelections: int)
    ensures Disabled(selected, v, maxSelections) ==> Change(selected, v, true, maxSelections).None?
    ensures !MaxReached(selected, maxSelections) ==> Change(selected, v, true, maxSelections) == Some(selected + [v])
  {
  }

  /** The step's selection and its props. */
  class Choice {
    const minSelections: int
    const maxSelections: int
    var selectedValues: seq<string>

    constructor (value: seq<string> := [], minSelections: int := DefaultMinSelections, maxSelections: int := 0)
      ensures selectedValues == value && this.minSelections == minSelections && this.maxSelections == maxSelections
    {
      selectedValues := value;
      this.minSelections := minSelections;
      this.maxSelections := maxSelections;
    }

    /** `isMinMet`. */
    predicate MinMet()
      reads this
    {
      |selectedValues| >= minSelections
    }

    /** `handleChange`: the change is applied and reported unless it is refused. */
    method HandleChange(v: string, checked: bool) returns (reported: Option<seq<string>>)
      modifies this
      ensures reported == Change(old(selectedValues), v, checked, maxSelections)
      ensures selectedValues == reported.GetOr(old(selectedValues))
    {
      var newValues: seq<string>;
      if checked {
        if maxSelections != 0 && |selectedValues| >= maxSelections {
          return None;
        }
        newValues := selectedValues + [v];
      } else {
        newValues := RemoveAll(selectedValues, v);
      }
      selectedValues := newValues;
      return Some(newValues);
    }

    /** The effect that takes a new `value` prop. */
    method SyncValue(value: seq<string>)
      modifies this
      ensures selectedValues == value
    {
      selectedValues := value;
    }
  }
}
