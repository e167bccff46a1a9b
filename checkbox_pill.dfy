/**
 * The pill-style multi-select: clicking (or pressing Enter or Space on) a
 * pill toggles its value, a toggle that would leave more values selected
 * than the cap allows is discarded, and unselected pills are disabled once
 * the cap is reached. A cap of 0 stands for an unset cap.
 */
module CheckboxPill {
  import opened Wrappers
  import opened JsText

  /** The selection after toggling `v`, before the cap is applied. */
  function Toggled(selected: seq<string>, v: string): seq<string> {
    if v in selected then RemoveAll(selected, v) else selected + [v]
  }

  /** `handleChange`: the new selection, or nothing when the cap discards the toggle. */
  function Toggle(selected: seq<string>, v: string, maxSelections: int): Option<seq<string>> {
    var next := Toggled(selected, v);
    if maxSelections != 0 && |next| > maxSelections then None else Some(next)
  }

  /**
   * An unselected value is appended at the end, a selected one is removed
   * with every copy of it; the toggle is discarded exactly when a cap is set
   * and the result would exceed it (which can refuse a removal when the
   * selection was handed in above the cap).
   */
  lemma ToggleRules(selected: seq<string>, v: string, maxSelections: int)
    ensures Toggle(selected, v, maxSelections).None? <==>
      maxSelections != 0 && |Toggled(selected, v)| > maxSelections
    ensures v !in selected && Toggle(selected, v, maxSelections).Some? ==>
      Toggle(selected, v, maxSelections).value == selected + [v]
    ensures v in selected && Toggle(selected, v, maxSelections).Some? ==>
      v !in Toggle(selected, v, maxSelections).value &&
      forall w :: w != v ==> (w in Toggle(selected, v, maxSelections).value <==> w in selected)
    ensures v in selected && (maxSelections == 0 || |selected| <= maxSelections) ==>
      Toggle(selected, v, maxSelections).Some?
  {
  }

  /** A selection within a positive cap stays within it, whatever is toggled. */
  lemma ToggleKeepsCap(selected: seq<string>, v: string, maxSelections: int)
    requires maxSelections > 0 && |selected| <= maxSelections
    ensures |Toggle(selected, v, maxSelections).GetOr(selected)| <= maxSelections
  {
  }

  /** `isMaxReached`: a cap is set and met. */
  predicate MaxReached(selected: seq<string>, maxSelections: int) {
    maxSelections != 0 && |selected| >= maxSelections
  }

  /** `isDisabled` of a pill: unselected while the cap is reached. */
  predicate Disabled(selected: seq<string>, v: string, maxSelections: int) {
    v !in selected && MaxReached(selected, maxSelections)
  }

  /** Clicking a disabled pill is always discarded, and a pill that is not disabled can be selected or removed within the cap. */
  lemma DisabledMeansDiscarded(selected: seq<string>, v: string, maxSelections: int)
    ensures Disabled(selected, v, maxSelections) ==> Toggle(selected, v, maxSelections).None?
    ensures !Disabled(selected, v, maxSelections) && (maxSelections == 0 || |selected| <= maxSelections) ==>
      Toggle(selected, v, maxSelections).Some?
  {
  }

  /** The component's selection and its props. */
  class Pills {
    const minSelections: int
    const maxSelections: int
    var selectedValues: seq<string>

    /** The props' defaults: no selection, a minimum of 0 and no cap, so default pills count as answered whatever is chosen. */
    constructor (value: seq<string> := [], minSelections: int := 0, maxSelections: int := 0)
      ensures selectedValues == value && this.minSelections == minSelections && this.maxSelections == maxSelections
      ensures minSelections <= 0 ==> MinReached()
    {
      selectedValues := value;
      this.minSelections := minSelections;
      this.maxSelections := maxSelections;
    }

    /** `isMinReached`. */
    predicate MinReached()
      reads this
    {
      |selectedValues| >= minSelections
    }

    /** `handleChange`: the toggle is applied and reported, unless the cap discards it. */
    method HandleChange(v: string) returns (reported: Option<seq<string>>)
      modifies this
      ensures reported == Toggle(old(selectedValues), v, maxSelections)
      ensures selectedValues == reported.GetOr(old(selectedValues))
    {
      var newValues := if v in selectedValues then RemoveAll(selectedValues, v) else selectedValues + [v];
      if maxSelections != 0 && |newValues| > maxSelections {
        return None;
      }
      selectedValues := newValues;
      return Some(newValues);
    }

    /** `handleKeyDown`: Enter and Space toggle, any other key does nothing. */
    method HandleKeyDown(key: string, v: string) returns (reported: Option<seq<string>>)
      modifies this
      ensures key == "Enter" || key == " " ==> reported == Toggle(old(selectedValues), v, maxSelections)
      ensures key != "Enter" && key != " " ==> reported.None?
      ensures selectedValues == reported.GetOr(old(selectedValues))
    {
      if key == "Enter" || key == " " {
        reported := HandleChange(v);
      } else {
        reported := None;
      }
    }

    /** The effect that takes a new `value` prop. */
    method SyncValue(value: seq<string>)
      modifies this
      ensures selectedValues == value
    {
      selectedValues := value;
    }
  }
}
