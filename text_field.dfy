/**
 * The quiz's text input: the validation of a value (required, minimum
 * length, e-mail syntax, an optional pattern and an optional custom check,
 * on the trimmed value, first failure wins), name formatting on blur, and
 * the rule that the field reports itself valid until it has been left once.
 * The pattern, the custom check and the letter-case mappings are inputs.
 */
module TextField {
  import opened Wrappers
  import opened JsText
  import opened QuizTypes

  datatype FieldType = Text | Email

  /** A field's props: its type, whether it is required, and its optional checks (a `minLength` of 0 means none). */
  datatype FieldConfig = FieldConfig(
    kind: FieldType,
    required: bool,
    minLength: int,
    pattern: Option<string -> bool>,
    custom: Option<string -> Option<string>>)

  const RequiredMessage := "Este campo é obrigatório."
  const EmailMessage := "Digite um e-mail válido (ex.: nome@domínio.com)."
  const PatternMessage := "Formato inválido."

  function MinLengthMessage(minLength: int): string {
    "Mínimo de " + IntToString(minLength) + " caracteres."
  }

  /** `validateValue`: the message of the first failed check on the trimmed value, or none. */
  function ValidateValue(config: FieldConfig, val: string): Option<string> {
    var t := Trim(val);
    if config.required && t == "" then Some(RequiredMessage)
    else if t == "" then None
    else if config.minLength != 0 && JsLength(t) < config.minLength then Some(MinLengthMessage(config.minLength))
    else if config.kind == Email && !IsValidEmail(t) then Some(EmailMessage)
    else if config.pattern.Some? && !config.pattern.value(t) then Some(PatternMessage)
    else if config.custom.Some? then config.custom.value(t)
    else None
  }

  /** What the field reports to its parent: valid when there is no message, or the custom check gave an empty one. */
  predicate Passes(error: Option<string>) {
    error.None? || error.value == ""
  }

  /** Only whitespace, or nothing at all. */
  predicate Blank(s: string) {
    forall i :: 0 <= i < |s| ==> IsSpace(s[i])
  }

  /** Every optional check a non-blank value must meet, in any order. */
  predicate MeetsChecks(config: FieldConfig, t: string) {
    (config.minLength == 0 || JsLength(t) >= config.minLength) &&
    (config.kind == Email ==> IsValidEmail(t)) &&
    (config.pattern.Some? ==> config.pattern.value(t)) &&
    (config.custom.Some? ==> Passes(config.custom.value(t)))
  }

  /**
   * A blank value (only whitespace) fails exactly when the field is
   * required; a non-blank one passes exactly when it meets the minimum
   * length, is an e-mail address on an e-mail field, matches the pattern
   * and satisfies the custom check, and the first unmet one names the
   * message.
   */
  lemma ValidateValueMeaning(config: FieldConfig, val: string)
    ensures Blank(val) ==>
      ValidateValue(config, val) == (if config.required then Some(RequiredMessage) else None)
    ensures Trim(val) != "" ==>
      (Passes(ValidateValue(config, val)) <==> MeetsChecks(config, Trim(val)))
    ensures Trim(val) != "" && config.minLength != 0 && JsLength(Trim(val)) < config.minLength ==>
      ValidateValue(config, val) == Some(MinLengthMessage(config.minLength))
  {
    TrimEmptyIffAllSpace(val);
  }

  /** The letter-case mappings `toUpperCase` and `toLowerCase`. */
  datatype Casing = Casing(upper: string -> string, lower: string -> string)

  /** One word: its first character upper-cased and the rest lower-cased; an empty word stays empty. */
  function FormatWord(casing: Casing, word: string): string {
    if word == "" then word else casing.upper([word[0]]) + casing.lower(word[1..])
  }

  function FormatWords(casing: Casing, words: seq<string>): (r: seq<string>)
    ensures |r| == |words|
    ensures forall k :: 0 <= k < |words| ==> r[k] == FormatWord(casing, words[k])
  {
    if words == [] then [] else [FormatWord(casing, words[0])] + FormatWords(casing, words[1..])
  }

  /** `formatName`: each space-separated word formatted on a text field; an e-mail field's value is untouched. */
  function FormatName(kind: FieldType, casing: Casing, name: string): string {
    if kind != Text then name else Join(FormatWords(casing, Split(name, ' ')), " ")
  }

  /** A case mapping that never produces a space. */
  ghost predicate SpaceFree(f: string -> string) {
    forall s :: ' ' !in f(s)
  }

  /**
   * When the case mappings bring in no spaces, a formatted name has the same
   * words as the original, empty ones included, each formatted in place.
   */
  lemma FormatNameWords(casing: Casing, name: string)
    requires SpaceFree(casing.upper) && SpaceFree(casing.lower)
    ensures Split(FormatName(Text, casing, name), ' ') == FormatWords(casing, Split(name, ' '))
    ensures |Split(FormatName(Text, casing, name), ' ')| == |Split(name, ' ')|
  {
    var words := FormatWords(casing, Split(name, ' '));
    forall k, i | 0 <= k < |words| && 0 <= i < |words[k]| ensures words[k][i] != ' ' {
      var w := Split(name, ' ')[k];
      if w != "" {
        var u := casing.upper([w[0]]);
        var l := casing.lower(w[1..]);
        assert words[k] == u + l;
        if i < |u| {
          assert words[k][i] == u[i];
        } else {
          assert words[k][i] == l[i - |u|];
        }
      }
    }
    SplitJoin(words, ' ');
  }

  /** The input's state: the value shown, the message shown and whether it has been left once. */
  class Field {
    const config: FieldConfig
    const casing: Casing
    var inputValue: string
    var error: Option<string>
    var touched: bool

    /**
     * The hook state on first render. Mounting then runs the `[value]`
     * effect once, which is this constructor followed by `SyncValue(value)`.
     */
    constructor (config: FieldConfig, casing: Casing, value: string)
      ensures this.config == config && this.casing == casing
      ensures inputValue == value && error.None? && !touched
    {
      this.config := config;
      this.casing := casing;
      inputValue := value;
      error := None;
      touched := false;
    }

    /**
     * `handleChange`: the value is taken as typed; before the first blur it
     * is reported valid and no message changes, afterwards it is validated.
     */
    method HandleChange(newValue: string) returns (reported: string, valid: bool)
      modifies this
      ensures inputValue == newValue && reported == newValue && touched == old(touched)
      ensures !touched ==> valid && error == old(error)
      ensures touched ==> error == ValidateValue(config, newValue) && (valid <==> Passes(error))
    {
      inputValue := newValue;
      if touched {
        error := ValidateValue(config, newValue);
        valid := Passes(error);
      } else {
        valid := true;
      }
      reported := newValue;
    }

    /**
     * `handleBlur`: the field becomes touched, a non-empty text value is
     * name-formatted, and the final value is validated and reported.
     */
    method HandleBlur() returns (reported: string, valid: bool)
      modifies this
      ensures touched
      ensures reported == (if config.kind == Text && old(inputValue) != "" then FormatName(Text, casing, old(inputValue)) else old(inputValue))
      ensures inputValue == reported
      ensures error == ValidateValue(config, reported) && (valid <==> Passes(error))
      ensures HasError() <==> !valid
    {
      touched := true;
      var finalValue := inputValue;
      if config.kind == Text && inputValue != "" {
        finalValue := FormatName(config.kind, casing, inputValue);
        inputValue := finalValue;
      }
      error := ValidateValue(config, finalValue);
      valid := Passes(error);
      reported := finalValue;
    }

    /** `hasError`: a message is shown only once the field has been left, and never an empty one. */
    predicate HasError()
      reads this
    {
      touched && error.Some? && error.value != ""
    }

    /**
     * The effect that takes a new `value` prop: the value is shown, and a
     * non-empty one is validated and reported; the message it sets stays
     * hidden until the field has been left.
     */
    method SyncValue(value: string) returns (reported: Option<(string, bool)>)
      modifies this
      ensures inputValue == value && touched == old(touched)
      ensures value == "" ==> reported.None? && error == old(error)
      ensures value != "" ==> error == ValidateValue(config, value) && reported == Some((value, Passes(error)))
      ensures !touched ==> !HasError()
    {
      inputValue := value;
      reported := None;
      if value != "" {
        error := ValidateValue(config, value);
        reported := Some((value, Passes(error)));
      }
    }
  }
}
