/**
 * The lead form of step 6: per-field validation of name, e-mail and consent
 * with the shared messages, the rule that editing a field clears only that
 * field's message, and the rule that a field shows as invalid only once it
 * has been left and has a message.
 */
module LeadForm {
  import opened JsText
  import opened QuizTypes
  import QuizEngine
  import QuizContent

  /** The form's own copy of the inputs, with the hidden trap field. */
  datatype FormData = FormData(nome: string, email: string, consent: bool, honeypot: string)

  /** What an input hands over: a text box's value or a checkbox's state. */
  datatype Input = TextInput(text: string) | CheckInput(checked: bool)

  /** `validateField`: the field's message, or "" when it passes or is not a validated field. */
  function ValidateField(name: string, data: FormData): string {
    if name == "nome" then
      if data.nome == "" || JsLength(Trim(data.nome)) < MinNameLength then QuizContent.Messages.name else ""
    else if name == "email" then
      if data.email == "" || !IsValidEmail(Trim(data.email)) then QuizContent.Messages.email else ""
    else if name == "consent" then
      if !data.consent then QuizContent.Messages.consent else ""
    else ""
  }

  /**
   * The name passes exactly when the engine's step-6 name check passes, the
   * consent exactly when it is given; the e-mail passes when its trimmed
   * form is an address, so an address the engine accepts passes here too;
   * any other field always passes.
   */
  lemma ValidateFieldMeaning(name: string, data: FormData)
    ensures ValidateField("nome", data) == "" <==> QuizEngine.NomeAcceptable(data.nome)
    ensures ValidateField("email", data) == "" <==> data.email != "" && IsValidEmail(Trim(data.email))
    ensures ValidateField("consent", data) == "" <==> data.consent
    ensures name !in {"nome", "email", "consent"} ==> ValidateField(name, data) == ""
    ensures data.email != "" && IsValidEmail(data.email) ==> ValidateField("email", data) == ""
  {
    if data.email != "" && IsValidEmail(data.email) {
      TrimOfSpaceFree(data.email);
    }
  }

  /** Trimming a string without whitespace changes nothing. */
  lemma TrimOfSpaceFree(s: string)
    requires NoSpace(s)
    ensures Trim(s) == s
  {
    if s != [] {
      assert !IsSpace(s[0]) && !IsSpace(s[|s| - 1]);
    }
  }

  /**
   * The form trims the e-mail and the engine does not: any address the
   * engine accepts, typed after a space, passes here and fails the engine.
   */
  lemma LeadingSpaceEmail(email: string)
    requires IsValidEmail(email)
    ensures ValidateField("email", FormData("", " " + email, false, "")) == ""
    ensures !IsValidEmail(" " + email)
  {
    var typed := " " + email;
    ValidateFieldMeaning("email", FormData("", typed, false, ""));
    assert typed[1..] == email;
    assert TrimStart(typed) == TrimStart(email);
    TrimOfSpaceFree(email);
    assert !NoSpace(typed) by {
      assert IsSpace(typed[0]);
    }
  }

  /** `handleChange`'s `{...prev, [name]: value}` for the form's four fields. */
  function WithField(data: FormData, name: string, value: Input): FormData
    requires name in {"nome", "email", "consent", "honeypot"}
    requires name == "consent" <==> value.CheckInput?
  {
    if name == "nome" then data.(nome := value.text)
    else if name == "email" then data.(email := value.text)
    else if name == "consent" then data.(consent := value.checked)
    else data.(honeypot := value.text)
  }

  class Form {
    var data: FormData
    /** `errors`: the message last computed for each field, "" once cleared. */
    var errors: map<string, string>
    /** The fields that have been left at least once. */
    var touched: set<string>

    constructor (nome: string, email: string, consent: bool)
      ensures data == FormData(nome, email, consent, "") && errors == map[] && touched == {}
    {
      data := FormData(nome, email, consent, "");
      errors := map[];
      touched := {};
    }

    /** `isFieldInvalid`: left at least once, and holding a non-empty message. */
    predicate IsFieldInvalid(name: string)
      reads this
    {
      name in touched && name in errors && errors[name] != ""
    }

    /** `handleChange`: the field takes the value, and only its own message, if any, is cleared. */
    method HandleChange(name: string, value: Input)
      requires name in {"nome", "email", "consent", "honeypot"}
      requires name == "consent" <==> value.CheckInput?
      modifies this
      ensures data == WithField(old(data), name, value) && touched == old(touched)
      ensures name in old(errors) && old(errors)[name] != "" ==> errors == old(errors)[name := ""]
      ensures !(name in old(errors) && old(errors)[name] != "") ==> errors == old(errors)
      ensures !IsFieldInvalid(name)
      ensures forall other :: other != name ==>
        (other in errors <==> other in old(errors)) && (other in errors ==> errors[other] == old(errors)[other])
    {
      data := WithField(data, name, value);
      if name in errors && errors[name] != "" {
        errors := errors[name := ""];
      }
    }

    /** `handleBlur`: the field is touched and its message recomputed from the current data. */
    method HandleBlur(name: string)
      modifies this
      ensures touched == old(touched) + {name} && data == old(data)
      ensures errors == old(errors)[name := ValidateField(name, data)]
      ensures IsFieldInvalid(name) <==> ValidateField(name, data) != ""
    {
      touched := touched + {name};
      errors := errors[name := ValidateField(name, data)];
    }

    /** The effect that copies new props in: the trap field keeps its value. */
    method SyncProps(nome: string, email: string, consent: bool)
      modifies this
      ensures data == old(data).(nome := nome, email := email, consent := consent)
      ensures errors == old(errors) && touched == old(touched)
    {
      data := data.(nome := nome, email := email, consent := consent);
    }
  }
}
