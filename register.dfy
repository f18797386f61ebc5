/** The registration form (client/src/pages/auth/Register.js): its validation and
    its change handler. */
module Register {
  import opened Common
  import opened FormRules

  const PasswordRequired := "Password is required"
  const ConfirmRequired := "Please confirm your password"

  datatype RegisterForm = RegisterForm(name: string, email: string, password: string, confirmPassword: string)

  datatype RegisterField = NameField | EmailField | PasswordField | ConfirmField

  /** The input's `name` attribute, which is also its key in the error map. */
  function FieldKey(f: RegisterField): string
  {
    match f
    case NameField => "name" case EmailField => "email"
    case PasswordField => "password" case ConfirmField => "confirmPassword"
  }

  function FieldValue(form: RegisterForm, f: RegisterField): string
  {
    match f
    case NameField => form.name case EmailField => form.email
    case PasswordField => form.password case ConfirmField => form.confirmPassword
  }

  /** Every rule of the form passes. */
  predicate RegisterValid(form: RegisterForm)
  {
    NameError(form.name).None? && EmailError(form.email).None?
    && PasswordError(form.password, PasswordRequired).None?
    && ConfirmError(form.password, form.confirmPassword, ConfirmRequired).None?
  }

  /** `validateForm`: records the first failing rule of each field under the field's
      key, and reports the form valid exactly when nothing was recorded. */
  method ValidateForm(form: RegisterForm) returns (errors: map<string, string>, valid: bool)
    ensures errors.Keys <= {"name", "email", "password", "confirmPassword"}
    ensures "name" in errors <==> NameError(form.name).Some?
    ensures "name" in errors ==> errors["name"] == NameError(form.name).value
    ensures "email" in errors <==> EmailError(form.email).Some?
    ensures "email" in errors ==> errors["email"] == EmailError(form.email).value
    ensures "password" in errors <==> PasswordError(form.password, PasswordRequired).Some?
    ensures "password" in errors ==> errors["password"] == PasswordError(form.password, PasswordRequired).value
    ensures "confirmPassword" in errors <==> ConfirmError(form.password, form.confirmPassword, ConfirmRequired).Some?
    ensures "confirmPassword" in errors ==>
      errors["confirmPassword"] == ConfirmError(form.password, form.confirmPassword, ConfirmRequired).value
    ensures valid <==> |errors| == 0
    ensures valid <==> RegisterValid(form)
  {
    errors := map[];
    if IsBlank(form.name) {
      errors := errors["name" := NameRequired];
    } else if |form.name| < MinNameLength {
      errors := errors["name" := NameTooShort];
    }
    ghost var afterName := errors;
    assert afterName == Note(map[], "name", NameError(form.name));
    if IsBlank(form.email) {
      errors := errors["email" := EmailRequired];
    } else if !EmailPattern(form.email) {
      errors := errors["email" := EmailInvalid];
    }
    ghost var afterEmail := errors;
    assert afterEmail == Note(afterName, "email", EmailError(form.email));
    if form.password == "" {
      errors := errors["password" := PasswordRequired];
    } else if |form.password| < MinPasswordLength {
      errors := errors["password" := PasswordTooShort];
    }
    ghost var afterPassword := errors;
    assert afterPassword == Note(afterEmail, "password", PasswordError(form.password, PasswordRequired));
    if form.confirmPassword == "" {
      errors := errors["confirmPassword" := ConfirmRequired];
    } else if form.password != form.confirmPassword {
      errors := errors["confirmPassword" := PasswordsDiffer];
    }
    assert errors == Note(afterPassword, "confirmPassword",
                          ConfirmError(form.password, form.confirmPassword, ConfirmRequired));
    FourNotes(NameError(form.name), EmailError(form.email), PasswordError(form.password, PasswordRequired),
              ConfirmError(form.password, form.confirmPassword, ConfirmRequired));
    valid := |errors| == 0;
  }

  /** Records an error, if there is one, under its key. */
  function Note(errors: map<string, string>, key: string, e: Option<string>): (r: map<string, string>)
    ensures e.None? ==> r == errors
    ensures e.Some? ==> r == errors[key := e.value]
  {
    if e.Some? then errors[key := e.value] else errors
  }

  /** Noting four optional errors under the form's four keys records exactly the
      errors there are, and nothing when there are none. */
  lemma FourNotes(n: Option<string>, e: Option<string>, p: Option<string>, c: Option<string>)
    ensures var m := Note(Note(Note(Note(map[], "name", n), "email", e), "password", p), "confirmPassword", c);
      m.Keys <= {"name", "email", "password", "confirmPassword"}
      && ("name" in m <==> n.Some?) && ("name" in m ==> m["name"] == n.value)
      && ("email" in m <==> e.Some?) && ("email" in m ==> m["email"] == e.value)
      && ("password" in m <==> p.Some?) && ("password" in m ==> m["password"] == p.value)
      && ("confirmPassword" in m <==> c.Some?) && ("confirmPassword" in m ==> m["confirmPassword"] == c.value)
      && (|m| == 0 <==> n.None? && e.None? && p.None? && c.None?)
  {
    var m := Note(Note(Note(Note(map[], "name", n), "email", e), "password", p), "confirmPassword", c);
    if n.Some? || e.Some? || p.Some? || c.Some? {
      var k := if n.Some? then "name" else if e.Some? then "email"
               else if p.Some? then "password" else "confirmPassword";
      assert k in m.Keys;
      assert |m.Keys| > 0;
    }
  }

  /** The form is accepted exactly when the name is not blank and has two characters,
      the email matches the pattern, the password has six characters and the
      confirmation repeats it. */
  lemma RegisterValidMeans(form: RegisterForm)
    ensures RegisterValid(form) <==>
      !IsBlank(form.name) && |form.name| >= MinNameLength && EmailPattern(form.email)
      && |form.password| >= MinPasswordLength && form.confirmPassword == form.password
  {
    if form.confirmPassword == form.password && |form.password| >= MinPasswordLength {
      assert form.confirmPassword != "";
    }
  }

  datatype RegisterState = RegisterState(form: RegisterForm, errors: map<string, string>)

  function WithField(form: RegisterForm, f: RegisterField, value: string): (r: RegisterForm)
    ensures FieldValue(r, f) == value
    ensures forall g :: g != f ==> FieldValue(r, g) == FieldValue(form, g)
  {
    match f
    case NameField => form.(name := value)
    case EmailField => form.(email := value)
    case PasswordField => form.(password := value)
    case ConfirmField => form.(confirmPassword := value)
  }

  /** `handleChange`: the edited field takes the new value and its error, if any, is
      cleared; the other fields and their errors are untouched. */
  function HandleChange(s: RegisterState, f: RegisterField, value: string): (r: RegisterState)
    ensures FieldValue(r.form, f) == value
    ensures forall g :: g != f ==> FieldValue(r.form, g) == FieldValue(s.form, g)
    ensures r.errors.Keys == s.errors.Keys
    ensures forall k :: k in s.errors && k != FieldKey(f) ==> r.errors[k] == s.errors[k]
    ensures FieldKey(f) in r.errors ==> r.errors[FieldKey(f)] == ""
  {
    RegisterState(WithField(s.form, f, value), ClearError(s.errors, FieldKey(f)))
  }
}
