/** The profile page (client/src/pages/profile/Profile.js): the profile and
    password forms, their validation, the change handler, and the state after a
    successful password change. */
module Profile {
  import opened Common
  import opened FormRules

  const CurrentRequired := "Current password is required"
  const NewRequired := "New password is required"
  const ConfirmNewRequired := "Please confirm your new password"

  datatype ProfileForm = ProfileForm(name: string, email: string, currentPassword: string,
                                     newPassword: string, confirmPassword: string)

  datatype ProfileField = NameField | EmailField | CurrentField | NewField | ConfirmField

  /** The input's `name` attribute, which is also its key in the error map. */
  function FieldKey(f: ProfileField): string
  {
    match f
    case NameField => "name" case EmailField => "email" case CurrentField => "currentPassword"
    case NewField => "newPassword" case ConfirmField => "confirmPassword"
  }

  function FieldValue(form: ProfileForm, f: ProfileField): string
  {
    match f
    case NameField => form.name case EmailField => form.email case CurrentField => form.currentPassword
    case NewField => form.newPassword case ConfirmField => form.confirmPassword
  }

  /** The fields of the signed-in user the form copies. */
  datatype SignedInUser = SignedInUser(name: Option<string>, email: Option<string>)

  /** The effect on `user`: with no signed-in user the form is left alone; otherwise
      `user.name || ''` and `user.email || ''`, the password fields kept. */
  function LoadUser(form: ProfileForm, user: Option<SignedInUser>): (r: ProfileForm)
    ensures user.None? ==> r == form
    ensures user.Some? ==> r.name == Override(user.value.name, "") && r.email == Override(user.value.email, "")
    ensures r.currentPassword == form.currentPassword && r.newPassword == form.newPassword
    ensures r.confirmPassword == form.confirmPassword
  {
    if user.None? then form
    else
      form.(name := if TruthyStr(user.value.name) then user.value.name.value else "",
            email := if TruthyStr(user.value.email) then user.value.email.value else "")
  }

  predicate ProfileValid(form: ProfileForm)
  {
    NameError(form.name).None? && EmailError(form.email).None?
  }

  /** `validateProfileForm`: the name and email rules of the registration form. */
  method ValidateProfileForm(form: ProfileForm) returns (errors: map<string, string>, valid: bool)
    ensures errors.Keys <= {"name", "email"}
    ensures "name" in errors <==> NameError(form.name).Some?
    ensures "name" in errors ==> errors["name"] == NameError(form.name).value
    ensures "email" in errors <==> EmailError(form.email).Some?
    ensures "email" in errors ==> errors["email"] == EmailError(form.email).value
    ensures valid <==> |errors| == 0
    ensures valid <==> ProfileValid(form)
  {
    errors := map[];
    if IsBlank(form.name) {
      errors := errors["name" := NameRequired];
    } else if |form.name| < MinNameLength {
      errors := errors["name" := NameTooShort];
    }
    if IsBlank(form.email) {
      errors := errors["email" := EmailRequired];
    } else if !EmailPattern(form.email) {
      errors := errors["email" := EmailInvalid];
    }
    valid := |errors| == 0;
    if !valid {
      assert errors.Keys != {};
    }
  }

  predicate PasswordValid(form: ProfileForm)
  {
    form.currentPassword != ""
    && PasswordError(form.newPassword, NewRequired).None?
    && ConfirmError(form.newPassword, form.confirmPassword, ConfirmNewRequired).None?
  }

  /** `validatePasswordForm`: the current password is required, the new one needs six
      characters, and the confirmation must repeat it. */
  method ValidatePasswordForm(form: ProfileForm) returns (errors: map<string, string>, valid: bool)
    ensures errors.Keys <= {"currentPassword", "newPassword", "confirmPassword"}
    ensures "currentPassword" in errors <==> form.currentPassword == ""
    ensures "currentPassword" in errors ==> errors["currentPassword"] == CurrentRequired
    ensures "newPassword" in errors <==> PasswordError(form.newPassword, NewRequired).Some?
    ensures "newPassword" in errors ==> errors["newPassword"] == PasswordError(form.newPassword, NewRequired).value
    ensures "confirmPassword" in errors <==> ConfirmError(form.newPassword, form.confirmPassword, ConfirmNewRequired).Some?
    ensures "confirmPassword" in errors ==>
      errors["confirmPassword"] == ConfirmError(form.newPassword, form.confirmPassword, ConfirmNewRequired).value
    ensures valid <==> |errors| == 0
    ensures valid <==> PasswordValid(form)
  {
    errors := map[];
    if form.currentPassword == "" {
      errors := errors["currentPassword" := CurrentRequired];
    }
    if form.newPassword == "" {
      errors := errors["newPassword" := NewRequired];
    } else if |form.newPassword| < MinPasswordLength {
      errors := errors["newPassword" := PasswordTooShort];
    }
    if form.confirmPassword == "" {
      errors := errors["confirmPassword" := ConfirmNewRequired];
    } else if form.newPassword != form.confirmPassword {
      errors := errors["confirmPassword" := PasswordsDiffer];
    }
    valid := |errors| == 0;
    if !valid {
      assert errors.Keys != {};
    }
  }

  /** The password form is accepted exactly when a current password is given and the
      new one has six characters and is confirmed. */
  lemma PasswordValidMeans(form: ProfileForm)
    ensures PasswordValid(form) <==>
      form.currentPassword != "" && |form.newPassword| >= MinPasswordLength
      && form.confirmPassword == form.newPassword
  {
    if form.confirmPassword == form.newPassword && |form.newPassword| >= MinPasswordLength {
      assert form.confirmPassword != "";
    }
  }

  /** The form after a successful password update: the three password fields are
      emptied, name and email stay. */
  function PasswordUpdated(form: ProfileForm): (r: ProfileForm)
    ensures r.name == form.name && r.email == form.email
    ensures r.currentPassword == "" && r.newPassword == "" && r.confirmPassword == ""
  {
    form.(currentPassword := "", newPassword := "", confirmPassword := "")
  }

  /** After the reset the profile form is exactly as valid as before, and the password
      form must be filled in again. */
  lemma ResetKeepsProfile(form: ProfileForm)
    ensures ProfileValid(PasswordUpdated(form)) == ProfileValid(form)
    ensures !PasswordValid(PasswordUpdated(form))
  {
  }

  datatype ProfileState = ProfileState(form: ProfileForm, errors: map<string, string>)

  function WithField(form: ProfileForm, f: ProfileField, value: string): (r: ProfileForm)
    ensures FieldValue(r, f) == value
    ensures forall g :: g != f ==> FieldValue(r, g) == FieldValue(form, g)
  {
    match f
    case NameField => form.(name := value)
    case EmailField => form.(email := value)
    case CurrentField => form.(currentPassword := value)
    case NewField => form.(newPassword := value)
    case ConfirmField => form.(confirmPassword := value)
  }

  /** `handleChange`: the edited field takes the new value and its error, if any, is
      cleared; the other fields and their errors are untouched. */
  function HandleChange(s: ProfileState, f: ProfileField, value: string): (r: ProfileState)
    ensures FieldValue(r.form, f) == value
    ensures forall g :: g != f ==> FieldValue(r.form, g) == FieldValue(s.form, g)
    ensures r.errors.Keys == s.errors.Keys
    ensures forall k :: k in s.errors && k != FieldKey(f) ==> r.errors[k] == s.errors[k]
    ensures FieldKey(f) in r.errors ==> r.errors[FieldKey(f)] == ""
  {
    ProfileState(WithField(s.form, f, value), ClearError(s.errors, FieldKey(f)))
  }
}
