/**
 * The account form (`UserFormModal`): its reset when it opens, field edits
 * that clear the field's error, the validation rules and the submit gate.
 */
module UserForm {
  import opened Wrappers
  import opened Schema
  import opened Http
  import opened Text

  // ---------------------------------------------------------------------------
  // The e-mail pattern
  // ---------------------------------------------------------------------------

  /**
   * The regular expression `\S+@\S+\.\S+` (unanchored, as `test` uses it) has
   * a match whose `@` is at `a` and whose escaped dot is at `b`: a non-space
   * character before the `@`, a non-empty run of non-space characters
   * between the two, and a non-space character after the dot.
   */
  predicate EmailMatchAt(s: string, a: int, b: int) {
    0 < a && a + 1 < b && b + 1 < |s|
    && s[a] == '@' && s[b] == '.'
    && !IsWhiteSpace(s[a - 1]) && !IsWhiteSpace(s[b + 1])
    && forall k :: a < k < b ==> !IsWhiteSpace(s[k])
  }

  /** The pattern matches somewhere in `s`. */
  predicate EmailPattern(s: string) {
    exists a, b :: 0 <= a < |s| && 0 <= b < |s| && EmailMatchAt(s, a, b)
  }

  /**
   * `/\S+@\S+\.\S+/.test(s)`: every `@` with a non-space character before it
   * is tried in turn, scanning the non-space run after it for a dot that is
   * not its first character and is followed by a non-space character.
   */
  method TestEmail(s: string) returns (ok: bool)
    ensures ok <==> EmailPattern(s)
  {
    var a := 0;
    while a < |s|
      invariant 0 <= a <= |s|
      invariant forall a', b :: 0 <= a' < a ==> !EmailMatchAt(s, a', b)
    {
      if a > 0 && s[a] == '@' && !IsWhiteSpace(s[a - 1]) {
        var b := a + 1;
        while b < |s| && !IsWhiteSpace(s[b])
          invariant a + 1 <= b <= |s|
          invariant forall k :: a < k < b ==> !IsWhiteSpace(s[k])
          invariant forall b' :: b' < b ==> !EmailMatchAt(s, a, b')
        {
          if s[b] == '.' && a + 1 < b && b + 1 < |s| && !IsWhiteSpace(s[b + 1]) {
            assert EmailMatchAt(s, a, b);
            return true;
          }
          b := b + 1;
        }
        assert forall b' :: b' >= b ==> !EmailMatchAt(s, a, b') by {
          forall b' | b' >= b ensures !EmailMatchAt(s, a, b') {
            if b' > b && b < |s| {
              assert a < b < b' && IsWhiteSpace(s[b]);
            }
          }
        }
      }
      a := a + 1;
    }
    return false;
  }

  // ---------------------------------------------------------------------------
  // Validation
  // ---------------------------------------------------------------------------

  datatype Mode = Create | Edit

  datatype Field = EmailField | PasswordField | RoleField

  /** The form's contents (`CreateUserData`). */
  datatype FormData = FormData(email: string, password: string, role: string)

  const EmailRequired := "L'email est requis"
  const EmailInvalid := "L'email n'est pas valide"
  const PasswordRequired := "Le mot de passe est requis"
  const PasswordTooShort := "Le mot de passe doit contenir au moins 6 caractères"
  const RoleRequired := "Le rôle est requis"

  /** The e-mail's error, if any: blank (nothing left after trimming), or not matching the pattern. */
  function EmailError(email: string): Option<string> {
    if AllWhiteSpace(email) then Some(EmailRequired)
    else if !EmailPattern(email) then Some(EmailInvalid)
    else None
  }

  /** The password's error, if any: only on creation, blank or shorter than six UTF-16 code units. */
  function PasswordError(password: string, mode: Mode): Option<string> {
    if mode == Create && AllWhiteSpace(password) then Some(PasswordRequired)
    else if mode == Create && Utf16Length(password) < 6 then Some(PasswordTooShort)
    else None
  }

  /** The role's error, if any: the empty role. */
  function RoleError(role: string): Option<string> {
    if role == "" then Some(RoleRequired) else None
  }

  /** `!s.trim()`: nothing is left once the white space is trimmed. */
  method Blank(s: string) returns (b: bool)
    ensures b <==> AllWhiteSpace(s)
  {
    b := Trim(s) == [];
  }

  /** The error map holding the errors present, each under its field. */
  function ErrorMap(email: Option<string>, password: Option<string>, role: Option<string>)
    : (errors: map<Field, string>)
    ensures EmailField in errors <==> email.Some?
    ensures PasswordField in errors <==> password.Some?
    ensures RoleField in errors <==> role.Some?
    ensures EmailField in errors ==> errors[EmailField] == email.value
    ensures PasswordField in errors ==> errors[PasswordField] == password.value
    ensures RoleField in errors ==> errors[RoleField] == role.value
  {
    var e1 := if email.Some? then map[EmailField := email.value] else map[];
    var e2 := if password.Some? then e1[PasswordField := password.value] else e1;
    if role.Some? then e2[RoleField := role.value] else e2
  }

  /** The map is empty exactly when no error is present. */
  lemma ErrorMapEmptyIff(email: Option<string>, password: Option<string>, role: Option<string>)
    ensures ErrorMap(email, password, role) == map[] <==> email.None? && password.None? && role.None?
  {
    var errors := ErrorMap(email, password, role);
    if errors != map[] {
      var f :| f in errors;
      assert f == EmailField || f == PasswordField || f == RoleField;
    }
  }

  /** The error map `validateForm` builds: one entry per field that has an error. */
  function ValidationErrors(d: FormData, mode: Mode): map<Field, string> {
    ErrorMap(EmailError(d.email), PasswordError(d.password, mode), RoleError(d.role))
  }

  /** Which message each field receives. */
  lemma ErrorMessages(d: FormData, mode: Mode)
    ensures AllWhiteSpace(d.email) ==> ValidationErrors(d, mode)[EmailField] == EmailRequired
    ensures !AllWhiteSpace(d.email) && !EmailPattern(d.email) ==>
      ValidationErrors(d, mode)[EmailField] == EmailInvalid
    ensures !AllWhiteSpace(d.email) && EmailPattern(d.email) ==> EmailField !in ValidationErrors(d, mode)
    ensures mode == Create && AllWhiteSpace(d.password) ==>
      ValidationErrors(d, mode)[PasswordField] == PasswordRequired
    ensures mode == Create && !AllWhiteSpace(d.password) && Utf16Length(d.password) < 6 ==>
      ValidationErrors(d, mode)[PasswordField] == PasswordTooShort
    ensures mode == Create && !AllWhiteSpace(d.password) && Utf16Length(d.password) >= 6 ==>
      PasswordField !in ValidationErrors(d, mode)
    ensures mode == Edit ==> PasswordField !in ValidationErrors(d, mode)
    ensures d.role == "" ==> ValidationErrors(d, mode)[RoleField] == RoleRequired
    ensures d.role != "" ==> RoleField !in ValidationErrors(d, mode)
  {
  }

  /** A form passes validation exactly when each field is acceptable on its own. */
  lemma ValidIff(d: FormData, mode: Mode)
    ensures ValidationErrors(d, mode) == map[] <==>
      !AllWhiteSpace(d.email) && EmailPattern(d.email) && d.role != ""
      && (mode == Create ==> !AllWhiteSpace(d.password) && Utf16Length(d.password) >= 6)
  {
    ErrorMapEmptyIff(EmailError(d.email), PasswordError(d.password, mode), RoleError(d.role));
  }

  /** The form `useEffect` puts in place when the modal opens. */
  function OpenedForm(mode: Mode, user: Option<UserRecord>): (d: FormData)
    ensures mode == Edit && user.Some? ==> d == FormData(user.value.email, "", user.value.role)
    ensures !(mode == Edit && user.Some?) ==> d == FormData("", "", "user")
    ensures d.password == ""
  {
    if mode == Edit && user.Some? then FormData(user.value.email, "", user.value.role)
    else FormData("", "", "user")
  }

  /** A form that has just been opened for creation needs an e-mail and a password. */
  lemma FreshCreateFormInvalid(user: Option<UserRecord>)
    ensures ValidationErrors(OpenedForm(Create, user), Create).Keys == {EmailField, PasswordField}
  {
    assert OpenedForm(Create, user) == FormData("", "", "user");
    var errors := ErrorMap(Some(EmailRequired), Some(PasswordRequired), None);
    assert ValidationErrors(OpenedForm(Create, user), Create) == errors;
    forall f ensures f in errors.Keys <==> f in {EmailField, PasswordField} {
      assert f == EmailField || f == PasswordField || f == RoleField;
    }
  }

  /** `handleChange(field, value)` on the contents: that field set, the others kept. */
  function WithField(d: FormData, f: Field, v: string): (r: FormData)
    ensures f == EmailField ==> r == d.(email := v)
    ensures f == PasswordField ==> r == d.(password := v)
    ensures f == RoleField ==> r == d.(role := v)
  {
    match f
    case EmailField => d.(email := v)
    case PasswordField => d.(password := v)
    case RoleField => d.(role := v)
  }

  class Form {
    var mode: Mode
    var formData: FormData
    var errors: map<Field, string>
    var loading: bool

    constructor (mode: Mode)
      ensures this.mode == mode && formData == FormData("", "", "user")
      ensures errors == map[] && !loading
    {
      this.mode := mode;
      formData := FormData("", "", "user");
      errors := map[];
      loading := false;
    }

    /** The reset effect: on opening, the form is refilled and the errors cleared; closed, nothing changes. */
    method OnOpen(isOpen: bool, m: Mode, user: Option<UserRecord>)
      modifies this
      ensures mode == m && loading == old(loading)
      ensures isOpen ==> formData == OpenedForm(m, user) && errors == map[]
      ensures !isOpen ==> formData == old(formData) && errors == old(errors)
    {
      mode := m;
      if isOpen {
        formData := OpenedForm(m, user);
        errors := map[];
      }
    }

    /**
     * `validateForm`: the checks fill a fresh error map one field at a time;
     * the map is stored and the form is valid when it is empty.
     */
    method ValidateForm() returns (valid: bool)
      modifies this
      ensures errors == ValidationErrors(formData, mode)
      ensures valid <==> errors == map[]
      ensures formData == old(formData) && mode == old(mode) && loading == old(loading)
    {
      var newErrors: map<Field, string> := map[];
      ghost var emailError := EmailError(formData.email);
      ghost var passwordError := PasswordError(formData.password, mode);
      ghost var roleError := RoleError(formData.role);
      var emailBlank := Blank(formData.email);
      var passwordBlank := Blank(formData.password);
      if emailBlank {
        newErrors := newErrors[EmailField := EmailRequired];
      } else {
        var matches := TestEmail(formData.email);
        if !matches {
          newErrors := newErrors[EmailField := EmailInvalid];
        }
      }
      assert newErrors == if emailError.Some? then map[EmailField := emailError.value] else map[];
      ghost var e1 := newErrors;
      if mode == Create && passwordBlank {
        newErrors := newErrors[PasswordField := PasswordRequired];
      } else if mode == Create && Utf16Length(formData.password) < 6 {
        newErrors := newErrors[PasswordField := PasswordTooShort];
      }
      assert newErrors == if passwordError.Some? then e1[PasswordField := passwordError.value] else e1;
      ghost var e2 := newErrors;
      if formData.role == "" {
        newErrors := newErrors[RoleField := RoleRequired];
      }
      assert newErrors == if roleError.Some? then e2[RoleField := roleError.value] else e2;
      assert newErrors == ErrorMap(emailError, passwordError, roleError);
      errors := newErrors;
      valid := |newErrors.Keys| == 0;
      assert valid <==> errors == map[] by {
        if |newErrors.Keys| == 0 {
          assert newErrors.Keys == {};
        }
      }
    }

    /** `handleChange(field, value)`: the field is set and only its error, if shown, is removed. */
    method HandleChange(f: Field, v: string)
      modifies this
      ensures formData == WithField(old(formData), f, v)
      ensures f in old(errors) && old(errors)[f] != "" ==> errors == old(errors) - {f}
      ensures !(f in old(errors) && old(errors)[f] != "") ==> errors == old(errors)
      ensures mode == old(mode) && loading == old(loading)
    {
      formData := WithField(formData, f, v);
      if f in errors && errors[f] != "" {
        errors := errors - {f};
      }
    }

    /**
     * `handleSubmit`: an invalid form is not submitted; a valid one is handed
     * to `onSubmit` (whose outcome is `outcome`) and the modal is closed only
     * when that succeeds. Loading is down afterwards.
     */
    method HandleSubmit(outcome: Response<()>) returns (submitted: bool, closed: bool)
      modifies this
      ensures errors == ValidationErrors(old(formData), old(mode))
      ensures submitted <==> errors == map[]
      ensures closed <==> submitted && outcome.Ok?
      ensures !submitted ==> loading == old(loading)
      ensures submitted ==> !loading
      ensures formData == old(formData) && mode == old(mode)
    {
      var valid := ValidateForm();
      if !valid {
        return false, false;
      }
      loading := true;
      submitted := true;
      closed := outcome.Ok?;
      loading := false;
    }
  }
}
