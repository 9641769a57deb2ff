/** The registration form: its fields, its validation and its submit handler. */
module RegisterScreen {
  import opened Wrappers
  import opened Http
  import opened AuthContext

  datatype RegisterForm = RegisterForm(
    email: string, password: string, confirmPassword: string,
    firstName: string, lastName: string, userName: string)

  const EmptyForm := RegisterForm("", "", "", "", "", "")

  /** The six inputs of the form. */
  datatype FormField = Email | Password | ConfirmPassword | FirstName | LastName | UserName

  const PasswordMismatch := "Passwords do not match"
  const PasswordTooShort := "Password must be at least 6 characters long"
  const RegistrationFailed := "Registration failed. Please try again."
  const MinPasswordLength := 6
  const HomePath := "/"

  function FieldValue(form: RegisterForm, field: FormField): string {
    match field
    case Email => form.email
    case Password => form.password
    case ConfirmPassword => form.confirmPassword
    case FirstName => form.firstName
    case LastName => form.lastName
    case UserName => form.userName
  }

  /** An input's `onChange`: `{...formData, [field]: value}`. */
  function WithField(form: RegisterForm, field: FormField, value: string): (r: RegisterForm)
    ensures FieldValue(r, field) == value
    ensures forall other :: other != field ==> FieldValue(r, other) == FieldValue(form, other)
  {
    match field
    case Email => form.(email := value)
    case Password => form.(password := value)
    case ConfirmPassword => form.(confirmPassword := value)
    case FirstName => form.(firstName := value)
    case LastName => form.(lastName := value)
    case UserName => form.(userName := value)
  }

  /**
   * The client-side checks, in order: the two passwords must match, then the
   * password must be at least six characters long.
   */
  function ValidationError(form: RegisterForm): (r: Option<string>)
    ensures r.None? <==> form.password == form.confirmPassword && |form.password| >= MinPasswordLength
    ensures form.password != form.confirmPassword ==> r == Some(PasswordMismatch)
    ensures form.password == form.confirmPassword && |form.password| < MinPasswordLength ==>
      r == Some(PasswordTooShort)
  {
    if form.password != form.confirmPassword then Some(PasswordMismatch)
    else if |form.password| < MinPasswordLength then Some(PasswordTooShort)
    else None
  }

  /** The payload `register` receives: the form without the confirmation. */
  function ToRegisterRequest(form: RegisterForm): (r: RegisterRequest)
    ensures r.email == form.email && r.password == form.password
    ensures r.firstName == form.firstName && r.lastName == form.lastName && r.userName == form.userName
  {
    RegisterRequest(form.email, form.password, form.firstName, form.lastName, form.userName)
  }

  /** The confirmation field never reaches the server. */
  lemma ConfirmationNotSent(form: RegisterForm, value: string)
    ensures ToRegisterRequest(WithField(form, ConfirmPassword, value)) == ToRegisterRequest(form)
  {
  }

  /** A short password that is also mismatched reports the mismatch: the checks run in order. */
  lemma MismatchReportedFirst(form: RegisterForm)
    requires form.password != form.confirmPassword && |form.password| < MinPasswordLength
    ensures ValidationError(form) == Some(PasswordMismatch)
  {
  }

  /** The screen's state: the form, the error banner, the busy flag and the paths navigated to. */
  class Screen {
    var formData: RegisterForm
    var error: Option<string>
    var isLoading: bool
    var navigations: seq<string>

    constructor ()
      ensures formData == EmptyForm && error == None && !isLoading && navigations == []
    {
      formData := EmptyForm;
      error := None;
      isLoading := false;
      navigations := [];
    }

    /** An edit of one input changes that field of the form and nothing else. */
    method EditField(field: FormField, value: string)
      modifies this
      ensures formData == WithField(old(formData), field, value)
      ensures error == old(error) && isLoading == old(isLoading) && navigations == old(navigations)
    {
      formData := WithField(formData, field, value);
    }

    /**
     * `handleSubmit`: clears the error, validates, and only if the form is
     * valid calls `register` with the form minus the confirmation; returns the
     * payload sent, if any. Every path ends with `isLoading` false.
     */
    method HandleSubmit(auth: AuthProvider, registerExchange: Exchange<Body>,
                        loginExchange: Exchange<LoginResponse>) returns (sent: Option<RegisterRequest>)
      requires auth.Valid()
      modifies this, auth
      ensures auth.Valid()
      ensures formData == old(formData) && !isLoading
      ensures sent.None? <==> ValidationError(old(formData)).Some?
      ensures ValidationError(old(formData)).Some? ==>
        && error == ValidationError(old(formData))
        && navigations == old(navigations)
        && auth.Snapshot() == old(auth.Snapshot())
      ensures sent.Some? ==>
        var o := RegisterStep(old(auth.Snapshot()), sent.value, registerExchange, loginExchange);
        && sent.value == ToRegisterRequest(old(formData))
        && auth.Snapshot() == o.session
        && (o.result ==> error == None && navigations == old(navigations) + [HomePath])
        && (!o.result ==> error == Some(RegistrationFailed) && navigations == old(navigations))
    {
      error := None;
      isLoading := true;

      if formData.password != formData.confirmPassword {
        error := Some(PasswordMismatch);
        isLoading := false;
        return None;
      }

      if |formData.password| < MinPasswordLength {
        error := Some(PasswordTooShort);
        isLoading := false;
        return None;
      }

      var request := ToRegisterRequest(formData);
      sent := Some(request);
      var success := auth.Register(request, registerExchange, loginExchange);
      if success {
        navigations := navigations + [HomePath];
      } else {
        error := Some(RegistrationFailed);
      }
      isLoading := false;
    }
  }
}
