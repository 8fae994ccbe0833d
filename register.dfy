/** The registration page: a four-field form and a terms checkbox. A submit
    checks that the passwords agree, then that the terms are accepted, and only
    then starts a simulated registration that ends on the profile page. */
module Register {
  datatype RegisterForm = RegisterForm(name: string, email: string, password: string, confirmPassword: string)

  const EmptyRegisterForm: RegisterForm := RegisterForm("", "", "", "")

  /** The form's inputs, by the field name `handleInputChange` receives. */
  datatype RegisterField = NameField | EmailField | PasswordField | ConfirmPasswordField

  /** What a press of the submit button leads to. `Blocked` is the browser's
      `required` check (or the disabled button) stopping the submit before the
      handler runs. */
  datatype Attempt = Blocked | PasswordMismatch | TermsNotAccepted | Started

  const ProfileRoute: string := "/profile"

  /** The browser's `required` check: all four inputs are non-empty. */
  predicate Filled(f: RegisterForm)
  {
    f.name != "" && f.email != "" && f.password != "" && f.confirmPassword != ""
  }

  /** The outcome of a submit: the password check comes before the terms check,
      so a mismatch is reported even when the terms are not accepted. */
  function AttemptOutcome(f: RegisterForm, acceptTerms: bool, isLoading: bool): (a: Attempt)
    ensures a == Blocked <==> isLoading || !Filled(f)
    ensures a == PasswordMismatch <==> !isLoading && Filled(f) && f.password != f.confirmPassword
    ensures a == TermsNotAccepted <==> !isLoading && Filled(f) && f.password == f.confirmPassword && !acceptTerms
    ensures a == Started <==> !isLoading && Filled(f) && f.password == f.confirmPassword && acceptTerms
  {
    if isLoading || !Filled(f) then Blocked
    else if f.password != f.confirmPassword then PasswordMismatch
    else if !acceptTerms then TermsNotAccepted
    else Started
  }

  function FieldValue(f: RegisterForm, field: RegisterField): string
  {
    match field
    case NameField => f.name
    case EmailField => f.email
    case PasswordField => f.password
    case ConfirmPasswordField => f.confirmPassword
  }

  /** The form after `handleInputChange(field, value)`: the field reads back the
      value and every other field is kept. */
  function WithField(f: RegisterForm, field: RegisterField, value: string): (g: RegisterForm)
    ensures FieldValue(g, field) == value
    ensures forall other :: other != field ==> FieldValue(g, other) == FieldValue(f, other)
  {
    match field
    case NameField => f.(name := value)
    case EmailField => f.(email := value)
    case PasswordField => f.(password := value)
    case ConfirmPasswordField => f.(confirmPassword := value)
  }

  /** Typing a field's old text back restores the form, and of two edits of one
      field only the last counts. */
  lemma WithFieldRestores(f: RegisterForm, field: RegisterField, v: string, w: string)
    ensures WithField(WithField(f, field, v), field, FieldValue(f, field)) == f
    ensures WithField(WithField(f, field, v), field, w) == WithField(f, field, w)
  {
  }

  /** Typing the password into the confirmation field (of a filled form with
      the terms accepted) is what it takes for a submit to start. */
  lemma ConfirmingPasswordStarts(f: RegisterForm)
    requires Filled(f)
    ensures AttemptOutcome(WithField(f, ConfirmPasswordField, f.password), true, false) == Started
    ensures AttemptOutcome(WithField(f, ConfirmPasswordField, f.password), false, false) == TermsNotAccepted
  {
  }

  class RegisterPage {
    var formData: RegisterForm
    var acceptTerms: bool
    var isLoading: bool

    constructor ()
      ensures formData == EmptyRegisterForm && !acceptTerms && !isLoading
    {
      formData := EmptyRegisterForm;
      acceptTerms := false;
      isLoading := false;
    }

    method InputChange(field: RegisterField, value: string)
      modifies this
      ensures formData == WithField(old(formData), field, value)
      ensures acceptTerms == old(acceptTerms) && isLoading == old(isLoading)
    {
      match field {
        case NameField => formData := formData.(name := value);
        case EmailField => formData := formData.(email := value);
        case PasswordField => formData := formData.(password := value);
        case ConfirmPasswordField => formData := formData.(confirmPassword := value);
      }
    }

    /** The terms checkbox. */
    method SetAcceptTerms(checked: bool)
      modifies this
      ensures acceptTerms == checked && formData == old(formData) && isLoading == old(isLoading)
    {
      acceptTerms := checked;
    }

    /** `handleRegister` up to its delay: a rejected submit changes nothing; a
        started one raises the loading flag, which disables the button. */
    method Register() returns (outcome: Attempt)
      modifies this
      ensures outcome == AttemptOutcome(old(formData), old(acceptTerms), old(isLoading))
      ensures isLoading <==> old(isLoading) || outcome == Started
      ensures formData == old(formData) && acceptTerms == old(acceptTerms)
    {
      if isLoading || !Filled(formData) {
        return Blocked;
      }
      if formData.password != formData.confirmPassword {
        return PasswordMismatch;
      }
      if !acceptTerms {
        return TermsNotAccepted;
      }
      isLoading := true;
      outcome := Started;
    }

    /** The registration delay has passed: loading ends and the visitor is sent
        to the profile page. */
    method CompleteRegister() returns (route: string)
      requires isLoading
      modifies this
      ensures !isLoading && route == ProfileRoute
      ensures formData == old(formData) && acceptTerms == old(acceptTerms)
    {
      isLoading := false;
      route := ProfileRoute;
    }
  }
}
