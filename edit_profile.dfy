/** The profile edit form: field edits that clear the field's error, a
    validation that fills in the error messages step by step, and a submit that
    hands the form to its owner only when validation passes. */
module EditProfile {
  import opened Common

  datatype User = User(name: string, email: string, phone: string, address: string)

  datatype FormData = FormData(
    name: string, email: string, phone: string, address: string,
    orderUpdates: bool, promotionalEmails: bool, bio: string)

  datatype FormErrors = FormErrors(name: string, email: string, phone: string)

  const NoErrors: FormErrors := FormErrors("", "", "")

  /** The form's text inputs, by their `name` attribute. */
  datatype TextField = NameField | EmailField | PhoneField | AddressField | BioField

  datatype SwitchField = OrderUpdates | PromotionalEmails

  /** `/\S+@\S+\.\S+/.test(s)`: somewhere in `s` a non-space, an `@`, one or
      more non-spaces, a `.` and a non-space follow each other. */
  predicate EmailPattern(s: string)
  {
    exists a, d :: 0 < a < d < |s| && EmailAt(s, a, d)
  }

  /** The pattern matches with its `@` at `a` and its `.` at `d`. */
  predicate EmailAt(s: string, a: int, d: int)
  {
    1 <= a && a + 1 < d && d + 1 < |s| && s[a] == '@' && s[d] == '.'
    && !IsSpace(s[a - 1]) && !IsSpace(s[d + 1]) && NoSpaceBetween(s, a, d)
  }

  predicate NoSpaceBetween(s: string, a: int, d: int)
    requires 0 <= a <= d <= |s|
  {
    forall k :: a < k < d ==> !IsSpace(s[k])
  }

  /** A string the pattern matches is never blank. */
  lemma EmailPatternNotBlank(s: string)
    requires EmailPattern(s)
    ensures !Blank(s) && Trim(s) != ""
  {
    var a, d :| 0 < a < d < |s| && EmailAt(s, a, d);
    assert s[a] == '@' && !IsSpace(s[a]);
    TrimEmptyIffBlank(s);
  }

  lemma EmailPatternExamples()
    ensures EmailPattern("a@b.c")
    ensures !EmailPattern("a@b")
    ensures !EmailPattern("@b.c")
    ensures !EmailPattern("a@.c")
  {
    var s := "a@b.c";
    assert !IsSpace(s[0]) && !IsSpace(s[2]) && !IsSpace(s[4]);
    assert NoSpaceBetween(s, 1, 3);
    assert EmailAt(s, 1, 3);
  }

  /** The messages `validateForm` leaves for a form. */
  function ExpectedErrors(f: FormData): (e: FormErrors)
    ensures e.phone == ""
    ensures e.name == "Name is required" <==> Trim(f.name) == ""
    ensures e.name != "Name is required" ==> e.name == ""
    ensures e.email == "Email is required" <==> Trim(f.email) == ""
    ensures e.email == "Email is invalid" <==> Trim(f.email) != "" && !EmailPattern(f.email)
    ensures e.email == "" <==> Trim(f.email) != "" && EmailPattern(f.email)
  {
    FormErrors(
      if Trim(f.name) == "" then "Name is required" else "",
      if Trim(f.email) == "" then "Email is required" else if !EmailPattern(f.email) then "Email is invalid" else "",
      "")
  }

  /** Validation passes exactly when it leaves no message, that is when the
      name is not blank and the email matches the pattern. */
  lemma ValidIffNoErrors(f: FormData)
    ensures ExpectedErrors(f) == NoErrors <==> Trim(f.name) != "" && EmailPattern(f.email)
  {
    if EmailPattern(f.email) {
      EmailPatternNotBlank(f.email);
    }
  }

  class EditProfileForm {
    var formData: FormData
    var errors: FormErrors

    /** The form starts from the user's fields, an absent user or field giving "". */
    constructor (user: Option<User>)
      ensures user.None? ==> formData == FormData("", "", "", "", true, true, "")
      ensures user.Some? ==>
                formData == FormData(user.value.name, user.value.email, user.value.phone, user.value.address, true, true, "")
      ensures errors == NoErrors
    {
      if user.Some? {
        formData := FormData(user.value.name, user.value.email, user.value.phone, user.value.address, true, true, "");
      } else {
        formData := FormData("", "", "", "", true, true, "");
      }
      errors := NoErrors;
    }

    /** `handleChange`: the edited field takes the value and its error, if it
        has one, is cleared; nothing else changes. */
    method HandleChange(field: TextField, value: string)
      modifies this
      ensures formData == match field
                          case NameField => old(formData).(name := value)
                          case EmailField => old(formData).(email := value)
                          case PhoneField => old(formData).(phone := value)
                          case AddressField => old(formData).(address := value)
                          case BioField => old(formData).(bio := value)
      ensures errors == match field
                        case NameField => old(errors).(name := "")
                        case EmailField => old(errors).(email := "")
                        case PhoneField => old(errors).(phone := "")
                        case _ => old(errors)
    {
      match field {
        case NameField =>
          formData := formData.(name := value);
          if errors.name != "" { errors := errors.(name := ""); }
        case EmailField =>
          formData := formData.(email := value);
          if errors.email != "" { errors := errors.(email := ""); }
        case PhoneField =>
          formData := formData.(phone := value);
          if errors.phone != "" { errors := errors.(phone := ""); }
        case AddressField =>
          formData := formData.(address := value);
        case BioField =>
          formData := formData.(bio := value);
      }
    }

    method HandleSwitchChange(field: SwitchField, checked: bool)
      modifies this
      ensures formData == match field
                          case OrderUpdates => old(formData).(orderUpdates := checked)
                          case PromotionalEmails => old(formData).(promotionalEmails := checked)
      ensures errors == old(errors)
    {
      match field {
        case OrderUpdates => formData := formData.(orderUpdates := checked);
        case PromotionalEmails => formData := formData.(promotionalEmails := checked);
      }
    }

    /** `validateForm`. */
    method ValidateForm() returns (valid: bool)
      modifies this
      ensures errors == ExpectedErrors(formData) && formData == old(formData)
      ensures valid <==> errors == NoErrors
      ensures valid <==> Trim(formData.name) != "" && EmailPattern(formData.email)
    {
      valid := true;
      var newErrors := NoErrors;
      if Trim(formData.name) == "" {
        newErrors := newErrors.(name := "Name is required");
        valid := false;
      }
      if Trim(formData.email) == "" {
        newErrors := newErrors.(email := "Email is required");
        valid := false;
      } else if !EmailPattern(formData.email) {
        newErrors := newErrors.(email := "Email is invalid");
        valid := false;
      }
      errors := newErrors;
      ValidIffNoErrors(formData);
    }

    /** `handleSubmit`: the form is handed to `onSave` only when it validates. */
    method HandleSubmit() returns (saved: Option<FormData>)
      modifies this
      ensures errors == ExpectedErrors(formData) && formData == old(formData)
      ensures saved.Some? <==> errors == NoErrors
      ensures saved.Some? ==> saved.value == formData && EmailPattern(saved.value.email)
    {
      var valid := ValidateForm();
      if valid {
        saved := Some(formData);
      } else {
        saved := None;
      }
    }
  }
}
