/** The sign-up form: its three own validators, `isFormValid` and the check made on submit. */
module Signup {
  import JsString
  import opened Validators

  /** `validateName`: blank after trimming is missing; otherwise the untrimmed length must reach 3. */
  function ValidateName(name: string): (r: string)
    ensures r == "Name is required" <==> JsString.Trim(name) == ""
    ensures r == "Name must be at least 3 characters" <==> JsString.Trim(name) != "" && |name| < 3
    ensures r == "" <==> JsString.Trim(name) != "" && |name| >= 3
  {
    if JsString.Trim(name) == "" then "Name is required"
    else if |name| < 3 then "Name must be at least 3 characters"
    else ""
  }

  /** A name made only of white space is refused as missing, whatever its length. */
  lemma {:induction false} BlankNameIsMissing(name: string)
    requires forall k :: 0 <= k < |name| ==> JsString.IsSpace(name[k])
    ensures ValidateName(name) == "Name is required"
  {
    var t := JsString.TrimStart(name);
    assert t == [];
  }

  /** `validateConfirmPassword`: missing first, then equality with the password. */
  function ValidateConfirmPassword(confirmPassword: string, password: string): (r: string)
    ensures r == "Confirm password is required" <==> confirmPassword == ""
    ensures r == "Passwords do not match" <==> confirmPassword != "" && confirmPassword != password
    ensures r == "" <==> confirmPassword != "" && confirmPassword == password
  {
    if confirmPassword == "" then "Confirm password is required"
    else if confirmPassword != password then "Passwords do not match"
    else ""
  }

  /** `validateTermsAgreed` */
  function ValidateTermsAgreed(termsAgreed: bool): (r: string)
    ensures r == "" <==> termsAgreed
    ensures !termsAgreed ==> r == "You must agree to the terms and privacy policy"
  {
    if termsAgreed then "" else "You must agree to the terms and privacy policy"
  }

  /** The form's state. */
  datatype SignupForm = SignupForm(name: string, email: string, password: string, confirmPassword: string, termsAgreed: bool)

  /** The five messages, one per field, as the submit handler collects them. */
  datatype FieldErrors = FieldErrors(name: string, email: string, password: string, confirmPassword: string, termsAgreed: string)

  function Errors(f: SignupForm): FieldErrors
  {
    FieldErrors(
      ValidateName(f.name),
      ValidateEmail(f.email),
      ValidatePassword(f.password),
      ValidateConfirmPassword(f.confirmPassword, f.password),
      ValidateTermsAgreed(f.termsAgreed))
  }

  /** `isFormValid`: every validator returns "". */
  predicate IsFormValid(f: SignupForm)
  {
    && ValidateName(f.name) == ""
    && ValidateEmail(f.email) == ""
    && ValidatePassword(f.password) == ""
    && ValidateConfirmPassword(f.confirmPassword, f.password) == ""
    && ValidateTermsAgreed(f.termsAgreed) == ""
  }

  /** What a valid form is, field by field. */
  lemma FormValidMeans(f: SignupForm)
    ensures IsFormValid(f) <==>
              && JsString.Trim(f.name) != "" && |f.name| >= 3
              && WellFormedEmail(f.email)
              && |f.password| >= 6
              && f.confirmPassword == f.password
              && f.termsAgreed
  {
  }

  datatype Field = NameField | EmailField | PasswordField | ConfirmPasswordField | TermsField

  /** The outcome of pressing submit: the errors shown, the fields marked touched, and whether the request is sent. */
  datatype SubmitOutcome = SubmitOutcome(fieldErrors: FieldErrors, touched: set<Field>, sent: bool)

  /** `handleSubmit` up to the request: all errors shown, all fields touched, and the request only with no error. */
  function Submit(f: SignupForm): (r: SubmitOutcome)
    ensures r.fieldErrors == Errors(f)
    ensures r.touched == {NameField, EmailField, PasswordField, ConfirmPasswordField, TermsField}
    ensures r.sent <==> IsFormValid(f)
  {
    var errors := Errors(f);
    var anyError :=
      || errors.name != "" || errors.email != "" || errors.password != ""
      || errors.confirmPassword != "" || errors.termsAgreed != "";
    SubmitOutcome(errors, {NameField, EmailField, PasswordField, ConfirmPasswordField, TermsField}, !anyError)
  }

  /** The request is sent exactly for a form that is valid field by field. */
  lemma SubmitSendsOnlyValid(f: SignupForm)
    ensures Submit(f).sent <==>
              && JsString.Trim(f.name) != "" && |f.name| >= 3
              && WellFormedEmail(f.email)
              && |f.password| >= 6
              && f.confirmPassword == f.password
              && f.termsAgreed
  {
    FormValidMeans(f);
  }
}
