/** The Create Account form's submit handler (src/components/Signup.tsx):
    three checks in a fixed order, the first failing one decides the error. */
module SignupForm {

  /** The form's fields; company is collected but never checked. */
  datatype Fields = Fields(
    fullName: string,
    email: string,
    company: string,
    password: string,
    confirmPassword: string,
    acceptTerms: bool)

  /** The one thing a submit does: an error notification, or onSignup(email). */
  datatype Outcome = MissingFields | PasswordMismatch | TermsNotAccepted | SignedUp(email: string)

  function HandleSubmit(f: Fields): (r: Outcome)
    ensures r == MissingFields <==> f.fullName == "" || f.email == "" || f.password == "" || f.confirmPassword == ""
    ensures r == PasswordMismatch <==>
      f.fullName != "" && f.email != "" && f.password != "" && f.confirmPassword != "" && f.password != f.confirmPassword
    ensures r == TermsNotAccepted <==>
      f.fullName != "" && f.email != "" && f.password != "" && f.password == f.confirmPassword && !f.acceptTerms
    ensures r.SignedUp? <==> f.fullName != "" && f.email != "" && f.password != "" && f.password == f.confirmPassword && f.acceptTerms
    ensures r.SignedUp? ==> r.email == f.email
  {
    if f.fullName == "" || f.email == "" || f.password == "" || f.confirmPassword == "" then MissingFields
    else if f.password != f.confirmPassword then PasswordMismatch
    else if !f.acceptTerms then TermsNotAccepted
    else SignedUp(f.email)
  }

  /** What is typed into the company field never changes the outcome. */
  lemma CompanyIgnored(f: Fields, company: string)
    ensures HandleSubmit(f.(company := company)) == HandleSubmit(f)
  {
  }
}
