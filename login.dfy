/** The Welcome Back form's submit handler (src/components/Login.tsx): a
    single presence check; any non-empty password is accepted. */
module LoginForm {

  /** An error notification, or onLogin(email). */
  datatype Outcome = MissingFields | LoggedIn(email: string)

  function HandleSubmit(email: string, password: string): (r: Outcome)
    ensures r == MissingFields <==> email == "" || password == ""
    ensures r.LoggedIn? ==> r.email == email
  {
    if email == "" || password == "" then MissingFields else LoggedIn(email)
  }

  /** The password's content is never checked: any two non-empty passwords
      give the same outcome. */
  lemma PasswordContentIgnored(email: string, p1: string, p2: string)
    requires p1 != "" && p2 != ""
    ensures HandleSubmit(email, p1) == HandleSubmit(email, p2)
  {
  }
}
