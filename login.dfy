/** The sign-in page (`LoginPage`): the form is sent only with both fields
    filled in, and only the trimmed e-mail goes on. */
module Login {
  import opened Types
  import opened Strings

  /** `handleSubmit`: the trimmed e-mail when neither field is blank. */
  function HandleSubmit(email: string, password: string): (sent: Option<string>)
    ensures sent.Some? <==> Trim(email) != [] && Trim(password) != []
    ensures sent.Some? ==> sent.value == Trim(email)
  {
    if Trim(email) != [] && Trim(password) != [] then Some(Trim(email)) else None
  }

  /** The Sign In button's `disabled` attribute. */
  predicate SignInDisabled(email: string, password: string) {
    Trim(email) == [] || Trim(password) == []
  }

  /** The button is enabled exactly when submitting sends something. */
  lemma ButtonMatchesHandler(email: string, password: string)
    ensures !SignInDisabled(email, password) <==> HandleSubmit(email, password).Some?
  {
  }

  /** The password is never passed on: any two usable passwords send the
      same thing. */
  lemma PasswordNotSent(email: string, p1: string, p2: string)
    requires !AllSpace(p1) && !AllSpace(p2)
    ensures HandleSubmit(email, p1) == HandleSubmit(email, p2)
  {
  }
}
