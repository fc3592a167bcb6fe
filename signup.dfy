/** The sign-up page (`SignupPage`): the form is sent only with all three
    fields filled in, and only the trimmed name and e-mail go on. */
module Signup {
  import opened Types
  import opened Strings

  datatype SignupRequest = SignupRequest(name: string, email: string)

  /** `handleSubmit`: the trimmed name and e-mail when no field is blank. */
  function HandleSubmit(name: string, email: string, password: string): (sent: Option<SignupRequest>)
    ensures sent.Some? <==> Trim(name) != [] && Trim(email) != [] && Trim(password) != []
    ensures sent.Some? ==> sent.value == SignupRequest(Trim(name), Trim(email))
  {
    if Trim(name) != [] && Trim(email) != [] && Trim(password) != [] then
      Some(SignupRequest(Trim(name), Trim(email)))
    else None
  }

  /** The Create Account button's `disabled` attribute. */
  predicate CreateDisabled(name: string, email: string, password: string) {
    Trim(name) == [] || Trim(email) == [] || Trim(password) == []
  }

  /** The button is enabled exactly when submitting sends something. */
  lemma ButtonMatchesHandler(name: string, email: string, password: string)
    ensures !CreateDisabled(name, email, password) <==> HandleSubmit(name, email, password).Some?
  {
  }

  /** The password is never passed on. */
  lemma PasswordNotSent(name: string, email: string, p1: string, p2: string)
    requires !AllSpace(p1) && !AllSpace(p2)
    ensures HandleSubmit(name, email, p1) == HandleSubmit(name, email, p2)
  {
  }

  /** What is sent has no white space at either end of either field. */
  lemma SentFieldsTrimmed(name: string, email: string, password: string)
    requires HandleSubmit(name, email, password).Some?
    ensures var r := HandleSubmit(name, email, password).value;
      Trim(r.name) == r.name && Trim(r.email) == r.email
  {
    TrimIdempotent(name);
    TrimIdempotent(email);
  }
}
