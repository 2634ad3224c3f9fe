/** The register page: four text fields, a register and a back button.
    Registration stores nothing; it only checks the fields. */
module Register {
  import opened Signals

  datatype RegisterForm = RegisterForm(username: string, password: string, confirm: string, email: string)

  const EmptyForm := RegisterForm("", "", "", "")

  predicate AnyEmpty(f: RegisterForm) {
    f.username == [] || f.password == [] || f.confirm == [] || f.email == []
  }

  datatype RegisterOutcome = EmptyField | PasswordMismatch | Registered

  /** What the register button did, and the fields afterwards. */
  datatype RegisterResult = RegisterResult(outcome: RegisterOutcome, form: RegisterForm)

  /** The register button: an empty field is reported first, then differing
      passwords; otherwise registration succeeds and every field is cleared.
      Failures leave the fields as they were. */
  function RegisterClicked(f: RegisterForm): (r: RegisterResult)
    ensures r.outcome == EmptyField <==> AnyEmpty(f)
    ensures r.outcome == PasswordMismatch <==> !AnyEmpty(f) && f.password != f.confirm
    ensures r.outcome == Registered <==> !AnyEmpty(f) && f.password == f.confirm
    ensures r.outcome == Registered ==> r.form == EmptyForm
    ensures r.outcome != Registered ==> r.form == f
  {
    if f.username == [] || f.password == [] || f.confirm == [] || f.email == [] then
      RegisterResult(EmptyField, f)
    else if f.password != f.confirm then RegisterResult(PasswordMismatch, f)
    else RegisterResult(Registered, EmptyForm)
  }

  /** The back button asks for the login page and leaves the fields alone. */
  function BackClicked(f: RegisterForm): (r: (RegisterForm, seq<Signal>))
    ensures r.0 == f && r.1 == [BackToLogin]
  {
    (f, [BackToLogin])
  }

  /** The e-mail address is only required to be non-empty: its content never
      changes the outcome. */
  lemma EmailContentIrrelevant(f: RegisterForm, email: string)
    requires f.email != [] && email != []
    ensures RegisterClicked(f.(email := email)).outcome == RegisterClicked(f).outcome
  {
  }

  /** Pressing register again right after a success reports empty fields. */
  lemma RegisterTwice(f: RegisterForm)
    requires RegisterClicked(f).outcome == Registered
    ensures RegisterClicked(RegisterClicked(f).form).outcome == EmptyField
  {
  }
}
