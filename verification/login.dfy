/** The login page: two text fields and two buttons. */
module Login {
  import opened Signals

  datatype Credentials = Credentials(username: string, password: string)

  /** The one account the page accepts. */
  predicate IsAdmin(c: Credentials) {
    c.username == "admin" && c.password == "123456"
  }

  datatype LoginOutcome = EmptyCredentials | WrongCredentials | Accepted

  /** What the login button did, and the signals it emitted. The fields keep
      their text in every case. */
  datatype LoginResult = LoginResult(outcome: LoginOutcome, signals: seq<Signal>)

  /** The login button: an empty field is reported before the credentials
      are compared; only the admin account emits loginSuccess. */
  function LoginClicked(c: Credentials): (r: LoginResult)
    ensures r.outcome == EmptyCredentials <==> c.username == [] || c.password == []
    ensures r.outcome == Accepted <==> IsAdmin(c)
    ensures r.outcome == WrongCredentials <==> c.username != [] && c.password != [] && !IsAdmin(c)
    ensures r.signals == (if IsAdmin(c) then [LoginSuccess] else [])
  {
    if c.username == [] || c.password == [] then LoginResult(EmptyCredentials, [])
    else if c.username == "admin" && c.password == "123456" then LoginResult(Accepted, [LoginSuccess])
    else LoginResult(WrongCredentials, [])
  }

  /** The register button asks for the register page, whatever the fields hold. */
  function RegisterClicked(c: Credentials): (signals: seq<Signal>)
    ensures signals == [RegisterRequested]
  {
    [RegisterRequested]
  }

  /** loginSuccess is emitted for exactly one pair of texts. */
  lemma LoginSuccessOnlyForAdmin(c: Credentials, d: Credentials)
    requires LoginSuccess in LoginClicked(c).signals && LoginSuccess in LoginClicked(d).signals
    ensures c == d
  {
  }
}
