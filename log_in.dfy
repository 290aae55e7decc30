/** The log-in screen: the stored credential record is read and compared with
    the entered email and password. */
module LogIn {
  import opened Wrappers
  import opened Entities
  import opened Storage

  datatype LogInOutcome = NoUserFound | InvalidCredentials | LoggedIn

  /** The decision `handleLogIn` takes on the record read from key 'user'. */
  function CheckCredentials(stored: Option<User>, email: string, password: string): (r: LogInOutcome)
    ensures r == NoUserFound <==> stored.None?
    ensures r == LoggedIn <==> stored.Some? && stored.value.email == email && stored.value.password == password
  {
    match stored
    case None => NoUserFound
    case Some(u) => if u.email == email && u.password == password then LoggedIn else InvalidCredentials
  }

  /** A right email with a wrong password, or the reverse, is refused as invalid. */
  lemma HalfMatchIsInvalid(u: User, email: string, password: string)
    requires (u.email == email) != (u.password == password)
    ensures CheckCredentials(Some(u), email, password) == InvalidCredentials
  {
  }

  /** `handleLogIn`: it only reads the store (no `modifies` clause). */
  method HandleLogIn(store: Store, email: string, password: string) returns (r: LogInOutcome)
    ensures r == CheckCredentials(store.user, email, password)
  {
    var stored := store.user;
    r := CheckCredentials(stored, email, password);
  }
}
