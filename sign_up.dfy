/** The sign-up screen: name, email and password are required; the record is
    written under the single key 'user', replacing any earlier one. */
module SignUp {
  import opened Wrappers
  import opened Entities
  import opened Storage
  import opened LogIn

  datatype SignUpError = MissingRequiredField

  /** The record `handleSignUp` would store; address and gender may be empty. */
  function SignUpRecord(name: string, email: string, password: string, address: string, gender: string)
    : (r: Result<User, SignUpError>)
    ensures r.Err? <==> name == "" || email == "" || password == ""
    ensures r.Ok? ==> r.value == User(name, email, password, address, gender)
  {
    if name == "" || email == "" || password == "" then Err(MissingRequiredField)
    else Ok(User(name, email, password, address, gender))
  }

  /** `handleSignUp`: a refused form stores nothing; an accepted one replaces the
      stored record. */
  method HandleSignUp(store: Store, name: string, email: string, password: string, address: string, gender: string)
    returns (r: Result<User, SignUpError>)
    modifies store`user
    ensures r == SignUpRecord(name, email, password, address, gender)
    ensures r.Err? ==> store.user == old(store.user)
    ensures r.Ok? ==> store.user == Some(r.value)
  {
    r := SignUpRecord(name, email, password, address, gender);
    if r.Ok? {
      store.user := Some(r.value);
    }
  }

  /** After a sign-up is stored, logging in with the same email and password
      succeeds, whatever record was stored before. */
  lemma SignUpThenLogIn(name: string, email: string, password: string, address: string, gender: string)
    requires SignUpRecord(name, email, password, address, gender).Ok?
    ensures CheckCredentials(Some(SignUpRecord(name, email, password, address, gender).value), email, password) == LoggedIn
  {
  }
}
