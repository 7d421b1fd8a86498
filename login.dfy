/** Signing in: validation, the empty-store check, the case-insensitive lookup,
    the clear-text password comparison and the session it opens. */
module Login {
  import opened Wrappers
  import opened Domain
  import opened Accounts

  /** The outcome of a sign-in attempt against `users`: the account it signs in
      as, or why it is refused. Both an unknown email and a wrong password give
      the same refusal. */
  function LoginCheck(users: seq<User>, email: string, password: string): (r: Result<User, AuthError>)
    ensures email == [] || password == [] ==> r == Failure(MissingFields)
    ensures email != [] && password != [] && users == [] ==> r == Failure(NoAccount)
    ensures email != [] && password != [] && users != [] && r.Failure? ==> r.error == InvalidCredentials
    ensures r.Success? <==>
      email != [] && password != [] &&
      exists i :: FirstWithEmail(users, email, i) && users[i].password == password
    ensures r.Success? ==> forall i :: FirstWithEmail(users, email, i) ==> r.value == users[i]
  {
    if email == [] || password == [] then Failure(MissingFields)
    else if |users| == 0 then Failure(NoAccount)
    else match FindByEmail(users, email)
      case None => Failure(InvalidCredentials)
      case Some(i) =>
        if users[i].password != password then Failure(InvalidCredentials)
        else Success(users[i])
  }

  /** The login page: the error banner above its form. */
  class LoginPage {
    const store: Store
    var error: string

    constructor (store: Store)
      ensures this.store == store && error == ""
    {
      this.store := store;
      error := "";
    }

    /** Submits the form at time `now`. A refusal shows its message and writes
        nothing; a success opens a session for the account found, whose token
        embeds that account's id and `now`. The user list and the ticket lists
        are never written. */
    method HandleLogin(email: string, password: string, now: nat) returns (outcome: Result<User, AuthError>)
      modifies this`error, store`session, store`currentUser
      ensures outcome == LoginCheck(store.users, email, password)
      ensures outcome.Failure? ==>
        && error == Message(outcome.error)
        && store.session == old(store.session) && store.currentUser == old(store.currentUser)
      ensures outcome.Success? ==>
        && error == ""
        && store.currentUser == Some(outcome.value)
        && store.session == Some(SessionToken(outcome.value.id, now))
    {
      error := "";

      if email == [] || password == [] {
        error := Message(MissingFields);
        return Failure(MissingFields);
      }

      var users := store.users;

      if |users| == 0 {
        error := Message(NoAccount);
        return Failure(NoAccount);
      }

      var found := FindByEmail(users, email);

      if found.None? {
        error := Message(InvalidCredentials);
        return Failure(InvalidCredentials);
      }

      var user := users[found.value];
      if user.password != password {
        error := Message(InvalidCredentials);
        return Failure(InvalidCredentials);
      }

      var token := SessionToken(user.id, now);
      store.StartSession(user, token);
      return Success(user);
    }
  }
}
