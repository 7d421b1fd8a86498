/** Signing up and then signing in: the two pages agree on the account. */
module AuthRoundTrip {
  import opened Wrappers
  import opened Text
  import opened Domain
  import opened Accounts
  import opened Signup
  import opened Login

  /** After a successful signup, signing in with the same password and the email
      in any letter case signs in as the new account. */
  lemma SignupThenLogin(users: seq<User>, name: string, email: string, password: string,
                        now: nat, createdAt: string, loginEmail: string)
    requires EmailsUnique(users)
    requires SignupError(users, name, email, password).None?
    requires Lower(loginEmail) == Lower(email)
    ensures LoginCheck(users + [NewUser(name, email, password, now, createdAt)], loginEmail, password)
            == Success(NewUser(name, email, password, now, createdAt))
  {
    var u := NewUser(name, email, password, now, createdAt);
    SignupKeepsEmailsUnique(users, name, email, password, now, createdAt);
    LowerIdempotent(email);
    FindAppended(users, u, loginEmail);
    assert |loginEmail| == |email|;
    assert FirstWithEmail(users + [u], loginEmail, |users|);
  }

  /** The same round trip through the pages and the store: sign up, log out, sign
      in again; the session belongs to the account just created. */
  method SignupLogoutLogin(store: Store, name: string, email: string, password: string,
                           loginEmail: string, idTime: nat, tokenTime: nat, loginTime: nat,
                           createdAt: string)
    requires EmailsUnique(store.users)
    requires SignupError(store.users, name, email, password).None?
    requires Lower(loginEmail) == Lower(email)
    modifies store
    ensures store.currentUser.Some? && store.currentUser.value.id == "user_" + NatToString(idTime)
    ensures store.session == Some(SessionToken("user_" + NatToString(idTime), loginTime))
    ensures EmailsUnique(store.users)
  {
    ghost var before := store.users;
    var signup := new SignupPage(store);
    signup.HandleSignup(name, email, password, idTime, tokenTime, createdAt);
    store.Logout();
    var login := new LoginPage(store);
    var outcome := login.HandleLogin(loginEmail, password, loginTime);
    SignupThenLogin(before, name, email, password, idTime, createdAt, loginEmail);
  }
}
