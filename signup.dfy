/** Account creation: validation in order, the case-insensitive duplicate check,
    the append to the user list and the session it opens. */
module Signup {
  import opened Wrappers
  import opened Text
  import opened Domain
  import opened Accounts

  const MinPasswordLength := 6
  const SuccessMessage := "Account created successfully! Redirecting..."

  /** Why a signup is refused, checked in the order the page checks: an empty
      field first, then a short password, then an email already taken. */
  function SignupError(users: seq<User>, name: string, email: string, password: string): (r: Option<AuthError>)
    ensures r == Some(MissingFields) <==> name == [] || email == [] || password == []
    ensures r == Some(PasswordTooShort) <==>
      name != [] && email != [] && password != [] && Utf16Length(password) < MinPasswordLength
    ensures r == Some(DuplicateEmail) <==>
      name != [] && email != [] && Utf16Length(password) >= MinPasswordLength && EmailExists(users, email)
    ensures r.None? <==>
      name != [] && email != [] && Utf16Length(password) >= MinPasswordLength && !EmailExists(users, email)
  {
    if name == [] || email == [] || password == [] then Some(MissingFields)
    else if Utf16Length(password) < MinPasswordLength then Some(PasswordTooShort)
    else if EmailExists(users, email) then Some(DuplicateEmail)
    else None
  }

  /** The length limit counts UTF-16 code units, as JavaScript's `length` does:
      three characters above U+FFFF pass it, two do not. */
  lemma AstralPasswordLength()
    ensures Utf16Length("\U{1F600}\U{1F600}\U{1F600}") == 6
    ensures Utf16Length("\U{1F600}\U{1F600}") < MinPasswordLength
  {
  }

  /** The account a successful signup creates at time `now`: its id is `user_`
      followed by the time's digits, and its email is stored lower-cased, still
      naming the same account as the email typed. */
  function NewUser(name: string, email: string, password: string, now: nat, createdAt: string): (u: User)
    ensures |u.id| == 5 + |NatToString(now)|
    ensures u.id[..5] == "user_" && u.id[5..] == NatToString(now)
    ensures u.email == Lower(u.email) && SameEmail(u.email, email)
    ensures u.name == name && u.password == password && u.createdAt == createdAt
  {
    LowerIdempotent(email);
    User("user_" + NatToString(now), name, Lower(email), password, createdAt)
  }

  /** A taken email is refused whatever the password, once the fields are filled in
      and the password is long enough; a refused signup is never a success. */
  lemma DuplicateAlwaysRefused(users: seq<User>, name: string, email: string, password: string, other: string)
    requires EmailExists(users, email)
    requires name != [] && email != []
    requires Utf16Length(password) >= MinPasswordLength && Utf16Length(other) >= MinPasswordLength
    ensures SignupError(users, name, email, password) == SignupError(users, name, email, other) == Some(DuplicateEmail)
  {
  }

  /** A successful signup keeps account emails unique up to letter case. */
  lemma SignupKeepsEmailsUnique(users: seq<User>, name: string, email: string, password: string,
                                now: nat, createdAt: string)
    requires EmailsUnique(users)
    requires SignupError(users, name, email, password).None?
    ensures EmailsUnique(users + [NewUser(name, email, password, now, createdAt)])
  {
    AppendKeepsUnique(users, NewUser(name, email, password, now, createdAt), email);
  }

  /** Accounts created at different times get different ids. */
  lemma NewUserIdsDistinct(name: string, email: string, password: string, m: nat, n: nat, createdAt: string)
    requires m != n
    ensures NewUser(name, email, password, m, createdAt).id != NewUser(name, email, password, n, createdAt).id
  {
    var a, b := NatToString(m), NatToString(n);
    if "user_" + a == "user_" + b {
      assert a == ("user_" + a)[5..];
      assert b == ("user_" + b)[5..];
      NatToStringInjective(m, n);
    }
  }

  /** The signup page: the error and success banners above its form. */
  class SignupPage {
    const store: Store
    var error: string
    var success: string

    constructor (store: Store)
      ensures this.store == store && error == "" && success == ""
    {
      this.store := store;
      error := "";
      success := "";
    }

    /** Submits the form. `idTime` and `tokenTime` are the two clock readings the
        page takes (for the id and for the token), `createdAt` the ISO timestamp.
        A refusal shows its message and writes nothing; a success appends the new
        account, opens its session and shows the success banner. The ticket lists
        are never touched, and unique emails stay unique. */
    method HandleSignup(name: string, email: string, password: string,
                        idTime: nat, tokenTime: nat, createdAt: string)
      modifies this`error, this`success, store`users, store`session, store`currentUser
      ensures var e := SignupError(old(store.users), name, email, password);
        e.Some? ==>
          && error == Message(e.value) && success == ""
          && store.users == old(store.users)
          && store.session == old(store.session) && store.currentUser == old(store.currentUser)
      ensures var u := NewUser(name, email, password, idTime, createdAt);
        SignupError(old(store.users), name, email, password).None? ==>
          && error == "" && success == SuccessMessage
          && store.users == old(store.users) + [u]
          && store.currentUser == Some(u)
          && store.session == Some(SessionToken(u.id, tokenTime))
      ensures EmailsUnique(old(store.users)) ==> EmailsUnique(store.users)
    {
      error := "";
      success := "";

      if name == [] || email == [] || password == [] {
        error := Message(MissingFields);
        return;
      }

      if Utf16Length(password) < MinPasswordLength {
        error := Message(PasswordTooShort);
        return;
      }

      var users := store.users;
      var emailExists := EmailExists(users, email);
      if emailExists {
        error := Message(DuplicateEmail);
        return;
      }

      var newUser := NewUser(name, email, password, idTime, createdAt);
      users := users + [newUser];
      if EmailsUnique(old(store.users)) {
        SignupKeepsEmailsUnique(old(store.users), name, email, password, idTime, createdAt);
      }
      store.users := users;

      var token := SessionToken(newUser.id, tokenTime);
      store.StartSession(newUser, token);

      success := SuccessMessage;
    }
  }
}
