/** What signup and login share: the error outcomes, their messages, and the
    case-insensitive email comparison over the user list. */
module Accounts {
  import opened Wrappers
  import opened Text
  import opened Domain

  datatype AuthError = MissingFields | PasswordTooShort | DuplicateEmail | NoAccount | InvalidCredentials

  /** The message each outcome shows above the form; it is never empty, so the
      banner, which renders only for a non-empty error, always appears. */
  function Message(e: AuthError): (m: string)
    ensures m != []
  {
    match e
    case MissingFields => "Please fill in all fields"
    case PasswordTooShort => "Password must be at least 6 characters"
    case DuplicateEmail => "An account with this email already exists. Please login instead."
    case NoAccount => "No account found. Please sign up first."
    case InvalidCredentials => "Invalid email or password"
  }

  /** Two emails name the same account when they agree after lower-casing. */
  predicate SameEmail(a: string, b: string) {
    Lower(a) == Lower(b)
  }

  /** `users.some(u => u.email.toLowerCase() === email.toLowerCase())`. */
  function EmailExists(users: seq<User>, email: string): (r: bool)
    ensures r <==> exists i :: 0 <= i < |users| && SameEmail(users[i].email, email)
  {
    if users == [] then false
    else SameEmail(users[0].email, email) || EmailExists(users[1..], email)
  }

  /** `users[i]` is the first user whose email matches `email`. */
  ghost predicate FirstWithEmail(users: seq<User>, email: string, i: int) {
    && 0 <= i < |users|
    && SameEmail(users[i].email, email)
    && forall j :: 0 <= j < i ==> !SameEmail(users[j].email, email)
  }

  /** `users.find(u => u.email.toLowerCase() === email.toLowerCase())`, giving the
      position of the user found. */
  function FindByEmail(users: seq<User>, email: string): (r: Option<nat>)
    ensures r.Some? ==> FirstWithEmail(users, email, r.value)
    ensures r.None? ==> forall i :: 0 <= i < |users| ==> !SameEmail(users[i].email, email)
  {
    if users == [] then None
    else if SameEmail(users[0].email, email) then Some(0)
    else match FindByEmail(users[1..], email)
      case None => None
      case Some(k) => Some(k + 1)
  }

  /** The lookup login does and the duplicate check signup does agree. */
  lemma FindIffExists(users: seq<User>, email: string)
    ensures FindByEmail(users, email).Some? <==> EmailExists(users, email)
  {
  }

  /** No two accounts share an email up to letter case. */
  ghost predicate EmailsUnique(users: seq<User>) {
    forall i, j :: 0 <= i < j < |users| ==> !SameEmail(users[i].email, users[j].email)
  }

  /** Appending an account whose email (stored lower-cased) matches no existing
      one keeps the emails unique. */
  lemma AppendKeepsUnique(users: seq<User>, u: User, email: string)
    requires EmailsUnique(users)
    requires !EmailExists(users, email)
    requires u.email == Lower(email)
    ensures EmailsUnique(users + [u])
  {
    LowerIdempotent(email);
    var all := users + [u];
    forall i, j | 0 <= i < j < |all|
      ensures !SameEmail(all[i].email, all[j].email)
    {
      if j == |users| {
        assert all[i] == users[i];
      }
    }
  }

  /** With unique emails, the appended account is the one found for any spelling
      of its email. */
  lemma FindAppended(users: seq<User>, u: User, email: string)
    requires EmailsUnique(users + [u])
    requires SameEmail(u.email, email)
    ensures FindByEmail(users + [u], email) == Some(|users|)
  {
    var all := users + [u];
    assert all[|users|] == u;
    var r := FindByEmail(all, email);
    if r.Some? && r.value != |users| {
      assert SameEmail(all[r.value].email, all[|users|].email);
    }
  }
}
