/** The persisted data model and the browser key-value store it lives in.
    The store's JSON-valued keys become typed fields:
      `ticketapp_users`        -> users
      `ticketapp_session`      -> session
      `ticketapp_current_user` -> currentUser
      `tickets_<userId>`       -> ticketLists[TicketsKey(userId)] */
module Domain {
  import opened Wrappers
  import opened Text

  /** A registered account; `email` is stored lower-cased and `password` in clear. */
  datatype User = User(id: string, name: string, email: string, password: string, createdAt: string)

  /** A ticket, and also the shape of the ticket form: the form starts with no id,
      no creation time and no owner, and an edit form is a copy of a stored ticket. */
  datatype Ticket = Ticket(
    id: Option<nat>,
    title: string,
    description: string,
    status: string,
    priority: string,
    createdAt: Option<string>,
    userId: Option<string>)

  /** The key under which a user's tickets are stored: the prefix `tickets_`
      followed by the user's id, so the key determines the user. */
  function TicketsKey(userId: string): (k: string)
    ensures |k| == 8 + |userId|
    ensures k[..8] == "tickets_" && k[8..] == userId
  {
    "tickets_" + userId
  }

  /** Distinct users never share a ticket key: the per-user namespacing isolates them. */
  lemma TicketsKeyInjective(a: string, b: string)
    ensures TicketsKey(a) == TicketsKey(b) <==> a == b
  {
    if TicketsKey(a) == TicketsKey(b) {
      assert a == TicketsKey(a)[8..];
      assert b == TicketsKey(b)[8..];
    }
  }

  /** The session token written at login and signup: the prefix `token_`, the
      user's id, an underscore, then the decimal digits of the time. */
  function SessionToken(userId: string, now: nat): (t: string)
    ensures |t| == 6 + |userId| + 1 + |NatToString(now)|
    ensures t[..6] == "token_" && t[6..6 + |userId|] == userId
    ensures t[6 + |userId|] == '_' && t[6 + |userId| + 1..] == NatToString(now)
  {
    "token_" + userId + "_" + NatToString(now)
  }

  /** The browser's local storage, as typed fields. An absent `ticketapp_users` key
      and an empty list are the same here: every reader treats them alike. */
  class Store {
    var users: seq<User>
    var session: Option<string>
    var currentUser: Option<User>
    var ticketLists: map<string, seq<Ticket>>

    /** An empty store. */
    constructor ()
      ensures users == [] && session == None && currentUser == None && ticketLists == map[]
    {
      users := [];
      session := None;
      currentUser := None;
      ticketLists := map[];
    }

    /** The tickets stored under `key`; a missing key reads as the empty list. */
    function TicketsAt(key: string): (ts: seq<Ticket>)
      reads this
      ensures key !in ticketLists ==> ts == []
      ensures key in ticketLists ==> ts == ticketLists[key]
    {
      if key in ticketLists then ticketLists[key] else []
    }

    /** Overwrites the whole list stored under `key`; no other key changes. */
    method PutTickets(key: string, ts: seq<Ticket>)
      modifies this`ticketLists
      ensures ticketLists == old(ticketLists)[key := ts]
      ensures TicketsAt(key) == ts
      ensures forall k :: k != key ==> TicketsAt(k) == old(TicketsAt(k))
    {
      ticketLists := ticketLists[key := ts];
    }

    /** Writes the session token and the current user together, as a successful
        login or signup does. */
    method StartSession(user: User, token: string)
      modifies this`session, this`currentUser
      ensures session == Some(token) && currentUser == Some(user)
    {
      session := Some(token);
      currentUser := Some(user);
    }

    /** Logout: removes the session key and the current-user key and nothing else. */
    method Logout()
      modifies this`session, this`currentUser
      ensures session == None && currentUser == None
    {
      session := None;
      currentUser := None;
    }
  }
}
