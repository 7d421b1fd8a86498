/** The dashboard: three counts over the current user's tickets. */
module Dashboard {
  import opened Wrappers
  import opened Domain
  import Tickets

  /** The number of tickets whose status is `status`, as `filter(...).length` counts them. */
  function CountStatus(ts: seq<Ticket>, status: string): (n: nat)
    ensures n <= |ts|
    ensures n == 0 <==> forall i :: 0 <= i < |ts| ==> ts[i].status != status
    ensures n == |ts| <==> forall i :: 0 <= i < |ts| ==> ts[i].status == status
  {
    if ts == [] then 0
    else (if ts[0].status == status then 1 else 0) + CountStatus(ts[1..], status)
  }

  /** The number of tickets that are neither open nor closed; the dashboard shows
      them only inside the total. */
  function CountOther(ts: seq<Ticket>): nat {
    if ts == [] then 0
    else (if ts[0].status != "open" && ts[0].status != "closed" then 1 else 0) + CountOther(ts[1..])
  }

  /** Open, closed and the rest partition the list: total is their sum. */
  lemma {:induction false} StatusPartition(ts: seq<Ticket>)
    ensures CountStatus(ts, "open") + CountStatus(ts, "closed") + CountOther(ts) == |ts|
  {
    if ts != [] {
      StatusPartition(ts[1..]);
    }
  }

  /** The open and resolved tiles never exceed the total; the gap is the number of
      tickets in any other status. */
  lemma OpenPlusResolvedAtMostTotal(ts: seq<Ticket>)
    ensures CountStatus(ts, "open") + CountStatus(ts, "closed") <= |ts|
    ensures |ts| - (CountStatus(ts, "open") + CountStatus(ts, "closed")) == CountOther(ts)
  {
    StatusPartition(ts);
  }

  /** When every status is one of the three the form accepts, the rest are exactly
      the in-progress tickets: total == open + in progress + closed. */
  lemma {:induction false} KnownStatusesPartition(ts: seq<Ticket>)
    requires forall i :: 0 <= i < |ts| ==> Tickets.IsKnownStatus(ts[i].status)
    ensures CountStatus(ts, "open") + CountStatus(ts, "in_progress") + CountStatus(ts, "closed") == |ts|
  {
    if ts != [] {
      KnownStatusesPartition(ts[1..]);
    }
  }

  /** Counting distributes over concatenation. */
  lemma {:induction false} CountAppend(a: seq<Ticket>, b: seq<Ticket>, status: string)
    ensures CountStatus(a + b, status) == CountStatus(a, status) + CountStatus(b, status)
  {
    if a == [] {
      assert a + b == b;
    } else {
      assert (a + b)[1..] == a[1..] + b;
      CountAppend(a[1..], b, status);
    }
  }

  /** Creating a ticket adds one to the total and one to the count of its status. */
  lemma CreateCounts(t: Ticket, ts: seq<Ticket>, status: string)
    ensures |[t] + ts| == |ts| + 1
    ensures CountStatus([t] + ts, status) == CountStatus(ts, status) + (if t.status == status then 1 else 0)
  {
    assert ([t] + ts)[1..] == ts;
  }

  /** Deleting never raises a count. */
  lemma {:induction false} DeleteCounts(ts: seq<Ticket>, id: Option<nat>, status: string)
    ensures CountStatus(Tickets.RemoveById(ts, id), status) <= CountStatus(ts, status)
  {
    if ts != [] {
      DeleteCounts(ts[1..], id, status);
      CountAppend(if ts[0].id != id then [ts[0]] else [], Tickets.RemoveById(ts[1..], id), status);
    }
  }

  /** The dashboard's state: the three counters and the greeting name. */
  class DashboardPage {
    const store: Store
    var totalTickets: nat
    var openTickets: nat
    var resolvedTickets: nat
    var currentUser: Option<User>
    var userName: string

    constructor (store: Store)
      ensures this.store == store
      ensures totalTickets == 0 && openTickets == 0 && resolvedTickets == 0
      ensures currentUser == None && userName == "User"
    {
      this.store := store;
      totalTickets, openTickets, resolvedTickets := 0, 0, 0;
      currentUser := None;
      userName := "User";
    }

    /** Takes the current user from the store; an empty name greets as "User".
        Without a current user the page redirects to login and keeps its state. */
    method GetCurrentUser()
      modifies this`currentUser, this`userName
      ensures store.currentUser.None? ==> currentUser == old(currentUser) && userName == old(userName)
      ensures store.currentUser.Some? ==> currentUser == store.currentUser
      ensures store.currentUser.Some? ==>
        userName == if store.currentUser.value.name == [] then "User" else store.currentUser.value.name
    {
      var user := store.currentUser;
      if user.None? {
        return;
      }
      currentUser := user;
      userName := if user.value.name == [] then "User" else user.value.name;
    }

    /** Loads the counters from the current user's tickets (a missing key counts as
        no tickets). Without a current user the counters are left as they are. */
    method LoadStats()
      modifies this`totalTickets, this`openTickets, this`resolvedTickets
      ensures store.currentUser.None? ==>
        totalTickets == old(totalTickets) && openTickets == old(openTickets)
        && resolvedTickets == old(resolvedTickets)
      ensures store.currentUser.Some? ==>
        var ts := store.TicketsAt(TicketsKey(store.currentUser.value.id));
        totalTickets == |ts| && openTickets == CountStatus(ts, "open")
        && resolvedTickets == CountStatus(ts, "closed")
      ensures openTickets + resolvedTickets <= totalTickets || store.currentUser.None?
    {
      var user := store.currentUser;
      if user.None? {
        return;
      }
      var ts := store.TicketsAt(TicketsKey(user.value.id));
      OpenPlusResolvedAtMostTotal(ts);
      totalTickets := |ts|;
      openTickets := CountStatus(ts, "open");
      resolvedTickets := CountStatus(ts, "closed");
    }

    /** What the page does when it mounts. */
    method Mount()
      modifies this`currentUser, this`userName, this`totalTickets, this`openTickets, this`resolvedTickets
      ensures store.currentUser.None? ==>
        && currentUser == old(currentUser) && userName == old(userName)
        && totalTickets == old(totalTickets) && openTickets == old(openTickets)
        && resolvedTickets == old(resolvedTickets)
      ensures store.currentUser.Some? ==> currentUser == store.currentUser
      ensures store.currentUser.Some? ==>
        userName == if store.currentUser.value.name == [] then "User" else store.currentUser.value.name
      ensures store.currentUser.Some? ==>
        var ts := store.TicketsAt(TicketsKey(store.currentUser.value.id));
        totalTickets == |ts| && openTickets == CountStatus(ts, "open")
        && resolvedTickets == CountStatus(ts, "closed")
    {
      GetCurrentUser();
      LoadStats();
    }
  }
}
