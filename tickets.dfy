/** The ticket board: form validation, the three list transforms behind create,
    edit and delete, the status labels, and the page state that drives them. */
module Tickets {
  import opened Wrappers
  import opened Text
  import opened Domain

  const TitleRequired := "Title is required"
  const StatusRequired := "Status is required"
  const StatusInvalid := "Invalid status selected"

  /** The status values the form accepts. */
  predicate IsKnownStatus(status: string) {
    status == "open" || status == "in_progress" || status == "closed"
  }

  /** The blank form: no id, no creation time, no owner, every text field empty. */
  const EmptyForm := Ticket(None, "", "", "", "", None, None)

  /** The inline error messages of the form, one optional message per field
      that can carry one. */
  datatype Errors = Errors(title: Option<string>, status: Option<string>) {
    predicate IsEmpty() {
      title.None? && status.None?
    }
  }

  const NoErrors := Errors(None, None)

  /** A title with no character other than white space, the empty title included. */
  predicate Blank(s: string) {
    forall i :: 0 <= i < |s| ==> IsSpace(s[i])
  }

  /** The per-field errors a form should get: the title error for a blank title,
      and for the status either "required" (empty) or "invalid" (unknown). */
  function FormErrors(form: Ticket): (errs: Errors)
    ensures errs.title.Some? <==> Blank(form.title)
    ensures errs.title.Some? ==> errs.title.value == TitleRequired
    ensures errs.status.Some? <==> !IsKnownStatus(form.status)
    ensures errs.status.Some? ==> errs.status.value in {StatusRequired, StatusInvalid}
  {
    Errors(
      if Blank(form.title) then Some(TitleRequired) else None,
      if form.status == [] then Some(StatusRequired)
      else if !IsKnownStatus(form.status) then Some(StatusInvalid)
      else None)
  }

  /** The form is accepted: a title with content and a known status. */
  predicate FormValid(form: Ticket) {
    !Blank(form.title) && IsKnownStatus(form.status)
  }

  /** The two status errors exclude each other, and a form is accepted exactly
      when it gets no error at all. */
  lemma FormErrorsShape(form: Ticket)
    ensures FormErrors(form).status == Some(StatusRequired) <==> form.status == []
    ensures FormErrors(form).status == Some(StatusInvalid) <==> form.status != [] && !IsKnownStatus(form.status)
    ensures FormValid(form) <==> FormErrors(form).IsEmpty()
  {
  }

  /** The ticket a create stores: it keeps what the user typed and is stamped
      with the given id, creation time and owner. */
  function Created(form: Ticket, now: nat, isoNow: string, userId: string): (t: Ticket)
    ensures t.id == Some(now) && t.createdAt == Some(isoNow) && t.userId == Some(userId)
    ensures t.title == form.title && t.description == form.description
    ensures t.status == form.status && t.priority == form.priority
  {
    form.(id := Some(now), createdAt := Some(isoNow), userId := Some(userId))
  }

  /** Edit: every ticket whose id equals the form's becomes the form; the rest
      stay where they are. */
  function EditById(ts: seq<Ticket>, form: Ticket): (r: seq<Ticket>)
    ensures |r| == |ts|
    ensures forall i :: 0 <= i < |ts| && ts[i].id == form.id ==> r[i] == form
    ensures forall i :: 0 <= i < |ts| && ts[i].id != form.id ==> r[i] == ts[i]
  {
    if ts == [] then []
    else [if ts[0].id == form.id then form else ts[0]] + EditById(ts[1..], form)
  }

  /** Edit changes no ticket's id, so the list keeps its ids position by position. */
  lemma EditKeepsIds(ts: seq<Ticket>, form: Ticket)
    ensures forall i :: 0 <= i < |ts| ==> EditById(ts, form)[i].id == ts[i].id
  {
  }

  /** Editing with a form that matches no ticket leaves the list as it is. */
  lemma EditAbsentIsNoop(ts: seq<Ticket>, form: Ticket)
    requires forall i :: 0 <= i < |ts| ==> ts[i].id != form.id
    ensures EditById(ts, form) == ts
  {
  }

  /** Submitting the same edit twice is the same as submitting it once. */
  lemma EditIdempotent(ts: seq<Ticket>, form: Ticket)
    ensures EditById(EditById(ts, form), form) == EditById(ts, form)
  {
  }

  /** The fields a user cannot change in the form: id, creation time and owner. */
  predicate SameIdentity(a: Ticket, b: Ticket) {
    a.id == b.id && a.createdAt == b.createdAt && a.userId == b.userId
  }

  /** If the form was copied from ticket `src` and only its editable fields were
      changed, every ticket identical in identity to `src` keeps that identity. */
  lemma EditKeepsIdentity(ts: seq<Ticket>, form: Ticket, src: Ticket)
    requires SameIdentity(form, src)
    ensures forall i :: 0 <= i < |ts| && SameIdentity(ts[i], src) ==>
      SameIdentity(EditById(ts, form)[i], ts[i])
  {
  }

  /** Delete: keeps, in order, the tickets whose id differs from `id`. */
  function RemoveById(ts: seq<Ticket>, id: Option<nat>): (r: seq<Ticket>)
    ensures |r| <= |ts|
    ensures forall i :: 0 <= i < |r| ==> r[i].id != id
  {
    if ts == [] then []
    else (if ts[0].id != id then [ts[0]] else []) + RemoveById(ts[1..], id)
  }

  /** Delete removes every copy of each ticket with the id and keeps every copy
      of each other ticket. */
  lemma {:induction false} RemoveByIdMultiset(ts: seq<Ticket>, id: Option<nat>, t: Ticket)
    ensures multiset(RemoveById(ts, id))[t] == if t.id == id then 0 else multiset(ts)[t]
  {
    if ts != [] {
      assert ts == [ts[0]] + ts[1..];
      RemoveByIdMultiset(ts[1..], id, t);
    }
  }

  /** Delete keeps the relative order of what it keeps: removing from a
      concatenation is concatenating the removals. */
  lemma {:induction false} RemoveByIdAppend(a: seq<Ticket>, b: seq<Ticket>, id: Option<nat>)
    ensures RemoveById(a + b, id) == RemoveById(a, id) + RemoveById(b, id)
  {
    if a != [] {
      assert (a + b)[0] == a[0];
      assert (a + b)[1..] == a[1..] + b;
      RemoveByIdAppend(a[1..], b, id);
    } else {
      assert a + b == b;
    }
  }

  /** Deleting an id no ticket carries is a no-op. */
  lemma {:induction false} RemoveAbsentIsNoop(ts: seq<Ticket>, id: Option<nat>)
    requires forall i :: 0 <= i < |ts| ==> ts[i].id != id
    ensures RemoveById(ts, id) == ts
  {
    if ts != [] {
      RemoveAbsentIsNoop(ts[1..], id);
    }
  }

  /** Delete is idempotent: retrying it changes nothing further. */
  lemma RemoveIdempotent(ts: seq<Ticket>, id: Option<nat>)
    ensures RemoveById(RemoveById(ts, id), id) == RemoveById(ts, id)
  {
    RemoveAbsentIsNoop(RemoveById(ts, id), id);
  }

  /** The label shown for a status; an unknown status is shown as it is. */
  function StatusLabel(status: string): (shown: string)
    ensures IsKnownStatus(status) <==> shown != status
    ensures status == "open" ==> shown == "Open"
    ensures status == "in_progress" ==> shown == "In Progress"
    ensures status == "closed" ==> shown == "Closed"
  {
    if status == "open" then "Open"
    else if status == "in_progress" then "In Progress"
    else if status == "closed" then "Closed"
    else status
  }

  /** A ticket's date line: "Just now" without a creation time; otherwise the
      locale's calendar rendering, which is a parameter here. */
  function FormatDate(createdAt: Option<string>, localeDate: string -> string): (r: string)
    ensures createdAt.None? || createdAt.value == [] ==> r == "Just now"
  {
    if createdAt.None? || createdAt.value == [] then "Just now" else localeDate(createdAt.value)
  }

  const FixErrorsMessage := "Please fix the errors in the form"
  const UpdatedMessage := "Ticket updated successfully!"
  const CreatedMessage := "Ticket created successfully!"
  const DeletedMessage := "Ticket deleted successfully"

  datatype ToastKind = SuccessToast | ErrorToast

  datatype Toast = Toast(show: bool, message: string, kind: ToastKind)

  const HiddenToast := Toast(false, "", SuccessToast)

  /** The ticket page's state. The two visibility flags are kept because the form
      and the delete confirmation can only be submitted while shown. */
  class TicketsPage {
    const store: Store
    var tickets: seq<Ticket>
    var currentUser: Option<User>
    var form: Ticket
    var errors: Errors
    var isEditing: bool
    var showModal: bool
    var showDeleteModal: bool
    var ticketToDelete: Option<Ticket>
    var toast: Toast
    /** The ticket the edit form was copied from. */
    ghost var editedFrom: Option<Ticket>

    /** An open edit form still carries the identity of the ticket it was copied
        from, and an open delete confirmation has a ticket to delete. */
    ghost predicate Valid()
      reads this
    {
      && (showModal && isEditing ==> editedFrom.Some? && SameIdentity(form, editedFrom.value))
      && (showDeleteModal ==> ticketToDelete.Some?)
    }

    constructor (store: Store)
      ensures Valid() && this.store == store
      ensures tickets == [] && currentUser == None && form == EmptyForm && errors == NoErrors
      ensures !isEditing && !showModal && !showDeleteModal && ticketToDelete == None
      ensures toast == HiddenToast
    {
      this.store := store;
      tickets := [];
      currentUser := None;
      form := EmptyForm;
      errors := NoErrors;
      isEditing := false;
      showModal := false;
      showDeleteModal := false;
      ticketToDelete := None;
      toast := HiddenToast;
      editedFrom := None;
    }

    /** On mount: take the current user from the store and load that user's
        tickets, a missing key giving the empty list. Without a current user the
        page redirects to login and loads nothing. */
    method Mount()
      modifies this`currentUser, this`tickets
      ensures store.currentUser.None? ==> currentUser == old(currentUser) && tickets == old(tickets)
      ensures store.currentUser.Some? ==> currentUser == store.currentUser
      ensures store.currentUser.Some? ==>
        tickets == store.TicketsAt(TicketsKey(store.currentUser.value.id))
    {
      var user := store.currentUser;
      if user.None? {
        return;
      }
      currentUser := user;
      tickets := store.TicketsAt(TicketsKey(user.value.id));
    }

    /** Persists a list under the current user's key; writes nothing without one. */
    method SaveTickets(updated: seq<Ticket>)
      modifies store`ticketLists
      ensures currentUser.None? ==> store.ticketLists == old(store.ticketLists)
      ensures currentUser.Some? ==>
        store.ticketLists == old(store.ticketLists)[TicketsKey(currentUser.value.id) := updated]
    {
      if currentUser.None? {
        return;
      }
      store.PutTickets(TicketsKey(currentUser.value.id), updated);
    }

    /** Clears the form and its errors. */
    method ResetForm()
      modifies this`form, this`errors
      ensures form == EmptyForm && errors == NoErrors
    {
      form := EmptyForm;
      errors := NoErrors;
    }

    method OpenCreateModal()
      requires Valid()
      modifies this`isEditing, this`form, this`errors, this`showModal, this`editedFrom
      ensures Valid() && !isEditing && showModal && form == EmptyForm && errors == NoErrors
    {
      isEditing := false;
      editedFrom := None;
      ResetForm();
      showModal := true;
    }

    /** The edit form starts as a full copy of the ticket. */
    method OpenEditModal(t: Ticket)
      requires Valid()
      modifies this`isEditing, this`form, this`errors, this`showModal, this`editedFrom
      ensures Valid() && isEditing && showModal && form == t && errors == NoErrors
    {
      isEditing := true;
      editedFrom := Some(t);
      form := t;
      errors := NoErrors;
      showModal := true;
    }

    method CloseModal()
      requires Valid()
      modifies this`showModal, this`form, this`errors
      ensures Valid() && !showModal && form == EmptyForm && errors == NoErrors
    {
      showModal := false;
      ResetForm();
    }

    method SetTitle(v: string)
      requires Valid()
      modifies this`form
      ensures Valid() && form == old(form).(title := v)
    {
      form := form.(title := v);
    }

    method SetDescription(v: string)
      requires Valid()
      modifies this`form
      ensures Valid() && form == old(form).(description := v)
    {
      form := form.(description := v);
    }

    method SetStatus(v: string)
      requires Valid()
      modifies this`form
      ensures Valid() && form == old(form).(status := v)
    {
      form := form.(status := v);
    }

    method SetPriority(v: string)
      requires Valid()
      modifies this`form
      ensures Valid() && form == old(form).(priority := v)
    {
      form := form.(priority := v);
    }

    /** Shows a toast; its dismissal three seconds later is not modelled. */
    method ShowToast(message: string, kind: ToastKind)
      modifies this`toast
      ensures toast == Toast(true, message, kind)
    {
      toast := Toast(true, message, kind);
    }

    /** Fills in the per-field errors one check at a time and reports whether
        there are none. */
    method ValidateForm() returns (ok: bool)
      modifies this`errors
      ensures errors == FormErrors(form)
      ensures ok <==> errors.IsEmpty()
      ensures ok <==> FormValid(form)
    {
      var newErrors := NoErrors;
      var titleBlank := form.title == [] || Trim(form.title) == [];
      assert titleBlank == Blank(form.title) by {
        TrimEmptyIff(form.title);
      }
      if titleBlank {
        newErrors := newErrors.(title := Some(TitleRequired));
      }
      if form.status == [] {
        newErrors := newErrors.(status := Some(StatusRequired));
      } else if !IsKnownStatus(form.status) {
        newErrors := newErrors.(status := Some(StatusInvalid));
      }
      errors := newErrors;
      ok := newErrors.IsEmpty();
    }

    /** Submits the form. An invalid form leaves the list, the store and the form
        as they were and shows the errors. A valid edit replaces every ticket
        with the form's id; a valid create prepends the stamped form. Either way
        the new list is stored under the current user's key and the form closes. */
    method SaveTicket(now: nat, isoNow: string)
      requires Valid() && showModal
      requires isEditing || !FormValid(form) || currentUser.Some?
      modifies this`tickets, this`form, this`errors, this`showModal, this`toast, store`ticketLists
      ensures Valid()
      ensures !FormValid(old(form)) ==>
        && tickets == old(tickets) && form == old(form) && showModal
        && errors == FormErrors(old(form))
        && store.ticketLists == old(store.ticketLists)
        && toast == Toast(true, FixErrorsMessage, ErrorToast)
      ensures FormValid(old(form)) && isEditing ==>
        && tickets == EditById(old(tickets), old(form))
        && toast == Toast(true, UpdatedMessage, SuccessToast)
      ensures FormValid(old(form)) && isEditing ==>
        forall i :: 0 <= i < |tickets| && SameIdentity(old(tickets)[i], editedFrom.value) ==>
          SameIdentity(tickets[i], old(tickets)[i])
      ensures FormValid(old(form)) && !isEditing ==>
        && tickets == [Created(old(form), now, isoNow, currentUser.value.id)] + old(tickets)
        && toast == Toast(true, CreatedMessage, SuccessToast)
      ensures FormValid(old(form)) ==>
        && !showModal && form == EmptyForm && errors == NoErrors
        && store.ticketLists ==
             if currentUser.None? then old(store.ticketLists)
             else old(store.ticketLists)[TicketsKey(currentUser.value.id) := tickets]
    {
      ghost var submitted := form;
      var ok := ValidateForm();
      if !ok {
        assert !FormValid(submitted);
        ShowToast(FixErrorsMessage, ErrorToast);
        return;
      }
      assert FormValid(submitted);
      var updated: seq<Ticket>;
      if isEditing {
        updated := EditById(tickets, form);
        EditKeepsIdentity(tickets, form, editedFrom.value);
        ShowToast(UpdatedMessage, SuccessToast);
      } else {
        var newTicket := Created(form, now, isoNow, currentUser.value.id);
        updated := [newTicket] + tickets;
        ShowToast(CreatedMessage, SuccessToast);
      }
      Commit(updated);
    }

    /** The common tail of a successful submit: the page shows the new list, the
        store receives it under the current user's key, and the form closes. */
    method Commit(updated: seq<Ticket>)
      requires Valid()
      modifies this`tickets, this`showModal, this`form, this`errors, store`ticketLists
      ensures Valid() && tickets == updated
      ensures !showModal && form == EmptyForm && errors == NoErrors
      ensures currentUser.None? ==> store.ticketLists == old(store.ticketLists)
      ensures currentUser.Some? ==>
        store.ticketLists == old(store.ticketLists)[TicketsKey(currentUser.value.id) := updated]
    {
      tickets := updated;
      SaveTickets(updated);
      CloseModal();
    }

    method ConfirmDelete(t: Ticket)
      modifies this`ticketToDelete, this`showDeleteModal
      ensures ticketToDelete == Some(t) && showDeleteModal
    {
      ticketToDelete := Some(t);
      showDeleteModal := true;
    }

    /** Cancel on the confirmation closes it without touching any ticket. */
    method CancelDelete()
      modifies this`showDeleteModal
      ensures !showDeleteModal
    {
      showDeleteModal := false;
    }

    /** Removes every ticket whose id equals the confirmed ticket's, stores the
        list under the current user's key and closes the confirmation. */
    method DeleteTicket()
      requires Valid() && showDeleteModal
      modifies this`tickets, this`showDeleteModal, this`toast, this`ticketToDelete, store`ticketLists
      ensures Valid()
      ensures tickets == RemoveById(old(tickets), old(ticketToDelete).value.id)
      ensures currentUser.None? ==> store.ticketLists == old(store.ticketLists)
      ensures currentUser.Some? ==>
        store.ticketLists == old(store.ticketLists)[TicketsKey(currentUser.value.id) := tickets]
      ensures !showDeleteModal && ticketToDelete == None
      ensures toast == Toast(true, DeletedMessage, SuccessToast)
    {
      var updated := RemoveById(tickets, ticketToDelete.value.id);
      tickets := updated;
      SaveTickets(updated);
      showDeleteModal := false;
      ShowToast(DeletedMessage, SuccessToast);
      ticketToDelete := None;
    }
  }
}
