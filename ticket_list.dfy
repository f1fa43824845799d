/** `ticket/TicketList.tsx`: the permission-filtered list, its empty-state
    and header texts, the row buttons, and the state behind the detail dialog
    (selection, dialog mode, loading flag, local copy after an update). */
module TicketListView {
  import opened Base
  import opened Text
  import opened Types
  import Permissions
  import Store

  /** The message shown when the filtered list is empty, `None` otherwise. */
  function EmptyState(tickets: seq<Ticket>, currentUser: User): (r: Option<string>)
    ensures r.None? <==> Permissions.FilterTicketsByPermission(tickets, currentUser) != []
    ensures tickets == [] ==> r == Some("Aucun ticket trouvé")
    ensures r.Some? && tickets != [] && currentUser.role == USER_ROLE ==>
      r == Some("Vous n'avez pas encore créé de tickets")
    ensures r.Some? && tickets != [] && currentUser.role != USER_ROLE ==> r == Some("Aucun ticket accessible")
  {
    if Permissions.FilterTicketsByPermission(tickets, currentUser) != [] then None
    else if |tickets| == 0 then Some("Aucun ticket trouvé")
    else if Permissions.CanViewOwnTickets(currentUser) then Some("Vous n'avez pas encore créé de tickets")
    else Some("Aucun ticket accessible")
  }

  /** Admins and agents only meet an empty state when there are no tickets
      at all: "nothing accessible" is only ever shown to a role outside the
      three known ones. */
  lemma InaccessibleOnlyForUnknownRoles(tickets: seq<Ticket>, currentUser: User)
    requires EmptyState(tickets, currentUser) == Some("Aucun ticket accessible")
    ensures currentUser.role != ADMIN_ROLE && currentUser.role != AGENT_ROLE && currentUser.role != USER_ROLE
  {
  }

  /** The "(sur N total)" note beside the header: only for role user, and
      only when some tickets were filtered out. */
  function TotalNote(tickets: seq<Ticket>, currentUser: User): (r: Option<string>)
    ensures r.Some? <==>
      (currentUser.role == USER_ROLE && |tickets| > |Permissions.FilterTicketsByPermission(tickets, currentUser)|)
    ensures r.Some? ==> r.value == "(sur " + NatToString(|tickets|) + " total)"
  {
    if Permissions.CanViewOwnTickets(currentUser)
       && |tickets| > |Permissions.FilterTicketsByPermission(tickets, currentUser)|
    then Some("(sur " + NatToString(|tickets|) + " total)")
    else None
  }

  /** The note appears only when somebody else wrote one of the tickets. */
  lemma NoteMeansForeignTicket(tickets: seq<Ticket>, currentUser: User)
    requires TotalNote(tickets, currentUser).Some?
    ensures exists i :: 0 <= i < |tickets| && tickets[i].author.id != currentUser.id
  {
    if forall i :: 0 <= i < |tickets| ==> tickets[i].author.id == currentUser.id {
      FilterKeepsAll(tickets, Permissions.AuthoredBy(currentUser.id));
      assert false;
    }
  }

  /** The buttons of one row (table or card): view always, edit with edit
      permission, delete for admins when a delete callback exists. */
  datatype RowButtons = RowButtons(view: bool, edit: bool, delete: bool)

  function RowActions(ticket: Ticket, currentUser: User, hasOnDelete: bool): (r: RowButtons)
    ensures r.view
    ensures r.edit <==> Permissions.CanEditTicket(ticket, currentUser)
    ensures r.delete <==> hasOnDelete && currentUser.role == ADMIN_ROLE
  {
    RowButtons(true, Permissions.CanEditTicket(ticket, currentUser),
      Permissions.CanDeleteTicket(currentUser) && hasOnDelete)
  }

  /** Whoever is offered delete is also offered edit, and a plain user is
      offered neither. */
  lemma DeleteImpliesEdit(ticket: Ticket, currentUser: User, hasOnDelete: bool)
    ensures RowActions(ticket, currentUser, hasOnDelete).delete ==> RowActions(ticket, currentUser, hasOnDelete).edit
    ensures currentUser.role == USER_ROLE ==>
      !RowActions(ticket, currentUser, hasOnDelete).edit && !RowActions(ticket, currentUser, hasOnDelete).delete
  {
  }

  /** A field of the update data is copied only when it is truthy. */
  predicate Truthy(s: Option<string>) {
    s.Some? && s.value != ""
  }

  /** The local copy of the selected ticket after a successful update: no
      selection stays none; title, description, category and priority are
      overwritten when truthy; a truthy assignee id is looked up among the
      users (an unknown one unassigns); nothing else is copied, the status
      included. */
  function Reconciled(prev: Option<Ticket>, data: UpdateData, users: seq<User>): (r: Option<Ticket>)
    ensures prev.None? <==> r.None?
    ensures prev.Some? ==>
      var p := prev.value;
      r.value.title == (if Truthy(data.title) then data.title.value else p.title)
      && r.value.description == (if Truthy(data.description) then data.description.value else p.description)
      && r.value.category == (if Truthy(data.category) then data.category.value else p.category)
      && r.value.priority == (if Truthy(data.priority) then data.priority.value else p.priority)
      && r.value.assignedTo == (if Truthy(data.assignedTo) then FindUser(users, data.assignedTo.value) else p.assignedTo)
      && r.value == p.(title := r.value.title, description := r.value.description, category := r.value.category,
                       priority := r.value.priority, assignedTo := r.value.assignedTo)
  {
    match prev
    case None => None
    case Some(p) =>
      Some(p.(title := if Truthy(data.title) then data.title.value else p.title,
              description := if Truthy(data.description) then data.description.value else p.description,
              category := if Truthy(data.category) then data.category.value else p.category,
              priority := if Truthy(data.priority) then data.priority.value else p.priority,
              assignedTo := if Truthy(data.assignedTo) then FindUser(users, data.assignedTo.value) else p.assignedTo))
  }

  /** With no empty strings and no status, hours or dates in the data, the
      local copy is the store's updated ticket apart from `updatedAt`. */
  lemma ReconciledMatchesStore(t: Ticket, data: UpdateData, users: seq<User>, now: Date)
    requires data.title != Some("") && data.description != Some("") && data.category != Some("")
    requires data.priority != Some("") && data.assignedTo != Some("")
    requires data.status.None? && data.hoursSpent.None? && data.startDate.None? && data.endDate.None?
    ensures Reconciled(Some(t), data, users) == Some(Store.ApplyUpdate(t, data, users, now).(updatedAt := t.updatedAt))
  {
  }

  /** The local copy never takes a new status, while the store does: after a
      status change the dialog shows the old status until it is reopened. */
  lemma StatusNotReconciled(t: Ticket, data: UpdateData, users: seq<User>, now: Date)
    requires data.status.Some? && data.status.value != t.status
    ensures Reconciled(Some(t), data, users).value.status == t.status
    ensures Store.ApplyUpdate(t, data, users, now).status != Reconciled(Some(t), data, users).value.status
  {
  }

  /** The list's view state. */
  class TicketListState {
    var viewMode: string
    var selectedTicket: Option<Ticket>
    var dialogMode: string
    var dialogLoading: bool

    constructor ()
      ensures viewMode == "table" && selectedTicket.None? && dialogMode == "view" && !dialogLoading
    {
      viewMode := "table";
      selectedTicket := None;
      dialogMode := "view";
      dialogLoading := false;
    }

    /** On a small screen the table view is replaced by cards. */
    method ForceCardsOnMobile(isMobile: bool)
      modifies this
      ensures viewMode == if isMobile && old(viewMode) == "table" then "cards" else old(viewMode)
      ensures selectedTicket == old(selectedTicket) && dialogMode == old(dialogMode)
      ensures dialogLoading == old(dialogLoading)
    {
      if isMobile && viewMode == "table" {
        viewMode := "cards";
      }
    }

    /** The view toggle ignores a deselection (`null`). */
    method ChangeViewMode(newMode: Option<string>)
      modifies this
      ensures viewMode == newMode.GetOr(old(viewMode))
      ensures selectedTicket == old(selectedTicket) && dialogMode == old(dialogMode)
      ensures dialogLoading == old(dialogLoading)
    {
      if newMode.Some? {
        viewMode := newMode.value;
      }
    }

    method ViewTicket(ticket: Ticket)
      modifies this
      ensures selectedTicket == Some(ticket) && dialogMode == "view"
      ensures viewMode == old(viewMode) && dialogLoading == old(dialogLoading)
    {
      selectedTicket := Some(ticket);
      dialogMode := "view";
    }

    method EditTicket(ticket: Ticket)
      modifies this
      ensures selectedTicket == Some(ticket) && dialogMode == "edit"
      ensures viewMode == old(viewMode) && dialogLoading == old(dialogLoading)
    {
      selectedTicket := Some(ticket);
      dialogMode := "edit";
    }

    method CloseDialog()
      modifies this
      ensures selectedTicket.None? && dialogMode == "view"
      ensures viewMode == old(viewMode) && dialogLoading == old(dialogLoading)
    {
      selectedTicket := None;
      dialogMode := "view";
    }

    /** `handleUpdateTicket` with the parent's callback as one step that
        succeeds (`ok`) or throws. The loading flag is cleared either way; the
        local copy is only reconciled after a success. */
    method UpdateTicket(hasOnUpdate: bool, data: UpdateData, users: seq<User>, ok: bool)
      modifies this
      ensures hasOnUpdate && ok ==> selectedTicket == Reconciled(old(selectedTicket), data, users)
      ensures !(hasOnUpdate && ok) ==> selectedTicket == old(selectedTicket)
      ensures dialogLoading == if hasOnUpdate then false else old(dialogLoading)
      ensures viewMode == old(viewMode) && dialogMode == old(dialogMode)
    {
      if !hasOnUpdate {
        return;
      }
      dialogLoading := true;
      if ok {
        if selectedTicket.Some? {
          var updated := selectedTicket.value;
          if Truthy(data.title) { updated := updated.(title := data.title.value); }
          if Truthy(data.description) { updated := updated.(description := data.description.value); }
          if Truthy(data.category) { updated := updated.(category := data.category.value); }
          if Truthy(data.priority) { updated := updated.(priority := data.priority.value); }
          if Truthy(data.assignedTo) {
            updated := updated.(assignedTo := FindUser(users, data.assignedTo.value));
          }
          selectedTicket := Some(updated);
        }
      }
      dialogLoading := false;
    }

    /** `handleAddComment`: only the loading flag moves, and it ends false. */
    method AddComment(hasOnAddComment: bool)
      modifies this
      ensures dialogLoading == if hasOnAddComment then false else old(dialogLoading)
      ensures selectedTicket == old(selectedTicket) && viewMode == old(viewMode) && dialogMode == old(dialogMode)
    {
      if hasOnAddComment {
        dialogLoading := true;
        dialogLoading := false;
      }
    }
  }
}
