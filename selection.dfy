/** The selected-ticket refresh shared by the kanban and Gantt views: when
    the ticket list changes, the ticket shown in the detail dialog is
    replaced by its new version. */
module Selection {
  import opened Base
  import opened Types

  /** The refreshed selection: the first ticket with the selected ticket's
      id, or the old selection when no ticket has that id. */
  function Refreshed(selected: Option<Ticket>, tickets: seq<Ticket>): (r: Option<Ticket>)
    ensures selected.None? ==> r.None?
    ensures selected.Some? ==> r.Some? && r.value.id == selected.value.id
    ensures selected.Some? && FindTicket(tickets, selected.value.id).Some? ==> r.value in tickets
    ensures selected.Some? && FindTicket(tickets, selected.value.id).None? ==> r == selected
    ensures selected.Some? ==> forall j :: (0 <= j < |tickets| && tickets[j].id == selected.value.id
      && forall m :: 0 <= m < j ==> tickets[m].id != selected.value.id) ==> r == Some(tickets[j])
  {
    match selected
    case None => None
    case Some(s) =>
      match FindTicket(tickets, s.id)
      case Some(t) => Some(t)
      case None => selected
  }

  /** Refreshing twice against the same list is refreshing once. */
  lemma RefreshedIdempotent(selected: Option<Ticket>, tickets: seq<Ticket>)
    ensures Refreshed(Refreshed(selected, tickets), tickets) == Refreshed(selected, tickets)
  {
  }
}
