/** `ticket/TicketCard.tsx`: the description, the status chip resolved
    against the ticket's category, and which action buttons appear. */
module TicketCardView {
  import opened Base
  import opened Text
  import opened Types
  import Permissions
  import StatusUtils

  /** The description: the first 150 characters and "..." when longer. */
  function CardDescription(description: string): (r: string)
    ensures |description| <= 150 ==> r == description
    ensures |description| > 150 ==> r == description[..150] + "..."
  {
    Truncate(description, 150)
  }

  /** The status chip's label and colour, looked up among the statuses of
      the ticket's category (`utils/status.ts`, with its global fallback). */
  function StatusChipText(config: HelpdeskConfig, t: Ticket): (r: (string, string))
    ensures var statuses := StatusUtils.GetStatusesForCategory(Some(t.category), config);
      r.0 == StatusUtils.GetStatusLabel(t.status, statuses)
      && r.1 == StatusUtils.GetStatusColor(t.status, statuses)
    ensures r.1 != ""
  {
    var statuses := StatusUtils.GetStatusesForCategory(Some(t.category), config);
    (StatusUtils.GetStatusLabel(t.status, statuses), StatusUtils.GetStatusColor(t.status, statuses))
  }

  /** A status unknown to the category's list shows its raw value. */
  lemma UnknownStatusShowsRaw(config: HelpdeskConfig, t: Ticket)
    requires !StatusUtils.IsValidStatus(t.status, StatusUtils.GetStatusesForCategory(Some(t.category), config))
    ensures StatusChipText(config, t) == (t.status, "default")
  {
  }

  /** The action buttons shown. */
  datatype Actions = Actions(view: bool, edit: bool, delete: bool)

  /** No button without `showActions`; view needs `onView`; edit needs edit
      permission on the ticket's author and `onEdit`; delete needs an admin
      and `onDelete`. */
  function CardActions(showActions: bool, hasOnView: bool, hasOnEdit: bool, hasOnDelete: bool,
                       t: Ticket, currentUser: User): (a: Actions)
    ensures !showActions ==> a == Actions(false, false, false)
    ensures a.view <==> showActions && hasOnView
    ensures a.edit <==> showActions && hasOnEdit && Permissions.CanEditTicket(t, currentUser)
    ensures a.delete <==> showActions && hasOnDelete && currentUser.role == ADMIN_ROLE
  {
    if !showActions then Actions(false, false, false)
    else Actions(hasOnView, Permissions.CanEditTicket(t, currentUser) && hasOnEdit,
                 Permissions.CanDeleteTicket(currentUser) && hasOnDelete)
  }

  /** A plain user never sees the edit or delete buttons. */
  lemma UserSeesOnlyView(showActions: bool, hasOnView: bool, hasOnEdit: bool, hasOnDelete: bool,
                         t: Ticket, currentUser: User)
    requires currentUser.role == USER_ROLE
    ensures var a := CardActions(showActions, hasOnView, hasOnEdit, hasOnDelete, t, currentUser);
      !a.edit && !a.delete
  {
  }
}
