/** `ticket-form/edit/TicketDetailDialog.tsx`: the edit form's values, the
    edit/loading flags around the awaited callbacks, and the role gates of
    its buttons. */
module DetailDialog {
  import opened Base
  import opened Types
  import Permissions
  import TicketSchema
  import Store

  /** The edit form's values. */
  datatype EditValues = EditValues(
    title: string, description: string, category: string, priority: string,
    status: string, assignedTo: string, tags: seq<Tag>, files: seq<FileBlob>,
    hoursSpent: real, startDate: Option<Date>, endDate: Option<Date>)

  /** The values the form is (re)set to for a ticket: the assignee's id or
      "", the tags or [], no files, the hours or 0, the dates as given. */
  function ValuesFromTicket(t: Ticket): (v: EditValues)
    ensures v.title == t.title && v.description == t.description && v.category == t.category
    ensures v.priority == t.priority && v.status == t.status
    ensures v.assignedTo == if t.assignedTo.Some? then t.assignedTo.value.id else ""
    ensures v.tags == t.tags.GetOr([]) && v.files == []
    ensures v.hoursSpent == t.hoursSpent.GetOr(0.0)
    ensures v.startDate == t.startDate && v.endDate == t.endDate
  {
    EditValues(t.title, t.description, t.category, t.priority, t.status,
      if t.assignedTo.Some? then t.assignedTo.value.id else "",
      t.tags.GetOr([]), [], t.hoursSpent.GetOr(0.0), t.startDate, t.endDate)
  }

  /** The values as the update schema sees them. */
  function AsUpdateForm(v: EditValues): (f: TicketSchema.UpdateForm)
    ensures f.title == v.title && f.description == v.description && f.category == v.category
    ensures f.priority == v.priority && f.status == Some(v.status) && f.hoursSpent == Some(v.hoursSpent)
    ensures f.files.FileArray? && |f.files.items| == |v.files|
  {
    TicketSchema.UpdateForm(v.title, v.description, v.category, v.priority, Some(v.assignedTo),
      TicketSchema.FileArray(seq(|v.files|, i requires 0 <= i < |v.files| => TicketSchema.FileItem(v.files[i]))),
      Some(v.status), Some(v.hoursSpent), v.startDate, v.endDate)
  }

  /** The payload `handleSave` sends: the whole form as the update schema
      parsed it, every field defined except dates that were never set. The
      schema has no `tags` key and the parsed object keeps only the schema's
      keys, so the tags edited in the form are not part of it. */
  function SentData(v: EditValues): (d: UpdateData)
    ensures d.title == Some(v.title) && d.description == Some(v.description)
    ensures d.category == Some(v.category) && d.priority == Some(v.priority)
    ensures d.status == Some(v.status) && d.assignedTo == Some(v.assignedTo)
    ensures d.hoursSpent == Some(v.hoursSpent) && d.startDate == v.startDate && d.endDate == v.endDate
    ensures d.tags.None? && d.files == Some(v.files)
  {
    UpdateData(Some(v.title), Some(v.description), Some(v.category), Some(v.priority),
      Some(v.status), Some(v.assignedTo), Some(v.hoursSpent), v.startDate, v.endDate,
      None, Some(v.files))
  }

  /** The dialog's `canEdit`: admins and agents, whoever wrote the ticket. */
  predicate CanEdit(role: string) {
    role == ADMIN_ROLE || role == AGENT_ROLE
  }

  /** The dialog lets an agent edit a ticket that `canEditTicket` refuses
      them: the two rules disagree on other people's tickets. */
  lemma DialogGateWiderThanPermissions(t: Ticket, u: User)
    requires u.role == AGENT_ROLE && t.author.id != u.id
    ensures CanEdit(u.role) && !Permissions.CanEditTicket(t, u)
  {
  }

  /** Whatever `canEditTicket` allows, the dialog allows too. */
  lemma PermissionsNarrowerThanDialog(t: Ticket, u: User)
    ensures Permissions.CanEditTicket(t, u) ==> CanEdit(u.role)
  {
  }

  /** The pencil button: editors, while not already editing. */
  predicate EditButtonShown(role: string, isEditing: bool) {
    CanEdit(role) && !isEditing
  }

  /** The close-ticket button (in both modes). */
  predicate CloseButtonShown(role: string, status: string, hasOnClose: bool) {
    CanEdit(role) && status != "closed" && hasOnClose
  }

  /** Save is disabled while saving or when nothing was changed. */
  predicate SaveDisabled(updateLoading: bool, dirty: bool) {
    updateLoading || !dirty
  }

  /** The close button is never offered on a closed ticket nor to a plain
      user, and the page's store honours a close from anyone it is offered
      to. */
  lemma CloseButtonGate(role: string, status: string, hasOnClose: bool)
    ensures status == "closed" ==> !CloseButtonShown(role, status, hasOnClose)
    ensures role == USER_ROLE ==> !CloseButtonShown(role, status, hasOnClose)
    ensures CloseButtonShown(role, status, hasOnClose) ==> role == ADMIN_ROLE || role == AGENT_ROLE
  {
  }

  /** Saving a form whose only change is the title gives the ticket back
      from the page's store with the new title and `updatedAt`, when the
      ticket has hours and its assignee is the first user with that id (or
      it has none and no user has the id ""). */
  lemma SaveEditedTitleKeepsRest(t: Ticket, title: string, users: seq<User>, now: Date)
    requires t.hoursSpent.Some?
    requires t.assignedTo.Some? ==> FindUser(users, t.assignedTo.value.id) == t.assignedTo
    requires t.assignedTo.None? ==> FindUser(users, "").None?
    ensures title != t.title ==> ValuesFromTicket(t).(title := title) != ValuesFromTicket(t)
    ensures Store.ApplyUpdate(t, SentData(ValuesFromTicket(t).(title := title)), users, now)
      == t.(title := title, updatedAt := now)
  {
  }

  /** A ticket without hours whose form is changed but whose hours field
      is left at its reset value 0 is saved with 0 hours. */
  lemma SaveKeptHoursRecordsZero(t: Ticket, v: EditValues, users: seq<User>, now: Date)
    requires t.hoursSpent.None?
    requires v != ValuesFromTicket(t) && v.hoursSpent == ValuesFromTicket(t).hoursSpent
    ensures Store.ApplyUpdate(t, SentData(v), users, now).hoursSpent == Some(0.0)
  {
  }

  /** Tags edited in the dialog never reach the page's ticket. */
  lemma EditedTagsNeverSaved(t: Ticket, v: EditValues, users: seq<User>, now: Date)
    ensures Store.ApplyUpdate(t, SentData(v), users, now).tags == t.tags
  {
  }

  /** The dialog's state for one ticket. `defaults` are the values the
      form was last reset to; the form is dirty when it differs from them. */
  class TicketDetailDialog {
    var ticket: Ticket
    var isEditing: bool
    var chatLoading: bool
    var updateLoading: bool
    var closeLoading: bool
    var values: EditValues
    var defaults: EditValues

    /** The dialog opens in edit mode exactly when asked to. */
    constructor (t: Ticket, mode: string)
      ensures ticket == t && isEditing == (mode == "edit")
      ensures values == ValuesFromTicket(t) && defaults == values
      ensures !chatLoading && !updateLoading && !closeLoading
    {
      ticket := t;
      isEditing := mode == "edit";
      values := ValuesFromTicket(t);
      defaults := ValuesFromTicket(t);
      chatLoading := false;
      updateLoading := false;
      closeLoading := false;
    }

    predicate IsDirty()
      reads this
    {
      values != defaults
    }

    /** A new ticket resets the form to its values. */
    method TicketChanged(t: Ticket)
      modifies this
      ensures ticket == t && values == ValuesFromTicket(t) && defaults == values && !IsDirty()
      ensures isEditing == old(isEditing) && chatLoading == old(chatLoading)
      ensures updateLoading == old(updateLoading) && closeLoading == old(closeLoading)
    {
      ticket := t;
      values := ValuesFromTicket(t);
      defaults := values;
    }

    /** The user edits the form. */
    method Input(v: EditValues)
      modifies this
      ensures values == v && IsDirty() == (v != defaults)
      ensures ticket == old(ticket) && defaults == old(defaults) && isEditing == old(isEditing)
      ensures chatLoading == old(chatLoading) && updateLoading == old(updateLoading) && closeLoading == old(closeLoading)
    {
      values := v;
    }

    method StartEdit()
      modifies this
      ensures isEditing
      ensures ticket == old(ticket) && values == old(values) && defaults == old(defaults)
      ensures chatLoading == old(chatLoading) && updateLoading == old(updateLoading) && closeLoading == old(closeLoading)
    {
      isEditing := true;
    }

    /** The save button: shown only in edit mode, enabled only when the
        form is dirty and no save is running. It lies outside the `<form>`,
        so clicking it is the only way to submit. Then the schema must
        accept the form and the callback must exist; the callback runs as
        one step that succeeds (`ok`) or throws. Success leaves edit mode,
        failure stays in it, and the loading flag ends false either way. */
    method Save(hasOnUpdate: bool, ok: bool) returns (sent: Option<UpdateData>)
      modifies this
      ensures sent.Some? <==> (old(isEditing) && !SaveDisabled(old(updateLoading), old(IsDirty()))
        && hasOnUpdate && TicketSchema.UpdateValid(AsUpdateForm(old(values))))
      ensures sent.Some? ==> sent.value == SentData(old(values))
      ensures isEditing == if sent.Some? && ok then false else old(isEditing)
      ensures updateLoading == old(updateLoading)
      ensures ticket == old(ticket) && values == old(values) && defaults == old(defaults)
      ensures chatLoading == old(chatLoading) && closeLoading == old(closeLoading)
    {
      if !isEditing || SaveDisabled(updateLoading, IsDirty()) {
        return None;
      }
      if !TicketSchema.UpdateValid(AsUpdateForm(values)) || !hasOnUpdate {
        return None;
      }
      updateLoading := true;
      sent := Some(SentData(values));
      if ok {
        isEditing := false;
      }
      updateLoading := false;
    }

    /** Cancel: back to the last reset values, out of edit mode. */
    method CancelEdit()
      modifies this
      ensures values == old(defaults) && !IsDirty() && !isEditing
      ensures ticket == old(ticket) && defaults == old(defaults)
      ensures chatLoading == old(chatLoading) && updateLoading == old(updateLoading) && closeLoading == old(closeLoading)
    {
      values := defaults;
      isEditing := false;
    }

    /** Posting a comment through the chat: only `chatLoading` moves, and
        it ends false. */
    method AddComment(hasOnAddComment: bool)
      modifies this
      ensures chatLoading == if hasOnAddComment then false else old(chatLoading)
      ensures ticket == old(ticket) && values == old(values) && defaults == old(defaults) && isEditing == old(isEditing)
      ensures updateLoading == old(updateLoading) && closeLoading == old(closeLoading)
    {
      if hasOnAddComment {
        chatLoading := true;
        chatLoading := false;
      }
    }

    /** `handleCloseTicket`: the callback is invoked only when it exists and
        the role is admin or agent. */
    method CloseTicket(hasOnClose: bool, role: string) returns (requested: bool)
      modifies this
      ensures requested <==> hasOnClose && CanEdit(role)
      ensures closeLoading == if requested then false else old(closeLoading)
      ensures ticket == old(ticket) && values == old(values) && defaults == old(defaults) && isEditing == old(isEditing)
      ensures chatLoading == old(chatLoading) && updateLoading == old(updateLoading)
    {
      requested := hasOnClose && (role == ADMIN_ROLE || role == AGENT_ROLE);
      if requested {
        closeLoading := true;
        closeLoading := false;
      }
    }
  }
}
