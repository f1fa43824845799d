/** `apps/helpdesk-app/src/app/page.tsx`: the demo page's ticket array and
    the handlers that replace it. `Date.now()` values (used both as dates and
    as fresh ids) and `URL.createObjectURL` are parameters. */
module Store {
  import opened Base
  import opened Text
  import opened Types
  import Kanban

  /** `prev.map(t => t.id === id ? f(t) : t)`. */
  function MapTickets(tickets: seq<Ticket>, id: string, f: Ticket -> Ticket): (r: seq<Ticket>)
    ensures |r| == |tickets|
    ensures forall i :: 0 <= i < |tickets| ==> r[i] == if tickets[i].id == id then f(tickets[i]) else tickets[i]
  {
    seq(|tickets|, i requires 0 <= i < |tickets| => if tickets[i].id == id then f(tickets[i]) else tickets[i])
  }

  function IdIsNot(id: string): Ticket -> bool {
    (t: Ticket) => t.id != id
  }

  /** The ticket built by `handleCreateTicket`. */
  function NewTicket(data: CreateData, id: string, now: Date, author: User, users: seq<User>): (t: Ticket)
    ensures t.id == id && t.title == data.title && t.description == data.description
    ensures t.priority == data.priority && t.category == data.category
    ensures t.status == "open" && t.comments == Some([]) && t.attachments == Some([])
    ensures t.author == author && t.createdAt == now && t.updatedAt == now
    ensures data.assignedTo.None? || data.assignedTo.value == "" ==> t.assignedTo.None?
    ensures data.assignedTo.Some? && data.assignedTo.value != "" ==> t.assignedTo == FindUser(users, data.assignedTo.value)
    ensures t.tags.None? && t.hoursSpent.None? && t.startDate.None? && t.endDate.None?
  {
    var assignee := if data.assignedTo.Some? && data.assignedTo.value != "" then FindUser(users, data.assignedTo.value) else None;
    Ticket(id, data.title, data.description, data.priority, "open", data.category, None,
      now, now, author, assignee, Some([]), Some([]), None, None, None)
  }

  /** The per-ticket merge of `handleUpdateTicket`: `updatedAt` always, each
      other field only when defined in the data; a defined `assignedTo` is
      looked up among the users, so an unknown id (or "") unassigns. */
  function ApplyUpdate(t: Ticket, data: UpdateData, users: seq<User>, now: Date): (r: Ticket)
    ensures r.updatedAt == now
    ensures r.title == data.title.GetOr(t.title) && r.description == data.description.GetOr(t.description)
    ensures r.category == data.category.GetOr(t.category) && r.priority == data.priority.GetOr(t.priority)
    ensures r.status == data.status.GetOr(t.status)
    ensures r.assignedTo == if data.assignedTo.Some? then FindUser(users, data.assignedTo.value) else t.assignedTo
    ensures r.hoursSpent == (if data.hoursSpent.Some? then data.hoursSpent else t.hoursSpent)
    ensures r.startDate == (if data.startDate.Some? then data.startDate else t.startDate)
    ensures r.endDate == (if data.endDate.Some? then data.endDate else t.endDate)
    ensures r.id == t.id && r.author == t.author && r.createdAt == t.createdAt
    ensures r.tags == t.tags && r.comments == t.comments && r.attachments == t.attachments
  {
    t.(updatedAt := now,
       title := data.title.GetOr(t.title),
       description := data.description.GetOr(t.description),
       category := data.category.GetOr(t.category),
       priority := data.priority.GetOr(t.priority),
       status := data.status.GetOr(t.status),
       assignedTo := if data.assignedTo.Some? then FindUser(users, data.assignedTo.value) else t.assignedTo,
       hoursSpent := if data.hoursSpent.Some? then data.hoursSpent else t.hoursSpent,
       startDate := if data.startDate.Some? then data.startDate else t.startDate,
       endDate := if data.endDate.Some? then data.endDate else t.endDate)
  }

  function Updater(data: UpdateData, users: seq<User>, now: Date): Ticket -> Ticket {
    (t: Ticket) => ApplyUpdate(t, data, users, now)
  }

  /** The attachment made from the `index`-th uploaded file. */
  function UploadedAttachment(file: FileBlob, index: nat, stamp: nat, url: string, now: Date, uploader: User): (a: Attachment)
    ensures a.filename == file.name && a.size == file.size && a.mimeType == file.mimeType
    ensures a.url == url && a.uploadedAt == now && a.uploadedBy == uploader
  {
    Attachment("attachment-" + NatToString(stamp) + "-" + NatToString(index), file.name, url,
      file.size, file.mimeType, now, uploader)
  }

  /** The comment of `handleAddComment`; `attachments` is undefined unless
      some file was given. */
  function NewComment(ticketId: string, content: string, files: Option<seq<FileBlob>>,
                      stamp: nat, now: Date, author: User, urlOf: FileBlob -> string): (c: Comment)
    ensures c.id == NatToString(stamp) && c.content == content && c.ticketId == ticketId
    ensures c.author == author && c.createdAt == now
    ensures files.None? || files.value == [] ==> c.attachments.None?
    ensures files.Some? && files.value != [] ==>
      (c.attachments.Some? && |c.attachments.value| == |files.value|
       && forall i :: 0 <= i < |files.value| ==>
            c.attachments.value[i] == UploadedAttachment(files.value[i], i, stamp, urlOf(files.value[i]), now, author))
  {
    var attachments := if files.Some? && |files.value| > 0 then
      seq(|files.value|, i requires 0 <= i < |files.value| =>
        UploadedAttachment(files.value[i], i, stamp, urlOf(files.value[i]), now, author))
    else [];
    Comment(NatToString(stamp), content, now, author, ticketId,
      if |attachments| > 0 then Some(attachments) else None)
  }

  function Commenter(c: Comment, now: Date): Ticket -> Ticket {
    (t: Ticket) => t.(comments := Some(t.comments.GetOr([]) + [c]), updatedAt := now)
  }

  function Closer(now: Date): Ticket -> Ticket {
    (t: Ticket) => t.(status := "closed", updatedAt := now)
  }

  /** The demo page's state: its ticket list, its current user and the fixed
      list of known users. */
  class TicketStore {
    var tickets: seq<Ticket>
    var currentUser: User
    const users: seq<User>

    constructor (initialTickets: seq<Ticket>, initialUser: User, knownUsers: seq<User>)
      ensures tickets == initialTickets && currentUser == initialUser && users == knownUsers
    {
      tickets := initialTickets;
      currentUser := initialUser;
      users := knownUsers;
    }

    /** `handleDeleteTicket`: once confirmed, every ticket with that id goes. */
    method DeleteTicket(ticket: Ticket, confirmed: bool)
      modifies this
      ensures tickets == if confirmed then Filter(old(tickets), IdIsNot(ticket.id)) else old(tickets)
      ensures currentUser == old(currentUser)
    {
      if confirmed {
        tickets := Filter(tickets, IdIsNot(ticket.id));
      }
    }

    /** `handleCreateTicket`: the new ticket goes first. */
    method CreateTicket(data: CreateData, stamp: nat, now: Date)
      modifies this
      ensures tickets == [NewTicket(data, NatToString(stamp), now, old(currentUser), users)] + old(tickets)
      ensures currentUser == old(currentUser)
    {
      var t := NewTicket(data, NatToString(stamp), now, currentUser, users);
      tickets := [t] + tickets;
    }

    /** `handleUpdateTicket`. */
    method UpdateTicket(ticketId: string, data: UpdateData, now: Date)
      modifies this
      ensures tickets == MapTickets(old(tickets), ticketId, Updater(data, users, now))
      ensures currentUser == old(currentUser)
    {
      tickets := MapTickets(tickets, ticketId, Updater(data, users, now));
    }

    /** `handleAddComment`. */
    method AddComment(ticketId: string, content: string, files: Option<seq<FileBlob>>,
                      stamp: nat, now: Date, urlOf: FileBlob -> string)
      modifies this
      ensures tickets == MapTickets(old(tickets), ticketId,
        Commenter(NewComment(ticketId, content, files, stamp, now, old(currentUser), urlOf), now))
      ensures currentUser == old(currentUser)
    {
      var c := NewComment(ticketId, content, files, stamp, now, currentUser, urlOf);
      tickets := MapTickets(tickets, ticketId, Commenter(c, now));
    }

    /** `handleCloseTicket`: refused unless the current user is an admin or
        an agent. */
    method CloseTicket(ticketId: string, now: Date)
      modifies this
      ensures currentUser.role != ADMIN_ROLE && currentUser.role != AGENT_ROLE ==> tickets == old(tickets)
      ensures currentUser.role == ADMIN_ROLE || currentUser.role == AGENT_ROLE ==>
        tickets == MapTickets(old(tickets), ticketId, Closer(now))
      ensures currentUser == old(currentUser)
    {
      if currentUser.role != ADMIN_ROLE && currentUser.role != AGENT_ROLE {
        return;
      }
      tickets := MapTickets(tickets, ticketId, Closer(now));
    }
  }

  /** Delete removes exactly the tickets with that id and keeps the others in
      order. */
  lemma DeleteRemovesOnlyThatId(tickets: seq<Ticket>, id: string)
    ensures var r := Filter(tickets, IdIsNot(id));
      Subseq(r, tickets)
      && (forall i :: 0 <= i < |r| ==> r[i].id != id)
      && (forall i :: 0 <= i < |tickets| && tickets[i].id != id ==> tickets[i] in r)
  {
    FilterSubseq(tickets, IdIsNot(id));
  }

  /** Deleting a freshly created ticket restores the list, when its id was
      not in use. */
  lemma {:induction false} CreateThenDelete(tickets: seq<Ticket>, t: Ticket)
    requires forall i :: 0 <= i < |tickets| ==> tickets[i].id != t.id
    ensures Filter([t] + tickets, IdIsNot(t.id)) == tickets
  {
    assert ([t] + tickets)[1..] == tickets;
    FilterKeepsAll(tickets, IdIsNot(t.id));
  }

  /** Tickets with another id are never touched by a per-id handler. */
  lemma OthersUnchanged(tickets: seq<Ticket>, id: string, f: Ticket -> Ticket, i: nat)
    requires i < |tickets| && tickets[i].id != id
    ensures MapTickets(tickets, id, f)[i] == tickets[i]
  {
  }

  /** A defined assignee id that no user has (including "") unassigns. */
  lemma UnknownAssigneeUnassigns(t: Ticket, data: UpdateData, users: seq<User>, now: Date)
    requires data.assignedTo.Some?
    requires forall i :: 0 <= i < |users| ==> users[i].id != data.assignedTo.value
    ensures ApplyUpdate(t, data, users, now).assignedTo.None?
  {
  }

  /** An update with no defined field only bumps `updatedAt`. */
  lemma EmptyUpdateTouchesOnlyDate(t: Ticket, users: seq<User>, now: Date)
    ensures ApplyUpdate(t, UpdateData(None, None, None, None, None, None, None, None, None, None, None), users, now)
         == t.(updatedAt := now)
  {
  }

  /** The comment is appended after the existing ones (missing comments
      count as none). */
  lemma CommentAppended(t: Ticket, c: Comment, now: Date)
    ensures var r := Commenter(c, now)(t);
      r.comments.Some? && r.comments.value == t.comments.GetOr([]) + [c]
      && r.comments.value[|r.comments.value| - 1] == c
      && r == t.(comments := r.comments, updatedAt := now)
  {
  }

  /** A kanban drag followed by this page's update changes only the status
      and `updatedAt`, provided the ticket's assignee is the first known user
      with that id. */
  lemma DragThenUpdate(t: Ticket, status: string, users: seq<User>, now: Date)
    requires t.assignedTo.Some? ==> FindUser(users, t.assignedTo.value.id) == t.assignedTo
    ensures ApplyUpdate(t, Kanban.DragPayload(Some(t), status), users, now)
         == t.(status := status, updatedAt := now)
  {
  }
}
