/** The helpdesk's records: users, tickets, comments, attachments, tags and the
    configuration that gives categories, statuses and priorities their labels
    and colours. Roles, statuses, priorities and categories are strings, as in
    the source, so that unknown values reach the code's fallback branches. */
module Types {
  import opened Base

  /** A point in time (`Date`), as milliseconds. */
  type Date = int

  const USER_ROLE := "user"
  const AGENT_ROLE := "agent"
  const ADMIN_ROLE := "admin"

  /** `user.avatar`: an image URL, an arbitrary rendered node, or nothing.
      Rendered nodes are element objects and therefore always truthy. */
  datatype Avatar = NoAvatar | UrlAvatar(url: string) | NodeAvatar(node: nat)

  datatype User = User(id: string, name: string, email: string, avatar: Avatar, role: string)

  /** A browser `File` chosen by the user. */
  datatype FileBlob = FileBlob(name: string, size: nat, mimeType: string)

  datatype Attachment = Attachment(
    id: string, filename: string, url: string, size: nat, mimeType: string,
    uploadedAt: Date, uploadedBy: User)

  datatype Comment = Comment(
    id: string, content: string, createdAt: Date, author: User, ticketId: string,
    attachments: Option<seq<Attachment>>)

  /** Where the code writes `label`, the records below have `caption`
      (`label` is a Dafny keyword). */

  /** A tag; depending on where it comes from it is keyed by `id` (the
      component library and the demo app) or by `value` (the database example). */
  datatype Tag = Tag(id: Option<string>, value: Option<string>, caption: string, color: Option<string>)

  datatype Ticket = Ticket(
    id: string, title: string, description: string, priority: string,
    status: string, category: string, tags: Option<seq<Tag>>,
    createdAt: Date, updatedAt: Date, author: User, assignedTo: Option<User>,
    comments: Option<seq<Comment>>, attachments: Option<seq<Attachment>>,
    hoursSpent: Option<real>, startDate: Option<Date>, endDate: Option<Date>)

  datatype StatusConfig = StatusConfig(value: string, caption: string, color: Option<string>)

  datatype PriorityConfig = PriorityConfig(value: string, caption: string, color: Option<string>)

  datatype CategoryConfig = CategoryConfig(
    value: string, caption: string, statuses: seq<StatusConfig>,
    defaultStatus: Option<string>)

  datatype HelpdeskConfig = HelpdeskConfig(
    categories: seq<CategoryConfig>, priorities: seq<PriorityConfig>,
    statuses: Option<seq<StatusConfig>>, defaultPriority: string,
    allowFileUpload: Option<bool>, maxFileSize: Option<int>,
    allowedFileTypes: Option<seq<string>>, enableNotifications: Option<bool>,
    enableAutoAssign: Option<bool>)

  /** The partial ticket data that forms hand to `onUpdateTicket`: a field is
      `None` when it is `undefined` in the payload. */
  datatype UpdateData = UpdateData(
    title: Option<string>, description: Option<string>, category: Option<string>,
    priority: Option<string>, status: Option<string>, assignedTo: Option<string>,
    hoursSpent: Option<real>, startDate: Option<Date>, endDate: Option<Date>,
    tags: Option<seq<Tag>>, files: Option<seq<FileBlob>>)

  /** The create form's data handed to `onSubmit`. */
  datatype CreateData = CreateData(
    title: string, description: string, category: string, priority: string,
    assignedTo: Option<string>, tags: seq<Tag>, files: seq<FileBlob>)

  /** Predicates used with `find`/`filter` throughout the code. */
  function TicketIdIs(id: string): Ticket -> bool { (t: Ticket) => t.id == id }
  function UserIdIs(id: string): User -> bool { (u: User) => u.id == id }
  function StatusValueIs(v: string): StatusConfig -> bool { (s: StatusConfig) => s.value == v }
  function PriorityValueIs(v: string): PriorityConfig -> bool { (p: PriorityConfig) => p.value == v }
  function CategoryValueIs(v: string): CategoryConfig -> bool { (c: CategoryConfig) => c.value == v }

  /** `users.find(u => u.id === id)`. */
  function FindUser(users: seq<User>, id: string): Option<User> {
    Find(users, UserIdIs(id))
  }

  /** `tickets.find(t => t.id === id)`. */
  function FindTicket(tickets: seq<Ticket>, id: string): Option<Ticket> {
    Find(tickets, TicketIdIs(id))
  }
}
