/** The ticket creation flow: `CreateTicketForm` (defaults, submission,
    reset, the tag-field choice), `CreateTicketButton` (the dialog's open
    flag), and the role gates of `TicketPriorityField` and
    `TicketAssignmentField`. */
module CreateTicket {
  import opened Base
  import opened Types
  import TicketSchema
  import PriorityUtils
  import Users
  import Store

  // ---------------------------------------------------------------------
  // CreateTicketForm
  // ---------------------------------------------------------------------

  /** The create form's values. */
  datatype CreateValues = CreateValues(
    title: string, description: string, category: string, priority: string,
    assignedTo: string, tags: seq<Tag>, files: seq<FileBlob>)

  /** `defaultValues`: everything empty, the priority from the configuration. */
  function DefaultValues(config: HelpdeskConfig): (v: CreateValues)
    ensures v.title == "" && v.description == "" && v.category == "" && v.assignedTo == ""
    ensures v.priority == config.defaultPriority && v.tags == [] && v.files == []
  {
    CreateValues("", "", "", config.defaultPriority, "", [], [])
  }

  /** The form as the schema sees it. */
  function AsCreateForm(v: CreateValues): (f: TicketSchema.CreateForm)
    ensures f.title == v.title && f.description == v.description
    ensures f.category == v.category && f.priority == v.priority
    ensures f.assignedTo == Some(v.assignedTo)
    ensures f.files.FileArray? && |f.files.items| == |v.files|
    ensures forall i :: 0 <= i < |v.files| ==> f.files.items[i] == TicketSchema.FileItem(v.files[i])
  {
    TicketSchema.CreateForm(v.title, v.description, v.category, v.priority, Some(v.assignedTo),
      TicketSchema.FileArray(seq(|v.files|, i requires 0 <= i < |v.files| => TicketSchema.FileItem(v.files[i]))))
  }

  /** The schema only looks at the text fields: the chosen files are always
      acceptable, so they never block a submission. */
  lemma {:induction false} FilesNeverBlock(v: CreateValues)
    ensures TicketSchema.CreateValid(AsCreateForm(v)) <==>
      TicketSchema.TitleOk(v.title) && TicketSchema.DescriptionOk(v.description)
      && TicketSchema.CategoryOk(v.category) && TicketSchema.PriorityOk(v.priority)
  {
    var f := AsCreateForm(v);
    assert TicketSchema.FilesOk(f.files) by {
      forall i | 0 <= i < |f.files.items| ensures f.files.items[i].FileItem? {
        assert f.files.items[i] == TicketSchema.FileItem(v.files[i]);
      }
    }
  }

  /** The untouched form never passes the schema: its title is empty. */
  lemma DefaultsRejected(config: HelpdeskConfig)
    ensures !TicketSchema.CreateValid(AsCreateForm(DefaultValues(config)))
  {
  }

  /** The data the schema hands to `onSubmit`. The schema has no `tags` key,
      and the parsed object keeps only the schema's keys, so the tags chosen
      in the form are not part of it. */
  function SubmittedData(v: CreateValues): (d: CreateData)
    ensures d.title == v.title && d.description == v.description
    ensures d.category == v.category && d.priority == v.priority
    ensures d.assignedTo == Some(v.assignedTo) && d.files == v.files
    ensures d.tags == []
  {
    CreateData(v.title, v.description, v.category, v.priority, Some(v.assignedTo), [], v.files)
  }

  /** A submitted form becomes a ticket with the form's text fields, no
      tags, and no assignee when the picker was left empty. */
  lemma SubmittedFormBecomesTicket(v: CreateValues, id: string, now: Date, author: User, users: seq<User>)
    ensures var t := Store.NewTicket(SubmittedData(v), id, now, author, users);
      t.title == v.title && t.description == v.description && t.category == v.category
      && t.priority == v.priority && t.tags.None?
      && (v.assignedTo == "" ==> t.assignedTo.None?)
  {
  }

  /** `isButtonLoading`: both dialog buttons are disabled while the parent is
      loading or a submission is running. */
  predicate ButtonsDisabled(loading: bool, isSubmitting: bool) {
    loading || isSubmitting
  }

  /** Which tag field the form shows. */
  datatype TagField = NoTagField | TagEditor | TagDisplay

  /** With a category chosen, admins and agents get the tag editor and
      everyone else the read-only display; without one, neither. */
  function TagFieldFor(category: string, role: string): (r: TagField)
    ensures r == NoTagField <==> category == ""
    ensures r == TagEditor <==> category != "" && (role == ADMIN_ROLE || role == AGENT_ROLE)
    ensures r == TagDisplay <==> category != "" && role != ADMIN_ROLE && role != AGENT_ROLE
  {
    if category == "" then NoTagField
    else if role == ADMIN_ROLE || role == AGENT_ROLE then TagEditor
    else TagDisplay
  }

  /** The form's state: its values, the values `reset()` restores, and
      `isSubmitting`. */
  class CreateTicketForm {
    var values: CreateValues
    const defaults: CreateValues
    var isSubmitting: bool

    constructor (config: HelpdeskConfig)
      ensures defaults == DefaultValues(config) && values == defaults && !isSubmitting
    {
      defaults := DefaultValues(config);
      values := DefaultValues(config);
      isSubmitting := false;
    }

    /** The user edits the form. */
    method Input(v: CreateValues)
      modifies this
      ensures values == v && isSubmitting == old(isSubmitting)
    {
      values := v;
    }

    /** `handleSubmit(handleFormSubmit)`: nothing is sent unless the schema
        accepts the form; then `onSubmit` runs as one step that resolves
        (`ok`) or throws. Only a resolved submission resets the form, and
        `isSubmitting` ends false either way. */
    method Submit(ok: bool) returns (sent: Option<CreateData>)
      modifies this
      ensures sent.Some? <==> TicketSchema.CreateValid(AsCreateForm(old(values)))
      ensures sent.Some? ==> sent.value == SubmittedData(old(values))
      ensures values == if sent.Some? && ok then defaults else old(values)
      ensures isSubmitting == if sent.Some? then false else old(isSubmitting)
    {
      if !TicketSchema.CreateValid(AsCreateForm(values)) {
        return None;
      }
      isSubmitting := true;
      sent := Some(SubmittedData(values));
      if ok {
        values := defaults;
      }
      isSubmitting := false;
    }

    /** `handleClose`: the form is reset before the parent is told. */
    method Close()
      modifies this
      ensures values == defaults && isSubmitting == old(isSubmitting)
    {
      values := defaults;
    }
  }

  // ---------------------------------------------------------------------
  // CreateTicketButton
  // ---------------------------------------------------------------------

  /** `CreateTicketButton`'s dialog flag. */
  class CreateTicketButton {
    var open: bool

    constructor ()
      ensures !open
    {
      open := false;
    }

    method Open()
      modifies this
      ensures open
    {
      open := true;
    }

    method Close()
      modifies this
      ensures !open
    {
      open := false;
    }

    /** `handleSubmit`: the dialog closes only once `onSubmit` resolved; a
        rejected submission propagates and leaves it as it was. */
    method Submit(ok: bool)
      modifies this
      ensures open == if ok then false else old(open)
    {
      if ok {
        open := false;
      }
    }
  }

  /** The trigger (button or floating button) is disabled while loading. */
  predicate TriggerDisabled(loading: bool) {
    loading
  }

  // ---------------------------------------------------------------------
  // TicketPriorityField and TicketAssignmentField
  // ---------------------------------------------------------------------

  /** `currentUser?.role` is admin or agent; an absent user fails. */
  predicate IsStaffUser(currentUser: Option<User>) {
    currentUser.Some? && (currentUser.value.role == ADMIN_ROLE || currentUser.value.role == AGENT_ROLE)
  }

  /** What the priority field renders. */
  datatype PriorityField = PrioritySelect(options: seq<string>) | ReadOnlyPriority(text: string)

  /** Staff choose among the configured priorities; everyone else sees the
      default priority's label, or its raw value when it has none. */
  function PriorityFieldFor(config: HelpdeskConfig, currentUser: Option<User>): (r: PriorityField)
    ensures r.PrioritySelect? <==> IsStaffUser(currentUser)
    ensures r.PrioritySelect? ==> (|r.options| == |config.priorities|
      && forall i :: 0 <= i < |config.priorities| ==> r.options[i] == config.priorities[i].value)
  {
    if IsStaffUser(currentUser) then
      PrioritySelect(Map(config.priorities, (p: PriorityConfig) => p.value))
    else
      var found := Find(config.priorities, PriorityValueIs(config.defaultPriority));
      ReadOnlyPriority(if found.Some? then StrOr(found.value.caption, config.defaultPriority) else config.defaultPriority)
  }

  /** The read-only text is `getPriorityLabel` of the default priority. */
  lemma ReadOnlyShowsDefaultLabel(config: HelpdeskConfig, currentUser: Option<User>)
    requires !IsStaffUser(currentUser)
    ensures PriorityFieldFor(config, currentUser)
      == ReadOnlyPriority(PriorityUtils.GetPriorityLabel(config.defaultPriority, config.priorities))
    ensures !PriorityUtils.IsValidPriority(config.defaultPriority, config.priorities) ==>
      PriorityFieldFor(config, currentUser) == ReadOnlyPriority(config.defaultPriority)
  {
  }

  /** `canAssign`: there are users, and the current user is admin or agent. */
  predicate CanAssign(users: seq<User>, currentUser: Option<User>) {
    |users| > 0 && IsStaffUser(currentUser)
  }

  /** The assignment field is hidden with no users, for role user and
      without a current user, and shown to staff when there are users. */
  lemma AssignmentFieldGate(users: seq<User>, currentUser: Option<User>)
    ensures users == [] ==> !CanAssign(users, currentUser)
    ensures currentUser.None? ==> !CanAssign(users, currentUser)
    ensures currentUser.Some? && currentUser.value.role == USER_ROLE ==> !CanAssign(users, currentUser)
    ensures CanAssign(users, currentUser) <==> users != [] && IsStaffUser(currentUser)
  {
  }

  /** The gate counts all users, not the assignable ones: when no user is
      admin or agent the field is still shown, with only the placeholder
      in its menu. */
  lemma {:induction false} AssignmentFieldMayOfferNobody(users: seq<User>, currentUser: Option<User>)
    requires CanAssign(users, currentUser)
    requires forall i :: 0 <= i < |users| ==> users[i].role == USER_ROLE
    ensures Users.MenuOptions(users) == [Users.Placeholder]
  {
    Users.AssignableKeepsOrder(users);
  }
}
