/** `HelpdeskApp`: the demo shell around the create button, with its role
    badge, its permission chips, the success notice and the last created
    ticket's summary. */
module HelpdeskAppView {
  import opened Base
  import opened Types
  import Context
  import CategoryUtils

  /** `getRoleColor`. */
  function RoleColor(role: string): (r: string)
    ensures role == ADMIN_ROLE ==> r == "error"
    ensures role == AGENT_ROLE ==> r == "warning"
    ensures role == USER_ROLE ==> r == "primary"
    ensures role != ADMIN_ROLE && role != AGENT_ROLE && role != USER_ROLE ==> r == "default"
  {
    if role == ADMIN_ROLE then "error"
    else if role == AGENT_ROLE then "warning"
    else if role == USER_ROLE then "primary"
    else "default"
  }

  /** `getRoleLabel`. */
  function RoleLabel(role: string): (r: string)
    ensures role == ADMIN_ROLE ==> r == "Administrateur"
    ensures role == AGENT_ROLE ==> r == "Agent"
    ensures role == USER_ROLE ==> r == "Utilisateur"
    ensures role != ADMIN_ROLE && role != AGENT_ROLE && role != USER_ROLE ==> r == role
  {
    if role == ADMIN_ROLE then "Administrateur"
    else if role == AGENT_ROLE then "Agent"
    else if role == USER_ROLE then "Utilisateur"
    else role
  }

  /** The badge shows the raw role exactly when it has the neutral colour,
      i.e. for an unknown role; the three known roles get distinct labels
      and distinct colours. An unknown role spelled like a known label
      ("Agent") is displayed exactly like that role. */
  lemma RoleBadge(role: string)
    ensures RoleLabel(role) == role <==> RoleColor(role) == "default"
    ensures RoleLabel(ADMIN_ROLE) != RoleLabel(AGENT_ROLE) && RoleLabel(AGENT_ROLE) != RoleLabel(USER_ROLE)
      && RoleLabel(ADMIN_ROLE) != RoleLabel(USER_ROLE)
    ensures RoleColor(ADMIN_ROLE) != RoleColor(AGENT_ROLE) && RoleColor(AGENT_ROLE) != RoleColor(USER_ROLE)
      && RoleColor(ADMIN_ROLE) != RoleColor(USER_ROLE)
    ensures RoleLabel("Agent") == RoleLabel(AGENT_ROLE) && RoleColor("Agent") != RoleColor(AGENT_ROLE)
  {
  }

  /** The category label of a created ticket: the first matching category's
      label when non-empty, else the raw value. */
  function CreatedCategoryLabel(config: HelpdeskConfig, category: string): (r: string)
    ensures r == CategoryUtils.GetCategoryLabel(category, config.categories)
  {
    var found := Find(config.categories, CategoryValueIs(category));
    if found.Some? && found.value.caption != "" then found.value.caption else category
  }

  /** The label in the summary of the last created ticket: the found
      category's label, without a fallback (undefined when not found). */
  function SummaryCategoryLabel(config: HelpdeskConfig, category: string): (r: Option<string>)
    ensures r.None? <==> !CategoryUtils.IsValidCategory(category, config.categories)
  {
    var found := Find(config.categories, CategoryValueIs(category));
    if found.Some? then Some(found.value.caption) else None
  }

  /** The summary and the log line agree whenever the category is known and
      labelled; otherwise the log falls back to the raw value and the summary
      does not. */
  lemma SummaryAgreesWithLog(config: HelpdeskConfig, category: string)
    ensures var s := SummaryCategoryLabel(config, category);
      s.Some? && s.value != "" ==> s.value == CreatedCategoryLabel(config, category)
    ensures var s := SummaryCategoryLabel(config, category);
      s.None? ==> CreatedCategoryLabel(config, category) == category
  {
  }

  /** The three permission chips: admin lit for `isAdmin`, agent for
      `isAgent`, user for `!isAgent`. */
  datatype PermissionChips = PermissionChips(admin: bool, agent: bool, user: bool)

  function ChipsFor(role: string): (r: PermissionChips)
    ensures r.admin == Context.IsAdmin(role) && r.agent == Context.IsAgent(role)
    ensures r.user == !Context.IsAgent(role)
  {
    PermissionChips(Context.IsAdmin(role), Context.IsAgent(role), !Context.IsAgent(role))
  }

  /** The user chip is lit exactly when the agent chip is not, so any role
      other than admin and agent, known or not, is shown as a user; an admin
      lights both the admin and the agent chip. */
  lemma ChipsPartitionRoles(role: string)
    ensures ChipsFor(role).user <==> !ChipsFor(role).agent
    ensures ChipsFor(role).user <==> role != ADMIN_ROLE && role != AGENT_ROLE
    ensures role == ADMIN_ROLE ==> ChipsFor(role) == PermissionChips(true, true, false)
  {
  }

  /** The role given to the provider, "user" when none is passed. */
  function AppRole(userRole: Option<string>): (r: string)
    ensures userRole.Some? ==> r == userRole.value
    ensures userRole.None? ==> Context.IsUser(r) && !Context.IsAgent(r)
  {
    userRole.GetOr(USER_ROLE)
  }

  /** The shell's own state. */
  class HelpdeskAppState {
    var loading: bool
    var showSuccess: bool
    var lastSubmitted: Option<CreateData>

    constructor ()
      ensures !loading && !showSuccess && lastSubmitted.None?
    {
      loading := false;
      showSuccess := false;
      lastSubmitted := None;
    }

    /** `handleCreateTicket`: the simulated call always resolves; the data is
        kept for the summary, loading ends and the notice opens. */
    method CreateTicket(data: CreateData)
      modifies this
      ensures lastSubmitted == Some(data) && !loading && showSuccess
    {
      loading := true;
      lastSubmitted := Some(data);
      loading := false;
      showSuccess := true;
    }

    /** `handleCloseSuccess`: the notice closes, the summary stays. */
    method CloseSuccess()
      modifies this
      ensures !showSuccess && loading == old(loading) && lastSubmitted == old(lastSubmitted)
    {
      showSuccess := false;
    }
  }
}
