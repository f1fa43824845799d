/** `context/HelpdeskContext.tsx`: the provider's state (configuration, role,
    current user, user list), its updates, the role flags and the context's
    own category lookups. */
module Context {
  import opened Base
  import opened Types
  import StatusUtils
  import Text
  import CategoryUtils

  function S(value: string, caption: string, color: string): StatusConfig {
    StatusConfig(value, caption, Some(color))
  }

  /** The built-in configuration. */
  const DefaultConfig: HelpdeskConfig := HelpdeskConfig(
    [ CategoryConfig("technical", "Technique",
        [S("open", "Ouvert", "primary"), S("in_progress", "En cours", "warning"),
         S("resolved", "Résolu", "success"), S("closed", "Fermé", "default")], Some("open")),
      CategoryConfig("billing", "Facturation",
        [S("open", "Ouvert", "primary"), S("in_progress", "En traitement", "warning"),
         S("resolved", "Traité", "success"), S("closed", "Fermé", "default")], Some("open")),
      CategoryConfig("account", "Compte utilisateur",
        [S("open", "Demande reçue", "primary"), S("in_progress", "En cours de traitement", "warning"),
         S("resolved", "Compte modifié", "success"), S("closed", "Terminé", "default")], Some("open")),
      CategoryConfig("feature", "Fonctionnalité",
        [S("open", "Demande reçue", "primary"), S("in_progress", "En développement", "warning"),
         S("in_test", "En test", "info"), S("resolved", "Livré", "success"),
         S("closed", "Fermé", "default")], Some("open")),
      CategoryConfig("bug", "Bug",
        [S("open", "Signalé", "error"), S("in_progress", "En correction", "warning"),
         S("in_test", "En test", "info"), S("resolved", "Corrigé", "success"),
         S("closed", "Fermé", "default")], Some("open")),
      CategoryConfig("other", "Autre",
        [S("open", "Ouvert", "primary"), S("in_progress", "En cours", "warning"),
         S("resolved", "Résolu", "success"), S("closed", "Fermé", "default")], Some("open")) ],
    [ PriorityConfig("low", "Basse", Some("success")),
      PriorityConfig("medium", "Moyenne", Some("warning")),
      PriorityConfig("high", "Élevée", Some("error")) ],
    Some([S("open", "Ouvert", "primary"), S("in_progress", "En cours", "warning"),
          S("in_test", "En test", "info"), S("resolved", "Résolu", "success"),
          S("closed", "Fermé", "default")]),
    "medium", Some(true), Some(10),
    Some([".jpg", ".jpeg", ".png", ".gif", ".pdf", ".doc", ".docx"]),
    Some(true), Some(false))

  /** A `Partial<HelpdeskConfig>`: `None` marks a key that is not present. */
  datatype ConfigPatch = ConfigPatch(
    categories: Option<seq<CategoryConfig>>, priorities: Option<seq<PriorityConfig>>,
    statuses: Option<seq<StatusConfig>>, defaultPriority: Option<string>,
    allowFileUpload: Option<bool>, maxFileSize: Option<int>,
    allowedFileTypes: Option<seq<string>>, enableNotifications: Option<bool>,
    enableAutoAssign: Option<bool>)

  const EmptyPatch := ConfigPatch(None, None, None, None, None, None, None, None, None)

  /** `{ ...base, ...patch }` for optional keys: present keys win. */
  function Over<T>(base: Option<T>, patch: Option<T>): (r: Option<T>)
    ensures patch.Some? ==> r == patch
    ensures patch.None? ==> r == base
  {
    if patch.Some? then patch else base
  }

  /** `{ ...base, ...patch }`: every key present in the patch replaces the
      base's value wholesale (a supplied category list replaces the whole
      default list); every other key keeps the base's value. */
  function Merge(base: HelpdeskConfig, patch: ConfigPatch): (r: HelpdeskConfig)
    ensures r.categories == patch.categories.GetOr(base.categories)
    ensures r.priorities == patch.priorities.GetOr(base.priorities)
    ensures r.statuses == Over(base.statuses, patch.statuses)
    ensures r.defaultPriority == patch.defaultPriority.GetOr(base.defaultPriority)
    ensures r.allowFileUpload == Over(base.allowFileUpload, patch.allowFileUpload)
    ensures r.maxFileSize == Over(base.maxFileSize, patch.maxFileSize)
    ensures r.allowedFileTypes == Over(base.allowedFileTypes, patch.allowedFileTypes)
    ensures r.enableNotifications == Over(base.enableNotifications, patch.enableNotifications)
    ensures r.enableAutoAssign == Over(base.enableAutoAssign, patch.enableAutoAssign)
  {
    HelpdeskConfig(
      patch.categories.GetOr(base.categories), patch.priorities.GetOr(base.priorities),
      Over(base.statuses, patch.statuses), patch.defaultPriority.GetOr(base.defaultPriority),
      Over(base.allowFileUpload, patch.allowFileUpload), Over(base.maxFileSize, patch.maxFileSize),
      Over(base.allowedFileTypes, patch.allowedFileTypes),
      Over(base.enableNotifications, patch.enableNotifications),
      Over(base.enableAutoAssign, patch.enableAutoAssign))
  }

  /** The patch that spreading `p` and then `q` amounts to. */
  function Then(p: ConfigPatch, q: ConfigPatch): ConfigPatch {
    ConfigPatch(
      Over(p.categories, q.categories), Over(p.priorities, q.priorities),
      Over(p.statuses, q.statuses), Over(p.defaultPriority, q.defaultPriority),
      Over(p.allowFileUpload, q.allowFileUpload), Over(p.maxFileSize, q.maxFileSize),
      Over(p.allowedFileTypes, q.allowedFileTypes),
      Over(p.enableNotifications, q.enableNotifications),
      Over(p.enableAutoAssign, q.enableAutoAssign))
  }

  /** An empty patch changes nothing. */
  lemma MergeEmpty(c: HelpdeskConfig)
    ensures Merge(c, EmptyPatch) == c
  {
  }

  /** Applying the same patch twice is applying it once. */
  lemma MergeIdempotent(c: HelpdeskConfig, p: ConfigPatch)
    ensures Merge(Merge(c, p), p) == Merge(c, p)
  {
  }

  /** Two successive updates amount to one update with the combined patch,
      the later keys winning. */
  lemma MergeThen(c: HelpdeskConfig, p: ConfigPatch, q: ConfigPatch)
    ensures Merge(Merge(c, p), q) == Merge(c, Then(p, q))
  {
  }

  /** `isAdmin`. */
  predicate IsAdmin(role: string) { role == ADMIN_ROLE }

  /** `isAgent`: agents and admins. */
  predicate IsAgent(role: string) { role == AGENT_ROLE || role == ADMIN_ROLE }

  /** `isUser`. */
  predicate IsUser(role: string) { role == USER_ROLE }

  /** Every admin counts as an agent, and a user is neither. */
  lemma RoleFlags(role: string)
    ensures IsAdmin(role) ==> IsAgent(role)
    ensures IsUser(role) ==> !IsAgent(role) && !IsAdmin(role)
    ensures role in {USER_ROLE, AGENT_ROLE, ADMIN_ROLE} ==> (IsUser(role) <==> !IsAgent(role))
  {
  }

  /** The context's `getStatusesForCategory`: the statuses of the first
      category whose value matches exactly, even an empty list; the global
      statuses or [] only when no category matches. */
  function StatusesForCategory(config: HelpdeskConfig, category: string): (r: seq<StatusConfig>)
    ensures forall i :: CategoryUtils.FirstCategory(config.categories, category, i) ==> r == config.categories[i].statuses
    ensures (forall i :: 0 <= i < |config.categories| ==> config.categories[i].value != category)
      ==> r == config.statuses.GetOr([])
  {
    match Find(config.categories, CategoryValueIs(category))
    case Some(c) => c.statuses
    case None => config.statuses.GetOr([])
  }

  /** The context's `getDefaultStatusForCategory`: the exact match's
      `defaultStatus`, else undefined. */
  function DefaultStatusForCategory(config: HelpdeskConfig, category: string): (r: Option<string>)
    ensures forall i :: CategoryUtils.FirstCategory(config.categories, category, i) ==> r == config.categories[i].defaultStatus
    ensures (forall i :: 0 <= i < |config.categories| ==> config.categories[i].value != category)
      ==> r.None?
  {
    match Find(config.categories, CategoryValueIs(category))
    case Some(c) => c.defaultStatus
    case None => None
  }

  /** The context lookup and the `utils/status.ts` lookup disagree on a
      category configured with no statuses: the context returns the empty
      list, the utility falls back to the global list. */
  lemma ContextDiffersFromUtils()
    ensures var config := DefaultConfig.(categories := [CategoryConfig("empty", "Vide", [], None)]);
      StatusesForCategory(config, "empty") == []
      && StatusUtils.GetStatusesForCategory(Some("empty"), config) == DefaultConfig.statuses.value
  {
    var config := DefaultConfig.(categories := [CategoryConfig("empty", "Vide", [], None)]);
    assert CategoryValueIs("empty")(config.categories[0]);
    assert StatusUtils.CategoryValueIsFolded("empty")(config.categories[0]);
  }

  /** ... and on case: the context matches exactly, the utility ignores case. */
  lemma ContextIsCaseSensitive()
    ensures var bug := CategoryConfig("bug", "Bug", [S("open", "Signalé", "error")], Some("open"));
      var config := DefaultConfig.(categories := [bug]);
      StatusesForCategory(config, "Bug") == DefaultConfig.statuses.value
      && StatusUtils.GetStatusesForCategory(Some("Bug"), config) == bug.statuses
  {
    var bug := CategoryConfig("bug", "Bug", [S("open", "Signalé", "error")], Some("open"));
    assert Text.Lower("Bug") == "bug" == Text.Lower(bug.value);
    assert StatusUtils.CategoryValueIsFolded("Bug")(bug);
    assert !CategoryValueIs("Bug")(bug);
  }

  /** The provider's state. */
  class HelpdeskContext {
    var config: HelpdeskConfig
    var role: string
    var currentUser: User
    var users: seq<User>

    /** `HelpdeskProvider`: the defaults overridden by the supplied keys; the
        role defaults to "user". */
    constructor (userConfig: ConfigPatch, userRole: Option<string>, initialUser: User, initialUsers: seq<User>)
      ensures config == Merge(DefaultConfig, userConfig)
      ensures role == userRole.GetOr(USER_ROLE)
      ensures currentUser == initialUser && users == initialUsers
    {
      config := Merge(DefaultConfig, userConfig);
      role := userRole.GetOr(USER_ROLE);
      currentUser := initialUser;
      users := initialUsers;
    }

    /** `updateConfig`: only the keys present in the patch change. */
    method UpdateConfig(patch: ConfigPatch)
      modifies this
      ensures config == Merge(old(config), patch)
      ensures role == old(role) && currentUser == old(currentUser) && users == old(users)
    {
      config := Merge(config, patch);
    }

    /** `updateUserRole`: only the role changes; the current user keeps the
        role it had. */
    method UpdateUserRole(newRole: string)
      modifies this
      ensures role == newRole
      ensures config == old(config) && currentUser == old(currentUser) && users == old(users)
    {
      role := newRole;
    }

    /** `setCurrentUser`. */
    method SetCurrentUser(user: User)
      modifies this
      ensures currentUser == user
      ensures config == old(config) && role == old(role) && users == old(users)
    {
      currentUser := user;
    }

    /** `setUsers`. */
    method SetUsers(newUsers: seq<User>)
      modifies this
      ensures users == newUsers
      ensures config == old(config) && role == old(role) && currentUser == old(currentUser)
    {
      users := newUsers;
    }

    predicate IsAdminFlag() reads this { IsAdmin(role) }
    predicate IsAgentFlag() reads this { IsAgent(role) }
    predicate IsUserFlag() reads this { IsUser(role) }

    /** The context's `getStatusesForCategory` on the current configuration. */
    function GetStatusesForCategory(category: string): (r: seq<StatusConfig>)
      reads this
      ensures forall i :: CategoryUtils.FirstCategory(config.categories, category, i) ==> r == config.categories[i].statuses
      ensures (forall i :: 0 <= i < |config.categories| ==> config.categories[i].value != category)
        ==> r == config.statuses.GetOr([])
    {
      StatusesForCategory(config, category)
    }

    /** The context's `getDefaultStatusForCategory` on the current configuration. */
    function GetDefaultStatusForCategory(category: string): (r: Option<string>)
      reads this
      ensures forall i :: CategoryUtils.FirstCategory(config.categories, category, i) ==> r == config.categories[i].defaultStatus
      ensures (forall i :: 0 <= i < |config.categories| ==> config.categories[i].value != category) ==> r.None?
    {
      DefaultStatusForCategory(config, category)
    }
  }
}
