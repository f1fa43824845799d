/** `StatusChip` and `PriorityChip`: the status list a chip resolves against,
    and the label and colour it shows. */
module Chips {
  import opened Base
  import opened Types
  import opened Context
  import CategoryUtils
  import opened StatusUtils
  import opened PriorityUtils

  /** The statuses a status chip looks in: the context's list for a truthy
      `category`, else the global statuses or []. */
  function ChipStatuses(config: HelpdeskConfig, category: Option<string>): (r: seq<StatusConfig>)
    ensures category.Some? && category.value != "" ==> r == StatusesForCategory(config, category.value)
    ensures category.None? || category.value == "" ==> r == config.statuses.GetOr([])
  {
    if category.Some? && category.value != "" then StatusesForCategory(config, category.value)
    else config.statuses.GetOr([])
  }

  /** The label of a chip: the configured label or the raw value, prefixed
      with the raw value and ": " when `showValue` is set. */
  function ShownLabel(value: string, found: Option<string>, showValue: bool): string {
    var caption := OrElse(found, value);
    if showValue then value + ": " + caption else caption
  }

  /** The label a status chip shows, from its own `find` on the list. */
  function StatusChipLabel(config: HelpdeskConfig, status: string, category: Option<string>, showValue: bool): string {
    var statuses := ChipStatuses(config, category);
    var found := Find(statuses, StatusValueIs(status));
    ShownLabel(status, if found.Some? then Some(found.value.caption) else None, showValue)
  }

  /** The colour a status chip shows. */
  function StatusChipColor(config: HelpdeskConfig, status: string, category: Option<string>): string {
    GetStatusColor(status, ChipStatuses(config, category))
  }

  /** The chip's label is `getStatusLabel` on the same list, prefixed with
      "<status>: " exactly when `showValue` is set; an unknown status is shown
      raw, in the "default" colour. */
  lemma StatusChipMatchesUtils(config: HelpdeskConfig, status: string, category: Option<string>, showValue: bool)
    ensures var statuses := ChipStatuses(config, category);
      StatusChipLabel(config, status, category, showValue)
      == (if showValue then status + ": " else "") + GetStatusLabel(status, statuses)
    ensures var statuses := ChipStatuses(config, category);
      !IsValidStatus(status, statuses) ==>
        StatusChipLabel(config, status, category, false) == status
        && StatusChipColor(config, status, category) == "default"
  {
  }

  /** A chip with a truthy category resolves in that category's own list even
      when the list is empty: a status is then always shown raw in "default". */
  lemma {:induction false} EmptyCategoryShowsRaw(config: HelpdeskConfig, status: string, category: string, i: nat)
    requires category != ""
    requires CategoryUtils.FirstCategory(config.categories, category, i)
    requires config.categories[i].statuses == []
    ensures StatusChipLabel(config, status, Some(category), false) == status
    ensures StatusChipColor(config, status, Some(category)) == "default"
  {
    assert ChipStatuses(config, Some(category)) == [];
  }

  /** The label a priority chip shows, from its own `find` on the configured
      priorities. */
  function PriorityChipLabel(config: HelpdeskConfig, priority: string, showValue: bool): string {
    var found := Find(config.priorities, PriorityValueIs(priority));
    ShownLabel(priority, if found.Some? then Some(found.value.caption) else None, showValue)
  }

  /** The colour a priority chip shows. */
  function PriorityChipColor(config: HelpdeskConfig, priority: string): string {
    GetPriorityColor(priority, config.priorities)
  }

  /** The first matching priority gives the label, prefixed with
      "<priority>: " exactly when `showValue` is set; an unknown priority is
      shown raw, in the "default" colour. */
  lemma {:induction false} PriorityChipFirstMatch(config: HelpdeskConfig, priority: string, showValue: bool, i: nat)
    requires FirstPriority(config.priorities, priority, i)
    ensures PriorityChipLabel(config, priority, showValue)
      == (if showValue then priority + ": " else "") + StrOr(config.priorities[i].caption, priority)
    ensures PriorityChipColor(config, priority) == OrElse(config.priorities[i].color, "default")
  {
    FindIsFirst(config.priorities, PriorityValueIs(priority), i);
  }

  lemma PriorityChipUnknown(config: HelpdeskConfig, priority: string, showValue: bool)
    requires !IsValidPriority(priority, config.priorities)
    ensures PriorityChipLabel(config, priority, showValue)
      == if showValue then priority + ": " + priority else priority
    ensures PriorityChipColor(config, priority) == "default"
  {
  }
}
