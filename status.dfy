/** `utils/status.ts`: status labels and colours looked up in a status list,
    and the statuses and default status of a category. */
module StatusUtils {
  import opened Base
  import opened Text
  import opened Types

  /** `statuses[i]` is the first entry whose value is `value`. */
  predicate FirstStatus(statuses: seq<StatusConfig>, value: string, i: int) {
    0 <= i < |statuses| && statuses[i].value == value
    && forall j :: 0 <= j < i ==> statuses[j].value != value
  }

  /** `getStatusColor`: the colour of the first status with that value, and
      "default" when there is none or its colour is missing or empty. */
  function GetStatusColor(value: string, statuses: seq<StatusConfig>): (r: string)
    ensures forall i :: FirstStatus(statuses, value, i) ==> r == OrElse(statuses[i].color, "default")
    ensures (forall i :: 0 <= i < |statuses| ==> statuses[i].value != value) ==> r == "default"
    ensures r != ""
  {
    match Find(statuses, StatusValueIs(value))
    case Some(s) => OrElse(s.color, "default")
    case None => "default"
  }

  /** `getStatusLabel`: the label of the first status with that value, and the
      raw value when there is none or its label is empty. */
  function GetStatusLabel(value: string, statuses: seq<StatusConfig>): (r: string)
    ensures forall i :: FirstStatus(statuses, value, i) ==> r == StrOr(statuses[i].caption, value)
    ensures (forall i :: 0 <= i < |statuses| ==> statuses[i].value != value) ==> r == value
  {
    match Find(statuses, StatusValueIs(value))
    case Some(s) => StrOr(s.caption, value)
    case None => value
  }

  /** `isValidStatus`: some status has that value. */
  function IsValidStatus(value: string, statuses: seq<StatusConfig>): (r: bool)
    ensures r <==> exists i :: 0 <= i < |statuses| && statuses[i].value == value
  {
    Any(statuses, StatusValueIs(value))
  }

  /** An unknown status is shown as itself, in the "default" colour. */
  lemma UnknownStatusFallback(value: string, statuses: seq<StatusConfig>)
    requires !IsValidStatus(value, statuses)
    ensures GetStatusLabel(value, statuses) == value
    ensures GetStatusColor(value, statuses) == "default"
  {
  }

  /** A known status with a label is shown with that label. */
  lemma {:induction false} KnownStatusLabel(value: string, statuses: seq<StatusConfig>)
    requires IsValidStatus(value, statuses)
    ensures exists i :: (FirstStatus(statuses, value, i)
      && GetStatusLabel(value, statuses) == StrOr(statuses[i].caption, value))
  {
    var k := FindIndex(statuses, StatusValueIs(value));
    assert FirstStatus(statuses, value, k);
  }

  /** The case-insensitive category match of `utils/status.ts`. */
  function CategoryValueIsFolded(v: string): CategoryConfig -> bool {
    (c: CategoryConfig) => Lower(c.value) == Lower(v)
  }

  /** `categories[i]` is the first category whose value equals `v` up to case. */
  predicate FirstFoldedCategory(categories: seq<CategoryConfig>, v: string, i: int) {
    0 <= i < |categories| && Lower(categories[i].value) == Lower(v)
    && forall j :: 0 <= j < i ==> Lower(categories[j].value) != Lower(v)
  }

  /** `getStatusesForCategory` of `utils/status.ts`: the statuses of the first
      category matching up to case, when that list is non-empty; otherwise,
      and for an undefined or empty category, the global statuses or []. */
  function GetStatusesForCategory(category: Option<string>, config: HelpdeskConfig): (r: seq<StatusConfig>)
    ensures category.None? || category.value == "" ==> r == config.statuses.GetOr([])
    ensures category.Some? && category.value != "" ==>
      forall i :: FirstFoldedCategory(config.categories, category.value, i) ==>
      r == if config.categories[i].statuses != [] then config.categories[i].statuses
           else config.statuses.GetOr([])
    ensures category.Some? &&
      (forall i :: 0 <= i < |config.categories| ==> Lower(config.categories[i].value) != Lower(category.value))
      ==> r == config.statuses.GetOr([])
  {
    if category.Some? && category.value != "" then
      match Find(config.categories, CategoryValueIsFolded(category.value))
      case Some(cat) =>
        if |cat.statuses| > 0 then cat.statuses else config.statuses.GetOr([])
      case None => config.statuses.GetOr([])
    else config.statuses.GetOr([])
  }

  /** The result is never empty unless the global list is: a category can
      only contribute a non-empty list. */
  lemma StatusesNonEmpty(category: Option<string>, config: HelpdeskConfig)
    requires config.statuses.Some? && config.statuses.value != []
    ensures GetStatusesForCategory(category, config) != []
  {
  }

  /** `getDefaultStatusForCategory` of `utils/status.ts`: the `defaultStatus`
      of the first category matching up to case, or undefined. */
  function GetDefaultStatusForCategory(category: string, config: HelpdeskConfig): (r: Option<string>)
    ensures forall i :: FirstFoldedCategory(config.categories, category, i) ==>
      r == config.categories[i].defaultStatus
    ensures (forall i :: 0 <= i < |config.categories| ==> Lower(config.categories[i].value) != Lower(category))
      ==> r.None?
  {
    match Find(config.categories, CategoryValueIsFolded(category))
    case Some(cat) => cat.defaultStatus
    case None => None
  }

  /** Matching ignores ASCII case: categories differing only in case are
      interchangeable. */
  lemma CategoryCaseInsensitive(a: string, b: string, config: HelpdeskConfig)
    requires Lower(a) == Lower(b)
    ensures GetStatusesForCategory(Some(a), config) == GetStatusesForCategory(Some(b), config)
    ensures GetDefaultStatusForCategory(a, config) == GetDefaultStatusForCategory(b, config)
  {
    assert CategoryValueIsFolded(a) == CategoryValueIsFolded(b);
  }
}
