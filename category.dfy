/** `utils/category.ts`: category lookups by exact value. */
module CategoryUtils {
  import opened Base
  import opened Types

  /** `categories[i]` is the first category whose value is exactly `value`. */
  predicate FirstCategory(categories: seq<CategoryConfig>, value: string, i: int) {
    0 <= i < |categories| && categories[i].value == value
    && forall j :: 0 <= j < i ==> categories[j].value != value
  }

  /** `getCategoryConfig`: the first category whose value matches exactly
      (case matters), or undefined. */
  function GetCategoryConfig(value: string, categories: seq<CategoryConfig>): (r: Option<CategoryConfig>)
    ensures forall i :: FirstCategory(categories, value, i) ==> r == Some(categories[i])
    ensures r.None? <==> forall i :: 0 <= i < |categories| ==> categories[i].value != value
  {
    Find(categories, CategoryValueIs(value))
  }

  /** `isValidCategory`: some category has that value. */
  function IsValidCategory(value: string, categories: seq<CategoryConfig>): (r: bool)
    ensures r <==> exists i :: 0 <= i < |categories| && categories[i].value == value
  {
    Any(categories, CategoryValueIs(value))
  }

  /** `getCategoryLabel`: the label of the first matching category, else the
      raw value (also when that label is empty). */
  function GetCategoryLabel(value: string, categories: seq<CategoryConfig>): (r: string)
    ensures forall i :: FirstCategory(categories, value, i) ==> r == StrOr(categories[i].caption, value)
    ensures (forall i :: 0 <= i < |categories| ==> categories[i].value != value) ==> r == value
  {
    match Find(categories, CategoryValueIs(value))
    case Some(c) => StrOr(c.caption, value)
    case None => value
  }

  /** A category is valid exactly when its configuration is found. */
  lemma ValidIffConfigured(value: string, categories: seq<CategoryConfig>)
    ensures IsValidCategory(value, categories) <==> GetCategoryConfig(value, categories).Some?
  {
  }

  /** The label is the found configuration's label when that is non-empty,
      and the raw value otherwise. */
  lemma LabelAgreesWithConfig(value: string, categories: seq<CategoryConfig>)
    ensures match GetCategoryConfig(value, categories)
      case Some(c) => GetCategoryLabel(value, categories) == StrOr(c.caption, value)
      case None => GetCategoryLabel(value, categories) == value
  {
  }
}
