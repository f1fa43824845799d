/** `utils/priority.ts`: priority labels and colours looked up in the
    configured priority list. */
module PriorityUtils {
  import opened Base
  import opened Types

  /** `priorities[i]` is the first entry whose value is `value`. */
  predicate FirstPriority(priorities: seq<PriorityConfig>, value: string, i: int) {
    0 <= i < |priorities| && priorities[i].value == value
    && forall j :: 0 <= j < i ==> priorities[j].value != value
  }

  /** `getPriorityColor`: the colour of the first priority with that value,
      "default" when there is none or its colour is missing or empty. */
  function GetPriorityColor(value: string, priorities: seq<PriorityConfig>): (r: string)
    ensures forall i :: FirstPriority(priorities, value, i) ==> r == OrElse(priorities[i].color, "default")
    ensures (forall i :: 0 <= i < |priorities| ==> priorities[i].value != value) ==> r == "default"
    ensures r != ""
  {
    match Find(priorities, PriorityValueIs(value))
    case Some(p) => OrElse(p.color, "default")
    case None => "default"
  }

  /** `getPriorityLabel`: the label of the first priority with that value, the
      raw value when there is none or its label is empty. */
  function GetPriorityLabel(value: string, priorities: seq<PriorityConfig>): (r: string)
    ensures forall i :: FirstPriority(priorities, value, i) ==> r == StrOr(priorities[i].caption, value)
    ensures (forall i :: 0 <= i < |priorities| ==> priorities[i].value != value) ==> r == value
  {
    match Find(priorities, PriorityValueIs(value))
    case Some(p) => StrOr(p.caption, value)
    case None => value
  }

  /** `isValidPriority`: some priority has that value. */
  function IsValidPriority(value: string, priorities: seq<PriorityConfig>): (r: bool)
    ensures r <==> exists i :: 0 <= i < |priorities| && priorities[i].value == value
  {
    Any(priorities, PriorityValueIs(value))
  }

  /** An unknown priority is shown as itself, in the "default" colour. */
  lemma UnknownPriorityFallback(value: string, priorities: seq<PriorityConfig>)
    requires !IsValidPriority(value, priorities)
    ensures GetPriorityLabel(value, priorities) == value
    ensures GetPriorityColor(value, priorities) == "default"
  {
  }

  /** Entries after the first match never influence the label or colour. */
  lemma {:induction false} LaterPrioritiesIgnored(value: string, priorities: seq<PriorityConfig>, more: seq<PriorityConfig>)
    requires IsValidPriority(value, priorities)
    ensures GetPriorityLabel(value, priorities + more) == GetPriorityLabel(value, priorities)
    ensures GetPriorityColor(value, priorities + more) == GetPriorityColor(value, priorities)
  {
    var k := FindIndex(priorities, PriorityValueIs(value));
    assert FirstPriority(priorities, value, k);
    assert FirstPriority(priorities + more, value, k);
  }
}
