/** `kanban/KanbanCard.tsx`: what a kanban card shows. */
module KanbanCardView {
  import opened Base
  import opened Text
  import opened Types
  import opened KanbanBoard
  import CategoryUtils

  /** The card's own `getCategoryLabel`: the configured label, else the raw
      category. */
  function CardCategoryLabel(categories: seq<CategoryConfig>, category: string): (r: string)
    ensures forall i :: CategoryUtils.FirstCategory(categories, category, i) ==> r == StrOr(categories[i].caption, category)
    ensures (forall i :: 0 <= i < |categories| ==> categories[i].value != category) ==> r == category
  {
    match Find(categories, CategoryValueIs(category))
    case Some(c) => StrOr(c.caption, category)
    case None => category
  }

  /** It is the same lookup as `getCategoryLabel` in `utils/category.ts`. */
  lemma CardLabelIsCategoryLabel(categories: seq<CategoryConfig>, category: string)
    ensures CardCategoryLabel(categories, category) == CategoryUtils.GetCategoryLabel(category, categories)
  {
  }

  /** The description line: the first 100 characters and "..." when longer
      than 100, "Aucune description" when empty, else the description. */
  function DescriptionText(description: string): (r: string)
    ensures |description| > 100 ==> r == description[..100] + "..."
    ensures description == "" ==> r == "Aucune description"
    ensures 0 < |description| <= 100 ==> r == description
  {
    if description != "" && |description| > 100 then Truncate(description, 100)
    else StrOr(description, "Aucune description")
  }

  /** What the hours slot renders: nothing, the hours chip, or a bare text. */
  datatype HoursSlot = NoHours | HoursChip(hours: real) | BareText(text: string)

  /** `{card.hoursSpent && <Chip .../>}` as written: an undefined value renders
      nothing, but a value of 0 is itself rendered, as the text "0". */
  function HoursSlotAsWritten(hoursSpent: Option<real>): (r: HoursSlot)
    ensures r.HoursChip? <==> hoursSpent.Some? && hoursSpent.value != 0.0
    ensures r.HoursChip? ==> r.hours == hoursSpent.value
  {
    match hoursSpent
    case None => NoHours
    case Some(h) => if h == 0.0 then BareText("0") else HoursChip(h)
  }

  /** A ticket with 0 hours gets a stray "0" on its card. */
  lemma ZeroHoursRendersBareZero()
    ensures HoursSlotAsWritten(Some(0.0)) == BareText("0")
  {
  }

  /** The evidently intended slot: the chip for non-zero hours, else nothing. */
  function HoursSlotIntended(hoursSpent: Option<real>): (r: HoursSlot)
    ensures r.HoursChip? <==> hoursSpent.Some? && hoursSpent.value != 0.0
    ensures r.HoursChip? ==> r.hours == hoursSpent.value
    ensures !r.BareText?
  {
    if hoursSpent.Some? && hoursSpent.value != 0.0 then HoursChip(hoursSpent.value) else NoHours
  }

  /** Both show the chip in the same cases; they differ only at 0. */
  lemma HoursSlotsAgreeExceptZero(hoursSpent: Option<real>)
    ensures HoursSlotAsWritten(hoursSpent) == HoursSlotIntended(hoursSpent)
      <==> !(hoursSpent.Some? && hoursSpent.value == 0.0)
  {
  }

  /** The parts of a card's face that depend on data. */
  datatype CardFace = CardFace(
    title: string, priority: string, description: string, author: User,
    assignee: Option<User>, hours: HoursSlot, commentCount: Option<nat>,
    attachmentCount: Option<nat>)

  /** The card's face as rendered: the assignee section only with an
      assignee, the hours slot as written (a stray "0" for 0 hours), the
      comment and attachment chips only for non-zero counts. */
  function Face(card: Card): (f: CardFace)
    ensures f.description == DescriptionText(card.description)
    ensures f.assignee == card.assignedTo
    ensures f.hours == HoursSlotAsWritten(card.hoursSpent)
    ensures f.hours.HoursChip? <==> card.hoursSpent.Some? && card.hoursSpent.value != 0.0
    ensures card.hoursSpent == Some(0.0) ==> f.hours == BareText("0")
    ensures f.commentCount.Some? <==> |card.comments| > 0
    ensures f.commentCount.Some? ==> f.commentCount.value == |card.comments|
    ensures f.attachmentCount.Some? <==> |card.attachments| > 0
    ensures f.attachmentCount.Some? ==> f.attachmentCount.value == |card.attachments|
  {
    CardFace(card.title, card.priority, DescriptionText(card.description), card.author,
      card.assignedTo, HoursSlotAsWritten(card.hoursSpent),
      if |card.comments| > 0 then Some(|card.comments|) else None,
      if |card.attachments| > 0 then Some(|card.attachments|) else None)
  }

  /** The evidently intended face: the same, with the corrected hours slot. */
  function FaceIntended(card: Card): (f: CardFace)
    ensures f.hours == HoursSlotIntended(card.hoursSpent) && !f.hours.BareText?
    ensures f.title == card.title && f.description == DescriptionText(card.description)
    ensures f.assignee == card.assignedTo
  {
    Face(card).(hours := HoursSlotIntended(card.hoursSpent))
  }

  /** The rendered and the intended face differ exactly on cards with 0 hours,
      and only in the hours slot. */
  lemma FacesDifferOnlyAtZeroHours(card: Card)
    ensures Face(card) == FaceIntended(card) <==> card.hoursSpent != Some(0.0)
    ensures Face(card).(hours := NoHours) == FaceIntended(card).(hours := NoHours)
  {
    HoursSlotsAgreeExceptZero(card.hoursSpent);
  }

  /** A ticket without comments or attachments shows neither chip. */
  lemma NoChipsWithoutComments(t: Ticket)
    requires t.comments.None? || t.comments.value == []
    requires t.attachments.None? || t.attachments.value == []
    ensures Face(ToCard(t)).commentCount.None? && Face(ToCard(t)).attachmentCount.None?
  {
  }
}
