/** `common/TagSelect.tsx` and `common/TagChip.tsx`: choosing a ticket's
    tags among a category's tags, creating a tag through the colour dialog,
    and the chip that shows (and may delete) one tag. The category's tag
    store (`getTagsForCategory`, `addTagToCategory`, `removeTagFromCategory`)
    is not part of the context shown, so its results are parameters. */
module Tags {
  import opened Base
  import opened Text
  import opened Types

  // ---------------------------------------------------------------- TagChip

  /** How a `${x}` template prints an optional string. */
  function Printed(s: Option<string>): string {
    if s.Some? then s.value else "undefined"
  }

  /** The chip's label: "value: label" with `showValue`, else the label. */
  function ChipLabel(tag: Tag, showValue: bool): (r: string)
    ensures !showValue ==> r == tag.caption
    ensures showValue && tag.value.Some? ==> r == tag.value.value + ": " + tag.caption
    ensures showValue ==> EndsWith(r, ": " + tag.caption)
  {
    if showValue then Printed(tag.value) + ": " + tag.caption else tag.caption
  }

  /** The `deletable` and `globalDelete` flags once a global delete without
      a removal function has been switched off. */
  datatype ChipFlags = ChipFlags(deletable: bool, globalDelete: bool)

  function EffectiveFlags(deletable: bool, globalDelete: bool, hasRemove: bool): (r: ChipFlags)
    ensures globalDelete && !hasRemove ==> r == ChipFlags(false, false)
    ensures !(globalDelete && !hasRemove) ==> r == ChipFlags(deletable, globalDelete)
    ensures r.globalDelete ==> hasRemove
  {
    if globalDelete && !hasRemove then ChipFlags(false, false) else ChipFlags(deletable, globalDelete)
  }

  /** `canDelete`: deletable, and either a local handler or a global delete
      by an admin within a category. */
  predicate ChipCanDelete(deletable: bool, globalDelete: bool, hasRemove: bool, hasOnDelete: bool,
                          isAdmin: bool, category: Option<string>) {
    var flags := EffectiveFlags(deletable, globalDelete, hasRemove);
    flags.deletable && (hasOnDelete || (flags.globalDelete && isAdmin && category.Some? && category.value != ""))
  }

  /** Asking for a global delete with no removal function disables deletion,
      whatever the other flags. */
  lemma GlobalDeleteNeedsRemoval(deletable: bool, hasOnDelete: bool, isAdmin: bool, category: Option<string>)
    ensures !ChipCanDelete(deletable, true, false, hasOnDelete, isAdmin, category)
  {
  }

  /** What clicking the chip's delete icon does. */
  datatype DeleteAction =
    | LocalDelete(argument: Option<string>)
    | GlobalDelete(category: string, tagValue: Option<string>)
    | NoDelete

  /** `handleDelete` as written: the local handler gets `tag.value`. */
  function ChipDeleteAsWritten(tag: Tag, hasOnDelete: bool, globalDelete: bool,
                               category: Option<string>, isAdmin: bool): (r: DeleteAction)
    ensures hasOnDelete ==> r == LocalDelete(tag.value)
    ensures !hasOnDelete && r.GlobalDelete? <==>
      (!hasOnDelete && globalDelete && category.Some? && category.value != "" && isAdmin)
    ensures r.GlobalDelete? ==> r.tagValue == tag.value && Some(r.category) == category
  {
    if hasOnDelete then LocalDelete(tag.value)
    else if globalDelete && category.Some? && category.value != "" && isAdmin then GlobalDelete(category.value, tag.value)
    else NoDelete
  }

  /** `handleDelete` as the tag select needs it: the local handler gets the
      tag's id, the key the select removes by. */
  function ChipDelete(tag: Tag, hasOnDelete: bool, globalDelete: bool,
                      category: Option<string>, isAdmin: bool): (r: DeleteAction)
    ensures hasOnDelete ==> r == LocalDelete(tag.id)
    ensures !hasOnDelete ==> r == ChipDeleteAsWritten(tag, hasOnDelete, globalDelete, category, isAdmin)
  {
    if hasOnDelete then LocalDelete(tag.id)
    else ChipDeleteAsWritten(tag, hasOnDelete, globalDelete, category, isAdmin)
  }

  /** A colour starting with "#" becomes the background, with white text;
      any other colour gives no override. */
  datatype ChipStyle = ChipStyle(background: Option<string>, text: Option<string>)

  function ChipColors(color: Option<string>): (r: ChipStyle)
    ensures color.Some? && StartsWith(color.value, "#") ==> r == ChipStyle(color, Some("white"))
    ensures !(color.Some? && StartsWith(color.value, "#")) ==> r == ChipStyle(None, None)
  {
    if color.Some? && StartsWith(color.value, "#") then ChipStyle(color, Some("white")) else ChipStyle(None, None)
  }

  // -------------------------------------------------------------- TagSelect

  function HasId(id: Option<string>): Tag -> bool {
    (s: Tag) => s.id == id
  }

  /** `!value.some(selected => selected.id === tag.id)`. */
  function NotSelected(selected: seq<Tag>): Tag -> bool {
    (t: Tag) => !Any(selected, HasId(t.id))
  }

  /** The options offered: the category's tags whose id no selected tag
      has, in the category's order. */
  function AvailableTags(categoryTags: seq<Tag>, selected: seq<Tag>): (r: seq<Tag>)
    ensures forall k :: 0 <= k < |r| ==> r[k] in categoryTags && forall i :: 0 <= i < |selected| ==> selected[i].id != r[k].id
    ensures forall j :: 0 <= j < |categoryTags| && (forall i :: 0 <= i < |selected| ==> selected[i].id != categoryTags[j].id) ==>
      categoryTags[j] in r
  {
    Filter(categoryTags, NotSelected(selected))
  }

  /** The offered options keep the category's order. */
  lemma AvailableKeepsOrder(categoryTags: seq<Tag>, selected: seq<Tag>)
    ensures Subseq(AvailableTags(categoryTags, selected), categoryTags)
  {
    FilterSubseq(categoryTags, NotSelected(selected));
  }

  /** With nothing selected every tag is offered. */
  lemma NothingSelectedOffersAll(categoryTags: seq<Tag>)
    ensures AvailableTags(categoryTags, []) == categoryTags
  {
    FilterKeepsAll(categoryTags, NotSelected([]));
  }

  /** An entry of the autocomplete's new value: a known tag, or text typed
      by the user. */
  datatype Entry = TagEntry(tag: Tag) | TextEntry(text: string)

  /** The tags among the entries, in order; typed text is dropped. */
  function TagsOf(entries: seq<Entry>): (r: seq<Tag>)
    ensures |r| <= |entries|
    ensures forall k :: 0 <= k < |r| ==> TagEntry(r[k]) in entries
    ensures forall j :: 0 <= j < |entries| && entries[j].TagEntry? ==> entries[j].tag in r
  {
    if entries == [] then []
    else (if entries[0].TagEntry? then [entries[0].tag] else []) + TagsOf(entries[1..])
  }

  /** `TagsOf` works entry by entry, so it keeps the order of the tags. */
  lemma {:induction false} TagsOfConcat(a: seq<Entry>, b: seq<Entry>)
    ensures TagsOf(a + b) == TagsOf(a) + TagsOf(b)
  {
    if a == [] {
      assert a + b == b;
    } else {
      assert (a + b)[0] == a[0];
      assert (a + b)[1..] == a[1..] + b;
      TagsOfConcat(a[1..], b);
    }
  }

  /** The typed text whose `handleCreateTag` runs last, so whose state
      update wins. */
  function LastText(entries: seq<Entry>): (r: Option<string>)
    ensures r.None? <==> forall j :: 0 <= j < |entries| ==> entries[j].TagEntry?
  {
    if entries == [] then None
    else
      var rest := LastText(entries[1..]);
      if rest.Some? then rest
      else if entries[0].TextEntry? then Some(entries[0].text)
      else None
  }

  /** Position `j` holds typed text and only tags follow it. */
  predicate IsLastText(entries: seq<Entry>, j: int) {
    0 <= j < |entries| && entries[j].TextEntry? && forall k :: j < k < |entries| ==> entries[k].TagEntry?
  }

  /** `LastText` is the text at the last text position. */
  lemma {:induction false} LastTextIsLast(entries: seq<Entry>)
    requires LastText(entries).Some?
    ensures exists j :: IsLastText(entries, j) && entries[j].text == LastText(entries).value
  {
    var rest := LastText(entries[1..]);
    if rest.Some? {
      LastTextIsLast(entries[1..]);
      var j :| IsLastText(entries[1..], j) && entries[1..][j].text == rest.value;
      assert IsLastText(entries, j + 1);
    } else {
      assert IsLastText(entries, 0);
    }
  }

  const DEFAULT_TAG_COLOR := "#1976d2"

  /** The tag being created in the colour dialog. */
  datatype NewTag = NewTag(caption: string, color: string)

  function IdIsNot(id: Option<string>): Tag -> bool {
    (t: Tag) => t.id != id
  }

  /** `handleDeleteTag`: the tags whose id differs from the given one. */
  function WithoutId(tags: seq<Tag>, id: Option<string>): (r: seq<Tag>)
    ensures forall k :: 0 <= k < |r| ==> r[k].id != id && r[k] in tags
    ensures forall j :: 0 <= j < |tags| && tags[j].id != id ==> tags[j] in r
  {
    Filter(tags, IdIsNot(id))
  }

  /** The confirm button is disabled without a tag being created or with
      an empty name. */
  predicate ConfirmDisabled(newTagData: Option<NewTag>) {
    newTagData.None? || newTagData.value.caption == ""
  }

  /** The chip of a selected tag, wired as the select wires it (a local
      handler, no global delete), as written: the select receives the tag's
      value and removes the tags with that id. */
  function ChipRemovesAsWritten(value: seq<Tag>, tag: Tag): seq<Tag> {
    var action := ChipDeleteAsWritten(tag, true, false, None, false);
    WithoutId(value, action.argument)
  }

  /** The same with the chip passing the tag's id. */
  function ChipRemoves(value: seq<Tag>, tag: Tag): seq<Tag> {
    var action := ChipDelete(tag, true, false, None, false);
    WithoutId(value, action.argument)
  }

  /** As written, deleting a created tag (an id, no value) from the chip
      removes nothing when every selected tag has an id. */
  lemma ChipDeleteKeepsIdTags(value: seq<Tag>, i: nat)
    requires i < |value| && value[i].value.None?
    requires forall j :: 0 <= j < |value| ==> value[j].id.Some?
    ensures ChipRemovesAsWritten(value, value[i]) == value
  {
    FilterKeepsAll(value, IdIsNot(None));
  }

  /** A concrete case: one selected tag "Bug" with id "t1"; its delete icon
      leaves it selected. */
  lemma ChipDeleteCounterexample()
    ensures var bug := Tag(Some("t1"), None, "Bug", Some("#d32f2f"));
      ChipRemovesAsWritten([bug], bug) == [bug]
  {
    var bug := Tag(Some("t1"), None, "Bug", Some("#d32f2f"));
    ChipDeleteKeepsIdTags([bug], 0);
  }

  /** Passing the id, the chip's tag is no longer selected afterwards, and
      every tag with another id stays. */
  lemma ChipDeleteRemovesTag(value: seq<Tag>, tag: Tag)
    ensures tag !in ChipRemoves(value, tag)
    ensures forall j :: 0 <= j < |value| && value[j].id != tag.id ==> value[j] in ChipRemoves(value, tag)
  {
  }

  /** The select's state. `value` is the controlled list of selected tags,
      as the parent holds it after each `onChange`. */
  class TagSelectState {
    var value: seq<Tag>
    var inputValue: string
    var showColorDialog: bool
    var newTagData: Option<NewTag>

    constructor (initial: seq<Tag>)
      ensures value == initial && inputValue == "" && !showColorDialog && newTagData.None?
    {
      value := initial;
      inputValue := "";
      showColorDialog := false;
      newTagData := None;
    }

    method InputChange(text: string)
      modifies this
      ensures inputValue == text
      ensures value == old(value) && showColorDialog == old(showColorDialog) && newTagData == old(newTagData)
    {
      inputValue := text;
    }

    /** `handleChange`: the tags are kept in order and sent on; typed text
        is held back and opens the colour dialog with the default colour. */
    method Change(entries: seq<Entry>)
      modifies this
      ensures value == TagsOf(entries)
      ensures LastText(entries).Some? ==>
        showColorDialog && newTagData == Some(NewTag(LastText(entries).value, DEFAULT_TAG_COLOR))
      ensures LastText(entries).None? ==> showColorDialog == old(showColorDialog) && newTagData == old(newTagData)
      ensures inputValue == old(inputValue)
    {
      var text := LastText(entries);
      if text.Some? {
        newTagData := Some(NewTag(text.value, DEFAULT_TAG_COLOR));
        showColorDialog := true;
      }
      value := TagsOf(entries);
    }

    /** `handleDeleteTag`. */
    method DeleteTag(id: Option<string>)
      modifies this
      ensures value == WithoutId(old(value), id)
      ensures inputValue == old(inputValue) && showColorDialog == old(showColorDialog) && newTagData == old(newTagData)
    {
      value := WithoutId(value, id);
    }

    /** Editing the name or colour in the dialog changes nothing when no tag
        is being created. */
    method EditNewTag(caption: string, color: string)
      modifies this
      ensures old(newTagData).None? ==> newTagData.None?
      ensures old(newTagData).Some? ==> newTagData == Some(NewTag(caption, color))
      ensures value == old(value) && inputValue == old(inputValue) && showColorDialog == old(showColorDialog)
    {
      if newTagData.Some? {
        newTagData := Some(NewTag(caption, color));
      }
    }

    /** Closing the dialog keeps the pending tag. */
    method CloseDialog()
      modifies this
      ensures !showColorDialog
      ensures value == old(value) && inputValue == old(inputValue) && newTagData == old(newTagData)
    {
      showColorDialog := false;
    }

    /** `handleConfirmTagCreation` with the store's `addTagToCategory` as one
        step: it returns `finalTag` or (when not `ok`) throws. The request
        carries a temporary id, the name and the colour. Success appends the
        returned tag, closes the dialog and clears the input; a failure
        changes nothing. */
    method ConfirmCreation(tempId: string, ok: bool, finalTag: Tag) returns (request: Option<Tag>)
      modifies this
      ensures old(newTagData).None? ==> request.None?
      ensures old(newTagData).Some? ==>
        request == Some(Tag(Some(tempId), None, old(newTagData).value.caption, Some(old(newTagData).value.color)))
      ensures request.Some? && ok ==>
        value == old(value) + [finalTag] && !showColorDialog && newTagData.None? && inputValue == ""
      ensures !(request.Some? && ok) ==>
        value == old(value) && showColorDialog == old(showColorDialog)
        && newTagData == old(newTagData) && inputValue == old(inputValue)
    {
      if newTagData.None? {
        return None;
      }
      request := Some(Tag(Some(tempId), None, newTagData.value.caption, Some(newTagData.value.color)));
      if ok {
        value := value + [finalTag];
        showColorDialog := false;
        newTagData := None;
        inputValue := "";
      }
    }
  }
}
