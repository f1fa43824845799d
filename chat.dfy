/** `ticket-form/chat/TicketChat.tsx`: the comment box, the pending files
    and the submission flag. */
module Chat {
  import opened Base
  import opened Text
  import opened Types
  import StringUtils

  /** The header's caption "N commentaire(s)": plural unless there is
      exactly one comment; without a comment list the number renders as
      nothing and the noun stays plural. */
  function CountCaption(comments: Option<seq<Comment>>): (r: string)
    ensures |r| > 0 && (r[|r| - 1] == 's' <==> !(comments.Some? && |comments.value| == 1))
    ensures comments.None? ==> r == " commentaires"
    ensures comments.Some? ==> StartsWith(r, NatToString(|comments.value|) + " ")
  {
    var n := if comments.Some? then NatToString(|comments.value|) else "";
    n + " commentaire" + (if comments.Some? && |comments.value| == 1 then "" else "s")
  }

  /** What the conversation area shows: the empty notice, the comments, or
      nothing at all when there is no comment list. */
  datatype ChatBody = EmptyNotice | CommentList(items: seq<Comment>) | NoBody

  function Body(comments: Option<seq<Comment>>): (r: ChatBody)
    ensures r.EmptyNotice? <==> comments == Some([])
    ensures r.NoBody? <==> comments.None?
    ensures r.CommentList? ==> comments.Some? && r.items == comments.value && r.items != []
  {
    match comments
    case None => NoBody
    case Some(cs) => if |cs| == 0 then EmptyNotice else CommentList(cs)
  }

  /** There is something to post: text that is not only whitespace, or at
      least one file. */
  predicate HasSomethingToSend(text: string, files: seq<FileBlob>) {
    Trim(text) != "" || |files| > 0
  }

  /** The send button's `disabled`. */
  predicate SendDisabled(text: string, files: seq<FileBlob>, loading: bool, submitting: bool) {
    (Trim(text) == "" && |files| == 0) || loading || submitting
  }

  /** An enabled send button always leads to a submission, and whitespace
      alone with no file never does. */
  lemma SendButtonMatchesGuard(text: string, files: seq<FileBlob>, loading: bool, submitting: bool)
    ensures !SendDisabled(text, files, loading, submitting) ==> HasSomethingToSend(text, files) && !submitting
    ensures (forall i :: 0 <= i < |text| ==> IsWhitespace(text[i])) && files == [] ==>
      !HasSomethingToSend(text, files) && SendDisabled(text, files, loading, submitting)
  {
  }

  /** `xs.filter((_, i) => i !== index)`. */
  function WithoutIndex<T>(xs: seq<T>, index: int): (r: seq<T>)
    ensures 0 <= index < |xs| ==> r == xs[..index] + xs[index + 1..]
    ensures !(0 <= index < |xs|) ==> r == xs
  {
    if xs == [] then []
    else
      var rest := WithoutIndex(xs[1..], index - 1);
      if index == 0 then
        assert rest == xs[1..];
        rest
      else
        assert 0 < index < |xs| ==> xs[1..][..index - 1] + xs[1..][index..] == xs[1..index] + xs[index + 1..];
        [xs[0]] + rest
  }

  /** Removing a file just added undoes the addition. */
  lemma RemoveUndoesAdd(files: seq<FileBlob>, f: FileBlob)
    ensures WithoutIndex(files + [f], |files|) == files
  {
    assert (files + [f])[..|files|] == files;
  }

  /** The chat's state. */
  class TicketChatState {
    var newComment: string
    var selectedFiles: seq<FileBlob>
    var isSubmitting: bool

    constructor ()
      ensures newComment == "" && selectedFiles == [] && !isSubmitting
    {
      newComment := "";
      selectedFiles := [];
      isSubmitting := false;
    }

    /** Typing: a text of exactly one character gets it upper-cased, any
        other text is kept as typed. */
    method Type(text: string)
      modifies this
      ensures |text| == 1 ==> newComment == [UpperChar(text[0])]
      ensures |text| != 1 ==> newComment == text
      ensures selectedFiles == old(selectedFiles) && isSubmitting == old(isSubmitting)
    {
      if |text| == 1 {
        newComment := StringUtils.CapitalizeFirstChar(text);
      } else {
        newComment := text;
      }
    }

    /** `handleSubmit`, with the callback as one step that succeeds (`ok`) or
        throws. It receives the trimmed text and, when no file is selected,
        no file list. Success clears the box and the files; a failure keeps
        both; the flag ends false either way. */
    method Submit(ok: bool) returns (sent: Option<(string, Option<seq<FileBlob>>)>)
      modifies this
      ensures sent.Some? <==> HasSomethingToSend(old(newComment), old(selectedFiles)) && !old(isSubmitting)
      ensures sent.Some? ==>
        (sent.value.0 == Trim(old(newComment))
         && sent.value.1 == (if |old(selectedFiles)| > 0 then Some(old(selectedFiles)) else None))
      ensures sent.Some? && ok ==> newComment == "" && selectedFiles == []
      ensures !(sent.Some? && ok) ==> newComment == old(newComment) && selectedFiles == old(selectedFiles)
      ensures isSubmitting == if sent.Some? then false else old(isSubmitting)
    {
      var text := Trim(newComment);
      if !((text != "" || |selectedFiles| > 0) && !isSubmitting) {
        return None;
      }
      isSubmitting := true;
      var files := if |selectedFiles| > 0 then Some(selectedFiles) else None;
      sent := Some((text, files));
      if ok {
        newComment := "";
        selectedFiles := [];
      }
      isSubmitting := false;
    }

    /** `handleFileSelect`: the chosen files go after those already there. */
    method SelectFiles(files: seq<FileBlob>)
      modifies this
      ensures selectedFiles == old(selectedFiles) + files
      ensures newComment == old(newComment) && isSubmitting == old(isSubmitting)
    {
      selectedFiles := selectedFiles + files;
    }

    /** `removeFile(index)`: exactly that position goes, the rest keep their
        order. */
    method RemoveFile(index: int)
      modifies this
      ensures selectedFiles == WithoutIndex(old(selectedFiles), index)
      ensures newComment == old(newComment) && isSubmitting == old(isSubmitting)
    {
      selectedFiles := WithoutIndex(selectedFiles, index);
    }
  }
}
