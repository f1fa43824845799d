/** `ticket-form/common/AttachmentPreview.tsx` and `FilePreview.tsx`: the
    icon chosen for an attachment or a pending file, and which of them can
    be previewed. The two classifications differ: only the attachment one
    has an image rule. */
module AttachmentIcons {
  import opened Base
  import opened Text

  /** The icon glyphs used. */
  datatype Glyph = PdfGlyph | TableGlyph | DescriptionGlyph | FileGlyph

  /** A glyph and its colour. */
  datatype Icon = Icon(glyph: Glyph, color: string)

  const PDF_TYPE := "application/pdf"

  predicate LooksLikeSpreadsheet(mimeType: string, name: string) {
    Contains(mimeType, "spreadsheet") || EndsWith(name, ".xlsx") || EndsWith(name, ".xls")
  }

  predicate LooksLikeDocument(mimeType: string, name: string) {
    Contains(mimeType, "document") || EndsWith(name, ".docx") || EndsWith(name, ".doc")
  }

  predicate IsImageType(mimeType: string) {
    StartsWith(mimeType, "image/")
  }

  /** `getFileIcon` of an attachment: pdf, then spreadsheet, then document,
      then image (which reuses the pdf glyph in the primary colour), then a
      generic file. */
  function AttachmentIcon(mimeType: string, filename: string): (r: Icon)
    ensures mimeType == PDF_TYPE ==> r == Icon(PdfGlyph, "error")
    ensures r.glyph == TableGlyph <==> mimeType != PDF_TYPE && LooksLikeSpreadsheet(mimeType, filename)
    ensures r.glyph == DescriptionGlyph <==>
      (mimeType != PDF_TYPE && !LooksLikeSpreadsheet(mimeType, filename) && LooksLikeDocument(mimeType, filename))
    ensures r == Icon(PdfGlyph, "primary") <==>
      (mimeType != PDF_TYPE && !LooksLikeSpreadsheet(mimeType, filename)
       && !LooksLikeDocument(mimeType, filename) && IsImageType(mimeType))
  {
    if mimeType == PDF_TYPE then Icon(PdfGlyph, "error")
    else if LooksLikeSpreadsheet(mimeType, filename) then Icon(TableGlyph, "success")
    else if LooksLikeDocument(mimeType, filename) then Icon(DescriptionGlyph, "primary")
    else if IsImageType(mimeType) then Icon(PdfGlyph, "primary")
    else Icon(FileGlyph, "action")
  }

  /** `getFileIcon` of a pending file: the same rules without the image one. */
  function FileIcon(mimeType: string, name: string): (r: Icon)
    ensures mimeType == PDF_TYPE ==> r == Icon(PdfGlyph, "error")
    ensures r.glyph == TableGlyph <==> mimeType != PDF_TYPE && LooksLikeSpreadsheet(mimeType, name)
    ensures r.glyph == DescriptionGlyph <==>
      (mimeType != PDF_TYPE && !LooksLikeSpreadsheet(mimeType, name) && LooksLikeDocument(mimeType, name))
    ensures r.glyph == PdfGlyph <==> mimeType == PDF_TYPE
  {
    if mimeType == PDF_TYPE then Icon(PdfGlyph, "error")
    else if LooksLikeSpreadsheet(mimeType, name) then Icon(TableGlyph, "success")
    else if LooksLikeDocument(mimeType, name) then Icon(DescriptionGlyph, "primary")
    else Icon(FileGlyph, "action")
  }

  /** "application/pdf" mentions neither word, so a type that contains both
      is never the pdf type. */
  lemma PdfMentionsNeither(mimeType: string)
    requires Contains(mimeType, "spreadsheet")
    ensures mimeType != PDF_TYPE
  {
    ContainsWitness(mimeType, "spreadsheet");
    var i: nat :| FactorAt(mimeType, "spreadsheet", i);
    var w := mimeType[i..i + 11];
    assert w == "spreadsheet";
    assert w[0] == 's' && w[0] == mimeType[i];
    assert 's' !in PDF_TYPE;
    assert mimeType[i] in mimeType;
  }

  /** A type naming both a spreadsheet and a document is a spreadsheet, in
      both components, whatever the file name. */
  lemma SpreadsheetBeforeDocument(mimeType: string, name: string)
    requires Contains(mimeType, "spreadsheet") && Contains(mimeType, "document")
    ensures AttachmentIcon(mimeType, name).glyph == TableGlyph
    ensures FileIcon(mimeType, name).glyph == TableGlyph
  {
    PdfMentionsNeither(mimeType);
  }

  /** The classifications agree except on images: an image attachment gets
      the primary-coloured pdf glyph, a pending image file the generic one. */
  lemma IconsDifferOnlyOnImages(mimeType: string, name: string)
    ensures AttachmentIcon(mimeType, name) != FileIcon(mimeType, name) <==>
      (mimeType != PDF_TYPE && !LooksLikeSpreadsheet(mimeType, name)
       && !LooksLikeDocument(mimeType, name) && IsImageType(mimeType))
    ensures AttachmentIcon(mimeType, name) != FileIcon(mimeType, name) ==>
      FileIcon(mimeType, name) == Icon(FileGlyph, "action")
  {
  }

  /** `canPreview`, the same in both components. */
  predicate CanPreview(mimeType: string) {
    IsImageType(mimeType) || mimeType == PDF_TYPE
  }

  /** A pending file gets a preview URL exactly for the types that can be
      previewed (images first, then pdf). */
  function PreviewUrl(mimeType: string, objectUrl: string): (r: Option<string>)
    ensures r.Some? <==> CanPreview(mimeType)
    ensures r.Some? ==> r.value == objectUrl
  {
    if IsImageType(mimeType) then Some(objectUrl)
    else if mimeType == PDF_TYPE then Some(objectUrl)
    else None
  }

  /** `handlePreview`: the callback runs only for previewable attachments,
      and only when it exists. */
  predicate PreviewCalled(mimeType: string, hasOnPreview: bool) {
    CanPreview(mimeType) && hasOnPreview
  }

  /** A pending file's thumbnail click: the callback also needs the preview
      URL, which exists exactly when the file can be previewed. */
  predicate FilePreviewCalled(mimeType: string, hasOnPreview: bool, objectUrl: string) {
    CanPreview(mimeType) && hasOnPreview && PreviewUrl(mimeType, objectUrl).Some?
  }

  /** Both preview gates are the same rule. */
  lemma PreviewGatesAgree(mimeType: string, hasOnPreview: bool, objectUrl: string)
    ensures FilePreviewCalled(mimeType, hasOnPreview, objectUrl) <==> PreviewCalled(mimeType, hasOnPreview)
  {
  }

  /** The attachment's remove button needs both `showRemove` and `onRemove`;
      the pending file's only `onRemove`. */
  predicate AttachmentRemoveShown(showRemove: bool, hasOnRemove: bool) {
    showRemove && hasOnRemove
  }

  predicate FileRemoveShown(hasOnRemove: bool) {
    hasOnRemove
  }
}
