/** `schemas/ticket.ts`: the create and update form schemas, as predicates on
    the raw form values. A form passes a schema exactly when every field rule
    holds. */
module TicketSchema {
  import opened Base
  import opened Types

  /** One element of the raw `files` value: a `File` or anything else. */
  datatype FormItem = FileItem(file: FileBlob) | OtherItem

  /** The raw `files` value: falsy (including undefined), an array, or some
      other truthy value. */
  datatype FilesField = FalsyFiles | FileArray(items: seq<FormItem>) | OtherTruthy

  datatype CreateForm = CreateForm(
    title: string, description: string, category: string, priority: string,
    assignedTo: Option<string>, files: FilesField)

  datatype UpdateForm = UpdateForm(
    title: string, description: string, category: string, priority: string,
    assignedTo: Option<string>, files: FilesField, status: Option<string>,
    hoursSpent: Option<real>, startDate: Option<Date>, endDate: Option<Date>)

  const PRIORITIES: seq<string> := ["low", "medium", "high"]

  predicate TitleOk(title: string) { 5 <= |title| <= 100 }

  predicate DescriptionOk(description: string) { 10 <= |description| <= 1000 }

  predicate CategoryOk(category: string) { |category| >= 1 }

  predicate PriorityOk(priority: string) { priority in PRIORITIES }

  /** The `files` refinement: falsy, or an array of `File`s only. */
  predicate FilesOk(files: FilesField) {
    match files
    case FalsyFiles => true
    case FileArray(items) => forall i :: 0 <= i < |items| ==> items[i].FileItem?
    case OtherTruthy => false
  }

  predicate HoursOk(hours: Option<real>) {
    hours.None? || 0.0 <= hours.value <= 1000.0
  }

  /** `createTicketSchema` accepts the form. */
  predicate CreateValid(f: CreateForm) {
    TitleOk(f.title) && DescriptionOk(f.description) && CategoryOk(f.category)
    && PriorityOk(f.priority) && FilesOk(f.files)
  }

  /** The fields `updateTicketSchema` shares with `createTicketSchema`. */
  function SharedPart(f: UpdateForm): (r: CreateForm)
    ensures r.title == f.title && r.description == f.description && r.category == f.category
    ensures r.priority == f.priority && r.assignedTo == f.assignedTo && r.files == f.files
  {
    CreateForm(f.title, f.description, f.category, f.priority, f.assignedTo, f.files)
  }

  /** `updateTicketSchema` accepts the form. */
  predicate UpdateValid(f: UpdateForm) {
    TitleOk(f.title) && DescriptionOk(f.description) && CategoryOk(f.category)
    && PriorityOk(f.priority) && FilesOk(f.files) && HoursOk(f.hoursSpent)
  }

  /** The title limits: with every other field valid, a title of 4
      characters is rejected, titles of 5 and 100 characters are accepted,
      and one of 101 characters is rejected. */
  lemma TitleLimits(f: CreateForm)
    requires DescriptionOk(f.description) && CategoryOk(f.category)
    requires PriorityOk(f.priority) && FilesOk(f.files)
    ensures |f.title| == 4 ==> !CreateValid(f)
    ensures |f.title| == 5 || |f.title| == 100 ==> CreateValid(f)
    ensures |f.title| == 101 ==> !CreateValid(f)
  {
  }

  /** The description limits: 9 characters are too few, 10 and 1000 are
      accepted, 1001 are too many. */
  lemma DescriptionLimits(f: CreateForm)
    requires TitleOk(f.title) && CategoryOk(f.category)
    requires PriorityOk(f.priority) && FilesOk(f.files)
    ensures |f.description| == 9 ==> !CreateValid(f)
    ensures |f.description| == 10 || |f.description| == 1000 ==> CreateValid(f)
    ensures |f.description| == 1001 ==> !CreateValid(f)
  {
  }

  /** The category only has to be non-empty, and the priority is one of the
      three lower-case values: "LOW" or "urgent" are rejected. */
  lemma CategoryAndPriorityRules(f: CreateForm)
    requires TitleOk(f.title) && DescriptionOk(f.description) && FilesOk(f.files)
    ensures f.category == "" ==> !CreateValid(f)
    ensures f.category != "" ==> (CreateValid(f) <==> f.priority in {"low", "medium", "high"})
    ensures f.priority == "LOW" || f.priority == "urgent" ==> !CreateValid(f)
  {
  }

  /** The smallest acceptable form: a 5-character title, a 10-character
      description, a one-character category, priority "low", no files. */
  lemma MinimalFormAccepted()
    ensures CreateValid(CreateForm("Panne", "Ecran noir", "c", "low", None, FalsyFiles))
    ensures !CreateValid(CreateForm("Pann", "Ecran noir", "c", "low", None, FalsyFiles))
    ensures !CreateValid(CreateForm("Panne", "Ecran noi", "c", "low", None, FalsyFiles))
  {
  }

  /** The update schema is the create schema plus an optional `hoursSpent`
      in [0, 1000]; `status` and the dates are unconstrained optionals, and
      the assignee never causes a rejection. */
  lemma UpdateExtendsCreate(f: UpdateForm)
    ensures UpdateValid(f) <==> CreateValid(SharedPart(f)) && HoursOk(f.hoursSpent)
    ensures UpdateValid(f) ==> UpdateValid(f.(status := None, startDate := None, endDate := None, assignedTo := None))
  {
  }

  /** Files are accepted when absent or given as an array of files; any
      non-file element rejects the form. */
  lemma FilesRule(files: seq<FileBlob>, items: seq<FormItem>)
    ensures FilesOk(FalsyFiles)
    ensures FilesOk(FileArray(seq(|files|, i requires 0 <= i < |files| => FileItem(files[i]))))
    ensures OtherItem in items ==> !FilesOk(FileArray(items))
  {
  }
}
