# next-helpdesk, modelled in Dafny

This project models the rules of next-helpdesk, a React/MUI helpdesk widget library, and of the demo page that hosts it. It proves properties about that model. The modelled parts are:

- **Permissions and roles.** Who may view, edit, delete and close a ticket (`permissions.dfy`). The role flags of the helpdesk context (`context.dfy`). The per-component role gates of the detail dialog, the create form, the priority field and the assignment field. These gates disagree with each other, and each is stated as written.
- **Configuration lookups.** The label and colour lookups, with their fallbacks, for statuses, priorities and categories (`status.dfy`, `priority.dfy`, `category.dfy`, `chips.dfy`). The two resolutions of a category's statuses: the case-insensitive one in the utilities and the exact one in the context.
- **Validation.** The create and update ticket schemas, as predicates over a form record (`schema.dfy`).
- **Strings.** The string helpers (`strings.dfy`) and the avatar initials (`users.dfy`), over ASCII case mapping (`text.dfy`).
- **Kanban.** The board's columns, the initial tab, and the drag-end scan that yields at most one status update (`kanban_board.dfy`, `kanban.dfy`, `kanban_card.dfy`).
- **Gantt.** How the Gantt chart turns tickets into tasks (`gantt.dfy`).
- **The demo page's ticket store.** Delete, create, partial update, add comment and close (`store.dfy`).
- **UI state.** The state of the list, the card, the detail dialog, the chat, the file upload, the tag picker, the create form and button, and the demo shell (`ticket_list.dfy` … `app.dfy`). Each component whose handlers update state step by step is a class whose methods state its whole new state.
- **File handling.** Attachment and file classification (`attachments.dfy`).
- **The Prisma example's pure parts.** The record transforms, the tag-counting fold of `getAllTags` and the request loop of `removeTagFromCategory` (`prisma.dfy`).

Some conventions hold throughout the model:

- **Strings and values.** Roles, statuses, priorities and categories are plain strings, so unknown values take the same default branches as in the code. A config entry's `label` field is called `caption`, because `label` is a Dafny keyword. An `undefined` value is `None`.
- **Awaited callbacks.** Each awaited callback is one atomic step. The step resolves or rejects according to an `ok` parameter.
- **Time and ids.** The current time and fresh ids are parameters.
- **Base helpers.** `Base` gives the JavaScript array idioms the code is written with: `filter`, `find`, `findIndex`, `some` and `map`.
- **Text helpers.** `Text` gives `trim`, `split`/`join`, `slice` and ASCII `toUpperCase`/`toLowerCase`.

Where the code and its documentation disagree, the model follows the code:

- **What the detail dialog saves.** The dialog sends every field of the validated form, not only the changed ones. Its save button is enabled only once the form differs from its reset values. Editing, say, only the title of a ticket without hours therefore also records 0 hours on it (`DetailDialog.SaveKeptHoursRecordsZero`).
- **Tags are dropped on submit.** The create and update schemas have no `tags` key, and parsing keeps only the schema's keys. The tags chosen in either form are therefore never part of the submitted data.
- **Category matching differs.** The context matches categories exactly and never falls back on an empty status list. The utilities match case-insensitively and do fall back.
- **Attachment icons.** `AttachmentPreview` gives image files the pdf glyph.
- **List reconciliation.** The list's local reconciliation after an update never copies the status.
- **The assignment field's gate.** The gate counts all users, not only the assignable ones.
- **The shell's user chip.** The user chip is lit for `!isAgent`.
- **The summary's category label.** The label in the summary has no fallback.
- **Empty avatar URL.** An empty avatar URL shows the initials.
- **Edit rights.** The detail dialog's `canEdit` is wider than `canEditTicket`.
- **Missing tag-store functions.** The context type does not define the tag-store functions that `TagSelect` and `TagChip` read. The model takes their results as parameters.

## Model

| member | source | states |
|---|---|---|
| Permissions.FilterTicketsByPermission | packages/next-helpdesk/src/utils/permissions.ts:49-57 | every returned ticket is in the input and viewable by the user, and every viewable input ticket is returned |
| Permissions.AdminEditsAll | packages/next-helpdesk/src/utils/permissions.ts:15 | an admin may edit, delete and view every ticket |
| Permissions.AgentEditsOwn | packages/next-helpdesk/src/utils/permissions.ts:16 | an agent may edit a ticket iff they wrote it, and may not delete |
| Permissions.UserNeverEdits | packages/next-helpdesk/src/utils/permissions.ts:17 | a user may neither edit nor delete, even a ticket of their own |
| Permissions.EditImpliesView | packages/next-helpdesk/src/utils/permissions.ts:11-41 | edit permission implies view permission |
| Permissions.FilterByRole | packages/next-helpdesk/src/utils/permissions.ts:53-56 | admins and agents get the list unchanged; other roles get the ordered sub-list of the tickets they wrote |
| Permissions.FilterKeepsOrder | packages/next-helpdesk/src/utils/permissions.ts:56 | filtering a concatenation is the concatenation of the filtered parts (order is kept) |
| Permissions.ViewAllXorOwn | packages/next-helpdesk/src/utils/permissions.ts:64-75 | over the three known roles, exactly one of "sees all" and "sees own only" holds |
| StatusUtils.GetStatusColor | packages/next-helpdesk/src/utils/status.ts:11-17 | the colour of the first status with that value, "default" when none matches or its colour is missing or empty; never "" |
| StatusUtils.GetStatusLabel | packages/next-helpdesk/src/utils/status.ts:25-31 | the label of the first status with that value, the raw value when none matches or its label is empty |
| StatusUtils.IsValidStatus | packages/next-helpdesk/src/utils/status.ts:39-44 | true iff some status has that value |
| StatusUtils.UnknownStatusFallback | packages/next-helpdesk/src/utils/status.ts:15-43 | an invalid status is labelled with itself and coloured "default" |
| StatusUtils.KnownStatusLabel | packages/next-helpdesk/src/utils/status.ts:29-30 | a valid status is labelled from its first matching entry |
| StatusUtils.GetStatusesForCategory | packages/next-helpdesk/src/utils/status.ts:52-63 | undefined or "" category: the global statuses or []; otherwise the first case-insensitive match's statuses when non-empty, else the global statuses or []; an unmatched category gives the global statuses or [] |
| StatusUtils.StatusesNonEmpty | packages/next-helpdesk/src/utils/status.ts:58-62 | with a non-empty global list the result is never empty |
| StatusUtils.GetDefaultStatusForCategory | packages/next-helpdesk/src/utils/status.ts:71-77 | the first case-insensitive match's default status, undefined when nothing matches |
| StatusUtils.CategoryCaseInsensitive | packages/next-helpdesk/src/utils/status.ts:57-75 | two category names equal up to case give the same statuses and the same default status |
| PriorityUtils.GetPriorityColor | packages/next-helpdesk/src/utils/priority.ts:11-17 | the colour of the first priority with that value, "default" when none matches or its colour is missing or empty; never "" |
| PriorityUtils.GetPriorityLabel | packages/next-helpdesk/src/utils/priority.ts:25-31 | the label of the first priority with that value, the raw value when none matches or its label is empty |
| PriorityUtils.IsValidPriority | packages/next-helpdesk/src/utils/priority.ts:39-44 | true iff some priority has that value |
| PriorityUtils.UnknownPriorityFallback | packages/next-helpdesk/src/utils/priority.ts:15-43 | an invalid priority is labelled with itself and coloured "default" |
| PriorityUtils.LaterPrioritiesIgnored | packages/next-helpdesk/src/utils/priority.ts:15-29 | entries appended after the first match change neither label nor colour |
| CategoryUtils.GetCategoryConfig | packages/next-helpdesk/src/utils/category.ts:36-41 | the first category whose value matches exactly, undefined iff none matches |
| CategoryUtils.IsValidCategory | packages/next-helpdesk/src/utils/category.ts:23-28 | true iff some category has that value |
| CategoryUtils.GetCategoryLabel | packages/next-helpdesk/src/utils/category.ts:9-15 | the first match's label when non-empty, otherwise the raw value |
| CategoryUtils.ValidIffConfigured | packages/next-helpdesk/src/utils/category.ts:23-41 | a category is valid iff its configuration is found |
| CategoryUtils.LabelAgreesWithConfig | packages/next-helpdesk/src/utils/category.ts:9-41 | the label is the found configuration's non-empty label, else the raw value |
| StringUtils.CapitalizeFirstChar | packages/next-helpdesk/src/utils/string.ts:10-13 | same length; the first character upper-cased and the rest unchanged; "" stays "" |
| StringUtils.CapitalizeFirstCharIdempotent | packages/next-helpdesk/src/utils/string.ts:10-13 | capitalising twice gives the same as once |
| StringUtils.CapitalizeWordsIsCapFrom | packages/next-helpdesk/src/utils/string.ts:22-25 | split on spaces, capitalise every word and join equals the character-wise rule "upper-case at the start and after every space" |
| StringUtils.CapitalizeWords | packages/next-helpdesk/src/utils/string.ts:20-26 | same length; exactly the first character and every character after a space are upper-cased, the rest unchanged |
| StringUtils.CapitalizeWordsKeepsSpaces | packages/next-helpdesk/src/utils/string.ts:22-25 | the spaces of the result are exactly those of the input |
| StringUtils.OneWordCapitalize | packages/next-helpdesk/src/utils/string.ts:20-26 | on a string without spaces it equals capitalizeFirstChar |
| StringUtils.ToTitleCase | packages/next-helpdesk/src/utils/string.ts:33-36 | same length; the first character upper-cased, every later one lower-cased |
| StringUtils.TitleCaseIsCapitalizedLower | packages/next-helpdesk/src/utils/string.ts:33-36 | toTitleCase(v) is capitalizeFirstChar applied to the whole of v lower-cased |
| StringUtils.TitleCaseIdempotent | packages/next-helpdesk/src/utils/string.ts:33-36 | applying toTitleCase twice gives the same as once |
| TicketSchema.TitleLimits | packages/next-helpdesk/src/schemas/ticket.ts:4-7 | with the other fields valid, a title of 4 characters is refused, 5 and 100 accepted, 101 refused |
| TicketSchema.DescriptionLimits | packages/next-helpdesk/src/schemas/ticket.ts:8-11 | with the other fields valid, a description of 9 characters is refused, 10 and 1000 accepted, 1001 refused |
| TicketSchema.CategoryAndPriorityRules | packages/next-helpdesk/src/schemas/ticket.ts:12-17 | an empty category is refused; otherwise the form is accepted iff the priority is exactly low, medium or high, so "LOW" and "urgent" are refused |
| TicketSchema.MinimalFormAccepted | packages/next-helpdesk/src/schemas/ticket.ts:3-32 | a short French ticket with priority low and no files is accepted; shortening its title to 4 or its description to 9 characters makes it refused |
| TicketSchema.UpdateExtendsCreate | packages/next-helpdesk/src/schemas/ticket.ts:34-47 | the update schema accepts iff the create fields pass and hoursSpent is absent or within [0, 1000]; status, the dates and the assignee never cause a rejection |
| TicketSchema.FilesRule | packages/next-helpdesk/src/schemas/ticket.ts:21-31 | absent files and an array of files pass; an array holding any non-file element fails |
| Context.Merge | packages/next-helpdesk/src/context/HelpdeskContext.tsx:181-192 | every key present in the patch replaces the base value wholesale, every other key keeps the base value |
| Context.Over | packages/next-helpdesk/src/context/HelpdeskContext.tsx:181-192 | a present key wins, an absent one keeps the base value |
| Context.MergeEmpty | packages/next-helpdesk/src/context/HelpdeskContext.tsx:192 | an empty patch changes nothing |
| Context.MergeIdempotent | packages/next-helpdesk/src/context/HelpdeskContext.tsx:192 | applying the same patch twice is applying it once |
| Context.MergeThen | packages/next-helpdesk/src/context/HelpdeskContext.tsx:192 | two successive updates equal one update with the combined patch, later keys winning |
| Context.RoleFlags | packages/next-helpdesk/src/context/HelpdeskContext.tsx:232-234 | an admin is also an agent; a user is neither; for the three known roles isUser iff not isAgent |
| Context.StatusesForCategory | packages/next-helpdesk/src/context/HelpdeskContext.tsx:202-214 | the statuses of the first exact match, even when empty; the global statuses or [] only when nothing matches |
| Context.DefaultStatusForCategory | packages/next-helpdesk/src/context/HelpdeskContext.tsx:217-225 | the first exact match's defaultStatus, undefined when nothing matches |
| Context.ContextDiffersFromUtils | packages/next-helpdesk/src/context/HelpdeskContext.tsx:204-211 | a category configured with no statuses yields [] here while the utility falls back to the global list |
| Context.ContextIsCaseSensitive | packages/next-helpdesk/src/context/HelpdeskContext.tsx:204-206 | the context matches category values exactly, the utility ignores case |
| Context.HelpdeskContext.constructor | packages/next-helpdesk/src/context/HelpdeskContext.tsx:174-188 | the configuration is the defaults overridden by the supplied keys, the role defaults to "user", user and user list as given |
| Context.HelpdeskContext.UpdateConfig | packages/next-helpdesk/src/context/HelpdeskContext.tsx:190-195 | the configuration becomes the merge of the old one with the patch; nothing else changes |
| Context.HelpdeskContext.UpdateUserRole | packages/next-helpdesk/src/context/HelpdeskContext.tsx:197-199 | only the role changes |
| Context.HelpdeskContext.SetCurrentUser | packages/next-helpdesk/src/context/HelpdeskContext.tsx:187 | only the current user changes |
| Context.HelpdeskContext.SetUsers | packages/next-helpdesk/src/context/HelpdeskContext.tsx:188 | only the user list changes |
| Context.HelpdeskContext.GetStatusesForCategory | packages/next-helpdesk/src/context/HelpdeskContext.tsx:202-214 | the context lookup of StatusesForCategory on the current configuration |
| Context.HelpdeskContext.GetDefaultStatusForCategory | packages/next-helpdesk/src/context/HelpdeskContext.tsx:217-225 | the context lookup of DefaultStatusForCategory on the current configuration |
| KanbanBoard.ToCard | packages/next-helpdesk/src/components/common/kanban/hooks/useKanbanBoard.ts:14-27 | a card copies the ticket's shown fields, with missing comments and attachments replaced by [] |
| KanbanBoard.ConvertTicketsToCards | packages/next-helpdesk/src/components/common/kanban/hooks/useKanbanBoard.ts:13-28 | one card per ticket, in ticket order |
| KanbanBoard.FilteredTickets | packages/next-helpdesk/src/components/common/kanban/hooks/useKanbanBoard.ts:31-34 | exactly the tickets of the selected category, as an ordered selection of the input |
| KanbanBoard.BuildColumn | packages/next-helpdesk/src/components/common/kanban/hooks/useKanbanBoard.ts:42-48 | a column has the status's value and label, and holds, in card order, exactly the cards whose first same-id filtered ticket has that status: every such card is in it and no other |
| KanbanBoard.CategoryStatuses | packages/next-helpdesk/src/components/common/kanban/hooks/useKanbanBoard.ts:39-40 | the statuses of the first category with that value, [] when none matches |
| KanbanBoard.KanbanColumns | packages/next-helpdesk/src/components/common/kanban/hooks/useKanbanBoard.ts:37-52 | one column per status of the selected category, in status order; a column holds every filtered ticket's card whose ticket has the column's status, and no other card |
| KanbanBoard.UnknownCategoryNoColumns | packages/next-helpdesk/src/components/common/kanban/hooks/useKanbanBoard.ts:39-42 | an unknown category gives a board without columns |
| KanbanBoard.CardsComeFromCategory | packages/next-helpdesk/src/components/common/kanban/hooks/useKanbanBoard.ts:32-45 | every card on the board is the card of a ticket of the selected category |
| KanbanBoard.UnknownStatusHidden | packages/next-helpdesk/src/components/common/kanban/hooks/useKanbanBoard.ts:45-48 | with distinct ticket ids, a ticket whose status is none of the category's statuses appears in no column |
| KanbanBoard.TicketShownInItsColumn | packages/next-helpdesk/src/components/common/kanban/hooks/useKanbanBoard.ts:42-48 | with distinct ticket ids, a ticket of the selected category whose status is the i-th status has its card in the i-th column |
| Kanban.TicketCount | packages/next-helpdesk/src/components/common/kanban/TicketKanban.tsx:29-31 | exactly the number of positions holding a ticket of that category; positive iff one exists |
| Kanban.InitialCategory | packages/next-helpdesk/src/components/common/kanban/TicketKanban.tsx:26-35 | the value of the first category, in configuration order, that has a ticket; "" when none has one |
| Kanban.FirstWithTicketsIsFound | packages/next-helpdesk/src/components/common/kanban/TicketKanban.tsx:28-33 | the first category with tickets is the one the search returns |
| Kanban.Tabs | packages/next-helpdesk/src/components/common/kanban/TicketKanban.tsx:89-107 | an ordered selection, in configuration order, of the tabs "label (count)" of all configured categories, as many as there are categories with tickets; every category with tickets has its tab and no other tab appears |
| Kanban.InitialIsFirstTab | packages/next-helpdesk/src/components/common/kanban/TicketKanban.tsx:26-35 | the initial selection is the first tab shown, or "" when no tab is shown |
| Kanban.DragPayload | packages/next-helpdesk/src/components/common/kanban/TicketKanban.tsx:136-143 | the payload carries the ticket's fields, the assignee's id or undefined, and the new status; without a ticket only the status |
| Kanban.ResolveDragEnd | packages/next-helpdesk/src/components/common/kanban/TicketKanban.tsx:119-153 | no request without an update callback or a truthy card id; otherwise a request exists iff some column holds the card and the first such column's id is non-empty, and then it sets that column's status on the card's ticket |
| Kanban.KanbanView.constructor | packages/next-helpdesk/src/components/common/kanban/TicketKanban.tsx:26-37 | the selected tab starts at InitialCategory; no ticket selected, dialog closed |
| Kanban.KanbanView.SelectTab | packages/next-helpdesk/src/components/common/kanban/TicketKanban.tsx:84 | only the selected tab changes |
| Kanban.KanbanView.RefreshSelected | packages/next-helpdesk/src/components/common/kanban/TicketKanban.tsx:42-49 | the selected ticket is replaced by the first ticket with its id, kept when there is none |
| Kanban.KanbanView.CardClick | packages/next-helpdesk/src/components/common/kanban/TicketKanban.tsx:56-62 | the dialog opens on the first ticket with the card's id; nothing changes when there is none |
| Kanban.KanbanView.CloseDialog | packages/next-helpdesk/src/components/common/kanban/TicketKanban.tsx:162-165 | the dialog closes and the selection clears |
| Selection.Refreshed | packages/next-helpdesk/src/components/common/TicketGanttChart.tsx:276-283 | no selection stays none; a selection keeps its id, becomes the first ticket with that id when there is one and is kept otherwise |
| Selection.RefreshedIdempotent | packages/next-helpdesk/src/components/common/kanban/TicketKanban.tsx:42-49 | refreshing twice against the same list is refreshing once, so the effect settles after one re-run |
| Gantt.ProgressFromStatus | packages/next-helpdesk/src/components/common/TicketGanttChart.tsx:294-309 | progress is within [0, 100]; 0 iff the status is unknown, 100 iff it is "closed" |
| Gantt.ProgressFollowsWorkflow | packages/next-helpdesk/src/components/common/TicketGanttChart.tsx:294-309 | progress strictly increases along open, in_progress, in_test, resolved, closed, and any unknown status is below all of them |
| Gantt.ColorsFromPriority | packages/next-helpdesk/src/components/common/TicketGanttChart.tsx:312-343 | the four bar colours for high, medium, low and any other priority |
| Gantt.ColorsDistinguishPriorities | packages/next-helpdesk/src/components/common/TicketGanttChart.tsx:312-343 | high, medium and low each get a background colour no other priority gets |
| Gantt.ToTask | packages/next-helpdesk/src/components/common/TicketGanttChart.tsx:345-360 | a ticket's Gantt task takes its id, title and both dates, its status's progress and the priority's colours |
| Gantt.DatedTickets | packages/next-helpdesk/src/components/common/TicketGanttChart.tsx:291 | exactly the tickets with both dates, as an ordered selection of the input |
| Gantt.ConvertTicketsToTasks | packages/next-helpdesk/src/components/common/TicketGanttChart.tsx:289-362 | one task per ticket with both dates, in ticket order |
| Gantt.EmptyMessage | packages/next-helpdesk/src/components/common/TicketGanttChart.tsx:377-391 | the empty-state message is shown iff no ticket has both dates |
| Gantt.GanttView.constructor | packages/next-helpdesk/src/components/common/TicketGanttChart.tsx:272-273 | no ticket selected, dialog closed |
| Gantt.GanttView.OnSelect | packages/next-helpdesk/src/components/common/TicketGanttChart.tsx:422-429 | the dialog opens on the first ticket with the selected task's id; nothing changes when there is none |
| Gantt.GanttView.RefreshSelected | packages/next-helpdesk/src/components/common/TicketGanttChart.tsx:276-283 | the selection becomes Refreshed of the old one; the dialog flag is kept |
| Gantt.GanttView.CloseDialog | packages/next-helpdesk/src/components/common/TicketGanttChart.tsx:460-463 | the dialog closes and the selection clears |
| KanbanCardView.CardCategoryLabel | packages/next-helpdesk/src/components/common/kanban/KanbanCard.tsx:20-23 | the first matching category's non-empty label, else the raw category |
| KanbanCardView.CardLabelIsCategoryLabel | packages/next-helpdesk/src/components/common/kanban/KanbanCard.tsx:20-23 | the card's own lookup gives the same label as the shared category utility |
| KanbanCardView.DescriptionText | packages/next-helpdesk/src/components/common/kanban/KanbanCard.tsx:65-67 | longer than 100 characters: the first 100 and "..."; empty: "Aucune description"; otherwise the description itself |
| KanbanCardView.HoursSlotAsWritten | packages/next-helpdesk/src/components/common/kanban/KanbanCard.tsx:125-132 | as written, the chip shows iff the hours are defined and non-zero, with those hours |
| KanbanCardView.ZeroHoursRendersBareZero | packages/next-helpdesk/src/components/common/kanban/KanbanCard.tsx:125 | as written, 0 hours render the bare text "0" |
| KanbanCardView.HoursSlotIntended | packages/next-helpdesk/src/components/common/kanban/KanbanCard.tsx:125-132 | the chip for defined non-zero hours, nothing otherwise, never a bare text |
| KanbanCardView.HoursSlotsAgreeExceptZero | packages/next-helpdesk/src/components/common/kanban/KanbanCard.tsx:125-132 | the written and intended slots agree exactly when the hours are not 0 |
| KanbanCardView.Face | packages/next-helpdesk/src/components/common/kanban/KanbanCard.tsx:64-148 | as written: the description text, the assignee section only with an assignee, the hours chip iff the hours are defined and non-zero, a bare "0" for 0 hours, and comment and attachment chips iff their counts are positive, with those counts |
| KanbanCardView.FaceIntended | packages/next-helpdesk/src/components/common/kanban/KanbanCard.tsx:125-132 | the same face with the intended hours slot: the chip or nothing, never a bare text |
| KanbanCardView.FacesDifferOnlyAtZeroHours | packages/next-helpdesk/src/components/common/kanban/KanbanCard.tsx:125-132 | the written and the intended faces are equal iff the hours are not 0, and agree everywhere but the hours slot |
| KanbanCardView.NoChipsWithoutComments | packages/next-helpdesk/src/components/common/kanban/KanbanCard.tsx:133-141 | a ticket without comments or attachments shows neither chip |
| Store.MapTickets | apps/helpdesk-app/src/app/page.tsx:568-575 | same length; exactly the tickets with that id are transformed, every other ticket is kept in place |
| Store.NewTicket | apps/helpdesk-app/src/app/page.tsx:510-529 | the new ticket copies the form's text fields, is "open" with empty comments and attachments, is authored by the current user at the given time, and is assigned to the first known user with the given id, or to nobody when the id is missing or "" |
| Store.ApplyUpdate | apps/helpdesk-app/src/app/page.tsx:549-571 | updatedAt always changes; every other field changes only when defined in the data; a defined assignee id is looked up among the known users; identity, author, tags and comments are kept |
| Store.UploadedAttachment | apps/helpdesk-app/src/app/page.tsx:595-603 | the attachment copies the file's name, size and type, with the given URL, time and uploader |
| Store.NewComment | apps/helpdesk-app/src/app/page.tsx:587-615 | the comment carries the content, ticket id, current user and time; its attachments are undefined without files, else one per file in order |
| Store.TicketStore.constructor | apps/helpdesk-app/src/app/page.tsx:484-485 | the page starts with the given tickets and user |
| Store.TicketStore.DeleteTicket | apps/helpdesk-app/src/app/page.tsx:495-505 | once confirmed every ticket with that id is removed; unconfirmed nothing changes |
| Store.TicketStore.CreateTicket | apps/helpdesk-app/src/app/page.tsx:507-532 | the new ticket is put in front of the list |
| Store.TicketStore.UpdateTicket | apps/helpdesk-app/src/app/page.tsx:543-575 | the tickets with that id receive ApplyUpdate, the others are kept |
| Store.TicketStore.AddComment | apps/helpdesk-app/src/app/page.tsx:580-628 | the tickets with that id get the new comment appended and a new updatedAt |
| Store.TicketStore.CloseTicket | apps/helpdesk-app/src/app/page.tsx:633-652 | refused (no change) unless the current user is admin or agent; otherwise the tickets with that id become "closed" with a new updatedAt |
| Store.DeleteRemovesOnlyThatId | apps/helpdesk-app/src/app/page.tsx:502 | delete removes exactly the tickets with that id and keeps all others in order |
| Store.CreateThenDelete | apps/helpdesk-app/src/app/page.tsx:502-532 | deleting a freshly created ticket whose id was unused restores the list |
| Store.OthersUnchanged | apps/helpdesk-app/src/app/page.tsx:569-574 | a per-id handler never touches a ticket with another id |
| Store.UnknownAssigneeUnassigns | apps/helpdesk-app/src/app/page.tsx:560-563 | a defined assignee id that no known user has, including "", unassigns the ticket |
| Store.EmptyUpdateTouchesOnlyDate | apps/helpdesk-app/src/app/page.tsx:550-571 | an update with no defined field only changes updatedAt |
| Store.CommentAppended | apps/helpdesk-app/src/app/page.tsx:620-624 | the comment goes after the existing ones (missing comments count as none) and only comments and updatedAt change |
| Store.DragThenUpdate | apps/helpdesk-app/src/app/page.tsx:549-571 | a kanban drag handled by this page changes only the status and updatedAt, when the assignee is the first known user with its id |
| TicketListView.EmptyState | packages/next-helpdesk/src/components/ticket/TicketList.tsx:200-224 | a message is shown iff the permission-filtered list is empty: "Aucun ticket trouvé" with no tickets at all, the own-tickets message for role user, "Aucun ticket accessible" otherwise |
| TicketListView.InaccessibleOnlyForUnknownRoles | packages/next-helpdesk/src/components/ticket/TicketList.tsx:212-221 | "Aucun ticket accessible" is only ever shown to a role other than admin, agent and user |
| TicketListView.TotalNote | packages/next-helpdesk/src/components/ticket/TicketList.tsx:235-246 | the "(sur N total)" note appears iff the role is user and some tickets were filtered out, and N is the full count |
| TicketListView.NoteMeansForeignTicket | packages/next-helpdesk/src/components/ticket/TicketList.tsx:237 | the note implies some ticket was written by somebody else |
| TicketListView.RowActions | packages/next-helpdesk/src/components/ticket/TicketList.tsx:334-362 | view is always offered, edit iff the user may edit the ticket, delete iff the user is admin and a delete callback exists |
| TicketListView.DeleteImpliesEdit | packages/next-helpdesk/src/components/ticket/TicketList.tsx:343-353 | whoever is offered delete is offered edit; a plain user is offered neither |
| TicketListView.Reconciled | packages/next-helpdesk/src/components/ticket/TicketList.tsx:164-176 | no selection stays none; title, description, category and priority are overwritten only when truthy, a truthy assignee id is looked up among the users; nothing else changes |
| TicketListView.ReconciledMatchesStore | packages/next-helpdesk/src/components/ticket/TicketList.tsx:164-176 | without empty strings, status, hours or dates in the data, the local copy equals the page's updated ticket apart from updatedAt |
| TicketListView.StatusNotReconciled | packages/next-helpdesk/src/components/ticket/TicketList.tsx:166-175 | a status change reaches the page's ticket but never the local copy |
| TicketListView.TicketListState.constructor | packages/next-helpdesk/src/components/ticket/TicketList.tsx:84-87 | table view, no selection, view mode, not loading |
| TicketListView.TicketListState.ForceCardsOnMobile | packages/next-helpdesk/src/components/ticket/TicketList.tsx:93-97 | on a small screen the table view becomes the card view; nothing else changes |
| TicketListView.TicketListState.ChangeViewMode | packages/next-helpdesk/src/components/ticket/TicketList.tsx:121-128 | a deselection keeps the view mode, any other choice sets it |
| TicketListView.TicketListState.ViewTicket | packages/next-helpdesk/src/components/ticket/TicketList.tsx:134-140 | the ticket is selected in view mode |
| TicketListView.TicketListState.EditTicket | packages/next-helpdesk/src/components/ticket/TicketList.tsx:142-148 | the ticket is selected in edit mode |
| TicketListView.TicketListState.CloseDialog | packages/next-helpdesk/src/components/ticket/TicketList.tsx:150-153 | the selection clears and the mode returns to view |
| TicketListView.TicketListState.UpdateTicket | packages/next-helpdesk/src/components/ticket/TicketList.tsx:155-181 | with a callback the loading flag ends false; the local copy is reconciled only after a success; without a callback nothing changes |
| TicketListView.TicketListState.AddComment | packages/next-helpdesk/src/components/ticket/TicketList.tsx:183-197 | with a callback the loading flag ends false; nothing else changes |
| TicketCardView.CardDescription | packages/next-helpdesk/src/components/ticket/TicketCard.tsx:111-113 | up to 150 characters the description itself, beyond that its first 150 characters and "..." |
| TicketCardView.StatusChipText | packages/next-helpdesk/src/components/ticket/TicketCard.tsx:67-106 | the status chip is labelled and coloured from the statuses of the ticket's own category, with the global fallback; its colour is never empty |
| TicketCardView.UnknownStatusShowsRaw | packages/next-helpdesk/src/components/ticket/TicketCard.tsx:67-75 | a status unknown to the category's list shows its raw value in the "default" colour |
| TicketCardView.CardActions | packages/next-helpdesk/src/components/ticket/TicketCard.tsx:138-170 | no button without showActions; view iff onView; edit iff onEdit and edit permission; delete iff onDelete and an admin |
| TicketCardView.UserSeesOnlyView | packages/next-helpdesk/src/components/ticket/TicketCard.tsx:150-160 | a plain user never sees edit or delete |
| DetailDialog.ValuesFromTicket | packages/next-helpdesk/src/components/ticket-form/edit/TicketDetailDialog.tsx:107-138 | the form holds the ticket's fields, the assignee's id or "", the tags or [], no files, the hours or 0, and the dates as given |
| DetailDialog.AsUpdateForm | packages/next-helpdesk/src/components/ticket-form/edit/TicketDetailDialog.tsx:105-106 | the update schema sees the form's fields with status and hours always defined |
| DetailDialog.SentData | packages/next-helpdesk/src/components/ticket-form/edit/TicketDetailDialog.tsx:141-145 | the whole parsed form is sent, every field defined except unset dates, and the tags are dropped by the schema |
| DetailDialog.DialogGateWiderThanPermissions | packages/next-helpdesk/src/components/ticket-form/edit/TicketDetailDialog.tsx:183 | an agent may edit in the dialog a ticket someone else wrote, which the permission utility refuses |
| DetailDialog.PermissionsNarrowerThanDialog | packages/next-helpdesk/src/components/ticket-form/edit/TicketDetailDialog.tsx:183 | whatever the permission utility allows, the dialog allows too |
| DetailDialog.CloseButtonGate | packages/next-helpdesk/src/components/ticket-form/edit/TicketDetailDialog.tsx:710-732 | the close button is never offered on a closed ticket nor to a plain user, only to admins and agents |
| DetailDialog.SaveEditedTitleKeepsRest | packages/next-helpdesk/src/components/ticket-form/edit/TicketDetailDialog.tsx:107-145 | a form whose only change is the title is dirty and, saved on a ticket with hours whose assignee is the first user with that id, gives back the ticket with the new title and updatedAt |
| DetailDialog.SaveKeptHoursRecordsZero | packages/next-helpdesk/src/components/ticket-form/edit/TicketDetailDialog.tsx:116-145 | a changed form of a ticket without hours, with the hours field left at its reset value, records 0 hours |
| DetailDialog.EditedTagsNeverSaved | packages/next-helpdesk/src/components/ticket-form/edit/TicketDetailDialog.tsx:114-145 | tags edited in the dialog never reach the page's ticket |
| DetailDialog.TicketDetailDialog.constructor | packages/next-helpdesk/src/components/ticket-form/edit/TicketDetailDialog.tsx:90-120 | the dialog starts in edit mode iff asked to, with the ticket's values, clean and not loading |
| DetailDialog.TicketDetailDialog.TicketChanged | packages/next-helpdesk/src/components/ticket-form/edit/TicketDetailDialog.tsx:125-139 | a new ticket resets the form to its values and the form is clean; the flags are kept |
| DetailDialog.TicketDetailDialog.Input | packages/next-helpdesk/src/components/ticket-form/edit/TicketDetailDialog.tsx:104 | the form takes the edited values and is dirty iff they differ from the reset values |
| DetailDialog.TicketDetailDialog.StartEdit | packages/next-helpdesk/src/components/ticket-form/edit/TicketDetailDialog.tsx:90 | edit mode starts; nothing else changes |
| DetailDialog.TicketDetailDialog.Save | packages/next-helpdesk/src/components/ticket-form/edit/TicketDetailDialog.tsx:141-151 | a payload is sent iff the dialog is in edit mode, the form is dirty, no save is running, the callback exists and the schema accepts the form; success leaves edit mode, failure stays in it; the loading flag ends where it began |
| DetailDialog.TicketDetailDialog.CancelEdit | packages/next-helpdesk/src/components/ticket-form/edit/TicketDetailDialog.tsx:153-156 | the form returns to the last reset values, clean, out of edit mode |
| DetailDialog.TicketDetailDialog.AddComment | packages/next-helpdesk/src/components/ticket-form/edit/TicketDetailDialog.tsx:158-167 | with a callback only the chat loading flag moves, ending false |
| DetailDialog.TicketDetailDialog.CloseTicket | packages/next-helpdesk/src/components/ticket-form/edit/TicketDetailDialog.tsx:169-181 | the callback is invoked iff it exists and the role is admin or agent; the close loading flag ends false |
| Chat.CountCaption | packages/next-helpdesk/src/components/ticket-form/chat/TicketChat.tsx:131-133 | the caption ends in "s" unless there is exactly one comment, starts with the count, and is " commentaires" without a comment list |
| Chat.Body | packages/next-helpdesk/src/components/ticket-form/chat/TicketChat.tsx:148-167 | the empty notice iff the comment list is empty, nothing iff there is no list, otherwise the comments themselves |
| Chat.SendButtonMatchesGuard | packages/next-helpdesk/src/components/ticket-form/chat/TicketChat.tsx:411-415 | an enabled send button always leads to a submission; whitespace alone with no file disables it and is never sent |
| Chat.WithoutIndex | packages/next-helpdesk/src/components/ticket-form/chat/TicketChat.tsx:69-71 | the list without the element at that index, unchanged for an index outside the list |
| Chat.RemoveUndoesAdd | packages/next-helpdesk/src/components/ticket-form/chat/TicketChat.tsx:62-70 | removing a file just added undoes the addition |
| Chat.TicketChatState.constructor | packages/next-helpdesk/src/components/ticket-form/chat/TicketChat.tsx:34-36 | empty text, no files, not submitting |
| Chat.TicketChatState.Type | packages/next-helpdesk/src/components/ticket-form/chat/TicketChat.tsx:360-367 | a one-character text is upper-cased, any other text kept as typed |
| Chat.TicketChatState.Submit | packages/next-helpdesk/src/components/ticket-form/chat/TicketChat.tsx:40-58 | something is sent iff the trimmed text is non-empty or a file is selected and no submission runs; the trimmed text and the files (undefined when none) are sent; success clears text and files, failure keeps them; the flag ends false |
| Chat.TicketChatState.SelectFiles | packages/next-helpdesk/src/components/ticket-form/chat/TicketChat.tsx:60-62 | the chosen files go after those already selected |
| Chat.TicketChatState.RemoveFile | packages/next-helpdesk/src/components/ticket-form/chat/TicketChat.tsx:69-71 | exactly the file at that position goes, the rest keep their order |
| FileUpload.FirstOfKeyIsFindIndex | packages/next-helpdesk/src/components/ticket-form/common/TicketFileUpload.tsx:32-37 | a file is kept iff it is the first file with its name and size, exactly the component's findIndex test |
| FileUpload.UniqueFrom | packages/next-helpdesk/src/components/ticket-form/common/TicketFileUpload.tsx:32-37 | the kept files are never more than the files examined |
| FileUpload.AfterRemove | packages/next-helpdesk/src/components/ticket-form/common/TicketFileUpload.tsx:42-48 | exactly the files with another name or size remain, each taken from the list |
| FileUpload.UniqueFromDistinct | packages/next-helpdesk/src/components/ticket-form/common/TicketFileUpload.tsx:32-37 | the kept files have pairwise different name-and-size keys |
| FileUpload.AddGivesDistinctKeys | packages/next-helpdesk/src/components/ticket-form/common/TicketFileUpload.tsx:29-40 | after adding, no two files share a key, and the list is an ordered selection of the old files followed by the added ones |
| FileUpload.AddKeepsEveryKey | packages/next-helpdesk/src/components/ticket-form/common/TicketFileUpload.tsx:29-40 | every key of the old or the added files is still present after adding |
| FileUpload.ExistingIsPrefix | packages/next-helpdesk/src/components/ticket-form/common/TicketFileUpload.tsx:31-37 | old files without duplicates stay, in place, at the head of the list |
| FileUpload.AddingKnownFilesChangesNothing | packages/next-helpdesk/src/components/ticket-form/common/TicketFileUpload.tsx:29-40 | adding files whose keys are all present already changes nothing |
| FileUpload.RemoveUndoesAdd | packages/next-helpdesk/src/components/ticket-form/common/TicketFileUpload.tsx:29-48 | removing a file just added with a new key restores the list |
| FileUpload.RemoveKeepsOrder | packages/next-helpdesk/src/components/ticket-form/common/TicketFileUpload.tsx:43-46 | removal keeps the other files in their order |
| FileUpload.FilesField.constructor | packages/next-helpdesk/src/components/ticket-form/common/TicketFileUpload.tsx:26 | no file is selected at first |
| FileUpload.FilesField.FilesChange | packages/next-helpdesk/src/components/ticket-form/common/TicketFileUpload.tsx:29-40 | the field becomes the de-duplicated old-then-added list |
| FileUpload.FilesField.RemoveFile | packages/next-helpdesk/src/components/ticket-form/common/TicketFileUpload.tsx:42-48 | the field loses every file with the removed file's key |
| AttachmentIcons.AttachmentIcon | packages/next-helpdesk/src/components/ticket-form/common/AttachmentPreview.tsx:25-45 | the pdf type gets the red pdf glyph; otherwise, in this order, the spreadsheet, document and image rules apply (an image gets the primary pdf glyph), else the generic file glyph |
| AttachmentIcons.FileIcon | packages/next-helpdesk/src/components/ticket-form/common/FilePreview.tsx:37-55 | the same rules without the image rule; the pdf glyph iff the pdf type |
| AttachmentIcons.PdfMentionsNeither | packages/next-helpdesk/src/components/ticket-form/common/AttachmentPreview.tsx:26-29 | a type containing "spreadsheet" is never the pdf type |
| AttachmentIcons.SpreadsheetBeforeDocument | packages/next-helpdesk/src/components/ticket-form/common/AttachmentPreview.tsx:28-39 | a type naming both a spreadsheet and a document is shown as a spreadsheet by both components |
| AttachmentIcons.IconsDifferOnlyOnImages | packages/next-helpdesk/src/components/ticket-form/common/AttachmentPreview.tsx:40-41 | the two classifications differ exactly on image types not caught earlier, where the pending file gets the generic glyph |
| AttachmentIcons.PreviewUrl | packages/next-helpdesk/src/components/ticket-form/common/FilePreview.tsx:23-35 | a preview URL exists iff the type is an image or pdf |
| AttachmentIcons.PreviewGatesAgree | packages/next-helpdesk/src/components/ticket-form/common/FilePreview.tsx:57-89 | a pending file's preview click fires exactly when an attachment's would: previewable type and a callback |
| Tags.ChipLabel | packages/next-helpdesk/src/components/common/TagChip.tsx:38 | the label alone without showValue; with it, "value: label" (the value printed as "undefined" when missing) |
| Tags.EffectiveFlags | packages/next-helpdesk/src/components/common/TagChip.tsx:31-36 | a global delete without a removal function switches both deletable and globalDelete off; otherwise the flags are kept |
| Tags.GlobalDeleteNeedsRemoval | packages/next-helpdesk/src/components/common/TagChip.tsx:31-51 | asking for a global delete with no removal function disables deletion whatever the other flags |
| Tags.ChipDeleteAsWritten | packages/next-helpdesk/src/components/common/TagChip.tsx:40-48 | as written, a local handler receives the tag's value; otherwise a global delete happens iff enabled, in a non-empty category, by an admin |
| Tags.ChipDelete | packages/next-helpdesk/src/components/common/TagChip.tsx:40-48 | corrected: a local handler receives the tag's id; the global path is unchanged |
| Tags.ChipColors | packages/next-helpdesk/src/components/common/TagChip.tsx:60-61 | a colour starting with "#" becomes the background with white text; any other colour gives no override |
| Tags.AvailableTags | packages/next-helpdesk/src/components/common/TagSelect.tsx:64-66 | exactly the category's tags whose id no selected tag has |
| Tags.AvailableKeepsOrder | packages/next-helpdesk/src/components/common/TagSelect.tsx:64-66 | the offered tags keep the category's order |
| Tags.NothingSelectedOffersAll | packages/next-helpdesk/src/components/common/TagSelect.tsx:64-66 | with nothing selected every tag is offered |
| Tags.TagsOf | packages/next-helpdesk/src/components/common/TagSelect.tsx:112-120 | exactly the known tags among the entries, typed text dropped |
| Tags.TagsOfConcat | packages/next-helpdesk/src/components/common/TagSelect.tsx:112-120 | the known tags keep their order |
| Tags.LastText | packages/next-helpdesk/src/components/common/TagSelect.tsx:113-117 | some typed text exists iff some entry is typed text |
| Tags.LastTextIsLast | packages/next-helpdesk/src/components/common/TagSelect.tsx:113-117 | the text kept is the last typed entry, whose dialog update wins |
| Tags.WithoutId | packages/next-helpdesk/src/components/common/TagSelect.tsx:125-129 | exactly the tags whose id differs from the given one remain |
| Tags.ChipDeleteKeepsIdTags | packages/next-helpdesk/src/components/common/TagSelect.tsx:125-129 | as written, deleting from its chip a selected tag that has an id but no value removes nothing when every selected tag has an id |
| Tags.ChipDeleteCounterexample | packages/next-helpdesk/src/components/common/TagSelect.tsx:125-129 | as written, the tag "Bug" with id "t1" and no value stays selected after its delete icon is clicked |
| Tags.ChipDeleteRemovesTag | packages/next-helpdesk/src/components/common/TagSelect.tsx:125-129 | corrected, the chip's tag is no longer selected afterwards and every tag with another id stays |
| Tags.TagSelectState.constructor | packages/next-helpdesk/src/components/common/TagSelect.tsx:57-62 | empty input, dialog closed, no tag being created |
| Tags.TagSelectState.InputChange | packages/next-helpdesk/src/components/common/TagSelect.tsx:101-106 | only the input text changes |
| Tags.TagSelectState.Change | packages/next-helpdesk/src/components/common/TagSelect.tsx:108-123 | the selection becomes the known tags in order; typed text opens the colour dialog for the last typed text with the default colour |
| Tags.TagSelectState.DeleteTag | packages/next-helpdesk/src/components/common/TagSelect.tsx:125-129 | the tags with that id leave the selection |
| Tags.TagSelectState.EditNewTag | packages/next-helpdesk/src/components/common/TagSelect.tsx:235 | the name or colour changes only while a tag is being created |
| Tags.TagSelectState.CloseDialog | packages/next-helpdesk/src/components/common/TagSelect.tsx:223 | the dialog closes and the pending tag is kept |
| Tags.TagSelectState.ConfirmCreation | packages/next-helpdesk/src/components/common/TagSelect.tsx:75-99 | nothing without a pending tag; otherwise a temporary-id tag with the pending name and colour is requested; success appends the returned tag, closes the dialog and clears the input, failure changes nothing |
| Chips.ChipStatuses | packages/next-helpdesk/src/components/common/StatusChip.tsx:24-26 | a truthy category resolves through the context's exact-match lookup; otherwise the global statuses or [] |
| Chips.StatusChipMatchesUtils | packages/next-helpdesk/src/components/common/StatusChip.tsx:28-33 | the chip's label is the status utility's label on the same list, prefixed with "status: " exactly when showValue is set; an unknown status is shown raw in "default" |
| Chips.EmptyCategoryShowsRaw | packages/next-helpdesk/src/components/common/StatusChip.tsx:24-29 | a category configured with no statuses shows every status raw, in "default" |
| Chips.PriorityChipFirstMatch | packages/next-helpdesk/src/components/common/PriorityChip.tsx:21-26 | the first matching priority gives the label (raw value when empty) and colour, prefixed with "priority: " exactly when showValue is set |
| Chips.PriorityChipUnknown | packages/next-helpdesk/src/components/common/PriorityChip.tsx:21-26 | an unknown priority is shown raw ("p: p" with showValue) in "default" |
| Users.AssignableUsers | packages/next-helpdesk/src/components/common/UserSelect.tsx:38-40 | every assignable user is an admin or agent from the list, and every admin or agent of the list is assignable |
| Users.AssignableKeepsOrder | packages/next-helpdesk/src/components/common/UserSelect.tsx:38-40 | the assignable users keep the list's order; all of it when everyone is staff, nothing when nobody is |
| Users.RenderValue | packages/next-helpdesk/src/components/common/UserSelect.tsx:52-59 | the empty text iff the value is missing or empty, nothing iff no assignable user has that id, otherwise the first assignable user with that id |
| Users.ClearShowsEmpty | packages/next-helpdesk/src/components/common/UserSelect.tsx:83 | after the clear button sets "" the picker shows the empty text |
| Users.MenuOptions | packages/next-helpdesk/src/components/common/UserSelect.tsx:96-111 | the placeholder entry first, then exactly the assignable users in order |
| Users.ChosenOptionRendersBack | packages/next-helpdesk/src/components/common/UserSelect.tsx:52-59 | choosing a menu entry renders it back: the placeholder gives the empty text and a user with a unique non-empty id gives that user |
| Users.FirstChar | packages/next-helpdesk/src/components/common/UserAvatar.tsx:20 | the first character of a word, or nothing for an empty word |
| Users.InitialCharsAreWordStarts | packages/next-helpdesk/src/components/common/UserAvatar.tsx:18-21 | splitting on spaces and joining the first characters gives exactly the characters that begin a word |
| Users.Initials | packages/next-helpdesk/src/components/common/UserAvatar.tsx:17-24 | at most two characters: the upper-cased first two word starts; empty for an empty name |
| Users.TwoWordInitials | packages/next-helpdesk/src/components/common/UserAvatar.tsx:17-24 | a first and last name without spaces give their two upper-cased initials |
| Users.AvatarChild | packages/next-helpdesk/src/components/common/UserAvatar.tsx:26-39 | no child iff the avatar is a non-empty URL, the custom node itself, and the initials iff there is no avatar or an empty URL |
| Users.AvatarSrc | packages/next-helpdesk/src/components/common/UserAvatar.tsx:43 | the image source is present iff the avatar is a string, and is that string |
| Users.AvatarShowsOneThing | packages/next-helpdesk/src/components/common/UserAvatar.tsx:26-43 | a non-empty image source and an empty child go together; an empty URL falls back to the initials |
| CreateTicket.DefaultValues | packages/next-helpdesk/src/components/ticket-form/create/CreateTicketForm.tsx:51-59 | every text field, the tags and the files start empty and the priority is the configured default |
| CreateTicket.AsCreateForm | packages/next-helpdesk/src/components/ticket-form/create/CreateTicketForm.tsx:49-50 | the schema sees the form's text fields unchanged, the picker's value as the assignee and one file item per chosen file |
| CreateTicket.FilesNeverBlock | packages/next-helpdesk/src/components/ticket-form/create/CreateTicketForm.tsx:49-50 | the form passes the schema iff its title, description, category and priority do; chosen files never block it |
| CreateTicket.DefaultsRejected | packages/next-helpdesk/src/components/ticket-form/create/CreateTicketForm.tsx:51-59 | the untouched form is rejected by the schema |
| CreateTicket.SubmittedData | packages/next-helpdesk/src/components/ticket-form/create/CreateTicketForm.tsx:72-75 | the data handed to onSubmit carries the form's fields and files but none of the chosen tags |
| CreateTicket.SubmittedFormBecomesTicket | packages/next-helpdesk/src/components/ticket-form/create/CreateTicketForm.tsx:72-75 | a submitted form becomes a ticket with its title, description, category and priority, no tags, and no assignee when the picker was left empty |
| CreateTicket.TagFieldFor | packages/next-helpdesk/src/components/ticket-form/create/CreateTicketForm.tsx:125-135 | no tag field without a category; with one, the editor iff the role is admin or agent and the read-only display otherwise |
| CreateTicket.CreateTicketForm.constructor | packages/next-helpdesk/src/components/ticket-form/create/CreateTicketForm.tsx:47-60 | the form starts at its default values and not submitting |
| CreateTicket.CreateTicketForm.Input | packages/next-helpdesk/src/components/ticket-form/create/CreateTicketForm.tsx:106 | editing replaces the values and leaves the submitting flag alone |
| CreateTicket.CreateTicketForm.Submit | packages/next-helpdesk/src/components/ticket-form/create/CreateTicketForm.tsx:72-82 | something is sent iff the schema accepts the form, and it is the submitted data; only a resolved submission resets the form, and submitting ends false |
| CreateTicket.CreateTicketForm.Close | packages/next-helpdesk/src/components/ticket-form/create/CreateTicketForm.tsx:84-87 | closing resets the form to its defaults |
| CreateTicket.CreateTicketButton.constructor | packages/next-helpdesk/src/components/ticket-form/create/CreateTicketButton.tsx:21 | the dialog starts closed |
| CreateTicket.CreateTicketButton.Open | packages/next-helpdesk/src/components/ticket-form/create/CreateTicketButton.tsx:23 | the dialog opens |
| CreateTicket.CreateTicketButton.Close | packages/next-helpdesk/src/components/ticket-form/create/CreateTicketButton.tsx:24 | the dialog closes |
| CreateTicket.CreateTicketButton.Submit | packages/next-helpdesk/src/components/ticket-form/create/CreateTicketButton.tsx:26-29 | the dialog closes iff onSubmit resolved; a rejection leaves it as it was |
| CreateTicket.PriorityFieldFor | packages/next-helpdesk/src/components/ticket-form/create/TicketPriorityField.tsx:28-63 | a select iff the current user is admin or agent, offering exactly the configured priorities in order; otherwise read-only text |
| CreateTicket.ReadOnlyShowsDefaultLabel | packages/next-helpdesk/src/components/ticket-form/create/TicketPriorityField.tsx:57-63 | the read-only text is the default priority's label, and the raw default when it is not configured |
| CreateTicket.AssignmentFieldGate | packages/next-helpdesk/src/components/ticket-form/create/TicketAssignmentField.tsx:18-24 | the field is shown iff there are users and the current user is admin or agent; never with no users, no current user or role user |
| CreateTicket.AssignmentFieldMayOfferNobody | packages/next-helpdesk/src/components/ticket-form/create/TicketAssignmentField.tsx:18-20 | when the field is shown but every user has role user, its menu holds only the placeholder |
| HelpdeskAppView.RoleColor | packages/next-helpdesk/src/components/app/HelpdeskApp.tsx:85-96 | admin, agent and user get the error, warning and primary colours; every other role the default colour |
| HelpdeskAppView.RoleLabel | packages/next-helpdesk/src/components/app/HelpdeskApp.tsx:98-109 | the three known roles get their French labels; every other role is shown as is |
| HelpdeskAppView.RoleBadge | packages/next-helpdesk/src/components/app/HelpdeskApp.tsx:85-109 | the badge shows the raw role iff it has the neutral colour; the known roles have distinct labels and colours; an unknown role spelled "Agent" looks like the agent label with another colour |
| HelpdeskAppView.CreatedCategoryLabel | packages/next-helpdesk/src/components/app/HelpdeskApp.tsx:65-67 | the logged category label is the category utility's label: the found category's non-empty label, else the raw value |
| HelpdeskAppView.SummaryCategoryLabel | packages/next-helpdesk/src/components/app/HelpdeskApp.tsx:203-206 | the summary's label is absent iff the category is not configured |
| HelpdeskAppView.SummaryAgreesWithLog | packages/next-helpdesk/src/components/app/HelpdeskApp.tsx:65-67 | for a configured, labelled category the summary and the log agree; for an unknown one the log shows the raw value and the summary nothing |
| HelpdeskAppView.ChipsFor | packages/next-helpdesk/src/components/app/HelpdeskApp.tsx:226-240 | the admin chip is lit iff isAdmin, the agent chip iff isAgent, the user chip iff not isAgent |
| HelpdeskAppView.ChipsPartitionRoles | packages/next-helpdesk/src/components/app/HelpdeskApp.tsx:226-240 | the user chip is lit iff the agent chip is not, i.e. for every role other than admin and agent; an admin lights admin and agent |
| HelpdeskAppView.AppRole | packages/next-helpdesk/src/components/app/HelpdeskApp.tsx:273-280 | the provider gets the given role, and "user" (not an agent) when none is given |
| HelpdeskAppView.HelpdeskAppState.constructor | packages/next-helpdesk/src/components/app/HelpdeskApp.tsx:44-47 | not loading, no notice, no summary |
| HelpdeskAppView.HelpdeskAppState.CreateTicket | packages/next-helpdesk/src/components/app/HelpdeskApp.tsx:58-79 | the submitted data becomes the summary, loading ends and the notice opens |
| HelpdeskAppView.HelpdeskAppState.CloseSuccess | packages/next-helpdesk/src/components/app/HelpdeskApp.tsx:81-83 | the notice closes and nothing else changes |
| PrismaExample.TransformUser | prisma-integration-example.ts:17-25 | id, name, email and avatar are copied and the role is the stored role lower-cased |
| PrismaExample.TransformedRoles | prisma-integration-example.ts:23 | the stored ADMIN, AGENT and USER become the library's admin, agent and user roles, and a transformed role is already lower-case |
| PrismaExample.TransformAttachment | prisma-integration-example.ts:68-93 | every attachment field is copied and its uploader is transformed like a user (the same for ticket and comment attachments) |
| PrismaExample.TransformComment | prisma-integration-example.ts:54-63 | the comment's fields are copied, its author transformed, and its attachments are the transformed list or [] when absent |
| PrismaExample.TransformTicket | prisma-integration-example.ts:30-49 | fields copied, priority and status lower-cased, tags [] when absent, the assignee present iff stored, comments and attachments transformed or [] |
| PrismaExample.TransformedPriorityValid | prisma-integration-example.ts:35 | a stored LOW, MEDIUM or HIGH priority becomes one the ticket schema accepts |
| PrismaExample.InsertByCount | prisma-integration-example.ts:536 | inserting an entry adds exactly that entry and its count to the list |
| PrismaExample.InsertSorted | prisma-integration-example.ts:536 | inserting into a list ordered by non-increasing count keeps it ordered |
| PrismaExample.InsertDistinct | prisma-integration-example.ts:536 | inserting an entry with a new key keeps keys distinct |
| PrismaExample.SortByCount | prisma-integration-example.ts:536 | the sorted entries are a permutation of the entries, in non-increasing count order |
| PrismaExample.TallyCorrect | prisma-integration-example.ts:519-534 | the counting loop yields one entry per distinct tag value, each counting that value's occurrences and carrying the first such tag's label and colour, every tag counted, counts summing to the number of tags |
| PrismaExample.SortKeepsFacts | prisma-integration-example.ts:536 | sorting the entries keeps every promise of the count |
| PrismaExample.CountTicketTags | prisma-integration-example.ts:522-533 | counting one ticket's tags into the table gives the table of everything visited so far followed by those tags |
| PrismaExample.GetAllTags | prisma-integration-example.ts:518-536 | the result is the count of all tickets' tags, ticket by ticket, sorted by count |
| PrismaExample.AllTagsReport | prisma-integration-example.ts:512-537 | the result has one entry per distinct tag value with its number of occurrences and first label and colour, sorted by non-increasing count |
| PrismaExample.RemoveTagFromCategory | prisma-integration-example.ts:550-557 | the update requests issued are exactly the per-ticket removals, in ticket order |
| PrismaExample.RemovalsPerTaggedTicket | prisma-integration-example.ts:552-556 | one request per ticket that has a tag list, in ticket order, none for tickets without one |
| PrismaExample.RemovalKeepsOthers | prisma-integration-example.ts:554-555 | a request targets its ticket and keeps, in order, exactly the tags whose value differs from the removed one; it is idempotent |

## Left out

- **Markup and styling.** Rendering, styling and layout, i.e. all MUI markup, are not modelled. Neither are the files that hold no rules: the app layout, `Dashboard.tsx`, the `index.ts` barrels and the build configuration.
- **Form-library glue.** The react-hook-form `Controller`/`watch`/`setValue` bindings and the zod resolver are not modelled. The same goes for the files that only bind fields to lookups already modelled: `StatusSelect.tsx`, `PrioritySelect.tsx`, `TicketCategoryField.tsx`, `TicketBasicFields.tsx`, `TicketTagsField.tsx`, `TicketTagsDisplay.tsx` and `FilePreviewDialog.tsx`.
- **Floating point and dates.** `calculateEndDate` in `TimeTrackingFields.tsx` is not modelled. Nor are `formatFileSize`, the `toFixed` size displays, or date and locale formatting. Hours are kept as `real` values and only compared.
- **I/O and the DOM.** `alert`, `confirm`, `console` and the `setTimeout` delays are not modelled, nor are object-URL creation and revocation, download links, file-input refs and scrolling. An object URL is a parameter, and is assumed non-empty.
- **Prisma queries and API handlers.** The Prisma client queries and writes and the commented-out API handlers (`prisma-integration-example.ts` lines 102-507 and 566-690) are not modelled. `getAllTags` and `removeTagFromCategory` start from their tickets already loaded. The update requests they issue are returned as values.
- **Third-party widgets.** The Gantt renderer, the kanban board's own drag mechanics and the Autocomplete widget are not modelled. The post-drop board is an input value.
- **Concurrency.** Interleavings of awaited callbacks are not modelled. The transient loading flags that are set and cleared within one step are not observable afterwards.
- **Tag-store functions.** `getTagsForCategory`, `addTagToCategory` and `removeTagFromCategory` of the tag store are parameters, because the context type does not define them.
- **Local label helpers.** The label helpers local to `TicketList` and `TicketCard` only delegate to the utilities, and are covered by them.
- **Chat display.** The chat's date formatting and scroll effects are not modelled.
- **Text.Upper / Text.Lower:** case mapping is ASCII only, and a string's length counts characters, not UTF-16 code units.
- **PrismaExample.SortByCount:** the stability of the sort is not proved. Only sortedness and the permutation are proved.
- **PrismaExample.GetAllTags:** the result is a list in the order keys were first seen. JavaScript's `Object.values` would put integer-like keys first in numeric order; the model does not.
- **Context.Merge:** a patch key is either absent or holds a value. A key that is present but holds `undefined` is not modelled. The object spread copies such a key, so `updateConfig({ categories: undefined })` erases the categories, and a `userConfig` key set to `undefined` erases that default. `Over`, `MergeThen`, the constructor and `UpdateConfig` share this limit.
- **PrismaExample.CountTicketTags, PrismaExample.GetAllTags:** a tag value that names a member every JavaScript object inherits (`constructor`, `toString`, `__proto__`, ...) is counted like any other. In the source, `tagCounts` starts as `{}`, so the truthiness test at line 523 finds the inherited member. The source then bumps a `count` property on that member instead of creating an entry, and the tag never appears in the result. The model's table has no inherited keys.
- **Kanban.DragPayload:** the spread ticket is modelled only through the form fields the update data carries.
- **CreateTicket.ButtonsDisabled, CreateTicket.TriggerDisabled, DetailDialog.SaveDisabled:** these button gates are single predicates. Each is the expression itself and carries no separate contract.

## Findings

| source | as written | input that shows it | evidently intended | confidence | as-written member | corrected member |
|---|---|---|---|---|---|---|
| packages/next-helpdesk/src/components/common/TagChip.tsx:43 | the chip hands `tag.value` to `onDelete`, but the tag picker's `handleDeleteTag` removes the tags whose `id` equals its argument | a selected tag with id "t1", no value and label "Bug": clicking its delete icon leaves it selected | the chip hands the tag's id, so that its own tag is removed | high, not executed | Tags.ChipDeleteCounterexample | Tags.ChipDeleteRemovesTag |
| packages/next-helpdesk/src/components/common/kanban/KanbanCard.tsx:125 | `{card.hoursSpent && <Chip …/>}` renders the number 0 as text when no hours were spent | a card with `hoursSpent` = 0 shows a bare "0" | no hours chip and no text for 0 hours | high, not executed | KanbanCardView.ZeroHoursRendersBareZero | KanbanCardView.HoursSlotsAgreeExceptZero |
