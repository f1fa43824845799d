/** `common/TicketGanttChart.tsx`: tasks derived from tickets with both
    dates, the status-to-progress and priority-to-colour tables, and the
    selected-ticket / dialog state. */
module Gantt {
  import opened Base
  import opened Types
  import opened Selection

  /** The four bar colours of a task. */
  datatype BarColors = BarColors(
    backgroundColor: string, backgroundSelectedColor: string,
    progressColor: string, progressSelectedColor: string)

  /** A Gantt task; its type is always "task". */
  datatype Task = Task(id: string, name: string, start: Date, end: Date, progress: int, styles: BarColors)

  /** `getProgressFromStatus`. */
  function ProgressFromStatus(status: string): (r: int)
    ensures 0 <= r <= 100
    ensures r == 0 <==> status !in {"open", "in_progress", "in_test", "resolved", "closed"}
    ensures r == 100 <==> status == "closed"
  {
    match status
    case "open" => 10
    case "in_progress" => 50
    case "in_test" => 80
    case "resolved" => 95
    case "closed" => 100
    case _ => 0
  }

  /** The known statuses in workflow order. */
  const WORKFLOW: seq<string> := ["open", "in_progress", "in_test", "resolved", "closed"]

  /** Progress strictly increases along the workflow, and every known status
      is ahead of an unknown one. */
  lemma ProgressFollowsWorkflow(i: nat, j: nat, other: string)
    requires i < j < |WORKFLOW|
    requires other !in WORKFLOW
    ensures ProgressFromStatus(WORKFLOW[i]) < ProgressFromStatus(WORKFLOW[j])
    ensures ProgressFromStatus(other) < ProgressFromStatus(WORKFLOW[i])
  {
  }

  /** `getColorsFromPriority`: red shades for high, orange for medium, green
      for low, blue for anything else. */
  function ColorsFromPriority(priority: string): (r: BarColors)
    ensures priority == "high" ==> r == BarColors("#d32f2f", "#b71c1c", "#ef5350", "#e53935")
    ensures priority == "medium" ==> r == BarColors("#ed6c02", "#e65100", "#ffb74d", "#ff9800")
    ensures priority == "low" ==> r == BarColors("#2e7d32", "#1b5e20", "#66bb6a", "#4caf50")
    ensures priority !in {"high", "medium", "low"} ==> r == BarColors("#1976d2", "#1565c0", "#42a5f5", "#2196f3")
  {
    match priority
    case "high" => BarColors("#d32f2f", "#b71c1c", "#ef5350", "#e53935")
    case "medium" => BarColors("#ed6c02", "#e65100", "#ffb74d", "#ff9800")
    case "low" => BarColors("#2e7d32", "#1b5e20", "#66bb6a", "#4caf50")
    case _ => BarColors("#1976d2", "#1565c0", "#42a5f5", "#2196f3")
  }

  /** The four priority classes get four different bar colours. */
  lemma ColorsDistinguishPriorities(p: string, q: string)
    requires p in {"high", "medium", "low"} && p != q
    ensures ColorsFromPriority(p).backgroundColor != ColorsFromPriority(q).backgroundColor
  {
  }

  function HasDates(): Ticket -> bool {
    (t: Ticket) => t.startDate.Some? && t.endDate.Some?
  }

  /** A dated ticket's Gantt task. */
  function ToTask(t: Ticket): (task: Task)
    requires t.startDate.Some? && t.endDate.Some?
    ensures task.id == t.id && task.name == t.title
    ensures task.start == t.startDate.value && task.end == t.endDate.value
    ensures task.progress == ProgressFromStatus(t.status) && task.styles == ColorsFromPriority(t.priority)
  {
    Task(t.id, t.title, t.startDate.value, t.endDate.value, ProgressFromStatus(t.status), ColorsFromPriority(t.priority))
  }

  /** The tickets that have both dates, in order. */
  function DatedTickets(tickets: seq<Ticket>): (r: seq<Ticket>)
    ensures Subseq(r, tickets)
    ensures forall k :: 0 <= k < |r| ==> r[k] in tickets && r[k].startDate.Some? && r[k].endDate.Some?
    ensures forall i :: 0 <= i < |tickets| && tickets[i].startDate.Some? && tickets[i].endDate.Some? ==> tickets[i] in r
  {
    FilterSubseq(tickets, HasDates());
    Filter(tickets, HasDates())
  }

  /** `convertTicketsToTasks`: one task per ticket that has both dates, in
      ticket order. */
  function ConvertTicketsToTasks(tickets: seq<Ticket>): (r: seq<Task>)
    ensures var dated := DatedTickets(tickets);
      |r| == |dated| && forall k :: 0 <= k < |r| ==> r[k] == ToTask(dated[k])
  {
    var dated := DatedTickets(tickets);
    seq(|dated|, k requires 0 <= k < |dated| => ToTask(dated[k]))
  }

  /** The chart's empty state shows this message instead of the chart. */
  function EmptyMessage(tickets: seq<Ticket>): (r: Option<string>)
    ensures r.Some? <==> forall i :: 0 <= i < |tickets| ==> tickets[i].startDate.None? || tickets[i].endDate.None?
  {
    if ConvertTicketsToTasks(tickets) == [] then Some("Aucun ticket avec des dates de début et de fin à afficher")
    else None
  }

  /** The chart's state: the ticket in the detail dialog and whether it is open. */
  class GanttView {
    var selectedTicket: Option<Ticket>
    var dialogOpen: bool

    constructor ()
      ensures selectedTicket.None? && !dialogOpen
    {
      selectedTicket := None;
      dialogOpen := false;
    }

    /** `onSelect`: opens the dialog on the first ticket with the selected task's id;
        nothing happens when there is none. */
    method OnSelect(tickets: seq<Ticket>, taskId: string)
      modifies this
      ensures FindTicket(tickets, taskId).Some? ==> selectedTicket == FindTicket(tickets, taskId) && dialogOpen
      ensures FindTicket(tickets, taskId).None? ==>
        selectedTicket == old(selectedTicket) && dialogOpen == old(dialogOpen)
    {
      var ticket := FindTicket(tickets, taskId);
      if ticket.Some? {
        selectedTicket := ticket;
        dialogOpen := true;
      }
    }

    /** The refresh effect. */
    method RefreshSelected(tickets: seq<Ticket>)
      modifies this
      ensures selectedTicket == Refreshed(old(selectedTicket), tickets)
      ensures dialogOpen == old(dialogOpen)
    {
      if selectedTicket.Some? {
        var updated := FindTicket(tickets, selectedTicket.value.id);
        if updated.Some? {
          selectedTicket := updated;
        }
      }
    }

    /** Closing the dialog clears the selection. */
    method CloseDialog()
      modifies this
      ensures !dialogOpen && selectedTicket.None?
    {
      dialogOpen := false;
      selectedTicket := None;
    }
  }
}
