/** `kanban/TicketKanban.tsx`: the category tabs, the initially selected tab,
    the drag-end handler that turns a move into at most one status update,
    and the selected-ticket / dialog state. */
module Kanban {
  import opened Base
  import opened Text
  import opened Types
  import opened KanbanBoard
  import opened Selection

  /** Number of tickets in a category. */
  function TicketCount(tickets: seq<Ticket>, category: string): (r: nat)
    ensures r <= |tickets|
    ensures r > 0 <==> exists i :: 0 <= i < |tickets| && tickets[i].category == category
    ensures r == |set i | 0 <= i < |tickets| && tickets[i].category == category|
  {
    CategoryCount(tickets, category);
    |FilteredTickets(tickets, category)|
  }

  lemma CategoryCount(tickets: seq<Ticket>, category: string)
    ensures |Filter(tickets, InCategory(category))| == |set i | 0 <= i < |tickets| && tickets[i].category == category|
  {
    var p := InCategory(category);
    FilterCount(tickets, p);
    var a := Positions(tickets, p);
    var b := set i | 0 <= i < |tickets| && tickets[i].category == category;
    forall i | 0 <= i < |tickets|
      ensures i in a <==> i in b
    {
      assert p(tickets[i]) == (tickets[i].category == category);
    }
    assert a == b;
  }

  function HasTickets(tickets: seq<Ticket>): CategoryConfig -> bool {
    (c: CategoryConfig) => TicketCount(tickets, c.value) > 0
  }

  /** `categories[i]` is the first category that has a ticket. */
  predicate FirstWithTickets(categories: seq<CategoryConfig>, tickets: seq<Ticket>, i: int) {
    0 <= i < |categories| && HasTickets(tickets)(categories[i])
    && forall j :: 0 <= j < i ==> !HasTickets(tickets)(categories[j])
  }

  /** The initial `selectedCategory`: the value of the first category, in
      configuration order, that has a ticket; "" when there is none. */
  function InitialCategory(categories: seq<CategoryConfig>, tickets: seq<Ticket>): (r: string)
    ensures forall i :: FirstWithTickets(categories, tickets, i) ==> r == categories[i].value
    ensures (forall i :: 0 <= i < |categories| ==> !HasTickets(tickets)(categories[i])) ==> r == ""
  {
    FirstWithTicketsIsFound(categories, tickets);
    match Find(categories, HasTickets(tickets))
    case Some(c) => StrOr(c.value, "")
    case None => ""
  }

  /** The first category with tickets is the one `find` returns. */
  lemma FirstWithTicketsIsFound(categories: seq<CategoryConfig>, tickets: seq<Ticket>)
    ensures forall i :: FirstWithTickets(categories, tickets, i) ==> Find(categories, HasTickets(tickets)) == Some(categories[i])
  {
    forall i | FirstWithTickets(categories, tickets, i)
      ensures Find(categories, HasTickets(tickets)) == Some(categories[i])
    {
      FindIsFirst(categories, HasTickets(tickets), i);
    }
  }

  /** One tab: its value and its label "label (count)". */
  datatype Tab = Tab(value: string, text: string)

  function MakeTab(tickets: seq<Ticket>): CategoryConfig -> Tab {
    (c: CategoryConfig) => Tab(c.value, c.caption + " (" + NatToString(TicketCount(tickets, c.value)) + ")")
  }

  /** The tabs: exactly the categories that have tickets, in configuration
      order, each labelled with its ticket count: an ordered selection of
      the tabs of all categories, one tab per configured category that has
      tickets. */
  function Tabs(categories: seq<CategoryConfig>, tickets: seq<Ticket>): (r: seq<Tab>)
    ensures Subseq(r, Map(categories, MakeTab(tickets)))
    ensures |r| == |set i | 0 <= i < |categories| && TicketCount(tickets, categories[i].value) > 0|
    ensures |r| <= |categories|
    ensures forall k :: 0 <= k < |r| ==>
      exists c :: c in categories && HasTickets(tickets)(c) && r[k] == MakeTab(tickets)(c)
    ensures forall i :: 0 <= i < |categories| && HasTickets(tickets)(categories[i]) ==>
      MakeTab(tickets)(categories[i]) in r
  {
    TabsSelection(categories, tickets);
    TabsMembers(categories, tickets);
    Map(Filter(categories, HasTickets(tickets)), MakeTab(tickets))
  }

  lemma TabsMembers(categories: seq<CategoryConfig>, tickets: seq<Ticket>)
    ensures var r := Map(Filter(categories, HasTickets(tickets)), MakeTab(tickets));
      |r| <= |categories|
      && (forall k :: 0 <= k < |r| ==>
        exists c :: c in categories && HasTickets(tickets)(c) && r[k] == MakeTab(tickets)(c))
      && (forall i :: 0 <= i < |categories| && HasTickets(tickets)(categories[i]) ==>
        MakeTab(tickets)(categories[i]) in r)
  {
    var shown := Filter(categories, HasTickets(tickets));
    var r := Map(shown, MakeTab(tickets));
    assert forall k :: 0 <= k < |r| ==> shown[k] in categories && r[k] == MakeTab(tickets)(shown[k]);
  }

  lemma TabsSelection(categories: seq<CategoryConfig>, tickets: seq<Ticket>)
    ensures var r := Map(Filter(categories, HasTickets(tickets)), MakeTab(tickets));
      Subseq(r, Map(categories, MakeTab(tickets)))
      && |r| == |set i | 0 <= i < |categories| && TicketCount(tickets, categories[i].value) > 0|
  {
    var has := HasTickets(tickets);
    FilterSubseq(categories, has);
    MapSubseq(Filter(categories, has), categories, MakeTab(tickets));
    FilterCount(categories, has);
    var a := Positions(categories, has);
    var b := set i | 0 <= i < |categories| && TicketCount(tickets, categories[i].value) > 0;
    forall i | 0 <= i < |categories|
      ensures i in a <==> i in b
    {
      assert has(categories[i]) == (TicketCount(tickets, categories[i].value) > 0);
    }
    assert a == b;
  }

  /** The initial tab is the first tab shown, or "" when no tab is shown. */
  lemma InitialIsFirstTab(categories: seq<CategoryConfig>, tickets: seq<Ticket>)
    ensures var tabs := Tabs(categories, tickets);
      InitialCategory(categories, tickets) == if tabs == [] then "" else tabs[0].value
  {
    var has := HasTickets(tickets);
    var k := FindIndex(categories, has);
    if k < 0 {
      FilterKeepsNone(categories, has);
    } else {
      FilterStartsAtFirst(categories, has, k);
    }
  }

  /** The card reported by the board's drag-end callback: only its id is read. */
  datatype MovedCard = MovedCard(id: string)

  function CardIdIs(id: string): Card -> bool {
    (c: Card) => c.id == id
  }

  /** `board.columns[i]` is the first column holding a card with that id. */
  predicate FirstColumnWith(board: seq<Column>, id: string, i: int) {
    0 <= i < |board| && Any(board[i].cards, CardIdIs(id))
    && forall j :: 0 <= j < i ==> !Any(board[j].cards, CardIdIs(id))
  }

  /** The update payload `{ ...ticket, assignedTo, status }`: the ticket's
      form fields, the assignee's id (or undefined), the new status. Without
      a ticket, only `status` is set. */
  function DragPayload(ticket: Option<Ticket>, status: string): (d: UpdateData)
    ensures d.status == Some(status) && d.files.None?
    ensures ticket.None? ==> d == UpdateData(None, None, None, None, Some(status), None, None, None, None, None, None)
    ensures ticket.Some? ==> var t := ticket.value;
      d.title == Some(t.title) && d.description == Some(t.description)
      && d.category == Some(t.category) && d.priority == Some(t.priority)
      && d.assignedTo == (if t.assignedTo.Some? then Some(t.assignedTo.value.id) else None)
      && d.hoursSpent == t.hoursSpent && d.startDate == t.startDate && d.endDate == t.endDate
      && d.tags == t.tags
  {
    match ticket
    case None => UpdateData(None, None, None, None, Some(status), None, None, None, None, None, None)
    case Some(t) =>
      UpdateData(Some(t.title), Some(t.description), Some(t.category), Some(t.priority), Some(status),
        if t.assignedTo.Some? then Some(t.assignedTo.value.id) else None,
        t.hoursSpent, t.startDate, t.endDate, t.tags, None)
  }

  /** An update request: the ticket id and the partial data. */
  datatype UpdateRequest = UpdateRequest(ticketId: string, data: UpdateData)

  /** `onCardDragEnd`: scans the post-drop board for the first column holding
      the moved card and requests exactly one update to that column's status;
      no request without an update callback, without a (truthy) card id, when
      no column holds the card, or when that column's id is "". */
  method ResolveDragEnd(hasOnUpdate: bool, moved: Option<MovedCard>, board: seq<Column>, tickets: seq<Ticket>)
    returns (request: Option<UpdateRequest>)
    ensures !hasOnUpdate || moved.None? || moved.value.id == "" ==> request.None?
    ensures hasOnUpdate && moved.Some? && moved.value.id != "" ==>
      var id := moved.value.id;
      (request.Some? <==> exists i :: FirstColumnWith(board, id, i) && board[i].id != "")
      && forall i :: FirstColumnWith(board, id, i) && board[i].id != "" ==>
           request == Some(UpdateRequest(id, DragPayload(FindTicket(tickets, id), board[i].id)))
  {
    request := None;
    if hasOnUpdate && moved.Some? && moved.value.id != "" {
      var id := moved.value.id;
      var newStatus: Option<string> := None;
      var i := 0;
      while i < |board|
        invariant 0 <= i <= |board| && newStatus.None?
        invariant forall j :: 0 <= j < i ==> !Any(board[j].cards, CardIdIs(id))
      {
        if Any(board[i].cards, CardIdIs(id)) {
          newStatus := Some(board[i].id);
          break;
        }
        i := i + 1;
      }
      assert newStatus.Some? ==> i < |board| && FirstColumnWith(board, id, i) && newStatus.value == board[i].id;
      assert newStatus.None? ==> forall j :: 0 <= j < |board| ==> !FirstColumnWith(board, id, j);
      if newStatus.Some? && newStatus.value != "" {
        var ticket := FindTicket(tickets, id);
        request := Some(UpdateRequest(id, DragPayload(ticket, newStatus.value)));
      }
    }
  }

  /** The component's state: the selected tab, the ticket shown in the
      detail dialog, and whether the dialog is open. */
  class KanbanView {
    var selectedCategory: string
    var selectedTicket: Option<Ticket>
    var dialogOpen: bool

    constructor (categories: seq<CategoryConfig>, tickets: seq<Ticket>)
      ensures selectedCategory == InitialCategory(categories, tickets)
      ensures selectedTicket.None? && !dialogOpen
    {
      selectedTicket := None;
      dialogOpen := false;
      selectedCategory := InitialCategory(categories, tickets);
    }

    /** Choosing a tab. */
    method SelectTab(value: string)
      modifies this
      ensures selectedCategory == value
      ensures selectedTicket == old(selectedTicket) && dialogOpen == old(dialogOpen)
    {
      selectedCategory := value;
    }

    /** The refresh effect: when the tickets change, the selected ticket is
        replaced by the first ticket with its id, and kept when there is none. */
    method RefreshSelected(tickets: seq<Ticket>)
      modifies this
      ensures selectedTicket == Refreshed(old(selectedTicket), tickets)
      ensures selectedCategory == old(selectedCategory) && dialogOpen == old(dialogOpen)
    {
      if selectedTicket.Some? {
        var updated := FindTicket(tickets, selectedTicket.value.id);
        if updated.Some? {
          selectedTicket := updated;
        }
      }
    }

    /** Clicking a card opens the dialog on the first ticket with the card's
        id; nothing happens when there is none. */
    method CardClick(tickets: seq<Ticket>, cardId: string)
      modifies this
      ensures FindTicket(tickets, cardId).Some? ==>
        selectedTicket == FindTicket(tickets, cardId) && dialogOpen
      ensures FindTicket(tickets, cardId).None? ==>
        selectedTicket == old(selectedTicket) && dialogOpen == old(dialogOpen)
      ensures selectedCategory == old(selectedCategory)
    {
      var ticket := FindTicket(tickets, cardId);
      if ticket.Some? {
        selectedTicket := ticket;
        dialogOpen := true;
      }
    }

    /** Closing the dialog clears the selection. */
    method CloseDialog()
      modifies this
      ensures !dialogOpen && selectedTicket.None?
      ensures selectedCategory == old(selectedCategory)
    {
      dialogOpen := false;
      selectedTicket := None;
    }
  }
}
