/** `kanban/hooks/useKanbanBoard.ts`: the tickets of the selected category,
    turned into cards and laid out in one column per status of that category. */
module KanbanBoard {
  import opened Base
  import opened Types
  import CategoryUtils

  /** A kanban card: the ticket fields the board shows, with missing comments
      and attachments replaced by []. */
  datatype Card = Card(
    id: string, title: string, description: string, priority: string,
    category: string, author: User, assignedTo: Option<User>,
    createdAt: Date, updatedAt: Date, hoursSpent: Option<real>,
    comments: seq<Comment>, attachments: seq<Attachment>)

  /** A board column: `id` is a status value, `title` its label. */
  datatype Column = Column(id: string, title: string, cards: seq<Card>)

  /** The card of one ticket. */
  function ToCard(t: Ticket): (c: Card)
    ensures c.id == t.id && c.title == t.title && c.description == t.description
    ensures c.priority == t.priority && c.category == t.category && c.author == t.author
    ensures c.assignedTo == t.assignedTo && c.createdAt == t.createdAt && c.updatedAt == t.updatedAt
    ensures c.hoursSpent == t.hoursSpent
    ensures c.comments == t.comments.GetOr([]) && c.attachments == t.attachments.GetOr([])
  {
    Card(t.id, t.title, t.description, t.priority, t.category, t.author, t.assignedTo,
         t.createdAt, t.updatedAt, t.hoursSpent, t.comments.GetOr([]), t.attachments.GetOr([]))
  }

  /** `convertTicketsToCards`: one card per ticket, in order. */
  function ConvertTicketsToCards(tickets: seq<Ticket>): (r: seq<Card>)
    ensures |r| == |tickets|
    ensures forall i :: 0 <= i < |tickets| ==> r[i] == ToCard(tickets[i])
  {
    Map(tickets, ToCard)
  }

  function InCategory(category: string): Ticket -> bool {
    (t: Ticket) => t.category == category
  }

  /** `filteredTickets`: the tickets of the selected category, in order. */
  function FilteredTickets(tickets: seq<Ticket>, selectedCategory: string): (r: seq<Ticket>)
    ensures Subseq(r, tickets)
    ensures forall i :: 0 <= i < |r| ==> r[i] in tickets && r[i].category == selectedCategory
    ensures forall i :: 0 <= i < |tickets| && tickets[i].category == selectedCategory ==> tickets[i] in r
  {
    FilterSubseq(tickets, InCategory(selectedCategory));
    Filter(tickets, InCategory(selectedCategory))
  }

  /** The column filter: the card's ticket, the first filtered ticket with the
      card's id, has that status. */
  function CardHasStatus(filtered: seq<Ticket>, status: string): Card -> bool {
    (card: Card) =>
      match FindTicket(filtered, card.id)
      case Some(t) => t.status == status
      case None => false
  }

  /** One column: the cards whose ticket has this status, in card order. */
  function BuildColumn(filtered: seq<Ticket>, cards: seq<Card>, status: StatusConfig): (c: Column)
    ensures c.id == status.value && c.title == status.caption
    ensures Subseq(c.cards, cards)
    ensures forall k :: 0 <= k < |c.cards| ==>
      c.cards[k] in cards
      && FindTicket(filtered, c.cards[k].id).Some?
      && FindTicket(filtered, c.cards[k].id).value.status == status.value
    ensures forall k :: (0 <= k < |cards| && FindTicket(filtered, cards[k].id).Some?
      && FindTicket(filtered, cards[k].id).value.status == status.value) ==> cards[k] in c.cards
  {
    FilterSubseq(cards, CardHasStatus(filtered, status.value));
    Column(status.value, status.caption, Filter(cards, CardHasStatus(filtered, status.value)))
  }

  /** The statuses of the first category whose value is `selectedCategory`,
      or [] when there is none. */
  function CategoryStatuses(categories: seq<CategoryConfig>, selectedCategory: string): (r: seq<StatusConfig>)
    ensures forall i :: CategoryUtils.FirstCategory(categories, selectedCategory, i) ==> r == categories[i].statuses
    ensures (forall i :: 0 <= i < |categories| ==> categories[i].value != selectedCategory) ==> r == []
  {
    match Find(categories, CategoryValueIs(selectedCategory))
    case Some(c) => c.statuses
    case None => []
  }

  /** `kanbanBoard.columns`: exactly one column per status of the selected
      category, in status order; each holds, in ticket order, the cards of the
      filtered tickets whose status is the column's id. */
  function KanbanColumns(tickets: seq<Ticket>, categories: seq<CategoryConfig>, selectedCategory: string): (r: seq<Column>)
    ensures var statuses := CategoryStatuses(categories, selectedCategory);
      |r| == |statuses|
      && forall i :: 0 <= i < |r| ==> r[i].id == statuses[i].value && r[i].title == statuses[i].caption
    ensures var filtered := FilteredTickets(tickets, selectedCategory);
      forall i, k :: 0 <= i < |r| && 0 <= k < |r[i].cards| ==>
        Subseq(r[i].cards, ConvertTicketsToCards(filtered))
        && r[i].cards[k] in ConvertTicketsToCards(filtered)
        && FindTicket(filtered, r[i].cards[k].id).Some?
        && FindTicket(filtered, r[i].cards[k].id).value.status == r[i].id
    ensures var filtered := FilteredTickets(tickets, selectedCategory);
      var cards := ConvertTicketsToCards(filtered);
      forall i, k :: (0 <= i < |r| && 0 <= k < |cards| && FindTicket(filtered, cards[k].id).Some?
        && FindTicket(filtered, cards[k].id).value.status == r[i].id) ==> cards[k] in r[i].cards
  {
    var filtered := FilteredTickets(tickets, selectedCategory);
    var cards := ConvertTicketsToCards(filtered);
    var statuses := CategoryStatuses(categories, selectedCategory);
    seq(|statuses|, i requires 0 <= i < |statuses| => BuildColumn(filtered, cards, statuses[i]))
  }

  /** An unknown category gives a board without columns. */
  lemma UnknownCategoryNoColumns(tickets: seq<Ticket>, categories: seq<CategoryConfig>, selectedCategory: string)
    requires forall i :: 0 <= i < |categories| ==> categories[i].value != selectedCategory
    ensures KanbanColumns(tickets, categories, selectedCategory) == []
  {
  }

  /** Every card on the board is the card of a ticket of the selected category. */
  lemma {:induction false} CardsComeFromCategory(tickets: seq<Ticket>, categories: seq<CategoryConfig>,
                                                 selectedCategory: string, i: nat, k: nat)
    requires var r := KanbanColumns(tickets, categories, selectedCategory); i < |r| && k < |r[i].cards|
    ensures var card := KanbanColumns(tickets, categories, selectedCategory)[i].cards[k];
      exists t :: t in tickets && t.category == selectedCategory && card == ToCard(t)
  {
    var filtered := FilteredTickets(tickets, selectedCategory);
    var cards := ConvertTicketsToCards(filtered);
    var card := KanbanColumns(tickets, categories, selectedCategory)[i].cards[k];
    assert card in cards;
    var j :| 0 <= j < |cards| && cards[j] == card;
    assert filtered[j] in tickets && filtered[j].category == selectedCategory;
  }

  /** When ticket ids are distinct, a ticket of the selected category whose
      status is none of the category's statuses appears in no column. */
  lemma {:induction false} UnknownStatusHidden(tickets: seq<Ticket>, categories: seq<CategoryConfig>,
                                               selectedCategory: string, t: Ticket)
    requires forall a, b :: 0 <= a < b < |tickets| ==> tickets[a].id != tickets[b].id
    requires t in tickets && t.category == selectedCategory
    requires var statuses := CategoryStatuses(categories, selectedCategory);
      forall s :: 0 <= s < |statuses| ==> statuses[s].value != t.status
    ensures var r := KanbanColumns(tickets, categories, selectedCategory);
      forall i, k :: 0 <= i < |r| && 0 <= k < |r[i].cards| ==> r[i].cards[k] != ToCard(t)
  {
    var filtered := FilteredTickets(tickets, selectedCategory);
    var r := KanbanColumns(tickets, categories, selectedCategory);
    assert t in filtered;
    var j :| 0 <= j < |filtered| && filtered[j] == t;
    forall a | 0 <= a < j
      ensures filtered[a].id != t.id
    {
      SubseqDistinct(filtered, tickets, a, j);
    }
    assert FindTicket(filtered, t.id) == Some(t) by {
      FindIsFirst(filtered, TicketIdIs(t.id), j);
    }
    forall i, k | 0 <= i < |r| && 0 <= k < |r[i].cards|
      ensures r[i].cards[k] != ToCard(t)
    {
      if r[i].cards[k] == ToCard(t) {
        assert false;
      }
    }
  }

  /** When ticket ids are distinct, a ticket of the selected category whose
      status is the `i`-th status of the category is shown in column `i`. */
  lemma {:induction false} TicketShownInItsColumn(tickets: seq<Ticket>, categories: seq<CategoryConfig>,
                                                  selectedCategory: string, t: Ticket, i: nat)
    requires forall a, b :: 0 <= a < b < |tickets| ==> tickets[a].id != tickets[b].id
    requires t in tickets && t.category == selectedCategory
    requires var statuses := CategoryStatuses(categories, selectedCategory);
      i < |statuses| && statuses[i].value == t.status
    ensures var r := KanbanColumns(tickets, categories, selectedCategory);
      i < |r| && ToCard(t) in r[i].cards
  {
    var filtered := FilteredTickets(tickets, selectedCategory);
    var cards := ConvertTicketsToCards(filtered);
    var r := KanbanColumns(tickets, categories, selectedCategory);
    assert t in filtered;
    var j :| 0 <= j < |filtered| && filtered[j] == t;
    forall a | 0 <= a < j
      ensures filtered[a].id != t.id
    {
      SubseqDistinct(filtered, tickets, a, j);
    }
    assert FindTicket(filtered, t.id) == Some(t) by {
      FindIsFirst(filtered, TicketIdIs(t.id), j);
    }
    assert cards[j] == ToCard(t);
    assert cards[j] in r[i].cards;
  }

  /** Distinct ids stay distinct in an ordered selection. */
  lemma {:induction false} SubseqDistinct(xs: seq<Ticket>, ys: seq<Ticket>, a: nat, b: nat)
    requires Subseq(xs, ys)
    requires forall p, q :: 0 <= p < q < |ys| ==> ys[p].id != ys[q].id
    requires a < b < |xs|
    ensures xs[a].id != xs[b].id
    decreases |ys|
  {
    if xs[0] == ys[0] && Subseq(xs[1..], ys[1..]) {
      if a == 0 {
        assert xs[b] == xs[1..][b - 1];
        SubseqMember(xs[1..], ys[1..], b - 1);
        var q :| 0 <= q < |ys[1..]| && ys[1..][q] == xs[b];
        assert ys[q + 1] == xs[b];
      } else {
        SubseqDistinct(xs[1..], ys[1..], a - 1, b - 1);
      }
    } else {
      SubseqDistinct(xs, ys[1..], a, b);
    }
  }

  /** Every element of an ordered selection comes from the source list. */
  lemma {:induction false} SubseqMember<T>(xs: seq<T>, ys: seq<T>, a: nat)
    requires Subseq(xs, ys) && a < |xs|
    ensures exists q :: 0 <= q < |ys| && ys[q] == xs[a]
    decreases |ys|
  {
    if xs[0] == ys[0] && Subseq(xs[1..], ys[1..]) {
      if a > 0 {
        SubseqMember(xs[1..], ys[1..], a - 1);
        var q :| 0 <= q < |ys[1..]| && ys[1..][q] == xs[1..][a - 1];
        assert ys[q + 1] == xs[a];
      }
    } else {
      SubseqMember(xs, ys[1..], a);
      var q :| 0 <= q < |ys[1..]| && ys[1..][q] == xs[a];
      assert ys[q + 1] == xs[a];
    }
  }
}
