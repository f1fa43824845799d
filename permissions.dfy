/** `utils/permissions.ts`: what a user may do with a ticket, by role. */
module Permissions {
  import opened Base
  import opened Types

  /** `canEditTicket`: admins edit every ticket, agents only the tickets they
      wrote, users none. */
  predicate CanEditTicket(ticket: Ticket, currentUser: User) {
    if currentUser.role == ADMIN_ROLE then true
    else if currentUser.role == AGENT_ROLE then ticket.author.id == currentUser.id
    else false
  }

  /** `canDeleteTicket`: admins only. */
  predicate CanDeleteTicket(currentUser: User) {
    currentUser.role == ADMIN_ROLE
  }

  /** `canViewTicket`: admins and agents see everything, others their own. */
  predicate CanViewTicket(ticket: Ticket, currentUser: User) {
    if currentUser.role == ADMIN_ROLE || currentUser.role == AGENT_ROLE then true
    else ticket.author.id == currentUser.id
  }

  /** The `filter` predicate of `filterTicketsByPermission`. */
  function AuthoredBy(userId: string): Ticket -> bool {
    (t: Ticket) => t.author.id == userId
  }

  /** `filterTicketsByPermission`: the tickets the user may see. */
  function FilterTicketsByPermission(tickets: seq<Ticket>, currentUser: User): (r: seq<Ticket>)
    ensures forall i :: 0 <= i < |r| ==> r[i] in tickets && CanViewTicket(r[i], currentUser)
    ensures forall i :: 0 <= i < |tickets| && CanViewTicket(tickets[i], currentUser) ==> tickets[i] in r
  {
    if currentUser.role == ADMIN_ROLE || currentUser.role == AGENT_ROLE then tickets
    else Filter(tickets, AuthoredBy(currentUser.id))
  }

  /** `canViewAllTickets`. */
  predicate CanViewAllTickets(currentUser: User) {
    currentUser.role == ADMIN_ROLE || currentUser.role == AGENT_ROLE
  }

  /** `canViewOwnTickets`. */
  predicate CanViewOwnTickets(currentUser: User) {
    currentUser.role == USER_ROLE
  }

  /** An admin may edit every ticket. */
  lemma AdminEditsAll(ticket: Ticket, u: User)
    requires u.role == ADMIN_ROLE
    ensures CanEditTicket(ticket, u) && CanDeleteTicket(u) && CanViewTicket(ticket, u)
  {
  }

  /** An agent may edit exactly the tickets they wrote. */
  lemma AgentEditsOwn(ticket: Ticket, u: User)
    requires u.role == AGENT_ROLE
    ensures CanEditTicket(ticket, u) <==> ticket.author.id == u.id
    ensures !CanDeleteTicket(u)
  {
  }

  /** A plain user never edits, not even a ticket of their own. */
  lemma UserNeverEdits(ticket: Ticket, u: User)
    requires u.role == USER_ROLE
    ensures !CanEditTicket(ticket, u) && !CanDeleteTicket(u)
  {
  }

  /** Whoever may edit a ticket may also view it. */
  lemma EditImpliesView(ticket: Ticket, u: User)
    ensures CanEditTicket(ticket, u) ==> CanViewTicket(ticket, u)
  {
  }

  /** Admins and agents get the list back unchanged; everyone else gets the
      ordered sub-list of their own tickets. */
  lemma FilterByRole(tickets: seq<Ticket>, u: User)
    ensures CanViewAllTickets(u) ==> FilterTicketsByPermission(tickets, u) == tickets
    ensures !CanViewAllTickets(u) ==>
      FilterTicketsByPermission(tickets, u) == Filter(tickets, AuthoredBy(u.id))
  {
  }

  /** Filtering keeps the order of the tickets: filtering a concatenation is
      the concatenation of the filtered parts. */
  lemma {:induction false} FilterKeepsOrder(a: seq<Ticket>, b: seq<Ticket>, u: User)
    ensures FilterTicketsByPermission(a + b, u)
         == FilterTicketsByPermission(a, u) + FilterTicketsByPermission(b, u)
  {
    if !CanViewAllTickets(u) {
      FilterConcat(a, b, AuthoredBy(u.id));
    }
  }

  /** Over the three known roles, seeing all tickets and seeing only one's
      own are mutually exclusive and cover every case. */
  lemma ViewAllXorOwn(u: User)
    requires u.role in {USER_ROLE, AGENT_ROLE, ADMIN_ROLE}
    ensures CanViewAllTickets(u) != CanViewOwnTickets(u)
  {
  }
}
