/**
 * The dashboard (pages/dashboard.tsx): an admin loads every ticket, anyone
 * else only the tickets they requested; search (title and description only)
 * and the shared filters then narrow that list, while the status cards count
 * the whole loaded list.
 */
module Dashboard {
  import opened Wrappers
  import opened Text
  import opened Seqs
  import opened Entities
  import opened TicketQuery
  import StatsOverview

  /** An empty query matches every ticket; otherwise title or description must contain it, ignoring case. */
  predicate MatchesSearch(t: Ticket, q: string) {
    || q == ""
    || ContainsIgnoringCase(t.title, q)
    || ContainsIgnoringCase(t.description, q)
  }

  function Matcher(q: string, f: TicketFilters): Ticket -> bool {
    (t: Ticket) => MatchesSearch(t, q) && MatchesFilters(t, f)
  }

  /** `filteredTickets`: the loaded tickets that pass the search and every filter, in the loaded order. */
  function FilteredTickets(tickets: seq<Ticket>, q: string, f: TicketFilters): (r: seq<Ticket>)
    ensures SubsequenceOf(r, tickets)
    ensures forall t :: t in r <==>
      (&& t in tickets
       && (q == "" || ContainsIgnoringCase(t.title, q) || ContainsIgnoringCase(t.description, q))
       && (f.status == "all" || t.status == f.status)
       && (f.category == "all" || t.category_id == f.category)
       && (f.priority == "all" || t.priority == f.priority)
       && (f.assignment == "assigned" ==> Truthy(t.assigned_to))
       && (f.assignment == "unassigned" ==> !Truthy(t.assigned_to)))
  {
    Filter(tickets, Matcher(q, f))
  }

  /** The requester email is never searched: changing it never changes whether a ticket matches. */
  lemma SearchIgnoresRequester(t: Ticket, q: string, other: string)
    ensures MatchesSearch(t.(requester_email := other), q) == MatchesSearch(t, q)
  {
  }

  function RequestedBy(email: string): Ticket -> bool {
    (t: Ticket) => t.requester_email == email
  }

  /**
   * The list `loadData` asks for: `Ticket.list` for an admin,
   * `Ticket.filter({requester_email})` for anyone else, both in the service's
   * `-last_reply` order, which `listing` stands for.
   */
  function ScopedTickets(me: User, listing: seq<Ticket>): (r: seq<Ticket>)
    ensures me.role == AdminRole ==> r == listing
    ensures me.role != AdminRole ==> SubsequenceOf(r, listing)
    ensures me.role != AdminRole ==> forall t :: t in r <==> t in listing && t.requester_email == me.email
  {
    if me.role == AdminRole then listing else Filter(listing, RequestedBy(me.email))
  }

  /**
   * Scoping happens before filtering: whatever query and filters a non-admin
   * picks, every ticket listed for them is one they requested.
   */
  lemma NonAdminSeesOnlyOwnTickets(me: User, listing: seq<Ticket>, q: string, f: TicketFilters)
    requires me.role != AdminRole
    ensures forall t :: t in FilteredTickets(ScopedTickets(me, listing), q, f) ==> t.requester_email == me.email
  {
  }

  /** With the initial empty query and filters, the list shown is the scoped list, in order. */
  lemma InitialSettingsListScoped(tickets: seq<Ticket>)
    ensures FilteredTickets(tickets, "", AllFilters) == tickets
  {
    FilterKeepsAll(tickets, Matcher("", AllFilters));
  }

  /** What the page renders from its tickets: the cards, and the list. */
  datatype View = View(stats: StatsOverview.Stats, listed: seq<Ticket>)

  /**
   * The status cards count the scoped but unfiltered list; only the ticket
   * list gets the filtered one, so no card shows fewer tickets than the list
   * holds with its status.
   */
  function Render(tickets: seq<Ticket>, q: string, f: TicketFilters): (v: View)
    ensures v.listed == FilteredTickets(tickets, q, f)
    ensures SubsequenceOf(v.listed, tickets)
    ensures forall t :: t in v.listed <==> t in tickets && MatchesSearch(t, q) && MatchesFilters(t, f)
    ensures && v.stats.openTickets == Count(tickets, StatsOverview.HasStatus(Open))
            && v.stats.inProgressTickets == Count(tickets, StatsOverview.HasStatus(InProgress))
            && v.stats.resolvedTickets == Count(tickets, StatsOverview.HasStatus(Resolved))
            && v.stats.closedTickets == Count(tickets, StatsOverview.HasStatus(Closed))
    ensures forall st :: Count(v.listed, StatsOverview.HasStatus(st)) <= Count(tickets, StatsOverview.HasStatus(st))
    ensures && Count(v.listed, StatsOverview.HasStatus(Open)) <= v.stats.openTickets
            && Count(v.listed, StatsOverview.HasStatus(InProgress)) <= v.stats.inProgressTickets
            && Count(v.listed, StatsOverview.HasStatus(Resolved)) <= v.stats.resolvedTickets
            && Count(v.listed, StatsOverview.HasStatus(Closed)) <= v.stats.closedTickets
    ensures StatsOverview.Total(v.stats) <= |tickets|
  {
    var listed := FilteredTickets(tickets, q, f);
    assert forall st :: Count(listed, StatsOverview.HasStatus(st)) <= Count(tickets, StatsOverview.HasStatus(st)) by {
      forall st {
        CountOfFilter(tickets, Matcher(q, f), StatsOverview.HasStatus(st));
      }
    }
    View(StatsOverview.GetStats(tickets), listed)
  }

  /** Typing a query or changing a filter never changes the status cards. */
  lemma CardsIgnoreSearchAndFilters(tickets: seq<Ticket>, q: string, f: TicketFilters, q': string, f': TicketFilters)
    ensures Render(tickets, q, f).stats == Render(tickets, q', f').stats
  {
  }

  /** With the initial settings the list is the whole scoped list, which is exactly what the cards count. */
  lemma InitialCardsCountTheList(tickets: seq<Ticket>)
    ensures var v := Render(tickets, "", AllFilters);
      v.listed == tickets && v.stats == StatsOverview.GetStats(v.listed)
  {
    InitialSettingsListScoped(tickets);
  }

  class DashboardPage {
    var user: Option<User>
    var tickets: seq<Ticket>
    var categories: seq<Category>
    var loading: bool

    constructor ()
      ensures user.None? && tickets == [] && categories == [] && loading
    {
      user, tickets, categories, loading := None, [], [], true;
    }

    /**
     * `loadData`, three awaits in sequence: `User.me` (`me`, `None` when it
     * fails), the role-scoped ticket load (`ticketsOk`), and `Category.list`
     * (`categoryData`, `None` when it fails). The user is set as soon as it is
     * known; tickets and categories only when all three succeeded.
     */
    method LoadData(me: Option<User>, listing: seq<Ticket>, ticketsOk: bool, categoryData: Option<seq<Category>>)
      modifies this
      ensures !loading
      ensures user == if me.Some? then me else old(user)
      ensures var all := me.Some? && ticketsOk && categoryData.Some?;
              && tickets == (if all then ScopedTickets(me.value, listing) else old(tickets))
              && categories == (if all then categoryData.value else old(categories))
    {
      if me.Some? {
        user := me;
        var ticketData := ScopedTickets(me.value, listing);
        if ticketsOk && categoryData.Some? {
          tickets := ticketData;
          categories := categoryData.value;
        }
      }
      loading := false;
    }
  }
}
