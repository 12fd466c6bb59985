/**
 * The status, category, priority and assignment filters, which the admin
 * ticket list and the dashboard apply with the same code. Each filter value
 * `"all"` imposes nothing; otherwise status, category and priority must
 * equal the ticket's field, and `assigned` checks the truthiness of
 * `assigned_to`. The filters are combined with AND.
 */
module TicketQuery {
  import opened Wrappers
  import opened Text
  import opened Entities

  datatype TicketFilters = TicketFilters(status: string, category: string, priority: string, assignment: string)

  /** The filter state both pages start with. */
  const AllFilters: TicketFilters := TicketFilters("all", "all", "all", "all")

  /** The `assigned` filter (`assignment` here, `assigned` being a Dafny keyword): `"assigned"` wants a truthy `assigned_to`, `"unassigned"` a falsy one; any other value wants nothing. */
  predicate MatchesAssigned(t: Ticket, assignment: string) {
    if assignment == "assigned" then Truthy(t.assigned_to)
    else if assignment == "unassigned" then !Truthy(t.assigned_to)
    else true
  }

  predicate MatchesFilters(t: Ticket, f: TicketFilters) {
    && (f.status == "all" || t.status == f.status)
    && (f.category == "all" || t.category_id == f.category)
    && (f.priority == "all" || t.priority == f.priority)
    && MatchesAssigned(t, f.assignment)
  }
}
