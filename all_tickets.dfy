/**
 * The admin ticket list (pages/AllTickets.tsx): search and filters over the
 * loaded tickets, assignment and status updates with their notification
 * emails, the colour fallbacks and the list of assignable agents.
 */
module AllTickets {
  import opened Wrappers
  import opened Text
  import opened Seqs
  import opened Entities
  import opened Gateway
  import opened TicketQuery

  /** An empty query matches every ticket; otherwise title, description or requester email must contain it, ignoring case. */
  predicate MatchesSearch(t: Ticket, q: string) {
    || q == ""
    || ContainsIgnoringCase(t.title, q)
    || ContainsIgnoringCase(t.description, q)
    || ContainsIgnoringCase(t.requester_email, q)
  }

  function Matcher(q: string, f: TicketFilters): Ticket -> bool {
    (t: Ticket) => MatchesSearch(t, q) && MatchesFilters(t, f)
  }

  /** `filteredTickets`: the loaded tickets that pass the search and every filter, in the loaded order. */
  function FilteredTickets(tickets: seq<Ticket>, q: string, f: TicketFilters): (r: seq<Ticket>)
    ensures SubsequenceOf(r, tickets)
    ensures forall t :: t in r <==>
      (&& t in tickets
       && (|| q == ""
           || ContainsIgnoringCase(t.title, q)
           || ContainsIgnoringCase(t.description, q)
           || ContainsIgnoringCase(t.requester_email, q))
       && (f.status == "all" || t.status == f.status)
       && (f.category == "all" || t.category_id == f.category)
       && (f.priority == "all" || t.priority == f.priority)
       && (f.assignment == "assigned" ==> Truthy(t.assigned_to))
       && (f.assignment == "unassigned" ==> !Truthy(t.assigned_to)))
  {
    Filter(tickets, Matcher(q, f))
  }

  /** With the initial empty query and all four filters at `"all"`, the page lists every loaded ticket, in order. */
  lemma InitialSettingsListEverything(tickets: seq<Ticket>)
    ensures FilteredTickets(tickets, "", AllFilters) == tickets
  {
    FilterKeepsAll(tickets, Matcher("", AllFilters));
  }

  /** Filtering the filtered list again with the same settings changes nothing. */
  lemma RefilteringChangesNothing(tickets: seq<Ticket>, q: string, f: TicketFilters)
    ensures FilteredTickets(FilteredTickets(tickets, q, f), q, f) == FilteredTickets(tickets, q, f)
  {
    FilterIdempotent(tickets, Matcher(q, f));
  }

  function HasId(id: string): Ticket -> bool {
    (t: Ticket) => t.id == id
  }

  /** `tickets.find(t => t.id === ticketId)`: the first ticket with that id. */
  function FindTicket(tickets: seq<Ticket>, id: string): (r: Option<Ticket>)
    ensures r.Some? ==> r.value in tickets && r.value.id == id
    ensures r.Some? ==> exists i :: 0 <= i < |tickets| && tickets[i] == r.value &&
                          forall j :: 0 <= j < i ==> tickets[j].id != id
    ensures r.None? <==> forall t :: t in tickets ==> t.id != id
  {
    FindFirst(tickets, HasId(id))
  }

  /** The agents offered by the assign dialog (`users.filter(u => u.role === 'admin')`). */
  function AssigneeCandidates(users: seq<User>): (r: seq<User>)
    ensures SubsequenceOf(r, users)
    ensures forall u :: u in r <==> u in users && u.role == AdminRole
  {
    Filter(users, (u: User) => u.role == AdminRole)
  }

  // ----- Assignment -----

  /** The fields an assignment writes: the assignee, and status `in_progress`. */
  function AssignmentPatch(assignee: string): (p: Record)
    ensures p.Keys == {"assigned_to", "status"}
  {
    map["assigned_to" := Str(assignee), "status" := Str(InProgress)]
  }

  /**
   * Whatever the ticket held before, an assignment leaves it assigned to the
   * assignee with status `in_progress`, and no other field changes.
   */
  lemma AssignmentOverridesStatus(r: Record, assignee: string)
    ensures var r' := Patched(r, AssignmentPatch(assignee));
      && r'.Keys == r.Keys + {"assigned_to", "status"}
      && r'["assigned_to"] == Str(assignee)
      && r'["status"] == Str(InProgress)
      && forall k :: k in r && k != "assigned_to" && k != "status" ==> r'[k] == r[k]
  {
  }

  /** The email `handleAssignTicket` sends to the assignee. */
  function AssignmentEmail(t: Ticket, assignee: string): Email {
    Email(assignee, "Ticket Assigned: " + t.title, AssignmentOpening + t.title + RequesterLine(t))
  }

  function RequesterLine(t: Ticket): string {
    "\nRequester: " + t.requester_email + AssignmentClosing
  }

  const AssignmentOpening := "You have been assigned a new support ticket.\n\nTicket: "
  const AssignmentClosing := "\n\nPlease review and respond as soon as possible."

  /** The assignment email goes to the assignee, names the ticket in its subject, and names ticket and requester in its body. */
  lemma AssignmentEmailMentions(t: Ticket, assignee: string)
    ensures var e := AssignmentEmail(t, assignee);
      && e.to == assignee
      && Includes(e.subject, t.title)
      && Includes(e.body, t.title) && Includes(e.body, t.requester_email)
  {
    var tail := RequesterLine(t);
    IncludesSelf(t.title);
    IncludesSelf(t.requester_email);
    IncludesInRight("Ticket Assigned: ", t.title, t.title);
    IncludesInRight(AssignmentOpening, t.title, t.title);
    IncludesInLeft(AssignmentOpening + t.title, tail, t.title);
    IncludesInRight("\nRequester: ", t.requester_email, t.requester_email);
    IncludesInLeft("\nRequester: " + t.requester_email, AssignmentClosing, t.requester_email);
    IncludesInRight(AssignmentOpening + t.title, tail, t.requester_email);
  }

  // ----- Status update -----

  /** The fields a status update writes: the status always, the notes only when they are non-empty. */
  function StatusPatch(newStatus: string, notes: string): (p: Record)
    ensures "status" in p && p["status"] == Str(newStatus)
    ensures "resolution_notes" in p <==> notes != ""
    ensures notes != "" ==> p["resolution_notes"] == Str(notes)
    ensures p.Keys <= {"status", "resolution_notes"}
  {
    var base := map["status" := Str(newStatus)];
    if notes != "" then base["resolution_notes" := Str(notes)] else base
  }

  /** Empty notes never clear or overwrite the notes a ticket already has. */
  lemma EmptyNotesKeepExistingNotes(r: Record, newStatus: string)
    ensures var r' := Patched(r, StatusPatch(newStatus, ""));
      && ("resolution_notes" in r' <==> "resolution_notes" in r)
      && ("resolution_notes" in r ==> r'["resolution_notes"] == r["resolution_notes"])
      && r'["status"] == Str(newStatus)
  {
  }

  /** The status as the email shows it: `newStatus.replace('_', ' ')`, which replaces the first underscore only. */
  function StatusLabel(status: string): (shown: string)
    ensures |shown| == |status|
  {
    ReplaceFirst(status, '_', ' ')
  }

  /** The label swaps exactly the first underscore for a space. */
  lemma LabelSwapsFirstUnderscore(before: string, after: string)
    requires '_' !in before
    ensures StatusLabel(before + "_" + after) == before + " " + after
  {
    ReplaceFirstAt(before, after, '_', ' ');
  }

  /** `in_progress`, written here as `"in" + "_" + "progress"` (the same string), reads `in progress`. */
  lemma InProgressLabel()
    ensures StatusLabel("in" + "_" + "progress") == "in" + " " + "progress"
  {
    LabelSwapsFirstUnderscore("in", "progress");
  }

  /** The other three statuses have no underscore to replace. */
  lemma PlainStatusLabels()
    ensures StatusLabel(Open) == Open && StatusLabel(Resolved) == Resolved && StatusLabel(Closed) == Closed
  {
    assert '_' !in Open && '_' !in Resolved && '_' !in Closed;
  }

  function StatusHeadline(newStatus: string): string {
    "Your support ticket status has been updated to: " + StatusLabel(newStatus) + "\n\n"
  }

  function NotesBlock(notes: string): string {
    if notes != "" then "Resolution Notes: " + notes + "\n\n" else ""
  }

  /** The email `handleStatusUpdate` sends to the requester. */
  function StatusEmail(t: Ticket, newStatus: string, notes: string): Email {
    Email(t.requester_email, "Ticket Status Updated: " + t.title,
          StatusHeadline(newStatus) + NotesBlock(notes) + "Ticket: " + t.title)
  }

  /**
   * The status email goes to the requester with the title in the subject, the
   * readable status and the title in the body, and a notes line exactly when
   * the notes are non-empty.
   */
  lemma StatusEmailMentions(t: Ticket, newStatus: string, notes: string)
    ensures var e := StatusEmail(t, newStatus, notes);
      && e.to == t.requester_email
      && Includes(e.subject, t.title)
      && Includes(e.body, StatusLabel(newStatus)) && Includes(e.body, t.title)
      && (notes != "" ==> Includes(e.body, "Resolution Notes: " + notes))
      && (notes == "" ==> e.body == StatusHeadline(newStatus) + "Ticket: " + t.title)
  {
    IncludesSelf(t.title);
    IncludesInRight("Ticket Status Updated: ", t.title, t.title);
    StatusBodyFacts(t, newStatus, notes);
  }

  /** The parts of the status email's body that name the status, the title and the notes. */
  lemma StatusBodyFacts(t: Ticket, newStatus: string, notes: string)
    ensures var body := StatusHeadline(newStatus) + NotesBlock(notes) + "Ticket: " + t.title;
      && Includes(body, StatusLabel(newStatus))
      && Includes(body, t.title)
      && (notes != "" ==> Includes(body, "Resolution Notes: " + notes))
  {
    var lead := "Your support ticket status has been updated to: ";
    var shownStatus := StatusLabel(newStatus);
    var headline := StatusHeadline(newStatus);
    IncludesSelf(shownStatus);
    IncludesInRight(lead, shownStatus, shownStatus);
    IncludesInLeft(lead + shownStatus, "\n\n", shownStatus);
    assert headline == lead + shownStatus + "\n\n";
    IncludesInLeft(headline, NotesBlock(notes), shownStatus);
    IncludesInLeft(headline + NotesBlock(notes), "Ticket: ", shownStatus);
    IncludesInLeft(headline + NotesBlock(notes) + "Ticket: ", t.title, shownStatus);
    IncludesSelf(t.title);
    IncludesInRight(headline + NotesBlock(notes) + "Ticket: ", t.title, t.title);
    if notes != "" {
      var line := "Resolution Notes: " + notes;
      IncludesSelf(line);
      IncludesInLeft(line, "\n\n", line);
      assert NotesBlock(notes) == line + "\n\n";
      IncludesInRight(headline, NotesBlock(notes), line);
      IncludesInLeft(headline + NotesBlock(notes), "Ticket: ", line);
      IncludesInLeft(headline + NotesBlock(notes) + "Ticket: ", t.title, line);
    }
  }

  // ----- Colour fallbacks -----

  const StatusColors: map<string, string> := map[
    Open := "bg-orange-100 text-orange-800 border-orange-200",
    InProgress := "bg-blue-100 text-blue-800 border-blue-200",
    Resolved := "bg-green-100 text-green-800 border-green-200",
    Closed := "bg-gray-100 text-gray-800 border-gray-200"]

  const PriorityColors: map<string, string> := map[
    "low" := "bg-gray-100 text-gray-800",
    "medium" := "bg-yellow-100 text-yellow-800",
    "high" := "bg-orange-100 text-orange-800",
    "urgent" := "bg-red-100 text-red-800"]

  /** `getStatusColor`: an unknown status is shown with the colours of `open`. */
  function StatusColor(status: string): (c: string)
    ensures c in StatusColors.Values
    ensures status in StatusColors ==> c == StatusColors[status]
    ensures status !in StatusColors ==> c == StatusColors[Open]
  {
    if status in StatusColors && StatusColors[status] != "" then StatusColors[status] else StatusColors[Open]
  }

  /** `getPriorityColor`: an unknown priority is shown with the colours of `medium`. */
  function PriorityColor(priority: string): (c: string)
    ensures c in PriorityColors.Values
    ensures priority in PriorityColors ==> c == PriorityColors[priority]
    ensures priority !in PriorityColors ==> c == PriorityColors["medium"]
  {
    if priority in PriorityColors && PriorityColors[priority] != "" then PriorityColors[priority] else PriorityColors["medium"]
  }

  // ----- The page -----

  /** The page's state: the loaded lists, the two dialogs, and the reloads it has requested. */
  class AllTicketsPage {
    var tickets: seq<Ticket>
    var users: seq<User>
    var categories: seq<Category>
    var loading: bool
    var showAssignDialog: bool
    var showStatusDialog: bool
    /** How many times the page has asked for `loadData` after a write. */
    var reloads: nat

    constructor ()
      ensures tickets == [] && users == [] && categories == []
      ensures loading && !showAssignDialog && !showStatusDialog && reloads == 0
    {
      tickets, users, categories := [], [], [];
      loading, showAssignDialog, showStatusDialog := true, false, false;
      reloads := 0;
    }

    /** `loadData`: the three lists are set together when every load succeeds (`None` is a failed load); loading ends either way. */
    method LoadData(loaded: Option<(seq<Ticket>, seq<User>, seq<Category>)>)
      modifies this
      ensures !loading
      ensures loaded.Some? ==> tickets == loaded.value.0 && users == loaded.value.1 && categories == loaded.value.2
      ensures loaded.None? ==> tickets == old(tickets) && users == old(users) && categories == old(categories)
      ensures showAssignDialog == old(showAssignDialog) && showStatusDialog == old(showStatusDialog) && reloads == old(reloads)
    {
      if loaded.Some? {
        tickets, users, categories := loaded.value.0, loaded.value.1, loaded.value.2;
      }
      loading := false;
    }

    /**
     * `handleAssignTicket`: write the assignment; only after it succeeded,
     * email the assignee when the ticket is in the loaded list; reload and
     * close the dialog only when nothing failed. Errors are caught and logged.
     */
    method HandleAssignTicket(store: EntityStore, outbox: Outbox, ticketId: string, assigneeEmail: string,
                              writeOk: bool, emailOk: bool)
      modifies this, store, outbox
      ensures tickets == old(tickets) && users == old(users) && categories == old(categories)
      ensures loading == old(loading) && showStatusDialog == old(showStatusDialog)
      ensures var written := writeOk && ticketId in old(store.records);
              var found := FindTicket(tickets, ticketId);
              var completed := written && (found.None? || emailOk);
              && store.records == (if written
                                   then old(store.records)[ticketId := Patched(old(store.records)[ticketId], AssignmentPatch(assigneeEmail))]
                                   else old(store.records))
              && outbox.attempts == old(outbox.attempts) +
                   (if written && found.Some? then [Delivery(AssignmentEmail(found.value, assigneeEmail), emailOk)] else [])
              && reloads == old(reloads) + (if completed then 1 else 0)
              && showAssignDialog == (if completed then false else old(showAssignDialog))
    {
      var written := store.Update(ticketId, AssignmentPatch(assigneeEmail), writeOk);
      if !written {
        return;
      }
      var found := FindTicket(tickets, ticketId);
      if found.Some? {
        var sent := outbox.Send(AssignmentEmail(found.value, assigneeEmail), emailOk);
        if !sent {
          return;
        }
      }
      reloads := reloads + 1;
      showAssignDialog := false;
    }

    /**
     * `handleStatusUpdate`: write the status (and non-empty notes); only after
     * it succeeded, email the requester when the ticket is in the loaded list;
     * reload and close the dialog only when nothing failed.
     */
    method HandleStatusUpdate(store: EntityStore, outbox: Outbox, ticketId: string, newStatus: string, notes: string,
                              writeOk: bool, emailOk: bool)
      modifies this, store, outbox
      ensures tickets == old(tickets) && users == old(users) && categories == old(categories)
      ensures loading == old(loading) && showAssignDialog == old(showAssignDialog)
      ensures var written := writeOk && ticketId in old(store.records);
              var found := FindTicket(tickets, ticketId);
              var completed := written && (found.None? || emailOk);
              && store.records == (if written
                                   then old(store.records)[ticketId := Patched(old(store.records)[ticketId], StatusPatch(newStatus, notes))]
                                   else old(store.records))
              && outbox.attempts == old(outbox.attempts) +
                   (if written && found.Some? then [Delivery(StatusEmail(found.value, newStatus, notes), emailOk)] else [])
              && reloads == old(reloads) + (if completed then 1 else 0)
              && showStatusDialog == (if completed then false else old(showStatusDialog))
    {
      var written := store.Update(ticketId, StatusPatch(newStatus, notes), writeOk);
      if written {
        FinishStatusUpdate(outbox, FindTicket(tickets, ticketId), newStatus, notes, emailOk);
      }
    }

    /**
     * The part of `handleStatusUpdate` after a successful write: email the
     * requester of the loaded ticket, if there is one, then reload and close
     * the dialog unless that email failed.
     */
    method FinishStatusUpdate(outbox: Outbox, found: Option<Ticket>, newStatus: string, notes: string, emailOk: bool)
      modifies this, outbox
      ensures tickets == old(tickets) && users == old(users) && categories == old(categories)
      ensures loading == old(loading) && showAssignDialog == old(showAssignDialog)
      ensures outbox.attempts == old(outbox.attempts) +
                (if found.Some? then [Delivery(StatusEmail(found.value, newStatus, notes), emailOk)] else [])
      ensures var completed := found.None? || emailOk;
              && reloads == old(reloads) + (if completed then 1 else 0)
              && showStatusDialog == (if completed then false else old(showStatusDialog))
    {
      if found.Some? {
        var sent := outbox.Send(StatusEmail(found.value, newStatus, notes), emailOk);
        if !sent {
          return;
        }
      }
      reloads := reloads + 1;
      showStatusDialog := false;
    }
  }
}
