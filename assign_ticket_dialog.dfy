/**
 * The assignment dialog (components/admin/AssignTicketDialog.tsx): the agent
 * selection, the guard and reset around the awaited `onAssign`, the title,
 * and the rule that disables the Assign button.
 */
module AssignTicketDialog {
  import opened Wrappers
  import opened Text
  import opened Entities

  /** One call of `onAssign(ticketId, email)`. */
  datatype AssignCall = AssignCall(ticketId: string, email: string)

  /** The agents offered: one option per user, whose value is the user's email. */
  function OptionValues(users: seq<User>): (values: seq<string>)
    ensures |values| == |users|
    ensures forall i :: 0 <= i < |users| ==> values[i] == users[i].email
  {
    if users == [] then [] else [users[0].email] + OptionValues(users[1..])
  }

  /** "Reassign Ticket" exactly when the ticket already has a (truthy) assignee. */
  function Title(ticket: Option<Ticket>): (title: string)
    ensures title == "Reassign Ticket" <==> ticket.Some? && Truthy(ticket.value.assigned_to)
    ensures title == "Reassign Ticket" || title == "Assign Ticket"
  {
    if ticket.Some? && Truthy(ticket.value.assigned_to) then "Reassign Ticket" else "Assign Ticket"
  }

  /** The Assign button's `disabled`: nothing selected, or a call in flight. */
  predicate AssignDisabled(selectedUser: string, loading: bool) {
    selectedUser == "" || loading
  }

  class AssignDialog {
    /** The `ticket` and `users` props. */
    var ticket: Option<Ticket>
    var users: seq<User>
    var selectedUser: string
    var loading: bool

    constructor (ticket: Option<Ticket>, users: seq<User>)
      ensures this.ticket == ticket && this.users == users && selectedUser == "" && !loading
    {
      this.ticket, this.users := ticket, users;
      selectedUser, loading := "", false;
    }

    /** Picking the `i`-th agent in the list selects that user's email. */
    method ChooseAgent(i: int)
      requires 0 <= i < |users|
      modifies this
      ensures ticket == old(ticket) && users == old(users) && loading == old(loading)
      ensures selectedUser == OptionValues(users)[i] == users[i].email
    {
      selectedUser := OptionValues(users)[i];
    }

    /**
     * `handleAssign` up to the `await`: with no agent selected or no ticket,
     * nothing is issued and nothing changes; otherwise loading is switched on
     * and `onAssign(ticket.id, selectedUser)` is issued.
     */
    method BeginAssign() returns (call: Option<AssignCall>)
      modifies this
      ensures call.None? <==> old(selectedUser) == "" || ticket.None?
      ensures call.Some? ==> call.value == AssignCall(ticket.value.id, selectedUser) && loading
      ensures call.None? ==> loading == old(loading)
      ensures ticket == old(ticket) && users == old(users) && selectedUser == old(selectedUser)
    {
      if selectedUser == "" || ticket.None? {
        return None;
      }
      loading := true;
      call := Some(AssignCall(ticket.value.id, selectedUser));
    }

    /** `handleAssign` after the `await`: the selection is cleared only when `onAssign` resolved; loading ends either way. */
    method FinishAssign(succeeded: bool)
      modifies this
      ensures selectedUser == (if succeeded then "" else old(selectedUser))
      ensures !loading
      ensures ticket == old(ticket) && users == old(users)
    {
      if succeeded {
        selectedUser := "";
      }
      loading := false;
    }

    /**
     * The whole `handleAssign`: at most one call, issued exactly when an agent
     * and a ticket are set; after it, loading is off, and the selection is
     * empty on success and kept on failure.
     */
    method HandleAssign(succeeded: bool) returns (call: Option<AssignCall>)
      modifies this
      ensures call.None? <==> old(selectedUser) == "" || ticket.None?
      ensures !AssignDisabled(old(selectedUser), old(loading)) && ticket.Some? ==> call.Some?
      ensures call.Some? ==> call.value == AssignCall(ticket.value.id, old(selectedUser))
      ensures call.Some? ==> !loading && selectedUser == (if succeeded then "" else old(selectedUser))
      ensures call.None? ==> loading == old(loading) && selectedUser == old(selectedUser)
      ensures ticket == old(ticket) && users == old(users)
    {
      call := BeginAssign();
      if call.Some? {
        FinishAssign(succeeded);
      }
    }
  }
}
