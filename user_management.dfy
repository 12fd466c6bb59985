/**
 * User administration (pages/UserManagement.tsx): user search and role
 * filter, per-user ticket counts, the overall user counts, role updates, and
 * the two-phase invitation: first the record, then the email, with a
 * different error for each phase.
 */
module UserManagement {
  import opened Wrappers
  import opened Text
  import opened Seqs
  import opened Entities
  import opened Gateway

  // ----- Search and role filter -----

  /** Empty query: everything; otherwise full name (if any), email or department (if any) contains it, ignoring case. */
  predicate MatchesSearch(u: User, q: string) {
    || q == ""
    || (u.full_name.Some? && ContainsIgnoringCase(u.full_name.value, q))
    || ContainsIgnoringCase(u.email, q)
    || (u.department.Some? && ContainsIgnoringCase(u.department.value, q))
  }

  function Matcher(q: string, roleFilter: string): User -> bool {
    (u: User) => MatchesSearch(u, q) && (roleFilter == "all" || u.role == roleFilter)
  }

  /** `filteredUsers`: the loaded users passing both the search and the role filter, in order. */
  function FilteredUsers(users: seq<User>, q: string, roleFilter: string): (r: seq<User>)
    ensures SubsequenceOf(r, users)
    ensures forall u :: u in r <==>
      (&& u in users
       && (|| q == ""
           || (u.full_name.Some? && ContainsIgnoringCase(u.full_name.value, q))
           || ContainsIgnoringCase(u.email, q)
           || (u.department.Some? && ContainsIgnoringCase(u.department.value, q)))
       && (roleFilter == "all" || u.role == roleFilter))
  {
    Filter(users, Matcher(q, roleFilter))
  }

  /** An empty query with role `"all"` lists every loaded user, in order. */
  lemma InitialSettingsListEveryone(users: seq<User>)
    ensures FilteredUsers(users, "", "all") == users
  {
    FilterKeepsAll(users, Matcher("", "all"));
  }

  // ----- Per-user ticket counts -----

  /** The source's `{created, assigned, open, resolved}`; `assigned` is a Dafny keyword, hence `assignedCount`. */
  datatype UserTicketStats = UserTicketStats(created: nat, assignedCount: nat, open: nat, resolved: nat)

  function RequestedBy(email: string): Ticket -> bool {
    (t: Ticket) => t.requester_email == email
  }

  function AssignedTo(email: string): Ticket -> bool {
    (t: Ticket) => t.assigned_to == Some(email)
  }

  function HasStatus(status: string): Ticket -> bool {
    (t: Ticket) => t.status == status
  }

  /**
   * `getUserTicketStats`: tickets the user requested and tickets assigned to
   * them; `open` counts the first group, `resolved` the second, so neither
   * exceeds its group.
   */
  function TicketStatsFor(tickets: seq<Ticket>, email: string): (s: UserTicketStats)
    ensures s.created == Count(tickets, RequestedBy(email))
    ensures s.assignedCount == Count(tickets, AssignedTo(email))
    ensures s.open == Count(Filter(tickets, RequestedBy(email)), HasStatus(Open)) <= s.created
    ensures s.resolved == Count(Filter(tickets, AssignedTo(email)), HasStatus(Resolved)) <= s.assignedCount
    ensures s.created + s.assignedCount <= 2 * |tickets|
  {
    var mine := Filter(tickets, RequestedBy(email));
    var theirs := Filter(tickets, AssignedTo(email));
    UserTicketStats(|mine|, |theirs|, Count(mine, HasStatus(Open)), Count(theirs, HasStatus(Resolved)))
  }

  // ----- Overall counts -----

  datatype OverallStats = OverallStats(totalUsers: nat, adminUsers: nat, regularUsers: nat, activeUsers: nat)

  function HasRole(role: string): User -> bool {
    (u: User) => u.role == role
  }

  function HasLoggedIn(): User -> bool {
    (u: User) => Truthy(u.last_login)
  }

  /**
   * `getOverallStats`: admins and regular users never add up to more than the
   * total, and to exactly the total when every role is `user` or `admin`;
   * active users (a truthy `last_login`) are at most the total.
   */
  function OverallStatsOf(users: seq<User>): (s: OverallStats)
    ensures s.totalUsers == |users|
    ensures s.adminUsers == Count(users, HasRole(AdminRole))
    ensures s.regularUsers == Count(users, HasRole(UserRole))
    ensures s.activeUsers == Count(users, HasLoggedIn())
    ensures s.adminUsers + s.regularUsers <= s.totalUsers
    ensures (forall u :: u in users ==> u.role == AdminRole || u.role == UserRole) ==>
              s.adminUsers + s.regularUsers == s.totalUsers
    ensures s.activeUsers <= s.totalUsers
  {
    CountDisjoint(users, HasRole(AdminRole), HasRole(UserRole));
    OverallStats(|users|, Count(users, HasRole(AdminRole)), Count(users, HasRole(UserRole)), Count(users, HasLoggedIn()))
  }

  // ----- Invitation -----

  /** What the invite dialog hands over. */
  datatype InvitationData = InvitationData(email: string, role: string, message: string)

  /** Seven days, in the integer time unit the model uses (milliseconds). */
  const InvitationLifetime: int := 7 * 24 * 60 * 60 * 1000

  /** The dialog's fields as a record. */
  function DataFields(d: InvitationData): Record {
    map["email" := Str(d.email), "role" := Str(d.role), "message" := Str(d.message)]
  }

  /**
   * `{...invitationData, invited_by, expires_at}`: the dialog's fields, the
   * inviter's email, and an expiry seven days after `now`.
   */
  function InvitationRecord(d: InvitationData, inviter: User, now: int): (r: Record)
    ensures r.Keys == {"email", "role", "message", "invited_by", "expires_at"}
    ensures r["email"] == Str(d.email) && r["role"] == Str(d.role) && r["message"] == Str(d.message)
    ensures r["invited_by"] == Str(inviter.email)
    ensures r["expires_at"] == Num(now + InvitationLifetime)
  {
    Patched(DataFields(d), map["invited_by" := Str(inviter.email), "expires_at" := Num(now + InvitationLifetime)])
  }

  function RoleTitle(role: string): string {
    if role == AdminRole then "Administrator" else "User"
  }

  /** The inviter as the personal message names them: full name if truthy, else email. */
  function InviterName(inviter: User): string {
    if Truthy(inviter.full_name) then inviter.full_name.value else inviter.email
  }

  function MessageBlock(d: InvitationData, inviter: User): string {
    if d.message != "" then "Personal message from " + InviterName(inviter) + ":\n\"" + d.message + "\"\n\n" else ""
  }

  /**
   * The invitation email: to the invited address, naming the role, the
   * address to sign in with, the site's origin, and the personal message when
   * there is one.
   */
  function InvitationEmail(d: InvitationData, inviter: User, origin: string): Email {
    Email(d.email, InvitationSubject, InvitationBody(d, inviter, origin))
  }

  const InvitationSubject := "You're invited to join QuickDesk"
  const Greeting := "\nHello!\n\nYou've been invited to join QuickDesk as a "
  const StepsHead := "\n\nQuickDesk is a help desk system where you can create and manage support tickets. To get started:\n\n"
    + "1. Click the link below to access QuickDesk\n2. Sign in with your Google account using the email: "
  const StepsMid := "\n3. Start creating and managing tickets\n\nAccess QuickDesk: "
  const Outro := "\n\nThis invitation expires in 7 days.\n\nWelcome to the team!\n\n---\nQuickDesk Support Team\n      "

  function Intro(d: InvitationData): string {
    Greeting + RoleTitle(d.role) + ".\n\n"
  }

  function Steps(d: InvitationData, origin: string): string {
    StepsHead + d.email + StepsMid + origin
  }

  function InvitationBody(d: InvitationData, inviter: User, origin: string): string {
    Intro(d) + MessageBlock(d, inviter) + Steps(d, origin) + Outro
  }

  lemma InvitationEmailMentions(d: InvitationData, inviter: User, origin: string)
    ensures var e := InvitationEmail(d, inviter, origin);
      && e.to == d.email
      && Includes(e.body, RoleTitle(d.role)) && Includes(e.body, d.email) && Includes(e.body, origin)
      && (d.message != "" ==> Includes(e.body, d.message))
  {
    var intro, mb, steps := Intro(d), MessageBlock(d, inviter), Steps(d, origin);
    var role := RoleTitle(d.role);
    IncludesSelf(role);
    IncludesInRight(Greeting, role, role);
    IncludesInLeft(Greeting + role, ".\n\n", role);
    IncludesInLeft(intro, mb, role);
    IncludesInLeft(intro + mb, steps, role);
    IncludesInLeft(intro + mb + steps, Outro, role);

    IncludesSelf(d.email);
    IncludesInRight(StepsHead, d.email, d.email);
    IncludesInLeft(StepsHead + d.email, StepsMid, d.email);
    IncludesInLeft(StepsHead + d.email + StepsMid, origin, d.email);
    IncludesInRight(intro + mb, steps, d.email);
    IncludesInLeft(intro + mb + steps, Outro, d.email);

    IncludesSelf(origin);
    IncludesInRight(StepsHead + d.email + StepsMid, origin, origin);
    IncludesInRight(intro + mb, steps, origin);
    IncludesInLeft(intro + mb + steps, Outro, origin);

    if d.message != "" {
      var front := "Personal message from " + InviterName(inviter) + ":\n\"";
      IncludesSelf(d.message);
      IncludesInRight(front, d.message, d.message);
      IncludesInLeft(front + d.message, "\"\n\n", d.message);
      IncludesInRight(intro, mb, d.message);
      IncludesInLeft(intro + mb, steps, d.message);
      IncludesInLeft(intro + mb + steps, Outro, d.message);
    }
  }

  /** How `handleInviteUser` ends: normally, or with one of its three errors. */
  datatype InviteOutcome = Invited | CurrentUserMissing | RecordNotSaved | EmailNotSent {
    /** The error text; only the normal ending has none. */
    function Message(): (m: string)
      ensures m == "" <==> this == Invited
    {
      match this
      case Invited => ""
      case CurrentUserMissing =>
        "Current user not loaded. " + "Please refresh the page and try again."
      case RecordNotSaved =>
        "Could not save the invitation to the database. " + "Please check permissions and try again."
      case EmailNotSent =>
        "Invitation was created, but the email failed to send. " + "Please verify the email integration settings."
    }
  }

  class UserManagementPage {
    var users: seq<User>
    var tickets: seq<Ticket>
    var currentUser: Option<User>
    var loading: bool
    var showRoleDialog: bool
    var showInviteDialog: bool
    /** How many times the page has asked for `loadData` after a write. */
    var reloads: nat

    constructor ()
      ensures users == [] && tickets == [] && currentUser.None? && loading
      ensures !showRoleDialog && !showInviteDialog && reloads == 0
    {
      users, tickets, currentUser, loading := [], [], None, true;
      showRoleDialog, showInviteDialog, reloads := false, false, 0;
    }

    /**
     * `loadData`: `User.list("-created_date")` and `Ticket.list()` together
     * (`None` is a failure of either); both lists are set only when both
     * succeed, and loading ends either way.
     */
    method LoadData(loaded: Option<(seq<User>, seq<Ticket>)>)
      modifies this
      ensures !loading
      ensures loaded.Some? ==> users == loaded.value.0 && tickets == loaded.value.1
      ensures loaded.None? ==> users == old(users) && tickets == old(tickets)
      ensures currentUser == old(currentUser) && reloads == old(reloads)
      ensures showRoleDialog == old(showRoleDialog) && showInviteDialog == old(showInviteDialog)
    {
      if loaded.Some? {
        users, tickets := loaded.value.0, loaded.value.1;
      }
      loading := false;
    }

    /** `loadCurrentUser`: `User.me()` (`None` when it fails); a failure leaves the current user as it was. */
    method LoadCurrentUser(me: Option<User>)
      modifies this
      ensures currentUser == if me.Some? then me else old(currentUser)
      ensures users == old(users) && tickets == old(tickets) && loading == old(loading) && reloads == old(reloads)
      ensures showRoleDialog == old(showRoleDialog) && showInviteDialog == old(showInviteDialog)
    {
      if me.Some? {
        currentUser := me;
      }
    }

    /** `handleRoleUpdate`: write only the role; reload and close the dialog on success, keep both on failure. */
    method HandleRoleUpdate(store: EntityStore, userId: string, newRole: string, ok: bool)
      modifies this, store
      ensures users == old(users) && tickets == old(tickets) && currentUser == old(currentUser) && loading == old(loading)
      ensures showInviteDialog == old(showInviteDialog)
      ensures var written := ok && userId in old(store.records);
              && store.records == (if written
                                   then old(store.records)[userId := Patched(old(store.records)[userId], map["role" := Str(newRole)])]
                                   else old(store.records))
              && reloads == old(reloads) + (if written then 1 else 0)
              && showRoleDialog == (if written then false else old(showRoleDialog))
    {
      var written := store.Update(userId, map["role" := Str(newRole)], ok);
      if written {
        reloads := reloads + 1;
        showRoleDialog := false;
      }
    }

    /**
     * `handleInviteUser`. Without a loaded current user it fails before any
     * call. Phase 1 creates the invitation record; if that fails, no email is
     * attempted. Phase 2 emails the invitee; if that fails the record stays.
     * Only when both succeed is the list reloaded and the dialog closed.
     */
    method HandleInviteUser(invitations: EntityStore, outbox: Outbox, d: InvitationData, now: int, origin: string,
                            createOk: bool, freshId: string, emailOk: bool) returns (outcome: InviteOutcome)
      modifies this, invitations, outbox
      ensures users == old(users) && tickets == old(tickets) && currentUser == old(currentUser) && loading == old(loading)
      ensures showRoleDialog == old(showRoleDialog)
      ensures currentUser.None? ==>
                && outcome == CurrentUserMissing
                && invitations.records == old(invitations.records)
                && outbox.attempts == old(outbox.attempts)
      ensures currentUser.Some? ==>
                var saved := createOk && freshId !in old(invitations.records);
                && invitations.records == (if saved
                                           then old(invitations.records)[freshId := InvitationRecord(d, currentUser.value, now)]
                                           else old(invitations.records))
                && outbox.attempts == old(outbox.attempts) +
                     (if saved then [Delivery(InvitationEmail(d, currentUser.value, origin), emailOk)] else [])
                && outcome == (if !saved then RecordNotSaved else if !emailOk then EmailNotSent else Invited)
      ensures reloads == old(reloads) + (if outcome == Invited then 1 else 0)
      ensures showInviteDialog == (if outcome == Invited then false else old(showInviteDialog))
    {
      var me := currentUser;
      if me.None? {
        return CurrentUserMissing;
      }
      var created := invitations.Create(InvitationRecord(d, me.value, now), createOk, freshId);
      if created.None? {
        return RecordNotSaved;
      }
      outcome := FinishInvite(outbox, InvitationEmail(d, me.value, origin), emailOk);
    }

    /**
     * The part of `handleInviteUser` after the record was saved: email the
     * invitee, then reload and close the dialog unless that email failed.
     */
    method FinishInvite(outbox: Outbox, e: Email, emailOk: bool) returns (outcome: InviteOutcome)
      modifies this, outbox
      ensures users == old(users) && tickets == old(tickets) && currentUser == old(currentUser) && loading == old(loading)
      ensures showRoleDialog == old(showRoleDialog)
      ensures outbox.attempts == old(outbox.attempts) + [Delivery(e, emailOk)]
      ensures outcome == if emailOk then Invited else EmailNotSent
      ensures reloads == old(reloads) + (if emailOk then 1 else 0)
      ensures showInviteDialog == (if emailOk then false else old(showInviteDialog))
    {
      var sent := outbox.Send(e, emailOk);
      if !sent {
        return EmailNotSent;
      }
      reloads := reloads + 1;
      showInviteDialog := false;
      outcome := Invited;
    }
  }
}
