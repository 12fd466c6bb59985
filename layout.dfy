/**
 * The application frame (layout.js): which navigation entries a user sees,
 * and which entry is highlighted for the current location.
 */
module Layout {
  import opened Wrappers
  import opened Entities

  /**
   * A navigation entry. `page` is the page name handed to `createPageUrl`;
   * the URL itself is computed by code outside this model, so it is a
   * parameter wherever it matters.
   */
  datatype NavItem = NavItem(name: string, page: string, roles: seq<string>)

  const DashboardItem := NavItem("Dashboard", "Dashboard", [UserRole, AdminRole])
  const NewTicketItem := NavItem("New Ticket", "CreateTicket", [UserRole, AdminRole])
  const AllTicketsItem := NavItem("All Tickets", "AllTickets", [AdminRole])
  const UserManagementItem := NavItem("User Management", "UserManagement", [AdminRole])
  const CategoriesItem := NavItem("Categories", "CategoryManagement", [AdminRole])

  const BaseItems: seq<NavItem> := [DashboardItem, NewTicketItem]
  const AdminItems: seq<NavItem> := [AllTicketsItem, UserManagementItem, CategoriesItem]

  /**
   * `getNavigationItems`: nothing without a user; the two base entries for
   * anyone else, followed by the three admin entries for an admin. The
   * entries' `roles` are never consulted.
   */
  function NavigationItems(user: Option<User>): (items: seq<NavItem>)
    ensures items == [] <==> user.None?
    ensures user.Some? ==> |items| >= 2 && items[..2] == BaseItems
    ensures user.Some? && user.value.role != AdminRole ==> |items| == 2
    ensures user.Some? && user.value.role == AdminRole ==> |items| == 5 && items[2..] == AdminItems
  {
    if user.None? then []
    else if user.value.role == AdminRole then BaseItems + AdminItems
    else BaseItems
  }

  function Names(items: seq<NavItem>): (names: seq<string>)
    ensures |names| == |items|
    ensures forall i :: 0 <= i < |items| ==> names[i] == items[i].name
  {
    if items == [] then [] else [items[0].name] + Names(items[1..])
  }

  /** A non-admin sees exactly Dashboard and New Ticket; an admin sees those first, then the three admin pages. */
  lemma NavigationNames(u: User)
    ensures u.role != AdminRole ==> Names(NavigationItems(Some(u))) == ["Dashboard", "New Ticket"]
    ensures u.role == AdminRole ==>
      Names(NavigationItems(Some(u))) == ["Dashboard", "New Ticket", "All Tickets", "User Management", "Categories"]
  {
  }

  /** No non-admin, whatever their role, is offered an entry meant for admins only. */
  lemma NonAdminSeesNoAdminEntry(u: User)
    requires u.role != AdminRole
    ensures forall item :: item in NavigationItems(Some(u)) ==> UserRole in item.roles && item !in AdminItems
  {
  }

  /**
   * Every entry shown lists the user's role among its `roles`, provided the
   * role is `user` or `admin`.
   */
  lemma EntriesAllowTheUsersRole(u: User)
    requires u.role == UserRole || u.role == AdminRole
    ensures forall item :: item in NavigationItems(Some(u)) ==> u.role in item.roles
  {
    var items := NavigationItems(Some(u));
    forall item | item in items
      ensures u.role in item.roles
    {
      if u.role == UserRole {
        assert item == DashboardItem || item == NewTicketItem;
      } else {
        assert item in BaseItems || item in AdminItems;
      }
    }
  }

  /**
   * Since the `roles` are not consulted, a user with any other role still
   * gets the base entries although their role is in neither entry's list.
   */
  lemma OtherRolesAreNotListed(u: User)
    requires u.role != UserRole && u.role != AdminRole
    ensures NavigationItems(Some(u)) == BaseItems
    ensures forall item :: item in NavigationItems(Some(u)) ==> u.role !in item.roles
  {
    forall item | item in BaseItems
      ensures u.role !in item.roles
    {
      assert item == DashboardItem || item == NewTicketItem;
    }
  }

  /** The highlight test: the current path equals the entry's URL. */
  predicate IsActive(item: NavItem, pathname: string, pageUrl: string -> string) {
    pathname == pageUrl(item.page)
  }

  /** When different pages have different URLs, at most one entry of the navigation is highlighted. */
  lemma AtMostOneActive(user: Option<User>, pathname: string, pageUrl: string -> string)
    requires forall p, q :: pageUrl(p) == pageUrl(q) ==> p == q
    ensures var items := NavigationItems(user);
      forall i, j ::
        (0 <= i < |items| && 0 <= j < |items| && IsActive(items[i], pathname, pageUrl) && IsActive(items[j], pathname, pageUrl))
        ==> i == j
  {
    var items := NavigationItems(user);
    forall i, j | 0 <= i < |items| && 0 <= j < |items| && IsActive(items[i], pathname, pageUrl)
                  && IsActive(items[j], pathname, pageUrl)
      ensures i == j
    {
      assert items[i].page == items[j].page;
      assert user.Some?;
      if user.value.role == AdminRole {
        assert items == [DashboardItem, NewTicketItem, AllTicketsItem, UserManagementItem, CategoriesItem];
      } else {
        assert items == [DashboardItem, NewTicketItem];
      }
    }
  }
}
