/**
 * Category administration (pages/CategoryManagement.tsx): the category
 * search, per-category ticket counts, the active/inactive split, the colour
 * fallback, and the three writes (create, update, active toggle).
 */
module CategoryManagement {
  import opened Wrappers
  import opened Text
  import opened Seqs
  import opened Entities
  import opened Gateway

  // ----- Search -----

  /** Empty query: everything; otherwise the name, or the description when there is one, contains it, ignoring case. */
  predicate MatchesSearch(c: Category, q: string) {
    || q == ""
    || ContainsIgnoringCase(c.name, q)
    || (c.description.Some? && ContainsIgnoringCase(c.description.value, q))
  }

  function Matcher(q: string): Category -> bool {
    (c: Category) => MatchesSearch(c, q)
  }

  /** `filteredCategories`: the loaded categories the search matches, in order. */
  function FilteredCategories(categories: seq<Category>, q: string): (r: seq<Category>)
    ensures SubsequenceOf(r, categories)
    ensures forall c :: c in r <==>
      (&& c in categories
       && (|| q == ""
           || ContainsIgnoringCase(c.name, q)
           || (c.description.Some? && ContainsIgnoringCase(c.description.value, q))))
  {
    Filter(categories, Matcher(q))
  }

  /** An empty search lists every loaded category, in order. */
  lemma EmptySearchListsEverything(categories: seq<Category>)
    ensures FilteredCategories(categories, "") == categories
  {
    FilterKeepsAll(categories, Matcher(""));
  }

  // ----- Counts -----

  function InCategory(categoryId: string): Ticket -> bool {
    (t: Ticket) => t.category_id == categoryId
  }

  /** `getCategoryTicketCount`: the tickets filed under exactly this category id. */
  function CategoryTicketCount(tickets: seq<Ticket>, categoryId: string): (n: nat)
    ensures n == |Filter(tickets, InCategory(categoryId))|
    ensures forall t :: t in Filter(tickets, InCategory(categoryId)) <==> t in tickets && t.category_id == categoryId
    ensures n <= |tickets|
  {
    Count(tickets, InCategory(categoryId))
  }

  /** Two different categories never claim the same ticket, so their counts together are at most the number of tickets. */
  lemma DistinctCategoriesShareNoTicket(tickets: seq<Ticket>, a: string, b: string)
    requires a != b
    ensures CategoryTicketCount(tickets, a) + CategoryTicketCount(tickets, b) <= |tickets|
  {
    CountDisjoint(tickets, InCategory(a), InCategory(b));
  }

  datatype OverallStats = OverallStats(totalCategories: nat, activeCategories: nat, inactiveCategories: nat, totalTickets: nat)

  function IsActive(): Category -> bool {
    (c: Category) => c.is_active
  }

  function IsInactive(): Category -> bool {
    (c: Category) => !c.is_active
  }

  /** `getOverallStats`: every category is either active or inactive, so the two counts add up to the total. */
  function OverallStatsOf(categories: seq<Category>, tickets: seq<Ticket>): (s: OverallStats)
    ensures s.totalCategories == |categories| && s.totalTickets == |tickets|
    ensures s.activeCategories == Count(categories, IsActive())
    ensures s.inactiveCategories == Count(categories, IsInactive())
    ensures s.activeCategories + s.inactiveCategories == s.totalCategories
  {
    CountDisjoint(categories, IsActive(), IsInactive());
    OverallStats(|categories|, Count(categories, IsActive()), Count(categories, IsInactive()), |tickets|)
  }

  // ----- Colours -----

  const ColorClasses: map<string, string> := map[
    "blue" := "bg-blue-100 text-blue-800 border-blue-200",
    "green" := "bg-green-100 text-green-800 border-green-200",
    "purple" := "bg-purple-100 text-purple-800 border-purple-200",
    "orange" := "bg-orange-100 text-orange-800 border-orange-200",
    "red" := "bg-red-100 text-red-800 border-red-200",
    "yellow" := "bg-yellow-100 text-yellow-800 border-yellow-200",
    "indigo" := "bg-indigo-100 text-indigo-800 border-indigo-200",
    "pink" := "bg-pink-100 text-pink-800 border-pink-200"]

  /** `getColorClass`: a known colour gets its own classes, any other colour the blue ones. */
  function ColorClass(color: string): (c: string)
    ensures c in ColorClasses.Values
    ensures color in ColorClasses ==> c == ColorClasses[color]
    ensures color !in ColorClasses ==> c == ColorClasses["blue"]
  {
    if color in ColorClasses && ColorClasses[color] != "" then ColorClasses[color] else ColorClasses["blue"]
  }

  // ----- Writes -----

  /** The only field `handleToggleActive` writes: the negation of the flag on the category as the page holds it. */
  function TogglePatch(category: Category): (p: Record)
    ensures p.Keys == {"is_active"}
    ensures p["is_active"] == Flag(!category.is_active)
  {
    map["is_active" := Flag(!category.is_active)]
  }

  /** Toggling sets `is_active` to the negated cached flag and leaves every other field of the record as it was. */
  lemma ToggleTouchesOnlyActive(r: Record, category: Category)
    ensures var r' := Patched(r, TogglePatch(category));
      && r'.Keys == r.Keys + {"is_active"}
      && r'["is_active"] == Flag(!category.is_active)
      && forall k :: k in r && k != "is_active" ==> r'[k] == r[k]
  {
  }

  class CategoryManagementPage {
    var categories: seq<Category>
    var tickets: seq<Ticket>
    var loading: bool
    var showCreateDialog: bool
    var showEditDialog: bool
    var selectedCategory: Option<Category>
    /** How many times the page has asked for `loadData` after a write. */
    var reloads: nat

    constructor ()
      ensures categories == [] && tickets == [] && loading
      ensures !showCreateDialog && !showEditDialog && selectedCategory.None? && reloads == 0
    {
      categories, tickets, loading := [], [], true;
      showCreateDialog, showEditDialog, selectedCategory, reloads := false, false, None, 0;
    }

    /** `loadData`: both lists are set together when both loads succeed (`None` is a failed load); loading ends either way. */
    method LoadData(loaded: Option<(seq<Category>, seq<Ticket>)>)
      modifies this
      ensures !loading
      ensures loaded.Some? ==> categories == loaded.value.0 && tickets == loaded.value.1
      ensures loaded.None? ==> categories == old(categories) && tickets == old(tickets)
      ensures showCreateDialog == old(showCreateDialog) && showEditDialog == old(showEditDialog)
      ensures selectedCategory == old(selectedCategory) && reloads == old(reloads)
    {
      if loaded.Some? {
        categories, tickets := loaded.value.0, loaded.value.1;
      }
      loading := false;
    }

    /** The "Edit Category" menu item: remember the category and open the edit dialog. */
    method BeginEdit(category: Category)
      modifies this
      ensures selectedCategory == Some(category) && showEditDialog
      ensures categories == old(categories) && tickets == old(tickets) && loading == old(loading)
      ensures showCreateDialog == old(showCreateDialog) && reloads == old(reloads)
    {
      selectedCategory := Some(category);
      showEditDialog := true;
    }

    /** `handleCreateCategory`: store the dialog's data unchanged; reload and close the dialog only on success. */
    method HandleCreateCategory(store: EntityStore, data: Record, ok: bool, freshId: string)
      modifies this, store
      ensures categories == old(categories) && tickets == old(tickets) && loading == old(loading)
      ensures showEditDialog == old(showEditDialog) && selectedCategory == old(selectedCategory)
      ensures var created := ok && freshId !in old(store.records);
              && store.records == (if created then old(store.records)[freshId := data] else old(store.records))
              && reloads == old(reloads) + (if created then 1 else 0)
              && showCreateDialog == (if created then false else old(showCreateDialog))
    {
      var id := store.Create(data, ok, freshId);
      if id.Some? {
        reloads := reloads + 1;
        showCreateDialog := false;
      }
    }

    /** `handleUpdateCategory`: patch with the dialog's data unchanged; on success reload, close the dialog and forget the selection. */
    method HandleUpdateCategory(store: EntityStore, categoryId: string, data: Record, ok: bool)
      modifies this, store
      ensures categories == old(categories) && tickets == old(tickets) && loading == old(loading)
      ensures showCreateDialog == old(showCreateDialog)
      ensures var written := ok && categoryId in old(store.records);
              && store.records == (if written
                                   then old(store.records)[categoryId := Patched(old(store.records)[categoryId], data)]
                                   else old(store.records))
              && reloads == old(reloads) + (if written then 1 else 0)
              && showEditDialog == (if written then false else old(showEditDialog))
              && selectedCategory == (if written then None else old(selectedCategory))
    {
      var written := store.Update(categoryId, data, ok);
      if written {
        reloads := reloads + 1;
        showEditDialog := false;
        selectedCategory := None;
      }
    }

    /**
     * `handleToggleActive`: write only the negated flag of the category as
     * cached; only the category store is touched; reload on success.
     */
    method HandleToggleActive(store: EntityStore, category: Category, ok: bool)
      modifies this, store
      ensures categories == old(categories) && tickets == old(tickets) && loading == old(loading)
      ensures showCreateDialog == old(showCreateDialog) && showEditDialog == old(showEditDialog)
      ensures selectedCategory == old(selectedCategory)
      ensures var written := ok && category.id in old(store.records);
              && store.records == (if written
                                   then old(store.records)[category.id := Patched(old(store.records)[category.id], TogglePatch(category))]
                                   else old(store.records))
              && reloads == old(reloads) + (if written then 1 else 0)
    {
      var written := store.Update(category.id, TogglePatch(category), ok);
      if written {
        reloads := reloads + 1;
      }
    }
  }
}
