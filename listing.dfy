/** The product listing page (`client/src/pages/products.tsx`): its filter state,
    the operations that change it (URL seeding, category toggling, reset, and the
    filter command applied on behalf of the chat assistant), the global slot
    `window.applyAIFilters` through which the assistant reaches the page, and the
    filter-then-sort pipeline that decides which fetched products are shown. */
module Listing {
  import opened Wrappers
  import opened Seqs
  import opened Sorting
  import opened Catalog
  import opened Wire

  datatype View = Grid | Compact

  /** The page's filter state. */
  datatype FilterState = FilterState(
    selectedCategories: seq<string>,
    priceRange: PriceRange,
    sortBy: string,
    searchQuery: string,
    gridView: View,
    aiFilterApplied: bool,
    lastAiCommand: Option<FilterCommand>)

  /** The state the page starts in. */
  const Initial := FilterState([], PriceRange(0.0, 1000.0), "featured", "", Grid, false, None)

  /** The indicator is on exactly when a command is remembered. */
  predicate Consistent(st: FilterState) {
    st.aiFilterApplied <==> st.lastAiCommand.Some?
  }

  // ---------------------------------------------------------------- specification

  /** The URL parameters `category`, `filter` and `search`; each is used only when non-empty,
      and `filter` selects the sort key. */
  function Seeded(st: FilterState, category: Option<string>, filter: Option<string>, search: Option<string>): FilterState {
    st.(selectedCategories := if TruthyStr(category) then [category.value] else st.selectedCategories,
        searchQuery := if TruthyStr(search) then search.value else st.searchQuery,
        sortBy := if TruthyStr(filter) then filter.value else st.sortBy)
  }

  /** A selected slug is removed (every copy of it); an unselected one is appended. */
  function Toggled(sel: seq<string>, slug: string): seq<string> {
    if slug in sel then Filter(sel, c => c != slug) else sel + [slug]
  }

  /** The defaults, except that the view mode is kept and the indicator is cleared
      only when it was on. */
  function Reset(st: FilterState): FilterState {
    var r := st.(selectedCategories := [], priceRange := PriceRange(0.0, 1000.0), sortBy := "featured", searchQuery := "");
    if st.aiFilterApplied then r.(aiFilterApplied := false, lastAiCommand := None) else r
  }

  /** `applyFiltersFromAI`: a partial update in which a present array replaces its
      field (even when empty), a non-empty sort replaces the sort key, a present
      search replaces the query (even when empty), and only the two known views
      change the view mode. */
  function Applied(st: FilterState, cmd: FilterCommand): FilterState {
    if cmd.action != "filter" then st
    else
      st.(selectedCategories := if cmd.categories.Some? then cmd.categories.value else st.selectedCategories,
          priceRange := if cmd.priceRange.Some? then cmd.priceRange.value else st.priceRange,
          sortBy := if TruthyStr(cmd.sort) then cmd.sort.value else st.sortBy,
          searchQuery := if cmd.search.Some? then cmd.search.value else st.searchQuery,
          gridView := if cmd.view == Some("grid") then Grid else if cmd.view == Some("compact") then Compact else st.gridView,
          aiFilterApplied := true,
          lastAiCommand := Some(cmd))
  }

  // ---------------------------------------------------------------- properties of the updates

  /** A command whose action is not "filter" changes nothing. */
  lemma AppliedIgnoresOtherActions(st: FilterState, cmd: FilterCommand)
    requires cmd.action != "filter"
    ensures Applied(st, cmd) == st
  {
  }

  /** What an accepted command does to each field of the state. */
  lemma AppliedFields(st: FilterState, cmd: FilterCommand)
    requires cmd.action == "filter"
    ensures Applied(st, cmd).aiFilterApplied && Applied(st, cmd).lastAiCommand == Some(cmd)
    ensures cmd.categories == Some([]) ==> Applied(st, cmd).selectedCategories == []
    ensures cmd.categories.Some? ==> Applied(st, cmd).selectedCategories == cmd.categories.value
    ensures cmd.categories.None? ==> Applied(st, cmd).selectedCategories == st.selectedCategories
    ensures cmd.priceRange.Some? ==> Applied(st, cmd).priceRange == cmd.priceRange.value
    ensures cmd.priceRange.None? ==> Applied(st, cmd).priceRange == st.priceRange
    ensures TruthyStr(cmd.sort) ==> Applied(st, cmd).sortBy == cmd.sort.value
    ensures cmd.sort.None? || cmd.sort == Some("") ==> Applied(st, cmd).sortBy == st.sortBy
    ensures cmd.search.Some? ==> Applied(st, cmd).searchQuery == cmd.search.value
    ensures cmd.search == Some("") ==> Applied(st, cmd).searchQuery == ""
    ensures cmd.search.None? ==> Applied(st, cmd).searchQuery == st.searchQuery
    ensures cmd.view == Some("grid") ==> Applied(st, cmd).gridView == Grid
    ensures cmd.view == Some("compact") ==> Applied(st, cmd).gridView == Compact
    ensures cmd.view != Some("grid") && cmd.view != Some("compact") ==> Applied(st, cmd).gridView == st.gridView
    ensures Consistent(Applied(st, cmd))
  {
  }

  /** An unknown view value does not stop the rest of the command. */
  lemma AppliedUnknownView(st: FilterState, cmd: FilterCommand, v: string)
    requires cmd.action == "filter" && v != "grid" && v != "compact"
    ensures Applied(st, cmd.(view := Some(v))) == Applied(st, cmd.(view := None)).(lastAiCommand := Some(cmd.(view := Some(v))))
  {
  }

  /** Applying the same command twice is the same as applying it once. */
  lemma AppliedIdempotent(st: FilterState, cmd: FilterCommand)
    ensures Applied(Applied(st, cmd), cmd) == Applied(st, cmd)
  {
  }

  /** Toggling flips the slug's membership and leaves every other slug alone. */
  lemma ToggledMembership(sel: seq<string>, slug: string, other: string)
    requires other != slug
    ensures (slug in Toggled(sel, slug)) <==> slug !in sel
    ensures (other in Toggled(sel, slug)) <==> other in sel
  {
  }

  /** Toggling the same slug twice restores the set of selected slugs, and restores
      the selection exactly when the slug was not selected. */
  lemma ToggledTwice(sel: seq<string>, slug: string)
    ensures forall c :: c in Toggled(Toggled(sel, slug), slug) <==> c in sel
    ensures slug !in sel ==> Toggled(Toggled(sel, slug), slug) == sel
  {
    if slug !in sel {
      var once := sel + [slug];
      FilterAppend(sel, [slug], c => c != slug);
      FilterAll(sel, c => c != slug);
      assert Filter([slug], c => c != slug) == [];
      assert Toggled(once, slug) == Filter(once, c => c != slug);
    }
  }

  /** Reset restores the defaults, turns the indicator off and keeps the view mode. */
  lemma ResetDefaults(st: FilterState)
    requires Consistent(st)
    ensures Reset(st) == Initial.(gridView := st.gridView)
  {
  }

  /** Every operation keeps the indicator and the remembered command in step. */
  lemma OperationsKeepConsistent(st: FilterState, cmd: FilterCommand, slug: string,
                                 category: Option<string>, filter: Option<string>, search: Option<string>)
    requires Consistent(st)
    ensures Consistent(Applied(st, cmd))
    ensures Consistent(Reset(st))
    ensures Consistent(st.(selectedCategories := Toggled(st.selectedCategories, slug)))
    ensures Consistent(Seeded(st, category, filter, search))
  {
  }

  // ---------------------------------------------------------------- the displayed grid

  predicate InPriceRange(p: Product, range: PriceRange) {
    range.lo <= p.price <= range.hi
  }

  /** With a selection, a product is shown only when its category id resolves to a
      loaded category whose slug is selected. */
  predicate InSelection(p: Product, sel: seq<string>, categories: Option<seq<Category>>) {
    |sel| == 0
    || (categories.Some? && p.categoryId.Some?
        && FindCategoryById(categories.value, p.categoryId.value).Some?
        && FindCategoryById(categories.value, p.categoryId.value).value.slug in sel)
  }

  /** The grid: the fetched products filtered by price, then by category, then sorted. */
  function Displayed(products: seq<Product>, st: FilterState, categories: Option<seq<Category>>): seq<Product> {
    var byPrice := Filter(products, p => InPriceRange(p, st.priceRange));
    var byCategory := Filter(byPrice, p => InSelection(p, st.selectedCategories, categories));
    OrderBy(byCategory, st.sortBy)
  }

  /** The grid shows exactly the fetched products within the price range and the
      selection, each as often as it was fetched; for a value of `sortBy` that is not
      a sort key, in the fetch order (the order under a sort key is
      `Catalog.OrderBySpec`'s). */
  lemma DisplayedSpec(products: seq<Product>, st: FilterState, categories: Option<seq<Category>>, p: Product)
    ensures p in Displayed(products, st, categories) <==>
      p in products && InPriceRange(p, st.priceRange) && InSelection(p, st.selectedCategories, categories)
    ensures multiset(Displayed(products, st, categories))[p] ==
      if InPriceRange(p, st.priceRange) && InSelection(p, st.selectedCategories, categories)
      then multiset(products)[p] else 0
    ensures !IsSortKey(st.sortBy) ==> IsSubsequence(Displayed(products, st, categories), products)
  {
    var byPrice := Filter(products, p => InPriceRange(p, st.priceRange));
    var byCategory := Filter(byPrice, p => InSelection(p, st.selectedCategories, categories));
    OrderBySpec(byCategory, st.sortBy);
    FilterMultiset(products, p => InPriceRange(p, st.priceRange), p);
    FilterMultiset(byPrice, p => InSelection(p, st.selectedCategories, categories), p);
    assert p in Displayed(products, st, categories) <==> p in multiset(byCategory);
    if p in products && InPriceRange(p, st.priceRange) {
      var k :| 0 <= k < |products| && products[k] == p;
      assert p in byPrice;
      var m :| 0 <= m < |byPrice| && byPrice[m] == p;
    }
    if p in byPrice {
      var m :| 0 <= m < |byPrice| && byPrice[m] == p;
    }
    if p in byCategory {
      var m :| 0 <= m < |byCategory| && byCategory[m] == p;
    }
    if !IsSortKey(st.sortBy) {
      FilterIsSubsequence(products, p => InPriceRange(p, st.priceRange));
      FilterIsSubsequence(byPrice, p => InSelection(p, st.selectedCategories, categories));
      SubsequenceTrans(byCategory, byPrice, products);
    }
  }

  /** Without a selection, every product in the price range is shown. */
  lemma DisplayedNoSelection(products: seq<Product>, st: FilterState, categories: Option<seq<Category>>, p: Product)
    requires st.selectedCategories == []
    requires p in products && InPriceRange(p, st.priceRange)
    ensures p in Displayed(products, st, categories)
  {
    DisplayedSpec(products, st, categories, p);
  }

  // ---------------------------------------------------------------- the page and the global slot

  /** The browser window's `applyAIFilters` slot, holding the page whose apply
      function is registered there, if any. */
  class Window {
    var applyAIFilters: Option<ListingView>

    constructor ()
      ensures applyAIFilters.None?
    {
      applyAIFilters := None;
    }
  }

  /** A mounted product listing page and its filter state. */
  class ListingView {
    var selectedCategories: seq<string>
    var priceRange: PriceRange
    var sortBy: string
    var searchQuery: string
    var gridView: View
    var aiFilterApplied: bool
    var lastAiCommand: Option<FilterCommand>

    function State(): FilterState
      reads this
    {
      FilterState(selectedCategories, priceRange, sortBy, searchQuery, gridView, aiFilterApplied, lastAiCommand)
    }

    constructor ()
      ensures State() == Initial
    {
      selectedCategories := [];
      priceRange := PriceRange(0.0, 1000.0);
      sortBy := "featured";
      searchQuery := "";
      gridView := Grid;
      aiFilterApplied := false;
      lastAiCommand := None;
    }

    /** Seeds the filters from the URL's query parameters. */
    method SeedFromUrl(category: Option<string>, filter: Option<string>, search: Option<string>)
      modifies this
      ensures State() == Seeded(old(State()), category, filter, search)
    {
      if TruthyStr(category) {
        selectedCategories := [category.value];
      }
      if TruthyStr(search) {
        searchQuery := search.value;
      }
      if TruthyStr(filter) {
        sortBy := filter.value;
      }
    }

    method ToggleCategory(slug: string)
      modifies this
      ensures State() == old(State()).(selectedCategories := Toggled(old(selectedCategories), slug))
    {
      if slug in selectedCategories {
        selectedCategories := Filter(selectedCategories, c => c != slug);
      } else {
        selectedCategories := selectedCategories + [slug];
      }
    }

    method ResetFilters()
      modifies this
      ensures State() == Reset(old(State()))
    {
      selectedCategories := [];
      priceRange := PriceRange(0.0, 1000.0);
      sortBy := "featured";
      searchQuery := "";
      if aiFilterApplied {
        aiFilterApplied := false;
        lastAiCommand := None;
      }
    }

    /** The function the page registers in the global slot. */
    method ApplyFiltersFromAI(cmd: FilterCommand)
      modifies this
      ensures State() == Applied(old(State()), cmd)
    {
      if cmd.action != "filter" {
        return;
      }
      ghost var target := Applied(State(), cmd);
      if cmd.categories.Some? {
        selectedCategories := cmd.categories.value;
      }
      assert selectedCategories == target.selectedCategories;
      if cmd.priceRange.Some? {
        priceRange := cmd.priceRange.value;
      }
      assert priceRange == target.priceRange;
      if cmd.sort.Some? && cmd.sort.value != "" {
        sortBy := cmd.sort.value;
      }
      assert sortBy == target.sortBy;
      if cmd.search.Some? {
        searchQuery := cmd.search.value;
      }
      assert searchQuery == target.searchQuery;
      if cmd.view.Some? && (cmd.view.value == "grid" || cmd.view.value == "compact") {
        gridView := if cmd.view.value == "grid" then Grid else Compact;
      }
      assert gridView == target.gridView;
      aiFilterApplied := true;
      lastAiCommand := Some(cmd);
    }

    /** Mounting registers this page's apply function, replacing any earlier one. */
    method Mount(w: Window)
      modifies w
      ensures w.applyAIFilters == Some(this)
    {
      w.applyAIFilters := Some(this);
    }

    /** Unmounting empties the slot, whichever page is registered in it. */
    method Unmount(w: Window)
      modifies w
      ensures w.applyAIFilters.None?
    {
      w.applyAIFilters := None;
    }

    /** The products the grid shows. */
    function Shown(products: seq<Product>, categories: Option<seq<Category>>): seq<Product>
      reads this
    {
      Displayed(products, State(), categories)
    }
  }

  /** A page that mounts after another one and the earlier page's unmount leave the
      slot empty, although the later page is still on screen. */
  method StaleUnmount() returns (slot: Option<ListingView>, later: ListingView)
    ensures slot.None?
  {
    var w := new Window();
    var first := new ListingView();
    later := new ListingView();
    first.Mount(w);
    later.Mount(w);
    assert w.applyAIFilters == Some(later);
    first.Unmount(w);
    slot := w.applyAIFilters;
  }
}
