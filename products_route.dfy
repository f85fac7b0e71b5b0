/** `GET /api/products` of `server/routes.ts`: the product list narrowed by
    category, flag, search and price, ordered by `sortBy` and cut to `limit`. Query
    strings arrive already parsed; an empty string is an absent parameter. */
module ProductsRoute {
  import opened Wrappers
  import opened Seqs
  import opened Text
  import opened Catalog

  /** A `parseFloat`ed price bound: not given, not a number, or a number. */
  datatype PriceParam = Absent | NaN | Num(v: real)

  datatype ProductQuery = ProductQuery(
    category: string,
    filter: string,
    search: string,
    sortBy: string,
    limit: Option<int>,   // `parseInt(limit)`; None when it is NaN
    priceMin: PriceParam,
    priceMax: PriceParam)

  /** `parseInt(limit) || 1000`. */
  function LimitOf(limit: Option<int>): (n: int)
    ensures n != 0
    ensures limit.Some? && limit.value != 0 ==> n == limit.value
    ensures limit.None? || limit.value == 0 ==> n == 1000
  {
    if limit.Some? && limit.value != 0 then limit.value else 1000
  }

  predicate InCategory(c: Category, p: Product) {
    p.categoryId == Some(c.id)
  }

  /** The category step: a slug that resolves keeps that category's products;
      an empty or unknown slug keeps them all. */
  function ByCategory(products: seq<Product>, cats: seq<Category>, slug: string): (r: seq<Product>)
    ensures slug == "" || FindCategoryBySlug(cats, slug).None? ==> r == products
    ensures slug != "" && FindCategoryBySlug(cats, slug).Some? ==>
      forall p :: p in r <==> p in products && p.categoryId == Some(FindCategoryBySlug(cats, slug).value.id)
  {
    if slug == "" then products
    else
      var c := FindCategoryBySlug(cats, slug);
      if c.None? then products else Filter(products, p => InCategory(c.value, p))
  }

  predicate IsNew(p: Product) { p.isNew }
  predicate IsTrending(p: Product) { p.isTrending }

  /** `oldPrice !== null && oldPrice > price`. */
  predicate OnSale(p: Product) {
    p.oldPrice.Some? && p.oldPrice.value > p.price
  }

  /** The flag step; any other filter value keeps the list. */
  function ByFlag(products: seq<Product>, filter: string): (r: seq<Product>)
    ensures filter == "new" ==> forall p :: p in r <==> p in products && p.isNew
    ensures filter == "trending" ==> forall p :: p in r <==> p in products && p.isTrending
    ensures filter == "sale" ==> forall p :: p in r <==> p in products && OnSale(p)
    ensures filter == "recommended" ==> r == products[..if |products| < 8 then |products| else 8]
    ensures filter != "new" && filter != "trending" && filter != "sale" && filter != "recommended" ==> r == products
  {
    if filter == "new" then Filter(products, IsNew)
    else if filter == "trending" then Filter(products, IsTrending)
    else if filter == "sale" then Filter(products, OnSale)
    else if filter == "recommended" then JsSliceTo(products, 8)
    else products
  }

  /** The name, or a non-empty description, contains the lower-cased term, ignoring case. */
  predicate MatchesSearch(term: string, p: Product) {
    Contains(Lower(p.name), term)
    || (p.description.Some? && p.description.value != "" && Contains(Lower(p.description.value), term))
  }

  function BySearch(products: seq<Product>, search: string): (r: seq<Product>)
    ensures search == "" ==> r == products
    ensures search != "" ==> forall p :: p in r <==> p in products && MatchesSearch(Lower(search), p)
  {
    if search == "" then products else Filter(products, p => MatchesSearch(Lower(search), p))
  }

  /** `price >= priceMin`; a NaN bound admits nothing. */
  predicate AtLeast(bound: PriceParam, p: Product) {
    bound.Num? && p.price >= bound.v
  }

  predicate AtMost(bound: PriceParam, p: Product) {
    bound.Num? && p.price <= bound.v
  }

  function ByMinPrice(products: seq<Product>, priceMin: PriceParam): (r: seq<Product>)
    ensures priceMin.Absent? ==> r == products
    ensures priceMin.NaN? ==> r == []
    ensures priceMin.Num? ==> forall p :: p in r <==> p in products && p.price >= priceMin.v
  {
    if priceMin.Absent? then products
    else
      var keep := p => AtLeast(priceMin, p);
      assert priceMin.NaN? ==> Filter(products, keep) == [] by {
        if priceMin.NaN? {
          FilterNone(products, keep);
        }
      }
      Filter(products, keep)
  }

  function ByMaxPrice(products: seq<Product>, priceMax: PriceParam): (r: seq<Product>)
    ensures priceMax.Absent? ==> r == products
    ensures priceMax.NaN? ==> r == []
    ensures priceMax.Num? ==> forall p :: p in r <==> p in products && p.price <= priceMax.v
  {
    if priceMax.Absent? then products
    else
      var keep := p => AtMost(priceMax, p);
      assert priceMax.NaN? ==> Filter(products, keep) == [] by {
        if priceMax.NaN? {
          FilterNone(products, keep);
        }
      }
      Filter(products, keep)
  }

  /** The products left after the category, flag, search and price steps. */
  function Narrowed(all: seq<Product>, cats: seq<Category>, q: ProductQuery): seq<Product> {
    var byCategory := ByCategory(all, cats, q.category);
    var byFlag := ByFlag(byCategory, q.filter);
    var bySearch := BySearch(byFlag, q.search);
    ByMaxPrice(ByMinPrice(bySearch, q.priceMin), q.priceMax)
  }

  /** The response body for a query over all products and categories. */
  function Products(all: seq<Product>, cats: seq<Category>, q: ProductQuery): seq<Product> {
    JsSliceTo(OrderBy(Narrowed(all, cats, q), q.sortBy), LimitOf(q.limit))
  }

  /** The handler: `products` is reassigned by each step in turn. */
  method ListProducts(all: seq<Product>, cats: seq<Category>, q: ProductQuery) returns (products: seq<Product>)
    ensures products == Products(all, cats, q)
  {
    var limit := if q.limit.Some? && q.limit.value != 0 then q.limit.value else 1000;
    products := all;
    if q.category != "" {
      var category := FindCategoryBySlug(cats, q.category);
      if category.Some? {
        products := Filter(products, p => InCategory(category.value, p));
      }
    }
    assert products == ByCategory(all, cats, q.category);
    ghost var byCategory := products;
    if q.filter != "" {
      if q.filter == "new" {
        products := Filter(products, IsNew);
      } else if q.filter == "trending" {
        products := Filter(products, IsTrending);
      } else if q.filter == "sale" {
        products := Filter(products, OnSale);
      } else if q.filter == "recommended" {
        products := JsSliceTo(products, 8);
      }
    }
    assert products == ByFlag(byCategory, q.filter);
    ghost var byFlag := products;
    if q.search != "" {
      var searchLower := Lower(q.search);
      products := Filter(products, p => MatchesSearch(searchLower, p));
    }
    assert products == BySearch(byFlag, q.search);
    ghost var bySearch := products;
    if !q.priceMin.Absent? {
      products := Filter(products, p => AtLeast(q.priceMin, p));
    }
    assert products == ByMinPrice(bySearch, q.priceMin);
    ghost var byMin := products;
    if !q.priceMax.Absent? {
      products := Filter(products, p => AtMost(q.priceMax, p));
    }
    assert products == ByMaxPrice(byMin, q.priceMax);
    assert products == Narrowed(all, cats, q);
    products := OrderBy(products, q.sortBy);
    products := JsSliceTo(products, limit);
  }

  /** The category and flag steps, for any flag but "recommended". */
  lemma ByFlagMembership(all: seq<Product>, cats: seq<Category>, q: ProductQuery, p: Product)
    requires q.filter != "recommended"
    ensures p in ByFlag(ByCategory(all, cats, q.category), q.filter) <==>
      p in all
      && (q.category != "" && FindCategoryBySlug(cats, q.category).Some? ==>
            p.categoryId == Some(FindCategoryBySlug(cats, q.category).value.id))
      && (q.filter == "new" ==> p.isNew)
      && (q.filter == "trending" ==> p.isTrending)
      && (q.filter == "sale" ==> OnSale(p))
  {
    var byCategory := ByCategory(all, cats, q.category);
    assert p in byCategory <==> (p in all
      && (q.category != "" && FindCategoryBySlug(cats, q.category).Some? ==>
            p.categoryId == Some(FindCategoryBySlug(cats, q.category).value.id)));
  }

  /** A product survives the narrowing steps exactly when it passes every step that
      applies; none of them adds a product. */
  lemma NarrowedMembership(all: seq<Product>, cats: seq<Category>, q: ProductQuery, p: Product)
    requires q.filter != "recommended"
    ensures p in Narrowed(all, cats, q) <==>
      p in all
      && (q.category != "" && FindCategoryBySlug(cats, q.category).Some? ==>
            p.categoryId == Some(FindCategoryBySlug(cats, q.category).value.id))
      && (q.filter == "new" ==> p.isNew)
      && (q.filter == "trending" ==> p.isTrending)
      && (q.filter == "sale" ==> OnSale(p))
      && (q.search != "" ==> MatchesSearch(Lower(q.search), p))
      && (!q.priceMin.Absent? ==> AtLeast(q.priceMin, p))
      && (!q.priceMax.Absent? ==> AtMost(q.priceMax, p))
  {
    var byFlag := ByFlag(ByCategory(all, cats, q.category), q.filter);
    var bySearch := BySearch(byFlag, q.search);
    var byMin := ByMinPrice(bySearch, q.priceMin);
    ByFlagMembership(all, cats, q, p);
    assert p in bySearch <==> p in byFlag && (q.search != "" ==> MatchesSearch(Lower(q.search), p));
    assert p in byMin <==> p in bySearch && (!q.priceMin.Absent? ==> AtLeast(q.priceMin, p));
  }

  /** Without the "recommended" cut and with a limit that cuts nothing, a product is
      in the response exactly when it passes every step that applies. */
  lemma ProductsMembership(all: seq<Product>, cats: seq<Category>, q: ProductQuery, p: Product)
    requires q.filter != "recommended"
    requires LimitOf(q.limit) >= |all|
    ensures p in Products(all, cats, q) <==>
      p in all
      && (q.category != "" && FindCategoryBySlug(cats, q.category).Some? ==>
            p.categoryId == Some(FindCategoryBySlug(cats, q.category).value.id))
      && (q.filter == "new" ==> p.isNew)
      && (q.filter == "trending" ==> p.isTrending)
      && (q.filter == "sale" ==> OnSale(p))
      && (q.search != "" ==> MatchesSearch(Lower(q.search), p))
      && (!q.priceMin.Absent? ==> AtLeast(q.priceMin, p))
      && (!q.priceMax.Absent? ==> AtMost(q.priceMax, p))
  {
    var narrowed := Narrowed(all, cats, q);
    NarrowedMembership(all, cats, q, p);
    SortKeepsMembers(narrowed, q.sortBy, p);
    assert |narrowed| <= |all|;
    assert Products(all, cats, q) == OrderBy(narrowed, q.sortBy);
  }

  /** Sorting neither adds nor drops a product, and keeps the length. */
  lemma SortKeepsMembers(s: seq<Product>, sortBy: string, p: Product)
    ensures |OrderBy(s, sortBy)| == |s|
    ensures p in OrderBy(s, sortBy) <==> p in s
  {
    OrderBySpec(s, sortBy);
    var sorted := OrderBy(s, sortBy);
    assert |multiset(sorted)| == |multiset(s)|;
    assert p in sorted <==> p in multiset(sorted);
  }

  /** The response never holds more than `limit` products when the limit is positive. */
  lemma ProductsWithinLimit(all: seq<Product>, cats: seq<Category>, q: ProductQuery)
    ensures LimitOf(q.limit) > 0 ==> |Products(all, cats, q)| <= LimitOf(q.limit)
    ensures q.limit.None? ==> |Products(all, cats, q)| <= 1000
  {
  }

  /** With a price sort the response is in price order; with the rating and
      newest sorts a missing value counts as 0. */
  lemma ProductsSorted(all: seq<Product>, cats: seq<Category>, q: ProductQuery)
    ensures var r := Products(all, cats, q);
      q.sortBy == "price-asc" ==> forall i, j :: 0 <= i < j < |r| ==> r[i].price <= r[j].price
    ensures var r := Products(all, cats, q);
      q.sortBy == "price-desc" ==> forall i, j :: 0 <= i < j < |r| ==> r[i].price >= r[j].price
    ensures var r := Products(all, cats, q);
      q.sortBy == "rating" ==> forall i, j :: 0 <= i < j < |r| ==> RatingOrZero(r[i]) >= RatingOrZero(r[j])
    ensures var r := Products(all, cats, q);
      q.sortBy == "newest" ==> forall i, j :: 0 <= i < j < |r| ==> CreatedAtOrZero(r[i]) >= CreatedAtOrZero(r[j])
  {
    var byPrice := ByMaxPrice(ByMinPrice(BySearch(ByFlag(ByCategory(all, cats, q.category), q.filter), q.search),
                                         q.priceMin), q.priceMax);
    var sorted := OrderBy(byPrice, q.sortBy);
    OrderBySpec(byPrice, q.sortBy);
    var r := Products(all, cats, q);
    assert r <= sorted;
    assert |sorted| == |byPrice| by {
      assert |multiset(sorted)| == |multiset(byPrice)|;
    }
  }

  /** A NaN price bound empties the response. */
  lemma NaNBoundEmpties(all: seq<Product>, cats: seq<Category>, q: ProductQuery)
    requires q.priceMin.NaN? || q.priceMax.NaN?
    ensures Products(all, cats, q) == []
  {
    var bySearch := BySearch(ByFlag(ByCategory(all, cats, q.category), q.filter), q.search);
    var byPrice := ByMaxPrice(ByMinPrice(bySearch, q.priceMin), q.priceMax);
    assert byPrice == [];
    OrderBySpec(byPrice, q.sortBy);
  }
}
