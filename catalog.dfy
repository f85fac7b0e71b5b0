/** The catalogue records shared by the server and the client (categories and
    products, after the `categories` and `products` tables), and the orderings
    selected by a `sortBy` key. */
module Catalog {
  import opened Wrappers
  import opened Sorting

  datatype Category = Category(id: int, name: string, slug: string)

  /** A product row. `createdAt` is a timestamp in milliseconds; `categoryName`
      is the name joined in from the category table, when there is one. */
  datatype Product = Product(
    id: int,
    name: string,
    slug: string,
    description: Option<string>,
    price: real,
    oldPrice: Option<real>,
    rating: Option<real>,
    categoryId: Option<int>,
    isNew: bool,
    isTrending: bool,
    createdAt: Option<int>,
    categoryName: Option<string>)

  /** JavaScript truthiness of an optional number: present and not zero. */
  predicate TruthyNum(x: Option<real>) {
    x.Some? && x.value != 0.0
  }

  /** JavaScript truthiness of an optional string: present and not empty. */
  predicate TruthyStr(x: Option<string>) {
    x.Some? && x.value != ""
  }

  /** `createdAt || 0` as a time value. */
  function CreatedAtOrZero(p: Product): int {
    p.createdAt.GetOr(0)
  }

  /** `rating || 0`. */
  function RatingOrZero(p: Product): real {
    p.rating.GetOr(0.0)
  }

  /** The sort keys behind the comparators `a.price - b.price`, `b.price - a.price`,
      `date(b) - date(a)` and `rating(b) - rating(a)`. */
  function PriceAscKey(p: Product): real { p.price }
  function PriceDescKey(p: Product): real { -p.price }
  function NewestKey(p: Product): real { -(CreatedAtOrZero(p) as real) }
  function RatingKey(p: Product): real { -RatingOrZero(p) }

  /** The sort keys the storefront offers besides "featured". */
  predicate IsSortKey(sortBy: string) {
    sortBy == "price-asc" || sortBy == "price-desc" || sortBy == "newest" || sortBy == "rating"
  }

  /** Orders `s` as the comparator chosen by `sortBy` does; any other key keeps the order. */
  function OrderBy(s: seq<Product>, sortBy: string): seq<Product> {
    if sortBy == "price-asc" then StableSort(s, PriceAscKey)
    else if sortBy == "price-desc" then StableSort(s, PriceDescKey)
    else if sortBy == "newest" then StableSort(s, NewestKey)
    else if sortBy == "rating" then StableSort(s, RatingKey)
    else s
  }

  /** What each sort key promises: the order asked for, the same products, and
      products that tie keep their relative order. Unknown keys change nothing. */
  lemma OrderBySpec(s: seq<Product>, sortBy: string)
    ensures multiset(OrderBy(s, sortBy)) == multiset(s)
    ensures sortBy == "price-asc" ==>
      forall i, j :: 0 <= i < j < |s| ==> OrderBy(s, sortBy)[i].price <= OrderBy(s, sortBy)[j].price
    ensures sortBy == "price-desc" ==>
      forall i, j :: 0 <= i < j < |s| ==> OrderBy(s, sortBy)[i].price >= OrderBy(s, sortBy)[j].price
    ensures sortBy == "newest" ==>
      forall i, j :: 0 <= i < j < |s| ==>
        CreatedAtOrZero(OrderBy(s, sortBy)[i]) >= CreatedAtOrZero(OrderBy(s, sortBy)[j])
    ensures sortBy == "rating" ==>
      forall i, j :: 0 <= i < j < |s| ==> RatingOrZero(OrderBy(s, sortBy)[i]) >= RatingOrZero(OrderBy(s, sortBy)[j])
    ensures !IsSortKey(sortBy) ==> OrderBy(s, sortBy) == s
  {
    var r := OrderBy(s, sortBy);
    if sortBy == "price-desc" {
      forall i, j | 0 <= i < j < |s| ensures r[i].price >= r[j].price {
        assert PriceDescKey(r[i]) <= PriceDescKey(r[j]);
      }
    } else if sortBy == "newest" {
      forall i, j | 0 <= i < j < |s| ensures CreatedAtOrZero(r[i]) >= CreatedAtOrZero(r[j]) {
        assert NewestKey(r[i]) <= NewestKey(r[j]);
      }
    } else if sortBy == "rating" {
      forall i, j | 0 <= i < j < |s| ensures RatingOrZero(r[i]) >= RatingOrZero(r[j]) {
        assert RatingKey(r[i]) <= RatingKey(r[j]);
      }
    }
  }

  /** The sort is stable: products with the same sort key keep their relative order. */
  lemma OrderByStable(s: seq<Product>, sortBy: string, v: real)
    ensures sortBy == "price-asc" ==> WithKey(OrderBy(s, sortBy), PriceAscKey, v) == WithKey(s, PriceAscKey, v)
    ensures sortBy == "price-desc" ==> WithKey(OrderBy(s, sortBy), PriceDescKey, v) == WithKey(s, PriceDescKey, v)
    ensures sortBy == "newest" ==> WithKey(OrderBy(s, sortBy), NewestKey, v) == WithKey(s, NewestKey, v)
    ensures sortBy == "rating" ==> WithKey(OrderBy(s, sortBy), RatingKey, v) == WithKey(s, RatingKey, v)
  {
    if sortBy == "price-asc" {
      StableSortIsStable(s, PriceAscKey, v);
    } else if sortBy == "price-desc" {
      StableSortIsStable(s, PriceDescKey, v);
    } else if sortBy == "newest" {
      StableSortIsStable(s, NewestKey, v);
    } else if sortBy == "rating" {
      StableSortIsStable(s, RatingKey, v);
    }
  }

  /** `categories.find(c => c.id === id)`: the first category with that id. */
  function FindCategoryById(cats: seq<Category>, id: int): (r: Option<Category>)
    ensures r.Some? ==> r.value in cats && r.value.id == id
    ensures r.None? ==> forall k :: 0 <= k < |cats| ==> cats[k].id != id
  {
    if cats == [] then None
    else if cats[0].id == id then Some(cats[0])
    else FindCategoryById(cats[1..], id)
  }

  /** The first category with the given slug (the row `WHERE slug = ?` returns). */
  function FindCategoryBySlug(cats: seq<Category>, slug: string): (r: Option<Category>)
    ensures r.Some? ==> r.value in cats && r.value.slug == slug
    ensures r.None? ==> forall k :: 0 <= k < |cats| ==> cats[k].slug != slug
  {
    if cats == [] then None
    else if cats[0].slug == slug then Some(cats[0])
    else FindCategoryBySlug(cats[1..], slug)
  }

  /** The first product with the given id (the row `WHERE id = ?` returns). */
  function FindProduct(products: seq<Product>, id: int): (r: Option<Product>)
    ensures r.Some? ==> r.value in products && r.value.id == id
    ensures r.None? ==> forall k :: 0 <= k < |products| ==> products[k].id != id
  {
    if products == [] then None
    else if products[0].id == id then Some(products[0])
    else FindProduct(products[1..], id)
  }
}
