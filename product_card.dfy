/** The product card (`client/src/components/ui/product-card.tsx`): its category
    caption, its wishlist toggle and its add-to-cart button. The discount badge is
    `Pricing.ShowsBadge`. Request outcomes are inputs. */
module ProductCard {
  import opened Wrappers
  import opened Text
  import opened Catalog
  import opened Storage
  import Routes

  /** `categoryName || (categoryId ? "Category #<id>" : "Uncategorized")`. */
  function CategoryLabel(p: Product): (caption: string)
    ensures caption != ""
    ensures TruthyStr(p.categoryName) ==> caption == p.categoryName.value
    ensures !TruthyStr(p.categoryName) && p.categoryId.Some? && p.categoryId.value != 0 ==>
      caption == "Category #" + IntToString(p.categoryId.value)
    ensures !TruthyStr(p.categoryName) && (p.categoryId.None? || p.categoryId.value == 0) ==> caption == "Uncategorized"
  {
    if TruthyStr(p.categoryName) then p.categoryName.value
    else if p.categoryId.Some? && p.categoryId.value != 0 then "Category #" + IntToString(p.categoryId.value)
    else "Uncategorized"
  }

  /** The request a wishlist click sends. */
  datatype WishlistRequest =
    | DeleteWishlist(pathId: int)   // DELETE /api/wishlist/<pathId>
    | PostWishlist(productId: int)  // POST /api/wishlist { productId }

  /** The request a click sends when the card believes the product is or is not in
      the wishlist; the DELETE carries the product's id. */
  function WishlistRequestFor(p: Product, inWishlist: bool): (req: WishlistRequest)
    ensures req.DeleteWishlist? <==> inWishlist
    ensures req.DeleteWishlist? ==> req.pathId == p.id
    ensures req.PostWishlist? ==> req.productId == p.id
  {
    if inWishlist then DeleteWishlist(p.id) else PostWishlist(p.id)
  }

  /** The flag after a click: flipped only when the request succeeded. */
  function WishlistFlagAfter(inWishlist: bool, succeeded: bool): (r: bool)
    ensures succeeded ==> r == !inWishlist
    ensures !succeeded ==> r == inWishlist
  {
    if succeeded then !inWishlist else inWishlist
  }

  /** Two successful clicks restore the flag, and after a failed click the next click
      sends the same request again. */
  lemma WishlistToggleTwice(p: Product, inWishlist: bool)
    ensures WishlistFlagAfter(WishlistFlagAfter(inWishlist, true), true) == inWishlist
    ensures WishlistRequestFor(p, WishlistFlagAfter(inWishlist, false)) == WishlistRequestFor(p, inWishlist)
    ensures WishlistRequestFor(p, WishlistFlagAfter(inWishlist, true)) != WishlistRequestFor(p, inWishlist)
  {
  }

  /** The card's DELETE names a product id where the route expects a wishlist row
      id: when that number is no row id of the user, the route answers 404 and the
      row stays, while the card, seeing an error, keeps its flag set. */
  lemma CardDeleteMissesRow(rows: seq<WishlistItem>, userId: int, p: Product)
    requires forall k :: 0 <= k < |rows| && rows[k].userId == userId ==> rows[k].id != p.id
    ensures var req := WishlistRequestFor(p, true);
      FindWishlistItem(rows, req.pathId).None? || FindWishlistItem(rows, req.pathId).value.userId != userId
    ensures WishlistFlagAfter(true, false)
  {
    Routes.DeleteByForeignIdIsNotFound(rows, userId, p.id);
  }

  /** The request the card means to send: the DELETE names the user's wishlist row
      for the product, and there is nothing to send when the user has none. */
  function IntendedWishlistRequest(rows: seq<WishlistItem>, userId: int, p: Product, inWishlist: bool): (req: Option<WishlistRequest>)
    ensures !inWishlist ==> req == Some(PostWishlist(p.id))
    ensures inWishlist ==> (req.Some? <==> FindWishlistItemByProduct(rows, userId, p.id).Some?)
  {
    if !inWishlist then Some(PostWishlist(p.id))
    else match FindWishlistItemByProduct(rows, userId, p.id)
      case Some(row) => Some(DeleteWishlist(row.id))
      case None => None
  }

  /** The intended DELETE names a row the route lets this user remove, so it answers
      200, and afterwards the user has no row for the product. */
  lemma IntendedDeleteRemovesProduct(rows: seq<WishlistItem>, userId: int, p: Product)
    requires DistinctWishlistIds(rows) && Routes.WishlistUnique(rows)
    requires FindWishlistItemByProduct(rows, userId, p.id).Some?
    ensures var req := IntendedWishlistRequest(rows, userId, p, true);
      req.Some? && req.value.DeleteWishlist?
      && Routes.OwnsWishlistRow(rows, userId, Some(req.value.pathId))
      && FindWishlistItemByProduct(WithoutWishlistItem(rows, req.value.pathId), userId, p.id).None?
  {
    var e := FindWishlistItemByProduct(rows, userId, p.id).value;
    var i :| 0 <= i < |rows| && rows[i] == e;
    FindWishlistItemOfMember(rows, i);
    assert forall j :: 0 <= j < |rows| && rows[j].userId == userId && rows[j].productId == p.id ==> j == i;
  }

  /** The add-to-cart body `{ productId }`: no quantity, so the server stores 1 or
      raises an existing row by 1. */
  function AddToCartBody(p: Product): (body: Routes.CartBody)
    ensures body.productId == p.id && StoredQuantity(body.quantity) == 1
  {
    Routes.CartBody(p.id, None)
  }

  class Card {
    const product: Product
    var isInWishlist: bool
    var isAddingToCart: bool

    constructor(product: Product)
      ensures this.product == product && !isInWishlist && !isAddingToCart
    {
      this.product := product;
      isInWishlist := false;
      isAddingToCart := false;
    }

    /** `handleToggleWishlist` with the request's outcome given. */
    method HandleToggleWishlist(succeeded: bool) returns (request: WishlistRequest)
      modifies this
      ensures request == WishlistRequestFor(product, old(isInWishlist))
      ensures isInWishlist == WishlistFlagAfter(old(isInWishlist), succeeded)
      ensures isAddingToCart == old(isAddingToCart)
    {
      if isInWishlist {
        request := DeleteWishlist(product.id);
      } else {
        request := PostWishlist(product.id);
      }
      if succeeded {
        isInWishlist := !isInWishlist;
      }
    }

    /** `handleAddToCart`: busy while the request is out, free afterwards, whatever
        its outcome. */
    method HandleAddToCart() returns (body: Routes.CartBody, busyDuring: bool)
      modifies this
      ensures body == AddToCartBody(product)
      ensures busyDuring && !isAddingToCart
      ensures isInWishlist == old(isInWishlist)
    {
      isAddingToCart := true;
      body := Routes.CartBody(product.id, None);
      busyDuring := isAddingToCart;
      isAddingToCart := false;
    }
  }
}
