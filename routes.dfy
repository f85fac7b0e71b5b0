/** The session-guarded handlers of `server/routes.ts` for login, the profile
    update, the cart and the wishlist, over the in-memory `Store`. The session's
    user id and the parsed request body are inputs; a body that fails its schema
    is `None`. Each handler returns the response status. */
module Routes {
  import opened Wrappers
  import opened Catalog
  import opened Storage

  /** `req.session.userId` is truthy. */
  predicate Authorized(session: Option<int>) {
    session.Some? && session.value != 0
  }

  // ---------------------------------------------------------------- auth and profile

  /** `POST /api/auth/login`: the user with that email gets a session, whatever
      the password. Returns the status and the new session user. */
  function Login(users: seq<User>, email: string, password: string): (r: (int, Option<int>))
    ensures r.0 == 401 <==> FindUserByEmail(users, email).None?
    ensures r.0 == 401 ==> r.1.None?
    ensures r.0 != 401 ==> r.0 == 200 && r.1 == Some(FindUserByEmail(users, email).value.id)
  {
    var user := FindUserByEmail(users, email);
    if user.None? then (401, None) else (200, Some(user.value.id))
  }

  /** The commented-out password check: any two passwords give the same outcome. */
  lemma LoginIgnoresPassword(users: seq<User>, email: string, p1: string, p2: string)
    ensures Login(users, email, p1) == Login(users, email, p2)
  {
  }

  /** The body `PATCH /api/user/profile` accepts. */
  datatype ProfileBody = ProfileBody(firstName: Option<string>, lastName: Option<string>,
                                     email: Option<string>, location: Option<string>)

  function PatchOf(body: ProfileBody): (patch: UserPatch)
    ensures patch.password.None? && patch.username.None? && patch.age.None?
    ensures TouchesColumns(patch) <==> body.firstName.Some? || body.lastName.Some? || body.email.Some? || body.location.Some?
  {
    UserPatch(body.firstName, body.lastName, body.email, None, body.location, None, None, None, None)
  }

  /** The profile body parsed and, when it has an email, the email is email-shaped. */
  predicate ValidProfileBody(body: Option<ProfileBody>, isEmail: string -> bool) {
    body.Some? && (body.value.email.Some? ==> isEmail(body.value.email.value))
  }

  /** `PATCH /api/user/profile`: 401 without a session, 400 when the body does not
      parse or its email is not email-shaped, 500 when the statement fails (an
      empty body) or no user has the id, 200 otherwise. */
  method UpdateProfile(store: Store, session: Option<int>, body: Option<ProfileBody>, isEmail: string -> bool)
    returns (status: int)
    modifies store
    ensures status == 401 <==> !Authorized(session)
    ensures status == 400 <==> Authorized(session) && !ValidProfileBody(body, isEmail)
    ensures status == 500 <==>
      Authorized(session) && ValidProfileBody(body, isEmail)
      && !(TouchesColumns(PatchOf(body.value)) && FindUser(old(store.users), session.value).Some?)
    ensures status == 401 || status == 400 || (body.Some? && !TouchesColumns(PatchOf(body.value))) ==> store.users == old(store.users)
    ensures status == 200 <==>
      (Authorized(session) && body.Some? && (body.value.email.Some? ==> isEmail(body.value.email.value))
       && TouchesColumns(PatchOf(body.value)) && FindUser(old(store.users), session.value).Some?)
    ensures Authorized(session) && body.Some? && (body.value.email.Some? ==> isEmail(body.value.email.value))
            && TouchesColumns(PatchOf(body.value)) ==>
              store.users == PatchRows(old(store.users), session.value, PatchOf(body.value))
    ensures store.cartItems == old(store.cartItems) && store.wishlistItems == old(store.wishlistItems)
    ensures store.products == old(store.products) && store.categories == old(store.categories)
    ensures store.preferences == old(store.preferences)
    ensures store.nextCartId == old(store.nextCartId) && store.nextWishlistId == old(store.nextWishlistId)
  {
    if !Authorized(session) {
      return 401;
    }
    if body.None? || (body.value.email.Some? && !isEmail(body.value.email.value)) {
      return 400;
    }
    var updated := store.UpdateUser(session.value, PatchOf(body.value));
    if updated.Failure? || updated.value.None? {
      PatchRowsFindUser(old(store.users), session.value, PatchOf(body.value));
      return 500;
    }
    PatchRowsFindUser(old(store.users), session.value, PatchOf(body.value));
    status := 200;
  }

  /** The row with the id is still found after patching, and only then. */
  lemma {:induction false} PatchRowsFindUser(rows: seq<User>, id: int, patch: UserPatch)
    ensures FindUser(PatchRows(rows, id, patch), id).Some? <==> FindUser(rows, id).Some?
  {
    var r := PatchRows(rows, id, patch);
    if FindUser(rows, id).Some? {
      var k :| 0 <= k < |rows| && rows[k] == FindUser(rows, id).value;
      assert r[k].id == id;
    }
    if FindUser(r, id).Some? {
      var k :| 0 <= k < |r| && r[k] == FindUser(r, id).value;
      assert rows[k].id == id;
    }
  }

  // ---------------------------------------------------------------- cart

  /** The body `POST /api/cart` accepts. */
  datatype CartBody = CartBody(productId: int, quantity: Option<int>)

  /** No user has two rows for the same product. */
  ghost predicate CartUnique(rows: seq<CartItem>) {
    forall i, j :: 0 <= i < j < |rows| ==> !(rows[i].userId == rows[j].userId && rows[i].productId == rows[j].productId)
  }

  ghost predicate WishlistUnique(rows: seq<WishlistItem>) {
    forall i, j :: 0 <= i < j < |rows| ==> !(rows[i].userId == rows[j].userId && rows[i].productId == rows[j].productId)
  }

  /** The cart rows after a successful add: the user's row for the product grows by
      `quantity || 1`, or a row with that quantity is appended under `nextId`. */
  function CartAfterAdd(rows: seq<CartItem>, userId: int, productId: int, quantity: Option<int>, nextId: int): seq<CartItem> {
    var existing := FindCartItemByProduct(rows, userId, productId);
    if existing.Some? then SetQuantity(rows, existing.value.id, existing.value.quantity + StoredQuantity(quantity))
    else rows + [CartItem(nextId, userId, productId, StoredQuantity(quantity))]
  }

  /** Adding keeps one row per user and product. */
  lemma CartAfterAddUnique(rows: seq<CartItem>, userId: int, productId: int, quantity: Option<int>, nextId: int)
    requires CartUnique(rows)
    ensures CartUnique(CartAfterAdd(rows, userId, productId, quantity, nextId))
  {
    var existing := FindCartItemByProduct(rows, userId, productId);
    if existing.Some? {
      SetQuantityKeepsUnique(rows, existing.value.id, existing.value.quantity + StoredQuantity(quantity));
    } else {
      AppendKeepsUnique(rows, CartItem(nextId, userId, productId, StoredQuantity(quantity)));
    }
  }

  /** Adding raises the user's cart count by `quantity || 1` (row ids being
      distinct) and leaves every other user's count as it was. */
  lemma CartAfterAddCount(rows: seq<CartItem>, userId: int, productId: int, quantity: Option<int>, nextId: int, other: int)
    requires DistinctCartIds(rows)
    ensures QuantityOf(CartAfterAdd(rows, userId, productId, quantity, nextId), other)
            == QuantityOf(rows, other) + (if other == userId then StoredQuantity(quantity) else 0)
  {
    var existing := FindCartItemByProduct(rows, userId, productId);
    if existing.Some? {
      var k :| 0 <= k < |rows| && rows[k] == existing.value;
      QuantityOfSetQuantity(rows, k, existing.value.quantity + StoredQuantity(quantity), other);
    } else {
      QuantityOfAppend(rows, CartItem(nextId, userId, productId, StoredQuantity(quantity)), other);
    }
  }

  /** Adding a product the user already has changes no row count. */
  lemma MergeAddsNoRow(rows: seq<CartItem>, userId: int, productId: int, quantity: Option<int>, nextId: int)
    requires FindCartItemByProduct(rows, userId, productId).Some?
    ensures |CartAfterAdd(rows, userId, productId, quantity, nextId)| == |rows|
  {
  }

  /** `POST /api/cart`: 401, 400, 404 for an unknown product, then 201 after adding
      `quantity || 1` to the user's row for the product, or creating that row. */
  method AddToCart(store: Store, session: Option<int>, body: Option<CartBody>) returns (status: int, item: Option<CartItem>)
    requires store.Valid()
    modifies store
    ensures store.Valid()
    ensures status == 401 <==> !Authorized(session)
    ensures status == 400 <==> Authorized(session) && body.None?
    ensures status == 404 <==> Authorized(session) && body.Some? && FindProduct(store.products, body.value.productId).None?
    ensures status == 201 <==> Authorized(session) && body.Some? && FindProduct(store.products, body.value.productId).Some?
    ensures status != 201 ==>
      item.None? && store.cartItems == old(store.cartItems) && store.nextCartId == old(store.nextCartId)
    ensures status == 201 ==>
      store.cartItems == CartAfterAdd(old(store.cartItems), session.value, body.value.productId, body.value.quantity,
                                      old(store.nextCartId))
      && item == FindCartItemByProduct(store.cartItems, session.value, body.value.productId)
    ensures store.users == old(store.users) && store.products == old(store.products)
    ensures store.categories == old(store.categories) && store.preferences == old(store.preferences)
    ensures store.wishlistItems == old(store.wishlistItems) && store.nextWishlistId == old(store.nextWishlistId)
  {
    item := None;
    if !Authorized(session) {
      return 401, None;
    }
    if body.None? {
      return 400, None;
    }
    var userId := session.value;
    var product := FindProduct(store.products, body.value.productId);
    if product.None? {
      return 404, None;
    }
    var existing := FindCartItemByProduct(store.cartItems, userId, body.value.productId);
    if existing.Some? {
      var added := if body.value.quantity.Some? && body.value.quantity.value != 0 then body.value.quantity.value else 1;
      item := MergeIntoCart(store, existing.value, added);
    } else {
      var created := CreateInCart(store, userId, body.value.productId, body.value.quantity);
      item := Some(created);
    }
    status := 201;
  }

  /** The merge branch of `POST /api/cart`: the existing row's quantity grows by `added`. */
  method MergeIntoCart(store: Store, existing: CartItem, added: int) returns (item: Option<CartItem>)
    requires store.Valid()
    requires FindCartItemByProduct(store.cartItems, existing.userId, existing.productId) == Some(existing)
    modifies store
    ensures store.Valid()
    ensures item == Some(existing.(quantity := existing.quantity + added))
    ensures item == FindCartItemByProduct(store.cartItems, existing.userId, existing.productId)
    ensures store.cartItems == SetQuantity(old(store.cartItems), existing.id, existing.quantity + added)
    ensures store.nextCartId == old(store.nextCartId)
    ensures store.users == old(store.users) && store.products == old(store.products)
    ensures store.categories == old(store.categories) && store.preferences == old(store.preferences)
    ensures store.wishlistItems == old(store.wishlistItems) && store.nextWishlistId == old(store.nextWishlistId)
  {
    ghost var rows := store.cartItems;
    var quantity := existing.quantity + added;
    item := store.UpdateCartItem(existing.id, Some(quantity));
    FindAfterSetQuantity(rows, existing.id, quantity);
    ghost var k :| 0 <= k < |rows| && rows[k] == existing;
    FindCartItemOfMember(rows, k);
    FindByProductAfterSetQuantity(rows, existing.userId, existing.productId, quantity);
  }

  /** The create branch of `POST /api/cart`. */
  method CreateInCart(store: Store, userId: int, productId: int, quantity: Option<int>) returns (created: CartItem)
    requires store.Valid() && FindCartItemByProduct(store.cartItems, userId, productId).None?
    modifies store
    ensures store.Valid()
    ensures created == CartItem(old(store.nextCartId), userId, productId, StoredQuantity(quantity))
    ensures store.cartItems == old(store.cartItems) + [created]
    ensures FindCartItemByProduct(store.cartItems, userId, productId) == Some(created)
    ensures store.users == old(store.users) && store.products == old(store.products)
    ensures store.categories == old(store.categories) && store.preferences == old(store.preferences)
    ensures store.wishlistItems == old(store.wishlistItems) && store.nextWishlistId == old(store.nextWishlistId)
  {
    ghost var rows := store.cartItems;
    created := store.CreateCartItem(userId, productId, quantity);
    FindByProductAppend(rows, created);
  }

  lemma SetQuantityKeepsUnique(rows: seq<CartItem>, id: int, quantity: int)
    ensures CartUnique(rows) ==> CartUnique(SetQuantity(rows, id, quantity))
  {
    var r := SetQuantity(rows, id, quantity);
    assert forall k :: 0 <= k < |rows| ==> r[k].userId == rows[k].userId && r[k].productId == rows[k].productId;
  }

  lemma AppendKeepsUnique(rows: seq<CartItem>, item: CartItem)
    requires FindCartItemByProduct(rows, item.userId, item.productId).None?
    ensures CartUnique(rows) ==> CartUnique(rows + [item])
  {
    var r := rows + [item];
    assert forall k :: 0 <= k < |rows| ==> r[k] == rows[k];
  }

  /** The path id parses and names a cart row of `userId`. */
  predicate OwnsCartRow(rows: seq<CartItem>, userId: int, id: Option<int>) {
    id.Some? && FindCartItem(rows, id.value).Some? && FindCartItem(rows, id.value).value.userId == userId
  }

  /** `PATCH /api/cart/:id`: 401; 404 when the id is not a number, the row is missing
      or another user owns it; 400 when the quantity is missing or below 1; else 200. */
  method UpdateCartQuantity(store: Store, session: Option<int>, id: Option<int>, quantity: Option<int>)
    returns (status: int, item: Option<CartItem>)
    requires store.Valid()
    modifies store
    ensures store.Valid()
    ensures status == 401 <==> !Authorized(session)
    ensures status == 404 <==> Authorized(session) && !OwnsCartRow(old(store.cartItems), session.value, id)
    ensures status == 400 <==>
      Authorized(session) && OwnsCartRow(old(store.cartItems), session.value, id) && (quantity.None? || quantity.value < 1)
    ensures status == 200 <==>
      Authorized(session) && OwnsCartRow(old(store.cartItems), session.value, id) && quantity.Some? && quantity.value >= 1
    ensures status == 200 ==>
      store.cartItems == SetQuantity(old(store.cartItems), id.value, quantity.value)
      && item == Some(FindCartItem(old(store.cartItems), id.value).value.(quantity := quantity.value))
    ensures status != 200 ==> item.None? && store.cartItems == old(store.cartItems)
    ensures store.nextCartId == old(store.nextCartId)
    ensures store.users == old(store.users) && store.products == old(store.products)
    ensures store.categories == old(store.categories) && store.preferences == old(store.preferences)
    ensures store.wishlistItems == old(store.wishlistItems) && store.nextWishlistId == old(store.nextWishlistId)
  {
    item := None;
    if !Authorized(session) {
      return 401, None;
    }
    if id.None? {
      return 404, None;
    }
    var cartItem := FindCartItem(store.cartItems, id.value);
    if cartItem.None? || cartItem.value.userId != session.value {
      return 404, None;
    }
    if quantity.None? || quantity.value < 1 {
      return 400, None;
    }
    ghost var rows := store.cartItems;
    item := store.UpdateCartItem(id.value, quantity);
    FindAfterSetQuantity(rows, id.value, quantity.value);
    status := 200;
  }

  /** `DELETE /api/cart/:id`: 401, 404 as for the update, else the row goes and 200. */
  method RemoveFromCart(store: Store, session: Option<int>, id: Option<int>) returns (status: int)
    requires store.Valid()
    modifies store
    ensures store.Valid()
    ensures status == 401 <==> !Authorized(session)
    ensures status == 404 <==> Authorized(session) && !OwnsCartRow(old(store.cartItems), session.value, id)
    ensures status == 200 <==> Authorized(session) && OwnsCartRow(old(store.cartItems), session.value, id)
    ensures status == 200 ==> store.cartItems == WithoutCartItem(old(store.cartItems), id.value)
    ensures status != 200 ==> store.cartItems == old(store.cartItems)
    ensures store.nextCartId == old(store.nextCartId)
    ensures store.users == old(store.users) && store.products == old(store.products)
    ensures store.categories == old(store.categories) && store.preferences == old(store.preferences)
    ensures store.wishlistItems == old(store.wishlistItems) && store.nextWishlistId == old(store.nextWishlistId)
  {
    if !Authorized(session) {
      return 401;
    }
    if id.None? {
      return 404;
    }
    var cartItem := FindCartItem(store.cartItems, id.value);
    if cartItem.None? || cartItem.value.userId != session.value {
      return 404;
    }
    store.DeleteCartItem(id.value);
    status := 200;
  }

  lemma {:induction false} WithoutCartItemKeepsUnique(rows: seq<CartItem>, id: int)
    requires CartUnique(rows)
    ensures CartUnique(WithoutCartItem(rows, id))
    decreases |rows|
  {
    if rows != [] {
      WithoutCartItemKeepsUnique(rows[1..], id);
      var rest := WithoutCartItem(rows[1..], id);
      forall k | 0 <= k < |rest|
        ensures !(rest[k].userId == rows[0].userId && rest[k].productId == rows[0].productId)
      {
        var j :| 0 <= j < |rows[1..]| && rows[1..][j] == rest[k];
        assert rows[j + 1] == rest[k];
      }
    }
  }

  /** `GET /api/cart/count`: 401, or the sum of the user's quantities. */
  function CartCount(store: Store, session: Option<int>): (r: (int, int))
    reads store
    ensures r.0 == 401 <==> !Authorized(session)
    ensures r.0 != 401 ==> r.0 == 200 && r.1 == QuantityOf(store.cartItems, session.value)
  {
    if !Authorized(session) then (401, 0) else (200, QuantityOf(store.cartItems, session.value))
  }

  // ---------------------------------------------------------------- wishlist

  /** `POST /api/wishlist`: 401, 400, 404 for an unknown product, 409 when the user
      already has the product (nothing created), else 201 with a new row. */
  method AddToWishlist(store: Store, session: Option<int>, productId: Option<int>) returns (status: int, item: Option<WishlistItem>)
    requires store.Valid()
    modifies store
    ensures store.Valid()
    ensures status == 401 <==> !Authorized(session)
    ensures status == 400 <==> Authorized(session) && productId.None?
    ensures status == 404 <==> Authorized(session) && productId.Some? && FindProduct(store.products, productId.value).None?
    ensures status == 409 <==>
      Authorized(session) && productId.Some? && FindProduct(store.products, productId.value).Some?
      && FindWishlistItemByProduct(old(store.wishlistItems), session.value, productId.value).Some?
    ensures status == 201 <==>
      Authorized(session) && productId.Some? && FindProduct(store.products, productId.value).Some?
      && FindWishlistItemByProduct(old(store.wishlistItems), session.value, productId.value).None?
    ensures status == 409 ==> item == FindWishlistItemByProduct(old(store.wishlistItems), session.value, productId.value)
    ensures status != 409 && status != 201 ==> item.None?
    ensures status != 201 ==> store.wishlistItems == old(store.wishlistItems) && store.nextWishlistId == old(store.nextWishlistId)
    ensures status == 201 ==>
      item == Some(WishlistItem(old(store.nextWishlistId), session.value, productId.value))
      && store.wishlistItems == old(store.wishlistItems) + [WishlistItem(old(store.nextWishlistId), session.value, productId.value)]
      && WishlistCountOf(store.wishlistItems, session.value) == WishlistCountOf(old(store.wishlistItems), session.value) + 1
    ensures store.users == old(store.users) && store.products == old(store.products)
    ensures store.categories == old(store.categories) && store.preferences == old(store.preferences)
    ensures store.cartItems == old(store.cartItems) && store.nextCartId == old(store.nextCartId)
  {
    item := None;
    if !Authorized(session) {
      return 401, None;
    }
    if productId.None? {
      return 400, None;
    }
    var product := FindProduct(store.products, productId.value);
    if product.None? {
      return 404, None;
    }
    var existing := FindWishlistItemByProduct(store.wishlistItems, session.value, productId.value);
    if existing.Some? {
      return 409, existing;
    }
    var rows := store.wishlistItems;
    var created := store.CreateWishlistItem(session.value, productId.value);
    WishlistCountAppend(rows, created, session.value);
    item := Some(created);
    status := 201;
  }

  lemma {:induction false} WishlistCountAppend(rows: seq<WishlistItem>, item: WishlistItem, userId: int)
    ensures WishlistCountOf(rows + [item], userId) == WishlistCountOf(rows, userId) + (if item.userId == userId then 1 else 0)
    decreases |rows|
  {
    if rows != [] {
      assert (rows + [item])[1..] == rows[1..] + [item];
      WishlistCountAppend(rows[1..], item, userId);
    }
  }

  /** The 409 rule keeps one wishlist row per user and product: a row is only
      appended when the user has none for the product. */
  lemma WishlistAddKeepsUnique(rows: seq<WishlistItem>, item: WishlistItem)
    requires FindWishlistItemByProduct(rows, item.userId, item.productId).None?
    requires WishlistUnique(rows)
    ensures WishlistUnique(rows + [item])
  {
    var r := rows + [item];
    assert forall k :: 0 <= k < |rows| ==> r[k] == rows[k];
  }

  /** The path id parses and names a wishlist row of `userId`. */
  predicate OwnsWishlistRow(rows: seq<WishlistItem>, userId: int, id: Option<int>) {
    id.Some? && FindWishlistItem(rows, id.value).Some? && FindWishlistItem(rows, id.value).value.userId == userId
  }

  /** `DELETE /api/wishlist/:id`: 401; 404 unless the id names a row of this user;
      else the row goes and 200. */
  method RemoveFromWishlist(store: Store, session: Option<int>, id: Option<int>) returns (status: int)
    requires store.Valid()
    modifies store
    ensures store.Valid()
    ensures status == 401 <==> !Authorized(session)
    ensures status == 404 <==> Authorized(session) && !OwnsWishlistRow(old(store.wishlistItems), session.value, id)
    ensures status == 200 <==> Authorized(session) && OwnsWishlistRow(old(store.wishlistItems), session.value, id)
    ensures status == 200 ==> store.wishlistItems == WithoutWishlistItem(old(store.wishlistItems), id.value)
    ensures status != 200 ==> store.wishlistItems == old(store.wishlistItems)
    ensures store.nextWishlistId == old(store.nextWishlistId)
    ensures store.users == old(store.users) && store.products == old(store.products)
    ensures store.categories == old(store.categories) && store.preferences == old(store.preferences)
    ensures store.cartItems == old(store.cartItems) && store.nextCartId == old(store.nextCartId)
  {
    if !Authorized(session) {
      return 401;
    }
    if id.None? {
      return 404;
    }
    var wishlistItem := FindWishlistItem(store.wishlistItems, id.value);
    if wishlistItem.None? || wishlistItem.value.userId != session.value {
      return 404;
    }
    store.DeleteWishlistItem(id.value);
    status := 200;
  }

  /** `GET /api/wishlist/count`: 401, or the number of the user's rows. */
  function WishlistCount(store: Store, session: Option<int>): (r: (int, int))
    reads store
    ensures r.0 == 401 <==> !Authorized(session)
    ensures r.0 != 401 ==> r.0 == 200 && r.1 == WishlistCountOf(store.wishlistItems, session.value)
  {
    if !Authorized(session) then (401, 0) else (200, WishlistCountOf(store.wishlistItems, session.value))
  }

  /** A user's wishlist count is the number of that user's rows, so it never exceeds
      the table size, and it is 0 for a user with no row. */
  lemma {:induction false} WishlistCountBounds(rows: seq<WishlistItem>, userId: int)
    ensures WishlistCountOf(rows, userId) <= |rows|
    ensures WishlistCountOf(rows, userId) == 0 <==> forall k :: 0 <= k < |rows| ==> rows[k].userId != userId
    decreases |rows|
  {
    if rows != [] {
      WishlistCountBounds(rows[1..], userId);
      assert forall k :: 1 <= k < |rows| ==> rows[k] == rows[1..][k - 1];
    }
  }

  /** Deleting with a product id that is no wishlist row id of the user is a 404
      that leaves the wishlist as it was. */
  lemma DeleteByForeignIdIsNotFound(rows: seq<WishlistItem>, userId: int, id: int)
    requires forall k :: 0 <= k < |rows| && rows[k].userId == userId ==> rows[k].id != id
    ensures FindWishlistItem(rows, id).None? || FindWishlistItem(rows, id).value.userId != userId
  {
  }
}
