/** The server's data access layer (`server/storage.ts`) over an in-memory store:
    each table is a sequence of rows in row-id order, and the create methods hand
    out increasing ids. SQL text is modelled only where the source builds it
    (`updateUser`); a statement the database rejects is a `Failure`. */
module Storage {
  import opened Wrappers
  import opened Seqs
  import opened Catalog

  datatype Result<T> = Success(value: T) | Failure(error: string)

  /** A `users` row. */
  datatype User = User(
    id: int,
    username: string,
    email: string,
    password: string,
    firstName: Option<string>,
    lastName: Option<string>,
    location: Option<string>,
    age: Option<int>,
    gender: Option<string>,
    customerSegment: Option<string>)

  /** `Partial<User>`: the keys the caller passes, each `None` when undefined. */
  datatype UserPatch = UserPatch(
    firstName: Option<string>,
    lastName: Option<string>,
    email: Option<string>,
    password: Option<string>,
    location: Option<string>,
    username: Option<string>,
    age: Option<int>,
    gender: Option<string>,
    customerSegment: Option<string>)

  datatype CartItem = CartItem(id: int, userId: int, productId: int, quantity: int)
  datatype WishlistItem = WishlistItem(id: int, userId: int, productId: int)

  /** A `user_preferences` row; `preferredCategories` is `None` for a NULL column. */
  datatype PreferenceRow = PreferenceRow(id: int, userId: int, preferredCategories: Option<seq<string>>)
  datatype UserPreference = UserPreference(id: int, userId: int, preferredCategories: seq<string>)

  /** A bound parameter of a statement. */
  datatype SqlValue = Text(s: string) | Int(i: int)

  // ---------------------------------------------------------------- updateUser's statement

  /** The one-element list for a defined field, the empty list otherwise. */
  function Present<T, U>(field: Option<T>, x: U): seq<U> {
    if field.Some? then [x] else []
  }

  /** The `SET` clauses for the defined fields, in the order the source tests them. */
  function SetClauses(patch: UserPatch): seq<string> {
    Present(patch.firstName, "first_name = ?")
    + Present(patch.lastName, "last_name = ?")
    + Present(patch.email, "email = ?")
    + Present(patch.password, "password = ?")
    + Present(patch.location, "location = ?")
  }

  function TextOf(field: Option<string>): SqlValue {
    Text(field.GetOr(""))
  }

  /** The bound values: one per clause, then the id for `WHERE id = ?`. */
  function BoundValues(patch: UserPatch, id: int): seq<SqlValue> {
    Present(patch.firstName, TextOf(patch.firstName))
    + Present(patch.lastName, TextOf(patch.lastName))
    + Present(patch.email, TextOf(patch.email))
    + Present(patch.password, TextOf(patch.password))
    + Present(patch.location, TextOf(patch.location))
    + [Int(id)]
  }

  predicate TouchesColumns(patch: UserPatch) {
    patch.firstName.Some? || patch.lastName.Some? || patch.email.Some? || patch.password.Some?
    || patch.location.Some?
  }

  /** The statement's placeholders and values line up: one value per clause and the
      id last; the clause list is empty exactly when none of the five fields is
      defined, and username, age, gender and segment never reach it. */
  lemma UpdateStatementSpec(patch: UserPatch, id: int)
    ensures |BoundValues(patch, id)| == |SetClauses(patch)| + 1
    ensures BoundValues(patch, id)[|SetClauses(patch)|] == Int(id)
    ensures SetClauses(patch) == [] <==> !TouchesColumns(patch)
    ensures SetClauses(patch) == SetClauses(patch.(username := None, age := None, gender := None, customerSegment := None))
    ensures patch.firstName.Some? ==> SetClauses(patch)[0] == "first_name = ?" && BoundValues(patch, id)[0] == Text(patch.firstName.value)
  {
  }

  /** The `sets`/`values` pushes of `updateUser`. */
  method BuildUserUpdate(id: int, patch: UserPatch) returns (sets: seq<string>, values: seq<SqlValue>)
    ensures sets == SetClauses(patch) && values == BoundValues(patch, id)
  {
    sets := [];
    values := [];
    if patch.firstName.Some? {
      sets := sets + ["first_name = ?"];
      values := values + [Text(patch.firstName.value)];
    }
    assert sets == Present(patch.firstName, "first_name = ?");
    assert values == Present(patch.firstName, TextOf(patch.firstName));
    if patch.lastName.Some? {
      sets := sets + ["last_name = ?"];
      values := values + [Text(patch.lastName.value)];
    }
    assert sets == Present(patch.firstName, "first_name = ?") + Present(patch.lastName, "last_name = ?");
    assert values == Present(patch.firstName, TextOf(patch.firstName)) + Present(patch.lastName, TextOf(patch.lastName));
    ghost var sets2, values2 := sets, values;
    if patch.email.Some? {
      sets := sets + ["email = ?"];
      values := values + [Text(patch.email.value)];
    }
    assert sets == sets2 + Present(patch.email, "email = ?");
    assert values == values2 + Present(patch.email, TextOf(patch.email));
    ghost var sets3, values3 := sets, values;
    if patch.password.Some? {
      sets := sets + ["password = ?"];
      values := values + [Text(patch.password.value)];
    }
    assert sets == sets3 + Present(patch.password, "password = ?");
    assert values == values3 + Present(patch.password, TextOf(patch.password));
    ghost var sets4, values4 := sets, values;
    if patch.location.Some? {
      sets := sets + ["location = ?"];
      values := values + [Text(patch.location.value)];
    }
    assert sets == sets4 + Present(patch.location, "location = ?");
    assert values == values4 + Present(patch.location, TextOf(patch.location));
    values := values + [Int(id)];
  }

  /** What the statement does to one row. */
  function ApplyPatch(u: User, patch: UserPatch): (v: User)
    ensures v.id == u.id && v.username == u.username && v.age == u.age && v.gender == u.gender
            && v.customerSegment == u.customerSegment
    ensures !TouchesColumns(patch) ==> v == u
  {
    u.(firstName := if patch.firstName.Some? then patch.firstName else u.firstName,
       lastName := if patch.lastName.Some? then patch.lastName else u.lastName,
       email := patch.email.GetOr(u.email),
       password := patch.password.GetOr(u.password),
       location := if patch.location.Some? then patch.location else u.location)
  }

  function PatchRows(rows: seq<User>, id: int, patch: UserPatch): (r: seq<User>)
    ensures |r| == |rows|
    ensures forall k :: 0 <= k < |rows| ==> r[k] == if rows[k].id == id then ApplyPatch(rows[k], patch) else rows[k]
  {
    if rows == [] then []
    else [if rows[0].id == id then ApplyPatch(rows[0], patch) else rows[0]] + PatchRows(rows[1..], id, patch)
  }

  function FindUser(rows: seq<User>, id: int): (r: Option<User>)
    ensures r.Some? ==> r.value in rows && r.value.id == id
    ensures r.None? ==> forall k :: 0 <= k < |rows| ==> rows[k].id != id
  {
    if rows == [] then None else if rows[0].id == id then Some(rows[0]) else FindUser(rows[1..], id)
  }

  function FindUserByEmail(rows: seq<User>, email: string): (r: Option<User>)
    ensures r.Some? ==> r.value in rows && r.value.email == email
    ensures r.None? ==> forall k :: 0 <= k < |rows| ==> rows[k].email != email
  {
    if rows == [] then None else if rows[0].email == email then Some(rows[0]) else FindUserByEmail(rows[1..], email)
  }

  // ---------------------------------------------------------------- cart and wishlist rows

  /** `quantity || 1`: a missing or zero quantity is stored as 1. */
  function StoredQuantity(quantity: Option<int>): (n: int)
    ensures n != 0
    ensures quantity.Some? && quantity.value != 0 ==> n == quantity.value
    ensures quantity.None? || quantity.value == 0 ==> n == 1
  {
    if quantity.Some? && quantity.value != 0 then quantity.value else 1
  }

  function FindCartItem(rows: seq<CartItem>, id: int): (r: Option<CartItem>)
    ensures r.Some? ==> r.value in rows && r.value.id == id
    ensures r.None? ==> forall k :: 0 <= k < |rows| ==> rows[k].id != id
  {
    if rows == [] then None else if rows[0].id == id then Some(rows[0]) else FindCartItem(rows[1..], id)
  }

  function FindCartItemByProduct(rows: seq<CartItem>, userId: int, productId: int): (r: Option<CartItem>)
    ensures r.Some? ==> r.value in rows && r.value.userId == userId && r.value.productId == productId
    ensures r.None? ==> forall k :: 0 <= k < |rows| ==> !(rows[k].userId == userId && rows[k].productId == productId)
  {
    if rows == [] then None
    else if rows[0].userId == userId && rows[0].productId == productId then Some(rows[0])
    else FindCartItemByProduct(rows[1..], userId, productId)
  }

  /** `UPDATE cart_items SET quantity = ? WHERE id = ?` on the rows. */
  function SetQuantity(rows: seq<CartItem>, id: int, quantity: int): seq<CartItem> {
    seq(|rows|, k requires 0 <= k < |rows| => if rows[k].id == id then rows[k].(quantity := quantity) else rows[k])
  }

  /** The row re-read after `updateCartItem`: the found row with the new quantity. */
  function WithQuantity(found: Option<CartItem>, quantity: Option<int>): Option<CartItem> {
    if found.Some? && quantity.Some? then Some(found.value.(quantity := quantity.value)) else found
  }

  /** Re-reading a row after setting its quantity gives that row with the new
      quantity, and nothing when there was no such row. */
  lemma {:induction false} FindAfterSetQuantity(rows: seq<CartItem>, id: int, quantity: int)
    ensures FindCartItem(SetQuantity(rows, id, quantity), id) == WithQuantity(FindCartItem(rows, id), Some(quantity))
    decreases |rows|
  {
    if rows != [] {
      var r := SetQuantity(rows, id, quantity);
      assert r[1..] == SetQuantity(rows[1..], id, quantity);
      FindAfterSetQuantity(rows[1..], id, quantity);
    }
  }

  /** Setting the quantity of the first row of a user and product keeps it the
      first row of that user and product, now with the new quantity. */
  lemma {:induction false} FindByProductAfterSetQuantity(rows: seq<CartItem>, userId: int, productId: int, quantity: int)
    requires FindCartItemByProduct(rows, userId, productId).Some?
    ensures var e := FindCartItemByProduct(rows, userId, productId).value;
      FindCartItemByProduct(SetQuantity(rows, e.id, quantity), userId, productId) == Some(e.(quantity := quantity))
    decreases |rows|
  {
    var e := FindCartItemByProduct(rows, userId, productId).value;
    if !(rows[0].userId == userId && rows[0].productId == productId) {
      assert SetQuantity(rows, e.id, quantity)[1..] == SetQuantity(rows[1..], e.id, quantity);
      FindByProductAfterSetQuantity(rows[1..], userId, productId, quantity);
    }
  }

  /** With distinct ids, every row is the one its id finds. */
  lemma {:induction false} FindCartItemOfMember(rows: seq<CartItem>, k: nat)
    requires k < |rows| && DistinctCartIds(rows)
    ensures FindCartItem(rows, rows[k].id) == Some(rows[k])
    decreases k
  {
    if k > 0 {
      assert CartIdAt(rows, 0) != CartIdAt(rows, k);
      DistinctCartIdsTail(rows);
      FindCartItemOfMember(rows[1..], k - 1);
    }
  }

  /** With distinct ids, every wishlist row is the one its id finds. */
  lemma {:induction false} FindWishlistItemOfMember(rows: seq<WishlistItem>, k: nat)
    requires k < |rows| && DistinctWishlistIds(rows)
    ensures FindWishlistItem(rows, rows[k].id) == Some(rows[k])
    decreases k
  {
    if k > 0 {
      assert WishlistIdAt(rows, 0) != WishlistIdAt(rows, k);
      DistinctWishlistIdsTail(rows);
      FindWishlistItemOfMember(rows[1..], k - 1);
    }
  }

  /** A row appended for a user and product that had none is the one found for them. */
  lemma {:induction false} FindByProductAppend(rows: seq<CartItem>, item: CartItem)
    requires FindCartItemByProduct(rows, item.userId, item.productId).None?
    ensures FindCartItemByProduct(rows + [item], item.userId, item.productId) == Some(item)
    decreases |rows|
  {
    if rows != [] {
      assert (rows + [item])[1..] == rows[1..] + [item];
      FindByProductAppend(rows[1..], item);
    }
  }

  /** The sum of the quantities of `userId`'s rows. */
  function QuantityOf(rows: seq<CartItem>, userId: int): int {
    if rows == [] then 0
    else (if rows[0].userId == userId then rows[0].quantity else 0) + QuantityOf(rows[1..], userId)
  }

  /** The number of `userId`'s rows. */
  function WishlistCountOf(rows: seq<WishlistItem>, userId: int): nat {
    if rows == [] then 0
    else (if rows[0].userId == userId then 1 else 0) + WishlistCountOf(rows[1..], userId)
  }

  /** The id of row `i`. Distinctness is stated on it so that the pairwise fact is
      used only where a proof names the two rows. */
  function CartIdAt(rows: seq<CartItem>, i: int): int
    requires 0 <= i < |rows|
  {
    rows[i].id
  }

  function WishlistIdAt(rows: seq<WishlistItem>, i: int): int
    requires 0 <= i < |rows|
  {
    rows[i].id
  }

  predicate DistinctCartIds(rows: seq<CartItem>) {
    forall i, j :: 0 <= i < j < |rows| ==> CartIdAt(rows, i) != CartIdAt(rows, j)
  }

  predicate DistinctWishlistIds(rows: seq<WishlistItem>) {
    forall i, j :: 0 <= i < j < |rows| ==> WishlistIdAt(rows, i) != WishlistIdAt(rows, j)
  }

  /** Every row id is below `next`, the next id to hand out. */
  predicate CartIdsBelow(rows: seq<CartItem>, next: int) {
    forall k :: 0 <= k < |rows| ==> CartIdAt(rows, k) < next
  }

  predicate WishlistIdsBelow(rows: seq<WishlistItem>, next: int) {
    forall k :: 0 <= k < |rows| ==> WishlistIdAt(rows, k) < next
  }

  lemma DistinctCartIdsTail(rows: seq<CartItem>)
    requires rows != [] && DistinctCartIds(rows)
    ensures DistinctCartIds(rows[1..])
    ensures forall j :: 0 <= j < |rows[1..]| ==> rows[1..][j].id != rows[0].id
  {
    forall i, j | 0 <= i < j < |rows[1..]| ensures CartIdAt(rows[1..], i) != CartIdAt(rows[1..], j) {
      assert CartIdAt(rows, i + 1) != CartIdAt(rows, j + 1);
    }
    forall j | 0 <= j < |rows[1..]| ensures rows[1..][j].id != rows[0].id {
      assert CartIdAt(rows, 0) != CartIdAt(rows, j + 1);
    }
  }

  lemma DistinctWishlistIdsTail(rows: seq<WishlistItem>)
    requires rows != [] && DistinctWishlistIds(rows)
    ensures DistinctWishlistIds(rows[1..])
    ensures forall j :: 0 <= j < |rows[1..]| ==> rows[1..][j].id != rows[0].id
  {
    forall i, j | 0 <= i < j < |rows[1..]| ensures WishlistIdAt(rows[1..], i) != WishlistIdAt(rows[1..], j) {
      assert WishlistIdAt(rows, i + 1) != WishlistIdAt(rows, j + 1);
    }
    forall j | 0 <= j < |rows[1..]| ensures rows[1..][j].id != rows[0].id {
      assert WishlistIdAt(rows, 0) != WishlistIdAt(rows, j + 1);
    }
  }

  /** A row whose id is above every id present keeps the ids distinct. */
  lemma AppendKeepsDistinctCart(rows: seq<CartItem>, item: CartItem)
    requires DistinctCartIds(rows) && CartIdsBelow(rows, item.id)
    ensures DistinctCartIds(rows + [item]) && CartIdsBelow(rows + [item], item.id + 1)
  {
    var r := rows + [item];
    forall i, j | 0 <= i < j < |r| ensures CartIdAt(r, i) != CartIdAt(r, j) {
      if j < |rows| {
        assert CartIdAt(rows, i) != CartIdAt(rows, j);
      } else {
        assert CartIdAt(rows, i) < item.id;
      }
    }
    forall k | 0 <= k < |r| ensures CartIdAt(r, k) < item.id + 1 {
      if k < |rows| {
        assert CartIdAt(rows, k) < item.id;
      }
    }
  }

  lemma AppendKeepsDistinctWishlist(rows: seq<WishlistItem>, item: WishlistItem)
    requires DistinctWishlistIds(rows) && WishlistIdsBelow(rows, item.id)
    ensures DistinctWishlistIds(rows + [item]) && WishlistIdsBelow(rows + [item], item.id + 1)
  {
    var r := rows + [item];
    forall i, j | 0 <= i < j < |r| ensures WishlistIdAt(r, i) != WishlistIdAt(r, j) {
      if j < |rows| {
        assert WishlistIdAt(rows, i) != WishlistIdAt(rows, j);
      } else {
        assert WishlistIdAt(rows, i) < item.id;
      }
    }
    forall k | 0 <= k < |r| ensures WishlistIdAt(r, k) < item.id + 1 {
      if k < |rows| {
        assert WishlistIdAt(rows, k) < item.id;
      }
    }
  }

  /** Setting a quantity keeps every row's id. */
  lemma SetQuantityKeepsDistinct(rows: seq<CartItem>, id: int, quantity: int, next: int)
    requires DistinctCartIds(rows) && CartIdsBelow(rows, next)
    ensures DistinctCartIds(SetQuantity(rows, id, quantity)) && CartIdsBelow(SetQuantity(rows, id, quantity), next)
  {
    var r := SetQuantity(rows, id, quantity);
    forall i, j | 0 <= i < j < |r| ensures CartIdAt(r, i) != CartIdAt(r, j) {
      assert CartIdAt(rows, i) != CartIdAt(rows, j);
    }
    forall k | 0 <= k < |r| ensures CartIdAt(r, k) < next {
      assert CartIdAt(rows, k) < next;
    }
  }

  /** Appending a row adds its quantity to its owner's total. */
  lemma {:induction false} QuantityOfAppend(rows: seq<CartItem>, item: CartItem, userId: int)
    ensures QuantityOf(rows + [item], userId) == QuantityOf(rows, userId) + (if item.userId == userId then item.quantity else 0)
    decreases |rows|
  {
    if rows != [] {
      assert (rows + [item])[1..] == rows[1..] + [item];
      QuantityOfAppend(rows[1..], item, userId);
    }
  }

  /** Changing the quantity of one row (ids being distinct) changes its owner's
      total by the difference and no other user's total. */
  lemma {:induction false} QuantityOfSetQuantity(rows: seq<CartItem>, k: nat, quantity: int, userId: int)
    requires k < |rows| && DistinctCartIds(rows)
    ensures QuantityOf(SetQuantity(rows, rows[k].id, quantity), userId) ==
      QuantityOf(rows, userId) + (if rows[k].userId == userId then quantity - rows[k].quantity else 0)
    decreases |rows|
  {
    var id := rows[k].id;
    var r := SetQuantity(rows, id, quantity);
    assert r[1..] == SetQuantity(rows[1..], id, quantity);
    DistinctCartIdsTail(rows);
    if k == 0 {
      QuantityOfUnchanged(rows[1..], id, quantity, userId);
    } else {
      assert rows[k] == rows[1..][k - 1];
      QuantityOfSetQuantity(rows[1..], k - 1, quantity, userId);
    }
  }

  lemma {:induction false} QuantityOfUnchanged(rows: seq<CartItem>, id: int, quantity: int, userId: int)
    requires forall j :: 0 <= j < |rows| ==> rows[j].id != id
    ensures SetQuantity(rows, id, quantity) == rows
  {
    var r := SetQuantity(rows, id, quantity);
    assert forall j :: 0 <= j < |rows| ==> r[j] == rows[j];
  }

  function FindWishlistItem(rows: seq<WishlistItem>, id: int): (r: Option<WishlistItem>)
    ensures r.Some? ==> r.value in rows && r.value.id == id
    ensures r.None? ==> forall k :: 0 <= k < |rows| ==> rows[k].id != id
  {
    if rows == [] then None else if rows[0].id == id then Some(rows[0]) else FindWishlistItem(rows[1..], id)
  }

  function FindWishlistItemByProduct(rows: seq<WishlistItem>, userId: int, productId: int): (r: Option<WishlistItem>)
    ensures r.Some? ==> r.value in rows && r.value.userId == userId && r.value.productId == productId
    ensures r.None? ==> forall k :: 0 <= k < |rows| ==> !(rows[k].userId == userId && rows[k].productId == productId)
  {
    if rows == [] then None
    else if rows[0].userId == userId && rows[0].productId == productId then Some(rows[0])
    else FindWishlistItemByProduct(rows[1..], userId, productId)
  }

  function WithoutCartItem(rows: seq<CartItem>, id: int): (r: seq<CartItem>)
    ensures forall k :: 0 <= k < |r| ==> r[k] in rows && r[k].id != id
    ensures forall k :: 0 <= k < |rows| && rows[k].id != id ==> rows[k] in r
  {
    if rows == [] then []
    else (if rows[0].id == id then [] else [rows[0]]) + WithoutCartItem(rows[1..], id)
  }

  function WithoutWishlistItem(rows: seq<WishlistItem>, id: int): (r: seq<WishlistItem>)
    ensures |r| <= |rows|
    ensures forall k :: 0 <= k < |r| ==> r[k] in rows && r[k].id != id
    ensures forall k :: 0 <= k < |rows| && rows[k].id != id ==> rows[k] in r
  {
    if rows == [] then []
    else (if rows[0].id == id then [] else [rows[0]]) + WithoutWishlistItem(rows[1..], id)
  }

  /** Deleting a cart row keeps the remaining rows in their order. */
  lemma {:induction false} WithoutCartItemKeepsOrder(rows: seq<CartItem>, id: int)
    ensures IsSubsequence(WithoutCartItem(rows, id), rows)
    decreases |rows|
  {
    if rows != [] {
      WithoutCartItemKeepsOrder(rows[1..], id);
      var rest := WithoutCartItem(rows[1..], id);
      if rows[0].id == id {
        assert WithoutCartItem(rows, id) == rest;
      } else {
        assert ([rows[0]] + rest)[1..] == rest;
      }
    }
  }

  /** Deleting a wishlist row keeps the remaining rows in their order. */
  lemma {:induction false} WithoutWishlistItemKeepsOrder(rows: seq<WishlistItem>, id: int)
    ensures IsSubsequence(WithoutWishlistItem(rows, id), rows)
    decreases |rows|
  {
    if rows != [] {
      WithoutWishlistItemKeepsOrder(rows[1..], id);
      var rest := WithoutWishlistItem(rows[1..], id);
      if rows[0].id == id {
        assert WithoutWishlistItem(rows, id) == rest;
      } else {
        assert ([rows[0]] + rest)[1..] == rest;
      }
    }
  }

  function FindPreference(rows: seq<PreferenceRow>, userId: int): (r: Option<PreferenceRow>)
    ensures r.Some? ==> r.value in rows && r.value.userId == userId
    ensures r.None? ==> forall k :: 0 <= k < |rows| ==> rows[k].userId != userId
  {
    if rows == [] then None else if rows[0].userId == userId then Some(rows[0]) else FindPreference(rows[1..], userId)
  }

  /** `getUserPreferences`: undefined without a row; a NULL list reads as []. */
  function UserPreferences(rows: seq<PreferenceRow>, userId: int): (r: Option<UserPreference>)
    ensures r.None? <==> forall k :: 0 <= k < |rows| ==> rows[k].userId != userId
    ensures r.Some? ==> r.value.userId == userId
    ensures r.Some? ==> (exists k :: 0 <= k < |rows| && rows[k].userId == userId && rows[k].id == r.value.id &&
                           r.value.preferredCategories == rows[k].preferredCategories.GetOr([]))
  {
    var row := FindPreference(rows, userId);
    if row.None? then None
    else Some(UserPreference(row.value.id, row.value.userId, row.value.preferredCategories.GetOr([])))
  }

  // ---------------------------------------------------------------- the store

  class Store {
    var users: seq<User>
    var categories: seq<Category>
    var products: seq<Product>
    var cartItems: seq<CartItem>
    var wishlistItems: seq<WishlistItem>
    var preferences: seq<PreferenceRow>
    var nextCartId: int
    var nextWishlistId: int

    /** Row ids are distinct and below the next id to hand out. */
    ghost predicate Valid()
      reads this
    {
      DistinctCartIds(cartItems) && DistinctWishlistIds(wishlistItems)
      && CartIdsBelow(cartItems, nextCartId) && WishlistIdsBelow(wishlistItems, nextWishlistId)
    }

    constructor(users: seq<User>, categories: seq<Category>, products: seq<Product>, preferences: seq<PreferenceRow>)
      ensures Valid()
      ensures this.users == users && this.categories == categories && this.products == products
      ensures this.preferences == preferences && cartItems == [] && wishlistItems == []
    {
      this.users := users;
      this.categories := categories;
      this.products := products;
      this.preferences := preferences;
      cartItems := [];
      wishlistItems := [];
      nextCartId := 1;
      nextWishlistId := 1;
    }

    function GetUser(id: int): Option<User>
      reads this
    {
      FindUser(users, id)
    }

    function GetProduct(id: int): Option<Product>
      reads this
    {
      FindProduct(products, id)
    }

    function GetCartItem(id: int): Option<CartItem>
      reads this
    {
      FindCartItem(cartItems, id)
    }

    function GetWishlistItem(id: int): Option<WishlistItem>
      reads this
    {
      FindWishlistItem(wishlistItems, id)
    }

    /** `updateUser`: the built statement fails when its SET list is empty;
        otherwise the row with that id is patched and re-read. */
    method UpdateUser(id: int, patch: UserPatch) returns (r: Result<Option<User>>)
      modifies this
      ensures !TouchesColumns(patch) ==> r.Failure? && users == old(users)
      ensures TouchesColumns(patch) ==> users == PatchRows(old(users), id, patch) && r == Success(FindUser(users, id))
      ensures cartItems == old(cartItems) && wishlistItems == old(wishlistItems) && products == old(products)
      ensures categories == old(categories) && preferences == old(preferences)
      ensures nextCartId == old(nextCartId) && nextWishlistId == old(nextWishlistId)
    {
      var sets, values := BuildUserUpdate(id, patch);
      if sets == [] {
        return Failure("near \"WHERE\": syntax error");
      }
      users := PatchRows(users, id, patch);
      r := Success(FindUser(users, id));
    }

    /** `createCartItem`: a new row with the next id and `quantity || 1`. */
    method CreateCartItem(userId: int, productId: int, quantity: Option<int>) returns (item: CartItem)
      requires Valid()
      modifies this
      ensures Valid()
      ensures item == CartItem(old(nextCartId), userId, productId, StoredQuantity(quantity))
      ensures cartItems == old(cartItems) + [item] && nextCartId == old(nextCartId) + 1
      ensures wishlistItems == old(wishlistItems) && nextWishlistId == old(nextWishlistId)
      ensures users == old(users) && products == old(products) && categories == old(categories)
      ensures preferences == old(preferences)
    {
      item := CartItem(nextCartId, userId, productId, if quantity.Some? && quantity.value != 0 then quantity.value else 1);
      AppendKeepsDistinctCart(cartItems, item);
      cartItems := cartItems + [item];
      nextCartId := nextCartId + 1;
    }

    /** `updateCartItem`: writes only when a quantity is given, then re-reads the row. */
    method UpdateCartItem(id: int, quantity: Option<int>) returns (item: Option<CartItem>)
      requires Valid()
      modifies this
      ensures Valid()
      ensures quantity.None? ==> cartItems == old(cartItems)
      ensures quantity.Some? ==> cartItems == SetQuantity(old(cartItems), id, quantity.value)
      ensures item == FindCartItem(cartItems, id)
      ensures wishlistItems == old(wishlistItems) && nextCartId == old(nextCartId)
      ensures nextWishlistId == old(nextWishlistId)
      ensures users == old(users) && products == old(products) && categories == old(categories)
      ensures preferences == old(preferences)
    {
      if quantity.Some? {
        SetQuantityKeepsDistinct(cartItems, id, quantity.value, nextCartId);
        cartItems := SetQuantity(cartItems, id, quantity.value);
      }
      item := FindCartItem(cartItems, id);
    }

    /** `deleteCartItem`. */
    method DeleteCartItem(id: int)
      requires Valid()
      modifies this
      ensures Valid()
      ensures cartItems == WithoutCartItem(old(cartItems), id)
      ensures wishlistItems == old(wishlistItems) && nextCartId == old(nextCartId)
      ensures nextWishlistId == old(nextWishlistId)
      ensures users == old(users) && products == old(products) && categories == old(categories)
      ensures preferences == old(preferences)
    {
      WithoutCartItemKeepsDistinct(cartItems, id);
      WithoutCartItemKeepsBelow(cartItems, id, nextCartId);
      cartItems := WithoutCartItem(cartItems, id);
    }

    /** `createWishlistItem`. */
    method CreateWishlistItem(userId: int, productId: int) returns (item: WishlistItem)
      requires Valid()
      modifies this
      ensures Valid()
      ensures item == WishlistItem(old(nextWishlistId), userId, productId)
      ensures wishlistItems == old(wishlistItems) + [item] && nextWishlistId == old(nextWishlistId) + 1
      ensures cartItems == old(cartItems) && nextCartId == old(nextCartId)
      ensures users == old(users) && products == old(products) && categories == old(categories)
      ensures preferences == old(preferences)
    {
      item := WishlistItem(nextWishlistId, userId, productId);
      AppendKeepsDistinctWishlist(wishlistItems, item);
      wishlistItems := wishlistItems + [item];
      nextWishlistId := nextWishlistId + 1;
    }

    /** `deleteWishlistItem`. */
    method DeleteWishlistItem(id: int)
      requires Valid()
      modifies this
      ensures Valid()
      ensures wishlistItems == WithoutWishlistItem(old(wishlistItems), id)
      ensures cartItems == old(cartItems) && nextCartId == old(nextCartId)
      ensures nextWishlistId == old(nextWishlistId)
      ensures users == old(users) && products == old(products) && categories == old(categories)
      ensures preferences == old(preferences)
    {
      WithoutWishlistItemKeepsDistinct(wishlistItems, id);
      WithoutWishlistItemKeepsBelow(wishlistItems, id, nextWishlistId);
      wishlistItems := WithoutWishlistItem(wishlistItems, id);
    }
  }

  lemma {:induction false} WithoutCartItemKeepsDistinct(rows: seq<CartItem>, id: int)
    requires DistinctCartIds(rows)
    ensures DistinctCartIds(WithoutCartItem(rows, id))
    ensures forall k :: 0 <= k < |WithoutCartItem(rows, id)| ==> WithoutCartItem(rows, id)[k] in rows
    decreases |rows|
  {
    if rows != [] {
      DistinctCartIdsTail(rows);
      WithoutCartItemKeepsDistinct(rows[1..], id);
      var rest := WithoutCartItem(rows[1..], id);
      forall k | 0 <= k < |rest| ensures rest[k].id != rows[0].id {
        var j :| 0 <= j < |rows[1..]| && rows[1..][j] == rest[k];
      }
      var r := WithoutCartItem(rows, id);
      if rows[0].id != id {
        forall i, j | 0 <= i < j < |r| ensures CartIdAt(r, i) != CartIdAt(r, j) {
          assert r[j] == rest[j - 1];
          if i > 0 {
            assert r[i] == rest[i - 1];
            assert CartIdAt(rest, i - 1) != CartIdAt(rest, j - 1);
          } else {
            assert r[0] == rows[0];
          }
        }
      } else {
        assert r == rest;
      }
    }
  }

  lemma {:induction false} WithoutWishlistItemKeepsDistinct(rows: seq<WishlistItem>, id: int)
    requires DistinctWishlistIds(rows)
    ensures DistinctWishlistIds(WithoutWishlistItem(rows, id))
    decreases |rows|
  {
    if rows != [] {
      DistinctWishlistIdsTail(rows);
      WithoutWishlistItemKeepsDistinct(rows[1..], id);
      var rest := WithoutWishlistItem(rows[1..], id);
      forall k | 0 <= k < |rest| ensures rest[k].id != rows[0].id {
        var j :| 0 <= j < |rows[1..]| && rows[1..][j] == rest[k];
      }
      var r := WithoutWishlistItem(rows, id);
      if rows[0].id != id {
        forall i, j | 0 <= i < j < |r| ensures WishlistIdAt(r, i) != WishlistIdAt(r, j) {
          assert r[j] == rest[j - 1];
          if i > 0 {
            assert r[i] == rest[i - 1];
            assert WishlistIdAt(rest, i - 1) != WishlistIdAt(rest, j - 1);
          } else {
            assert r[0] == rows[0];
          }
        }
      } else {
        assert r == rest;
      }
    }
  }

  lemma WithoutCartItemKeepsBelow(rows: seq<CartItem>, id: int, next: int)
    requires CartIdsBelow(rows, next)
    ensures CartIdsBelow(WithoutCartItem(rows, id), next)
  {
    var r := WithoutCartItem(rows, id);
    forall k | 0 <= k < |r| ensures CartIdAt(r, k) < next {
      var j :| 0 <= j < |rows| && rows[j] == r[k];
      assert CartIdAt(rows, j) < next;
    }
  }

  lemma WithoutWishlistItemKeepsBelow(rows: seq<WishlistItem>, id: int, next: int)
    requires WishlistIdsBelow(rows, next)
    ensures WishlistIdsBelow(WithoutWishlistItem(rows, id), next)
  {
    var r := WithoutWishlistItem(rows, id);
    forall k | 0 <= k < |r| ensures WishlistIdAt(r, k) < next {
      var j :| 0 <= j < |rows| && rows[j] == r[k];
      assert WishlistIdAt(rows, j) < next;
    }
  }
}
