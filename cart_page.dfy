/** The cart page (`client/src/pages/cart.tsx`): the order summary computed from
    the fetched cart, the quantity stepper's guard and the category caption.
    Money is `real`; the display rounding of `toFixed` is not modelled. */
module CartPage {
  import opened Wrappers
  import opened Text
  import opened Catalog

  /** A fetched cart row with the price of its product. */
  datatype CartLine = CartLine(itemId: int, quantity: int, price: real)

  /** `reduce((total, item) => total + price * quantity, 0)`, folded from the left. */
  function Sum(lines: seq<CartLine>): real {
    if lines == [] then 0.0
    else Sum(lines[..|lines| - 1]) + lines[|lines| - 1].price * lines[|lines| - 1].quantity as real
  }

  /** `calculateSubtotal`: 0 while the cart is not loaded. */
  function Subtotal(cart: Option<seq<CartLine>>): real {
    if cart.None? then 0.0 else Sum(cart.value)
  }

  /** The fold over two parts is the sum of the folds: the subtotal does not depend
      on how the rows are grouped. */
  lemma {:induction false} SumAppend(a: seq<CartLine>, b: seq<CartLine>)
    ensures Sum(a + b) == Sum(a) + Sum(b)
    decreases |b|
  {
    if b == [] {
      assert a + b == a;
    } else {
      assert (a + b)[..|a + b| - 1] == a + b[..|b| - 1];
      SumAppend(a, b[..|b| - 1]);
    }
  }

  /** The subtotal of rows with non-negative prices and quantities is at least 0. */
  lemma {:induction false} SumNonNegative(lines: seq<CartLine>)
    requires forall k :: 0 <= k < |lines| ==> lines[k].price >= 0.0 && lines[k].quantity >= 0
    ensures Sum(lines) >= 0.0
    decreases |lines|
  {
    if lines != [] {
      SumNonNegative(lines[..|lines| - 1]);
      var last := lines[|lines| - 1];
      assert last.price * last.quantity as real >= 0.0;
    }
  }

  /** Shipping is free strictly above 50. */
  function Shipping(subtotal: real): (r: real)
    ensures r == 0.0 <==> subtotal > 50.0
    ensures r != 0.0 ==> r == 9.99
  {
    if subtotal > 50.0 then 0.0 else 9.99
  }

  datatype Summary = Summary(subtotal: real, shipping: real, tax: real, total: real)

  /** The order summary: 8% tax on the subtotal, total = subtotal + shipping + tax. */
  function OrderSummary(cart: Option<seq<CartLine>>): (s: Summary)
    ensures s.subtotal == Subtotal(cart)
    ensures s.total == s.subtotal + s.shipping + s.tax
    ensures s.tax * 100.0 == s.subtotal * 8.0
    ensures s.total == s.subtotal * 1.08 + Shipping(s.subtotal)
  {
    var subtotal := Subtotal(cart);
    var shipping := Shipping(subtotal);
    var tax := subtotal * 0.08;
    Summary(subtotal, shipping, tax, subtotal + shipping + tax)
  }

  /** An empty or unloaded cart still pays shipping, and a subtotal of exactly 50
      is not enough for free shipping. */
  lemma SummaryEdges(cart: Option<seq<CartLine>>)
    requires cart.None? || cart.value == []
    ensures OrderSummary(cart) == Summary(0.0, 9.99, 0.0, 9.99)
    ensures Shipping(50.0) == 9.99
  {
  }

  /** `handleQuantityChange`: the PATCH sent, if any. */
  function QuantityChange(itemId: int, currentQuantity: int, change: int): (r: Option<(int, int)>)
    ensures r.Some? <==> currentQuantity + change >= 1
    ensures r.Some? ==> r.value == (itemId, currentQuantity + change)
  {
    var newQuantity := currentQuantity + change;
    if newQuantity >= 1 then Some((itemId, newQuantity)) else None
  }

  /** `getCategoryName`: "Uncategorized" for a falsy id or categories not loaded,
      the name when the id is found, "Category #<id>" otherwise. */
  function CategoryName(categoryId: Option<int>, categories: Option<seq<Category>>): (r: string)
    ensures categoryId.None? || categoryId.value == 0 || categories.None? ==> r == "Uncategorized"
    ensures categoryId.Some? && categoryId.value != 0 && categories.Some? ==>
      (exists k :: 0 <= k < |categories.value| && categories.value[k].id == categoryId.value && r == categories.value[k].name)
      || ((forall k :: 0 <= k < |categories.value| ==> categories.value[k].id != categoryId.value)
          && r == "Category #" + IntToString(categoryId.value))
  {
    if categoryId.None? || categoryId.value == 0 || categories.None? then "Uncategorized"
    else
      var c := FindCategoryById(categories.value, categoryId.value);
      if c.Some? then c.value.name else "Category #" + IntToString(categoryId.value)
  }

  /** The first category with the id gives its name; with none, the id is shown. */
  lemma CategoryNameFirst(categoryId: int, categories: seq<Category>, k: nat)
    requires categoryId != 0 && k < |categories| && categories[k].id == categoryId
    requires forall j :: 0 <= j < k ==> categories[j].id != categoryId
    ensures CategoryName(Some(categoryId), Some(categories)) == categories[k].name
  {
    FindCategoryFirst(categories, categoryId, k);
  }

  lemma {:induction false} FindCategoryFirst(categories: seq<Category>, id: int, k: nat)
    requires k < |categories| && categories[k].id == id
    requires forall j :: 0 <= j < k ==> categories[j].id != id
    ensures FindCategoryById(categories, id) == Some(categories[k])
    decreases k
  {
    if k > 0 {
      FindCategoryFirst(categories[1..], id, k - 1);
    }
  }
}
