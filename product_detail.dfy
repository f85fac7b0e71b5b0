/** The product page (`client/src/pages/product-detail.tsx`): the slug read from the
    location, the quantity stepper and the add-to-cart request. The discount and
    star rules are in `Pricing`. */
module ProductDetail {
  import opened Wrappers
  import opened Text
  import opened Catalog
  import opened Storage
  import Routes
  import ChatWidget

  /** `location.split("/").pop()`: what follows the last "/", or all of `s`. */
  function LastSegment(s: string): (r: string)
    ensures '/' !in r
    ensures |r| <= |s| && r == s[|s| - |r|..]
    ensures |r| < |s| ==> s[|s| - |r| - 1] == '/'
    decreases |s|
  {
    if s == [] then []
    else if s[|s| - 1] == '/' then []
    else
      var init := s[..|s| - 1];
      var rest := LastSegment(init);
      assert s[|s| - |rest| - 1..] == init[|init| - |rest|..] + [s[|s| - 1]];
      rest + [s[|s| - 1]]
  }

  /** A segment without "/" is read back whole after any prefix and a "/". */
  lemma {:induction false} LastSegmentAfterSlash(prefix: string, t: string)
    requires '/' !in t
    ensures LastSegment(prefix + "/" + t) == t
    decreases |t|
  {
    var s := prefix + "/" + t;
    if t != [] {
      assert s[..|s| - 1] == prefix + "/" + t[..|t| - 1];
      LastSegmentAfterSlash(prefix, t[..|t| - 1]);
      assert t == t[..|t| - 1] + [t[|t| - 1]];
    }
  }

  lemma {:induction false} DashRunsKeepsOut(s: string, c: char)
    requires c != '-' && c !in s
    ensures c !in ChatWidget.DashRuns(s)
    decreases |s|
  {
    if s != [] {
      if JsSpace(s[0]) {
        var rest := ChatWidget.DropJsSpaces(s[1..]);
        assert forall k :: 0 <= k < |rest| ==> rest[k] in s;
        DashRunsKeepsOut(rest, c);
      } else {
        assert forall k :: 0 <= k < |s[1..]| ==> s[1..][k] in s;
        DashRunsKeepsOut(s[1..], c);
      }
    }
  }

  /** The chat widget links a product to "/products/" + its slug; on that page the
      slug read back from the location is the widget's slug whenever the product's
      name has no "/". */
  lemma SlugRoundTrip(name: string)
    requires '/' !in name
    ensures LastSegment("/products/" + ChatWidget.ProductSlug(name)) == ChatWidget.ProductSlug(name)
  {
    var lower := Lower(name);
    assert '/' !in lower by {
      forall k | 0 <= k < |lower| ensures lower[k] != '/' {
        assert name[k] != '/';
      }
    }
    DashRunsKeepsOut(lower, '/');
    assert "/products/" == "/products" + "/";
    LastSegmentAfterSlash("/products", ChatWidget.ProductSlug(name));
  }

  /** `handleQuantityChange`: the change applies only when it leaves at least 1. */
  function NextQuantity(quantity: int, amount: int): (r: int)
    ensures r == quantity + amount || r == quantity
    ensures r == quantity + amount <==> quantity + amount >= 1 || amount == 0
    ensures quantity >= 1 ==> r >= 1
  {
    if quantity + amount >= 1 then quantity + amount else quantity
  }

  /** The quantity after a series of stepper clicks, starting from 1. */
  function QuantityAfter(amounts: seq<int>): int
    decreases |amounts|
  {
    if amounts == [] then 1 else NextQuantity(QuantityAfter(amounts[..|amounts| - 1]), amounts[|amounts| - 1])
  }

  /** Whatever is clicked, the quantity never drops below 1. */
  lemma {:induction false} QuantityStaysPositive(amounts: seq<int>)
    ensures QuantityAfter(amounts) >= 1
    decreases |amounts|
  {
    if amounts != [] {
      QuantityStaysPositive(amounts[..|amounts| - 1]);
    }
  }

  /** The minus button is disabled at 1 or less. */
  predicate MinusDisabled(quantity: int) {
    quantity <= 1
  }

  /** An enabled minus button always lowers the quantity by one; at 1, where it is
      disabled, a -1 would have been ignored anyway. */
  lemma MinusButton(quantity: int)
    requires quantity >= 1
    ensures !MinusDisabled(quantity) ==> NextQuantity(quantity, -1) == quantity - 1
    ensures MinusDisabled(quantity) ==> NextQuantity(quantity, -1) == quantity
  {
  }

  /** The body `{ productId, quantity }` sent by the add-to-cart button. */
  function AddToCartBody(product: Product, quantity: int): (body: Routes.CartBody)
    ensures body.productId == product.id && body.quantity == Some(quantity)
  {
    Routes.CartBody(product.id, Some(quantity))
  }

  /** The server stores exactly the quantity chosen on the page. */
  lemma AddToCartStoresQuantity(product: Product, amounts: seq<int>)
    ensures StoredQuantity(AddToCartBody(product, QuantityAfter(amounts)).quantity) == QuantityAfter(amounts)
  {
    QuantityStaysPositive(amounts);
  }

  /** The page's state: the location it was opened at, the loaded product, the
      quantity and the busy flag of the add-to-cart button. */
  class Page {
    const location: string
    var product: Option<Product>
    var quantity: int
    var isAddingToCart: bool

    ghost predicate Valid()
      reads this
    {
      quantity >= 1
    }

    constructor(location: string)
      ensures this.location == location && product.None? && quantity == 1 && !isAddingToCart
      ensures Valid()
    {
      this.location := location;
      product := None;
      quantity := 1;
      isAddingToCart := false;
    }

    /** The slug the product is fetched by. */
    function Slug(): (r: string)
      ensures '/' !in r
    {
      LastSegment(location)
    }

    method Loaded(p: Option<Product>)
      modifies this
      ensures product == p && quantity == old(quantity) && isAddingToCart == old(isAddingToCart)
    {
      product := p;
    }

    method HandleQuantityChange(amount: int)
      requires Valid()
      modifies this
      ensures Valid()
      ensures quantity == NextQuantity(old(quantity), amount)
      ensures product == old(product) && isAddingToCart == old(isAddingToCart)
    {
      var newQuantity := quantity + amount;
      if newQuantity >= 1 {
        quantity := newQuantity;
      }
    }

    /** `handleAddToCart`: nothing without a product; otherwise the button is busy
        while the request is out and free again afterwards, whatever its outcome. */
    method HandleAddToCart() returns (body: Option<Routes.CartBody>, busyDuring: bool)
      modifies this
      ensures product.None? ==> body.None? && isAddingToCart == old(isAddingToCart)
      ensures product.Some? ==> body == Some(AddToCartBody(product.value, quantity)) && busyDuring && !isAddingToCart
      ensures product == old(product) && quantity == old(quantity)
    {
      busyDuring := isAddingToCart;
      if product.None? {
        return None, busyDuring;
      }
      isAddingToCart := true;
      body := Some(Routes.CartBody(product.value.id, Some(quantity)));
      busyDuring := isAddingToCart;
      isAddingToCart := false;
    }
  }
}
