/** The product view's purchase panel, in its two copies (the `ProductInfo`
    component and the `ProductDetail` page): the quantity stepper, the
    add-to-cart request, "Buy Now" and the discounted price. */
module ProductPage {
  import opened Js
  import Auth
  import Api
  import Routes
  import RouteTable

  /** The product fields the panel reads. Prices and discounts (a
      percentage) are exact reals. */
  datatype Product = Product(id: string, price: real, discount: real, stock: int)

  /** `stock || 1`: a stock of 0 counts as 1. */
  function Limit(stock: int): (l: int)
    ensures stock != 0 ==> l == stock
    ensures stock == 0 ==> l == 1
  {
    if stock != 0 then stock else 1
  }

  /** `product?.stock || 1` where the product may not be loaded yet. */
  function StockLimit(product: Option<Product>): (l: int)
    ensures product.None? ==> l == 1
    ensures product.Some? ==> l == Limit(product.value.stock)
  {
    match product
    case None => 1
    case Some(p) => Limit(p.stock)
  }

  /** The three stepper inputs: a typed value (the `parseInt` of the field),
      the + button and the - button. */
  datatype QuantityEvent = Typed(value: Number) | Increment | Decrement

  /** The quantity after one event, for a given limit. */
  function Step(q: int, e: QuantityEvent, limit: int): (r: int)
    ensures e.Typed? && e.value.Num? && 0 < e.value.n <= limit ==> r == e.value.n
    ensures e.Typed? && !(e.value.Num? && 0 < e.value.n <= limit) ==> r == q
    ensures e.Increment? ==> r == if q < limit then q + 1 else q
    ensures e.Decrement? ==> r == if q > 1 then q - 1 else q
  {
    match e
    case Typed(v) => if v.Num? && v.n > 0 && v.n <= limit then v.n else q
    case Increment => if q < limit then q + 1 else q
    case Decrement => if q > 1 then q - 1 else q
  }

  /** max(1, l). */
  function AtLeastOne(l: int): int
  {
    if l >= 1 then l else 1
  }

  /** The range the stepper never leaves. */
  predicate InRange(q: int, limit: int)
  {
    1 <= q && (q <= limit || q == 1)
  }

  lemma StepInRange(q: int, e: QuantityEvent, limit: int)
    requires InRange(q, limit)
    ensures InRange(Step(q, e, limit), limit)
  {
  }

  /** The quantity after a sequence of events, in order. */
  function Run(q: int, events: seq<QuantityEvent>, limit: int): int
    decreases |events|
  {
    if events == [] then q else Run(Step(q, events[0], limit), events[1..], limit)
  }

  /** From the initial quantity 1, any sequence of handler calls keeps the
      quantity between 1 and max(1, limit). */
  lemma {:induction false} RunInRange(q: int, events: seq<QuantityEvent>, limit: int)
    requires InRange(q, limit)
    ensures InRange(Run(q, events, limit), limit)
    ensures 1 <= Run(q, events, limit) <= AtLeastOne(limit)
    decreases |events|
  {
    if events != [] {
      StepInRange(q, events[0], limit);
      RunInRange(Step(q, events[0], limit), events[1..], limit);
    }
  }

  /** The - button is enabled exactly when pressing it would lower the
      quantity; the + button, whose test is `quantity >= product.stock`, is
      enabled exactly when pressing it would raise the quantity. */
  lemma ButtonsMatchHandlers(q: int, stock: int)
    requires q >= 1
    ensures !(q <= 1) <==> Step(q, Decrement, Limit(stock)) != q
    ensures !(q >= stock) <==> Step(q, Increment, Limit(stock)) != q
  {
  }

  /** The add-to-cart and checkout buttons are disabled for a product out of
      stock (and the first also while a request is in flight). */
  predicate AddToCartDisabled(isAddingToCart: bool, p: Product)
  {
    isAddingToCart || p.stock <= 0
  }

  predicate CheckoutDisabled(isPlacingOrder: bool, p: Product)
  {
    isPlacingOrder || p.stock <= 0
  }

  /** Out of stock, both buttons are disabled whatever the flags; in stock,
      each follows its own flag. */
  lemma OutOfStockDisabled(p: Product, isAddingToCart: bool, isPlacingOrder: bool)
    ensures p.stock <= 0 ==> AddToCartDisabled(isAddingToCart, p) && CheckoutDisabled(isPlacingOrder, p)
    ensures p.stock > 0 ==> (AddToCartDisabled(isAddingToCart, p) <==> isAddingToCart)
    ensures p.stock > 0 ==> (CheckoutDisabled(isPlacingOrder, p) <==> isPlacingOrder)
  {
  }

  /** price − price × (discount / 100). */
  function DiscountedPrice(price: real, discount: real): (r: real)
    ensures discount == 0.0 ==> r == price
    ensures price >= 0.0 && 0.0 <= discount <= 100.0 ==> 0.0 <= r <= price
    ensures discount == 100.0 ==> r == 0.0
  {
    price - price * (discount / 100.0)
  }

  /** For a non-negative price, a larger discount never gives a higher
      price, and for a positive price a strictly larger one gives a strictly
      lower price. */
  lemma DiscountMonotone(price: real, d1: real, d2: real)
    requires price >= 0.0 && d1 <= d2
    ensures DiscountedPrice(price, d2) <= DiscountedPrice(price, d1)
    ensures price > 0.0 && d1 < d2 ==> DiscountedPrice(price, d2) < DiscountedPrice(price, d1)
  {
    var gap := (d2 - d1) / 100.0;
    assert DiscountedPrice(price, d1) - DiscountedPrice(price, d2) == price * gap;
    assert gap >= 0.0;
    if price > 0.0 && d1 < d2 {
      assert gap > 0.0;
      assert price * gap > 0.0;
    }
  }

  /** A line of the add-to-cart request. */
  datatype CartLine = CartLine(productid: string, quantity: int)

  /** What an add-to-cart press leads to: the login page with nothing sent;
      a one-line request, acknowledged or not; or, when no product is
      loaded, a failure before anything is sent. */
  datatype AddOutcome = RedirectToLogin | Sent(carts: seq<CartLine>, acknowledged: bool) | NotSent

  /** `handleAddToCart` for a loaded product or none. */
  function AddToCartOutcome(product: Option<Product>, quantity: int, stored: Option<string>, acknowledged: bool): (o: AddOutcome)
    ensures o == RedirectToLogin <==> !Api.HasToken(stored)
    ensures o.Sent? <==> Api.HasToken(stored) && product.Some?
    ensures o.Sent? ==> o.carts == [CartLine(product.value.id, quantity)] && o.acknowledged == acknowledged
  {
    if !Api.HasToken(stored) then RedirectToLogin
    else if product.None? then NotSent
    else Sent([CartLine(product.value.id, quantity)], acknowledged)
  }

  /** The `ProductInfo` component: the product is a fixed prop. */
  class ProductInfo {
    const product: Product
    var quantity: int
    var isAddingToCart: bool
    /** Never set by the component. */
    const isPlacingOrder: bool

    predicate Valid()
      reads this
    {
      InRange(quantity, Limit(product.stock)) && !isPlacingOrder
    }

    constructor (product: Product)
      ensures this.product == product && quantity == 1 && !isAddingToCart
      ensures Valid()
    {
      this.product := product;
      quantity := 1;
      isAddingToCart := false;
      isPlacingOrder := false;
    }

    method HandleQuantityChange(value: Number)
      requires Valid()
      modifies this`quantity
      ensures quantity == Step(old(quantity), Typed(value), Limit(product.stock))
      ensures Valid()
    {
      if value.Num? && value.n > 0 && value.n <= Limit(product.stock) {
        quantity := value.n;
      }
    }

    method IncrementQuantity()
      requires Valid()
      modifies this`quantity
      ensures quantity == Step(old(quantity), Increment, Limit(product.stock))
      ensures Valid()
    {
      if quantity < Limit(product.stock) {
        quantity := quantity + 1;
      }
    }

    method DecrementQuantity()
      requires Valid()
      modifies this`quantity
      ensures quantity == Step(old(quantity), Decrement, Limit(product.stock))
      ensures Valid()
    {
      if quantity > 1 {
        quantity := quantity - 1;
      }
    }

    /** `handleAddToCart`: the flag is raised, then lowered in the `finally`
        on every path, the early return to /login included. */
    method HandleAddToCart(stored: Option<string>, acknowledged: bool) returns (o: AddOutcome)
      modifies this`isAddingToCart
      ensures o == AddToCartOutcome(Some(product), quantity, stored, acknowledged)
      ensures !isAddingToCart
    {
      isAddingToCart := true;
      if !Api.HasToken(stored) {
        o := RedirectToLogin;
      } else {
        o := Sent([CartLine(product.id, quantity)], acknowledged);
      }
      isAddingToCart := false;
    }

    /** The Checkout button: "/checkout/" followed by the product id. */
    method HandlePlaceOrder() returns (navigateTo: string)
      ensures navigateTo == "/checkout/" + product.id
    {
      navigateTo := "/checkout/" + product.id;
    }
  }

  /** The Checkout button of the panel leads to a path no route declares. */
  lemma PlaceOrderIsUnrouted(id: string, authenticated: bool, user: Option<Auth.Claims>)
    requires id != "" && Routes.Slashless(id)
    ensures Routes.Resolve("/checkout/" + id, authenticated, user) == Routes.NoMatch
  {
    RouteTable.DetailPathsUnrouted(id, authenticated, user);
  }

  /** What the `ProductDetail` page shows. */
  datatype DetailView = Loading | ErrorText(message: string) | NotFound | Shown(product: Product, discountedPrice: real)

  /** The `ProductDetail` page: the product is fetched, and the handlers read
      it through `product?.`. */
  class ProductDetail {
    const id: string
    var product: Option<Product>
    var loading: bool
    var error: Option<string>
    var quantity: int
    var isAddingToCart: bool
    /** Initialised to false and never set. */
    const isPlacingOrder: bool

    predicate Valid()
      reads this
    {
      InRange(quantity, StockLimit(product)) && !isPlacingOrder
    }

    constructor (id: string)
      ensures this.id == id && product == None && loading && error == None
      ensures quantity == 1 && !isAddingToCart
      ensures Valid()
    {
      this.id := id;
      product := None;
      loading := true;
      error := None;
      quantity := 1;
      isAddingToCart := false;
      isPlacingOrder := false;
    }

    /** The fetch effect: the response's product (possibly null) is stored;
        on a failure the caught error's own `message` is stored. That is the
        client's transport text (`errMessage`), which is never empty, and not
        the server's message carried by the response. Loading ends either
        way. The quantity is not touched, so it stays in range when fetched
        at the initial 1. */
    method FetchProduct(response: Response<Option<Product>>, errMessage: string)
      requires Valid()
      requires errMessage != ""
      modifies this`product, this`error, this`loading
      ensures !loading
      ensures response.Ok? ==> product == response.data && error == old(error)
      ensures response.Failed? ==> product == old(product) && error == Some(errMessage)
      ensures response.Failed? ==> Render() == ErrorText(errMessage)
      ensures quantity == 1 ==> Valid()
    {
      if response.Ok? {
        product := response.data;
      } else {
        error := Some(errMessage);
      }
      loading := false;
    }

    method HandleQuantityChange(value: Number)
      requires Valid()
      modifies this`quantity
      ensures quantity == Step(old(quantity), Typed(value), StockLimit(product))
      ensures Valid()
    {
      if value.Num? && value.n > 0 && value.n <= StockLimit(product) {
        quantity := value.n;
      }
    }

    method IncrementQuantity()
      requires Valid()
      modifies this`quantity
      ensures quantity == Step(old(quantity), Increment, StockLimit(product))
      ensures Valid()
    {
      if quantity < StockLimit(product) {
        quantity := quantity + 1;
      }
    }

    method DecrementQuantity()
      requires Valid()
      modifies this`quantity
      ensures quantity == Step(old(quantity), Decrement, StockLimit(product))
      ensures Valid()
    {
      if quantity > 1 {
        quantity := quantity - 1;
      }
    }

    /** `handleAddToCart`; reading `product._id` of a missing product throws
        inside the `try`, so nothing is sent and the flag is still lowered. */
    method HandleAddToCart(stored: Option<string>, acknowledged: bool) returns (o: AddOutcome)
      modifies this`isAddingToCart
      ensures o == AddToCartOutcome(product, quantity, stored, acknowledged)
      ensures !isAddingToCart
    {
      isAddingToCart := true;
      if !Api.HasToken(stored) {
        o := RedirectToLogin;
      } else if product.None? {
        o := NotSent;
      } else {
        o := Sent([CartLine(product.value.id, quantity)], acknowledged);
      }
      isAddingToCart := false;
    }

    /** "Buy Now": "/checkout/" followed by the product id; with no product
        the handler throws and nothing happens. */
    method HandlePlaceOrder() returns (navigateTo: Option<string>)
      ensures product.Some? ==> navigateTo == Some("/checkout/" + product.value.id)
      ensures product.None? ==> navigateTo == None
    {
      if product.Some? {
        navigateTo := Some("/checkout/" + product.value.id);
      } else {
        navigateTo := None;
      }
    }

    /** The render decision: loading, then a truthy error, then "not found",
        then the product with its discounted price. */
    function Render(): (v: DetailView)
      reads this
      ensures v == Loading <==> loading
      ensures v.ErrorText? <==> !loading && error.Some? && error.value != ""
      ensures v.NotFound? <==> !loading && !(error.Some? && error.value != "") && product.None?
      ensures v.Shown? <==> !loading && !(error.Some? && error.value != "") && product.Some?
      ensures v.Shown? ==> product == Some(v.product)
      ensures v.Shown? ==> v.discountedPrice == DiscountedPrice(v.product.price, v.product.discount)
    {
      if loading then Loading
      else if error.Some? && error.value != "" then ErrorText(error.value)
      else if product.None? then NotFound
      else Shown(product.value, DiscountedPrice(product.value.price, product.value.discount))
    }
  }
}
