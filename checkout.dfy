/** The checkout page: the fetched cart, the payment method chosen among
    three, and the order draft the submit handler sends. */
module Checkout {
  import opened Js
  import Cart

  datatype PaymentMethod = CreditCard | Paypal | CashOnDelivery

  /** The value the page stores and sends for each choice. */
  function Name(m: PaymentMethod): string
  {
    match m
    case CreditCard => "credit_card"
    case Paypal => "paypal"
    case CashOnDelivery => "cod"
  }

  /** The choice a stored value stands for. */
  function FromName(s: string): Option<PaymentMethod>
  {
    if s == "credit_card" then Some(CreditCard)
    else if s == "paypal" then Some(Paypal)
    else if s == "cod" then Some(CashOnDelivery)
    else None
  }

  /** The three names are distinct and each leads back to its choice, so a
      draft's `payment_method` identifies the button that was pressed; no
      other string names a choice. */
  lemma NameRoundTrip(m: PaymentMethod, s: string)
    ensures FromName(Name(m)) == Some(m)
    ensures FromName(s).Some? ==> Name(FromName(s).value) == s
  {
    assert "credit_card" != "paypal" && "credit_card" != "cod";
    assert "paypal" != "cod";
  }

  /** A line of the order: only the product and its quantity. */
  datatype OrderLine = OrderLine(productId: string, quantity: int)

  datatype OrderDraft = OrderDraft(
    products: seq<OrderLine>,
    paymentMethod: string,
    paymentStatus: string,
    orderStatus: string)

  /** The `map` over the cart lines. */
  function Lines(items: seq<Cart.Item>): (r: seq<OrderLine>)
    ensures |r| == |items|
    ensures forall i :: 0 <= i < |items| ==>
      r[i].productId == items[i].productId && r[i].quantity == items[i].quantity
  {
    if items == [] then [] else [OrderLine(items[0].productId, items[0].quantity)] + Lines(items[1..])
  }

  /** The total number of units ordered. */
  function Units(lines: seq<OrderLine>): int
  {
    if lines == [] then 0 else lines[0].quantity + Units(lines[1..])
  }

  function ItemUnits(items: seq<Cart.Item>): int
  {
    if items == [] then 0 else items[0].quantity + ItemUnits(items[1..])
  }

  /** The draft orders as many units as the cart holds. */
  lemma {:induction false} LinesKeepUnits(items: seq<Cart.Item>)
    ensures Units(Lines(items)) == ItemUnits(items)
  {
    if items != [] {
      LinesKeepUnits(items[1..]);
      assert Lines(items)[1..] == Lines(items[1..]);
    }
  }

  /** The order built from the cart lines and the chosen method; the two
      status fields are fixed. */
  function Draft(items: seq<Cart.Item>, m: PaymentMethod): (d: OrderDraft)
    ensures d.products == Lines(items)
    ensures FromName(d.paymentMethod) == Some(m)
    ensures d.paymentStatus == "pending" && d.orderStatus == "processing"
  {
    NameRoundTrip(m, "");
    OrderDraft(Lines(items), Name(m), "pending", "processing")
  }

  datatype View = Loading | EmptyCart | Summary(subtotal: int, shipping: int, tax: int, total: int)

  class CheckoutPage {
    var cart: Option<Cart.CartData>
    var loading: bool
    var paymentMethod: PaymentMethod
    var shippingAddress: string
    var billingSameAsShipping: bool
    var billingAddress: string

    constructor ()
      ensures cart == None && loading && paymentMethod == CreditCard
      ensures shippingAddress == "" && billingSameAsShipping && billingAddress == ""
    {
      cart := None;
      loading := true;
      paymentMethod := CreditCard;
      shippingAddress := "";
      billingSameAsShipping := true;
      billingAddress := "";
    }

    /** The fetch effect, run on mount whatever the session. */
    method FetchCart(response: Response<Option<Cart.CartData>>)
      modifies this`cart, this`loading
      ensures !loading
      ensures response.Ok? ==> cart == response.data
      ensures response.Failed? ==> cart == old(cart)
    {
      if response.Ok? {
        cart := response.data;
      }
      loading := false;
    }

    /** One of the three payment buttons. */
    method SetPaymentMethod(m: PaymentMethod)
      modifies this`paymentMethod
      ensures paymentMethod == m
    {
      paymentMethod := m;
    }

    /** `handleSubmit`: the draft is built from the current cart and choice
        and sent; an acknowledged order, carrying its id, leads to
        "/orders/<id>", a failure to no navigation. With no cart the map
        throws before anything is sent. The page state is not touched. */
    method HandleSubmit(response: Response<string>) returns (sent: Option<OrderDraft>, navigateTo: Option<string>)
      ensures sent.Some? <==> cart.Some?
      ensures sent.Some? ==> sent.value == Draft(cart.value.items, paymentMethod)
      ensures navigateTo.Some? <==> sent.Some? && response.Ok?
      ensures navigateTo.Some? ==> navigateTo.value == "/orders/" + response.data
    {
      sent, navigateTo := None, None;
      if cart.Some? {
        sent := Some(Draft(cart.value.items, paymentMethod));
        if response.Ok? {
          navigateTo := Some("/orders/" + response.data);
        }
      }
    }

    /** The render decision: loading, then "empty" for a null or empty cart,
        then the summary whose total is the subtotal, shipping and tax being
        zero. The Place Order button exists only on the summary. */
    function Render(): (v: View)
      reads this
      ensures v == Loading <==> loading
      ensures v == EmptyCart <==> !loading && (cart.None? || cart.value.items == [])
      ensures v.Summary? <==> !loading && cart.Some? && cart.value.items != []
      ensures v.Summary? ==> cart.Some? && cart.value.items != [] && v.subtotal == Cart.Total(cart.value.items)
      ensures v.Summary? ==> v.shipping == 0 && v.tax == 0 && v.total == v.subtotal
    {
      if loading then Loading
      else if cart.None? || cart.value.items == [] then EmptyCart
      else
        var t := Cart.Total(cart.value.items);
        Summary(t, 0, 0, t)
    }
  }

  /** An order placed from the summary has one line per cart line, in cart
      order, and is never empty. */
  lemma PlacedOrderIsNonEmpty(p: CheckoutPage, d: OrderDraft)
    requires p.Render().Summary?
    requires d == Draft(p.cart.value.items, p.paymentMethod)
    ensures |d.products| == |p.cart.value.items| > 0
    ensures forall i :: 0 <= i < |d.products| ==> d.products[i].productId == p.cart.value.items[i].productId
  {
  }
}
