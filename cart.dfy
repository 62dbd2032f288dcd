/** The cart page: the fetched cart, the two list edits it pushes to the
    server (set a quantity, remove a product) and the order summary it
    shows. Prices are exact integers in minor currency units. */
module Cart {
  import opened Js

  /** One cart line as the server sends it. */
  datatype Item = Item(productId: string, name: string, price: int, quantity: int)

  /** The cart object; `id` stands for the fields besides `items` that the
      spread `{ ...cart, items }` carries over. */
  datatype CartData = CartData(id: string, items: seq<Item>)

  function Max(a: int, b: int): int
  {
    if a >= b then a else b
  }

  /** The `map` of `handleQuantityChange`: every line of product `pid` takes
      quantity max(1, q); the other lines, the order and the length stay. */
  function WithQuantity(items: seq<Item>, pid: string, q: int): (r: seq<Item>)
    ensures |r| == |items|
    ensures forall i :: 0 <= i < |items| ==>
      r[i] == if items[i].productId == pid then items[i].(quantity := Max(1, q)) else items[i]
  {
    if items == [] then []
    else
      [if items[0].productId == pid then items[0].(quantity := Max(1, q)) else items[0]]
      + WithQuantity(items[1..], pid, q)
  }

  /** The `filter` of `removeItem`: the lines of every other product, in
      their order. */
  function Without(items: seq<Item>, pid: string): (r: seq<Item>)
    ensures forall x :: x in r ==> x in items && x.productId != pid
    ensures forall x :: x in items && x.productId != pid ==> x in r
    ensures |r| <= |items|
  {
    if items == [] then []
    else if items[0].productId == pid then Without(items[1..], pid)
    else [items[0]] + Without(items[1..], pid)
  }

  /** The count of lines of product `pid`. */
  function CountOf(items: seq<Item>, pid: string): nat
  {
    if items == [] then 0
    else (if items[0].productId == pid then 1 else 0) + CountOf(items[1..], pid)
  }

  /** The `reduce` of the page: the sum of price times quantity. */
  function Total(items: seq<Item>): int
  {
    if items == [] then 0 else items[0].price * items[0].quantity + Total(items[1..])
  }

  lemma {:induction false} TotalAppend(a: seq<Item>, b: seq<Item>)
    ensures Total(a + b) == Total(a) + Total(b)
  {
    if a != [] {
      assert (a + b)[0] == a[0] && (a + b)[1..] == a[1..] + b;
      TotalAppend(a[1..], b);
    } else {
      assert a + b == b;
    }
  }

  /** With non-negative prices and positive quantities, as the edits keep
      them, the total shown is never negative. */
  lemma {:induction false} TotalNonNegative(items: seq<Item>)
    requires forall i :: 0 <= i < |items| ==> items[i].price >= 0 && items[i].quantity >= 1
    ensures Total(items) >= 0
  {
    if items != [] {
      TotalNonNegative(items[1..]);
    }
  }

  lemma {:induction false} WithoutAppend(a: seq<Item>, b: seq<Item>, pid: string)
    ensures Without(a + b, pid) == Without(a, pid) + Without(b, pid)
  {
    if a != [] {
      assert (a + b)[0] == a[0] && (a + b)[1..] == a[1..] + b;
      WithoutAppend(a[1..], b, pid);
    } else {
      assert a + b == b;
    }
  }

  /** Removing drops exactly the lines of that product: as many lines go as
      the product had. */
  lemma {:induction false} WithoutLength(items: seq<Item>, pid: string)
    ensures |Without(items, pid)| == |items| - CountOf(items, pid)
    ensures CountOf(Without(items, pid), pid) == 0
  {
    if items != [] {
      WithoutLength(items[1..], pid);
    }
  }

  /** A cart that has no line of the product is left as it is by a removal. */
  lemma {:induction false} WithoutAbsent(items: seq<Item>, pid: string)
    requires CountOf(items, pid) == 0
    ensures Without(items, pid) == items
  {
    if items != [] {
      WithoutAbsent(items[1..], pid);
    }
  }

  /** The subtotal after a quantity change: every line of the product now
      contributes price times max(1, q), the rest as before. */
  lemma {:induction false} TotalWithQuantity(items: seq<Item>, pid: string, q: int)
    ensures Total(WithQuantity(items, pid, q)) ==
      Total(Without(items, pid)) + PriceOf(items, pid) * Max(1, q)
  {
    if items != [] {
      var m := Max(1, q);
      var r := WithQuantity(items, pid, q);
      var rest, restWithout, restPrice := Total(r[1..]), Total(Without(items[1..], pid)), PriceOf(items[1..], pid);
      assert r[1..] == WithQuantity(items[1..], pid, q);
      TotalWithQuantity(items[1..], pid, q);
      assert rest == restWithout + restPrice * m;
      if items[0].productId == pid {
        var p := items[0].price;
        assert Total(r) == p * m + rest;
        assert PriceOf(items, pid) == p + restPrice;
        Distributes(p, restPrice, m);
      } else {
        var w := Without(items, pid);
        assert w == [items[0]] + Without(items[1..], pid);
        assert w[0] == items[0] && w[1..] == Without(items[1..], pid);
        assert Total(w) == items[0].price * items[0].quantity + restWithout;
      }
    }
  }

  lemma Distributes(a: int, b: int, m: int)
    ensures (a + b) * m == a * m + b * m
  {
  }

  /** The summed unit price of the lines of product `pid`. */
  function PriceOf(items: seq<Item>, pid: string): int
  {
    if items == [] then 0
    else (if items[0].productId == pid then items[0].price else 0) + PriceOf(items[1..], pid)
  }

  /** With the product's lines removed, the subtotal drops by exactly what
      those lines contributed. */
  lemma {:induction false} TotalWithout(items: seq<Item>, pid: string)
    ensures Total(items) == Total(Without(items, pid)) + Total(Only(items, pid))
  {
    if items != [] {
      TotalWithout(items[1..], pid);
    }
  }

  /** The lines of product `pid`. */
  function Only(items: seq<Item>, pid: string): seq<Item>
  {
    if items == [] then []
    else if items[0].productId == pid then [items[0]] + Only(items[1..], pid)
    else Only(items[1..], pid)
  }

  predicate QuantitiesPositive(items: seq<Item>)
  {
    forall i :: 0 <= i < |items| ==> items[i].quantity >= 1
  }

  /** The floor at 1 keeps every quantity positive, and neither edit can
      introduce a non-positive one. */
  lemma EditsKeepQuantitiesPositive(items: seq<Item>, pid: string, q: int, other: string)
    requires QuantitiesPositive(items)
    ensures QuantitiesPositive(WithQuantity(items, pid, q))
    ensures QuantitiesPositive(Without(items, other))
  {
    var r := Without(items, other);
    forall i | 0 <= i < |r| ensures r[i].quantity >= 1 {
      assert r[i] in items;
    }
  }

  /** Setting the same quantity twice is the same as setting it once. */
  lemma WithQuantityIdempotent(items: seq<Item>, pid: string, q: int)
    ensures WithQuantity(WithQuantity(items, pid, q), pid, q) == WithQuantity(items, pid, q)
  {
  }

  /** What the page shows. */
  datatype View = LoginPrompt | Loading | EmptyCart | Summary(subtotal: int, shipping: int, total: int)

  class CartPage {
    var cart: Option<CartData>
    var loading: bool

    constructor ()
      ensures cart == None && loading
    {
      cart := None;
      loading := true;
    }

    /** The fetch effect: it runs only for an authenticated session; the
        response's `getdata` (possibly null) becomes the cart, a failure
        leaves it, and either way loading ends. */
    method FetchCart(authenticated: bool, response: Response<Option<CartData>>)
      modifies this
      ensures !authenticated ==> cart == old(cart) && loading == old(loading)
      ensures authenticated ==> !loading
      ensures authenticated && response.Ok? ==> cart == response.data
      ensures authenticated && response.Failed? ==> cart == old(cart)
    {
      if authenticated {
        if response.Ok? {
          cart := response.data;
        }
        loading := false;
      }
    }

    /** `handleQuantityChange(pid, q)`: the edited list is pushed; it is stored
        only once the push is acknowledged. With no cart the map throws before
        anything is pushed. */
    method HandleQuantityChange(pid: string, q: int, acknowledged: bool) returns (pushed: Option<seq<Item>>)
      modifies this`cart
      ensures pushed.Some? <==> old(cart).Some?
      ensures pushed.Some? ==> pushed.value == WithQuantity(old(cart).value.items, pid, q)
      ensures pushed.Some? && acknowledged ==> cart == Some(old(cart).value.(items := pushed.value))
      ensures pushed.None? || !acknowledged ==> cart == old(cart)
    {
      pushed := None;
      if cart.Some? {
        var updated := WithQuantity(cart.value.items, pid, q);
        pushed := Some(updated);
        if acknowledged {
          cart := Some(cart.value.(items := updated));
        }
      }
    }

    /** `removeItem(pid)`, with the same push-then-store discipline. */
    method RemoveItem(pid: string, acknowledged: bool) returns (pushed: Option<seq<Item>>)
      modifies this`cart
      ensures pushed.Some? <==> old(cart).Some?
      ensures pushed.Some? ==> pushed.value == Without(old(cart).value.items, pid)
      ensures pushed.Some? && acknowledged ==> cart == Some(old(cart).value.(items := pushed.value))
      ensures pushed.None? || !acknowledged ==> cart == old(cart)
    {
      pushed := None;
      if cart.Some? {
        var updated := Without(cart.value.items, pid);
        pushed := Some(updated);
        if acknowledged {
          cart := Some(cart.value.(items := updated));
        }
      }
    }

    /** The render decision, in the page's order: the login prompt, then the
        loading text, then "empty", then the summary whose total is its
        subtotal, shipping being free. */
    function Render(authenticated: bool): (v: View)
      reads this
      ensures v == LoginPrompt <==> !authenticated
      ensures v == Loading <==> authenticated && loading
      ensures v == EmptyCart <==> authenticated && !loading && (cart.None? || cart.value.items == [])
      ensures v.Summary? <==> authenticated && !loading && cart.Some? && cart.value.items != []
      ensures v.Summary? ==> cart.Some? && v.subtotal == Total(cart.value.items)
      ensures v.Summary? ==> v.shipping == 0 && v.total == v.subtotal
    {
      if !authenticated then LoginPrompt
      else if loading then Loading
      else if cart.None? || cart.value.items == [] then EmptyCart
      else
        var t := Total(cart.value.items);
        Summary(t, 0, t)
    }
  }

}
