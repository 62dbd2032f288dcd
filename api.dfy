/** The HTTP layer: the axios instance whose request interceptor attaches the
    stored token, and the endpoint helpers that name each server call by
    method and path. The server is not modelled; a request is described by
    where it goes and which headers it carries. */
module Api {
  import opened Js

  datatype HttpMethod = GET | POST | PUT

  /** Where a request goes: a path below the instance's base URL
      (`http://localhost:5000/api`), or one resolved against the page's own
      origin, for the review helpers that call bare `axios`. */
  datatype Target = Base(path: string) | Origin(path: string)

  /** The request configuration the interceptor receives and returns. The
      interceptor writes to `headers` in place. */
  class RequestConfig {
    var url: string
    var verb: HttpMethod
    var headers: Entries<string>

    constructor (url: string, verb: HttpMethod, headers: Entries<string>)
      ensures this.url == url && this.verb == verb && this.headers == headers
    {
      this.url := url;
      this.verb := verb;
      this.headers := headers;
    }
  }

  /** A stored token is used when it is truthy: present and non-empty. */
  predicate HasToken(stored: Option<string>)
  {
    stored.Some? && stored.value != ""
  }

  /** The headers after the interceptor has run with the given storage. */
  function InterceptedHeaders(headers: Entries<string>, stored: Option<string>): Entries<string>
  {
    if HasToken(stored) then Put(headers, "Authorization", "Bearer " + stored.value) else headers
  }

  /** The request interceptor: with a truthy stored token it sets
      `headers.Authorization` to "Bearer <token>"; it returns the same config
      object and touches nothing else. */
  method Intercept(config: RequestConfig, stored: Option<string>) returns (r: RequestConfig)
    modifies config`headers
    ensures r == config
    ensures config.headers == InterceptedHeaders(old(config.headers), stored)
    ensures config.url == old(config.url) && config.verb == old(config.verb)
  {
    if HasToken(stored) {
      config.headers := Put(config.headers, "Authorization", "Bearer " + stored.value);
    }
    r := config;
  }

  /** The Authorization header after interception is "Bearer <token>" exactly
      when a truthy token is stored, and otherwise whatever the config already
      carried; every other header keeps its value. */
  lemma InterceptedAuthorization(headers: Entries<string>, stored: Option<string>, k: string)
    ensures HasToken(stored) ==>
      Get(InterceptedHeaders(headers, stored), "Authorization") == Some("Bearer " + stored.value)
    ensures !HasToken(stored) ==> InterceptedHeaders(headers, stored) == headers
    ensures k != "Authorization" ==> Get(InterceptedHeaders(headers, stored), k) == Get(headers, k)
  {
    if HasToken(stored) {
      PutGet(headers, "Authorization", "Bearer " + stored.value, "Authorization");
      PutGet(headers, "Authorization", "Bearer " + stored.value, k);
    }
  }

  /** Interception never adds a header other than Authorization, and keeps
      header names distinct. */
  lemma InterceptedKeys(headers: Entries<string>, stored: Option<string>)
    requires UniqueKeys(headers)
    ensures UniqueKeys(InterceptedHeaders(headers, stored))
    ensures forall k :: HasKey(InterceptedHeaders(headers, stored), k) ==> HasKey(headers, k) || k == "Authorization"
  {
    if HasToken(stored) {
      var t := "Bearer " + stored.value;
      PutUnique(headers, "Authorization", t);
      forall k | HasKey(InterceptedHeaders(headers, stored), k)
        ensures HasKey(headers, k) || k == "Authorization"
      {
        PutGet(headers, "Authorization", t, k);
      }
    }
  }

  /** The endpoint helpers of the service module. */
  datatype Endpoint =
    | RegisterUser
    | LoginUser
    | GetUserProfile
    | UpdateUserProfile(userId: string)
    | GetProducts
    | CreateProduct
    | UpdateProduct(productId: string)
    | GetSellerOrders
    | CreateOrder
    | GetOrders
    | GetProductById(productId: string)
    | AddToCart
    | GetCartItems
    | GetReviewsByProductId(productId: string)
    | AddReview(productId: string)

  function MethodOf(e: Endpoint): HttpMethod
  {
    match e
    case RegisterUser => POST
    case LoginUser => POST
    case GetUserProfile => GET
    case UpdateUserProfile(_) => PUT
    case GetProducts => GET
    case CreateProduct => POST
    case UpdateProduct(_) => PUT
    case GetSellerOrders => GET
    case CreateOrder => POST
    case GetOrders => GET
    case GetProductById(_) => GET
    case AddToCart => POST
    case GetCartItems => GET
    case GetReviewsByProductId(_) => GET
    case AddReview(_) => POST
  }

  function TargetOf(e: Endpoint): Target
  {
    match e
    case RegisterUser => Base("/user/register")
    case LoginUser => Base("/user/login")
    case GetUserProfile => Base("/user/get")
    case UpdateUserProfile(id) => Base("/user/update/" + id)
    case GetProducts => Base("/product")
    case CreateProduct => Base("/product")
    case UpdateProduct(id) => Base("/product/" + id)
    case GetSellerOrders => Base("/product/seller")
    case CreateOrder => Base("/order")
    case GetOrders => Base("/orders")
    case GetProductById(id) => Base("/product/" + id)
    case AddToCart => Base("/cart")
    case GetCartItems => Base("/cart/items")
    case GetReviewsByProductId(id) => Origin("/api/reviews/product/" + id)
    case AddReview(id) => Origin("/api/reviews/product/" + id)
  }

  /** The rest of `s` after `prefix`, when `s` starts with it. */
  function After(prefix: string, s: string): (r: Option<string>)
    ensures r.Some? <==> |prefix| <= |s| && s[..|prefix|] == prefix
    ensures r.Some? ==> s == prefix + r.value
  {
    if |prefix| <= |s| && s[..|prefix|] == prefix then Some(s[|prefix|..]) else None
  }

  /** Which helper a request came from: the inverse of the path builders. */
  function EndpointOf(m: HttpMethod, t: Target): Option<Endpoint>
  {
    match t
    case Origin(p) =>
      (match After("/api/reviews/product/", p)
       case None => None
       case Some(id) => Some(if m == GET then GetReviewsByProductId(id) else AddReview(id)))
    case Base(p) =>
      if m == PUT then
        (match After("/user/update/", p)
         case Some(id) => Some(UpdateUserProfile(id))
         case None =>
           match After("/product/", p)
           case Some(id) => Some(UpdateProduct(id))
           case None => None)
      else if m == POST then
        if p == "/user/register" then Some(RegisterUser)
        else if p == "/user/login" then Some(LoginUser)
        else if p == "/product" then Some(CreateProduct)
        else if p == "/order" then Some(CreateOrder)
        else if p == "/cart" then Some(AddToCart)
        else None
      else
        if p == "/user/get" then Some(GetUserProfile)
        else if p == "/product" then Some(GetProducts)
        else if p == "/product/seller" then Some(GetSellerOrders)
        else if p == "/orders" then Some(GetOrders)
        else if p == "/cart/items" then Some(GetCartItems)
        else
          match After("/product/", p)
          case Some(id) => Some(GetProductById(id))
          case None => None
  }

  lemma AfterPrefix(prefix: string, id: string)
    ensures After(prefix, prefix + id) == Some(id)
  {
    assert (prefix + id)[..|prefix|] == prefix;
    assert (prefix + id)[|prefix|..] == id;
  }

  /** Every path a helper builds leads back to that helper, save one: the
      product with id "seller", whose path is the seller-orders path. */
  lemma EndpointRoundTrip(e: Endpoint)
    requires e != GetProductById("seller")
    ensures EndpointOf(MethodOf(e), TargetOf(e)) == Some(e)
  {
    match e
    case UpdateUserProfile(id) => AfterPrefix("/user/update/", id);
    case UpdateProduct(id) =>
      AfterPrefix("/product/", id);
      var p := "/product/" + id;
      assert After("/user/update/", p).None? by {
        if |p| >= 13 { assert p[..13][1] != "/user/update/"[1]; }
      }
    case GetProductById(id) =>
      AfterPrefix("/product/", id);
      var p := "/product/" + id;
      assert p != "/user/get" by { assert p[1] != "/user/get"[1]; }
      assert p != "/orders" by { assert p[1] != "/orders"[1]; }
      assert p != "/cart/items" by { assert p[1] != "/cart/items"[1]; }
      assert p != "/product" by { assert |p| != |"/product"|; }
    case GetReviewsByProductId(id) => AfterPrefix("/api/reviews/product/", id);
    case AddReview(id) => AfterPrefix("/api/reviews/product/", id);
    case _ =>
  }

  /** `getProductById("seller")` sends the very request `getSellerOrders` sends. */
  lemma SellerIdCollides()
    ensures MethodOf(GetProductById("seller")) == MethodOf(GetSellerOrders)
    ensures TargetOf(GetProductById("seller")) == TargetOf(GetSellerOrders)
    ensures EndpointOf(GET, TargetOf(GetProductById("seller"))) == Some(GetSellerOrders)
  {
  }

  /** The headers that go out with a call, starting from the instance's
      `defaults`: the interceptor rule for the instance helpers, nothing
      for the review listing, and for `addReview` a header it writes itself from
      the raw stored value, which reads "Bearer null" when nothing is stored. */
  function RequestHeaders(e: Endpoint, defaults: Entries<string>, stored: Option<string>): (h: Entries<string>)
    ensures TargetOf(e).Base? ==> h == InterceptedHeaders(defaults, stored)
    ensures e.GetReviewsByProductId? ==> h == []
    ensures e.AddReview? ==> h == [("Authorization", "Bearer " + NullableToString(stored))]
  {
    match e
    case GetReviewsByProductId(_) => []
    case AddReview(_) => [("Authorization", "Bearer " + NullableToString(stored))]
    case _ => InterceptedHeaders(defaults, stored)
  }

  /** `addReview` always carries an Authorization header, even with no token:
      it then reads "Bearer null" (and "Bearer " for an empty stored token),
      where an instance call would send none. */
  lemma AddReviewAlwaysAuthorized(id: string, stored: Option<string>)
    ensures Get(RequestHeaders(AddReview(id), [], stored), "Authorization").Some?
    ensures stored.None? ==>
      Get(RequestHeaders(AddReview(id), [], stored), "Authorization") == Some("Bearer null")
    ensures stored.None? ==> !HasKey(RequestHeaders(CreateOrder, [], stored), "Authorization")
  {
    var h := RequestHeaders(AddReview(id), [], stored);
    assert h[0] == ("Authorization", "Bearer " + NullableToString(stored));
    assert Get(h, "Authorization") == Some("Bearer " + NullableToString(stored));
    assert "Bearer " + "null" == "Bearer null";
  }
}
