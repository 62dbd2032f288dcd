# Storefront front end: a verified model of its view logic

This project models the logic that the React storefront's views compute for
themselves. Dafny states and proves what that logic promises. The logic covers:

- the session held by the authentication context;
- the gate in front of private routes and the route table;
- the header rule of the API client and its path builders;
- the cart's list edits and total;
- the order draft built at checkout;
- the quantity stepper, add-to-cart and discount of the product pages;
- the review form;
- the catalogue filters, with their URL parameters, query string and pagination;
- the product creation form;
- the registration form.

Rendering, the network and browser storage are not part of the model. Every
server call becomes a `Response<T>` parameter: `Ok(data)`, or `Failed(message)`
with the server's optional message. The product detail page does not read
that message: it shows the client's own error text, which is a separate
non-empty parameter. Stored tokens are `Option<string>`. The JWT
decoder is a function value, and the clock is a `now` parameter.

One module covers each source file or tightly related pair of files:

- `js.dfy` (`Js`). The JavaScript semantics the views rely on:
  - truthiness defaults such as `x || d`;
  - template-literal stringification of `null`;
  - numbers converted to strings;
  - objects as ordered property lists, where property assignment replaces a
    key in place or appends it.
- `auth.dfy` (`Auth`). The `AuthProvider` class.
- `routes.dfy` (`Routes`, `RouteTable`):
  - the `PrivateRoute` decision;
  - the route table of `App`, with paths split into segments;
  - what each path resolves to for each session. As in the router, segments
    are compared with the lower-case literals of the table ignoring ASCII case,
    and trailing slashes are dropped. A path that does not start with '/' or
    that holds two slashes in a row matches nothing.
- `api.dfy` (`Api`):
  - the request interceptor, as a method that updates the config's headers in place;
  - the endpoint helpers and their inverse;
  - the headers of each call.
- `cart.dfy` (`Cart`). The list edits, the total, and the `CartPage` class.
- `checkout.dfy` (`Checkout`). The payment methods, the order draft, and the
  `CheckoutPage` class.
- `product.dfy` (`ProductPage`):
  - the quantity stepper, add-to-cart, "Buy Now" and the discount;
  - the `ProductInfo` component and the `ProductDetail` page, each as a class.
- `reviews.dfy` (`Reviews`). The review form. The `ReviewList` inside
  `src/pages/Product/ProductDetail.js:13-42` is a copy of
  `src/pages/Product/components/ProductReview.js`, so both are modelled by the
  one class `ReviewPanel`.
- `catalog.dfy` (`Catalog`). The product list page.
- `create_product.dfy` (`ProductForm`):
  - the product schema, which `src/pages/Product/EditProduct.js:58-67` repeats;
  - the file list;
  - the multipart body.
- `register.dfy` (`Registration`). The registration schema, the role menu and
  the submit outcome.

Prices in the cart and at checkout are exact integers in minor units. The
discount formula uses exact reals.

Some facts the proofs establish about the code as written:

- "Buy Now" navigates to `/checkout/<id>`, and a placed order leads to
  `/orders/<id>`. No route of `App` matches either path (`RouteTable.DetailPathsUnrouted`).
- `addReview` always sends an Authorization header. With no stored token it
  reads "Bearer null".
- `getProductById("seller")` builds the same request as `getSellerOrders`.
- Search submit navigates with the filters as they were *before* its own page
  reset.
- After Clear Filters, a newly typed brand becomes the *last* URL parameter,
  while the query string still puts it first.
- The registration schema accepts any non-empty role, not only the two the
  menu offers.
- Reloading a seller page with a valid seller token sends the seller to
  `/unauthorized`. The new provider is already authenticated, but its user is
  still null until the decode effect has run (`RouteTable.ReloadedSellerPageRefused`).

## Model

| member | source | states |
|---|---|---|
| Auth.AuthProvider.constructor | src/context/AuthContext.js:8-9 | the token starts as the stored value, or "" when none is stored; the user starts as null |
| Auth.AuthProvider.DecodeEffect | src/context/AuthContext.js:12-17 | a non-empty token that decodes becomes the user; an empty token does nothing; a decode failure is reported as a throw and the user stays |
| Auth.AuthProvider.Login | src/context/AuthContext.js:19-22 | storage and token both become t; the user is untouched |
| Auth.AuthProvider.Logout | src/context/AuthContext.js:24-29 | storage is cleared, the token becomes "" and the user null, whatever the old state; the page goes to /login |
| Auth.AuthProvider.IsAuthenticated | src/context/AuthContext.js:31-39 | true only for a non-empty token that decodes; a payload without exp is never authenticated |
| Auth.AuthProvider.IsSeller | src/context/AuthContext.js:41-43 | true only when there is a user whose role is "seller"; never without a user |
| Auth.AuthenticatedReadsUser | src/context/AuthContext.js:31-43 | once the effect has stored the decoded token as the user, both checks read the user: authenticated iff its exp*1000 > now, seller iff its role is "seller" |
| Auth.DecodeThenAuthenticate | src/context/AuthContext.js:12-39 | after the decode effect, with a non-empty token that did not throw, the user is the decoded token and the authentication check agrees with the user's expiry |
| Auth.UndecodableIsLoggedOut | src/context/AuthContext.js:32-38 | an empty or undecodable token is never authenticated |
| Auth.ExpiryIsLazy | src/context/AuthContext.js:31-39 | with the state unchanged, authentication is monotone in time and ends once now reaches exp*1000 |
| Auth.ExpiredOneSecondAgo | src/context/AuthContext.js:35 | a token that expired one second ago is not authenticated |
| Auth.SellerIgnoresExpiry | src/context/AuthContext.js:41-43 | an expired seller token still makes the session a seller |
| Auth.LogoutTwice | src/context/AuthContext.js:24-29 | two logouts leave the same state as one |
| Auth.LoginThenDecode | src/context/AuthContext.js:12-22 | after login and the effect, the decoded payload of t is the user, or the effect throws and the user stays |
| Routes.PrivateRoute | src/routes/PrivateRoute.js:4-15 | logged out goes to /login whatever the roles; /unauthorized only when authenticated; empty roles give Outlet; a missing user or a role not listed gives /unauthorized; a listed role gives Outlet |
| Routes.SellerGroupMatchesIsSeller | src/App.js:40 | the seller group's role test admits exactly the users whose role is "seller" |
| Routes.Lower | src/App.js:28-46 | case folding keeps the length and folds each character on its own |
| Routes.LowerIdentity | src/App.js:28-46 | a string without upper-case letters, like every literal of the table, is its own lower-case form |
| Routes.RouteIndex | src/App.js:28-46 | the index it gives names a declared route |
| Routes.FirstMatch | src/App.js:28-46 | a route it returns is declared and matches; none is returned only when no declared route matches |
| Routes.TrimTrailing | src/App.js:28-46 | what remains is a prefix of the path that does not end in '/', and only slashes were dropped |
| Routes.PathOfShaped | src/App.js:28-46 | a path built from non-empty slash-free segments starts with '/', has no repeated slash and no trailing slash |
| Routes.MatchIndexIff | src/App.js:28-46 | each route's pattern matches exactly the segment lists that the index function assigns to it |
| Routes.RoutesAreDisjoint | src/App.js:28-46 | no two declared routes match the same path |
| Routes.RouteDecides | src/App.js:28-46 | a path matched by route k resolves to route k under its guard |
| Routes.SegmentsOfPath | src/App.js:28-46 | splitting a path built from segments gives those segments back |
| RouteTable.ResolvePath | src/App.js:28-46 | a path built from segments that route k matches resolves to route k under its guard |
| RouteTable.ResolveOneSegment | src/App.js:28-46 | "/s" resolves to the route whose pattern is the literal s |
| RouteTable.Unmatched | src/App.js:28-46 | a path whose segments no route claims resolves to no match |
| RouteTable.HomeRoute | src/App.js:28 | "/" renders the home page for every session |
| RouteTable.LoginRoute | src/App.js:29 | "/login" renders for every session |
| RouteTable.RegisterRoute | src/App.js:30 | "/register" renders for every session |
| RouteTable.ProductsRoute | src/App.js:31 | "/products" renders for every session |
| RouteTable.UnauthorizedPathRoute | src/App.js:46 | "/unauthorized" renders for every session |
| RouteTable.PublicRoutes | src/App.js:28-31 | the five public paths, including "/unauthorized" at line 46, render for every session |
| RouteTable.ProfileRoute | src/App.js:34 | "/profile" needs a session and no role |
| RouteTable.CartRoute | src/App.js:35 | "/cart" needs a session and no role |
| RouteTable.CheckoutRoute | src/App.js:36 | "/checkout" needs a session and no role |
| RouteTable.OrdersRoute | src/App.js:37 | "/orders" needs a session and no role |
| RouteTable.SessionRoutes | src/App.js:33-38 | the four paths of the unguarded-role group redirect a logged-out session to /login and render otherwise |
| RouteTable.ProductCreateRoute | src/App.js:41 | "/products/create" needs a session of a seller |
| RouteTable.ProductEditRoute | src/App.js:42 | "/products/edit/<id>" needs a session of a seller |
| RouteTable.SellerOrdersRoute | src/App.js:43 | "/seller/orders" needs a session of a seller |
| RouteTable.SellerRoutes | src/App.js:40-44 | the three seller paths: logged out to /login, non-sellers to /unauthorized, sellers render |
| RouteTable.RolesAcrossGroups | src/App.js:33-44 | a customer session is sent to /unauthorized from seller pages; a seller session may use /cart |
| RouteTable.ReloadedSellerPageRefused | src/context/AuthContext.js:8-43 | a just-mounted provider with an unexpired stored seller token is authenticated with a null user, so every seller page sends it to /unauthorized |
| RouteTable.DetailPathsUnrouted | src/App.js:36-37 | "/checkout/<id>" and "/orders/<id>" match no route |
| RouteTable.UnmatchedUnder | src/App.js:28-46 | "/s/t" matches nothing when s is neither "products" nor "seller", the only literals that lead a longer route |
| RouteTable.TrailingSlashIgnored | src/App.js:28-46 | a trailing slash changes nothing: path + "/" resolves as path does |
| RouteTable.RepeatedSlashUnrouted | src/App.js:28-46 | a path with two slashes in a row before its last segment, such as "//cart", matches no route |
| RouteTable.CaseIgnored | src/App.js:28-46 | paths whose segments agree up to case resolve alike |
| RouteTable.UpperCaseCart | src/App.js:35 | "/CART" is the cart page behind the same session guard as "/cart" |
| Api.Intercept | src/services/api.js:10-16 | the same config comes back; its headers are the interceptor's rule applied to the old ones; url and method are unchanged |
| Api.InterceptedAuthorization | src/services/api.js:11-15 | Authorization is "Bearer <token>" exactly when a non-empty token is stored; with none the headers are untouched; other headers keep their values |
| Api.InterceptedKeys | src/services/api.js:10-16 | header names stay distinct and the only name the interceptor may add is Authorization |
| Api.EndpointRoundTrip | src/services/api.js:18-39 | the method and path each helper builds identify that helper and its argument, except getProductById("seller") |
| Api.SellerIdCollides | src/services/api.js:29-35 | getProductById("seller") sends exactly the request of getSellerOrders |
| Api.RequestHeaders | src/services/api.js:43-53 | instance calls get the interceptor's headers; the review listing sends none; addReview sends its own Authorization from the raw stored value |
| Api.AddReviewAlwaysAuthorized | src/services/api.js:48-53 | addReview always has an Authorization header, "Bearer null" with no token, while an instance call then has none |
| Cart.WithQuantity | src/pages/Cart.js:37-41 | every line of the product gets quantity max(1, q); other lines, length and order stay |
| Cart.Without | src/pages/Cart.js:52-54 | the result holds exactly the lines of the other products, and is no longer |
| Cart.WithoutLength | src/pages/Cart.js:52-54 | as many lines go as the product had, and none of it remains |
| Cart.WithoutAbsent | src/pages/Cart.js:52-54 | removing a product the cart does not hold changes nothing |
| Cart.WithoutAppend | src/pages/Cart.js:52-54 | the filter distributes over concatenation, so order is kept |
| Cart.TotalNonNegative | src/pages/Cart.js:70-73 | with non-negative prices and quantities of at least 1 the total is never negative |
| Cart.TotalAppend | src/pages/Cart.js:70-73 | the total of two lists together is the sum of their totals |
| Cart.TotalWithQuantity | src/pages/Cart.js:37-41 | after a quantity change the subtotal is the rest's total plus the product's unit prices times max(1, q) |
| Cart.TotalWithout | src/pages/Cart.js:52-54 | removing a product lowers the subtotal by exactly its lines' contribution |
| Cart.EditsKeepQuantitiesPositive | src/pages/Cart.js:39 | neither edit introduces a quantity below 1 |
| Cart.WithQuantityIdempotent | src/pages/Cart.js:37-41 | setting the same quantity twice equals setting it once |
| Cart.CartPage.constructor | src/pages/Cart.js:15-16 | no cart yet, and loading |
| Cart.CartPage.FetchCart | src/pages/Cart.js:19-33 | only an authenticated session fetches; the response's cart (maybe null) is stored, a failure keeps the old one; loading ends |
| Cart.CartPage.HandleQuantityChange | src/pages/Cart.js:35-48 | the edited list is pushed; the cart becomes that list only when the push is acknowledged; nothing is pushed without a cart |
| Cart.CartPage.RemoveItem | src/pages/Cart.js:50-60 | the same push-then-store rule with the filtered list |
| Cart.CartPage.Render | src/pages/Cart.js:62-73 | exactly: the login prompt when logged out; loading while loading; "empty" exactly for a null or empty cart, and the summary otherwise, with shipping 0 and total = subtotal = the sum of price*quantity |
| Checkout.NameRoundTrip | src/pages/Order/Checkout.js:122-143 | the three payment names are distinct and lead back to their choice |
| Checkout.Lines | src/pages/Order/Checkout.js:44-47 | one line per cart item, in order, carrying only product id and quantity |
| Checkout.LinesKeepUnits | src/pages/Order/Checkout.js:44-47 | the draft orders as many units as the cart holds |
| Checkout.Draft | src/pages/Order/Checkout.js:43-51 | the draft's lines come from the cart; its payment method names the chosen one; the statuses are "pending" and "processing" |
| Checkout.CheckoutPage.constructor | src/pages/Order/Checkout.js:18-23 | no cart, loading, "credit_card", empty addresses, billing same as shipping |
| Checkout.CheckoutPage.FetchCart | src/pages/Order/Checkout.js:27-39 | the response's cart is stored, a failure keeps the old one; loading ends |
| Checkout.CheckoutPage.SetPaymentMethod | src/pages/Order/Checkout.js:122-143 | the choice becomes the pressed button's method |
| Checkout.CheckoutPage.HandleSubmit | src/pages/Order/Checkout.js:41-58 | a draft is sent exactly when there is a cart; navigation to "/orders/<id>" exactly when it was acknowledged |
| Checkout.CheckoutPage.Render | src/pages/Order/Checkout.js:60-67 | exactly: loading while loading; "empty" for a null or empty cart; and the summary otherwise, whose total equals the subtotal, shipping and tax being 0 |
| Checkout.PlacedOrderIsNonEmpty | src/pages/Order/Checkout.js:41-67 | an order placed from the summary has one line per cart line, in order, and at least one |
| ProductPage.Limit | src/pages/Product/components/ProductInfo.jsx:16 | stock || 1: a stock of 0 counts as 1 |
| ProductPage.StockLimit | src/pages/Product/ProductDetail.js:363 | product?.stock || 1: 1 without a product |
| ProductPage.Step | src/pages/Product/components/ProductInfo.jsx:14-31 | a typed value is taken iff 0 < v <= limit, else ignored; + raises below the limit; - lowers above 1 |
| ProductPage.StepInRange | src/pages/Product/components/ProductInfo.jsx:14-31 | one event keeps the quantity in range |
| ProductPage.RunInRange | src/pages/Product/components/ProductInfo.jsx:6-31 | any sequence of events keeps 1 <= quantity <= max(1, limit) |
| ProductPage.ButtonsMatchHandlers | src/pages/Product/components/ProductInfo.jsx:126-147 | each stepper button is enabled exactly when its handler would change the quantity |
| ProductPage.OutOfStockDisabled | src/pages/Product/components/ProductInfo.jsx:152-166 | out of stock, add-to-cart and checkout are disabled; in stock each follows its in-flight flag |
| ProductPage.DiscountedPrice | src/pages/Product/components/ProductInfo.jsx:11-12 | no discount leaves the price; a discount in [0,100] keeps it in [0, price]; 100% gives 0 |
| ProductPage.DiscountMonotone | src/pages/Product/components/ProductInfo.jsx:11-12 | for a non-negative price a larger discount never gives a higher price, and a strictly larger one on a positive price gives a strictly lower one |
| ProductPage.AddToCartOutcome | src/pages/Product/components/ProductInfo.jsx:33-56 | no token: to /login with nothing sent; otherwise a single {productid, quantity} line when a product is there |
| ProductPage.ProductInfo.constructor | src/pages/Product/components/ProductInfo.jsx:6-8 | quantity 1, not adding, in range |
| ProductPage.ProductInfo.HandleQuantityChange | src/pages/Product/components/ProductInfo.jsx:14-19 | the quantity follows the typed-value step and stays in range |
| ProductPage.ProductInfo.IncrementQuantity | src/pages/Product/components/ProductInfo.jsx:21-25 | the quantity follows the + step and stays in range |
| ProductPage.ProductInfo.DecrementQuantity | src/pages/Product/components/ProductInfo.jsx:27-31 | the quantity follows the - step and stays in range |
| ProductPage.ProductInfo.HandleAddToCart | src/pages/Product/components/ProductInfo.jsx:33-56 | the outcome of add-to-cart; the flag is down afterwards on every path |
| ProductPage.ProductInfo.HandlePlaceOrder | src/pages/Product/components/ProductInfo.jsx:58-60 | navigates to "/checkout/" + the product id |
| ProductPage.PlaceOrderIsUnrouted | src/pages/Product/components/ProductInfo.jsx:58-60 | that path matches no route |
| ProductPage.ProductDetail.constructor | src/pages/Product/ProductDetail.js:330-339 | no product, loading, no error, quantity 1, not adding |
| ProductPage.ProductDetail.FetchProduct | src/pages/Product/ProductDetail.js:341-359 | the product (maybe null) is stored, or on failure the caught error's own non-empty message, so a failed fetch always renders that error text; loading ends |
| ProductPage.ProductDetail.HandleQuantityChange | src/pages/Product/ProductDetail.js:361-366 | the typed-value step with product?.stock || 1, staying in range |
| ProductPage.ProductDetail.IncrementQuantity | src/pages/Product/ProductDetail.js:368-372 | the + step, staying in range |
| ProductPage.ProductDetail.DecrementQuantity | src/pages/Product/ProductDetail.js:374-378 | the - step, staying in range |
| ProductPage.ProductDetail.HandleAddToCart | src/pages/Product/ProductDetail.js:380-403 | as in the component; without a product nothing is sent; the flag is down afterwards |
| ProductPage.ProductDetail.HandlePlaceOrder | src/pages/Product/ProductDetail.js:405-407 | "/checkout/" + the product id, nothing without a product |
| ProductPage.ProductDetail.Render | src/pages/Product/ProductDetail.js:409-416 | exactly: loading while loading; then a stored error, shown as its text; then "not found" without a product; and the product with its discounted price otherwise |
| Reviews.WithField | src/pages/Product/components/ProductReview.js:13-16 | only the named field changes |
| Reviews.FieldEdits | src/pages/Product/components/ProductReview.js:13-16 | a later edit of a field overrides an earlier one; edits of different fields commute |
| Reviews.ReviewPanel.constructor | src/pages/Product/components/ProductReview.js:6-11 | the form is {"", 5, ""} and nothing is submitting |
| Reviews.ReviewPanel.HandleInputChange | src/pages/Product/components/ProductReview.js:13-16 | the form takes the edit; the rating stays a star |
| Reviews.ReviewPanel.ClickStar | src/pages/Product/components/ProductReview.js:103-108 | the rating becomes n in 1..5 and nothing else changes |
| Reviews.ReviewPanel.BeginSubmit | src/pages/Product/components/ProductReview.js:18-22 | the flag rises; the request carries the current form and the addReview headers |
| Reviews.ReviewPanel.FinishSubmit | src/pages/Product/components/ProductReview.js:22-34 | on success the review is appended at the end and the form reset; on failure both stay; the flag is down |
| Reviews.InitialFormIncomplete | src/pages/Product/components/ProductReview.js:6-11 | the initial form, and the form after any single edit, is not complete, so the required inputs block submission |
| Reviews.ReviewPanel.PressSubmit | src/pages/Product/components/ProductReview.js:74-148 | a request is sent exactly when the button is enabled and both required inputs are filled; the flag then rises and the request carries the form with the addReview headers; otherwise nothing changes |
| Reviews.ReviewPanel.HandleSubmit | src/pages/Product/components/ProductReview.js:18-35 | a request is sent exactly when no submission is in flight and title and description are filled; its body is the form at the press; then the success and failure effects as above; otherwise nothing changes |
| Catalog.InitialFilters | src/pages/Product/Products.js:18-24 | keys in order brand, price, search, page, limit; text filters default to ""; page and limit fall back to 1 and 10 and are never 0 |
| Catalog.TruthyParams | src/pages/Product/Products.js:40-43 | the parameters are never more than the filters |
| Catalog.TruthyParamsKeys | src/pages/Product/Products.js:40-43 | every parameter key is a filter key |
| Catalog.TruthyParamsGet | src/pages/Product/Products.js:40-43 | each key's parameter is its filter's value stringified when truthy, and absent otherwise |
| Catalog.UrlParams | src/pages/Product/Products.js:38-47 | the forEach with params.set builds exactly the truthy parameters in property order |
| Catalog.BuildQuery | src/pages/Product/Products.js:54-61 | the repeated += yields the query string |
| Catalog.QueryMatchesParams | src/pages/Product/Products.js:38-61 | for the initial property order, the query string is "?" followed by the serialised URL parameters |
| Catalog.InitialQueryMatchesParams | src/pages/Product/Products.js:18-61 | so on a freshly loaded page the two agree |
| Catalog.ClearedThenBrandOrder | src/pages/Product/Products.js:184 | after Clear Filters and a brand edit, the parameters are page, limit, brand in that order |
| Catalog.ClearedThenBrandQuery | src/pages/Product/Products.js:54-60 | while the query string is "?brand=<b>&page=1&limit=10" |
| Catalog.ThreeLayoutQuery | src/pages/Product/Products.js:54-60 | the query string of properties page, limit, brand |
| Catalog.PreviousTarget | src/pages/Product/Products.js:172-278 | Previous shows iff loading is over, some products are shown and page > 1; it targets page - 1 |
| Catalog.NextTarget | src/pages/Product/Products.js:172-278 | Next shows iff loading is over, some products are shown and their number is the limit; it targets page + 1 |
| Catalog.NextThenPrevious | src/pages/Product/Products.js:257-278 | after following Next, Previous leads back to the page Next was pressed on |
| Catalog.ProductListPage.constructor | src/pages/Product/Products.js:18-24 | the filters are initialised from the URL |
| Catalog.ProductListPage.HandleFilterChange | src/pages/Product/Products.js:49-52 | only the named filter changes |
| Catalog.ProductListPage.HandlePageChange | src/pages/Product/Products.js:69-72 | page becomes n, nothing else changes |
| Catalog.ProductListPage.HandleSearchSubmit | src/pages/Product/Products.js:63-67 | page becomes 1; navigation uses the query of the filters before that reset |
| Catalog.ProductListPage.ClearFilters | src/pages/Product/Products.js:172-186 | offered only once loading is over with no product found; the filters become {page: 1, limit: 10} |
| Catalog.ProductListPage.FetchProducts | src/pages/Product/Products.js:26-36 | the request carries the filters; the response replaces the products; loading ends |
| ProductForm.EachFieldRequired | src/pages/Product/CreateProduct.js:8-17 | clearing any one field of an accepted form makes it fail; a zero price fails, a zero stock passes, a fractional stock fails |
| ProductForm.InitialValuesRejected | src/pages/Product/CreateProduct.js:64-70 | the all-empty initial form fails the schema |
| ProductForm.StockCount | src/pages/Product/CreateProduct.js:13-16 | an accepted stock is a natural number |
| ProductForm.Tagged | src/pages/Product/CreateProduct.js:48-52 | the selection in order, each tagged with the field name |
| ProductForm.ValueEntries | src/pages/Product/CreateProduct.js:27-29 | the values are appended under name, type, brand, price, stock in that order |
| ProductForm.FileParts | src/pages/Product/CreateProduct.js:31-37 | one append per file, in order, under "image" or "images" |
| ProductForm.FilePartsUnder | src/pages/Product/CreateProduct.js:31-37 | "image" holds the primary files and "images" all others, each in order |
| ProductForm.FilesSplit | src/pages/Product/CreateProduct.js:31-37 | every file lands under exactly one of the two keys |
| ProductForm.FormDataContents | src/pages/Product/CreateProduct.js:26-37 | getAll of each value key gives that value alone; getAll of the file keys gives the files split by input |
| ProductForm.BuildFormData | src/pages/Product/CreateProduct.js:26-37 | the two loops build the values followed by the files |
| ProductForm.CreateProductPage.constructor | src/pages/Product/CreateProduct.js:21-22 | no files, no error, nothing submitting |
| ProductForm.CreateProductPage.HandleFileChange | src/pages/Product/CreateProduct.js:48-54 | the new files go after the old ones in selection order |
| ProductForm.CreateProductPage.PressSubmit | src/pages/Product/CreateProduct.js:70-174 | the body is sent exactly when no submission is pending and the schema accepts; the flag then rises; otherwise nothing changes |
| ProductForm.CreateProductPage.FinishSubmit | src/pages/Product/CreateProduct.js:40-45 | success goes to /products; failure shows the server message or "Product creation failed"; the flag comes down |
| ProductForm.CreateProductPage.HandleSubmit | src/pages/Product/CreateProduct.js:24-46 | sent exactly when no submission is pending and the schema accepts; success goes to /products; failure shows the server message or "Product creation failed"; nothing changes when nothing is sent |
| ProductForm.FailureIsShown | src/pages/Product/CreateProduct.js:42 | the shown error is never empty |
| Registration.RoleValues | src/pages/Auth/Register.js:18-21 | the menu offers customer and seller |
| Registration.DefaultRoleIsOffered | src/pages/Auth/Register.js:53 | the default role is "customer", the first offered |
| Registration.InitialValuesRejected | src/pages/Auth/Register.js:46-54 | the initial form fails the schema |
| Registration.EachFieldRequired | src/pages/Auth/Register.js:8-16 | clearing any one field of an accepted form makes it fail |
| Registration.PasswordLength | src/pages/Auth/Register.js:12 | a password shorter than 6 fails |
| Registration.RoleNotRestricted | src/pages/Auth/Register.js:15 | any non-empty role passes, also one not offered |
| Registration.Submit | src/pages/Auth/Register.js:27-165 | nothing is sent while a submission is pending or unless the schema accepts; success goes to /login; failure shows a non-empty message, the server's or "Registration failed" |

## Left out

- Rendering, alerts, toasts, console logging and styling. Only the decisions the views take are modelled.
- The network and the backend. Every request's outcome is a parameter.
- `localStorage` is an `Option<string>`, with no storage I/O.
- `jwtDecode` is an abstract `decode` function and `Date.now()` a `now` parameter. Yup's email format test is the abstract `isEmail`.
- React's scheduling of effects and state updates. Each handler's state updates are applied in order. The fetch effects are separate methods, and when they re-run is not modelled.
- Auth.AuthProvider.DecodeEffect: the uncaught throw of a failed decode is reported as `threw`, not as a crash of the provider.
- Floating point. Money in the cart and checkout is an exact integer, so `toFixed` rounding is not modelled.
- Cart.WithQuantity: `parseInt` of a non-numeric input, which gives `Math.max(1, NaN)` = NaN, is not modelled; the new quantity is an integer.
- Checkout: the shipping and billing address fields are collected but never sent, so only their initial values are modelled.
- URL encoding in the parameters and the query string. Values are taken as needing no escapes.
- Several modelled views are not reachable from the route table of `src/App.js`. They are modelled on their own:
  - `ProductInfo`, `ProductDetail` and `ProductReview`;
  - `Catalog`, the page of `src/pages/Product/Products.js`: line 31 of `src/App.js` routes `/products` to the page imported at line 19 from `./pages/Product/List`, which is not part of this model;
  - `ProductForm`, the page of `src/pages/Product/CreateProduct.js`: line 10 of `src/App.js` imports the create page from `./pages/Product/Create`, which is not part of this model.
- The cart has no stock cap and does not replace its list from the server response. The code floors the quantity at 1 and stores the list it built; the model follows the code.
- The FormData's stringification of numbers and its File objects. Values keep their type, and files are opaque references.
- Catalog.InitialFilters: `Number(...)` of a page or limit such as "2.5" gives a fractional number, which the model does not represent. Page and limit are integers or NaN, so a fractional page reaching the query string, Previous's `page > 1` test or Next's `===` test is not modelled.
- ProductPage.ProductDetail.FetchProduct: when the product id changes while the page is mounted, the effect re-runs and keeps the old quantity. If the new product has a smaller stock, that quantity can exceed the new limit. The steppers' `requires Valid()` then does not hold, so the model does not cover a stepper event in that state.
- `RouteTable.ProductEditRoute` and `RouteTable.DetailPathsUnrouted` are stated for slash-free, non-empty ids.
- Routes.Resolve: URL decoding of path segments and case folding beyond ASCII are not modelled.
- Registration.PasswordLength: strings are sequences of Unicode code points, while Yup's `.min(6)` and `required` count UTF-16 code units. A password with characters outside the Basic Multilingual Plane is longer for Yup than for the model; the same holds for every required text field of `Registration.RegisterSchema` and `ProductForm.ProductSchema`.
