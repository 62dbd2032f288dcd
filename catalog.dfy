/** The product list page's filters: their defaults read from the URL, the
    handlers that edit them, the URL parameters the sync effect writes, the
    query string the search form navigates to, and the pagination buttons. */
module Catalog {
  import opened Js

  /** A filter value: the text inputs hold strings, page and limit numbers. */
  datatype FilterValue = Text(s: string) | Int(n: int)

  /** JavaScript truthiness of a filter value. */
  predicate Truthy(v: FilterValue)
  {
    match v
    case Text(s) => s != ""
    case Int(n) => n != 0
  }

  /** `value.toString()`. */
  function ValueString(v: FilterValue): string
  {
    match v
    case Text(s) => s
    case Int(n) => IntToString(n)
  }

  /** `${filters.k}` of a property that may be absent. */
  function FieldString(v: Option<FilterValue>): string
  {
    match v
    case None => "undefined"
    case Some(x) => ValueString(x)
  }

  /** The filters object, in property order. */
  type Filters = Entries<FilterValue>

  /** The state initialiser: each text filter is its URL parameter or "", page
      and limit are `Number(param)`, falling back to 1 and 10 when that is 0
      or NaN. */
  function InitialFilters(brand: Option<string>, price: Option<string>, search: Option<string>, page: Number, limit: Number): (f: Filters)
    ensures Keys(f) == ["brand", "price", "search", "page", "limit"]
    ensures f[0].1 == Text(NullOr(brand, "")) && f[1].1 == Text(NullOr(price, "")) && f[2].1 == Text(NullOr(search, ""))
    ensures f[3].1 == Int(NumberOr(page, 1)) && f[4].1 == Int(NumberOr(limit, 10))
    ensures f[3].1.n != 0 && f[4].1.n != 0
  {
    [("brand", Text(NullOr(brand, ""))),
     ("price", Text(NullOr(price, ""))),
     ("search", Text(NullOr(search, ""))),
     ("page", Int(NumberOr(page, 1))),
     ("limit", Int(NumberOr(limit, 10)))]
  }

  /** Clear Filters: only page 1 and limit 10 remain. */
  const ClearedFilters: Filters := [("page", Int(1)), ("limit", Int(10))]

  /** The three inputs that call `handleFilterChange`. */
  datatype TextFilter = Brand | Price | Search

  function KeyOf(t: TextFilter): string
  {
    match t
    case Brand => "brand"
    case Price => "price"
    case Search => "search"
  }

  /** The numeric value of a property, when it holds a number. */
  function NumberAt(f: Filters, k: string): Option<int>
  {
    var v := Get(f, k);
    if v.Some? && v.value.Int? then Some(v.value.n) else None
  }

  // ---------------------------------------------------------------------
  // The URL parameters of the sync effect

  /** The entries whose value is truthy, stringified, in property order. */
  function TruthyParams(f: Filters): (r: Entries<string>)
    ensures |r| <= |f|
  {
    if f == [] then []
    else if Truthy(f[0].1) then [(f[0].0, ValueString(f[0].1))] + TruthyParams(f[1..])
    else TruthyParams(f[1..])
  }

  /** The parameter a single property contributes. */
  function ParamOf(v: Option<FilterValue>): Option<string>
  {
    match v
    case None => None
    case Some(x) => if Truthy(x) then Some(ValueString(x)) else None
  }

  /** Every key of the parameters is a key of the filters. */
  lemma {:induction false} TruthyParamsKeys(f: Filters, k: string)
    ensures HasKey(TruthyParams(f), k) ==> HasKey(f, k)
  {
    if f != [] && HasKey(TruthyParams(f), k) {
      var r := TruthyParams(f);
      var i :| 0 <= i < |r| && r[i].0 == k;
      if Truthy(f[0].1) && i == 0 {
        assert f[0].0 == k;
      } else {
        var j := if Truthy(f[0].1) then i - 1 else i;
        assert TruthyParams(f[1..])[j].0 == k;
        TruthyParamsKeys(f[1..], k);
        var m :| 0 <= m < |f[1..]| && f[1..][m].0 == k;
        assert f[m + 1].0 == k;
      }
    }
  }

  /** Under distinct keys, the key of the first property occurs nowhere after it. */
  lemma FirstKeyIsUnique(f: Filters)
    requires UniqueKeys(f) && f != []
    ensures UniqueKeys(f[1..]) && !HasKey(f[1..], f[0].0)
  {
    forall i, j | 0 <= i < j < |f[1..]| ensures f[1..][i].0 != f[1..][j].0 {
      assert f[1..][i] == f[i + 1] && f[1..][j] == f[j + 1];
    }
    forall m | 0 <= m < |f[1..]| ensures f[1..][m].0 != f[0].0 {
      assert f[1..][m] == f[m + 1];
    }
  }

  /** The parameters hold exactly the truthy properties, each under its own
      key, stringified. */
  lemma {:induction false} TruthyParamsGet(f: Filters, k: string)
    requires UniqueKeys(f)
    ensures Get(TruthyParams(f), k) == ParamOf(Get(f, k))
  {
    if f != [] {
      FirstKeyIsUnique(f);
      TruthyParamsGet(f[1..], k);
    }
  }

  /** `URLSearchParams.set` replaces an existing key in place and appends a
      new one: the same rule as a property assignment. */
  function SetParam(params: Entries<string>, k: string, v: string): Entries<string>
  {
    Put(params, k, v)
  }

  /** The effect's `forEach`: each truthy property is set on an initially
      empty parameter list. */
  method UrlParams(f: Filters) returns (params: Entries<string>)
    requires UniqueKeys(f)
    ensures params == TruthyParams(f)
  {
    params := [];
    var i := 0;
    while i < |f|
      invariant 0 <= i <= |f|
      invariant params == TruthyParams(f[..i])
    {
      var (k, v) := f[i];
      if Truthy(v) {
        assert !HasKey(f[..i], k) by {
          forall m | 0 <= m < i ensures f[..i][m].0 != k {
            assert f[..i][m] == f[m];
          }
        }
        TruthyParamsKeys(f[..i], k);
        params := SetParam(params, k, ValueString(v));
      }
      TruthyParamsSnoc(f, i);
      i := i + 1;
    }
    assert f[..|f|] == f;
  }

  lemma {:induction false} TruthyParamsAppend(a: Filters, b: Filters)
    ensures TruthyParams(a + b) == TruthyParams(a) + TruthyParams(b)
  {
    if a == [] {
      assert a + b == b;
    } else {
      assert (a + b)[0] == a[0] && (a + b)[1..] == a[1..] + b;
      TruthyParamsAppend(a[1..], b);
    }
  }

  lemma TruthyParamsSnoc(f: Filters, i: nat)
    requires i < |f|
    ensures TruthyParams(f[..i + 1]) ==
      TruthyParams(f[..i]) + (if Truthy(f[i].1) then [(f[i].0, ValueString(f[i].1))] else [])
  {
    assert f[..i + 1] == f[..i] + [f[i]];
    TruthyParamsAppend(f[..i], [f[i]]);
  }

  /** `URLSearchParams.toString()` for values that need no percent-encoding. */
  function Serialize(params: Entries<string>): string
  {
    if params == [] then ""
    else if |params| == 1 then params[0].0 + "=" + params[0].1
    else params[0].0 + "=" + params[0].1 + "&" + Serialize(params[1..])
  }

  // ---------------------------------------------------------------------
  // The query string of the search form

  /** One optional `name=value&` piece: present only for a truthy value. */
  function Part(name: string, v: Option<FilterValue>): string
  {
    if v.Some? && Truthy(v.value) then name + "=" + FieldString(v) + "&" else ""
  }

  /** The `?brand=…&price=…&search=…&page=…&limit=…` string: each text filter
      only when truthy, page and limit always, nothing encoded. */
  function QueryString(f: Filters): string
  {
    "?" + Part("brand", Get(f, "brand")) + Part("price", Get(f, "price")) + Part("search", Get(f, "search"))
    + "page=" + FieldString(Get(f, "page")) + "&limit=" + FieldString(Get(f, "limit"))
  }

  /** `setParams`, building the string by repeated `+=`. */
  method BuildQuery(f: Filters) returns (q: string)
    ensures q == QueryString(f)
  {
    var brand, price, search := Get(f, "brand"), Get(f, "price"), Get(f, "search");
    var brandKey, priceKey, searchKey := "brand=", "price=", "search=";
    assert brandKey == "brand" + "=" && priceKey == "price" + "=" && searchKey == "search" + "=";
    q := "?";
    if brand.Some? && Truthy(brand.value) {
      q := q + (brandKey + FieldString(brand) + "&");
    }
    assert q == "?" + Part("brand", brand);
    if price.Some? && Truthy(price.value) {
      q := q + (priceKey + FieldString(price) + "&");
    }
    assert q == "?" + Part("brand", brand) + Part("price", price);
    if search.Some? && Truthy(search.value) {
      q := q + (searchKey + FieldString(search) + "&");
    }
    var q0 := q;
    assert q0 == "?" + Part("brand", brand) + Part("price", price) + Part("search", search);
    var page, limit := FieldString(Get(f, "page")), FieldString(Get(f, "limit"));
    q := q + ("page=" + page + "&limit=" + limit);
    Assoc(q0, "page=" + page + "&limit=", limit);
    Assoc(q0, "page=" + page, "&limit=");
    Assoc(q0, "page=", page);
  }

  /** The value of a property whose key no earlier property has. */
  lemma {:induction false} GetAt(f: Filters, i: nat)
    requires i < |f| && forall j :: 0 <= j < i ==> f[j].0 != f[i].0
    ensures Get(f, f[i].0) == Some(f[i].1)
  {
    if i > 0 {
      assert f[1..][i - 1] == f[i];
      GetAt(f[1..], i - 1);
    }
  }

  lemma TruthyParamsCons(f: Filters)
    requires f != []
    ensures TruthyParams(f) == TruthyParams([f[0]]) + TruthyParams(f[1..])
  {
    assert f == [f[0]] + f[1..];
    TruthyParamsAppend([f[0]], f[1..]);
  }

  /** Prepending one property to a non-empty parameter list. */
  lemma SerializePrefix(e: (string, FilterValue), rest: Entries<string>)
    requires rest != []
    ensures Serialize(TruthyParams([e]) + rest) == Part(e.0, Some(e.1)) + Serialize(rest)
  {
    if Truthy(e.1) {
      var r := TruthyParams([e]) + rest;
      assert TruthyParams([e]) == [(e.0, ValueString(e.1))] by {
        assert [e][1..] == [];
      }
      assert r[0] == (e.0, ValueString(e.1)) && r[1..] == rest;
    } else {
      assert TruthyParams([e]) == [] by {
        assert [e][1..] == [];
      }
      assert TruthyParams([e]) + rest == rest;
    }
  }

  /** The property order the initialiser produces. */
  predicate InitialLayout(f: Filters)
  {
    |f| == 5 && f[0].0 == "brand" && f[1].0 == "price" && f[2].0 == "search" && f[3].0 == "page" && f[4].0 == "limit"
  }

  lemma LayoutGets(f: Filters)
    requires InitialLayout(f)
    ensures Get(f, "brand") == Some(f[0].1) && Get(f, "price") == Some(f[1].1) && Get(f, "search") == Some(f[2].1)
    ensures Get(f, "page") == Some(f[3].1) && Get(f, "limit") == Some(f[4].1)
  {
    GetAt(f, 0);
    GetAt(f, 1);
    GetAt(f, 2);
    GetAt(f, 3);
    GetAt(f, 4);
  }

  /** The parameter string of such filters, piece by piece. */
  lemma LayoutSerialize(f: Filters)
    requires InitialLayout(f) && Truthy(f[3].1) && Truthy(f[4].1)
    ensures Serialize(TruthyParams(f)) ==
      Part("brand", Some(f[0].1)) + (Part("price", Some(f[1].1)) + (Part("search", Some(f[2].1)) +
      ("page=" + ValueString(f[3].1) + "&limit=" + ValueString(f[4].1))))
  {
    var tail := [("page", ValueString(f[3].1)), ("limit", ValueString(f[4].1))];
    assert Serialize(tail) == "page=" + ValueString(f[3].1) + "&limit=" + ValueString(f[4].1) by {
      assert tail[1..] == [("limit", ValueString(f[4].1))];
    }
    assert TruthyParams(f[3..]) == tail by {
      assert f[3..][0] == f[3] && f[3..][1..] == f[4..];
      assert f[4..][0] == f[4] && f[4..][1..] == [];
    }
    TruthyParamsCons(f[2..]);
    assert f[2..][0] == f[2] && f[2..][1..] == f[3..];
    SerializePrefix(f[2], tail);
    TruthyParamsCons(f[1..]);
    assert f[1..][0] == f[1] && f[1..][1..] == f[2..];
    SerializePrefix(f[1], TruthyParams(f[2..]));
    TruthyParamsCons(f);
    SerializePrefix(f[0], TruthyParams(f[1..]));
  }

  /** For filters laid out as the initialiser lays them out (brand, price,
      search, page, limit, with page and limit truthy), the navigated query
      string and the parameters the sync effect writes spell the same thing. */
  lemma QueryMatchesParams(f: Filters)
    requires InitialLayout(f) && Truthy(f[3].1) && Truthy(f[4].1)
    ensures QueryString(f) == "?" + Serialize(TruthyParams(f))
  {
    LayoutGets(f);
    LayoutSerialize(f);
    var pb, pp, ps := Part("brand", Some(f[0].1)), Part("price", Some(f[1].1)), Part("search", Some(f[2].1));
    var v3, v4 := FieldString(Some(f[3].1)), FieldString(Some(f[4].1));
    var t := "page=" + v3 + "&limit=" + v4;
    Assoc("?", pb, pp + (ps + t));
    Assoc("?" + pb, pp, ps + t);
    Assoc("?" + pb + pp, ps, t);
    var x := "?" + pb + pp + ps;
    Assoc(x, "page=" + v3 + "&limit=", v4);
    Assoc(x, "page=" + v3, "&limit=");
    Assoc(x, "page=", v3);
  }

  lemma Assoc(a: string, b: string, c: string)
    ensures a + (b + c) == a + b + c
  {
  }

  /** The initial filters are laid out that way. */
  lemma InitialQueryMatchesParams(brand: Option<string>, price: Option<string>, search: Option<string>, page: Number, limit: Number)
    ensures QueryString(InitialFilters(brand, price, search, page, limit))
      == "?" + Serialize(TruthyParams(InitialFilters(brand, price, search, page, limit)))
  {
    var f := InitialFilters(brand, price, search, page, limit);
    assert f[0].0 == Keys(f)[0] && f[1].0 == Keys(f)[1] && f[2].0 == Keys(f)[2];
    assert f[3].0 == Keys(f)[3] && f[4].0 == Keys(f)[4];
    assert InitialLayout(f);
    QueryMatchesParams(f);
  }

  /** After Clear Filters and a brand edit, the brand property comes last, so
      the parameters list it after page and limit while the query string puts
      it first. */
  lemma ClearedThenBrandOrder(b: string)
    requires b != ""
    ensures Keys(TruthyParams(Put(ClearedFilters, "brand", Text(b)))) == ["page", "limit", "brand"]
  {
    var f := Put(ClearedFilters, "brand", Text(b));
    assert !HasKey(ClearedFilters, "brand") by {
      assert ClearedFilters[0].0 == "page" && ClearedFilters[1].0 == "limit";
    }
    assert f == ClearedFilters + [("brand", Text(b))];
    TruthyParamsAppend(ClearedFilters, [("brand", Text(b))]);
    assert TruthyParams([("brand", Text(b))]) == [("brand", b)] by {
      assert [("brand", Text(b))][1..] == [];
    }
    var c := ClearedFilters;
    assert TruthyParams(c) == [("page", ValueString(c[0].1)), ("limit", ValueString(c[1].1))] by {
      assert c[1..] == [c[1]] && c[1..][1..] == [];
    }
  }

  /** The query string of those filters still starts with the brand. */
  lemma ClearedThenBrandQuery(b: string)
    requires b != ""
    ensures QueryString(Put(ClearedFilters, "brand", Text(b))) == "?" + ("brand=" + b + "&") + "page=" + "1" + "&limit=" + "10"
  {
    var f := Put(ClearedFilters, "brand", Text(b));
    assert f == [("page", Int(1)), ("limit", Int(10)), ("brand", Text(b))] by {
      assert !HasKey(ClearedFilters, "brand") by {
        assert ClearedFilters[0].0 == "page" && ClearedFilters[1].0 == "limit";
      }
    }
    assert IntToString(1) == "1" && IntToString(10) == "10";
    ThreeLayoutQuery(f, 1, 10, b);
  }

  /** The query string of the properties page, limit and brand, in that order. */
  lemma ThreeLayoutQuery(f: Filters, page: int, limit: int, b: string)
    requires |f| == 3 && f[0] == ("page", Int(page)) && f[1] == ("limit", Int(limit)) && f[2] == ("brand", Text(b))
    requires b != ""
    ensures QueryString(f) == "?" + ("brand=" + b + "&") + "page=" + IntToString(page) + "&limit=" + IntToString(limit)
  {
    ThreeLayoutGets(f, page, limit, b);
    var pb, pp, ps := Part("brand", Get(f, "brand")), Part("price", Get(f, "price")), Part("search", Get(f, "search"));
    assert pb == "brand=" + b + "&";
    assert pp == "" && ps == "";
    var x := "?" + pb;
    assert x + pp + ps == x;
  }

  lemma ThreeLayoutGets(f: Filters, page: int, limit: int, b: string)
    requires |f| == 3 && f[0] == ("page", Int(page)) && f[1] == ("limit", Int(limit)) && f[2] == ("brand", Text(b))
    ensures Get(f, "brand") == Some(Text(b)) && Get(f, "page") == Some(Int(page)) && Get(f, "limit") == Some(Int(limit))
    ensures Get(f, "price") == None && Get(f, "search") == None
  {
    GetAt(f, 0);
    GetAt(f, 1);
    GetAt(f, 2);
  }

  // ---------------------------------------------------------------------
  // The page

  /** The pagination row. It is rendered only once loading has ended and the
      page came back with at least one product; otherwise the page shows the
      spinner, or "no products" with only Clear Filters. Within it, Previous
      shows when the page is above 1, pointing one back. */
  function PreviousTarget(f: Filters, loading: bool, shown: nat): (t: Option<int>)
    ensures t.Some? <==> !loading && shown > 0 && NumberAt(f, "page").Some? && NumberAt(f, "page").value > 1
    ensures t.Some? ==> t.value == NumberAt(f, "page").value - 1 && t.value >= 1
  {
    if loading || shown == 0 then None
    else match NumberAt(f, "page")
      case Some(n) => if n > 1 then Some(n - 1) else None
      case None => None
  }

  /** Next shows when the page came back full, pointing one on. */
  function NextTarget(f: Filters, loading: bool, shown: nat): (t: Option<int>)
    ensures t.Some? <==> !loading && shown > 0 && NumberAt(f, "limit") == Some(shown) && NumberAt(f, "page").Some?
    ensures t.Some? ==> t.value == NumberAt(f, "page").value + 1
  {
    if !loading && shown > 0 && NumberAt(f, "limit") == Some(shown) && NumberAt(f, "page").Some? then Some(NumberAt(f, "page").value + 1)
    else None
  }

  /** Following Next from a page of at least 1 (`g` holds the filters after
      `handlePageChange` to Next's target) and loading a non-empty page there
      offers Previous back to the page left. */
  lemma NextThenPrevious(f: Filters, g: Filters, shown: nat, shown': nat)
    requires NextTarget(f, false, shown).Some?
    requires NumberAt(g, "page") == NextTarget(f, false, shown)
    requires shown' > 0
    ensures NumberAt(f, "page").value >= 1 ==> PreviousTarget(g, false, shown') == NumberAt(f, "page")
  {
  }

  class ProductListPage {
    var filters: Filters
    /** The number of products of the last fetch. */
    var shown: nat
    var loading: bool

    /** The properties are distinct and page and limit are always there. */
    predicate Valid()
      reads this
    {
      UniqueKeys(filters) && HasKey(filters, "page") && HasKey(filters, "limit")
    }

    constructor (brand: Option<string>, price: Option<string>, search: Option<string>, page: Number, limit: Number)
      ensures filters == InitialFilters(brand, price, search, page, limit)
      ensures shown == 0 && loading
      ensures Valid()
    {
      filters := InitialFilters(brand, price, search, page, limit);
      shown := 0;
      loading := true;
      new;
      assert filters[3].0 == "page" && filters[4].0 == "limit";
    }

    /** `handleFilterChange` for one of the text inputs: that property takes
        the typed string and nothing else changes. */
    method HandleFilterChange(t: TextFilter, value: string)
      requires Valid()
      modifies this`filters
      ensures filters == Put(old(filters), KeyOf(t), Text(value))
      ensures Get(filters, KeyOf(t)) == Some(Text(value))
      ensures forall k :: k != KeyOf(t) ==> Get(filters, k) == Get(old(filters), k)
      ensures Valid()
    {
      PutTo(KeyOf(t), Text(value));
    }

    /** `handlePageChange(n)`. */
    method HandlePageChange(n: int)
      requires Valid()
      modifies this`filters
      ensures filters == Put(old(filters), "page", Int(n))
      ensures NumberAt(filters, "page") == Some(n)
      ensures forall k :: k != "page" ==> Get(filters, k) == Get(old(filters), k)
      ensures Valid()
    {
      PutTo("page", Int(n));
    }

    method PutTo(k: string, v: FilterValue)
      requires Valid()
      modifies this`filters
      ensures filters == Put(old(filters), k, v)
      ensures Get(filters, k) == Some(v)
      ensures forall k' :: k' != k ==> Get(filters, k') == Get(old(filters), k')
      ensures Valid()
    {
      var before := filters;
      filters := Put(filters, k, v);
      PutUnique(before, k, v);
      PutGet(before, k, v, k);
      forall k' | k' != k ensures Get(filters, k') == Get(before, k') {
        PutGet(before, k, v, k');
      }
      PutGet(before, k, v, "page");
      PutGet(before, k, v, "limit");
    }

    /** `handleSearchSubmit`: page goes back to 1, and the navigation uses the
        query string of the filters as they were before that reset. */
    method HandleSearchSubmit() returns (navigateTo: string)
      requires Valid()
      modifies this`filters
      ensures navigateTo == QueryString(old(filters))
      ensures NumberAt(filters, "page") == Some(1)
      ensures forall k :: k != "page" ==> Get(filters, k) == Get(old(filters), k)
      ensures Valid()
    {
      navigateTo := BuildQuery(filters);
      PutTo("page", Int(1));
    }

    /** The Clear Filters button, which exists only once loading is over and
        no product was found. */
    method ClearFilters()
      requires !loading && shown == 0
      modifies this`filters
      ensures filters == ClearedFilters
      ensures Valid()
    {
      filters := ClearedFilters;
      assert filters[0].0 == "page" && filters[1].0 == "limit";
    }

    /** `fetchProducts`: the request carries the filters as they are; a
        response replaces the list; loading ends either way. */
    method FetchProducts(response: Response<nat>) returns (query: Filters)
      modifies this`shown, this`loading
      ensures query == filters
      ensures response.Ok? ==> shown == response.data
      ensures response.Failed? ==> shown == old(shown)
      ensures !loading
    {
      query := filters;
      if response.Ok? {
        shown := response.data;
      }
      loading := false;
    }
  }
}
