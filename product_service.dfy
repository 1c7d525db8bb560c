/** The request building of src/api/services/ProductService.example.ts:
    which product filters become query parameters and in what order, the
    resulting endpoint, and the id-based endpoints. The serialisation of a
    parameter value by `URLSearchParams` is the oracle `escape`; the
    parameter names are plain letters and `_`, which it leaves as they are. */
module ProductQuery {
  import opened Base
  import opened ApiClient

  /** `ProductFilters`; `None` is an absent member. Prices are integers. */
  datatype ProductFilters = ProductFilters(
    page: Option<int>,
    limit: Option<int>,
    search: Option<string>,
    categoryId: Option<int>,
    isActive: Option<bool>,
    priceMin: Option<int>,
    priceMax: Option<int>)

  const NoFilters: ProductFilters := ProductFilters(None, None, None, None, None, None, None)

  type Param = (string, string)

  /** JavaScript truthiness of an optional number: present and not 0. */
  predicate NonZero(n: Option<int>) {
    n.Some? && n.value != 0
  }

  function BoolText(b: bool): string {
    if b then "true" else "false"
  }

  /** The text appended for a numeric filter, when it is appended at all. */
  function NumberValue(n: Option<int>): (v: Option<string>)
    ensures v.Some? <==> NonZero(n)
    ensures v.Some? ==> v.value == IntToString(n.value)
  {
    if NonZero(n) then Some(IntToString(n.value)) else None
  }

  function SearchValue(f: ProductFilters): (v: Option<string>)
    ensures v.Some? <==> Truthy(f.search)
    ensures v.Some? ==> v == f.search
  {
    if Truthy(f.search) then f.search else None
  }

  /** `is_active` is tested with `!== undefined`, so `false` is appended too. */
  function ActiveValue(f: ProductFilters): (v: Option<string>)
    ensures v.Some? <==> f.isActive.Some?
    ensures f.isActive == Some(false) ==> v == Some("false")
    ensures f.isActive == Some(true) ==> v == Some("true")
  {
    match f.isActive
    case None => None
    case Some(b) => Some(BoolText(b))
  }

  /** One conditional `params.append(key, value)`: afterwards `key` looks
      up the value, if any, and every other name looks up nothing. */
  function Append(key: string, value: Option<string>): (ps: seq<Param>)
    ensures |ps| <= 1
    ensures forall k :: Lookup(ps, k) == if k == key then value else None
  {
    if value.Some? then [(key, value.value)] else []
  }

  /** Every filter is absent or one that `getProducts` omits. */
  predicate AllOmitted(f: ProductFilters) {
    !NonZero(f.page) && !NonZero(f.limit) && !Truthy(f.search) && !NonZero(f.categoryId) &&
    f.isActive == None && !NonZero(f.priceMin) && !NonZero(f.priceMax)
  }

  /** The parameters `getProducts` appends, in the order it appends them:
      at most one per filter, and none exactly when every filter is omitted. */
  function Params(f: ProductFilters): (ps: seq<Param>)
    ensures |ps| <= 7
    ensures ps == [] <==> AllOmitted(f)
  {
    Append("page", NumberValue(f.page)) + Append("limit", NumberValue(f.limit)) +
    Append("search", SearchValue(f)) + Append("category_id", NumberValue(f.categoryId)) +
    Append("is_active", ActiveValue(f)) + Append("price_min", NumberValue(f.priceMin)) +
    Append("price_max", NumberValue(f.priceMax))
  }

  /** `params.get(key)`: the value of the first parameter named `key`. */
  function Lookup(ps: seq<Param>, key: string): Option<string>
    decreases |ps|
  {
    if |ps| == 0 then None else if ps[0].0 == key then Some(ps[0].1) else Lookup(ps[1..], key)
  }

  lemma {:induction false} LookupAppend(a: seq<Param>, b: seq<Param>, key: string)
    ensures Lookup(a + b, key) == if Lookup(a, key).Some? then Lookup(a, key) else Lookup(b, key)
    decreases |a|
  {
    if |a| > 0 {
      assert (a + b)[1..] == a[1..] + b;
      LookupAppend(a[1..], b, key);
    } else {
      assert a + b == b;
    }
  }

  /** The value each parameter name should carry, stated name by name
      independently of the order of `Params`: numbers when non-zero, the
      search term when non-empty, `is_active` whenever given, and nothing
      for any other name. */
  function Selected(f: ProductFilters, key: string): Option<string> {
    if key == "page" then NumberValue(f.page)
    else if key == "limit" then NumberValue(f.limit)
    else if key == "search" then SearchValue(f)
    else if key == "category_id" then NumberValue(f.categoryId)
    else if key == "is_active" then ActiveValue(f)
    else if key == "price_min" then NumberValue(f.priceMin)
    else if key == "price_max" then NumberValue(f.priceMax)
    else None
  }

  /** One conditional append changes only the lookup of its own name, and
      only when that name was not already present. */
  lemma LookupAfter(prefix: seq<Param>, k: string, v: Option<string>, key: string)
    ensures Lookup(prefix + Append(k, v), key) ==
      if Lookup(prefix, key).Some? then Lookup(prefix, key) else if key == k then v else None
  {
    LookupAppend(prefix, Append(k, v), key);
    if v.Some? {
      assert Append(k, v)[1..] == [];
    }
  }

  /** The appended parameters carry exactly the selected values. */
  lemma ParamLookup(f: ProductFilters, key: string)
    ensures Lookup(Params(f), key) == Selected(f, key)
  {
    var p0 := Append("page", NumberValue(f.page));
    var p1 := p0 + Append("limit", NumberValue(f.limit));
    var p2 := p1 + Append("search", SearchValue(f));
    var p3 := p2 + Append("category_id", NumberValue(f.categoryId));
    var p4 := p3 + Append("is_active", ActiveValue(f));
    var p5 := p4 + Append("price_min", NumberValue(f.priceMin));
    assert [] + p0 == p0;
    LookupAfter([], "page", NumberValue(f.page), key);
    LookupAfter(p0, "limit", NumberValue(f.limit), key);
    LookupAfter(p1, "search", SearchValue(f), key);
    LookupAfter(p2, "category_id", NumberValue(f.categoryId), key);
    LookupAfter(p3, "is_active", ActiveValue(f), key);
    LookupAfter(p4, "price_min", NumberValue(f.priceMin), key);
    LookupAfter(p5, "price_max", NumberValue(f.priceMax), key);
  }

  /** The position of a parameter name in the fixed order. */
  function Rank(key: string): nat {
    if key == "page" then 0 else if key == "limit" then 1 else if key == "search" then 2
    else if key == "category_id" then 3 else if key == "is_active" then 4
    else if key == "price_min" then 5 else if key == "price_max" then 6 else 7
  }

  predicate InOrder(ps: seq<Param>) {
    forall i, j :: 0 <= i < j < |ps| ==> Rank(ps[i].0) < Rank(ps[j].0)
  }

  predicate Below(ps: seq<Param>, r: nat) {
    forall i :: 0 <= i < |ps| ==> Rank(ps[i].0) < r
  }

  lemma OrderedAppend(prefix: seq<Param>, key: string, value: Option<string>)
    requires InOrder(prefix) && Below(prefix, Rank(key))
    ensures InOrder(prefix + Append(key, value)) && Below(prefix + Append(key, value), Rank(key) + 1)
  {
  }

  /** Parameters appear in the order page, limit, search, category_id,
      is_active, price_min, price_max, each at most once. */
  lemma {:induction false} ParamsInOrder(f: ProductFilters)
    ensures InOrder(Params(f))
    ensures forall i :: 0 <= i < |Params(f)| ==> Rank(Params(f)[i].0) < 7
  {
    var p0 := Append("page", NumberValue(f.page));
    OrderedAppend([], "page", NumberValue(f.page));
    assert [] + p0 == p0;
    OrderedAppend(p0, "limit", NumberValue(f.limit));
    var p1 := p0 + Append("limit", NumberValue(f.limit));
    OrderedAppend(p1, "search", SearchValue(f));
    var p2 := p1 + Append("search", SearchValue(f));
    OrderedAppend(p2, "category_id", NumberValue(f.categoryId));
    var p3 := p2 + Append("category_id", NumberValue(f.categoryId));
    OrderedAppend(p3, "is_active", ActiveValue(f));
    var p4 := p3 + Append("is_active", ActiveValue(f));
    OrderedAppend(p4, "price_min", NumberValue(f.priceMin));
    var p5 := p4 + Append("price_min", NumberValue(f.priceMin));
    OrderedAppend(p5, "price_max", NumberValue(f.priceMax));
  }

  /** `params.toString()`: `key=value` pairs joined by `&`. */
  function Query(escape: string -> string, ps: seq<Param>): (q: string)
    ensures q == "" <==> ps == []
    decreases |ps|
  {
    if |ps| == 0 then ""
    else
      var pair := ps[0].0 + "=" + escape(ps[0].1);
      if |ps| == 1 then pair else pair + "&" + Query(escape, ps[1..])
  }

  const ProductsPath: string := "/products"

  /** The endpoint of `getProducts`: the query after `?` when there is one. */
  function ProductsEndpoint(escape: string -> string, f: ProductFilters): (endpoint: string)
    ensures endpoint == ProductsPath <==> Params(f) == []
    ensures Params(f) != [] ==> endpoint == ProductsPath + "?" + Query(escape, Params(f))
  {
    var queryString := Query(escape, Params(f));
    if queryString != "" then ProductsPath + "?" + queryString else ProductsPath
  }

  /** No filters, or filters that are all omitted, give exactly `/products`. */
  lemma NoFiltersNoQuery(escape: string -> string, f: ProductFilters)
    requires AllOmitted(f)
    ensures ProductsEndpoint(escape, f) == ProductsPath
    ensures ProductsEndpoint(escape, NoFilters) == ProductsPath
  {
  }

  /** `getProductsByCategory`: the category argument replaces any in the filters. */
  function ByCategory(categoryId: int, f: ProductFilters): (g: ProductFilters)
    ensures g.categoryId == Some(categoryId) && g.(categoryId := f.categoryId) == f
  {
    f.(categoryId := Some(categoryId))
  }

  /** `searchProducts`: the search argument replaces any in the filters. */
  function BySearch(searchTerm: string, f: ProductFilters): (g: ProductFilters)
    ensures g.search == Some(searchTerm) && g.(search := f.search) == f
  {
    f.(search := Some(searchTerm))
  }

  /** The category sent is the argument's (none when it is 0), and every
      other parameter is the filters' own. */
  lemma CategoryOverrides(categoryId: int, f: ProductFilters)
    ensures Lookup(Params(ByCategory(categoryId, f)), "category_id") ==
      if categoryId != 0 then Some(IntToString(categoryId)) else None
    ensures forall key :: key != "category_id" ==> Lookup(Params(ByCategory(categoryId, f)), key) == Lookup(Params(f), key)
  {
    ParamLookup(ByCategory(categoryId, f), "category_id");
    forall key | key != "category_id"
      ensures Lookup(Params(ByCategory(categoryId, f)), key) == Lookup(Params(f), key)
    {
      ParamLookup(f, key);
      ParamLookup(ByCategory(categoryId, f), key);
    }
  }

  /** The search sent is the argument's (none when it is empty), and every
      other parameter is the filters' own. */
  lemma SearchOverrides(searchTerm: string, f: ProductFilters)
    ensures Lookup(Params(BySearch(searchTerm, f)), "search") == if searchTerm != "" then Some(searchTerm) else None
    ensures forall key :: key != "search" ==> Lookup(Params(BySearch(searchTerm, f)), key) == Lookup(Params(f), key)
  {
    ParamLookup(BySearch(searchTerm, f), "search");
    forall key | key != "search"
      ensures Lookup(Params(BySearch(searchTerm, f)), key) == Lookup(Params(f), key)
    {
      ParamLookup(f, key);
      ParamLookup(BySearch(searchTerm, f), key);
    }
  }

  /** `/products/<id>`. */
  function ProductPath(productId: int): (p: string)
    ensures StartsWith(p, ProductsPath + "/") && p[|ProductsPath| + 1..] == IntToString(productId)
  {
    ProductsPath + "/" + IntToString(productId)
  }

  /** `/products/<id>/status`. */
  function StatusPath(productId: int): (p: string)
    ensures p == ProductPath(productId) + "/status"
  {
    ProductPath(productId) + "/status"
  }

  /** Different products have different endpoints, and a status endpoint is
      never a product endpoint. */
  lemma ProductPathsDistinct(a: int, b: int)
    ensures ProductPath(a) == ProductPath(b) ==> a == b
    ensures StatusPath(a) != ProductPath(b)
  {
    if ProductPath(a) == ProductPath(b) {
      IntToStringInjective(a, b);
    }
    var sa, pb := StatusPath(a), ProductPath(b);
    var n := |ProductsPath| + 1;
    if sa == pb {
      assert sa[n..] == IntToString(a) + "/status";
      assert pb[n..] == IntToString(b);
      var i := |IntToString(a)|;
      assert IntToString(b)[i] == '/';
      NoSlashInDecimal(b, i);
    }
  }

  lemma NoSlashInDecimal(n: int, i: int)
    requires 0 <= i < |IntToString(n)|
    ensures IntToString(n)[i] != '/'
  {
    if n < 0 {
      if i > 0 {
        assert IntToString(n)[i] == NatToString(-n)[i - 1];
      }
    }
  }

  /** The request each product operation makes through the authenticated
      client: its endpoint and configuration. */
  datatype Call = Call(endpoint: string, config: RequestConfig)

  /** A configuration that goes through token injection with the default
      headers and without cookies. */
  predicate Authenticated(config: RequestConfig) {
    !config.skipAuth && !config.includeCookies && config.headers == map[] && config.credentials == None
  }

  function GetProducts(escape: string -> string, f: ProductFilters): (c: Call)
    ensures c.endpoint == ProductsEndpoint(escape, f)
    ensures c.config.verb == Some("GET") && c.config.body == None && Authenticated(c.config)
  {
    Call(ProductsEndpoint(escape, f), Get(NoConfig))
  }

  function GetProductById(productId: int): (c: Call)
    ensures c.endpoint == ProductPath(productId)
    ensures c.config.verb == Some("GET") && c.config.body == None && Authenticated(c.config)
  {
    Call(ProductPath(productId), Get(NoConfig))
  }

  /** `createProduct`, `updateProduct`, `bulkUpdateProducts`: the body is
      the data given, already rendered. */
  function CreateProduct(data: Payload): (c: Call)
    ensures c.endpoint == ProductsPath
    ensures c.config.verb == Some("POST") && c.config.body == Some(data) && Authenticated(c.config)
  {
    Call(ProductsPath, Post(Some(data), NoConfig))
  }

  function UpdateProduct(productId: int, data: Payload): (c: Call)
    ensures c.endpoint == ProductPath(productId)
    ensures c.config.verb == Some("PUT") && c.config.body == Some(data) && Authenticated(c.config)
  {
    Call(ProductPath(productId), Put(Some(data), NoConfig))
  }

  function DeleteProduct(productId: int): (c: Call)
    ensures c.endpoint == ProductPath(productId)
    ensures c.config.verb == Some("DELETE") && c.config.body == None && Authenticated(c.config)
  {
    Call(ProductPath(productId), Delete(NoConfig))
  }

  function ToggleProductStatus(productId: int, isActive: bool): (c: Call)
    ensures c.endpoint == StatusPath(productId)
    ensures c.config.verb == Some("PATCH") && c.config.body == Some(Payload([("is_active", BoolText(isActive))]))
    ensures Authenticated(c.config)
  {
    Call(StatusPath(productId), Patch(Some(Payload([("is_active", BoolText(isActive))])), NoConfig))
  }

  function GetFeaturedProducts(): (c: Call)
    ensures c.endpoint == ProductsPath + "/featured"
    ensures c.config.verb == Some("GET") && c.config.body == None && Authenticated(c.config)
  {
    Call(ProductsPath + "/featured", Get(NoConfig))
  }

  function BulkUpdateProducts(updates: Payload): (c: Call)
    ensures c.endpoint == ProductsPath + "/bulk-update"
    ensures c.config.verb == Some("POST") && c.config.body == Some(updates) && Authenticated(c.config)
  {
    Call(ProductsPath + "/bulk-update", Post(Some(updates), NoConfig))
  }

  /** The verbs: reads are `GET`, the id-based writes `PUT`, `DELETE` and
      `PATCH`, creation and bulk update `POST`; no product call skips
      authentication, and each is sent without cookies, so it carries
      `Authorization` and JSON `Content-Type` and nothing else. */
  lemma CallVerbs(escape: string -> string, f: ProductFilters, productId: int, data: Payload, isActive: bool)
    ensures GetProducts(escape, f).config.verb == Some("GET") && GetProductById(productId).config.verb == Some("GET")
    ensures GetFeaturedProducts().config.verb == Some("GET")
    ensures CreateProduct(data).config.verb == Some("POST") && BulkUpdateProducts(data).config.verb == Some("POST")
    ensures UpdateProduct(productId, data).config.verb == Some("PUT")
    ensures DeleteProduct(productId).config.verb == Some("DELETE") && DeleteProduct(productId).config.body == None
    ensures ToggleProductStatus(productId, isActive).config.verb == Some("PATCH")
    ensures Authenticated(GetProducts(escape, f).config) && Authenticated(GetProductById(productId).config)
    ensures Authenticated(CreateProduct(data).config) && Authenticated(UpdateProduct(productId, data).config)
    ensures Authenticated(DeleteProduct(productId).config) && Authenticated(ToggleProductStatus(productId, isActive).config)
    ensures Authenticated(GetFeaturedProducts().config) && Authenticated(BulkUpdateProducts(data).config)
  {
  }
}

/** `getProducts` as the source writes it: appends to a parameter list
    that grows step by step, then one authenticated `GET`. */
module Products {
  import opened Base
  import opened ApiClient
  import M = TransportModel
  import Q = ProductQuery
  import AuthApi

  /** `if (filters?.<key>) params.append(key, value.toString())`. */
  method AppendNumber(params: seq<Q.Param>, key: string, n: Option<int>) returns (ps: seq<Q.Param>)
    ensures ps == params + Q.Append(key, Q.NumberValue(n))
  {
    ps := params;
    if Q.NonZero(n) {
      ps := ps + [(key, IntToString(n.value))];
    }
  }

  /** `if (filters?.search) params.append('search', filters.search)`. */
  method AppendSearch(params: seq<Q.Param>, f: Q.ProductFilters) returns (ps: seq<Q.Param>)
    ensures ps == params + Q.Append("search", Q.SearchValue(f))
  {
    ps := params;
    if Truthy(f.search) {
      ps := ps + [("search", f.search.value)];
    }
  }

  /** `if (filters?.is_active !== undefined) params.append('is_active', ...)`. */
  method AppendActive(params: seq<Q.Param>, f: Q.ProductFilters) returns (ps: seq<Q.Param>)
    ensures ps == params + Q.Append("is_active", Q.ActiveValue(f))
  {
    ps := params;
    if f.isActive.Some? {
      ps := ps + [("is_active", Q.BoolText(f.isActive.value))];
    }
  }

  /** The seven conditional appends, in the source's order. */
  method BuildParams(f: Q.ProductFilters) returns (params: seq<Q.Param>)
    ensures params == Q.Params(f)
  {
    params := [];
    params := AppendNumber(params, "page", f.page);
    params := AppendNumber(params, "limit", f.limit);
    params := AppendSearch(params, f);
    params := AppendNumber(params, "category_id", f.categoryId);
    params := AppendActive(params, f);
    params := AppendNumber(params, "price_min", f.priceMin);
    params := AppendNumber(params, "price_max", f.priceMax);
    assert [] + Q.Append("page", Q.NumberValue(f.page)) == Q.Append("page", Q.NumberValue(f.page));
  }

  method GetProducts(client: AuthApi.AuthApiClient, escape: string -> string, f: Q.ProductFilters, nowMs: int)
    returns (r: Result<Data, Error>)
    modifies client, client.tm, client.net
    ensures (client.State(), r) == M.Request(client.Env(), old(client.State()), Q.ProductsEndpoint(escape, f), Get(NoConfig), nowMs)
  {
    var params := BuildParams(f);
    var queryString := Q.Query(escape, params);
    var endpoint := if queryString != "" then Q.ProductsPath + "?" + queryString else Q.ProductsPath;
    r := client.Get(endpoint, NoConfig, nowMs);
  }
}
