/** The resource layer in src/utils/axios.js: one operation per backend call, each given the transport
    outcome of its request. */
module Api {
  import opened Wrappers
  import opened Js
  import Text
  import Uri
  import Web
  import Http

  const LOGIN_URL := "/api/admin/login"
  const USERS_URL := "/api/users"
  const ORDERS_URL := "/orders"
  const SERVICES_URL := "/api/services"
  const PRODUCTS_URL := "/api/services/admin/products"
  const CATEGORY_URL := "/api/services/category"
  const MULTIPART_HEADERS: map<string, string> := Http.DEFAULT_HEADERS["Content-Type" := "multipart/form-data"]

  const INVALID_FORMAT := "Invalid response format"
  const FETCH_PRODUCTS_FAILED := "Failed to fetch products: "
  const NO_DATA := "No data received from server"
  const DELETE_PRODUCT_FAILED := "Failed to delete product: "
  const NO_RESPONSE := "No response received from server"

  // ---------------------------------------------------------------- session token

  /** `getStoredToken()`: the stored token, or `null` when it is missing or empty. */
  function GetStoredToken(storage: map<string, string>): (t: Option<string>)
    ensures t.Some? <==> Web.ADMIN_TOKEN in storage && storage[Web.ADMIN_TOKEN] != ""
    ensures t.Some? ==> t.value == storage[Web.ADMIN_TOKEN]
  {
    var token := Web.GetItem(storage, Web.ADMIN_TOKEN);
    if token.None? || token.value == "" then None else token
  }

  /** `checkAuthStatus()`: `!!getStoredToken()`. */
  function CheckAuthStatus(storage: map<string, string>): (ok: bool)
    ensures ok <==> Web.ADMIN_TOKEN in storage && storage[Web.ADMIN_TOKEN] != ""
  {
    GetStoredToken(storage).Some?
  }

  // ---------------------------------------------------------------- server availability

  /** The header the availability probe sends: the raw stored value, `null` printed when there is none. */
  function AvailabilityAuthorization(storage: map<string, string>): (h: string)
    ensures Web.ADMIN_TOKEN !in storage ==> h == "Bearer null"
    ensures Web.ADMIN_TOKEN in storage ==> h == "Bearer " + storage[Web.ADMIN_TOKEN]
  {
    "Bearer " + Web.GetItem(storage, Web.ADMIN_TOKEN).GetOr("null")
  }

  /** `checkServerAvailability()` (bare axios, no interceptors): a 401 or 403 answer also means the server is up. */
  function ServerAvailable(o: Http.Outcome): (up: bool)
    ensures !up <==> o.Rejected? && (o.response.None? || o.response.value.status !in {401, 403})
  {
    match o
    case Resolved(_, _) => true
    case Rejected(_, _, response) => response.Some? && (response.value.status == 401 || response.value.status == 403)
  }

  // ---------------------------------------------------------------- adminAPI.login

  /** The login reply carries a truthy `success` and a truthy `token`. */
  predicate StoresToken(o: Http.Outcome) {
    o.Resolved? && !Nullish(o.body) && Truthy(Field(o.body, "success")) && Truthy(Field(o.body, "token"))
  }

  /** What `adminAPI.login` settles with: the body unchanged, or the error (a null body throws on `.success`). */
  function LoginOutcome(o: Http.Outcome): Result<Json, Error> {
    match Http.Settle(o)
    case Ok(resp) => if Nullish(resp.data) then Err(TYPE_ERROR) else Ok(resp.data)
    case Err(e) => Err(e)
  }

  /** Storage after `adminAPI.login`. */
  function LoginStorage(o: Http.Outcome, storage: map<string, string>): map<string, string> {
    if StoresToken(o) then storage[Web.ADMIN_TOKEN := ToJsString(Field(o.body, "token"))]
    else Http.StorageAfter(o, storage)
  }

  method Login(o: Http.Outcome, browser: Web.Browser) returns (r: Result<Json, Error>)
    modifies browser
    ensures r == LoginOutcome(o)
    ensures browser.storage == LoginStorage(o, old(browser.storage))
    ensures browser.location == Http.LocationAfter(o, old(browser.location))
  {
    var _, resp := Http.Send(LOGIN_URL, Http.DEFAULT_HEADERS, o, browser);
    match resp
    case Err(e) =>
      r := Err(e);
    case Ok(response) =>
      if Nullish(response.data) {
        r := Err(TYPE_ERROR);
      } else {
        if Truthy(Field(response.data, "success")) && Truthy(Field(response.data, "token")) {
          browser.SetItem(Web.ADMIN_TOKEN, ToJsString(Field(response.data, "token")));
        }
        r := Ok(response.data);
      }
  }

  /** Login writes `adminToken` only for a reply with truthy `success` and `token`, and then the token itself;
      whenever the reply is an object it is returned unchanged, stored or not. */
  lemma LoginTokenRule(o: Http.Outcome, storage: map<string, string>)
    ensures StoresToken(o) ==> LoginStorage(o, storage)[Web.ADMIN_TOKEN] == ToJsString(Field(o.body, "token"))
    ensures o.Resolved? && !StoresToken(o) ==> LoginStorage(o, storage) == storage
    ensures o.Resolved? && !Nullish(o.body) ==> LoginOutcome(o) == Ok(o.body)
    ensures LoginOutcome(o).Err? <==> o.Rejected? || Nullish(o.body)
  {
  }

  // ---------------------------------------------------------------- userAPI.getAllUsers

  /** `userAPI.getAllUsers()` (bare axios): any truthy body becomes `{success: true, data: body.data || body}`. */
  function UsersEnvelope(o: Http.Outcome): (r: Result<Json, Error>)
    ensures r.Ok? <==> o.Resolved? && Truthy(o.body)
    ensures o.Resolved? && !Truthy(o.body) ==> r == Err(Error(INVALID_FORMAT, None))
    ensures o.Rejected? ==> r == Err(Error(o.message, o.response))
  {
    match Http.SettlePlain(o)
    case Ok(resp) =>
      if Truthy(resp.data) then Ok(Obj(map["success" := Bool(true), "data" := Or(Field(resp.data, "data"), resp.data)]))
      else Err(Error(INVALID_FORMAT, None))
    case Err(e) => Err(e)
  }

  /** The envelope accepts the backend's shapes: a bare array, `{data: [...]}` (with or without `success`),
      and a bare object without `data`; its `success` is always true and its `data` always truthy. */
  lemma UsersEnvelopeShapes(o: Http.Outcome)
    requires o.Resolved?
    ensures o.body.Arr? ==> UsersEnvelope(o).Ok? && Field(UsersEnvelope(o).value, "data") == o.body
    ensures o.body.Obj? && Field(o.body, "data").Arr? ==>
              UsersEnvelope(o).Ok? && Field(UsersEnvelope(o).value, "data") == Field(o.body, "data")
    ensures o.body.Obj? && "data" !in o.body.fields ==>
              UsersEnvelope(o).Ok? && Field(UsersEnvelope(o).value, "data") == o.body
    ensures UsersEnvelope(o).Ok? ==>
              Field(UsersEnvelope(o).value, "success") == Bool(true) && Truthy(Field(UsersEnvelope(o).value, "data"))
  {
    assert "success" != "data";
  }

  // ---------------------------------------------------------------- paymentAPI.getAllPayments

  /** The axios response object itself as a JavaScript value: `data` and `status` (its other members,
      `headers`, `config`, `request`, are not modelled); it has no `success`. */
  function ResponseObject(resp: Http.Response): (j: Json)
    ensures Field(j, "data") == resp.data
  {
    Obj(map["data" := resp.data, "status" := Num(resp.status)])
  }

  /** `paymentAPI.getAllPayments()` resolves with the whole response object, not its body. */
  function PaymentsOutcome(o: Http.Outcome): Result<Json, Error> {
    match Http.Settle(o)
    case Ok(resp) => Ok(ResponseObject(resp))
    case Err(e) => Err(e)
  }

  method GetAllPayments(o: Http.Outcome, browser: Web.Browser) returns (r: Result<Json, Error>)
    modifies browser
    ensures r == PaymentsOutcome(o)
    ensures browser.storage == Http.StorageAfter(o, old(browser.storage))
    ensures browser.location == Http.LocationAfter(o, old(browser.location))
  {
    var _, resp := Http.Send(ORDERS_URL, Http.DEFAULT_HEADERS, o, browser);
    match resp
    case Ok(response) => r := Ok(ResponseObject(response));
    case Err(e) => r := Err(e);
  }

  /** Whatever the backend sends, what `getAllPayments` resolves with has no truthy `success`. */
  lemma PaymentsResultHasNoSuccess(o: Http.Outcome)
    ensures PaymentsOutcome(o).Ok? ==> !Truthy(Field(PaymentsOutcome(o).value, "success"))
  {
    assert "success" != "data" && "success" != "status";
  }

  // ---------------------------------------------------------------- serviceAPI.createService

  /** `formData.get(name)`: the first value under `name`, or `null`. */
  function FirstValue(entries: seq<(string, string)>, name: string): Option<string> {
    if entries == [] then None
    else if entries[0].0 == name then Some(entries[0].1)
    else FirstValue(entries[1..], name)
  }

  /** `formData.has(name)`. */
  predicate HasEntry(entries: seq<(string, string)>, name: string) {
    FirstValue(entries, name).Some?
  }

  /** A `FormData` whose entries are all strings (file entries are not modelled). */
  class FormData {
    var entries: seq<(string, string)>

    constructor (entries0: seq<(string, string)>)
      ensures entries == entries0
    {
      entries := entries0;
    }

    function Has(name: string): bool
      reads this
    {
      HasEntry(entries, name)
    }

    function Get(name: string): Option<string>
      reads this
    {
      FirstValue(entries, name)
    }

    method Append(name: string, value: string)
      modifies this
      ensures entries == old(entries) + [(name, value)]
    {
      entries := entries + [(name, value)];
    }
  }

  /** The entries after `createService` fills in its defaults (`get` of a missing key appends the text "null"). */
  function WithServiceDefaults(entries: seq<(string, string)>): (r: seq<(string, string)>)
    ensures entries <= r
  {
    var named := if HasEntry(entries, "name") then entries
                 else entries + [("name", FirstValue(entries, "productName").GetOr("null"))];
    if HasEntry(named, "duration") then named else named + [("duration", "0")]
  }

  lemma {:induction false} FirstValueAppend(entries: seq<(string, string)>, k: string, v: string, name: string)
    ensures FirstValue(entries + [(k, v)], name) ==
              if HasEntry(entries, name) then FirstValue(entries, name) else if k == name then Some(v) else None
  {
    if entries == [] {
      assert entries + [(k, v)] == [(k, v)];
    } else {
      assert (entries + [(k, v)])[1..] == entries[1..] + [(k, v)];
      FirstValueAppend(entries[1..], k, v, name);
    }
  }

  /** `createService` appends `name` (from `productName`) and `duration = "0"` only when absent; every key already
      present keeps its value, and afterwards both keys are present. */
  lemma ServiceDefaultsKeepExisting(entries: seq<(string, string)>)
    ensures forall n :: HasEntry(entries, n) ==> FirstValue(WithServiceDefaults(entries), n) == FirstValue(entries, n)
    ensures !HasEntry(entries, "name") ==>
              FirstValue(WithServiceDefaults(entries), "name") == Some(FirstValue(entries, "productName").GetOr("null"))
    ensures !HasEntry(entries, "duration") ==> FirstValue(WithServiceDefaults(entries), "duration") == Some("0")
    ensures HasEntry(WithServiceDefaults(entries), "name") && HasEntry(WithServiceDefaults(entries), "duration")
    ensures |WithServiceDefaults(entries)| ==
              |entries| + (if HasEntry(entries, "name") then 0 else 1) + (if HasEntry(entries, "duration") then 0 else 1)
  {
    var named := if HasEntry(entries, "name") then entries
                 else entries + [("name", FirstValue(entries, "productName").GetOr("null"))];
    forall n { FirstValueAppend(entries, "name", FirstValue(entries, "productName").GetOr("null"), n); }
    forall n { FirstValueAppend(named, "duration", "0", n); }
  }

  /** What a call that returns `response.data` settles with. */
  function BodyOutcome(o: Http.Outcome): Result<Json, Error> {
    match Http.Settle(o)
    case Ok(resp) => Ok(resp.data)
    case Err(e) => Err(e)
  }

  /** `serviceAPI.createService(formData)`: fills in defaults in place, then posts as multipart. */
  method CreateService(fd: FormData, o: Http.Outcome, browser: Web.Browser) returns (r: Result<Json, Error>)
    modifies fd, browser
    ensures fd.entries == WithServiceDefaults(old(fd.entries))
    ensures r == BodyOutcome(o)
    ensures browser.storage == Http.StorageAfter(o, old(browser.storage))
    ensures browser.location == Http.LocationAfter(o, old(browser.location))
  {
    if !fd.Has("name") {
      fd.Append("name", fd.Get("productName").GetOr("null"));
    }
    if !fd.Has("duration") {
      fd.Append("duration", "0");
    }
    var _, resp := Http.Send(SERVICES_URL, MULTIPART_HEADERS, o, browser);
    match resp
    case Ok(response) => r := Ok(response.data);
    case Err(e) => r := Err(e);
  }

  // ---------------------------------------------------------------- serviceAPI.getAllProducts / deleteProduct

  /** `serviceAPI.getAllProducts()`: a falsy body is an error, and every error is re-thrown as a new
      message-only error, losing the HTTP response. */
  function ProductsOutcome(o: Http.Outcome): (r: Result<Json, Error>)
    ensures r.Ok? <==> o.Resolved? && Truthy(o.body)
    ensures r.Ok? ==> r.value == o.body
    ensures r.Err? ==> r.error.response.None? && FETCH_PRODUCTS_FAILED <= r.error.message
  {
    match Http.Settle(o)
    case Ok(resp) =>
      if Truthy(resp.data) then Ok(resp.data) else Err(Error(FETCH_PRODUCTS_FAILED + NO_DATA, None))
    case Err(e) => Err(Error(FETCH_PRODUCTS_FAILED + e.message, None))
  }

  method GetAllProducts(o: Http.Outcome, browser: Web.Browser) returns (r: Result<Json, Error>)
    modifies browser
    ensures r == ProductsOutcome(o)
    ensures browser.storage == Http.StorageAfter(o, old(browser.storage))
    ensures browser.location == Http.LocationAfter(o, old(browser.location))
  {
    var _, resp := Http.Send(PRODUCTS_URL, Http.DEFAULT_HEADERS, o, browser);
    match resp
    case Ok(response) =>
      if Truthy(response.data) {
        r := Ok(response.data);
      } else {
        r := Err(Error(FETCH_PRODUCTS_FAILED + NO_DATA, None));
      }
    case Err(e) =>
      r := Err(Error(FETCH_PRODUCTS_FAILED + e.message, None));
  }

  /** The URL `deleteProduct(id)` addresses: the id printed into the path. */
  function DeleteUrl(id: Json): (url: string)
    ensures PRODUCTS_URL + "/" <= url
  {
    PRODUCTS_URL + "/" + ToJsString(id)
  }

  /** `serviceAPI.deleteProduct(id)`: like `getAllProducts`, a falsy body is an error and errors lose the response. */
  function DeleteOutcome(o: Http.Outcome): (r: Result<Json, Error>)
    ensures r.Ok? <==> o.Resolved? && Truthy(o.body)
    ensures r.Err? ==> r.error.response.None? && DELETE_PRODUCT_FAILED <= r.error.message
  {
    match Http.Settle(o)
    case Ok(resp) =>
      if Truthy(resp.data) then Ok(resp.data) else Err(Error(DELETE_PRODUCT_FAILED + NO_RESPONSE, None))
    case Err(e) => Err(Error(DELETE_PRODUCT_FAILED + e.message, None))
  }

  method DeleteProduct(id: Json, o: Http.Outcome, browser: Web.Browser) returns (url: string, r: Result<Json, Error>)
    modifies browser
    ensures url == DeleteUrl(id)
    ensures r == DeleteOutcome(o)
    ensures browser.storage == Http.StorageAfter(o, old(browser.storage))
    ensures browser.location == Http.LocationAfter(o, old(browser.location))
  {
    url := PRODUCTS_URL + "/" + ToJsString(id);
    var _, resp := Http.Send(url, Http.DEFAULT_HEADERS, o, browser);
    match resp
    case Ok(response) =>
      if Truthy(response.data) {
        r := Ok(response.data);
      } else {
        r := Err(Error(DELETE_PRODUCT_FAILED + NO_RESPONSE, None));
      }
    case Err(e) =>
      r := Err(Error(DELETE_PRODUCT_FAILED + e.message, None));
  }

  // ---------------------------------------------------------------- serviceAPI.getProductsByCategory

  /** A sub-category is used when it is truthy: present and not empty. */
  predicate HasSubCategory(subCategory: Option<string>) {
    subCategory.Some? && subCategory.value != ""
  }

  /** The query string `getProductsByCategory` appends. */
  function CategoryQuery(category: string, subCategory: Option<string>): string {
    if HasSubCategory(subCategory) then
      "?category=" + Uri.Encode(category) + "&subCategory=" + Uri.Encode(subCategory.value)
    else "?category=" + Uri.Encode(category)
  }

  /** One `name=value` piece of a query string, split at its first `=`. */
  function Param(piece: string): (string, string) {
    var parts := Text.Split(piece, '=');
    (parts[0], if |parts| > 1 then parts[1] else "")
  }

  /** The `(name, raw value)` pairs of a query string: after the `?`, split at `&`, then at `=`. */
  function QueryParams(q: string): seq<(string, string)> {
    if q == [] || q[0] != '?' then []
    else
      var pieces := Text.Split(q[1..], '&');
      seq(|pieces|, i requires 0 <= i < |pieces| => Param(pieces[i]))
  }

  lemma ParamOf(name: string, value: string)
    requires '=' !in name && '=' !in value
    ensures Param(name + "=" + value) == (name, value)
  {
    assert name + "=" + value == name + ['='] + value;
    Text.SplitAtFirst(name, '=', value);
    Text.SplitWhole(value, '=');
  }

  lemma QueryOfOne(n1: string, v1: string)
    requires '=' !in n1 && '=' !in v1 && '&' !in n1 && '&' !in v1
    ensures QueryParams("?" + (n1 + "=" + v1)) == [(n1, v1)]
  {
    var q := "?" + (n1 + "=" + v1);
    assert q[0] == '?' && q[1..] == n1 + "=" + v1;
    Text.SplitWhole(n1 + "=" + v1, '&');
    ParamOf(n1, v1);
  }

  lemma QueryOfTwo(n1: string, v1: string, n2: string, v2: string)
    requires '=' !in n1 && '=' !in v1 && '&' !in n1 && '&' !in v1
    requires '=' !in n2 && '=' !in v2 && '&' !in n2 && '&' !in v2
    ensures QueryParams("?" + (n1 + "=" + v1) + "&" + (n2 + "=" + v2)) == [(n1, v1), (n2, v2)]
  {
    var first := n1 + "=" + v1;
    var second := n2 + "=" + v2;
    var q := "?" + first + "&" + second;
    assert q[0] == '?' && q[1..] == first + ['&'] + second;
    Text.SplitAtFirst(first, '&', second);
    Text.SplitWhole(second, '&');
    ParamOf(n1, v1);
    ParamOf(n2, v2);
  }

  /** The query string is made of the two `name=value` pieces, glued at `&`. */
  lemma CategoryQueryShape(category: string, subCategory: Option<string>)
    ensures HasSubCategory(subCategory) ==>
      CategoryQuery(category, subCategory)
        == "?" + ("category" + "=" + Uri.Encode(category)) + "&" + ("subCategory" + "=" + Uri.Encode(subCategory.value))
    ensures !HasSubCategory(subCategory) ==>
      CategoryQuery(category, subCategory) == "?" + ("category" + "=" + Uri.Encode(category))
  {
    var c := Uri.Encode(category);
    if HasSubCategory(subCategory) {
      var s := Uri.Encode(subCategory.value);
      CategoryLiterals();
      Glue4("?category=", c, "&subCategory=", s, "?", "category" + "=", "&", "subCategory" + "=");
    } else {
      CategoryLiterals();
      Glue2("?category=", c, "?", "category" + "=");
    }
  }

  lemma CategoryLiterals()
    ensures "?category=" == "?" + ("category" + "=")
    ensures "&subCategory=" == "&" + ("subCategory" + "=")
  {
  }

  lemma Glue2(p: string, c: string, p1: string, p2: string)
    requires p == p1 + p2
    ensures p + c == p1 + (p2 + c)
  {
  }

  lemma Glue4(p: string, c: string, r: string, s: string, p1: string, p2: string, r1: string, r2: string)
    requires p == p1 + p2 && r == r1 + r2
    ensures p + c + r + s == p1 + (p2 + c) + r1 + (r2 + s)
  {
  }

  /** The raw `(name, value)` pairs of the query: the percent-encoded arguments, under their own names. */
  lemma CategoryQueryParams(category: string, subCategory: Option<string>)
    ensures QueryParams(CategoryQuery(category, subCategory))
      == if HasSubCategory(subCategory)
         then [("category", Uri.Encode(category)), ("subCategory", Uri.Encode(subCategory.value))]
         else [("category", Uri.Encode(category))]
  {
    CategoryQueryShape(category, subCategory);
    Uri.NoDelimiters(category);
    if HasSubCategory(subCategory) {
      Uri.NoDelimiters(subCategory.value);
      QueryOfTwo("category", Uri.Encode(category), "subCategory", Uri.Encode(subCategory.value));
    } else {
      QueryOfOne("category", Uri.Encode(category));
    }
  }

  /** Read back, the query string holds exactly `category`, then `subCategory` only when one was given,
      and each value percent-decodes to the bytes of the argument. */
  lemma CategoryQueryRoundTrip(category: string, subCategory: Option<string>)
    ensures var ps := QueryParams(CategoryQuery(category, subCategory));
      && |ps| == (if HasSubCategory(subCategory) then 2 else 1)
      && ps[0].0 == "category"
      && Uri.Decode(ps[0].1) == Some(Uri.Utf8String(category))
      && (HasSubCategory(subCategory) ==>
            ps[1].0 == "subCategory" && Uri.Decode(ps[1].1) == Some(Uri.Utf8String(subCategory.value)))
  {
    CategoryQueryParams(category, subCategory);
    Uri.DecodeEncode(category);
    if HasSubCategory(subCategory) {
      Uri.DecodeEncode(subCategory.value);
    }
  }

  method GetProductsByCategory(category: string, subCategory: Option<string>, o: Http.Outcome, browser: Web.Browser)
    returns (url: string, r: Result<Json, Error>)
    modifies browser
    ensures url == CATEGORY_URL + CategoryQuery(category, subCategory)
    ensures r == BodyOutcome(o)
    ensures browser.storage == Http.StorageAfter(o, old(browser.storage))
    ensures browser.location == Http.LocationAfter(o, old(browser.location))
  {
    var query;
    if subCategory.Some? && subCategory.value != "" {
      query := "?category=" + Uri.Encode(category) + "&subCategory=" + Uri.Encode(subCategory.value);
    } else {
      query := "?category=" + Uri.Encode(category);
    }
    url := CATEGORY_URL + query;
    var _, resp := Http.Send(url, Http.DEFAULT_HEADERS, o, browser);
    match resp
    case Ok(response) => r := Ok(response.data);
    case Err(e) => r := Err(e);
  }
}
