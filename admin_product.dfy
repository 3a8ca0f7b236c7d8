/** The product management screen (src/components/AdminProduct.jsx): the product grid, its fetch with
    retry, the confirm-then-delete dialog and the two snackbars. */
module AdminProduct {
  import opened Wrappers
  import opened Js
  import Web
  import Http
  import Api

  const HOST := "https://boldservebackend-production.up.railway.app"
  const PLACEHOLDER := "https://via.placeholder.com/300"
  const LOAD_ERROR := "Error loading products. Please try again later."
  const DELETE_ERROR := "Failed to delete product. Please try again."
  const DELETED := "Product deleted successfully"

  // ---------------------------------------------------------------- fetchProducts

  /** The list `fetchProducts` installs, or `None` when it ends in its `catch`: the body's `data` when it
      is an array, `[]` for any other truthy `data`, and the error path for a failed call or falsy `data`. */
  function FetchedProducts(o: Http.Outcome): (r: Option<seq<Json>>)
    ensures r.Some? <==> o.Resolved? && Truthy(Field(o.body, "data"))
    ensures r.Some? && Field(o.body, "data").Arr? ==> r.value == Field(o.body, "data").items
    ensures r.Some? && !Field(o.body, "data").Arr? ==> r.value == []
  {
    match Api.ProductsOutcome(o)
    case Ok(response) =>
      var data := Field(response, "data");
      if Truthy(response) && Truthy(data) then Some(if data.Arr? then data.items else []) else None
    case Err(_) => None
  }

  // ---------------------------------------------------------------- handleDelete

  /** The filter's test `product._id !== productId`. */
  function KeepOther(productId: Json): Json -> bool {
    product => Field(product, "_id") != productId
  }

  /** The list after `handleDelete(productId)`, or `None` when it ends in its `catch`: the call failed, or
      the filter hit a `null` product. */
  function AfterDelete(products: seq<Json>, productId: Json, o: Http.Outcome): (r: Option<seq<Json>>)
    ensures r.None? <==> Api.DeleteOutcome(o).Err? || exists i :: 0 <= i < |products| && Nullish(products[i])
  {
    match Api.DeleteOutcome(o)
    case Err(_) => None
    case Ok(_) =>
      match FilterElements(products, KeepOther(productId))
      case Ok(kept) => Some(kept)
      case Err(_) => None
  }

  /** A successful delete keeps exactly the products whose `_id` differs, in their original order. */
  lemma {:induction false} DeleteKeepsTheOthers(products: seq<Json>, productId: Json, o: Http.Outcome)
    requires AfterDelete(products, productId, o).Some?
    ensures var kept := AfterDelete(products, productId, o).value;
      && (forall p :: p in kept <==> p in products && Field(p, "_id") != productId)
      && IsSubsequence(kept, products)
  {
    var kept := AfterDelete(products, productId, o).value;
    assert kept == Filter(products, KeepOther(productId));
    forall p
      ensures p in kept <==> p in products && Field(p, "_id") != productId
    {
      FilterMembership(products, KeepOther(productId), p);
    }
    FilterIsSubsequence(products, KeepOther(productId));
  }

  /** When the id names exactly one product, a successful delete removes that one and nothing else. */
  lemma {:induction false} DeleteOfUniqueId(products: seq<Json>, productId: Json, o: Http.Outcome, k: nat)
    requires Api.DeleteOutcome(o).Ok?
    requires forall i :: 0 <= i < |products| ==> !Nullish(products[i])
    requires k < |products| && Field(products[k], "_id") == productId
    requires forall i :: 0 <= i < |products| && i != k ==> Field(products[i], "_id") != productId
    ensures AfterDelete(products, productId, o) == Some(products[..k] + products[k + 1..])
  {
    FilterDropsOne(products, KeepOther(productId), k);
  }

  /** The dialog's Delete button passes `selectedProduct?._id`. */
  function SelectedId(selectedProduct: Json): (id: Json)
    ensures Nullish(selectedProduct) ==> id == Undefined
  {
    if Nullish(selectedProduct) then Undefined else Field(selectedProduct, "_id")
  }

  // ---------------------------------------------------------------- getImageUrl and the view

  /** `getImageUrl(images)`: the backend host followed by the first path for a non-empty array, the
      placeholder otherwise. */
  function GetImageUrl(images: Json): (url: string)
    ensures images.Arr? && |images.items| > 0 ==> url == HOST + ToJsString(images.items[0])
  {
    if images.Arr? && |images.items| > 0 then HOST + ToJsString(images.items[0]) else PLACEHOLDER
  }

  /** The URL points at the backend exactly when the product has an image; otherwise it is the placeholder. */
  lemma ImageUrlSource(images: Json)
    ensures HOST <= GetImageUrl(images) <==> images.Arr? && |images.items| > 0
    ensures GetImageUrl(images) == PLACEHOLDER <==> !(images.Arr? && |images.items| > 0)
  {
    assert PLACEHOLDER[8] != HOST[8];
    if images.Arr? && |images.items| > 0 {
      assert |GetImageUrl(images)| > |PLACEHOLDER|;
    }
  }

  /** What the screen draws. */
  datatype Screen =
    | Spinner
    | Catalogue(retry: bool, errorOpen: bool, successOpen: bool, cards: nat)
    | Broken    // rendering throws: a `null` product, or an object where a card prints a field

  /** A message is shown when it is truthy. */
  predicate Shown(message: Option<string>) {
    message.Some? && message.value != ""
  }

  /** Some held product is `null` or `undefined`. */
  predicate HoldsNullish(products: seq<Json>) {
    exists i :: 0 <= i < |products| && Nullish(products[i])
  }

  /** The product's card throws: `product._id` of `null`/`undefined`, or a `productName` or `category`
      that React cannot print. */
  predicate BreaksCard(product: Json) {
    || Nullish(product)
    || !Renderable(Field(product, "productName"))
    || !Renderable(Field(product, "category"))
  }

  /** Some held product's card throws. */
  predicate HoldsBrokenCard(products: seq<Json>) {
    exists i :: 0 <= i < |products| && BreaksCard(products[i])
  }

  /** The spinner while loading; otherwise the page, with the retry button and the error snackbar exactly
      when there is an error, next to one card per product held, unless some card throws. */
  function Render(loading: bool, error: Option<string>, successMessage: string, products: seq<Json>): (s: Screen)
    ensures s.Spinner? <==> loading
    ensures s.Broken? <==> !loading && HoldsBrokenCard(products)
    ensures !loading && HoldsNullish(products) ==> s.Broken?
    ensures s.Catalogue? ==> s.retry == s.errorOpen == Shown(error) && s.cards == |products|
    ensures s.Catalogue? ==> s.successOpen == (successMessage != "")
  {
    if loading then Spinner
    else if HoldsBrokenCard(products) then Broken
    else Catalogue(Shown(error), Shown(error), successMessage != "", |products|)
  }

  /** After a fetch the page draws unless a card of the list shown throws; when it draws, the retry button
      shows exactly when the fetch failed, and a failed fetch keeps the grid it had. */
  lemma RetryAfterFetch(o: Http.Outcome, successMessage: string, products: seq<Json>)
    ensures var error := if FetchedProducts(o).Some? then None else Some(LOAD_ERROR);
      var shown := if FetchedProducts(o).Some? then FetchedProducts(o).value else products;
      var s := Render(false, error, successMessage, shown);
      && (s.Broken? <==> HoldsBrokenCard(shown))
      && (s.Catalogue? ==> (s.retry <==> FetchedProducts(o).None?))
      && (FetchedProducts(o).None? && s.Catalogue? ==> s.cards == |products|)
  {
  }

  /** A backend list holding a `null` breaks the page as soon as it is installed. */
  lemma NullProductBreaksThePage(o: Http.Outcome, successMessage: string)
    requires FetchedProducts(o).Some? && HoldsNullish(FetchedProducts(o).value)
    ensures Render(false, None, successMessage, FetchedProducts(o).value) == Broken
  {
  }

  /** A product whose name or category React cannot print (an object, or an array holding one) breaks
      the page; any other name and category draw. */
  lemma ObjectFieldBreaksThePage(name: Json, category: Json)
    ensures var product := Obj(map["productName" := name, "category" := category]);
      Render(false, None, "", [product]).Broken? <==> !Renderable(name) || !Renderable(category)
  {
    var product := Obj(map["productName" := name, "category" := category]);
    assert Field(product, "productName") == name && Field(product, "category") == category;
    assert [product][0] == product;
  }

  // ---------------------------------------------------------------- the component

  class ProductList {
    var products: seq<Json>
    var loading: bool
    var error: Option<string>
    var deleteDialogOpen: bool
    var selectedProduct: Json
    var successMessage: string

    constructor ()
      ensures products == [] && loading && error.None?
      ensures !deleteDialogOpen && selectedProduct == Null && successMessage == ""
    {
      products := [];
      loading := true;
      error := None;
      deleteDialogOpen := false;
      selectedProduct := Null;
      successMessage := "";
    }

    function View(): Screen
      reads this
    {
      Render(loading, error, successMessage, products)
    }

    /** `fetchProducts`, run on mount and by the retry button. */
    method FetchProducts(o: Http.Outcome, browser: Web.Browser)
      modifies this, browser
      ensures FetchedProducts(o).Some? ==> products == FetchedProducts(o).value && error.None?
      ensures FetchedProducts(o).None? ==> products == old(products) && error == Some(LOAD_ERROR)
      ensures !loading
      ensures deleteDialogOpen == old(deleteDialogOpen) && selectedProduct == old(selectedProduct)
      ensures successMessage == old(successMessage)
      ensures browser.storage == Http.StorageAfter(o, old(browser.storage))
      ensures browser.location == Http.LocationAfter(o, old(browser.location))
    {
      loading := true;
      error := None;
      var response := Api.GetAllProducts(o, browser);
      match response {
        case Ok(body) =>
          var data := Field(body, "data");
          if Truthy(body) && Truthy(data) {
            products := if data.Arr? then data.items else [];
          } else {
            error := Some(LOAD_ERROR);
          }
        case Err(_) =>
          error := Some(LOAD_ERROR);
      }
      loading := false;
    }

    /** `handleDelete(productId)`: on success the filtered list, a closed dialog and the success message;
        on failure only the error. */
    method HandleDelete(productId: Json, o: Http.Outcome, browser: Web.Browser)
      modifies this, browser
      ensures var after := AfterDelete(old(products), productId, o);
        && (after.Some? ==> products == after.value && !deleteDialogOpen && successMessage == DELETED
                            && error == old(error))
        && (after.None? ==> products == old(products) && deleteDialogOpen == old(deleteDialogOpen)
                            && successMessage == old(successMessage) && error == Some(DELETE_ERROR))
      ensures loading == old(loading) && selectedProduct == old(selectedProduct)
      ensures browser.storage == Http.StorageAfter(o, old(browser.storage))
      ensures browser.location == Http.LocationAfter(o, old(browser.location))
    {
      var _, response := Api.DeleteProduct(productId, o, browser);
      match response
      case Err(_) =>
        error := Some(DELETE_ERROR);
      case Ok(_) =>
        var kept := FilterElements(products, KeepOther(productId));
        match kept
        case Err(_) =>
          error := Some(DELETE_ERROR);
        case Ok(rest) =>
          products := rest;
          deleteDialogOpen := false;
          successMessage := DELETED;
    }

    /** The dialog's Delete button. */
    method ConfirmDelete(o: Http.Outcome, browser: Web.Browser)
      modifies this, browser
      ensures var after := AfterDelete(old(products), SelectedId(old(selectedProduct)), o);
        && (after.Some? ==> products == after.value && !deleteDialogOpen && successMessage == DELETED
                            && error == old(error))
        && (after.None? ==> products == old(products) && deleteDialogOpen == old(deleteDialogOpen)
                            && successMessage == old(successMessage) && error == Some(DELETE_ERROR))
      ensures loading == old(loading) && selectedProduct == old(selectedProduct)
      ensures browser.storage == Http.StorageAfter(o, old(browser.storage))
      ensures browser.location == Http.LocationAfter(o, old(browser.location))
    {
      HandleDelete(SelectedId(selectedProduct), o, browser);
    }

    /** A card's delete icon: remember the product and open the dialog. */
    method OpenDeleteDialog(product: Json)
      modifies this
      ensures selectedProduct == product && deleteDialogOpen
      ensures products == old(products) && loading == old(loading) && error == old(error)
      ensures successMessage == old(successMessage)
    {
      selectedProduct := product;
      deleteDialogOpen := true;
    }

    /** The dialog's Cancel button, or a click outside it. */
    method CloseDeleteDialog()
      modifies this
      ensures !deleteDialogOpen
      ensures products == old(products) && loading == old(loading) && error == old(error)
      ensures selectedProduct == old(selectedProduct) && successMessage == old(successMessage)
    {
      deleteDialogOpen := false;
    }

    /** Closing the error snackbar. */
    method DismissError()
      modifies this
      ensures error.None?
      ensures products == old(products) && loading == old(loading) && deleteDialogOpen == old(deleteDialogOpen)
      ensures selectedProduct == old(selectedProduct) && successMessage == old(successMessage)
    {
      error := None;
    }

    /** Closing the success snackbar. */
    method DismissSuccess()
      modifies this
      ensures successMessage == ""
      ensures products == old(products) && loading == old(loading) && deleteDialogOpen == old(deleteDialogOpen)
      ensures selectedProduct == old(selectedProduct) && error == old(error)
    {
      successMessage := "";
    }
  }
}
