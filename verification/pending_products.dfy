/** The administrator's page of products awaiting validation
    (eswika-frontend/src/pages/AdminPendingProducts.jsx): the listed page of
    products, the pending count, the page number and its buttons. */
module PendingProducts {
  import opened Common
  import opened Text
  import opened Browser

  /** The fields of a listed product the page acts on. */
  datatype PendingProduct = PendingProduct(id: int, name: string)

  /** The answer of `GET /api/admin/products/pending?page=n`. */
  datatype PendingPage = PendingPage(products: seq<PendingProduct>, totalPages: int, currentPage: int, totalProducts: int)

  /** `products.filter(p => p.id !== productId)`. */
  function WithoutId(products: seq<PendingProduct>, productId: int): seq<PendingProduct>
  {
    Filter(products, (p: PendingProduct) => p.id != productId)
  }

  /** Dropping a validated product keeps every other product in its place
      and removes every copy of that id. */
  lemma WithoutIdKeepsOthers(products: seq<PendingProduct>, productId: int)
    ensures forall p :: p in WithoutId(products, productId) <==> p in products && p.id != productId
    ensures forall p :: multiset(WithoutId(products, productId))[p] ==
              if p.id != productId then multiset(products)[p] else 0
    ensures IsSubsequence(WithoutId(products, productId), products)
    ensures |WithoutId(products, productId)| <= |products|
    ensures WithoutId(products, productId) == products <==> forall p :: p in products ==> p.id != productId
  {
    FilterKeepsAll(products, (p: PendingProduct) => p.id != productId);
  }

  class PendingProductsPage {
    const window: Window
    var products: seq<PendingProduct>
    var loading: bool
    var error: Option<string>
    var currentPage: int
    var totalPages: int
    var totalProducts: int

    constructor (window: Window)
      ensures this.window == window && products == [] && loading && error == None
      ensures currentPage == 1 && totalPages == 1 && totalProducts == 0
    {
      this.window := window;
      products := [];
      loading := true;
      error := None;
      currentPage := 1;
      totalPages := 1;
      totalProducts := 0;
    }

    /** The buttons are drawn under a non-empty list, once loaded without
        error, and only when there is more than one page. */
    predicate PaginationVisible()
      reads this
    {
      !loading && error.None? && |products| > 0 && totalPages > 1
    }

    /** `fetchPendingProducts(page)`, run whenever `currentPage` changes. */
    method FetchPendingProducts(page: int, reply: Reply<PendingPage>) returns (sent: HttpRequest)
      modifies this`products, this`loading, this`error, this`currentPage, this`totalPages, this`totalProducts
      ensures sent == HttpRequest("GET", ApiUrl + "/admin/products/pending?page=" + IntToString(page),
                                  map["Authorization" := AuthHeader(window.storage)], "")
      ensures reply.Ok() ==>
                products == reply.body.products && totalPages == reply.body.totalPages &&
                currentPage == reply.body.currentPage && totalProducts == reply.body.totalProducts &&
                error == old(error)
      ensures !reply.Ok() ==>
                products == old(products) && totalPages == old(totalPages) && currentPage == old(currentPage) &&
                totalProducts == old(totalProducts) &&
                error == Some("Failed to fetch pending products. Please try again later.")
      ensures !loading
    {
      sent := HttpRequest("GET", ApiUrl + "/admin/products/pending?page=" + IntToString(page),
                          map["Authorization" := AuthHeader(window.storage)], "");
      if reply.Ok() {
        products := reply.body.products;
        totalPages := reply.body.totalPages;
        currentPage := reply.body.currentPage;
        totalProducts := reply.body.totalProducts;
      } else {
        error := Some("Failed to fetch pending products. Please try again later.");
      }
      loading := false;
    }

    /** `handleValidate(productId)`: on success the product leaves the list,
        the count drops by one, and a page left empty steps back one page
        unless it was the first; on failure only an alert is raised. */
    method HandleValidate(productId: int, reply: Reply<()>) returns (sent: HttpRequest, alerted: bool)
      modifies this`products, this`totalProducts, this`currentPage
      ensures sent == HttpRequest("POST", ApiUrl + "/admin/products/" + IntToString(productId) + "/validate",
                                  map["Authorization" := AuthHeader(window.storage)], "{}")
      ensures alerted <==> !reply.Ok()
      ensures !reply.Ok() ==>
                products == old(products) && totalProducts == old(totalProducts) && currentPage == old(currentPage)
      ensures reply.Ok() ==>
                products == WithoutId(old(products), productId) &&
                totalProducts == old(totalProducts) - 1
      ensures reply.Ok() ==>
                (currentPage == old(currentPage) - 1 <==> |old(products)| == 1 && old(currentPage) > 1) &&
                (currentPage == old(currentPage) || currentPage == old(currentPage) - 1)
    {
      sent := HttpRequest("POST", ApiUrl + "/admin/products/" + IntToString(productId) + "/validate",
                          map["Authorization" := AuthHeader(window.storage)], "{}");
      if !reply.Ok() {
        return sent, true;
      }
      var wasSingle := |products| == 1;
      products := WithoutId(products, productId);
      totalProducts := totalProducts - 1;
      if wasSingle && currentPage > 1 {
        currentPage := currentPage - 1;
      }
      alerted := false;
    }

    /** The "previous" button: disabled on page 1, otherwise
        `Math.max(prev - 1, 1)`. */
    method ClickPrevious()
      modifies this`currentPage
      ensures !PaginationVisible() || old(currentPage) == 1 ==> currentPage == old(currentPage)
      ensures PaginationVisible() && old(currentPage) != 1 ==>
                currentPage == (if old(currentPage) - 1 > 1 then old(currentPage) - 1 else 1)
      ensures currentPage != old(currentPage) ==> PaginationVisible() && currentPage >= 1
    {
      if PaginationVisible() && currentPage != 1 {
        currentPage := if currentPage - 1 > 1 then currentPage - 1 else 1;
      }
    }

    /** The "next" button: disabled on the last page, otherwise
        `Math.min(prev + 1, totalPages)`. */
    method ClickNext()
      modifies this`currentPage
      ensures !PaginationVisible() || old(currentPage) == totalPages ==> currentPage == old(currentPage)
      ensures PaginationVisible() && old(currentPage) != totalPages ==>
                currentPage == (if old(currentPage) + 1 < totalPages then old(currentPage) + 1 else totalPages)
      ensures currentPage != old(currentPage) ==> PaginationVisible() && currentPage <= totalPages
    {
      if PaginationVisible() && currentPage != totalPages {
        currentPage := if currentPage + 1 < totalPages then currentPage + 1 else totalPages;
      }
    }
  }
}
