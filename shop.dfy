/**
  The shapes of the Shopify GraphQL order listing that the order tool reads, and the
  remote store itself, taken as a deterministic oracle from query variables to a page
  of order edges.
*/
module Shop {
  import opened Js

  datatype LineItem = LineItem(
    name: string,
    quantity: int,
    variantPrice: Option<string>,   // `variant { price }`, absent when the variant was deleted
    variantTitle: Option<string>)

  datatype Address = Address(phone: Option<string>)

  datatype Customer = Customer(firstName: string, lastName: string)

  datatype OrderNode = OrderNode(
    id: string,                      // "gid://shopify/Order/<n>"
    name: string,                    // the display name, e.g. "#1001"
    processedAt: string,
    displayFinancialStatus: string,
    displayFulfillmentStatus: string,
    lineItems: seq<LineItem>,
    shippingAddress: Option<Address>,
    totalAmount: string,
    currencyCode: string,
    fulfillmentOrderIds: seq<string>, // `fulfillmentOrders(first: 1)`
    tags: seq<string>,
    customer: Option<Customer>)

  datatype Edge = Edge(cursor: string, node: OrderNode)

  datatype PageInfo = PageInfo(
    hasPreviousPage: bool,
    startCursor: Option<string>,
    hasNextPage: bool,
    endCursor: Option<string>)

  datatype Page = Page(edges: seq<Edge>, pageInfo: PageInfo)

  datatype SortKey = ProcessedAt | Id

  /** The variables object of an `orders` query; a missing key is `None`. */
  datatype Variables = Variables(
    ordersFirst: Option<nat>,
    ordersLast: Option<nat>,
    after: Option<string>,
    before: Option<string>,
    sortKey: Option<SortKey>,
    reverse: Option<bool>,
    query: Option<string>)

  /** The remote order store: what one `orders` query returns for given variables. */
  type Store = Variables -> Page

  /** The edges of several pages, in the order the pages were fetched. */
  function Edges(pages: seq<Page>): (es: seq<Edge>)
  {
    if pages == [] then [] else Edges(pages[..|pages| - 1]) + Last(pages).edges
  }

  lemma EdgesAppend(pages: seq<Page>, p: Page)
    ensures Edges(pages + [p]) == Edges(pages) + p.edges
  {
    assert (pages + [p])[..|pages|] == pages;
  }

  lemma {:induction false} EdgesCons(p: Page, pages: seq<Page>)
    ensures Edges([p] + pages) == p.edges + Edges(pages)
    decreases |pages|
  {
    if pages == [] {
      assert [p] + pages == [] + [p];
      EdgesAppend([], p);
    } else {
      var init := pages[..|pages| - 1];
      assert [p] + pages == ([p] + init) + [Last(pages)];
      EdgesAppend([p] + init, Last(pages));
      EdgesCons(p, init);
      EdgesAppend(init, Last(pages));
    }
  }

  /** The edges of several pages with the last-fetched page first. */
  function EdgesRev(pages: seq<Page>): (es: seq<Edge>)
  {
    if pages == [] then [] else Last(pages).edges + EdgesRev(pages[..|pages| - 1])
  }

  lemma EdgesRevAppend(pages: seq<Page>, p: Page)
    ensures EdgesRev(pages + [p]) == p.edges + EdgesRev(pages)
  {
    assert (pages + [p])[..|pages|] == pages;
  }

  lemma {:induction false} EdgesRevCons(p: Page, pages: seq<Page>)
    ensures EdgesRev([p] + pages) == EdgesRev(pages) + p.edges
    decreases |pages|
  {
    if pages == [] {
      assert [p] + pages == [] + [p];
      EdgesRevAppend([], p);
    } else {
      var init := pages[..|pages| - 1];
      assert [p] + pages == ([p] + init) + [Last(pages)];
      EdgesRevAppend([p] + init, Last(pages));
      EdgesRevCons(p, init);
      EdgesRevAppend(init, Last(pages));
    }
  }

  /** Pages of at most `size` edges hold at most `size` edges apiece. */
  lemma {:induction false} EdgesBound(pages: seq<Page>, size: nat)
    requires forall k :: 0 <= k < |pages| ==> |pages[k].edges| <= size
    ensures |Edges(pages)| <= |pages| * size
    ensures |EdgesRev(pages)| <= |pages| * size
  {
    if pages != [] {
      var init := pages[..|pages| - 1];
      var n := |init|;
      EdgesBound(init, size);
      assert |Edges(pages)| == |Edges(init)| + |Last(pages).edges|;
      assert |EdgesRev(pages)| == |Last(pages).edges| + |EdgesRev(init)|;
      assert n * size + size == |pages| * size;
    }
  }
}
