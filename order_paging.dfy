/**
  The two order-listing handlers of print-order-api.js that walk the store page by
  page: `/api/ordersList`, which answers one page of the order table and looks up
  to four pages ahead (or behind) so that the table can show them at once, and
  `/api/phoneSearch`, which walks the whole filtered listing keeping the orders
  whose shipping phone contains a search text.
*/
module OrderPaging {
  import opened Js
  import opened Shop

  /** Orders asked for by every look-ahead request. */
  const PageSize := 10

  /** Look-ahead requests made after the first page. */
  const LookAhead := 4

  /** The request for the next page after `cursor`, keeping the caller's filter. */
  function ForwardRequest(req: Variables, cursor: Option<string>): Variables
  {
    Variables(Some(PageSize), None, cursor, None, Some(ProcessedAt), req.reverse, req.query)
  }

  /** The request for the page before `cursor`, keeping the caller's filter. */
  function BackwardRequest(req: Variables, cursor: Option<string>): Variables
  {
    Variables(None, Some(PageSize), None, cursor, Some(ProcessedAt), req.reverse, req.query)
  }

  // ---------------------------------------------------------------------------
  // Looking ahead

  /** The pages the forward look-ahead fetches with `budget` requests left: each
      request follows the previous page's end cursor, and the walk stops right
      after a page that says there is no next page. */
  function ForwardFetches(store: Store, req: Variables, cursor: Option<string>, budget: nat): (ps: seq<Page>)
    ensures budget == 0 <==> ps == []
    ensures |ps| <= budget
    decreases budget
  {
    if budget == 0 then []
    else
      var p := store(ForwardRequest(req, cursor));
      if !p.pageInfo.hasNextPage then [p]
      else [p] + ForwardFetches(store, req, p.pageInfo.endCursor, budget - 1)
  }

  /** The forward look-ahead follows the end cursors from the given one, and stops
      early exactly at a page that says there is no next page. */
  lemma {:induction false} ForwardFetchesChain(store: Store, req: Variables, cursor: Option<string>, budget: nat)
    ensures var ps := ForwardFetches(store, req, cursor, budget);
            && (ps != [] ==> ps[0] == store(ForwardRequest(req, cursor)))
            && (forall k :: 0 < k < |ps| ==> ps[k] == store(ForwardRequest(req, ps[k - 1].pageInfo.endCursor)))
            && (forall k :: 0 <= k < |ps| - 1 ==> ps[k].pageInfo.hasNextPage)
            && (0 < |ps| < budget ==> !Last(ps).pageInfo.hasNextPage)
    decreases budget
  {
    if budget > 0 {
      var p := store(ForwardRequest(req, cursor));
      if p.pageInfo.hasNextPage {
        ForwardFetchesChain(store, req, p.pageInfo.endCursor, budget - 1);
      }
    }
  }

  /** The pages the backward look-ahead fetches: always `budget` requests, each
      asking for the page before the previous page's start cursor. */
  function BackwardFetches(store: Store, req: Variables, cursor: Option<string>, budget: nat): (ps: seq<Page>)
    ensures |ps| == budget
    decreases budget
  {
    if budget == 0 then []
    else
      var p := store(BackwardRequest(req, cursor));
      [p] + BackwardFetches(store, req, p.pageInfo.startCursor, budget - 1)
  }

  /** The backward look-ahead follows the start cursors from the given one. */
  lemma {:induction false} BackwardFetchesChain(store: Store, req: Variables, cursor: Option<string>, budget: nat)
    ensures var ps := BackwardFetches(store, req, cursor, budget);
            && (ps != [] ==> ps[0] == store(BackwardRequest(req, cursor)))
            && (forall k :: 0 < k < |ps| ==> ps[k] == store(BackwardRequest(req, ps[k - 1].pageInfo.startCursor)))
    decreases budget
  {
    if budget > 0 {
      var p := store(BackwardRequest(req, cursor));
      BackwardFetchesChain(store, req, p.pageInfo.startCursor, budget - 1);
    }
  }

  /** What `/api/ordersList` answers for a forward request: the first page, then the
      edges of every look-ahead page in fetch order; the window's end cursor and
      next-page flag come from the last page fetched. */
  function ForwardMerge(store: Store, req: Variables, first: Page): Page
  {
    Appended(first, ForwardFetches(store, req, first.pageInfo.endCursor, LookAhead))
  }

  /** `list` followed by the edges of the pages `ps`, ending where the last of them
      ends. */
  function Appended(list: Page, ps: seq<Page>): Page
    requires ps != []
  {
    var last := Last(ps).pageInfo;
    Page(list.edges + Edges(ps), list.pageInfo.(endCursor := last.endCursor, hasNextPage := last.hasNextPage))
  }

  lemma AppendedOne(list: Page, p: Page)
    ensures Appended(list, [p]) == ForwardStep(list, p)
  {
    EdgesAppend([], p);
    assert [] + [p] == [p];
  }

  lemma AppendedCons(list: Page, p: Page, ps: seq<Page>)
    requires ps != []
    ensures Appended(ForwardStep(list, p), ps) == Appended(list, [p] + ps)
  {
    EdgesCons(p, ps);
    assert Last([p] + ps) == Last(ps);
    assert (list.edges + p.edges) + Edges(ps) == list.edges + (p.edges + Edges(ps));
  }

  /** What `/api/ordersList` answers for a backward request: the edges of the
      look-ahead pages, latest fetched first, then the first page; the window's
      start comes from the last page fetched and its end stays the first page's. */
  function BackwardMerge(store: Store, req: Variables, first: Page): Page
  {
    Prepended(first, BackwardFetches(store, req, first.pageInfo.startCursor, LookAhead))
  }

  /** The edges of the pages `ps`, latest first, followed by `list`, starting where
      the last of them starts and ending where `list` ends. */
  function Prepended(list: Page, ps: seq<Page>): Page
    requires ps != []
  {
    var last := Last(ps).pageInfo;
    Page(EdgesRev(ps) + list.edges, last.(endCursor := list.pageInfo.endCursor, hasNextPage := list.pageInfo.hasNextPage))
  }

  lemma PrependedOne(list: Page, p: Page)
    ensures Prepended(list, [p]) == BackwardStep(list, p)
  {
    EdgesRevAppend([], p);
    assert [] + [p] == [p];
  }

  lemma PrependedCons(list: Page, p: Page, ps: seq<Page>)
    requires ps != []
    ensures Prepended(BackwardStep(list, p), ps) == Prepended(list, [p] + ps)
  {
    EdgesRevCons(p, ps);
    assert Last([p] + ps) == Last(ps);
    assert EdgesRev(ps) + (p.edges + list.edges) == (EdgesRev(ps) + p.edges) + list.edges;
  }

  /** One forward look-ahead step: append the page's edges and take over its end
      cursor and next-page flag. */
  function ForwardStep(list: Page, p: Page): Page
  {
    Page(list.edges + p.edges, list.pageInfo.(endCursor := p.pageInfo.endCursor, hasNextPage := p.pageInfo.hasNextPage))
  }

  /** One backward look-ahead step: put the page's edges in front and take over its
      start, keeping the list's end cursor and next-page flag. */
  function BackwardStep(list: Page, p: Page): Page
  {
    Page(p.edges + list.edges, p.pageInfo.(endCursor := list.pageInfo.endCursor, hasNextPage := list.pageInfo.hasNextPage))
  }

  /** The list the forward loop ends with, from `list` with `budget` requests left. */
  function ForwardRun(store: Store, req: Variables, list: Page, cursor: Option<string>, budget: nat): Page
    decreases budget
  {
    if budget == 0 then list
    else
      var p := store(ForwardRequest(req, cursor));
      if !p.pageInfo.hasNextPage then ForwardStep(list, p)
      else ForwardRun(store, req, ForwardStep(list, p), p.pageInfo.endCursor, budget - 1)
  }

  /** The list the backward loop ends with, from `list` with `budget` requests left. */
  function BackwardRun(store: Store, req: Variables, list: Page, cursor: Option<string>, budget: nat): Page
    decreases budget
  {
    if budget == 0 then list
    else
      var p := store(BackwardRequest(req, cursor));
      BackwardRun(store, req, BackwardStep(list, p), p.pageInfo.startCursor, budget - 1)
  }

  lemma {:induction false} ForwardRunMerge(store: Store, req: Variables, list: Page, cursor: Option<string>, budget: nat)
    requires budget > 0
    ensures ForwardRun(store, req, list, cursor, budget) == Appended(list, ForwardFetches(store, req, cursor, budget))
    decreases budget
  {
    var p := store(ForwardRequest(req, cursor));
    var fs := ForwardFetches(store, req, cursor, budget);
    var step := ForwardStep(list, p);
    if !p.pageInfo.hasNextPage || budget == 1 {
      assert fs == [p];
      assert ForwardRun(store, req, list, cursor, budget) == step;
      AppendedOne(list, p);
    } else {
      var ps := ForwardFetches(store, req, p.pageInfo.endCursor, budget - 1);
      assert fs == [p] + ps;
      assert ForwardRun(store, req, list, cursor, budget) == ForwardRun(store, req, step, p.pageInfo.endCursor, budget - 1);
      ForwardRunMerge(store, req, step, p.pageInfo.endCursor, budget - 1);
      AppendedCons(list, p, ps);
    }
  }

  lemma {:induction false} BackwardRunMerge(store: Store, req: Variables, list: Page, cursor: Option<string>, budget: nat)
    requires budget > 0
    ensures BackwardRun(store, req, list, cursor, budget) == Prepended(list, BackwardFetches(store, req, cursor, budget))
    decreases budget
  {
    var p := store(BackwardRequest(req, cursor));
    var bs := BackwardFetches(store, req, cursor, budget);
    var ps := BackwardFetches(store, req, p.pageInfo.startCursor, budget - 1);
    var step := BackwardStep(list, p);
    assert bs == [p] + ps;
    assert BackwardRun(store, req, list, cursor, budget) == BackwardRun(store, req, step, p.pageInfo.startCursor, budget - 1);
    if budget == 1 {
      assert bs == [p];
      PrependedOne(list, p);
    } else {
      BackwardRunMerge(store, req, step, p.pageInfo.startCursor, budget - 1);
      PrependedCons(list, p, ps);
    }
  }

  /** The forward look-ahead loop: up to four requests, each appending its edges and
      taking over the end cursor and next-page flag, stopping after a last page. */
  method LookAheadForward(store: Store, req: Variables, first: Page) returns (list: Page)
    ensures list == ForwardMerge(store, req, first)
  {
    list := first;
    var variables := ForwardRequest(req, first.pageInfo.endCursor);
    var i := 0;
    while i < LookAhead
      invariant 0 <= i <= LookAhead
      invariant variables == ForwardRequest(req, variables.after)
      invariant ForwardRun(store, req, list, variables.after, LookAhead - i)
                == ForwardRun(store, req, first, first.pageInfo.endCursor, LookAhead)
    {
      var nextList := store(variables);
      list := ForwardStep(list, nextList);
      variables := ForwardRequest(req, nextList.pageInfo.endCursor);
      i := i + 1;
      if !list.pageInfo.hasNextPage {
        break;
      }
    }
    ForwardRunMerge(store, req, first, first.pageInfo.endCursor, LookAhead);
  }

  /** The backward look-ahead loop: four requests, each putting the fetched page's
      edges in front and taking over its start, while keeping the window's end. */
  method LookAheadBackward(store: Store, req: Variables, first: Page) returns (list: Page)
    ensures list == BackwardMerge(store, req, first)
  {
    list := first;
    var variables := BackwardRequest(req, first.pageInfo.startCursor);
    var i := 0;
    while i < LookAhead
      invariant 0 <= i <= LookAhead
      invariant variables == BackwardRequest(req, variables.before)
      invariant BackwardRun(store, req, list, variables.before, LookAhead - i)
                == BackwardRun(store, req, first, first.pageInfo.startCursor, LookAhead)
    {
      var nextList := store(variables);
      list := BackwardStep(list, nextList);
      variables := BackwardRequest(req, nextList.pageInfo.startCursor);
      i := i + 1;
    }
    BackwardRunMerge(store, req, first, first.pageInfo.startCursor, LookAhead);
  }

  /** The reply of `/api/ordersList`; the two counts come from the store's REST
      count endpoint and are taken as given. */
  datatype OrdersListReply = OrdersListReply(ordersList: Page, allCnt: int, proCnt: int, comCnt: int)

  /** `/api/ordersList`: fetch the requested page, look ahead in the direction the
      request pages in (backward when it names a `before` cursor), and report the
      order counts, the completed count being all orders less the processing ones. */
  method OrdersList(store: Store, req: Variables, allCnt: int, proCnt: int) returns (reply: OrdersListReply)
    ensures req.before.None? ==> reply.ordersList == ForwardMerge(store, req, store(req))
    ensures req.before.Some? ==> reply.ordersList == BackwardMerge(store, req, store(req))
    ensures reply.allCnt == allCnt && reply.proCnt == proCnt
    ensures reply.proCnt + reply.comCnt == reply.allCnt
  {
    var first := store(req);
    var list;
    if req.before.None? {
      list := LookAheadForward(store, req, first);
    } else {
      list := LookAheadBackward(store, req, first);
    }
    reply := OrdersListReply(list, allCnt, proCnt, allCnt - proCnt);
  }

  /** The forward window starts with the requested page and keeps its start; it ends
      where the store says the listing ends, unless the four look-ahead pages were
      used up first. */
  lemma ForwardWindow(store: Store, req: Variables, first: Page)
    ensures var m := ForwardMerge(store, req, first);
            var ps := ForwardFetches(store, req, first.pageInfo.endCursor, LookAhead);
            && 1 <= |ps| <= LookAhead
            && m.edges[..|first.edges|] == first.edges
            && m.pageInfo.startCursor == first.pageInfo.startCursor
            && m.pageInfo.hasPreviousPage == first.pageInfo.hasPreviousPage
            && (m.pageInfo.hasNextPage ==> |ps| == LookAhead)
            && m.pageInfo.endCursor == Last(ps).pageInfo.endCursor
  {
    ForwardFetchesChain(store, req, first.pageInfo.endCursor, LookAhead);
  }

  /** The backward window ends with the requested page and keeps its end; it always
      spans five pages' worth of requests. */
  lemma BackwardWindow(store: Store, req: Variables, first: Page)
    ensures var m := BackwardMerge(store, req, first);
            var ps := BackwardFetches(store, req, first.pageInfo.startCursor, LookAhead);
            && m.edges[|m.edges| - |first.edges|..] == first.edges
            && m.pageInfo.endCursor == first.pageInfo.endCursor
            && m.pageInfo.hasNextPage == first.pageInfo.hasNextPage
            && m.pageInfo.startCursor == ps[LookAhead - 1].pageInfo.startCursor
  {
  }

  /** When the store never returns more than a page of ten orders, the table gets at
      most fifty orders at once, in either direction. */
  lemma MergeBound(store: Store, req: Variables, first: Page)
    requires forall v :: |store(v).edges| <= PageSize
    requires |first.edges| <= PageSize
    ensures |ForwardMerge(store, req, first).edges| <= (LookAhead + 1) * PageSize
    ensures |BackwardMerge(store, req, first).edges| <= (LookAhead + 1) * PageSize
  {
    var fs := ForwardFetches(store, req, first.pageInfo.endCursor, LookAhead);
    var bs := BackwardFetches(store, req, first.pageInfo.startCursor, LookAhead);
    EdgesBound(fs, PageSize);
    EdgesBound(bs, PageSize);
  }

  // ---------------------------------------------------------------------------
  // Walking the whole listing

  /** The pages a walk fetches: `v` first, then `tmpl` with `after` set to the last
      page's end cursor, until a page says there is no next page. `None` when
      `fuel` more requests do not reach that page. */
  function Walk(store: Store, v: Variables, tmpl: Variables, fuel: nat): (r: Option<seq<Page>>)
    ensures r.Some? ==> |r.value| >= 1 && r.value[0] == store(v)
    ensures r.Some? ==> !Last(r.value).pageInfo.hasNextPage
    decreases fuel
  {
    var p := store(v);
    if !p.pageInfo.hasNextPage then Some([p])
    else if fuel == 0 then None
    else
      match Walk(store, tmpl.(after := p.pageInfo.endCursor), tmpl, fuel - 1)
      case None => None
      case Some(ps) => Some([p] + ps)
  }

  /** A finished walk visits every page of the listing once: each request follows
      the previous page's end cursor, and only the last page has no next page. */
  lemma {:induction false} WalkChain(store: Store, v: Variables, tmpl: Variables, fuel: nat)
    requires Walk(store, v, tmpl, fuel).Some?
    ensures var ps := Walk(store, v, tmpl, fuel).value;
            && (forall k :: 0 <= k < |ps| - 1 ==> ps[k].pageInfo.hasNextPage)
            && (forall k :: 0 < k < |ps| ==> ps[k] == store(tmpl.(after := ps[k - 1].pageInfo.endCursor)))
    decreases fuel
  {
    var p := store(v);
    if p.pageInfo.hasNextPage {
      WalkChain(store, tmpl.(after := p.pageInfo.endCursor), tmpl, fuel - 1);
    }
  }

  /** More fuel finds the same walk. */
  lemma {:induction false} WalkFuel(store: Store, v: Variables, tmpl: Variables, fuel: nat, more: nat)
    requires Walk(store, v, tmpl, fuel).Some? && fuel <= more
    ensures Walk(store, v, tmpl, more) == Walk(store, v, tmpl, fuel)
    decreases fuel
  {
    var p := store(v);
    if p.pageInfo.hasNextPage {
      WalkFuel(store, tmpl.(after := p.pageInfo.endCursor), tmpl, fuel - 1, more - 1);
    }
  }

  /** The variables of every `/api/phoneSearch` request but the cursor. */
  function PhoneRequest(query: Option<string>): Variables
  {
    Variables(Some(PageSize), None, None, None, Some(Id), Some(true), query)
  }

  /** The phone the search looks at: `''` when there is no shipping address, `None`
      when the address has no phone. */
  function ShippingPhone(n: OrderNode): Option<string>
  {
    match n.shippingAddress
    case None => Some("")
    case Some(a) => a.phone
  }

  predicate PhoneMatches(e: Edge, phone: string)
  {
    ShippingPhone(e.node).Some? && Contains(ShippingPhone(e.node).value, phone)
  }

  /** The edges whose phone contains the search text, in order. */
  function PhoneHits(es: seq<Edge>, phone: string): (r: seq<Edge>)
    ensures |r| <= |es|
  {
    if es == [] then []
    else PhoneHits(es[..|es| - 1], phone) + (if PhoneMatches(Last(es), phone) then [Last(es)] else [])
  }

  /** The search keeps exactly the orders whose phone contains the search text. */
  lemma {:induction false} PhoneHitsMembers(es: seq<Edge>, phone: string)
    ensures forall e :: e in PhoneHits(es, phone) <==> e in es && PhoneMatches(e, phone)
  {
    if es != [] {
      var init := es[..|es| - 1];
      PhoneHitsMembers(init, phone);
      assert es == init + [Last(es)];
    }
  }

  lemma {:induction false} PhoneHitsAppend(es: seq<Edge>, more: seq<Edge>, phone: string)
    ensures PhoneHits(es + more, phone) == PhoneHits(es, phone) + PhoneHits(more, phone)
    decreases |more|
  {
    if more == [] {
      assert es + more == es;
    } else {
      var m' := more[..|more| - 1];
      assert (es + more)[..|es + more| - 1] == es + m';
      assert Last(es + more) == Last(more);
      PhoneHitsAppend(es, m', phone);
    }
  }

  /** The `forEach` over one page's edges. */
  method FilterPage(es: seq<Edge>, phone: string) returns (hits: seq<Edge>)
    ensures hits == PhoneHits(es, phone)
  {
    hits := [];
    var j := 0;
    while j < |es|
      invariant 0 <= j <= |es|
      invariant hits == PhoneHits(es[..j], phone)
    {
      assert es[..j + 1][..j] == es[..j];
      if PhoneMatches(es[j], phone) {
        hits := hits + [es[j]];
      }
      j := j + 1;
    }
    assert es[..j] == es;
  }

  /** `/api/phoneSearch`: walk every page of the filtered listing, newest order id
      first, keeping the orders whose shipping phone contains `phone`. The walk
      ends when the store says there is no next page; `fuel` bounds the number of
      pages and only states that it does end. */
  method PhoneSearch(store: Store, query: Option<string>, phone: string, ghost fuel: nat) returns (found: seq<Edge>)
    requires Walk(store, PhoneRequest(query), PhoneRequest(query), fuel).Some?
    ensures found == PhoneHits(Edges(Walk(store, PhoneRequest(query), PhoneRequest(query), fuel).value), phone)
  {
    var tmpl := PhoneRequest(query);
    ghost var all := Walk(store, tmpl, tmpl, fuel).value;
    WalkChain(store, tmpl, tmpl, fuel);
    ghost var k := 0;
    var variables := tmpl;
    found := [];
    var next := true;
    while next
      invariant 0 <= k <= |all|
      invariant next <==> k < |all|
      invariant next ==> store(variables) == all[k]
      invariant found == PhoneHits(Edges(all[..k]), phone)
      decreases |all| - k
    {
      var retGql := store(variables);
      var hits := FilterPage(retGql.edges, phone);
      assert all[..k + 1] == all[..k] + [retGql];
      EdgesAppend(all[..k], retGql);
      PhoneHitsAppend(Edges(all[..k]), retGql.edges, phone);
      found := found + hits;
      next := retGql.pageInfo.hasNextPage;
      variables := tmpl.(after := retGql.pageInfo.endCursor);
      k := k + 1;
    }
    assert all[..k] == all;
  }
}
