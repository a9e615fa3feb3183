/**
  The orders page (index.jsx): the three tabs and their filters, the table rows built
  from a page of orders, the search query the page composes, the pager and the
  refetch after printing, the customer-date and order-number filters, the print
  action's id handling and the order ids read from the page's own URL.
*/
module IndexPage {
  import opened Js
  import opened Shop
  import opened Grouping
  import opened OrderNumbers

  /** Orders per page of the table. */
  const PageSize := 10

  // ---------------------------------------------------------------------------
  // Tabs

  /** The bound every tab puts on the creation date. */
  function CreatedAfter(since: string): string
  {
    "created_at:>\"" + since + "\""
  }

  /** The terms a tab puts in front of the date bound: none for all orders, the
      paid open orders still to ship, and the shipped or unpaid ones. */
  function TabHead(tab: int): string
  {
    if tab == 1 then "status:\"open\" " + "fulfillment_status:\"unshipped,partial\" " + "financial_status:\"paid\" "
    else if tab == 2 then "fulfillment_status:\"shipped\" " + "OR NOT financial_status:\"paid\" "
    else ""
  }

  /** The filter of tab `tab` for orders created after `since` (55 days before
      today); an index other than the three leaves the filter as it was (`None`). */
  function TabQuery(tab: int, since: string): Option<string>
  {
    if 0 <= tab <= 2 then Some(TabHead(tab) + CreatedAfter(since)) else None
  }

  /** Every tab keeps the creation-date bound, as its own last term. */
  lemma TabQueryBound(since: string, tab: int)
    requires 0 <= tab <= 2
    requires ' ' !in since
    ensures Last(Split(TabQuery(tab, since).value, ' ')) == CreatedAfter(since)
  {
    var c := CreatedAfter(since);
    assert ' ' !in c;
    if tab != 0 {
      var h := TabHead(tab)[..|TabHead(tab)| - 1];
      assert TabHead(tab) == h + [' '];
      assert TabQuery(tab, since).value == h + [' '] + c;
      SplitConcat(h, ' ', c);
    } else {
      assert TabQuery(tab, since).value == c;
    }
  }

  /** The three tabs filter differently. */
  lemma TabQueriesDiffer(since: string, tab: int, other: int)
    requires 0 <= tab < other <= 2
    ensures TabQuery(tab, since) != TabQuery(other, since)
  {
    var c := CreatedAfter(since);
    var ha, hb := TabHead(tab), TabHead(other);
    if tab == 0 {
      assert |ha + c| < |hb + c|;
    } else {
      assert tab == 1 && other == 2;
      assert TabHead(1)[0] == 's' && TabHead(2)[0] == 'f';
      assert (ha + c)[0] == ha[0] == 's';
      assert (hb + c)[0] == hb[0] == 'f';
    }
  }

  // ---------------------------------------------------------------------------
  // The rows of the order table

  /** The sign shown after an amount; a currency missing from the table prints as
      `undefined`. */
  function CurrencySign(code: string): string
  {
    if code == "USD" then "$" else if code == "ILS" then "\U{20AA}" else "undefined"
  }

  /** `firstName lastName`, or empty for an order without a customer. */
  function CustomerName(c: Option<Customer>): string
  {
    match c
    case None => ""
    case Some(cu) => cu.firstName + " " + cu.lastName
  }

  /** Whether some line item of the order asks for more than one unit. */
  predicate MoreThanOne(items: seq<LineItem>)
  {
    exists k :: 0 <= k < |items| && items[k].quantity > 1
  }

  /** What a table row shows of an order. */
  datatype RowNode = RowNode(
    name: string,
    customerName: string,
    processedAt: string,
    tags: seq<string>,
    status: string,
    financialStatus: string,
    total: string,
    moreQuantity: bool)

  /** A table row: the order's id and its first fulfillment order's id joined by `#`. */
  datatype OrderRow = OrderRow(id: string, node: RowNode)

  /** The row of one order; `None` stands for the exception thrown when the order
      has no fulfillment order. */
  function RowOf(n: OrderNode): (r: Option<OrderRow>)
    ensures r.Some? <==> n.fulfillmentOrderIds != []
  {
    if n.fulfillmentOrderIds == [] then None
    else Some(OrderRow(n.id + "#" + n.fulfillmentOrderIds[0],
      RowNode(n.name, CustomerName(n.customer), n.processedAt, n.tags,
              n.displayFulfillmentStatus, n.displayFinancialStatus,
              n.totalAmount + CurrencySign(n.currencyCode), MoreThanOne(n.lineItems))))
  }

  /** The rows of a page's edges, one per edge in order, or `None` when some order
      has no fulfillment order. */
  function Rows(es: seq<Edge>): (r: Option<seq<OrderRow>>)
    ensures r.Some? <==> forall j :: 0 <= j < |es| ==> RowOf(es[j].node).Some?
    ensures r.Some? ==> |r.value| == |es| && forall j :: 0 <= j < |es| ==> r.value[j] == RowOf(es[j].node).value
  {
    if es == [] then Some([])
    else
      match (Rows(es[..|es| - 1]), RowOf(Last(es).node))
      case (Some(init), Some(row)) => Some(init + [row])
      case _ => None
  }

  /** The flag loop: set when some line item's quantity exceeds one. */
  method MoreQuantity(items: seq<LineItem>) returns (more: bool)
    ensures more <==> MoreThanOne(items)
  {
    more := false;
    var k := 0;
    while k < |items|
      invariant 0 <= k <= |items|
      invariant more <==> exists i :: 0 <= i < k && items[i].quantity > 1
    {
      if items[k].quantity > 1 {
        more := true;
      }
      k := k + 1;
    }
  }

  /** `func`: map every edge to its row. */
  method MapRows(es: seq<Edge>) returns (data: Option<seq<OrderRow>>)
    ensures data == Rows(es)
  {
    var rows: seq<OrderRow> := [];
    var j := 0;
    while j < |es|
      invariant 0 <= j <= |es|
      invariant Rows(es[..j]) == Some(rows)
    {
      var n := es[j].node;
      if n.fulfillmentOrderIds == [] {
        assert es[..j + 1][j] == es[j];
        assert Rows(es).None?;
        return None;
      }
      var more := MoreQuantity(n.lineItems);
      var node := RowNode(n.name, CustomerName(n.customer), n.processedAt, n.tags,
                          n.displayFulfillmentStatus, n.displayFinancialStatus,
                          n.totalAmount + CurrencySign(n.currencyCode), more);
      rows := rows + [OrderRow(n.id + "#" + n.fulfillmentOrderIds[0], node)];
      assert es[..j + 1][..j] == es[..j];
      j := j + 1;
    }
    assert es[..j] == es;
    data := Some(rows);
  }

  // ---------------------------------------------------------------------------
  // Printing the selected rows

  /** The order number a row id names: the last `/`-part of the text before `#`. */
  function OrderIdOf(rowId: string): string
  {
    Last(Split(Split(rowId, '#')[0], '/'))
  }

  /** The fulfillment order a row id names: the text after the first `#`. */
  function FulfillmentIdOf(rowId: string): Option<string>
  {
    Part(rowId, '#', 1)
  }

  /** The print action takes back what the table put in a row id: the number at the
      end of the order's id, and the id of its fulfillment order. */
  lemma RowIdRoundTrip(n: OrderNode, prefix: string, num: string)
    requires n.id == prefix + "/" + num
    requires '#' !in n.id && '/' !in num
    requires n.fulfillmentOrderIds != [] && '#' !in n.fulfillmentOrderIds[0]
    ensures OrderIdOf(RowOf(n).value.id) == num
    ensures FulfillmentIdOf(RowOf(n).value.id) == Some(n.fulfillmentOrderIds[0])
  {
    var f := n.fulfillmentOrderIds[0];
    assert RowOf(n).value.id == n.id + ['#'] + f;
    SplitConcat(n.id, '#', f);
    assert n.id == prefix + ['/'] + num;
    SplitConcat(prefix, '/', num);
  }

  /** What the built-in sort compares when given the `{ id }` objects: their common
      string form. */
  function ObjectText(id: string): string
  {
    "[object Object]"
  }

  /** The loop over the ids: split each, then sort the ids with the built-in sort. */
  method SplitIds(ids: seq<string>) returns (selIds: seq<string>, fulfillmentIds: seq<Option<string>>)
    ensures |selIds| == |ids| == |fulfillmentIds|
    ensures forall k :: 0 <= k < |ids| ==> selIds[k] == OrderIdOf(ids[k]) && fulfillmentIds[k] == FulfillmentIdOf(ids[k])
  {
    selIds, fulfillmentIds := [], [];
    var k := 0;
    while k < |ids|
      invariant 0 <= k <= |ids| && |selIds| == k == |fulfillmentIds|
      invariant forall i :: 0 <= i < k ==> selIds[i] == OrderIdOf(ids[i]) && fulfillmentIds[i] == FulfillmentIdOf(ids[i])
    {
      var t1 := Split(ids[k], '#');
      var arr := Split(t1[0], '/');
      selIds := selIds + [arr[|arr| - 1]];
      fulfillmentIds := fulfillmentIds + [if 1 < |t1| then Some(t1[1]) else None];
      k := k + 1;
    }
    SortByConstantKey(selIds, ObjectText, "[object Object]");
    selIds := SortByKey(selIds, ObjectText);
  }

  /** The lookup of the print action: a node is taken for `id` when its id contains
      `Order/` followed by `id`. */
  predicate Names(nodeId: string, id: string)
  {
    IndexOf(nodeId, "Order/" + id, 0) > -1
  }

  /** The first node of the list taken for `id`. */
  function FirstMatch(origin: seq<OrderNode>, id: string): (r: Option<nat>)
    ensures r.Some? ==> r.value < |origin| && Names(origin[r.value].id, id)
    ensures r.Some? ==> forall j :: 0 <= j < r.value ==> !Names(origin[j].id, id)
    ensures r.None? ==> forall j :: 0 <= j < |origin| ==> !Names(origin[j].id, id)
  {
    if origin == [] then None
    else if Names(origin[0].id, id) then Some(0)
    else match FirstMatch(origin[1..], id)
         case None => None
         case Some(j) => Some(j + 1)
  }

  /** The orders sent to print: for every selected id in turn, the first listed
      order it names, if any. */
  function PrintOrders(selIds: seq<string>, origin: seq<OrderNode>): (r: seq<OrderNode>)
  {
    if selIds == [] then []
    else PrintOrders(selIds[..|selIds| - 1], origin)
         + match FirstMatch(origin, Last(selIds)) case None => [] case Some(j) => [origin[j]]
  }

  /** At most one order per selected id, each a listed order named by a selected id. */
  lemma {:induction false} PrintOrdersFrom(selIds: seq<string>, origin: seq<OrderNode>)
    ensures |PrintOrders(selIds, origin)| <= |selIds|
    ensures forall o :: o in PrintOrders(selIds, origin) ==>
              o in origin && exists k :: 0 <= k < |selIds| && Names(o.id, selIds[k])
  {
    if selIds != [] {
      var init := selIds[..|selIds| - 1];
      PrintOrdersFrom(init, origin);
      forall o | o in PrintOrders(selIds, origin)
        ensures o in origin && exists k :: 0 <= k < |selIds| && Names(o.id, selIds[k])
      {
        if o in PrintOrders(init, origin) {
          var k :| 0 <= k < |init| && Names(o.id, init[k]);
          assert selIds[k] == init[k];
        } else {
          assert Names(o.id, selIds[|selIds| - 1]);
        }
      }
    }
  }

  /** Every selected id that names a listed order has an order printed. */
  lemma {:induction false} PrintOrdersCover(selIds: seq<string>, origin: seq<OrderNode>, k: nat, j: nat)
    requires k < |selIds| && j < |origin| && Names(origin[j].id, selIds[k])
    ensures exists o :: o in PrintOrders(selIds, origin) && Names(o.id, selIds[k])
  {
    var init := selIds[..|selIds| - 1];
    if k == |selIds| - 1 {
      var m := FirstMatch(origin, selIds[k]).value;
      assert origin[m] in PrintOrders(selIds, origin);
    } else {
      PrintOrdersCover(init, origin, k, j);
      var o :| o in PrintOrders(init, origin) && Names(o.id, init[k]);
      assert o in PrintOrders(selIds, origin);
    }
  }

  /** The two nested loops, the inner one stopping at the first match. */
  method PickPrintOrders(selIds: seq<string>, origin: seq<OrderNode>) returns (printOrders: seq<OrderNode>)
    ensures printOrders == PrintOrders(selIds, origin)
  {
    printOrders := [];
    var i := 0;
    while i < |selIds|
      invariant 0 <= i <= |selIds|
      invariant printOrders == PrintOrders(selIds[..i], origin)
    {
      var j := 0;
      var found := false;
      while j < |origin|
        invariant 0 <= j <= |origin|
        invariant forall m :: 0 <= m < j ==> !Names(origin[m].id, selIds[i])
        invariant printOrders == PrintOrders(selIds[..i], origin)
      {
        if IndexOf(origin[j].id, "Order/" + selIds[i], 0) > -1 {
          printOrders := printOrders + [origin[j]];
          found := true;
          break;
        }
        j := j + 1;
      }
      PrintOrdersStep(selIds, origin, i);
      if found {
        assert FirstMatch(origin, selIds[i]) == Some(j);
      } else {
        assert FirstMatch(origin, selIds[i]) == None;
      }
      i := i + 1;
    }
    assert selIds[..i] == selIds;
  }

  /** Taking one more selected id adds its first match, if any. */
  lemma PrintOrdersStep(selIds: seq<string>, origin: seq<OrderNode>, i: nat)
    requires i < |selIds|
    ensures PrintOrders(selIds[..i + 1], origin)
            == PrintOrders(selIds[..i], origin)
               + match FirstMatch(origin, selIds[i]) case None => [] case Some(j) => [origin[j]]
  {
    assert selIds[..i + 1][..i] == selIds[..i];
  }

  /** The lookup matches by substring, so a selected number that begins a longer
      one takes that longer order when it is listed first. */
  lemma LookupByPrefix(a: OrderNode, b: OrderNode)
    requires a.id == "gid://shopify/Order/123" && b.id == "gid://shopify/Order/12"
    ensures PrintOrders(["12"], [a, b]) == [a]
  {
    assert a.id[14..22] == "Order/12";
    IndexOfAt(a.id, "Order/" + "12", 0, 14);
    assert ["12"][..0] == [];
  }

  // ---------------------------------------------------------------------------
  // The search query

  /** The query as the page writes it, at its five places: the search text, the
      tab's filter, the date choice, the customer-date clause and the order-number
      query, run together. */
  function SearchQueryAsWritten(query: string, tabquery: string, dayquery: string,
                                customerDateQuery: string, orderQuery: string): string
  {
    query + " " + tabquery + " " + dayquery + customerDateQuery + orderQuery
  }

  /** As written, the order-number query is glued to the date choice before it: its
      first term is not a term of the search. */
  lemma SearchQueryAsWrittenGlued(query: string, tabquery: string, dayquery: string, orderQuery: string)
    requires dayquery != "" && ' ' !in dayquery
    requires orderQuery != "" && ' ' !in orderQuery
    ensures var terms := Split(SearchQueryAsWritten(query, tabquery, dayquery, "", orderQuery), ' ');
            Last(terms) == dayquery + orderQuery && Last(terms) != orderQuery
  {
    var head := query + " " + tabquery;
    var t := dayquery + orderQuery;
    assert ' ' !in t;
    assert Split(t, ' ') == [t];
    assert SearchQueryAsWritten(query, tabquery, dayquery, "", orderQuery) == head + [' '] + t by {
      assert head + " " + dayquery + "" + orderQuery == (head + [' '] + dayquery) + orderQuery;
      Regroup(head + [' '], dayquery, orderQuery);
    }
    SplitConcat(head, ' ', t);
    assert |t| > |orderQuery|;
  }

  /** The same with a customer start date instead of a date choice: the order-number
      query runs into the date bound. */
  lemma SearchQueryAsWrittenGluedDate(query: string, tabquery: string, start: string, nextDate: string, orderQuery: string)
    requires start != "" && ' ' !in start
    requires orderQuery != "" && ' ' !in orderQuery
    ensures var terms := Split(SearchQueryAsWritten(query, tabquery, "", DateClause(start, "", nextDate), orderQuery), ' ');
            Last(terms) == After(start) + orderQuery
  {
    var head := query + " " + tabquery + " ";
    var t := After(start) + orderQuery;
    assert DateClause(start, "", nextDate) == [' '] + After(start);
    assert SearchQueryAsWritten(query, tabquery, "", DateClause(start, "", nextDate), orderQuery)
           == head + ([' '] + After(start)) + orderQuery;
    assert SearchQueryAsWritten(query, tabquery, "", DateClause(start, "", nextDate), orderQuery)
           == head + [' '] + t;
    SplitConcat(head, ' ', t);
    BoundsHaveNoSpace(start, start);
    assert ' ' !in t;
  }

  /** The query with a space in front of a non-empty order-number query, as the other
      parts already have. */
  function SearchQuery(query: string, tabquery: string, dayquery: string,
                       customerDateQuery: string, orderQuery: string): string
  {
    query + " " + tabquery + " " + dayquery + customerDateQuery
    + (if orderQuery == "" then "" else " " + orderQuery)
  }

  /** Every term of the order-number query is a term of the search, after the terms
      of the other parts; without an order-number query nothing changes. */
  lemma SearchQueryTerms(query: string, tabquery: string, dayquery: string,
                         customerDateQuery: string, orderQuery: string)
    ensures var head := query + " " + tabquery + " " + dayquery + customerDateQuery;
            orderQuery != "" ==> Split(SearchQuery(query, tabquery, dayquery, customerDateQuery, orderQuery), ' ')
                                 == Split(head, ' ') + Split(orderQuery, ' ')
    ensures orderQuery == "" ==>
              SearchQuery(query, tabquery, dayquery, customerDateQuery, orderQuery)
              == SearchQueryAsWritten(query, tabquery, dayquery, customerDateQuery, orderQuery)
  {
    var head := query + " " + tabquery + " " + dayquery + customerDateQuery;
    if orderQuery != "" {
      assert SearchQuery(query, tabquery, dayquery, customerDateQuery, orderQuery) == head + [' '] + orderQuery;
      SplitConcat(head, ' ', orderQuery);
    } else {
      assert head + "" == head;
    }
  }

  /** The bound after a start date. */
  function After(start: string): string
  {
    "created_at:>" + start
  }

  /** The bound before a date. */
  function Before(nextDate: string): string
  {
    "created_at:<" + nextDate
  }

  /** Bounds built from texts without spaces have no space. */
  lemma BoundsHaveNoSpace(start: string, nextDate: string)
    requires ' ' !in start && ' ' !in nextDate
    ensures ' ' !in After(start) && ' ' !in Before(nextDate)
  {
    assert ' ' !in "created_at:>" && ' ' !in "created_at:<";
  }

  /** The customer-date clause: after the start date, before the day after the end
      date (`nextDate`), or both joined by `AND`; empty when neither date is given. */
  function DateClause(start: string, end: string, nextDate: string): (q: string)
    ensures q == "" <==> start == "" && end == ""
  {
    if start != "" && end != "" then " " + After(start) + " AND " + Before(nextDate)
    else if end != "" then " " + Before(nextDate)
    else if start != "" then " " + After(start)
    else ""
  }

  /** `" " + a + " AND " + b`, regrouped around its three spaces. */
  lemma AndText(a: string, b: string)
    ensures " " + a + " AND " + b == [] + [' '] + (a + [' '] + ("AND" + [' '] + b))
  {
    assert " AND " == [' '] + "AND" + [' '];
  }

  /** The text `" " + a + " AND " + b` is four space-separated parts. */
  lemma AndShape(a: string, b: string)
    requires ' ' !in a && ' ' !in b
    ensures Split(" " + a + " AND " + b, ' ') == ["", a, "AND", b]
  {
    var tail := "AND" + [' '] + b;
    var rest := a + [' '] + tail;
    AndText(a, b);
    calc {
      Split(" " + a + " AND " + b, ' ');
      Split([] + [' '] + rest, ' ');
      { SplitCons([], ' ', rest); }
      [[]] + Split(rest, ' ');
      { SplitCons(a, ' ', tail); }
      [[]] + ([a] + Split(tail, ' '));
      { AndTail(b); }
      [[]] + ([a] + ["AND", b]);
    }
  }

  /** The text after the first bound: `AND`, then the second bound. */
  lemma AndTail(b: string)
    requires ' ' !in b
    ensures Split("AND" + [' '] + b, ' ') == ["AND", b]
  {
    var and := "AND";
    assert ' ' !in and by {
      assert and == ['A', 'N', 'D'];
    }
    SplitCons(and, ' ', b);
  }

  /** With both dates the clause's terms are the two bounds joined by `AND`. */
  lemma DateClauseTerms(start: string, end: string, nextDate: string)
    requires ' ' !in start && ' ' !in nextDate
    requires start != "" && end != ""
    ensures Split(DateClause(start, end, nextDate), ' ') == ["", After(start), "AND", Before(nextDate)]
  {
    BoundsHaveNoSpace(start, nextDate);
    AndShape(After(start), Before(nextDate));
  }

  /** With one date the clause is that date's bound alone; the start date is dropped
      when only the end date is given. */
  lemma DateClauseOneBound(start: string, end: string, nextDate: string)
    requires ' ' !in start && ' ' !in nextDate
    requires (start == "") != (end == "")
    ensures end != "" ==> Split(DateClause(start, end, nextDate), ' ') == ["", Before(nextDate)]
    ensures start != "" ==> Split(DateClause(start, end, nextDate), ' ') == ["", After(start)]
  {
    BoundsHaveNoSpace(start, nextDate);
    var t := if end != "" then Before(nextDate) else After(start);
    assert DateClause(start, end, nextDate) == "" + [' '] + t;
    SplitConcat("", ' ', t);
  }

  // ---------------------------------------------------------------------------
  // Requests, the pager and the refetch after printing

  /** The first page for a query, newest or oldest first. */
  function LoadRequest(q: string, sort: bool): Variables
  {
    Variables(Some(PageSize), None, None, None, Some(ProcessedAt), Some(sort), Some(q))
  }

  /** The page after the one described by `p`. */
  function NextRequest(p: PageInfo, q: string, sort: bool): Variables
  {
    Variables(Some(PageSize), None, p.endCursor, None, Some(ProcessedAt), Some(sort), Some(q))
  }

  /** The page before the one described by `p`. */
  function PreviousRequest(p: PageInfo, q: string, sort: bool): Variables
  {
    Variables(None, Some(PageSize), None, p.startCursor, Some(ProcessedAt), Some(sort), Some(q))
  }

  /** The empty variables object. */
  const NoVariables := Variables(None, None, None, None, None, None, None)

  /** The variables of the refetch after printing, chosen by the kept cursors: the
      first page when none is kept, the page after `pre`, the page before `next`;
      with both kept no branch applies and the object stays empty. */
  function RefetchVariables(pre: Option<PageInfo>, next: Option<PageInfo>, q: string, sort: bool): Variables
  {
    if pre.None? && next.None? then LoadRequest(q, sort)
    else if pre.Some? && next.None? then NextRequest(pre.value, q, sort)
    else if pre.None? && next.Some? then PreviousRequest(next.value, q, sort)
    else NoVariables
  }

  /** The refetch keeps the page's query, order and page size whenever at most one
      cursor is kept, and asks for nothing exactly when both are. */
  lemma RefetchKeepsQuery(pre: Option<PageInfo>, next: Option<PageInfo>, q: string, sort: bool)
    ensures var v := RefetchVariables(pre, next, q, sort);
            (v == NoVariables <==> pre.Some? && next.Some?)
            && (!(pre.Some? && next.Some?) ==>
                  v.query == Some(q) && v.reverse == Some(sort) && v.sortKey == Some(ProcessedAt)
                  && (v.ordersFirst == Some(PageSize) <==> v.ordersLast.None?)
                  && (v.ordersFirst.None? <==> v.ordersLast == Some(PageSize)))
  {
  }

  /** The state of the orders page. */
  class OrdersPage {
    /** The date 55 days before today, in `YYYY-MM-DD` form. */
    const since: string
    var selectedTab: int
    var tabquery: string
    var query: string
    var dayquery: string
    var customerDateQuery: string
    var orderQuery: string
    var sort: bool
    /** The page info kept by `onNext` and by `onPrevious`. */
    var pre: Option<PageInfo>
    var next: Option<PageInfo>

    /** The filter is the selected tab's, and at most one cursor is kept. */
    ghost predicate Valid()
      reads this
    {
      (0 <= selectedTab <= 2 ==> TabQuery(selectedTab, since) == Some(tabquery))
      && !(pre.Some? && next.Some?)
    }

    /** The query every request of the page sends. */
    function Query(): string
      reads this
    {
      SearchQueryAsWritten(query, tabquery, dayquery, customerDateQuery, orderQuery)
    }

    /** What the page shows besides the cursors. */
    function Filters(): (int, string, string, string, string, string, bool)
      reads this
    {
      (selectedTab, tabquery, query, dayquery, customerDateQuery, orderQuery, sort)
    }

    /** The refetch after printing. */
    function Refetch(): Variables
      reads this
    {
      RefetchVariables(pre, next, Query(), sort)
    }

    /** The page opens on the processing tab, with no other filter, newest first in
      the order Shopify gives, and no cursor; a refetch then reloads the first page. */
    constructor(since: string)
      ensures this.since == since && selectedTab == 1 && tabquery == TabQuery(1, since).value
      ensures query == "" && dayquery == "" && customerDateQuery == "" && orderQuery == "" && !sort
      ensures pre.None? && next.None?
      ensures Valid() && Refetch() == LoadRequest(Query(), sort)
    {
      this.since := since;
      selectedTab := 1;
      tabquery := TabHead(1) + CreatedAfter(since);
      query, dayquery, customerDateQuery, orderQuery, sort := "", "", "", "", false;
      pre, next := None, None;
    }

    /** `handleTabChange`: select the tab and, for one of the three, its filter. */
    method ChangeTab(tab: int)
      requires Valid()
      modifies this
      ensures selectedTab == tab
      ensures tabquery == (match TabQuery(tab, since) case Some(q) => q case None => old(tabquery))
      ensures query == old(query) && dayquery == old(dayquery) && customerDateQuery == old(customerDateQuery)
      ensures orderQuery == old(orderQuery) && sort == old(sort) && pre == old(pre) && next == old(next)
      ensures Valid()
    {
      selectedTab := tab;
      if tab == 0 {
        tabquery := CreatedAfter(since);
        assert TabHead(0) == "";
      } else if tab == 1 {
        tabquery := TabHead(1) + CreatedAfter(since);
      } else if tab == 2 {
        tabquery := TabHead(2) + CreatedAfter(since);
      } else {
        assert TabQuery(tab, since) == None;
      }
    }

    /** The customer-date filter button. */
    method FilterCustomerDate(start: string, end: string, nextDate: string)
      requires Valid()
      modifies this
      ensures customerDateQuery == DateClause(start, end, nextDate)
      ensures (selectedTab, tabquery, query, dayquery, orderQuery, sort, pre, next)
              == old((selectedTab, tabquery, query, dayquery, orderQuery, sort, pre, next))
      ensures Valid()
    {
      var q := "";
      if start != "" {
        q := " " + After(start);
      }
      if end != "" {
        q := " " + Before(nextDate);
      }
      if start != "" && end != "" {
        q := " " + After(start) + " AND " + Before(nextDate);
      }
      customerDateQuery := q;
    }

    /** The order-number filter button. */
    method FilterOrderNumber(startText: string, endText: string)
      requires Valid()
      modifies this
      ensures orderQuery == OrderQuery(startText, endText)
      ensures (selectedTab, tabquery, query, dayquery, customerDateQuery, sort, pre, next)
              == old((selectedTab, tabquery, query, dayquery, customerDateQuery, sort, pre, next))
      ensures Valid()
    {
      orderQuery := BuildOrderQuery(startText, endText);
    }

    /** `handleDateFilterChange`: the chosen day filter is the day query as is. */
    method ChangeDayFilter(value: string)
      requires Valid()
      modifies this
      ensures dayquery == value
      ensures (selectedTab, tabquery, query, customerDateQuery, orderQuery, sort, pre, next)
              == old((selectedTab, tabquery, query, customerDateQuery, orderQuery, sort, pre, next))
      ensures Valid()
    {
      dayquery := value;
    }

    /** `handleSort`: only the option text `"true"` reverses the order. */
    method ChangeSort(value: string)
      requires Valid()
      modifies this
      ensures sort <==> value == "true"
      ensures (selectedTab, tabquery, query, dayquery, customerDateQuery, orderQuery, pre, next)
              == old((selectedTab, tabquery, query, dayquery, customerDateQuery, orderQuery, pre, next))
      ensures Valid()
    {
      sort := if value == "true" then true else false;
    }

    /** `handleSearchInputChange`: the search text leads the query. */
    method ChangeSearch(value: string)
      requires Valid()
      modifies this
      ensures query == value
      ensures (selectedTab, tabquery, dayquery, customerDateQuery, orderQuery, sort, pre, next)
              == old((selectedTab, tabquery, dayquery, customerDateQuery, orderQuery, sort, pre, next))
      ensures Valid()
    {
      query := value;
    }

    /** `onPrevious`: keep the current page's info as `next` and ask for the page
      before it; a refetch then asks for that same page. */
    method OnPrevious(p: PageInfo) returns (v: Variables)
      requires Valid()
      modifies this
      ensures v == PreviousRequest(p, Query(), sort)
      ensures pre.None? && next == Some(p) && Filters() == old(Filters())
      ensures Valid() && Refetch() == v
    {
      pre := None;
      next := Some(p);
      v := Variables(None, Some(PageSize), None, p.startCursor, Some(ProcessedAt), Some(sort), Some(Query()));
    }

    /** `onNext`: keep the current page's info as `pre` and ask for the page after
      it; a refetch then asks for that same page. */
    method OnNext(p: PageInfo) returns (v: Variables)
      requires Valid()
      modifies this
      ensures v == NextRequest(p, Query(), sort)
      ensures pre == Some(p) && next.None? && Filters() == old(Filters())
      ensures Valid() && Refetch() == v
    {
      pre := Some(p);
      next := None;
      v := Variables(Some(PageSize), None, p.endCursor, None, Some(ProcessedAt), Some(sort), Some(Query()));
    }
  }

  // ---------------------------------------------------------------------------
  // Order ids in the page's URL

  /** The URL-encoded `ids[]` parameter name. */
  const IdsKey := "ids%5B%5D"

  /** The positions the global regular expression finds, from `from` on: each search
      starts where the previous match ended. */
  function Occurrences(url: string, from: nat): (r: seq<nat>)
    decreases |url| - from
  {
    var i := IndexOf(url, IdsKey, from);
    if i == -1 then [] else [i] + Occurrences(url, i + |IdsKey|)
  }

  /** The matches are non-overlapping occurrences of the key, at or after `from`,
      each found after the previous one. */
  lemma {:induction false} OccurrencesFound(url: string, from: nat)
    ensures forall k :: 0 <= k < |Occurrences(url, from)| ==>
              from <= Occurrences(url, from)[k] && OccursAt(url, IdsKey, Occurrences(url, from)[k])
    ensures forall k :: 0 < k < |Occurrences(url, from)| ==>
              Occurrences(url, from)[k - 1] + |IdsKey| <= Occurrences(url, from)[k]
    decreases |url| - from
  {
    var i := IndexOf(url, IdsKey, from);
    if i != -1 {
      var next: nat := i + |IdsKey|;
      OccurrencesFound(url, next);
      var rest := Occurrences(url, next);
      var r := Occurrences(url, from);
      assert r == [i] + rest;
      forall k | 0 < k < |r|
        ensures from <= r[k] && OccursAt(url, IdsKey, r[k]) && r[k - 1] + |IdsKey| <= r[k]
      {
        assert r[k] == rest[k - 1];
        assert next <= rest[k - 1] && OccursAt(url, IdsKey, rest[k - 1]);
        if k > 1 {
          assert r[k - 1] == rest[k - 2];
          assert rest[k - 2] + |IdsKey| <= rest[k - 1];
        }
      }
    }
  }


  /** The id after the occurrence at `i` as written: from past `=` up to the next `&`,
      which `substr` turns into the empty text when no `&` follows. */
  function IdAtAsWritten(url: string, i: nat): string
  {
    Substr(url, i + 10, IndexOf(url, "&", i) - (i + 10))
  }

  /** The id after the occurrence at `i`: up to the next `&`, or to the end of the
      URL when no `&` follows. */
  function IdAt(url: string, i: nat): (r: string)
    ensures IndexOf(url, "&", i) != -1 ==> r == IdAtAsWritten(url, i)
  {
    var last := IndexOf(url, "&", i);
    if last == -1 then Slice(url, i + 10, |url|) else Substr(url, i + 10, last - (i + 10))
  }

  /** The ids the page cuts after the given occurrences, in order. */
  function IdsOf(url: string, occ: seq<nat>): (r: seq<string>)
    ensures |r| == |occ|
  {
    if occ == [] then [] else IdsOf(url, occ[..|occ| - 1]) + [IdAtAsWritten(url, Last(occ))]
  }

  /** Each id cut is the as-written cut at its occurrence, which is the whole value
      whenever an `&` follows it. */
  lemma {:induction false} IdsOfAt(url: string, occ: seq<nat>, k: nat)
    requires k < |occ|
    ensures IdsOf(url, occ)[k] == IdAtAsWritten(url, occ[k])
    ensures IndexOf(url, "&", occ[k]) != -1 ==> IdsOf(url, occ)[k] == IdAt(url, occ[k])
  {
    var init := occ[..|occ| - 1];
    assert IdsOf(url, occ) == IdsOf(url, init) + [IdAtAsWritten(url, Last(occ))];
    if k < |occ| - 1 {
      IdsOfAt(url, init, k);
      assert init[k] == occ[k];
    }
  }

  /** No `&` from `i` up to `e`. */
  lemma NoAmpersandIn(url: string, i: nat, id: string)
    requires OccursAt(url, IdsKey + "=" + id, i) && '&' !in id
    ensures forall j :: i <= j < i + 10 + |id| ==> url[j] != '&'
  {
    var w := IdsKey + "=" + id;
    assert url[i..i + |w|] == w;
    forall j | i <= j < i + 10 + |id| ensures url[j] != '&' {
      assert url[j] == w[j - i];
      if j - i >= 10 {
        assert w[j - i] == id[j - i - 10];
      }
    }
  }

  /** `indexOf("&", i)` finds nothing when no `&` follows `i`. */
  lemma {:induction false} NoAmpersandFrom(url: string, i: nat)
    requires forall j :: i <= j < |url| ==> url[j] != '&'
    ensures IndexOf(url, "&", i) == -1
    decreases |url| - i
  {
    if i + 1 <= |url| {
      assert url[i..i + 1] != "&" by {
        assert url[i..i + 1][0] == url[i];
      }
      NoAmpersandFrom(url, i + 1);
    }
  }

  /** An id written as `ids%5B%5D=<id>` and followed by `&` or by the end of the URL
      is read back whole. */
  lemma IdAtRoundTrip(url: string, i: nat, id: string)
    requires OccursAt(url, IdsKey + "=" + id, i) && '&' !in id
    requires i + 10 + |id| == |url| || url[i + 10 + |id|] == '&'
    ensures IdAt(url, i) == id
  {
    var e := i + 10 + |id|;
    NoAmpersandIn(url, i, id);
    assert url[i + 10..e] == id by {
      assert url[i..e][10..] == (IdsKey + "=" + id)[10..];
    }
    if e == |url| {
      NoAmpersandFrom(url, i);
    } else {
      assert OccursAt(url, "&", e);
      IndexOfAt(url, "&", i, e);
    }
  }

  /** As written, a non-empty id at the very end of the URL is read as the empty
      text. */
  lemma IdAtAsWrittenLosesLast(url: string, i: nat, id: string)
    requires OccursAt(url, IdsKey + "=" + id, i) && '&' !in id && id != ""
    requires i + 10 + |id| == |url|
    ensures IdAtAsWritten(url, i) == "" && IdAt(url, i) == id
  {
    IdAtRoundTrip(url, i, id);
    NoAmpersandIn(url, i, id);
    NoAmpersandFrom(url, i);
  }

  /** The print calls the page makes on opening: one for the `id` parameter when
      present, then, when the URL names `ids[]`, one for the `id` and every `ids[]`
      value in URL order. */
  function UrlPrints(idParam: Option<string>, url: string): (calls: seq<seq<string>>)
  {
    var first := match idParam case Some(id) => [id] case None => [];
    (if idParam.Some? then [first] else [])
    + (if IndexOf(url, IdsKey, 0) > -1 then [first + IdsOf(url, Occurrences(url, 0))] else [])
  }

  /** The regular-expression loop: for every match, the position past `ids%5B%5D=`
      and the position of the next `&` from the match on. */
  method MatchPositions(url: string) returns (startIndices: seq<int>, lastIndices: seq<int>)
    ensures |startIndices| == |Occurrences(url, 0)| == |lastIndices|
    ensures forall k :: 0 <= k < |startIndices| ==>
              startIndices[k] == Occurrences(url, 0)[k] + 10
              && lastIndices[k] == IndexOf(url, "&", Occurrences(url, 0)[k])
  {
    startIndices, lastIndices := [], [];
    ghost var found: seq<nat> := [];
    var from: nat := 0;
    assert Scanned(url, from, found, startIndices, lastIndices);
    while true
      invariant from <= |url|
      invariant Scanned(url, from, found, startIndices, lastIndices)
      decreases |url| - from
    {
      var at := IndexOf(url, IdsKey, from);
      if at == -1 {
        break;
      }
      var i: nat := at;
      MatchStep(url, from, found, startIndices, lastIndices, i);
      startIndices := startIndices + [i + 10];
      lastIndices := lastIndices + [IndexOf(url, "&", i)];
      found := found + [i];
      from := i + |IdsKey|;
    }
    assert found == Occurrences(url, 0);
    ValueBounds(url, found);
  }

  /** What the regular-expression loop has done when it resumes at `from`: the
      matches `found` so far and those still to find make up all matches, and
      each one found has its start and end recorded. */
  ghost predicate Scanned(url: string, from: nat, found: seq<nat>, starts: seq<int>, ends: seq<int>)
  {
    && found + Occurrences(url, from) == Occurrences(url, 0)
    && starts == ValueStarts(found) && ends == ValueEnds(url, found)
  }

  /** One round of the regular-expression loop keeps `Scanned`. */
  lemma MatchStep(url: string, from: nat, found: seq<nat>, starts: seq<int>, ends: seq<int>, i: nat)
    requires i == IndexOf(url, IdsKey, from)
    requires Scanned(url, from, found, starts, ends)
    ensures from <= i && i + |IdsKey| <= |url|
    ensures Scanned(url, i + |IdsKey|, found + [i], starts + [i + 10], ends + [IndexOf(url, "&", i)])
  {
    FoundNext(url, from, found, i);
    RecordNext(url, found, i);
  }

  /** Recording one more match appends its start and its end. */
  lemma RecordNext(url: string, found: seq<nat>, i: nat)
    ensures ValueStarts(found + [i]) == ValueStarts(found) + [i + 10]
    ensures ValueEnds(url, found + [i]) == ValueEnds(url, found) + [IndexOf(url, "&", i)]
  {
    var f := found + [i];
    assert f[..|f| - 1] == found;
  }

  /** Where the regular-expression loop records each value's start: past `ids[]=`. */
  function ValueStarts(occ: seq<nat>): (r: seq<int>)
    ensures |r| == |occ|
  {
    if occ == [] then [] else ValueStarts(occ[..|occ| - 1]) + [Last(occ) + 10]
  }

  /** Where it records each value's end: the next `&`, or -1. */
  function ValueEnds(url: string, occ: seq<nat>): (r: seq<int>)
    ensures |r| == |occ|
  {
    if occ == [] then [] else ValueEnds(url, occ[..|occ| - 1]) + [IndexOf(url, "&", Last(occ))]
  }

  /** The recorded positions, one match at a time. */
  lemma {:induction false} ValueBounds(url: string, occ: seq<nat>)
    ensures forall k :: 0 <= k < |occ| ==>
              ValueStarts(occ)[k] == occ[k] + 10 && ValueEnds(url, occ)[k] == IndexOf(url, "&", occ[k])
  {
    if occ != [] {
      var init := occ[..|occ| - 1];
      ValueBounds(url, init);
      assert occ == init + [Last(occ)];
      RecordNext(url, init, Last(occ));
      forall k | 0 <= k < |occ|
        ensures ValueStarts(occ)[k] == occ[k] + 10 && ValueEnds(url, occ)[k] == IndexOf(url, "&", occ[k])
      {
        if k < |init| {
          assert occ[k] == init[k];
        }
      }
    }
  }

  /** The positions from `from` on: the first match, then those after it. */
  lemma OccurrencesNext(url: string, from: nat, i: nat)
    requires i == IndexOf(url, IdsKey, from)
    ensures Occurrences(url, from) == [i] + Occurrences(url, i + |IdsKey|)
  {
  }

  /** Recording the next match keeps "found, then still to find" equal to all
      matches. */
  lemma FoundNext(url: string, from: nat, found: seq<nat>, i: nat)
    requires i == IndexOf(url, IdsKey, from)
    requires found + Occurrences(url, from) == Occurrences(url, 0)
    ensures (found + [i]) + Occurrences(url, i + |IdsKey|) == Occurrences(url, 0)
  {
    OccurrencesNext(url, from, i);
    Regroup(found, [i], Occurrences(url, i + |IdsKey|));
  }


  /** The loop cutting out the ids: `substr` from past `=` up to the `&` found, with
      no test for a missing `&`. */
  method CutIds(url: string, startIndices: seq<int>, lastIndices: seq<int>, ghost occ: seq<nat>)
    returns (ids: seq<string>)
    requires |startIndices| == |occ| == |lastIndices|
    requires forall k :: 0 <= k < |occ| ==>
               startIndices[k] == occ[k] + 10 && lastIndices[k] == IndexOf(url, "&", occ[k])
    ensures ids == IdsOf(url, occ)
  {
    ids := [];
    var k := 0;
    while k < |startIndices|
      invariant 0 <= k <= |startIndices|
      invariant ids == IdsOf(url, occ[..k])
    {
      var id := Substr(url, startIndices[k], lastIndices[k] - startIndices[k]);
      IdsOfStep(url, occ, k);
      ids := ids + [id];
      k := k + 1;
    }
    assert occ[..k] == occ;
  }

  /** Cutting one more occurrence appends its id. */
  lemma IdsOfStep(url: string, occ: seq<nat>, k: nat)
    requires k < |occ|
    ensures IdsOf(url, occ[..k + 1]) == IdsOf(url, occ[..k]) + [IdAtAsWritten(url, occ[k])]
  {
    assert occ[..k + 1][..k] == occ[..k];
  }

  /** The effect on opening: print the `id` parameter, then the `id` and the `ids[]`
      values. */
  method PrintFromUrl(idParam: Option<string>, url: string) returns (calls: seq<seq<string>>)
    ensures calls == UrlPrints(idParam, url)
  {
    var ids: seq<string> := [];
    calls := [];
    if idParam.Some? {
      ids := ids + [idParam.value];
      calls := calls + [ids];
    }
    ghost var first := ids;
    assert first == match idParam case Some(id) => [id] case None => [];
    assert calls == if idParam.Some? then [first] else [];
    if IndexOf(url, IdsKey, 0) > -1 {
      var startIndices, lastIndices := MatchPositions(url);
      var more := CutIds(url, startIndices, lastIndices, Occurrences(url, 0));
      ids := ids + more;
      calls := calls + [ids];
    }
  }

  // ---------------------------------------------------------------------------
  // The page count shown by the pager

  /** `Math.ceil(count / 50)` for the count of the selected tab. */
  function PageCount(tab: int, allCnt: nat, proCnt: nat, comCnt: nat): nat
  {
    var cnt := if tab == 1 then proCnt else if tab == 2 then comCnt else allCnt;
    (cnt + 49) / 50
  }

  /** Pages of 50 hold the tab's orders, with no page to spare. */
  lemma PageCountFits(tab: int, allCnt: nat, proCnt: nat, comCnt: nat)
    ensures var cnt := if tab == 1 then proCnt else if tab == 2 then comCnt else allCnt;
            var pages := PageCount(tab, allCnt, proCnt, comCnt);
            cnt <= pages * 50 && (pages == 0 || (pages - 1) * 50 < cnt)
  {
  }
}
