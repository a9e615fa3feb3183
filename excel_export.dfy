/**
  The pick-list export of print-order-api.js (`/api/downloadExcel`): walk every
  page of the unshipped Cargo orders, turn each line item of each order in the
  order-number range into a sheet line, sort the lines by item name, and fold each
  run of equal names in place into one worksheet row carrying the run's total.
*/
module ExcelExport {
  import opened Js
  import opened Shop
  import opened Grouping
  import opened Tags
  import opened OrderNumbers
  import OrderPaging

  /** The columns of a sheet line besides the item name and quantity. */
  datatype ExcelInfo = ExcelInfo(price: string, orderNum: nat, shippingNum: Option<string>)

  type SheetLine = Line<ExcelInfo>

  /** The variables of every request after the first. */
  const ExportRequest := Variables(Some(10), None, None, None, Some(Id), Some(false),
                                   Some("Cargo Tracking: fulfillment_status:\"unshipped\""))

  /** The sheet line of one line item: the price is `''` when the variant is gone. */
  function ItemLine(item: LineItem, num: nat, cargo: Option<string>): SheetLine
  {
    Line(item.name, item.quantity,
         ExcelInfo(match item.variantPrice case Some(p) => p case None => "", num, cargo))
  }

  /** The lines one order contributes: one per line item, in order, when the order
      number passes the range filter, else none. */
  function OrderLines(n: OrderNode, startText: string, endText: string): (ls: seq<SheetLine>)
    ensures KeepOrder(startText, endText, OrderNumber(n.name)) ==> |ls| == |n.lineItems|
    ensures !KeepOrder(startText, endText, OrderNumber(n.name)) ==> ls == []
    ensures forall k :: 0 <= k < |ls| ==>
              ls[k] == ItemLine(n.lineItems[k], OrderNumber(n.name), CargoNumber(n.tags))
  {
    if KeepOrder(startText, endText, OrderNumber(n.name)) then
      seq(|n.lineItems|, k requires 0 <= k < |n.lineItems| =>
        ItemLine(n.lineItems[k], OrderNumber(n.name), CargoNumber(n.tags)))
    else []
  }

  /** The lines of one order, as a function of its edge. */
  function LinesOf(startText: string, endText: string): Edge -> seq<SheetLine>
  {
    (e: Edge) => OrderLines(e.node, startText, endText)
  }

  /** The lines of a run of orders, in order. */
  function ExportLines(es: seq<Edge>, startText: string, endText: string): seq<SheetLine>
  {
    FlatMap(es, LinesOf(startText, endText))
  }

  /** Every exported line comes from a line item of an order that passes the range
      filter... */
  lemma ExportLineSource(es: seq<Edge>, startText: string, endText: string, l: SheetLine) returns (j: nat, k: nat)
    requires l in ExportLines(es, startText, endText)
    ensures j < |es| && k < |es[j].node.lineItems|
    ensures KeepOrder(startText, endText, OrderNumber(es[j].node.name))
    ensures l == ItemLine(es[j].node.lineItems[k], OrderNumber(es[j].node.name), CargoNumber(es[j].node.tags))
  {
    j := FlatMapSource(es, LinesOf(startText, endText), l);
    var ls := OrderLines(es[j].node, startText, endText);
    k :| 0 <= k < |ls| && ls[k] == l;
  }

  /** ...and every line item of such an order is exported. */
  lemma ExportLineHas(es: seq<Edge>, startText: string, endText: string, j: nat, k: nat)
    requires j < |es| && k < |es[j].node.lineItems|
    requires KeepOrder(startText, endText, OrderNumber(es[j].node.name))
    ensures ItemLine(es[j].node.lineItems[k], OrderNumber(es[j].node.name), CargoNumber(es[j].node.tags))
              in ExportLines(es, startText, endText)
  {
    var ls := OrderLines(es[j].node, startText, endText);
    assert ls[k] in ls;
    FlatMapHas(es, LinesOf(startText, endText), j, ls[k]);
  }

  /** The `lineItems.nodes.map` of one order. */
  method CollectOrder(n: OrderNode, startText: string, endText: string) returns (rows: seq<SheetLine>)
    ensures rows == OrderLines(n, startText, endText)
  {
    var involved, cargoN := ScanCargo(n.tags);
    var num := OrderNumber(n.name);
    ghost var keep := KeepOrder(startText, endText, num);
    ghost var all := OrderLines(n, startText, endText);
    rows := [];
    var k := 0;
    while k < |n.lineItems|
      invariant 0 <= k <= |n.lineItems|
      invariant keep ==> rows == all[..k]
      invariant !keep ==> rows == []
    {
      var report := ItemLine(n.lineItems[k], num, cargoN);
      if KeepOrder(startText, endText, report.info.orderNum) {
        assert all[..k + 1] == all[..k] + [report];
        rows := rows + [report];
      }
      k := k + 1;
    }
  }

  /** The `edges.forEach` of one page. */
  method CollectPage(es: seq<Edge>, startText: string, endText: string) returns (rows: seq<SheetLine>)
    ensures rows == ExportLines(es, startText, endText)
  {
    rows := [];
    var j := 0;
    while j < |es|
      invariant 0 <= j <= |es|
      invariant rows == ExportLines(es[..j], startText, endText)
    {
      var more := CollectOrder(es[j].node, startText, endText);
      assert es[..j + 1][..j] == es[..j];
      rows := rows + more;
      j := j + 1;
    }
    assert es[..j] == es;
  }

  /** The pages the export reads: the caller's request first, then the fixed
      unshipped-Cargo request after each page's end cursor. */
  function ExportWalk(store: Store, req: Variables, fuel: nat): Option<seq<Page>>
  {
    OrderPaging.Walk(store, req, ExportRequest, fuel)
  }

  /** The `while (next)` loop: read every page and collect the lines that pass the
      range filter. */
  method CollectLines(store: Store, req: Variables, startText: string, endText: string, ghost fuel: nat)
    returns (reportList: seq<SheetLine>)
    requires ExportWalk(store, req, fuel).Some?
    ensures reportList == ExportLines(Edges(ExportWalk(store, req, fuel).value), startText, endText)
  {
    ghost var all := ExportWalk(store, req, fuel).value;
    OrderPaging.WalkChain(store, req, ExportRequest, fuel);
    ghost var k := 0;
    var variables := req;
    reportList := [];
    var next := true;
    while next
      invariant 0 <= k <= |all|
      invariant next <==> k < |all|
      invariant next ==> store(variables) == all[k]
      invariant reportList == ExportLines(Edges(all[..k]), startText, endText)
      decreases |all| - k
    {
      var retGql := store(variables);
      var rows := CollectPage(retGql.edges, startText, endText);
      assert all[..k + 1] == all[..k] + [retGql];
      EdgesAppend(all[..k], retGql);
      FlatMapAppend(Edges(all[..k]), retGql.edges, LinesOf(startText, endText));
      reportList := reportList + rows;
      next := retGql.pageInfo.hasNextPage;
      variables := ExportRequest.(after := retGql.pageInfo.endCursor);
      k := k + 1;
    }
    assert all[..k] == all;
  }

  /** The in-place fold over the sorted lines: within a run, each line's quantity is
      moved on to the next line of the run, so the run's last line ends up with the
      run's total and the others with 0; each finished run's last line is written
      to the worksheet, and the very last line after the loop. */
  method FoldInPlace<T>(a: array<Line<T>>) returns (sheet: seq<Line<T>>)
    modifies a
    ensures a[..] == ZeroFold(old(a[..]))
    ensures sheet == Grouped(old(a[..]))
  {
    ghost var s := a[..];
    sheet := [];
    if a.Length > 0 {
      var there := a[0].name;
      var qty := a[0].qty;
      var i := 1;
      while i < a.Length
        invariant 1 <= i <= a.Length
        invariant there == s[i - 1].name && qty == RunTotal(s, i - 1)
        invariant forall k :: 0 <= k < i - 1 ==> a[k] == ZeroLine(s, k)
        invariant a[i - 1] == s[i - 1].(qty := RunTotal(s, i - 1))
        invariant forall k :: i <= k < a.Length ==> a[k] == s[k]
        invariant sheet == GroupedUpTo(s, i - 1)
      {
        if there == a[i].name {
          RunGoesOn(s, i);
          qty := qty + a[i].qty;
          a[i - 1] := a[i - 1].(qty := 0);
          a[i] := a[i].(qty := qty);
        } else {
          RunBreaks(s, i);
          a[i - 1] := a[i - 1].(qty := qty);
          qty := a[i].qty;
          there := a[i].name;
          sheet := sheet + [a[i - 1]];
        }
        i := i + 1;
      }
      LastRun(s);
      sheet := sheet + [a[a.Length - 1]];
      assert forall k :: 0 <= k < a.Length ==> a[k] == ZeroLine(s, k);
    }
    assert a[..] == ZeroFold(s);
  }

  /** `/api/downloadExcel`: collect the lines, sort them by item name with the
      built-in sort, then fold them in place; the answer is the worksheet's rows. */
  method DownloadExcel(store: Store, req: Variables, startText: string, endText: string, ghost fuel: nat)
    returns (sheet: seq<SheetLine>)
    requires ExportWalk(store, req, fuel).Some?
    ensures sheet == Grouped(SortByName(ExportLines(Edges(ExportWalk(store, req, fuel).value), startText, endText)))
  {
    var reportList := CollectLines(store, req, startText, endText, fuel);
    var sorted := SortByName(reportList);
    var a := new SheetLine[|sorted|](i requires 0 <= i < |sorted| => sorted[i]);
    assert a[..] == sorted;
    sheet := FoldInPlace(a);
  }

  /** What the worksheet holds: one row per item name among the exported lines, in
      ascending name order, each with that name's total quantity and with the
      columns of one of its lines; every row's order number passed the range
      filter; and the grand total is kept. */
  lemma WorksheetRows(es: seq<Edge>, startText: string, endText: string)
    ensures var lines := ExportLines(es, startText, endText);
            var sheet := Grouped(SortByName(lines));
            && StrictlyAscending(sheet)
            && (forall l :: l in lines ==> exists r :: r in sheet && r.name == l.name)
            && (forall r :: r in sheet ==> r.qty == SumFor(lines, r.name) && KeepOrder(startText, endText, r.info.orderNum))
            && Total(sheet) == Total(lines)
  {
    var lines := ExportLines(es, startText, endText);
    var sheet := Grouped(SortByName(lines));
    PickReportAscending(lines);
    PickReportTotal(lines);
    forall l | l in lines ensures exists r :: r in sheet && r.name == l.name {
      PickReportCovers(lines, l);
    }
    forall r | r in sheet ensures r.qty == SumFor(lines, r.name) && KeepOrder(startText, endText, r.info.orderNum) {
      var l := PickReportRow(lines, r);
      var j, k := ExportLineSource(es, startText, endText, l);
    }
  }
}
