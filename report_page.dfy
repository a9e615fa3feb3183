/**
  The pick report page (report.jsx): every line item of the fetched orders becomes a
  report row; the rows are sorted by title and each run of equal titles is folded
  into one row carrying the run's total; a range filter on the order number may be
  put in front of the fold.
*/
module ReportPage {
  import opened Js
  import opened Shop
  import opened Grouping
  import opened Tags
  import opened OrderNumbers

  /** The columns of a report row besides its title and quantity. */
  datatype ReportInfo = ReportInfo(
    id: string,                 // the order's id, "_", the line item's index
    variant: Option<string>,
    orderNumber: string,        // the order's display name
    pricePerUnit: string,
    shippingNumber: Option<string>)

  type ReportRow = Line<ReportInfo>

  /** The row of line item `k` of an order whose Cargo shipment number is `cargoN`. */
  function ItemRow(n: OrderNode, k: nat, cargoN: Option<string>): ReportRow
    requires k < |n.lineItems|
  {
    var item := n.lineItems[k];
    Line(item.name, item.quantity,
         ReportInfo(n.id + "_" + NatText(k), item.variantTitle, n.name,
                    match item.variantPrice case Some(p) => p case None => "", cargoN))
  }

  /** The rows of one order: one per line item, in order. */
  function OrderRows(e: Edge): (rows: seq<ReportRow>)
    ensures |rows| == |e.node.lineItems|
    ensures forall k :: 0 <= k < |rows| ==> rows[k] == ItemRow(e.node, k, CargoNumber(e.node.tags))
  {
    seq(|e.node.lineItems|, k requires 0 <= k < |e.node.lineItems| =>
      ItemRow(e.node, k, CargoNumber(e.node.tags)))
  }

  /** The rows of all fetched responses, in fetch order. */
  function ReportRows(res: seq<Page>): seq<ReportRow>
  {
    FlatMap(Edges(res), OrderRows)
  }

  /** Every report row is line item `k` of some fetched order `j`, with that order's
      shipment number... */
  lemma ReportRowSource(res: seq<Page>, r: ReportRow) returns (j: nat, k: nat)
    requires r in ReportRows(res)
    ensures j < |Edges(res)| && k < |Edges(res)[j].node.lineItems|
    ensures r == ItemRow(Edges(res)[j].node, k, CargoNumber(Edges(res)[j].node.tags))
  {
    j := FlatMapSource(Edges(res), OrderRows, r);
    var rows := OrderRows(Edges(res)[j]);
    k :| 0 <= k < |rows| && rows[k] == r;
  }

  /** ...and every line item of every fetched order has its row. */
  lemma ReportRowHas(res: seq<Page>, j: nat, k: nat)
    requires j < |Edges(res)| && k < |Edges(res)[j].node.lineItems|
    ensures ItemRow(Edges(res)[j].node, k, CargoNumber(Edges(res)[j].node.tags)) in ReportRows(res)
  {
    var rows := OrderRows(Edges(res)[j]);
    assert rows[k] in rows;
    FlatMapHas(Edges(res), OrderRows, j, rows[k]);
  }

  /** Rows of one order are told apart by their ids. */
  lemma OrderRowIds(e: Edge, a: nat, b: nat)
    requires a < b < |e.node.lineItems|
    ensures OrderRows(e)[a].info.id != OrderRows(e)[b].info.id
  {
    var p := e.node.id + "_";
    var ta := NatText(a);
    var tb := NatText(b);
    if p + ta == p + tb {
      assert ta == (p + ta)[|p|..];
      assert tb == (p + tb)[|p|..];
      DecimalValueNatText(a);
      DecimalValueNatText(b);
    }
  }

  /** The rows of one order as `func` builds them: the tag scan, then one row per
      line item. */
  method CollectOrder(e: Edge) returns (rows: seq<ReportRow>)
    ensures rows == OrderRows(e)
  {
    var involved, cargoN := ScanCargo(e.node.tags);
    rows := [];
    var index := 0;
    while index < |e.node.lineItems|
      invariant 0 <= index <= |e.node.lineItems|
      invariant rows == OrderRows(e)[..index]
    {
      rows := rows + [ItemRow(e.node, index, cargoN)];
      index := index + 1;
    }
  }

  /** The rows of one response's edges, in order. */
  method CollectPage(es: seq<Edge>) returns (rows: seq<ReportRow>)
    ensures rows == FlatMap(es, OrderRows)
  {
    rows := [];
    var j := 0;
    while j < |es|
      invariant 0 <= j <= |es|
      invariant rows == FlatMap(es[..j], OrderRows)
    {
      var more := CollectOrder(es[j]);
      assert es[..j + 1][..j] == es[..j];
      rows := rows + more;
      j := j + 1;
    }
    assert es[..j] == es;
  }

  /** `func`'s nested `map`s over the responses and their edges, pushing into
      `data`. */
  method Flatten(res: seq<Page>) returns (data: seq<ReportRow>)
    ensures data == ReportRows(res)
  {
    data := [];
    var p := 0;
    while p < |res|
      invariant 0 <= p <= |res|
      invariant data == ReportRows(res[..p])
    {
      var rows := CollectPage(res[p].edges);
      assert res[..p + 1] == res[..p] + [res[p]];
      EdgesAppend(res[..p], res[p]);
      FlatMapAppend(Edges(res[..p]), res[p].edges, OrderRows);
      data := data + rows;
      p := p + 1;
    }
    assert res[..p] == res;
  }

  /** `integrateReport`: sort by title with the built-in sort, then fold with a
      running `quantity`; a row of a run is replaced by the next one, with the sum so
      far, and only a run's last row is pushed, with the run's total. The sorted
      list is returned too, as the sort reorders the caller's list. */
  method IntegrateReport(data: seq<ReportRow>) returns (sorted: seq<ReportRow>, data1: seq<ReportRow>)
    ensures sorted == SortByName(data)
    ensures data1 == Grouped(SortByName(data))
    ensures data == [] ==> data1 == []
  {
    sorted := SortByName(data);
    var s := sorted;
    data1 := [];
    if |s| > 0 {
      var report := s[0];
      var quantity := s[0].qty;
      var i := 1;
      while i < |s|
        invariant 1 <= i <= |s|
        invariant quantity == RunTotal(s, i - 1)
        invariant report == s[i - 1].(qty := quantity)
        invariant data1 == GroupedUpTo(s, i - 1)
      {
        if report.name == s[i].name {
          quantity := quantity + s[i].qty;
          report := report.(qty := 0);
        } else {
          report := report.(qty := quantity);
          quantity := s[i].qty;
          data1 := data1 + [report];
        }
        report := s[i].(qty := quantity);
        i := i + 1;
      }
      data1 := data1 + [report];
    }
  }

  /** What the report shows: one row per title among the input rows, in ascending
      title order, each with that title's total quantity and with the other columns
      of the last row of its run after the sort; the grand total is kept. */
  lemma IntegratedRows(data: seq<ReportRow>)
    ensures var rows := Grouped(SortByName(data));
            && StrictlyAscending(rows)
            && (forall l :: l in data ==> exists r :: r in rows && r.name == l.name)
            && (forall r :: r in rows ==> r.qty == SumFor(data, r.name))
            && Total(rows) == Total(data)
    ensures forall r :: r in Grouped(SortByName(data)) ==>
              exists i :: 0 <= i < |SortByName(data)| && RunEnd(SortByName(data), i)
                          && r.info == SortByName(data)[i].info && r.name == SortByName(data)[i].name
  {
    var rows := Grouped(SortByName(data));
    PickReportAscending(data);
    PickReportTotal(data);
    forall l | l in data ensures exists r :: r in rows && r.name == l.name {
      PickReportCovers(data, l);
    }
    forall r | r in rows ensures r.qty == SumFor(data, r.name) {
      var l := PickReportRow(data, r);
    }
    SortByNameSorted(data);
    forall r | r in rows
      ensures exists i :: 0 <= i < |SortByName(data)| && RunEnd(SortByName(data), i)
                          && r.info == SortByName(data)[i].info && r.name == SortByName(data)[i].name
    {
      var i := GroupedRow(SortByName(data), r);
    }
  }

  /** The range filter of the report page: the digits of the row's order name
      against the start and end texts. */
  function KeepRow(startText: string, endText: string, r: ReportRow): bool
  {
    KeepOrder(startText, endText, OrderNumber(r.info.orderNumber))
  }

  /** The rows the filter keeps, in their input order. */
  function KeptRows(reports: seq<ReportRow>, startText: string, endText: string): (kept: seq<ReportRow>)
    ensures |kept| <= |reports|
  {
    if reports == [] then []
    else KeptRows(reports[..|reports| - 1], startText, endText)
         + (if KeepRow(startText, endText, Last(reports)) then [Last(reports)] else [])
  }

  /** A row is kept exactly when it is an input row that passes the filter. */
  lemma {:induction false} KeptRowsMembers(reports: seq<ReportRow>, startText: string, endText: string, r: ReportRow)
    ensures r in KeptRows(reports, startText, endText) <==> r in reports && KeepRow(startText, endText, r)
  {
    if reports != [] {
      var init := reports[..|reports| - 1];
      KeptRowsMembers(init, startText, endText, r);
      assert reports == init + [Last(reports)];
    }
  }

  /** Filtering all rows at once is filtering the leading rows and then the rest. */
  lemma {:induction false} KeptRowsAppend(a: seq<ReportRow>, b: seq<ReportRow>, startText: string, endText: string)
    ensures KeptRows(a + b, startText, endText) == KeptRows(a, startText, endText) + KeptRows(b, startText, endText)
    decreases |b|
  {
    if b == [] {
      assert a + b == a;
    } else {
      var init, l := b[..|b| - 1], Last(b);
      var kl := if KeepRow(startText, endText, l) then [l] else [];
      assert (a + b)[..|a + b| - 1] == a + init;
      assert KeptRows(a + b, startText, endText) == KeptRows(a + init, startText, endText) + kl;
      assert KeptRows(b, startText, endText) == KeptRows(init, startText, endText) + kl;
      KeptRowsAppend(a, init, startText, endText);
      Regroup(KeptRows(a, startText, endText), KeptRows(init, startText, endText), kl);
    }
  }

  /** `filterReport`: push every row that passes the range filter, then fold them. */
  method FilterReport(reports: seq<ReportRow>, startText: string, endText: string)
    returns (data: seq<ReportRow>, data1: seq<ReportRow>)
    ensures data == KeptRows(reports, startText, endText)
    ensures data1 == Grouped(SortByName(KeptRows(reports, startText, endText)))
  {
    data := [];
    var i := 0;
    while i < |reports|
      invariant 0 <= i <= |reports|
      invariant data == KeptRows(reports[..i], startText, endText)
    {
      var report := reports[i];
      assert reports[..i + 1][..i] == reports[..i];
      if KeepRow(startText, endText, report) {
        data := data + [report];
      }
      i := i + 1;
    }
    assert reports[..i] == reports;
    var sorted;
    sorted, data1 := IntegrateReport(data);
  }

  /** Every row of the filtered report comes from a row that passed the filter, and
      filtering with both bounds empty gives the unfiltered report. */
  lemma FilteredRows(reports: seq<ReportRow>, startText: string, endText: string)
    ensures forall r :: r in Grouped(SortByName(KeptRows(reports, startText, endText))) ==>
              KeepOrder(startText, endText, OrderNumber(r.info.orderNumber))
    ensures KeptRows(reports, "", "") == reports
  {
    var kept := KeptRows(reports, startText, endText);
    forall r | r in Grouped(SortByName(kept))
      ensures KeepOrder(startText, endText, OrderNumber(r.info.orderNumber))
    {
      var l := PickReportRow(kept, r);
      KeptRowsMembers(reports, startText, endText, l);
    }
    KeptAll(reports);
  }

  lemma {:induction false} KeptAll(reports: seq<ReportRow>)
    ensures KeptRows(reports, "", "") == reports
  {
    if reports != [] {
      KeptAll(reports[..|reports| - 1]);
      assert KeepOrder("", "", OrderNumber(Last(reports).info.orderNumber));
    }
  }
}
