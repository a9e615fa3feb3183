/**
  The order table (OrderIndex.jsx): the cells of each row, the same on the wide table
  and on the small-screen cards, the link to an order in the Shopify admin, and the
  list of selected row ids the table hands to the orders page on every selection
  change.
*/
module OrderTable {
  import opened Js
  import opened Tags
  import opened IndexPage

  // ---------------------------------------------------------------------------
  // Cells

  /** `truncate(str, n)`: texts longer than `n` keep their first `n - 1` characters
      followed by an ellipsis; without `n` the comparison with `undefined` fails and
      the text is kept. */
  function Truncate(str: string, n: Option<nat>): (r: string)
    ensures n.None? || |str| <= n.value ==> r == str
    ensures n.Some? && |str| > n.value ==>
              r == str[..if n.value >= 1 then n.value - 1 else 0] + "…"
  {
    if n.Some? && |str| > n.value then
      var keep := Substr(str, 0, n.value - 1);
      assert keep == str[..if n.value >= 1 then n.value - 1 else 0];
      keep + "…"
    else str
  }

  /** A truncated text fits its bound when the bound is positive, so truncating again
      changes nothing. */
  lemma TruncateFits(str: string, n: nat)
    requires n >= 1
    ensures |Truncate(str, Some(n))| <= n
    ensures |str| > n ==> |Truncate(str, Some(n))| == n
    ensures Truncate(Truncate(str, Some(n)), Some(n)) == Truncate(str, Some(n))
  {
    if |str| > n {
      assert |Substr(str, 0, n - 1)| == n - 1;
    }
  }

  /** The status badge. */
  datatype Badge = Processing | Fulfillment

  /** Paid orders still unfulfilled are shown as processing, all others as in
      fulfillment. */
  function BadgeOf(status: string, financialStatus: string): (b: Badge)
    ensures b == Processing <==> status == "UNFULFILLED" && financialStatus == "PAID"
  {
    if status == "UNFULFILLED" && financialStatus == "PAID" then Processing else Fulfillment
  }

  /** The shipment cell: a notice that there is no shipment, or the shipment number
      (which renders as nothing when the Cargo tag has no `:`). */
  datatype ShipmentCell = NoShipments | ShipmentNumber(number: Option<string>)

  /** The cells of a row: the order name cut to `nameLimit` (35 on the cards, 25 in
      the table), the customer, the badge, the total, the shipment and the flag for
      more than one unit. */
  datatype Cells = Cells(
    name: string,
    customerName: string,
    badge: Badge,
    total: string,
    shipment: ShipmentCell,
    moreQuantity: bool)

  /** The cells a row shows. */
  function CellsOf(row: OrderRow, nameLimit: nat): Cells
  {
    var n := row.node;
    Cells(Truncate(n.name, Some(nameLimit)), Truncate(n.customerName, None),
          BadgeOf(n.status, n.financialStatus), n.total,
          if exists k :: 0 <= k < |n.tags| && Contains(n.tags[k], CargoMark)
          then ShipmentNumber(CargoNumber(n.tags)) else NoShipments,
          n.moreQuantity)
  }

  /** The row markup: scan the tags, then fill the cells. */
  method RowCells(row: OrderRow, nameLimit: nat) returns (cells: Cells)
    ensures cells == CellsOf(row, nameLimit)
  {
    var n := row.node;
    var isInvolveCargo, cargoN := ScanCargo(n.tags);
    var cargo := if !isInvolveCargo then NoShipments else ShipmentNumber(cargoN);
    cells := Cells(Truncate(n.name, Some(nameLimit)), Truncate(n.customerName, None),
                   BadgeOf(n.status, n.financialStatus), n.total, cargo, n.moreQuantity);
  }

  /** The shipment cell shows a number exactly when a tag mentions Cargo, and that
      number is the one every screen reads from the last such tag. */
  lemma ShipmentCellOfTags(row: OrderRow, nameLimit: nat)
    ensures var c := CellsOf(row, nameLimit).shipment;
            (c == NoShipments <==> LastCargoTag(row.node.tags).None?)
            && (c.ShipmentNumber? ==> c.number == CargoNumber(row.node.tags))
  {
  }

  // ---------------------------------------------------------------------------
  // The admin link

  /** The admin page of the row's order: the row id from its 21st character on. */
  function AdminUrl(shopName: string, rowId: string): string
  {
    "https://" + shopName + "/admin/orders/" + Slice(rowId, 20, |rowId|)
  }

  /** For an order id `gid://shopify/Order/<n>` the link's path ends in `<n>`, with
      the fulfillment order after `#`, where the browser takes it as a fragment. */
  lemma AdminUrlNamesOrder(shopName: string, num: string, fulfillmentId: string)
    ensures AdminUrl(shopName, "gid://shopify/Order/" + num + "#" + fulfillmentId)
            == "https://" + shopName + "/admin/orders/" + num + "#" + fulfillmentId
  {
    var head := "gid://shopify/Order/";
    var id := head + num + "#" + fulfillmentId;
    assert |head| == 20;
    assert id[20..] == num + "#" + fulfillmentId;
  }

  // ---------------------------------------------------------------------------
  // Selection

  /** The selection kinds the table reports. */
  datatype SelectionKind = Single | Page | Multi | Range | All

  /** `arr.indexOf(x)` */
  function IndexOfItem(arr: seq<string>, x: string): (i: int)
    ensures i == -1 <==> x !in arr
    ensures i != -1 ==> 0 <= i < |arr| && arr[i] == x && x !in arr[..i]
  {
    if arr == [] then -1
    else if arr[0] == x then 0
    else
      var j := IndexOfItem(arr[1..], x);
      if j == -1 then -1 else (assert arr[..j + 1] == [arr[0]] + arr[1..][..j]; j + 1)
  }

  /** `arr.splice(indexOf(x), 1)` when `x` is present. */
  function RemoveFirst(arr: seq<string>, x: string): (r: seq<string>)
  {
    var i := IndexOfItem(arr, x);
    if i > -1 then arr[..i] + arr[i + 1..] else arr
  }

  /** The list handed to the orders page when the selection changes: `prev` is the
      selection before the change. Selecting one row adds its id, selecting the page
      takes every row's id, deselecting one row drops its first occurrence and
      deselecting the page clears the list; other kinds hand nothing over. */
  function SelectionChange(kind: SelectionKind, selecting: bool, id: string,
                           prev: seq<string>, orders: seq<OrderRow>): Option<seq<string>>
  {
    if selecting then
      if kind == Single then Some(prev + [id])
      else if kind == Page then Some(seq(|orders|, k requires 0 <= k < |orders| => orders[k].id))
      else None
    else
      if kind == Single then Some(RemoveFirst(prev, id))
      else if kind == Page then Some([])
      else None
  }

  /** Deselecting one row removes one occurrence of its id and keeps the order of the
      others; an id not selected leaves the list as it was. */
  lemma DeselectOne(prev: seq<string>, id: string, orders: seq<OrderRow>)
    ensures var r := SelectionChange(Single, false, id, prev, orders).value;
            (id in prev ==> multiset(r) == multiset(prev) - multiset{id} && |r| == |prev| - 1)
            && (id !in prev ==> r == prev)
  {
    var i := IndexOfItem(prev, id);
    if i != -1 {
      assert prev == prev[..i] + [id] + prev[i + 1..];
    }
  }

  /** Selecting a row that was not selected and deselecting it again gives back the
      earlier selection. */
  lemma SelectThenDeselect(prev: seq<string>, id: string, orders: seq<OrderRow>)
    requires id !in prev
    ensures var after := SelectionChange(Single, true, id, prev, orders).value;
            SelectionChange(Single, false, id, after, orders) == Some(prev)
  {
    var after := prev + [id];
    var i := IndexOfItem(after, id);
    assert after[|prev|] == id;
    assert forall j :: 0 <= j < |prev| ==> after[j] == prev[j] != id;
    assert after[..i] == prev && after[i + 1..] == [];
    assert prev + [] == prev;
  }

  /** Selecting the page selects exactly the rows shown, in their order. */
  lemma SelectPage(prev: seq<string>, id: string, orders: seq<OrderRow>)
    ensures var r := SelectionChange(Page, true, id, prev, orders).value;
            |r| == |orders| && forall k :: 0 <= k < |orders| ==> r[k] == orders[k].id
  {
  }

  /** The selection handler: copy the previous list, then add, take or remove. */
  method OnSelectionChange(kind: SelectionKind, selecting: bool, id: string,
                           prev: seq<string>, orders: seq<OrderRow>) returns (handed: Option<seq<string>>)
    ensures handed == SelectionChange(kind, selecting, id, prev, orders)
  {
    handed := None;
    if selecting {
      if kind == Single {
        var arr := prev;
        arr := arr + [id];
        handed := Some(arr);
      } else if kind == Page {
        var arr: seq<string> := [];
        var k := 0;
        while k < |orders|
          invariant 0 <= k <= |orders| && |arr| == k
          invariant forall j :: 0 <= j < k ==> arr[j] == orders[j].id
        {
          arr := arr + [orders[k].id];
          k := k + 1;
        }
        assert arr == seq(|orders|, k requires 0 <= k < |orders| => orders[k].id);
        handed := Some(arr);
      }
    } else {
      if kind == Single {
        var arr := prev;
        var index := IndexOfItem(arr, id);
        if index > -1 {
          arr := arr[..index] + arr[index + 1..];
        }
        handed := Some(arr);
      } else if kind == Page {
        handed := Some([]);
      }
    }
  }
}
