/**
  The label printer of print-order-api.js (`/api/printLabel`): the comma-separated id
  list sent to the order store, the page numbering of a label with its return slips,
  the RR code derived from an order's name, and the Cargo tag written on an order the
  first time its label is printed and read back on every later print.
*/
module LabelIssuer {
  import opened Js
  import opened Tags

  // ---------------------------------------------------------------------------
  // The ids parameter

  /** `Join` gains one part at the end. */
  lemma {:induction false} JoinSnoc(parts: seq<string>, x: string, sep: char)
    requires parts != []
    ensures Join(parts + [x], sep) == Join(parts, sep) + [sep] + x
    decreases |parts|
  {
    if |parts| == 1 {
      assert parts + [x] == [parts[0], x];
      assert (parts + [x])[1..] == [x];
    } else {
      assert (parts + [x])[1..] == parts[1..] + [x];
      JoinSnoc(parts[1..], x, sep);
    }
  }

  /** The `for` loop that builds `ids`: each selected id, with a ',' after every id
      but the last. The order store splits the list back into exactly those ids. */
  method JoinIds(selIds: seq<string>) returns (ids: string)
    ensures ids == Join(selIds, ',')
    ensures selIds != [] && (forall k :: 0 <= k < |selIds| ==> ',' !in selIds[k]) ==>
              Split(ids, ',') == selIds
  {
    ids := "";
    var len := |selIds|;
    var i := 0;
    while i < len
      invariant 0 <= i <= len
      invariant i == 0 ==> ids == ""
      invariant 0 < i < len ==> ids == Join(selIds[..i], ',') + ","
      invariant i == len && len > 0 ==> ids == Join(selIds, ',')
    {
      if i > 0 {
        JoinSnoc(selIds[..i], selIds[i], ',');
        assert selIds[..i] + [selIds[i]] == selIds[..i + 1];
      } else {
        assert selIds[..1] == [selIds[0]];
      }
      ids := ids + selIds[i];
      if i < len - 1 {
        ids := ids + ",";
      }
      i := i + 1;
      if i == len {
        assert selIds[..i] == selIds;
      }
    }
    if selIds != [] && (forall k :: 0 <= k < |selIds| ==> ',' !in selIds[k]) {
      SplitJoin(selIds, ',');
    }
  }

  // ---------------------------------------------------------------------------
  // Page numbering

  const SlipSize := 6

  /** `Math.ceil(n / d)` */
  function CeilDiv(n: nat, d: nat): nat
    requires d > 0
  {
    (n + d - 1) / d
  }

  /** `array_chunk(items, size)`: consecutive pieces of `size` items, the last one
      possibly shorter. */
  function Chunks<T>(s: seq<T>, size: nat): seq<seq<T>>
    requires size > 0
    decreases |s|
  {
    if s == [] then []
    else if |s| <= size then [s]
    else [s[..size]] + Chunks(s[size..], size)
  }

  /** The chunks hold every item once, in order... */
  lemma {:induction false} ChunksFlatten<T>(s: seq<T>, size: nat)
    requires size > 0
    ensures FlatMap(Chunks(s, size), (c: seq<T>) => c) == s
    decreases |s|
  {
    var id := (c: seq<T>) => c;
    if s == [] {
    } else if |s| <= size {
      assert FlatMap([s], id) == FlatMap([], id) + s;
    } else {
      ChunksFlatten(s[size..], size);
      FlatMapAppend([s[..size]], Chunks(s[size..], size), id);
      assert FlatMap([s[..size]], id) == FlatMap([], id) + s[..size];
      assert s[..size] + s[size..] == s;
    }
  }

  /** ...at most `size` and at least one to a chunk... */
  lemma {:induction false} ChunksSizes<T>(s: seq<T>, size: nat)
    requires size > 0
    ensures forall k :: 0 <= k < |Chunks(s, size)| ==> 1 <= |Chunks(s, size)[k]| <= size
    decreases |s|
  {
    if |s| > size {
      ChunksSizes(s[size..], size);
      assert forall k :: 1 <= k < |Chunks(s, size)| ==> Chunks(s, size)[k] == Chunks(s[size..], size)[k - 1];
    }
  }

  /** ...and, in chunks of 6, there are `ceil(|s| / 6)` of them. */
  lemma {:induction false} ChunksCount<T>(s: seq<T>)
    ensures |Chunks(s, SlipSize)| == CeilDiv(|s|, SlipSize)
    decreases |s|
  {
    if |s| > SlipSize {
      ChunksCount(s[SlipSize..]);
    }
  }

  /** `lb_num_from`, the page total printed on every page: 3 for up to 6 items, else
      one main label, one page per chunk of 6 items and the reply card. */
  function PageTotal(items: nat): (total: nat)
    ensures total >= 3
  {
    if items > 6 then 2 + CeilDiv(items, 6) else 3
  }

  datatype Slip<T> = Slip(page: nat, items: seq<T>)

  /** The return slips: `lb_num` starts at 2 and goes up by one per chunk of 6
      items; the reply card after them shows the final `lb_num`. */
  method NumberSlips<T>(items: seq<T>) returns (slips: seq<Slip<T>>, cardPage: nat)
    ensures |slips| == |Chunks(items, SlipSize)|
    ensures forall k :: 0 <= k < |slips| ==> slips[k] == Slip(k + 2, Chunks(items, SlipSize)[k])
    ensures cardPage == |slips| + 2
  {
    var chunks := Chunks(items, SlipSize);
    var lbNum := 2;
    slips := [];
    var i := 0;
    while i < |chunks|
      invariant 0 <= i <= |chunks|
      invariant lbNum == i + 2 && |slips| == i
      invariant forall k :: 0 <= k < i ==> slips[k] == Slip(k + 2, chunks[k])
    {
      slips := slips + [Slip(lbNum, chunks[i])];
      lbNum := lbNum + 1;
      i := i + 1;
    }
    cardPage := lbNum;
  }

  /** With at least one item the reply card is numbered with the page total, so the
      pages read 1, 2, ..., total; with no items there are no slips and the card
      says 2 of 3. */
  lemma PageNumbering<T>(items: seq<T>)
    ensures items != [] ==> 2 + |Chunks(items, SlipSize)| == PageTotal(|items|)
    ensures items == [] ==> 2 + |Chunks(items, SlipSize)| == 2 && PageTotal(|items|) == 3
  {
    ChunksCount(items);
  }

  // ---------------------------------------------------------------------------
  // The RR code

  const RRBase := 212724
  const RRModulus := 999999998

  /** `Math.floor(order.name.slice(2, order.name.length))`: the name with its first
      two characters dropped, read as a number. */
  function NameNumber(name: string): JsNum
  {
    NumberOf(Slice(name, 2, |name|))
  }

  /** `orderIdd`: `(N - 212724) % 999999998 + 1` with JavaScript's remainder. */
  function RRId(name: string): (id: JsNum)
    ensures NameNumber(name).NaN? <==> id.NaN?
    ensures NameNumber(name).Num? && NameNumber(name).n >= RRBase ==> 1 <= id.n <= RRModulus
  {
    match NameNumber(name)
    case NaN => NaN
    case Num(n) => Num(JsRem(n - RRBase, RRModulus) + 1)
  }

  function Zeros(k: nat): (z: string)
    ensures |z| == k && forall j :: 0 <= j < k ==> z[j] == '0'
  {
    seq(k, _ => '0')
  }

  /** The RR code of an order: "RR", zeros up to nine characters, the id, "1B". */
  function RRCode(name: string): string
  {
    Padded(NumText(RRId(name)))
  }

  /** "RR", zeros up to nine characters, the text `t`, "1B". */
  function Padded(t: string): string
  {
    "RR" + Zeros(if |t| < 9 then 9 - |t| else 0) + t + "1B"
  }

  /** The RR code as both branches of the handler build it: a loop appending one
      '0' while fewer than `9 - String(orderIdd).length` have been appended. */
  method BuildRRCode(name: string) returns (ordernum: string)
    ensures ordernum == RRCode(name)
  {
    var orderIdd := RRId(name);
    var idText := NumText(orderIdd);
    ordernum := "RR";
    var i := 0;
    while i < 9 - |idText|
      invariant 0 <= i && (i <= 9 - |idText| || i == 0)
      invariant ordernum == "RR" + Zeros(i)
    {
      ordernum := ordernum + "0";
      i := i + 1;
    }
    ordernum := ordernum + idText + "1B";
  }

  lemma {:induction false} ZerosValue(k: nat, t: string)
    requires AllDigits(t)
    ensures AllDigits(Zeros(k) + t) && DecimalValue(Zeros(k) + t) == DecimalValue(t)
  {
    if k > 0 {
      var rest := Zeros(k - 1) + t;
      ZerosValue(k - 1, t);
      assert Zeros(k) + t == "0" + rest;
      DecimalValueLeadingZero(rest);
      assert AllDigits("0" + rest) && DecimalValue("0" + rest) == DecimalValue(rest);
    } else {
      assert Zeros(k) + t == t;
    }
  }

  /** For an order whose name, past its first two characters, is a number of at least
      212724, the RR code is 13 characters: "RR", nine digits spelling the id, "1B". */
  lemma RRCodeDigits(name: string)
    requires NameNumber(name).Num? && NameNumber(name).n >= RRBase
    ensures var code := RRCode(name);
            && |code| == 13 && code[..2] == "RR" && code[11..] == "1B"
            && AllDigits(code[2..11]) && DecimalValue(code[2..11]) == RRId(name).n
  {
    var id := RRId(name).n;
    assert NumText(RRId(name)) == NatText(id);
    PaddedDigits(id);
  }

  /** An id of at most nine digits is padded to exactly nine. */
  lemma PaddedDigits(id: nat)
    requires id <= RRModulus
    ensures |Padded(NatText(id))| == 13
    ensures Padded(NatText(id))[..2] == "RR" && Padded(NatText(id))[11..] == "1B"
    ensures AllDigits(Padded(NatText(id))[2..11]) && DecimalValue(Padded(NatText(id))[2..11]) == id
  {
    var t := NatText(id);
    assert |t| <= 9 by {
      assert Pow10(9) == 1000000000;
      NatTextLength(id, 9);
    }
    var mid := Zeros(9 - |t|) + t;
    assert Padded(t) == "RR" + mid + "1B";
    Framing("RR", mid, "1B");
    ZerosValue(9 - |t|, t);
    DecimalValueNatText(id);
  }

  /** The three parts of `pre + mid + post` are where they were put. */
  lemma Framing(pre: string, mid: string, post: string)
    ensures |pre + mid + post| == |pre| + |mid| + |post|
    ensures (pre + mid + post)[..|pre|] == pre
    ensures (pre + mid + post)[|pre|..|pre| + |mid|] == mid
    ensures (pre + mid + post)[|pre| + |mid|..] == post
  {
  }

  /** Distinct order numbers within one cycle of the modulus get distinct RR codes. */
  lemma RRCodeInjective(a: string, b: string)
    requires NameNumber(a).Num? && NameNumber(b).Num?
    requires RRBase <= NameNumber(a).n < RRBase + RRModulus
    requires RRBase <= NameNumber(b).n < RRBase + RRModulus
    requires NameNumber(a).n != NameNumber(b).n
    ensures RRCode(a) != RRCode(b)
  {
    var ia := RRIdInCycle(a);
    var ib := RRIdInCycle(b);
    RRCodeDigits(a);
    RRCodeDigits(b);
    assert DecimalValue(RRCode(a)[2..11]) != DecimalValue(RRCode(b)[2..11]);
  }

  /** Within one cycle of the modulus the id is the order number shifted down. */
  lemma RRIdInCycle(name: string) returns (id: int)
    requires NameNumber(name).Num? && RRBase <= NameNumber(name).n < RRBase + RRModulus
    ensures id == RRId(name).n == NameNumber(name).n - RRBase + 1
  {
    var k := NameNumber(name).n - RRBase;
    assert JsRem(k, RRModulus) == k % RRModulus == k;
    id := RRId(name).n;
  }

  /** Below 212723 the id is negative and the code carries a minus sign: the name
      "#212725" reads as 12725 once two characters are dropped. */
  lemma RRCodeBelowBase(name: string)
    requires NameNumber(name).Num? && NameNumber(name).n < RRBase - 1
    ensures RRId(name).n < 0 && '-' in RRCode(name)
  {
    var t := NumText(RRId(name));
    assert t[0] == '-';
    assert Padded(t)[2 + |Zeros(if |t| < 9 then 9 - |t| else 0)|] == '-';
  }

  lemma RRIdOfShortName()
    ensures NameNumber("#212725") == Num(12725)
    ensures RRId("#212725") == Num(-199998)
  {
    assert Slice("#212725", 2, 7) == "12725";
    assert DecimalValue("12725") == 12725 by {
      assert "12725"[..4] == "1272" && "1272"[..3] == "127" && "127"[..2] == "12";
      assert "12"[..1] == "1" && "1"[..0] == "";
    }
  }

  // ---------------------------------------------------------------------------
  // The Cargo tag

  /** The tag added to an order once the carrier has created its shipment. */
  function CargoTag(devnum: string, kav: string, ordernum: string): string
  {
    "Cargo Tracking:" + devnum + ", LineNumber:" + kav + ", RRcode:" + ordernum
  }

  /** How a tagged order's shipment number is read back from its tags: from 15 past
      the first "Cargo" to the next ','. */
  function ShipmentOf(text: string): string
  {
    var start := IndexOf(text, "Cargo", 0) + 15;
    Slice(text, start, IndexOf(text, ",", start))
  }

  /** How its line is read back: from 11 past the first "LineNumber" to the next ','. */
  function LineOf(text: string): string
  {
    var start := IndexOf(text, "LineNumber", 0) + 11;
    Slice(text, start, IndexOf(text, ",", start))
  }

  /** Where the fields of a tag stand within it. */
  lemma TagLayout(devnum: string, kav: string, ordernum: string)
    ensures var tag := CargoTag(devnum, kav, ordernum);
            var d := |devnum|;
            var k := |kav|;
            && |tag| == 37 + d + k + |ordernum|
            && tag[..5] == "Cargo"
            && tag[15..15 + d] == devnum && tag[15 + d] == ','
            && tag[17 + d..27 + d] == "LineNumber"
            && tag[28 + d..28 + d + k] == kav && tag[28 + d + k] == ','
  {
    TagShipmentLayout(devnum, kav, ordernum);
    TagLineMarkLayout(devnum, kav, ordernum);
    TagLineLayout(devnum, kav, ordernum);
  }

  /** Where "Cargo" and the shipment number stand within a tag. */
  lemma TagShipmentLayout(devnum: string, kav: string, ordernum: string)
    ensures |CargoTag(devnum, kav, ordernum)| == 37 + |devnum| + |kav| + |ordernum|
    ensures CargoTag(devnum, kav, ordernum)[..5] == "Cargo"
    ensures CargoTag(devnum, kav, ordernum)[15..15 + |devnum|] == devnum
    ensures CargoTag(devnum, kav, ordernum)[15 + |devnum|] == ','
  {
    var rest := ", LineNumber:" + kav + ", RRcode:" + ordernum;
    assert CargoTag(devnum, kav, ordernum) == "Cargo Tracking:" + devnum + rest;
    Framing("Cargo Tracking:", devnum, rest);
    assert ("Cargo Tracking:" + devnum + rest)[15 + |devnum|] == rest[0];
    assert "Cargo Tracking:" == "Cargo" + " Tracking:";
    assert CargoTag(devnum, kav, ordernum) == "Cargo" + (" Tracking:" + devnum) + rest;
    Framing("Cargo", " Tracking:" + devnum, rest);
  }

  /** Where "LineNumber" stands within a tag. */
  lemma TagLineMarkLayout(devnum: string, kav: string, ordernum: string)
    ensures |CargoTag(devnum, kav, ordernum)| == 37 + |devnum| + |kav| + |ordernum|
    ensures CargoTag(devnum, kav, ordernum)[17 + |devnum|..27 + |devnum|] == "LineNumber"
  {
    var head := "Cargo Tracking:" + devnum + ", ";
    var rest := ":" + kav + ", RRcode:" + ordernum;
    assert ", LineNumber:" == ", " + "LineNumber" + ":";
    assert CargoTag(devnum, kav, ordernum) == head + "LineNumber" + rest;
    Framing(head, "LineNumber", rest);
  }

  lemma SliceWithin(text: string, p: nat, tag: string, a: nat, b: nat)
    requires OccursAt(text, tag, p) && a <= b <= |tag|
    ensures text[p + a..p + b] == tag[a..b]
  {
    forall i | 0 <= i < b - a ensures text[p + a..p + b][i] == tag[a..b][i] {
      assert text[p + a + i] == text[p..p + |tag|][a + i];
    }
  }

  lemma CharWithin(text: string, p: nat, tag: string, a: nat)
    requires OccursAt(text, tag, p) && a < |tag|
    ensures text[p + a] == tag[a]
  {
    assert text[p + a] == text[p..p + |tag|][a];
  }

  /** The shipment number is read back from a tag with no 'C' before it. */
  lemma ShipmentOfTag(text: string, p: nat, devnum: string, kav: string, ordernum: string)
    requires OccursAt(text, CargoTag(devnum, kav, ordernum), p)
    requires forall j :: 0 <= j < p ==> text[j] != 'C'
    requires ',' !in devnum
    ensures ShipmentOf(text) == devnum
  {
    var tag := CargoTag(devnum, kav, ordernum);
    var d := |devnum|;
    TagShipmentLayout(devnum, kav, ordernum);
    SliceWithin(text, p, tag, 0, 5);
    IndexOfAt(text, "Cargo", 0, p);
    SliceWithin(text, p, tag, 15, 15 + d);
    CharWithin(text, p, tag, 15 + d);
    FieldAt(text, p + 15, devnum);
  }

  /** A field followed by ',' and holding none is read back whole. */
  lemma FieldAt(text: string, q: nat, field: string)
    requires q + |field| < |text| && text[q..q + |field|] == field
    requires ',' !in field && text[q + |field|] == ','
    ensures Slice(text, q, IndexOf(text, ",", q)) == field
  {
    forall j | q <= j < q + |field| ensures text[j] != ',' {
      assert text[j] == text[q..q + |field|][j - q];
    }
    assert OccursAt(text, ",", q + |field|) by {
      assert text[q + |field|..q + |field| + 1] == [','];
    }
    IndexOfAt(text, ",", q, q + |field|);
  }

  lemma TagHeadHasNoL(devnum: string, kav: string, ordernum: string)
    requires 'L' !in devnum
    ensures forall j :: 0 <= j < 17 + |devnum| ==> CargoTag(devnum, kav, ordernum)[j] != 'L'
  {
    var tag := CargoTag(devnum, kav, ordernum);
    var d := |devnum|;
    var head := "Cargo Tracking:" + devnum + ", ";
    assert tag == head + ("LineNumber:" + kav + ", RRcode:" + ordernum);
    forall j | 0 <= j < 17 + d ensures tag[j] != 'L' {
      assert tag[j] == head[j];
      if 15 <= j < 15 + d {
        assert head[j] == devnum[j - 15];
      }
    }
  }

  /** The first "LineNumber" is the tag's own, with no 'L' before it or in the
      shipment number. */
  lemma LineMarkOfTag(text: string, p: nat, devnum: string, kav: string, ordernum: string)
    requires OccursAt(text, CargoTag(devnum, kav, ordernum), p)
    requires forall j :: 0 <= j < p ==> text[j] != 'L'
    requires 'L' !in devnum
    ensures IndexOf(text, "LineNumber", 0) == p + 17 + |devnum|
  {
    var tag := CargoTag(devnum, kav, ordernum);
    var d := |devnum|;
    TagLineMarkLayout(devnum, kav, ordernum);
    SliceWithin(text, p, tag, 17 + d, 27 + d);
    TagHeadHasNoL(devnum, kav, ordernum);
    forall j | p <= j < p + 17 + d ensures text[j] != 'L' {
      assert text[j] == text[p..p + |tag|][j - p];
    }
    IndexOfAt(text, "LineNumber", 0, p + 17 + d);
  }

  /** The line is read back from a tag with no 'L' before it or in the shipment
      number. */
  lemma LineOfTag(text: string, p: nat, devnum: string, kav: string, ordernum: string)
    requires OccursAt(text, CargoTag(devnum, kav, ordernum), p)
    requires forall j :: 0 <= j < p ==> text[j] != 'L'
    requires 'L' !in devnum && ',' !in kav
    ensures LineOf(text) == kav
  {
    var q := LineField(text, p, devnum, kav, ordernum);
    LineMarkOfTag(text, p, devnum, kav, ordernum);
    LineOfFrom(text, q);
    FieldAt(text, q, kav);
  }

  /** Where the line stands in a text holding a tag. */
  lemma LineField(text: string, p: nat, devnum: string, kav: string, ordernum: string) returns (q: nat)
    requires OccursAt(text, CargoTag(devnum, kav, ordernum), p)
    ensures q == p + 28 + |devnum|
    ensures q + |kav| < |text| && text[q..q + |kav|] == kav && text[q + |kav|] == ','
  {
    q := p + 28 + |devnum|;
    var tag := CargoTag(devnum, kav, ordernum);
    var d := |devnum|;
    var k := |kav|;
    TagLineLayout(devnum, kav, ordernum);
    SliceWithin(text, p, tag, 28 + d, 28 + d + k);
    CharWithin(text, p, tag, 28 + d + k);
  }

  /** Where the line stands within a tag. */
  lemma TagLineLayout(devnum: string, kav: string, ordernum: string)
    ensures |CargoTag(devnum, kav, ordernum)| == 37 + |devnum| + |kav| + |ordernum|
    ensures CargoTag(devnum, kav, ordernum)[28 + |devnum|..28 + |devnum| + |kav|] == kav
    ensures CargoTag(devnum, kav, ordernum)[28 + |devnum| + |kav|] == ','
  {
    var head := "Cargo Tracking:" + devnum + ", LineNumber:";
    var rest := ", RRcode:" + ordernum;
    assert CargoTag(devnum, kav, ordernum) == head + kav + rest;
    Framing(head, kav, rest);
    assert (head + kav + rest)[|head| + |kav|] == rest[0];
  }

  /** The line is read from just past the first "LineNumber:". */
  lemma LineOfFrom(text: string, q: nat)
    requires IndexOf(text, "LineNumber", 0) + 11 == q
    ensures LineOf(text) == Slice(text, q, IndexOf(text, ",", q))
  {
  }

  /** Text without a 'C' does not mention Cargo. */
  lemma NoCargoWithoutC(s: string)
    requires 'C' !in s
    ensures !Contains(s, CargoMark)
  {
    forall i | 0 <= i <= |s| ensures !OccursAt(s, CargoMark, i) {
      if i + 5 <= |s| {
        assert s[i..i + 5][0] == s[i];
      }
    }
  }

  lemma TagSplitForm(devnum: string, kav: string, ordernum: string)
    ensures CargoTag(devnum, kav, ordernum)
              == ("Cargo Tracking:" + devnum) + [','] + ((" LineNumber:" + kav) + [','] + (" RRcode:" + ordernum))
  {
    assert ", LineNumber:" == [','] + " LineNumber:";
    assert ", RRcode:" == [','] + " RRcode:";
  }

  /** The comma-separated parts of a written tag. */
  lemma CargoTagParts(devnum: string, kav: string, ordernum: string)
    requires ',' !in devnum && ',' !in kav && ',' !in ordernum
    ensures Split(CargoTag(devnum, kav, ordernum), ',')
              == ["Cargo Tracking:" + devnum, " LineNumber:" + kav, " RRcode:" + ordernum]
  {
    var t0 := "Cargo Tracking:" + devnum;
    var t1 := " LineNumber:" + kav;
    var t2 := " RRcode:" + ordernum;
    TagSplitForm(devnum, kav, ordernum);
    assert ',' !in t0;
    assert ',' !in t1;
    assert ',' !in t2;
    SplitCons(t0, ',', t1 + [','] + t2);
    SplitCons(t1, ',', t2);
    assert Split(t2, ',') == [t2];
  }

  lemma LastCargoOfThree(t0: string, t1: string, t2: string)
    requires Contains(t0, CargoMark) && 'C' !in t1 && 'C' !in t2
    ensures LastCargoTag([t0, t1, t2]) == Some(t0)
  {
    NoCargoWithoutC(t1);
    NoCargoWithoutC(t2);
    assert LastCargoTag([t0]) == Some(t0);
    assert [t0, t1][..1] == [t0];
    assert LastCargoTag([t0, t1]) == Some(t0);
    assert [t0, t1, t2][..2] == [t0, t1];
  }

  lemma NoCAfter(head: string, s: string)
    requires 'C' !in head && 'C' !in s
    ensures 'C' !in head + s
  {
    forall j | 0 <= j < |head + s| ensures (head + s)[j] != 'C' {
      if j < |head| {
        assert (head + s)[j] == head[j];
      } else {
        assert (head + s)[j] == s[j - |head|];
      }
    }
  }

  /** The store keeps the comma-separated parts of the written tag as separate tags;
      the screens that list orders then show the shipment number it was written
      with. */
  lemma CargoTagShown(devnum: string, kav: string, ordernum: string)
    requires ',' !in devnum && ',' !in kav && ',' !in ordernum
    requires ':' !in devnum && 'C' !in kav && 'C' !in ordernum
    ensures CargoNumber(Split(CargoTag(devnum, kav, ordernum), ',')) == Some(devnum)
  {
    var t0 := "Cargo Tracking:" + devnum;
    var t1 := " LineNumber:" + kav;
    var t2 := " RRcode:" + ordernum;
    CargoTagParts(devnum, kav, ordernum);
    var tags := Split(CargoTag(devnum, kav, ordernum), ',');
    assert tags == [t0, t1, t2];
    assert t0[..5] == CargoMark;
    assert OccursAt(t0, CargoMark, 0);
    NoCAfter(" LineNumber:", kav);
    NoCAfter(" RRcode:", ordernum);
    LastCargoOfThree(t0, t1, t2);
    ShipmentPart(devnum);
  }

  lemma ShipmentPart(devnum: string)
    requires ':' !in devnum
    ensures Part("Cargo Tracking:" + devnum, ':', 1) == Some(devnum)
  {
    assert "Cargo Tracking:" + devnum == "Cargo Tracking" + [':'] + devnum;
    SplitCons("Cargo Tracking", ':', devnum);
  }

  // ---------------------------------------------------------------------------
  // Issuing a label

  /** What the carrier answers when asked to create a shipment. */
  datatype CarrierReply = CarrierReply(shipmentId: string, lineText: string)

  /** What a label shows, and the tag added to the order when there is one. */
  datatype Issued = Issued(devnum: string, kav: string, ordernum: string, newTag: Option<string>)

  /** One order of `/api/printLabel`: an order whose tags do not mention Cargo gets a
      new shipment from the carrier and the tag recording it; an order whose tags do
      is printed again from the tag. Both carry the RR code of the order's name. */
  function IssueSpec(tags: string, name: string, reply: CarrierReply): Issued
  {
    if !Contains(tags, "Cargo") then
      Issued(reply.shipmentId, reply.lineText, RRCode(name),
             Some(CargoTag(reply.shipmentId, reply.lineText, RRCode(name))))
    else
      Issued(ShipmentOf(tags), LineOf(tags), RRCode(name), None)
  }

  method IssueLabel(tags: string, name: string, reply: CarrierReply) returns (out: Issued)
    ensures out == IssueSpec(tags, name, reply)
  {
    ContainsIndexOf(tags, "Cargo");
    var cargoStatus := IndexOf(tags, "Cargo", 0) != -1;
    if !cargoStatus {
      var devnum := reply.shipmentId;
      var kav := reply.lineText;
      var ordernum := BuildRRCode(name);
      var tag := CargoTag(devnum, kav, ordernum);
      ordernum := BuildRRCode(name);
      out := Issued(devnum, kav, ordernum, Some(tag));
    } else {
      var devnum := ShipmentOf(tags);
      var kav := LineOf(tags);
      var ordernum := BuildRRCode(name);
      out := Issued(devnum, kav, ordernum, None);
    }
  }

  /** Printing an order again after its tag was added (to tags with no 'C' or 'L'
      before it) shows the same shipment, line and RR code, whatever the carrier
      would now answer, and adds no tag. */
  lemma ReprintSameLabel(prefix: string, suffix: string, name: string, reply: CarrierReply, later: CarrierReply)
    requires 'C' !in prefix && 'L' !in prefix && 'L' !in reply.shipmentId
    requires ',' !in reply.shipmentId && ',' !in reply.lineText
    ensures var first := IssueSpec(prefix, name, reply);
            && first.newTag.Some?
            && IssueSpec(prefix + first.newTag.value + suffix, name, later)
               == first.(newTag := None)
  {
    var tag := CargoTag(reply.shipmentId, reply.lineText, RRCode(name));
    NoCargoWithoutC(prefix);
    var text := prefix + tag + suffix;
    assert text[|prefix|..|prefix| + |tag|] == tag;
    TagShipmentLayout(reply.shipmentId, reply.lineText, RRCode(name));
    assert text[|prefix|..|prefix| + 5] == "Cargo";
    assert OccursAt(text, "Cargo", |prefix|);
    forall j | 0 <= j < |prefix| ensures text[j] != 'C' && text[j] != 'L' {
      assert text[j] == prefix[j];
    }
    ShipmentOfTag(text, |prefix|, reply.shipmentId, reply.lineText, RRCode(name));
    LineOfTag(text, |prefix|, reply.shipmentId, reply.lineText, RRCode(name));
  }
}
