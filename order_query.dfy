/**
  The order-number range as the screens handle it. Two things are built from the
  "from" and "to" text fields:

  - a search query `name:<from> OR name:<i> …` naming every order number in the
    range, which the order table and the pick report send to the store
    (index.jsx and report.jsx build it the same way);
  - a predicate on the digits of an order's name, which the Excel export and the
    report page's local filter apply to each line (print-order-api.js and
    report.jsx test it the same way).
*/
module OrderNumbers {
  import opened Js

  // ---------------------------------------------------------------------------
  // The range predicate

  /** `a <= b` on JavaScript numbers: false when either is NaN. */
  predicate NumLe(a: JsNum, b: JsNum)
  {
    a.Num? && b.Num? && a.n <= b.n
  }

  /** The number a filter reads off an order name: its digits, read as decimal
      (`name.replace(/\D/g, "")`, then `Number` or `Math.floor`). */
  function OrderNumber(name: string): (n: nat)
    ensures AllDigits(name) ==> n == DecimalValue(name)
  {
    DigitsOnlyOfDigits(name);
    DecimalValue(DigitsOnly(name))
  }

  /** A name made of a prefix without digits, such as `#`, and then the digits of
      `k` has the number `k`. */
  lemma OrderNumberOfName(prefix: string, k: nat)
    requires forall k :: 0 <= k < |prefix| ==> !IsDigit(prefix[k])
    ensures OrderNumber(prefix + NatText(k)) == k
  {
    DigitsOnlySkip(prefix, NatText(k));
    DigitsOnlyOfDigits(NatText(k));
    DecimalValueNatText(k);
  }

  lemma {:induction false} DigitsOnlySkip(prefix: string, t: string)
    requires forall k :: 0 <= k < |prefix| ==> !IsDigit(prefix[k])
    ensures DigitsOnly(prefix + t) == DigitsOnly(t)
  {
    if prefix != [] {
      assert (prefix + t)[1..] == prefix[1..] + t;
      assert (prefix + t)[0] == prefix[0] && !IsDigit(prefix[0]);
      assert DigitsOnly(prefix + t) == [] + DigitsOnly(prefix[1..] + t);
      DigitsOnlySkip(prefix[1..], t);
    } else {
      assert prefix + t == t;
    }
  }

  lemma {:induction false} DigitsOnlyOfDigits(s: string)
    ensures AllDigits(s) ==> DigitsOnly(s) == s
  {
    if s != [] { DigitsOnlyOfDigits(s[1..]); }
  }

  /** Whether a line of order number `n` passes the filter, branch by branch as the
      code tests it; the bounds are the raw field texts, compared as numbers. The
      line passes exactly when it is not below a given start and not above a given
      end; a bound that is not a number lets nothing through. */
  function KeepOrder(startText: string, endText: string, n: nat): (keep: bool)
    ensures keep <==>
              (startText == "" || NumLe(NumberOf(startText), Num(n))) &&
              (endText == "" || NumLe(Num(n), NumberOf(endText)))
  {
    var s := NumberOf(startText);
    var e := NumberOf(endText);
    var x := Num(n);
    if startText == "" then endText == "" || (NumLe(x, e) && endText != "")
    else (NumLe(s, x) && endText == "") || (NumLe(s, x) && NumLe(x, e) && endText != "")
  }

  /** For bounds typed as plain digits the filter keeps exactly the closed range. */
  lemma KeepOrderDigits(a: nat, b: nat, n: nat)
    ensures KeepOrder(NatText(a), NatText(b), n) <==> a <= n <= b
    ensures KeepOrder(NatText(a), "", n) <==> a <= n
    ensures KeepOrder("", NatText(b), n) <==> n <= b
    ensures KeepOrder("", "", n)
  {
    DecimalValueNatText(a);
    DecimalValueNatText(b);
  }

  // ---------------------------------------------------------------------------
  // The `name:` query

  /** `" OR name:" + i` for every integer `i` with `low < i <= high`, in order. */
  function OrChain(low: int, high: int): (r: string)
    decreases high - low
  {
    if high <= low then "" else OrChain(low, high - 1) + OrTerm(high)
  }

  /** The term ` OR name:<i>` the loop appends for `i`. */
  function OrTerm(i: int): string
  {
    " " + ("OR" + " " + NameTerm(i))
  }

  /** The two numbers the loop runs between; `None` stands for NaN, which stops the
      loop before its first round. Both fields empty gives the defaults 0 and
      50000 (the query is then dropped). */
  function QueryBounds(startText: string, endText: string): (Option<int>, Option<int>)
  {
    if startText != "" && endText == "" then
      (ParseInt(startText), match ParseInt(startText) case Some(s) => Some(s + 500) case None => None)
    else if startText == "" && endText != "" then
      (match ParseInt(endText) case Some(e) => (if e - 500 > 0 then Some(e - 500) else Some(0)) case None => Some(0),
       ParseInt(endText))
    else if startText != "" && endText != "" then
      (ParseInt(startText), ParseInt(endText))
    else (Some(0), Some(50000))
  }

  /** The query the filter button stores: `""` when both fields are empty, else
      `name:<start text>` followed by the OR-chain between the bounds. */
  function OrderQuery(startText: string, endText: string): string
  {
    if startText == "" && endText == "" then ""
    else
      var (s, e) := QueryBounds(startText, endText);
      "name:" + startText + (if s.Some? && e.Some? then OrChain(s.value, e.value) else "")
  }

  /** The filter button: build the chain with a loop, then drop it when both fields
      are empty. */
  method BuildOrderQuery(startText: string, endText: string) returns (str: string)
    ensures str == OrderQuery(startText, endText)
  {
    str := "name:" + startText;
    var (s, e) := QueryBounds(startText, endText);
    if s.Some? && e.Some? {
      str := AppendOrChain(str, s.value, e.value);
    } else {
      assert str == str + "";
    }
    if startText == "" && endText == "" {
      str := "";
    }
  }

  /** The loop `for (i = low + 1; i < high + 1; i++) str = str + ' OR name:' + i`. */
  method AppendOrChain(prefix: string, low: int, high: int) returns (str: string)
    ensures str == prefix + OrChain(low, high)
  {
    str := prefix;
    var i := low + 1;
    ghost var done := low;
    ghost var top := if high < low then low else high;
    assert OrChain(low, done) == "";
    while i < high + 1
      invariant i == done + 1 && low <= done <= top
      invariant str == prefix + OrChain(low, done)
      decreases high + 1 - i
    {
      OrChainStep(str, prefix, low, i);
      str := str + OrTerm(i);
      done := i;
      i := i + 1;
    }
    if high < low {
      assert done == low && OrChain(low, high) == "" == OrChain(low, done);
    } else {
      assert done == high;
    }
  }

  /** One round of the loop extends the chain by one term. */
  lemma OrChainStep(str: string, prefix: string, low: int, i: int)
    requires low < i && str == prefix + OrChain(low, i - 1)
    ensures str + OrTerm(i) == prefix + OrChain(low, i)
  {
    var chain, term := OrChain(low, i - 1), OrTerm(i);
    assert OrChain(low, i) == chain + term;
    Regroup(prefix, chain, term);
  }

  /** The query is empty exactly when both fields are. */
  lemma OrderQueryEmpty(startText: string, endText: string)
    ensures OrderQuery(startText, endText) == "" <==> startText == "" && endText == ""
  {
    if startText != "" || endText != "" {
      assert OrderQuery(startText, endText)[0] == 'n';
    }
  }

  /** The terms the chain adds when split on spaces: `OR` and `name:<i>` for every
      integer `i` with `low < i <= high`, in order. */
  function OrNames(low: int, high: int): seq<string>
    decreases high - low
  {
    if high <= low then [] else OrNames(low, high - 1) + ["OR", NameTerm(high)]
  }

  /** The search term naming order `i`. */
  function NameTerm(i: int): string
  {
    "name:" + IntText(i)
  }

  /** Splitting a head followed by the chain on spaces gives the head's parts, then
      `OR` and one `name:` term per number of the chain. */
  lemma {:induction false} OrChainSplit(h: string, low: int, high: int)
    ensures Split(h + OrChain(low, high), ' ') == Split(h, ' ') + OrNames(low, high)
    decreases high - low
  {
    if high <= low {
      assert h + OrChain(low, high) == h;
    } else {
      var prev := OrChain(low, high - 1);
      Regroup(h, prev, OrTerm(high));
      NameTermNoSpace(high);
      TermSplit(h + prev, NameTerm(high));
      OrChainSplit(h, low, high - 1);
      Regroup(Split(h, ' '), OrNames(low, high - 1), ["OR", NameTerm(high)]);
    }
  }

  /** One more ` OR <term>` adds `OR` and the term to the parts. */
  lemma TermSplit(x: string, term: string)
    requires ' ' !in term
    ensures Split(x + (" " + ("OR" + " " + term)), ' ') == Split(x, ' ') + ["OR", term]
  {
    var b := "OR" + " " + term;
    assert " " == [' '] && |"OR"| == 2 && ' ' != 'O' && ' ' != 'R';
    assert x + (" " + b) == x + [' '] + b;
    SplitConcat(x, ' ', b);
    SplitCons("OR", ' ', term);
    assert Split(term, ' ') == [term];
    assert Split(b, ' ') == ["OR", term];
  }

  lemma NameTermNoSpace(i: int)
    ensures ' ' !in NameTerm(i)
  {
    IntTextChars(i);
  }

  lemma NameTermInjective(m: int, n: int)
    requires NameTerm(m) == NameTerm(n)
    ensures m == n
  {
    assert NameTerm(m)[5..] == IntText(m) && NameTerm(n)[5..] == IntText(n);
    IntTextInjective(m, n);
  }

  /** The chain names every order number in (low, high] and no other. */
  lemma {:induction false} OrChainNames(low: int, high: int, m: int)
    ensures Split(OrChain(low, high), ' ') == [""] + OrNames(low, high)
    ensures NameTerm(m) in OrNames(low, high) <==> low < m <= high
  {
    var chain := OrChain(low, high);
    OrChainSplit("", low, high);
    assert "" + chain == chain && Split("", ' ') == [""];
    OrNamesHas(low, high, m);
  }

  lemma {:induction false} OrNamesHas(low: int, high: int, m: int)
    ensures NameTerm(m) in OrNames(low, high) <==> low < m <= high
    decreases high - low
  {
    if high > low {
      OrNamesHas(low, high - 1, m);
      assert NameTerm(m)[0] == 'n';
      if NameTerm(m) == NameTerm(high) {
        NameTermInjective(m, high);
      }
    }
  }

  /** The numbers the chain covers for fields typed as plain digits: up to 500
      past the start, from 500 below the end (never below 0) up to the end, or from
      the start to the end, the lower end excluded each time. */
  predicate ChainCovers(a: Option<nat>, b: Option<nat>, m: int)
  {
    if a.Some? && b.None? then a.value < m <= a.value + 500
    else if a.None? && b.Some? then (if b.value - 500 > 0 then b.value - 500 else 0) < m <= b.value
    else if a.Some? && b.Some? then a.value < m <= b.value
    else false
  }

  /** With fields typed as plain digits, the query names order `m` exactly when `m`
      is the start or lies in the chosen range: it names every order of the range
      and no other. */
  lemma OrderQueryNames(a: Option<nat>, b: Option<nat>, m: int)
    ensures NameTerm(m) in Split(OrderQuery(TextOf(a), TextOf(b)), ' ') <==>
              (a.Some? && m == a.value) || ChainCovers(a, b, m)
  {
    assert |NameTerm(m)| > 5;
    if a.None? && b.None? {
      assert OrderQuery(TextOf(a), TextOf(b)) == "";
    } else {
      var s, e := DigitBounds(a, b);
      var h := "name:" + TextOf(a);
      HeadSplit(a);
      OrChainSplit(h, s, e);
      OrNamesHas(s, e, m);
      if a.Some? && NameTerm(m) == h {
        NameTermInjective(m, a.value);
      }
    }
  }

  /** For fields typed as plain digits the loop runs between two numbers, and the
      numbers strictly above the first up to the second are those the chain
      covers. */
  lemma DigitBounds(a: Option<nat>, b: Option<nat>) returns (s: int, e: int)
    requires a.Some? || b.Some?
    ensures OrderQuery(TextOf(a), TextOf(b)) == "name:" + TextOf(a) + OrChain(s, e)
    ensures forall m :: s < m <= e <==> ChainCovers(a, b, m)
  {
    if a.Some? { ParseIntNatText(a.value); }
    if b.Some? { ParseIntNatText(b.value); }
    var (x, y) := QueryBounds(TextOf(a), TextOf(b));
    s, e := x.value, y.value;
  }

  /** The query's first term is `name:` and the start field, which names the start
      order when it is given. */
  lemma HeadSplit(a: Option<nat>)
    ensures Split("name:" + TextOf(a), ' ') == ["name:" + TextOf(a)]
    ensures a.Some? ==> "name:" + TextOf(a) == NameTerm(a.value)
  {
    if a.Some? {
      NameTermNoSpace(a.value);
      assert "name:" + TextOf(a) == NameTerm(a.value);
    } else {
      assert "name:" + TextOf(a) == "name:";
    }
  }

  /** A field holding `n`, or left empty. */
  function TextOf(n: Option<nat>): (t: string)
    ensures n.Some? <==> t != ""
  {
    match n
    case None => ""
    case Some(v) => NatText(v)
  }
}
