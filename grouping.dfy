/**
  The pick-report fold shared by the Excel export (print-order-api.js) and the report
  page (report.jsx): sort the lines by item name with `Array.prototype.sort`, then walk
  the sorted lines keeping a running quantity for each run of equal names.

  `Grouped` is what the report page keeps (one line per run, carrying the run's total)
  and what the Excel export writes to its worksheet; `ZeroFold` is what the Excel
  export leaves in its array (the last line of each run carries the total, every
  other line of the run 0).
*/
module Grouping {
  import opened Js

  /** A report line: an item name, a quantity, and the rest of the row. */
  datatype Line<T> = Line(name: string, qty: int, info: T)

  // ---------------------------------------------------------------------------
  // Sorting

  /** `Array.prototype.sort` with the comparator
      `(a, b) => key(a) < key(b) ? -1 : key(a) > key(b) ? 1 : 0`. The language
      requires that sort to be stable; it is modelled as a stable insertion sort. */
  function SortByKey<T>(s: seq<T>, key: T -> string): (r: seq<T>)
  {
    if s == [] then [] else Insert(Last(s), SortByKey(s[..|s| - 1], key), key)
  }

  function Insert<T>(x: T, t: seq<T>, key: T -> string): (r: seq<T>)
    decreases |t|
  {
    if t == [] || !Less(key(x), key(Last(t))) then t + [x]
    else Insert(x, t[..|t| - 1], key) + [Last(t)]
  }

  ghost predicate SortedBy<T>(s: seq<T>, key: T -> string)
  {
    forall i, j :: 0 <= i < j < |s| ==> !Less(key(s[j]), key(s[i]))
  }

  /** `key(a) <= key(b)` and `key(b) <= key(c)` give `key(a) <= key(c)`. */
  lemma NotLessTransitive(a: string, b: string, c: string)
    requires !Less(b, a) && !Less(c, b)
    ensures !Less(c, a)
  {
    LessTotal(a, b);
    LessTotal(b, c);
    if Less(c, a) {
      if a != b { LessTransitive(c, a, b); LessAsymmetric(b, c); }
    }
  }

  /** Inserting adds the element and keeps the others. */
  lemma {:induction false} InsertPermutes<T>(x: T, t: seq<T>, key: T -> string)
    ensures multiset(Insert(x, t, key)) == multiset(t) + multiset{x}
    decreases |t|
  {
    if !(t == [] || !Less(key(x), key(Last(t)))) {
      var t' := t[..|t| - 1];
      assert t == t' + [Last(t)];
      InsertPermutes(x, t', key);
    }
  }

  lemma {:induction false} InsertSorted<T>(x: T, t: seq<T>, key: T -> string)
    requires SortedBy(t, key)
    ensures SortedBy(Insert(x, t, key), key)
    ensures multiset(Insert(x, t, key)) == multiset(t) + multiset{x}
    decreases |t|
  {
    InsertPermutes(x, t, key);
    var r := Insert(x, t, key);
    if t == [] || !Less(key(x), key(Last(t))) {
      forall i | 0 <= i < |t| ensures !Less(key(x), key(t[i])) {
        if t != [] && i < |t| - 1 {
          NotLessTransitive(key(t[i]), key(Last(t)), key(x));
        }
      }
      SortedSnoc(t, x, key);
    } else {
      var t' := t[..|t| - 1];
      assert t == t' + [Last(t)];
      assert SortedBy(t', key);
      InsertSorted(x, t', key);
      var u := Insert(x, t', key);
      assert multiset(u) == multiset(t') + multiset{x};
      assert r == u + [Last(t)];
      forall i | 0 <= i < |u| ensures !Less(key(Last(t)), key(u[i])) {
        assert u[i] in multiset(t') + multiset{x};
        if u[i] == x {
          LessAsymmetric(key(x), key(Last(t)));
        } else {
          var k :| 0 <= k < |t'| && t'[k] == u[i];
          assert t[k] == u[i];
        }
      }
      SortedSnoc(u, Last(t), key);
    }
  }

  /** A sorted sequence stays sorted when an element no smaller than all of it is
      appended. */
  lemma SortedSnoc<T>(u: seq<T>, y: T, key: T -> string)
    requires SortedBy(u, key)
    requires forall i :: 0 <= i < |u| ==> !Less(key(y), key(u[i]))
    ensures SortedBy(u + [y], key)
  {
  }

  /** The sort orders its input and only reorders it. */
  lemma {:induction false} SortByKeySorted<T>(s: seq<T>, key: T -> string)
    ensures SortedBy(SortByKey(s, key), key)
    ensures multiset(SortByKey(s, key)) == multiset(s)
  {
    if s != [] {
      SortByKeySorted(s[..|s| - 1], key);
      InsertSorted(Last(s), SortByKey(s[..|s| - 1], key), key);
      assert s == s[..|s| - 1] + [Last(s)];
    }
  }

  /** When every element has the same key the comparator always answers 0, and the
      stable sort leaves the sequence as it was. */
  lemma {:induction false} SortByConstantKey<T>(s: seq<T>, key: T -> string, c: string)
    requires forall x :: key(x) == c
    ensures SortByKey(s, key) == s
  {
    if s != [] {
      SortByConstantKey(s[..|s| - 1], key, c);
      LessIrreflexive(c);
      assert s == s[..|s| - 1] + [Last(s)];
    }
  }

  function NameOf<T>(l: Line<T>): string { l.name }

  /** The sort both report variants run before folding. */
  function SortByName<T>(s: seq<Line<T>>): seq<Line<T>>
  {
    SortByKey(s, NameOf)
  }

  ghost predicate SortedByName<T>(s: seq<Line<T>>)
  {
    forall i, j :: 0 <= i < j < |s| ==> !Less(s[j].name, s[i].name)
  }

  lemma SortByNameSorted<T>(s: seq<Line<T>>)
    ensures SortedByName(SortByName(s))
    ensures multiset(SortByName(s)) == multiset(s)
  {
    SortByKeySorted(s, NameOf);
    var r := SortByName(s);
    forall i, j | 0 <= i < j < |r| ensures !Less(r[j].name, r[i].name) {
      assert NameOf(r[j]) == r[j].name && NameOf(r[i]) == r[i].name;
    }
  }

  // ---------------------------------------------------------------------------
  // Runs and their totals

  /** Line `i` is the last of its run of equal names. */
  predicate RunEnd<T>(s: seq<Line<T>>, i: nat)
    requires i < |s|
  {
    i + 1 == |s| || s[i + 1].name != s[i].name
  }

  /** The sum of the quantities of the run of equal names that ends at line `i`. */
  function RunTotal<T>(s: seq<Line<T>>, i: nat): int
    requires i < |s|
  {
    s[i].qty + (if i > 0 && s[i - 1].name == s[i].name then RunTotal(s, i - 1) else 0)
  }

  /** The lines the fold has emitted after visiting the first `n` lines: the last
      line of every completed run, carrying the run's total. */
  function GroupedUpTo<T>(s: seq<Line<T>>, n: nat): seq<Line<T>>
    requires n <= |s|
  {
    if n == 0 then []
    else GroupedUpTo(s, n - 1) + (if RunEnd(s, n - 1) then [s[n - 1].(qty := RunTotal(s, n - 1))] else [])
  }

  function Grouped<T>(s: seq<Line<T>>): seq<Line<T>>
  {
    GroupedUpTo(s, |s|)
  }

  /** The array the in-place fold leaves behind. */
  function ZeroFold<T>(s: seq<Line<T>>): (r: seq<Line<T>>)
    ensures |r| == |s|
  {
    seq(|s|, i requires 0 <= i < |s| => ZeroLine(s, i))
  }

  /** Line `i` of the folded array. */
  function ZeroLine<T>(s: seq<Line<T>>, i: nat): Line<T>
    requires i < |s|
  {
    s[i].(qty := if RunEnd(s, i) then RunTotal(s, i) else 0)
  }

  /** Line `i` carries on the run of line `i - 1`: the fold moves the running
      total on and emits nothing. */
  lemma RunGoesOn<T>(s: seq<Line<T>>, i: nat)
    requires 0 < i < |s| && s[i - 1].name == s[i].name
    ensures RunTotal(s, i) == RunTotal(s, i - 1) + s[i].qty
    ensures ZeroLine(s, i - 1) == s[i - 1].(qty := 0)
    ensures GroupedUpTo(s, i) == GroupedUpTo(s, i - 1)
  {
  }

  /** Line `i` starts a new run: the run of line `i - 1` is complete and emitted. */
  lemma RunBreaks<T>(s: seq<Line<T>>, i: nat)
    requires 0 < i < |s| && s[i - 1].name != s[i].name
    ensures RunTotal(s, i) == s[i].qty
    ensures ZeroLine(s, i - 1) == s[i - 1].(qty := RunTotal(s, i - 1))
    ensures GroupedUpTo(s, i) == GroupedUpTo(s, i - 1) + [ZeroLine(s, i - 1)]
  {
  }

  /** The last line ends the last run. */
  lemma LastRun<T>(s: seq<Line<T>>)
    requires s != []
    ensures ZeroLine(s, |s| - 1) == Last(s).(qty := RunTotal(s, |s| - 1))
    ensures Grouped(s) == GroupedUpTo(s, |s| - 1) + [ZeroLine(s, |s| - 1)]
  {
  }

  /** The quantity of all lines named `x`. */
  function SumFor<T>(s: seq<Line<T>>, x: string): int
  {
    if s == [] then 0 else SumFor(s[..|s| - 1], x) + (if Last(s).name == x then Last(s).qty else 0)
  }

  /** The quantity of all lines. */
  function Total<T>(s: seq<Line<T>>): int
  {
    if s == [] then 0 else Total(s[..|s| - 1]) + Last(s).qty
  }

  ghost predicate StrictlyAscending<T>(s: seq<Line<T>>)
  {
    forall i, j :: 0 <= i < j < |s| ==> Less(s[i].name, s[j].name)
  }

  lemma SumForAppend<T>(s: seq<Line<T>>, l: Line<T>, x: string)
    ensures SumFor(s + [l], x) == SumFor(s, x) + (if l.name == x then l.qty else 0)
    ensures Total(s + [l]) == Total(s) + l.qty
  {
    assert (s + [l])[..|s|] == s;
  }

  /** The part of a run that is still open after `n` lines: its running total, if
      the run is named `x`. */
  function Pending<T>(s: seq<Line<T>>, n: nat, x: string): int
    requires n <= |s|
  {
    if n > 0 && !RunEnd(s, n - 1) && s[n - 1].name == x then RunTotal(s, n - 1) else 0
  }

  function PendingAll<T>(s: seq<Line<T>>, n: nat): int
    requires n <= |s|
  {
    if n > 0 && !RunEnd(s, n - 1) then RunTotal(s, n - 1) else 0
  }

  lemma {:induction false} GroupedUpToSums<T>(s: seq<Line<T>>, n: nat, x: string)
    requires n <= |s|
    ensures SumFor(GroupedUpTo(s, n), x) + Pending(s, n, x) == SumFor(s[..n], x)
    ensures Total(GroupedUpTo(s, n)) + PendingAll(s, n) == Total(s[..n])
  {
    if n > 0 {
      GroupedUpToSums(s, n - 1, x);
      assert s[..n] == s[..n - 1] + [s[n - 1]];
      SumForAppend(s[..n - 1], s[n - 1], x);
      GroupedStep(s, n, x);
    }
  }

  /** Visiting line `n - 1` adds its quantity to what is emitted or pending. */
  lemma GroupedStep<T>(s: seq<Line<T>>, n: nat, x: string)
    requires 0 < n <= |s|
    ensures SumFor(GroupedUpTo(s, n), x) + Pending(s, n, x)
            == SumFor(GroupedUpTo(s, n - 1), x) + Pending(s, n - 1, x) + (if s[n - 1].name == x then s[n - 1].qty else 0)
    ensures Total(GroupedUpTo(s, n)) + PendingAll(s, n)
            == Total(GroupedUpTo(s, n - 1)) + PendingAll(s, n - 1) + s[n - 1].qty
  {
    if n > 1 && s[n - 2].name == s[n - 1].name {
      RunGoesOn(s, n - 1);
      assert !RunEnd(s, n - 2);
    } else {
      assert Pending(s, n - 1, x) == 0 && PendingAll(s, n - 1) == 0;
      assert RunTotal(s, n - 1) == s[n - 1].qty;
    }
    var row := s[n - 1].(qty := RunTotal(s, n - 1));
    if RunEnd(s, n - 1) {
      assert GroupedUpTo(s, n) == GroupedUpTo(s, n - 1) + [row];
      SumForAppend(GroupedUpTo(s, n - 1), row, x);
    } else {
      assert GroupedUpTo(s, n) == GroupedUpTo(s, n - 1);
    }
  }

  /** Folding keeps the quantity of every item name, and so the total quantity. */
  lemma GroupedSums<T>(s: seq<Line<T>>, x: string)
    ensures SumFor(Grouped(s), x) == SumFor(s, x)
    ensures Total(Grouped(s)) == Total(s)
  {
    GroupedUpToSums(s, |s|, x);
    assert s[..|s|] == s;
  }

  lemma {:induction false} ZeroFoldPrefix<T>(s: seq<Line<T>>, n: nat, x: string)
    requires n <= |s|
    ensures SumFor(ZeroFold(s)[..n], x) == SumFor(GroupedUpTo(s, n), x)
    ensures Total(ZeroFold(s)[..n]) == Total(GroupedUpTo(s, n))
  {
    if n > 0 {
      var z, g := ZeroFold(s)[..n - 1], GroupedUpTo(s, n - 1);
      ZeroFoldPrefix(s, n - 1, x);
      var zl := ZeroFoldStep(s, n);
      SumForAppend(z, zl, x);
      if RunEnd(s, n - 1) {
        SumForAppend(g, zl, x);
      } else {
        assert SumFor(z + [zl], x) == SumFor(z, x) && Total(z + [zl]) == Total(z);
      }
    }
  }

  /** One more line of the folded array: the run's total at a run's end, else zero;
      the grouped prefix gains that line exactly at a run's end. */
  lemma ZeroFoldStep<T>(s: seq<Line<T>>, n: nat) returns (zl: Line<T>)
    requires 0 < n <= |s|
    ensures ZeroFold(s)[..n] == ZeroFold(s)[..n - 1] + [zl]
    ensures RunEnd(s, n - 1) ==> GroupedUpTo(s, n) == GroupedUpTo(s, n - 1) + [zl]
    ensures !RunEnd(s, n - 1) ==> zl.qty == 0 && GroupedUpTo(s, n) == GroupedUpTo(s, n - 1)
  {
    zl := ZeroLine(s, n - 1);
    var z := ZeroFold(s);
    assert z[n - 1] == zl;
    assert z[..n] == z[..n - 1] + [zl];
  }

  /** Zeroing all but the last line of each run keeps every name's quantity. */
  lemma ZeroFoldSums<T>(s: seq<Line<T>>, x: string)
    ensures SumFor(ZeroFold(s), x) == SumFor(s, x)
    ensures Total(ZeroFold(s)) == Total(s)
  {
    ZeroFoldPrefix(s, |s|, x);
    GroupedSums(s, x);
    assert ZeroFold(s)[..|s|] == ZeroFold(s);
  }

  // ---------------------------------------------------------------------------
  // Sorted input: one line per name, ascending

  lemma LessThenNotLess(a: string, b: string, c: string)
    requires Less(a, b) && !Less(c, b)
    ensures Less(a, c)
  {
    LessTotal(b, c);
    if b != c { LessTransitive(a, b, c); }
  }

  lemma {:induction false} GroupedUpToAscending<T>(s: seq<Line<T>>, n: nat)
    requires n <= |s| && SortedByName(s)
    ensures StrictlyAscending(GroupedUpTo(s, n))
    ensures forall r, k :: r in GroupedUpTo(s, n) && n <= k < |s| ==> Less(r.name, s[k].name)
  {
    if n > 0 {
      GroupedUpToAscending(s, n - 1);
      var g := GroupedUpTo(s, n - 1);
      if RunEnd(s, n - 1) {
        var row := s[n - 1].(qty := RunTotal(s, n - 1));
        forall k | n <= k < |s| ensures Less(row.name, s[k].name) {
          assert !Less(s[n].name, s[n - 1].name);
          LessTotal(s[n - 1].name, s[n].name);
          if k > n {
            assert !Less(s[k].name, s[n].name);
            LessThenNotLess(s[n - 1].name, s[n].name, s[k].name);
          }
        }
      }
    }
  }

  /** After sorting, the fold emits item names in strictly ascending order, so each
      name at most once. */
  lemma GroupedAscending<T>(s: seq<Line<T>>)
    requires SortedByName(s)
    ensures StrictlyAscending(Grouped(s))
  {
    GroupedUpToAscending(s, |s|);
  }

  lemma {:induction false} RunEndAfter<T>(s: seq<Line<T>>, i: nat) returns (j: nat)
    requires i < |s|
    ensures i <= j < |s| && RunEnd(s, j) && s[j].name == s[i].name
    decreases |s| - i
  {
    if RunEnd(s, i) { j := i; } else { j := RunEndAfter(s, i + 1); }
  }

  lemma {:induction false} GroupedUpToHas<T>(s: seq<Line<T>>, j: nat, n: nat)
    requires j < n <= |s| && RunEnd(s, j)
    ensures s[j].(qty := RunTotal(s, j)) in GroupedUpTo(s, n)
  {
    if j < n - 1 { GroupedUpToHas(s, j, n - 1); }
  }

  lemma {:induction false} GroupedUpToFrom<T>(s: seq<Line<T>>, n: nat, r: Line<T>) returns (j: nat)
    requires n <= |s| && r in GroupedUpTo(s, n)
    ensures j < n && RunEnd(s, j) && r == s[j].(qty := RunTotal(s, j))
  {
    if r in GroupedUpTo(s, n - 1) { j := GroupedUpToFrom(s, n - 1, r); } else { j := n - 1; }
  }

  /** In a name-ascending sequence a line's quantity is its name's quantity. */
  lemma {:induction false} AscendingSumFor<T>(g: seq<Line<T>>, k: nat)
    requires StrictlyAscending(g) && k < |g|
    ensures SumFor(g, g[k].name) == g[k].qty
  {
    var g' := g[..|g| - 1];
    assert g == g' + [Last(g)];
    if k == |g| - 1 {
      NoneAbove(g', Last(g).name);
    } else {
      AscendingSumFor(g', k);
      LessIrreflexive(g[k].name);
      assert Less(g[k].name, Last(g).name);
    }
  }

  lemma {:induction false} NoneAbove<T>(g: seq<Line<T>>, x: string)
    requires forall i :: 0 <= i < |g| ==> Less(g[i].name, x)
    ensures SumFor(g, x) == 0
  {
    if g != [] {
      LessIrreflexive(x);
      NoneAbove(g[..|g| - 1], x);
    }
  }

  /** After sorting, every item name of the input has a line in the fold's output. */
  lemma GroupedCovers<T>(s: seq<Line<T>>, i: nat)
    requires i < |s|
    ensures exists r :: r in Grouped(s) && r.name == s[i].name
  {
    var j := RunEndAfter(s, i);
    GroupedUpToHas(s, j, |s|);
  }

  /** After sorting, every line of the fold's output names an input item and carries
      that name's whole quantity. */
  lemma GroupedRow<T>(s: seq<Line<T>>, r: Line<T>) returns (i: nat)
    requires SortedByName(s) && r in Grouped(s)
    ensures i < |s| && RunEnd(s, i) && r == s[i].(qty := r.qty)
    ensures r.qty == SumFor(s, r.name)
  {
    var g := Grouped(s);
    GroupedAscending(s);
    i := GroupedUpToFrom(s, |s|, r);
    var k :| 0 <= k < |g| && g[k] == r;
    AscendingSumFor(g, k);
    GroupedSums(s, r.name);
  }

  /** After sorting, the last line of each run in the in-place fold's array holds
      the name's whole quantity. */
  lemma RunTotalOfSorted<T>(s: seq<Line<T>>, i: nat)
    requires SortedByName(s) && i < |s| && RunEnd(s, i)
    ensures RunTotal(s, i) == SumFor(s, s[i].name)
  {
    GroupedUpToHas(s, i, |s|);
    var _ := GroupedRow(s, s[i].(qty := RunTotal(s, i)));
  }

  // ---------------------------------------------------------------------------
  // Folding twice

  lemma {:induction false} ZeroFoldRunTotal<T>(s: seq<Line<T>>, i: nat)
    requires i < |s|
    ensures RunTotal(ZeroFold(s), i) == if RunEnd(s, i) then RunTotal(s, i) else 0
  {
    if i > 0 && s[i - 1].name == s[i].name {
      ZeroFoldRunTotal(s, i - 1);
    }
  }

  /** Running the in-place fold over its own output changes nothing: quantities are
      not counted twice. */
  lemma ZeroFoldIdempotent<T>(s: seq<Line<T>>)
    ensures ZeroFold(ZeroFold(s)) == ZeroFold(s)
  {
    var z := ZeroFold(s);
    forall i | 0 <= i < |s| ensures ZeroFold(z)[i] == z[i] {
      ZeroFoldRunTotal(s, i);
      assert ZeroFold(z)[i] == ZeroLine(z, i);
    }
  }

  lemma {:induction false} GroupedUpToAscendingInput<T>(t: seq<Line<T>>, n: nat)
    requires n <= |t| && StrictlyAscending(t)
    ensures GroupedUpTo(t, n) == t[..n]
  {
    if n > 0 {
      GroupedUpToAscendingInput(t, n - 1);
      if n < |t| {
        assert Less(t[n - 1].name, t[n].name);
        LessIrreflexive(t[n - 1].name);
      }
      if n > 1 {
        assert Less(t[n - 2].name, t[n - 1].name);
        LessIrreflexive(t[n - 1].name);
      }
      assert t[..n] == t[..n - 1] + [t[n - 1]];
    }
  }

  /** Folding the report page's output again changes nothing. */
  lemma GroupedIdempotent<T>(s: seq<Line<T>>)
    requires SortedByName(s)
    ensures Grouped(Grouped(s)) == Grouped(s)
  {
    GroupedAscending(s);
    GroupedUpToAscendingInput(Grouped(s), |Grouped(s)|);
    assert Grouped(s)[..|Grouped(s)|] == Grouped(s);
  }

  // ---------------------------------------------------------------------------
  // Sorting keeps every name's quantity

  lemma {:induction false} InsertSums<T>(x: Line<T>, t: seq<Line<T>>, n: string)
    ensures SumFor(Insert(x, t, NameOf), n) == SumFor(t, n) + (if x.name == n then x.qty else 0)
    ensures Total(Insert(x, t, NameOf)) == Total(t) + x.qty
    decreases |t|
  {
    if t == [] || !Less(NameOf(x), NameOf(Last(t))) {
      SumForAppend(t, x, n);
    } else {
      var t' := t[..|t| - 1];
      InsertSums(x, t', n);
      SumForAppend(Insert(x, t', NameOf), Last(t), n);
    }
  }

  lemma {:induction false} SortByNameSums<T>(s: seq<Line<T>>, n: string)
    ensures SumFor(SortByName(s), n) == SumFor(s, n)
    ensures Total(SortByName(s)) == Total(s)
  {
    if s != [] {
      SortByNameSums(s[..|s| - 1], n);
      InsertSums(Last(s), SortByName(s[..|s| - 1]), n);
    }
  }

  /** The whole pick-report fold: sort by item name, then fold. The output lists item
      names in strictly ascending order, so each at most once. */
  lemma PickReportAscending<T>(s: seq<Line<T>>)
    ensures StrictlyAscending(Grouped(SortByName(s)))
  {
    SortByNameSorted(s);
    GroupedAscending(SortByName(s));
  }

  /** Every input line's item name has a line in the report. */
  lemma PickReportCovers<T>(s: seq<Line<T>>, l: Line<T>)
    requires l in s
    ensures exists r :: r in Grouped(SortByName(s)) && r.name == l.name
  {
    var t := SortByName(s);
    SortByNameSorted(s);
    assert l in multiset(t);
    var i :| 0 <= i < |t| && t[i] == l;
    GroupedCovers(t, i);
  }

  /** Every report line is an input line (the last of its run after sorting) with
      the item's total quantity in place of its own. */
  lemma PickReportRow<T>(s: seq<Line<T>>, r: Line<T>) returns (l: Line<T>)
    requires r in Grouped(SortByName(s))
    ensures l in s && l == r.(qty := l.qty)
    ensures r.qty == SumFor(s, r.name)
  {
    var t := SortByName(s);
    SortByNameSorted(s);
    var i := GroupedRow(t, r);
    l := t[i];
    assert l in multiset(s);
    SortByNameSums(s, r.name);
  }

  /** The report keeps the grand total. */
  lemma PickReportTotal<T>(s: seq<Line<T>>)
    ensures Total(Grouped(SortByName(s))) == Total(s)
  {
    GroupedSums(SortByName(s), "");
    SortByNameSums(s, "");
  }
}
