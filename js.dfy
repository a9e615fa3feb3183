/**
  The handful of JavaScript string and number primitives the order tool relies on,
  written out with JavaScript's own semantics: `indexOf`, `includes`, `slice`,
  `substr`, `split`, `join`, `String(n)`, `Number(s)`, `parseInt(s)`, `%` (which
  truncates toward zero) and the `<` ordering of strings.
*/
module Js {

  datatype Option<T> = None | Some(value: T)

  /** A JavaScript number as far as this tool produces them: an integer or NaN. */
  datatype JsNum = Num(n: int) | NaN

  // ---------------------------------------------------------------------------
  // Searching

  predicate OccursAt(s: string, pat: string, i: int)
  {
    0 <= i && i + |pat| <= |s| && s[i..i + |pat|] == pat
  }

  /** `s.indexOf(pat, from)`: the first occurrence at or after `from`, or -1. */
  function IndexOf(s: string, pat: string, from: nat): (r: int)
    requires pat != []
    ensures r == -1 || (from <= r && OccursAt(s, pat, r))
    ensures r != -1 ==> forall j :: from <= j < r ==> !OccursAt(s, pat, j)
    ensures r == -1 ==> forall j :: from <= j ==> !OccursAt(s, pat, j)
    decreases |s| - from
  {
    if from + |pat| > |s| then -1
    else if s[from..from + |pat|] == pat then from
    else IndexOf(s, pat, from + 1)
  }

  /** `s.includes(pat)` */
  predicate Contains(s: string, pat: string)
  {
    exists i | 0 <= i <= |s| :: OccursAt(s, pat, i)
  }

  lemma ContainsIndexOf(s: string, pat: string)
    requires pat != []
    ensures Contains(s, pat) <==> IndexOf(s, pat, 0) != -1
  {
  }

  /** An occurrence in either half is an occurrence in the whole. */
  lemma ContainsConcat(a: string, b: string, pat: string)
    ensures Contains(a, pat) ==> Contains(a + b, pat)
    ensures Contains(b, pat) ==> Contains(a + b, pat)
  {
    if Contains(a, pat) {
      var i :| 0 <= i <= |a| && OccursAt(a, pat, i);
      assert (a + b)[i..i + |pat|] == a[i..i + |pat|];
      assert OccursAt(a + b, pat, i);
    }
    if Contains(b, pat) {
      var i :| 0 <= i <= |b| && OccursAt(b, pat, i);
      assert (a + b)[|a| + i..|a| + i + |pat|] == b[i..i + |pat|];
      assert OccursAt(a + b, pat, |a| + i);
    }
  }

  /** The index found by `indexOf` is pinned down by an occurrence with no earlier
      occurrence of the pattern's first character. */
  lemma IndexOfAt(s: string, pat: string, from: nat, i: nat)
    requires pat != [] && from <= i
    requires OccursAt(s, pat, i)
    requires forall j :: from <= j < i ==> s[j] != pat[0]
    ensures IndexOf(s, pat, from) == i
  {
    var r := IndexOf(s, pat, from);
    assert r != -1 by { assert OccursAt(s, pat, i); }
    assert s[r] == pat[0] by { assert s[r..r + |pat|][0] == s[r]; }
  }

  // ---------------------------------------------------------------------------
  // Slicing

  /** How `slice` and `substr` normalise a position: negative counts from the end,
      and the result is clamped to `[0, n]`. */
  function Clamp(i: int, n: nat): (r: nat)
    ensures r <= n
    ensures 0 <= i <= n ==> r == i
  {
    if i < 0 then (if n + i < 0 then 0 else n + i) else if i > n then n else i
  }

  /** `s.slice(start, end)` */
  function Slice(s: string, start: int, end: int): (r: string)
    ensures 0 <= start <= end <= |s| ==> r == s[start..end]
  {
    var a := Clamp(start, |s|);
    var b := Clamp(end, |s|);
    if a < b then s[a..b] else []
  }

  /** `s.substr(start, length)` */
  function Substr(s: string, start: int, length: int): (r: string)
    ensures 0 <= start && 0 <= length && start + length <= |s| ==> r == s[start..start + length]
    ensures length <= 0 ==> r == []
  {
    var a := Clamp(start, |s|);
    if length <= 0 then []
    else if a + length <= |s| then s[a..a + length]
    else s[a..]
  }

  // ---------------------------------------------------------------------------
  // split / join on a one-character separator

  /** `s.split(sep)` for a one-character separator: never empty. */
  function Split(s: string, sep: char): (r: seq<string>)
    ensures |r| >= 1
    decreases |s|
  {
    if sep !in s then [s]
    else
      var i := FirstIndex(s, sep);
      [s[..i]] + Split(s[i + 1..], sep)
  }

  /** No part holds the separator. */
  lemma {:induction false} SplitParts(s: string, sep: char)
    ensures forall k :: 0 <= k < |Split(s, sep)| ==> sep !in Split(s, sep)[k]
    decreases |s|
  {
    if sep in s {
      var i := FirstIndex(s, sep);
      SplitParts(s[i + 1..], sep);
    }
  }

  function FirstIndex(s: string, c: char): (i: nat)
    requires c in s
    ensures i < |s| && s[i] == c && c !in s[..i]
  {
    if s[0] == c then 0 else 1 + FirstIndex(s[1..], c)
  }

  lemma {:induction false} FirstIndexAfter(a: string, c: char, b: string)
    requires c !in a
    ensures c in a + [c] + b && FirstIndex(a + [c] + b, c) == |a|
  {
    var s := a + [c] + b;
    assert s[|a|] == c;
    if a != [] {
      assert s[1..] == a[1..] + [c] + b;
      FirstIndexAfter(a[1..], c, b);
    }
  }

  lemma SplitCons(a: string, sep: char, b: string)
    requires sep !in a
    ensures Split(a + [sep] + b, sep) == [a] + Split(b, sep)
  {
    var s := a + [sep] + b;
    FirstIndexAfter(a, sep, b);
    assert s[..|a|] == a && s[|a| + 1..] == b;
  }

  /** A text holding the separator is the text before its first occurrence, the
      separator, and the rest. */
  lemma SplitFirst(a: string, sep: char) returns (a1: string, a2: string)
    requires sep in a
    ensures a == a1 + [sep] + a2 && sep !in a1
  {
    var i := FirstIndex(a, sep);
    a1, a2 := a[..i], a[i + 1..];
    assert a == a1 + [sep] + a2;
  }

  lemma SplitShift(a: string, sep: char, b: string, a1: string, a2: string)
    requires a == a1 + [sep] + a2 && sep !in a1
    ensures Split(a + [sep] + b, sep) == [a1] + Split(a2 + [sep] + b, sep)
    ensures Split(a, sep) == [a1] + Split(a2, sep)
  {
    var rest := a2 + [sep] + b;
    assert a + [sep] + b == a1 + [sep] + rest;
    SplitCons(a1, sep, rest);
    SplitCons(a1, sep, a2);
  }

  /** Splitting at a separator placed between two texts splits each of them. */
  lemma {:induction false} SplitConcat(a: string, sep: char, b: string)
    ensures Split(a + [sep] + b, sep) == Split(a, sep) + Split(b, sep)
    decreases |a|
  {
    if sep !in a {
      SplitCons(a, sep, b);
    } else {
      var a1, a2 := SplitFirst(a, sep);
      SplitShift(a, sep, b, a1, a2);
      calc {
        Split(a + [sep] + b, sep);
        [a1] + Split(a2 + [sep] + b, sep);
        { SplitConcat(a2, sep, b); }
        [a1] + (Split(a2, sep) + Split(b, sep));
        { Regroup([a1], Split(a2, sep), Split(b, sep)); }
        ([a1] + Split(a2, sep)) + Split(b, sep);
        Split(a, sep) + Split(b, sep);
      }
    }
  }

  /** Concatenation regrouped. */
  lemma Regroup<T>(a: seq<T>, b: seq<T>, c: seq<T>)
    ensures (a + b) + c == a + (b + c)
  {
  }

  /** `parts.join(sep)` */
  function Join(parts: seq<string>, sep: char): (r: string)
  {
    if parts == [] then []
    else if |parts| == 1 then parts[0]
    else parts[0] + [sep] + Join(parts[1..], sep)
  }

  /** Splitting undoes joining when no part holds the separator. */
  lemma {:induction false} SplitJoin(parts: seq<string>, sep: char)
    requires |parts| >= 1
    requires forall k :: 0 <= k < |parts| ==> sep !in parts[k]
    ensures Split(Join(parts, sep), sep) == parts
  {
    if |parts| > 1 {
      var rest := Join(parts[1..], sep);
      assert Join(parts, sep) == parts[0] + [sep] + rest;
      SplitJoin(parts[1..], sep);
      SplitCons(parts[0], sep, rest);
      assert parts == [parts[0]] + parts[1..];
    } else {
      assert Join(parts, sep) == parts[0];
    }
  }

  /** `s.split(sep)[k]`: `None` stands for JavaScript's `undefined`. */
  function Part(s: string, sep: char, k: nat): Option<string>
  {
    var ps := Split(s, sep);
    if k < |ps| then Some(ps[k]) else None
  }

  function Last<T>(s: seq<T>): T
    requires s != []
  {
    s[|s| - 1]
  }

  /** `xs.flatMap(f)`: the results of `f` on each element, concatenated in order. */
  function FlatMap<A, B>(xs: seq<A>, f: A -> seq<B>): seq<B>
  {
    if xs == [] then [] else FlatMap(xs[..|xs| - 1], f) + f(Last(xs))
  }

  lemma {:induction false} FlatMapAppend<A, B>(xs: seq<A>, ys: seq<A>, f: A -> seq<B>)
    ensures FlatMap(xs + ys, f) == FlatMap(xs, f) + FlatMap(ys, f)
    decreases |ys|
  {
    if ys == [] {
      assert xs + ys == xs;
    } else {
      var init := ys[..|ys| - 1];
      assert (xs + ys)[..|xs + ys| - 1] == xs + init;
      assert Last(xs + ys) == Last(ys);
      FlatMapAppend(xs, init, f);
    }
  }

  /** Each element of a flattened sequence comes from one element of the input... */
  lemma {:induction false} FlatMapSource<A, B>(xs: seq<A>, f: A -> seq<B>, y: B) returns (i: nat)
    requires y in FlatMap(xs, f)
    ensures i < |xs| && y in f(xs[i])
  {
    var init := xs[..|xs| - 1];
    if y in FlatMap(init, f) {
      i := FlatMapSource(init, f, y);
    } else {
      i := |xs| - 1;
    }
  }

  /** ...and every element of every result is in it. */
  lemma {:induction false} FlatMapHas<A, B>(xs: seq<A>, f: A -> seq<B>, i: nat, y: B)
    requires i < |xs| && y in f(xs[i])
    ensures y in FlatMap(xs, f)
  {
    var init := xs[..|xs| - 1];
    if i < |xs| - 1 {
      FlatMapHas(init, f, i, y);
    }
  }

  // ---------------------------------------------------------------------------
  // Numbers and their text

  predicate IsDigit(c: char) { '0' <= c <= '9' }

  predicate AllDigits(s: string) { forall k :: 0 <= k < |s| ==> IsDigit(s[k]) }

  function DigitChar(d: nat): char
    requires d < 10
  {
    "0123456789"[d]
  }

  /** `String(n)` for a natural number. */
  function NatText(n: nat): (r: string)
    ensures r != [] && AllDigits(r)
  {
    if n < 10 then [DigitChar(n)] else NatText(n / 10) + [DigitChar(n % 10)]
  }

  /** `String(n)` for an integer. */
  function IntText(n: int): (r: string)
  {
    if n < 0 then "-" + NatText(-n) else NatText(n)
  }

  /** Every character of `String(n)` is a digit or the minus sign. */
  lemma IntTextChars(n: int)
    ensures forall k :: 0 <= k < |IntText(n)| ==> IntText(n)[k] == '-' || IsDigit(IntText(n)[k])
  {
    if n < 0 {
      var t := NatText(-n);
      forall k | 0 <= k < |IntText(n)|
        ensures IntText(n)[k] == '-' || IsDigit(IntText(n)[k])
      {
        if k > 0 { assert IntText(n)[k] == t[k - 1]; }
      }
    }
  }

  /** `String(n)` starts with the minus sign exactly when `n` is negative. */
  lemma IntTextSign(n: int)
    ensures IntText(n)[0] == '-' <==> n < 0
  {
    if n >= 0 { assert IsDigit(NatText(n)[0]); }
  }

  /** Different integers have different texts. */
  lemma IntTextInjective(m: int, n: int)
    requires IntText(m) == IntText(n)
    ensures m == n
  {
    IntTextSign(m);
    IntTextSign(n);
    assert IntText(m)[0] == IntText(n)[0];
    if m < 0 {
      assert n < 0;
      assert NatText(-m) == IntText(m)[1..] == IntText(n)[1..] == NatText(-n);
      NatTextInjective(-m, -n);
    } else {
      assert n >= 0 && NatText(m) == NatText(n);
      NatTextInjective(m, n);
    }
  }

  lemma NatTextInjective(a: nat, b: nat)
    requires NatText(a) == NatText(b)
    ensures a == b
  {
    DecimalValueNatText(a);
    DecimalValueNatText(b);
  }

  /** `String(x)` for an integer or NaN. */
  function NumText(x: JsNum): string
  {
    match x
    case Num(n) => IntText(n)
    case NaN => "NaN"
  }

  /** The value of a string of decimal digits, the empty string counting 0. */
  function DecimalValue(s: string): (v: nat)
    requires AllDigits(s)
  {
    if s == [] then 0 else 10 * DecimalValue(s[..|s| - 1]) + (s[|s| - 1] as int - '0' as int)
  }

  lemma {:induction false} DecimalValueNatText(n: nat)
    ensures DecimalValue(NatText(n)) == n
  {
    if n >= 10 {
      DecimalValueNatText(n / 10);
      var s := NatText(n);
      assert s[..|s| - 1] == NatText(n / 10);
    }
  }

  /** Leading zeros do not change a decimal value. */
  lemma {:induction false} DecimalValueLeadingZero(s: string)
    requires AllDigits(s)
    ensures AllDigits("0" + s) && DecimalValue("0" + s) == DecimalValue(s)
  {
    if s != [] {
      var t := "0" + s;
      assert t[..|t| - 1] == "0" + s[..|s| - 1];
      DecimalValueLeadingZero(s[..|s| - 1]);
    }
  }

  function Pow10(k: nat): (p: nat)
    ensures p >= 1
  {
    if k == 0 then 1 else 10 * Pow10(k - 1)
  }

  lemma {:induction false} NatTextLength(n: nat, k: nat)
    requires n < Pow10(k)
    ensures |NatText(n)| <= k || (n == 0 && k == 0)
  {
    if n >= 10 {
      assert Pow10(0) == 1 && Pow10(1) == 10;
      NatTextLength(n / 10, k - 1);
    }
  }

  /** `s.replace(/\D/g, "")`: the digits of `s`, in order. */
  function DigitsOnly(s: string): (r: string)
    ensures AllDigits(r) && |r| <= |s|
  {
    if s == [] then []
    else (if IsDigit(s[0]) then [s[0]] else []) + DigitsOnly(s[1..])
  }

  /** `Number(s)` on the strings this tool passes it: a run of decimal digits (the
      empty string giving 0); every other string is taken as NaN. */
  function NumberOf(s: string): (x: JsNum)
    ensures AllDigits(s) ==> x == Num(DecimalValue(s))
    ensures !AllDigits(s) ==> x == NaN
  {
    if AllDigits(s) then Num(DecimalValue(s)) else NaN
  }

  /** `a % b` with JavaScript's sign rule: the remainder takes the sign of `a`. */
  function JsRem(a: int, b: int): (r: int)
    requires b > 0
    ensures a >= 0 ==> 0 <= r < b
    ensures a < 0 ==> -b < r <= 0
  {
    if a >= 0 then a % b else -((-a) % b)
  }

  /** The white space and line terminators `parseInt` skips: tab, line feed, vertical
      tab, form feed, carriage return, the byte order mark, the line and paragraph
      separators, and the space separators of Unicode (space, no-break space,
      U+1680, U+2000 to U+200A, U+202F, U+205F, U+3000). */
  predicate IsSpace(c: char)
  {
    c == '\t' || c == '\n' || c == '\U{B}' || c == '\U{C}' || c == '\r' || c == '\U{FEFF}'
    || c == '\U{2028}' || c == '\U{2029}'
    || c == ' ' || c == '\U{A0}' || c == '\U{1680}' || '\U{2000}' <= c <= '\U{200A}'
    || c == '\U{202F}' || c == '\U{205F}' || c == '\U{3000}'
  }

  function TrimStart(s: string): (r: string)
    ensures |r| <= |s| && (r != [] ==> !IsSpace(r[0]))
  {
    if s != [] && IsSpace(s[0]) then TrimStart(s[1..]) else s
  }

  function DigitPrefix(s: string): (r: string)
    ensures AllDigits(r) && |r| <= |s| && r == s[..|r|]
    ensures |r| < |s| ==> !IsDigit(s[|r|])
  {
    if s != [] && IsDigit(s[0]) then [s[0]] + DigitPrefix(s[1..]) else []
  }

  /** `parseInt(s)` in base ten: leading white space, an optional sign, then the
      longest run of digits; `None` is NaN (no digits at all). */
  function ParseInt(s: string): (r: Option<int>)
  {
    var t := TrimStart(s);
    var neg := t != [] && t[0] == '-';
    var body := if t != [] && (t[0] == '-' || t[0] == '+') then t[1..] else t;
    var ds := DigitPrefix(body);
    if ds == [] then None
    else
      var v: int := DecimalValue(ds);
      Some(if neg then -v else v)
  }

  lemma {:induction false} ParseIntNatText(n: nat)
    ensures ParseInt(NatText(n)) == Some(n)
  {
    var s := NatText(n);
    assert TrimStart(s) == s;
    DigitPrefixAll(s);
    DecimalValueNatText(n);
  }

  lemma {:induction false} DigitPrefixAll(s: string)
    requires AllDigits(s)
    ensures DigitPrefix(s) == s
  {
    if s != [] { DigitPrefixAll(s[1..]); }
  }

  // ---------------------------------------------------------------------------
  // The `<` ordering on strings, character by character

  /** `a < b` on strings. JavaScript compares UTF-16 code units; comparing
      characters gives the same order on texts without characters past U+FFFF. */
  predicate Less(a: string, b: string)
  {
    if a == [] then b != []
    else if b == [] then false
    else if a[0] != b[0] then a[0] < b[0]
    else Less(a[1..], b[1..])
  }

  lemma {:induction false} LessIrreflexive(a: string)
    ensures !Less(a, a)
  {
    if a != [] { LessIrreflexive(a[1..]); }
  }

  lemma {:induction false} LessTransitive(a: string, b: string, c: string)
    requires Less(a, b) && Less(b, c)
    ensures Less(a, c)
  {
    if a != [] && b != [] && c != [] && a[0] == b[0] && b[0] == c[0] {
      LessTransitive(a[1..], b[1..], c[1..]);
    }
  }

  lemma {:induction false} LessTotal(a: string, b: string)
    ensures a == b || Less(a, b) || Less(b, a)
  {
    if a != [] && b != [] && a[0] == b[0] {
      LessTotal(a[1..], b[1..]);
      if a[1..] == b[1..] { assert a == [a[0]] + a[1..] && b == [b[0]] + b[1..]; }
    }
  }

  lemma {:induction false} LessAsymmetric(a: string, b: string)
    requires Less(a, b)
    ensures !Less(b, a)
  {
    if a != [] && b != [] && a[0] == b[0] {
      LessAsymmetric(a[1..], b[1..]);
    }
  }
}
