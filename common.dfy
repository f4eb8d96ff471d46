/** Small helpers shared by every module: an Option type, the ASCII part of
    JavaScript's string functions (toLowerCase, toUpperCase, trim, startsWith,
    includes, parseInt), decimal formatting and the character order that
    `Array.prototype.sort` and ISO date strings rely on, taken over code
    points (JavaScript compares UTF-16 code units; the two orders agree on
    text without characters beyond U+FFFF). */
module Common {

  datatype Option<T> = None | Some(value: T) {
    /** `x ?? d` in the source. */
    function GetOr(d: T): T {
      match this
      case Some(v) => v
      case None => d
    }
  }

  /** The outcome of a call that can throw: a value, or the error it threw. */
  datatype Result<T> = Ok(value: T) | Err(error: string)

  // ---------------------------------------------------------------------------
  // Characters and case

  predicate IsAsciiUpper(c: char) { 'A' <= c <= 'Z' }
  predicate IsAsciiLower(c: char) { 'a' <= c <= 'z' }
  predicate IsDigit(c: char) { '0' <= c <= '9' }
  predicate IsAsciiAlnum(c: char) { IsAsciiUpper(c) || IsAsciiLower(c) || IsDigit(c) }

  function LowerChar(c: char): char {
    if IsAsciiUpper(c) then (c as int + 32) as char else c
  }

  function UpperChar(c: char): char {
    if IsAsciiLower(c) then (c as int - 32) as char else c
  }

  /** `s.toLowerCase()`, restricted to the ASCII letters. */
  function ToLower(s: string): string {
    seq(|s|, i requires 0 <= i < |s| => LowerChar(s[i]))
  }

  /** `s.toUpperCase()`, restricted to the ASCII letters. */
  function ToUpper(s: string): string {
    seq(|s|, i requires 0 <= i < |s| => UpperChar(s[i]))
  }

  /** The characters `String.prototype.trim` removes (WhiteSpace and
      LineTerminator of ECMAScript, section 12.2 and 12.3). */
  predicate IsJsSpace(c: char) {
    c == ' ' || c == '\t' || c == '\n' || c == '\r' || c == '\U{000B}' || c == '\U{000C}'
    || c == '\U{00A0}' || c == '\U{FEFF}' || c == '\U{1680}' || ('\U{2000}' <= c <= '\U{200A}')
    || c == '\U{2028}' || c == '\U{2029}' || c == '\U{202F}' || c == '\U{205F}' || c == '\U{3000}'
  }

  function TrimStart(s: string): string {
    if |s| > 0 && IsJsSpace(s[0]) then TrimStart(s[1..]) else s
  }

  function TrimEnd(s: string): string {
    if |s| > 0 && IsJsSpace(s[|s| - 1]) then TrimEnd(s[..|s| - 1]) else s
  }

  /** `s.trim()`. */
  function Trim(s: string): string { TrimEnd(TrimStart(s)) }

  predicate StartsWith(s: string, prefix: string) {
    |prefix| <= |s| && s[..|prefix|] == prefix
  }

  lemma StartsWithAppend(a: string, b: string)
    ensures StartsWith(a + b, a)
  {
    assert (a + b)[..|a|] == a;
  }

  lemma StartsWithExtend(a: string, b: string, p: string)
    requires StartsWith(a, p)
    ensures StartsWith(a + b, p)
  {
    assert (a + b)[..|p|] == a[..|p|];
  }

  predicate EndsWith(s: string, suffix: string) {
    |suffix| <= |s| && s[|s| - |suffix|..] == suffix
  }

  /** `s.includes(q)`. */
  predicate Contains(s: string, q: string) {
    exists i :: 0 <= i <= |s| - |q| && MatchAt(s, q, i)
  }

  predicate MatchAt(s: string, q: string, i: int)
    requires 0 <= i <= |s| - |q|
  {
    s[i..i + |q|] == q
  }

  // ---------------------------------------------------------------------------
  // Numbers as text

  function DigitChar(d: nat): char
    requires d < 10
  {
    ('0' as int + d) as char
  }

  /** `n.toString()` for a natural number. */
  function NatToString(n: nat): (r: string)
    ensures |r| >= 1
    ensures forall i :: 0 <= i < |r| ==> IsDigit(r[i])
  {
    if n < 10 then [DigitChar(n)] else NatToString(n / 10) + [DigitChar(n % 10)]
  }

  function Pow10(k: nat): (r: nat)
    ensures r >= 1
  {
    if k == 0 then 1 else 10 * Pow10(k - 1)
  }

  /** A number with k + 1 decimal digits prints as k + 1 characters. */
  lemma {:induction false} NatToStringLength(n: nat, k: nat)
    requires Pow10(k) <= n < 10 * Pow10(k)
    ensures |NatToString(n)| == k + 1
  {
    if k > 0 {
      var p := Pow10(k - 1);
      assert 10 * p <= n < 100 * p;
      assert p <= n / 10 < 10 * p;
      NatToStringLength(n / 10, k - 1);
    }
  }

  /** `n.toString()` for an integer. */
  function IntToString(n: int): string {
    if n < 0 then "-" + NatToString(-n) else NatToString(n)
  }

  /** `String(n).padStart(2, '0')` for a natural number. */
  function Pad2(n: nat): string {
    if n < 10 then "0" + NatToString(n) else NatToString(n)
  }

  /** Value of a character as a digit of the given radix (10 or 16). */
  function DigitValue(c: char, radix: nat): Option<nat> {
    if IsDigit(c) then Some(c as int - '0' as int)
    else if radix == 16 && 'a' <= c <= 'f' then Some(c as int - 'a' as int + 10)
    else if radix == 16 && 'A' <= c <= 'F' then Some(c as int - 'A' as int + 10)
    else None
  }

  /** Length of the longest prefix of `s` made of digits of `radix`. */
  function DigitRun(s: string, radix: nat): (n: nat)
    ensures n <= |s|
  {
    if |s| > 0 && DigitValue(s[0], radix).Some? then 1 + DigitRun(s[1..], radix) else 0
  }

  /** Value of a string made only of digits of `radix`. */
  function DigitsValue(s: string, radix: nat): nat
    requires forall i :: 0 <= i < |s| ==> DigitValue(s[i], radix).Some?
  {
    if |s| == 0 then 0
    else DigitsValue(s[..|s| - 1], radix) * radix + DigitValue(s[|s| - 1], radix).value
  }

  /** `parseInt(s)` without a radix: leading white space is skipped, then an
      optional sign, then a "0x"/"0X" prefix selects base 16; the longest run of
      digits is read and the rest ignored. `None` is `NaN` (no digit at all). */
  function ParseInt(s: string): Option<int> {
    var t := TrimStart(s);
    var neg := |t| > 0 && t[0] == '-';
    var u := if |t| > 0 && (t[0] == '-' || t[0] == '+') then t[1..] else t;
    var hex := |u| >= 2 && u[0] == '0' && (u[1] == 'x' || u[1] == 'X');
    var radix := if hex then 16 else 10;
    var body := if hex then u[2..] else u;
    var n := DigitRun(body, radix);
    if n == 0 then None
    else
      assert forall i :: 0 <= i < n ==> DigitValue(body[..n][i], radix).Some? by {
        DigitRunIsDigits(body, radix);
      }
      var v := DigitsValue(body[..n], radix);
      var r: int := if neg then 0 - v as int else v;
      Some(r)
  }

  /** `Number(s)` for text that holds an integer: surrounding white space is
      ignored, empty text is 0, an optional sign may precede decimal digits;
      anything else is `NaN` (`None`). */
  function JsNumber(s: string): Option<int> {
    var t := Trim(s);
    if |t| == 0 then Some(0)
    else
      var u := if t[0] == '-' || t[0] == '+' then t[1..] else t;
      if |u| == 0 || DigitRun(u, 10) != |u| then None
      else
        assert forall i :: 0 <= i < |u| ==> DigitValue(u[i], 10).Some? by {
          DigitRunIsDigits(u, 10);
        }
        var v := DigitsValue(u, 10);
        Some(if t[0] == '-' then 0 - v else v)
  }

  lemma {:induction false} DigitRunIsDigits(s: string, radix: nat)
    ensures forall i :: 0 <= i < DigitRun(s, radix) ==> DigitValue(s[i], radix).Some?
  {
    if |s| > 0 && DigitValue(s[0], radix).Some? {
      DigitRunIsDigits(s[1..], radix);
    }
  }

  // ---------------------------------------------------------------------------
  // Lexicographic order on strings by code point (the default comparison of
  // `Array.prototype.sort` on BMP text, and the order of zero-padded ISO dates
  // and times)

  predicate LexLess(a: string, b: string) {
    if |a| == 0 then |b| > 0
    else if |b| == 0 then false
    else if a[0] != b[0] then a[0] < b[0]
    else LexLess(a[1..], b[1..])
  }

  predicate LexLessEq(a: string, b: string) { a == b || LexLess(a, b) }

  lemma {:induction false} LexLessIrreflexive(a: string)
    ensures !LexLess(a, a)
  {
    if |a| > 0 { LexLessIrreflexive(a[1..]); }
  }

  lemma {:induction false} LexLessTransitive(a: string, b: string, c: string)
    requires LexLess(a, b) && LexLess(b, c)
    ensures LexLess(a, c)
  {
    if |a| > 0 && |b| > 0 && |c| > 0 && a[0] == b[0] && b[0] == c[0] {
      LexLessTransitive(a[1..], b[1..], c[1..]);
    }
  }

  lemma {:induction false} LexLessTotal(a: string, b: string)
    ensures a == b || LexLess(a, b) || LexLess(b, a)
  {
    if |a| > 0 && |b| > 0 && a[0] == b[0] {
      LexLessTotal(a[1..], b[1..]);
      if a[1..] == b[1..] {
        assert a == [a[0]] + a[1..] && b == [b[0]] + b[1..];
      }
    }
  }

  lemma {:induction false} LexLessAsymmetric(a: string, b: string)
    requires LexLess(a, b)
    ensures !LexLess(b, a)
  {
    if |a| > 0 && |b| > 0 && a[0] == b[0] {
      LexLessAsymmetric(a[1..], b[1..]);
    }
  }

  // ---------------------------------------------------------------------------
  // Sequences

  /** `xs.slice(0, n)`. */
  function Take<T>(xs: seq<T>, n: nat): (r: seq<T>)
    ensures |r| == if |xs| < n then |xs| else n
    ensures r == xs[..|r|]
  {
    if |xs| <= n then xs else xs[..n]
  }

  /** `xs.filter(p)`. */
  function Filter<T>(xs: seq<T>, p: T -> bool): (r: seq<T>)
    ensures |r| <= |xs|
    ensures forall x :: x in r ==> x in xs && p(x)
  {
    if |xs| == 0 then []
    else if p(xs[|xs| - 1]) then Filter(xs[..|xs| - 1], p) + [xs[|xs| - 1]]
    else Filter(xs[..|xs| - 1], p)
  }

  lemma {:induction false} FilterKeeps<T>(xs: seq<T>, p: T -> bool, x: T)
    requires x in xs && p(x)
    ensures x in Filter(xs, p)
  {
    if xs[|xs| - 1] != x {
      assert x in xs[..|xs| - 1];
      FilterKeeps(xs[..|xs| - 1], p, x);
    }
  }

  function Count<T>(xs: seq<T>, p: T -> bool): nat {
    if |xs| == 0 then 0
    else Count(xs[..|xs| - 1], p) + (if p(xs[|xs| - 1]) then 1 else 0)
  }

  lemma {:induction false} CountAppend<T>(xs: seq<T>, ys: seq<T>, p: T -> bool)
    ensures Count(xs + ys, p) == Count(xs, p) + Count(ys, p)
  {
    if |ys| > 0 {
      assert (xs + ys)[..|xs + ys| - 1] == xs + ys[..|ys| - 1];
      CountAppend(xs, ys[..|ys| - 1], p);
    } else {
      assert xs + ys == xs;
    }
  }

  lemma {:induction false} FilterCount<T>(xs: seq<T>, p: T -> bool)
    ensures |Filter(xs, p)| == Count(xs, p)
  {
    if |xs| > 0 { FilterCount(xs[..|xs| - 1], p); }
  }

  // ---------------------------------------------------------------------------
  // split / join

  /** Index of the first occurrence of `c` in `s`. */
  function FirstIndex(s: string, c: char): (i: nat)
    requires c in s
    ensures i < |s| && s[i] == c && c !in s[..i]
  {
    if s[0] == c then 0 else 1 + FirstIndex(s[1..], c)
  }

  /** `s.split(c)` for a one-character separator: always at least one part,
      and no part contains the separator. */
  function SplitOn(s: string, c: char): (r: seq<string>)
    ensures |r| >= 1
    ensures forall k :: 0 <= k < |r| ==> c !in r[k]
  {
    if c !in s then [s]
    else
      var i := FirstIndex(s, c);
      [s[..i]] + SplitOn(s[i + 1..], c)
  }

  /** `parts.join(sep)`. */
  function JoinWith(parts: seq<string>, sep: string): string {
    if |parts| == 0 then ""
    else if |parts| == 1 then parts[0]
    else parts[0] + sep + JoinWith(parts[1..], sep)
  }

  /** Splitting and joining again on the same separator gives the input back. */
  lemma {:induction false} SplitJoin(s: string, c: char)
    ensures JoinWith(SplitOn(s, c), [c]) == s
  {
    if c in s {
      var i := FirstIndex(s, c);
      var rest := SplitOn(s[i + 1..], c);
      var parts := [s[..i]] + rest;
      assert parts[0] == s[..i] && parts[1..] == rest && |parts| >= 2;
      assert JoinWith(parts, [c]) == s[..i] + [c] + JoinWith(rest, [c]);
      SplitJoin(s[i + 1..], c);
      assert s == s[..i] + [c] + s[i + 1..];
    }
  }

  // ---------------------------------------------------------------------------
  // Stable sorting by a "comes before" relation

  /** `less` is a strict order (asymmetric and transitive). */
  ghost predicate StrictOrder<T(!new)>(less: (T, T) -> bool) {
    (forall a, b :: less(a, b) ==> !less(b, a))
    && (forall a, b, c :: less(a, b) && less(b, c) ==> less(a, c))
  }

  /** No element is strictly before an element to its left. */
  ghost predicate SortedBy<T>(s: seq<T>, less: (T, T) -> bool) {
    forall i, j :: 0 <= i < j < |s| ==> !less(s[j], s[i])
  }

  /** Puts `x` after every element it is not strictly before. */
  function InsertBy<T>(x: T, s: seq<T>, less: (T, T) -> bool): (r: seq<T>)
    ensures multiset(r) == multiset(s) + multiset{x}
    ensures |r| == |s| + 1
  {
    if |s| == 0 then [x]
    else if less(x, s[0]) then [x] + s
    else
      assert s == [s[0]] + s[1..];
      [s[0]] + InsertBy(x, s[1..], less)
  }

  /** `xs.sort(cmp)` with a stable sort (ECMAScript 2019): elements that
      compare equal keep their order. */
  function SortBy<T>(xs: seq<T>, less: (T, T) -> bool): (r: seq<T>)
    ensures multiset(r) == multiset(xs)
    ensures |r| == |xs|
  {
    if |xs| == 0 then []
    else
      assert xs == xs[..|xs| - 1] + [xs[|xs| - 1]];
      InsertBy(xs[|xs| - 1], SortBy(xs[..|xs| - 1], less), less)
  }

  lemma {:induction false} InsertBySorted<T(!new)>(x: T, s: seq<T>, less: (T, T) -> bool)
    requires StrictOrder(less) && SortedBy(s, less)
    ensures SortedBy(InsertBy(x, s, less), less)
  {
    if |s| > 0 && !less(x, s[0]) {
      InsertBySorted(x, s[1..], less);
      var t := InsertBy(x, s[1..], less);
      var r := [s[0]] + t;
      forall i, j | 0 <= i < j < |r| ensures !less(r[j], r[i]) {
        if i == 0 {
          assert r[j] in multiset(t);
          assert r[j] in multiset(s[1..]) + multiset{x};
          if r[j] != x {
            var k :| 0 <= k < |s[1..]| && s[1..][k] == r[j];
            assert s[k + 1] == r[j];
          }
        }
      }
    } else if |s| > 0 {
      var r := [x] + s;
      forall i, j | 0 <= i < j < |r| ensures !less(r[j], r[i]) {
        if i == 0 {
          assert r[j] == s[j - 1];
        }
      }
    }
  }

  /** The result of `SortBy` is ordered whenever `less` is a strict order. */
  lemma {:induction false} SortBySorted<T(!new)>(xs: seq<T>, less: (T, T) -> bool)
    requires StrictOrder(less)
    ensures SortedBy(SortBy(xs, less), less)
  {
    if |xs| > 0 {
      SortBySorted(xs[..|xs| - 1], less);
      InsertBySorted(xs[|xs| - 1], SortBy(xs[..|xs| - 1], less), less);
    }
  }

  // ---------------------------------------------------------------------------
  // Queries

  /** `select … where p order by less limit n` over the rows of a table;
      rows that tie keep their table order. */
  function SelectOrdered<T>(rows: seq<T>, p: T -> bool, less: (T, T) -> bool, limit: nat): seq<T> {
    Take(SortBy(Filter(rows, p), less), limit)
  }

  /** A query returns only matching rows of the table, in order, and as many
      as match up to the limit. */
  lemma SelectOrderedSpec<T(!new)>(rows: seq<T>, p: T -> bool, less: (T, T) -> bool, limit: nat)
    requires StrictOrder(less)
    ensures var r := SelectOrdered(rows, p, less, limit);
      && |r| == (if Count(rows, p) < limit then Count(rows, p) else limit)
      && (forall i :: 0 <= i < |r| ==> r[i] in rows && p(r[i]))
      && SortedBy(r, less)
  {
    var f := Filter(rows, p);
    var sorted := SortBy(f, less);
    var r := Take(sorted, limit);
    FilterCount(rows, p);
    SortBySorted(f, less);
    forall i | 0 <= i < |r|
      ensures r[i] in rows && p(r[i])
    {
      assert r[i] == sorted[i];
      assert sorted[i] in multiset(sorted);
      assert sorted[i] in multiset(f);
    }
  }

  /** `… order by less limit 1`: a row comes back exactly when one matches,
      and no matching row is strictly before it. */
  lemma SelectFirst<T(!new)>(rows: seq<T>, p: T -> bool, less: (T, T) -> bool)
    requires StrictOrder(less)
    ensures var r := SelectOrdered(rows, p, less, 1);
      && |r| <= 1
      && (|r| == 1 <==> exists x :: x in rows && p(x))
      && (|r| == 1 ==> r[0] in rows && p(r[0]) && forall x :: x in rows && p(x) ==> !less(x, r[0]))
  {
    SelectOrderedSpec(rows, p, less, 1);
    FilterCount(rows, p);
    var f := Filter(rows, p);
    var sorted := SortBy(f, less);
    SortBySorted(f, less);
    if exists x :: x in rows && p(x) {
      var x :| x in rows && p(x);
      FilterKeeps(rows, p, x);
      forall y | y in rows && p(y)
        ensures !less(y, sorted[0])
      {
        FilterKeeps(rows, p, y);
        assert y in multiset(sorted);
        var k :| 0 <= k < |sorted| && sorted[k] == y;
      }
    }
  }

  /** Chronological order of `YYYY-MM-DD` dates and `HH:MM[:SS]` times held
      as text: by date, then by time. */
  predicate DateTimeBefore(d1: string, t1: string, d2: string, t2: string) {
    LexLess(d1, d2) || (d1 == d2 && LexLess(t1, t2))
  }

  lemma DateTimeBeforeAsymmetric(d1: string, t1: string, d2: string, t2: string)
    requires DateTimeBefore(d1, t1, d2, t2)
    ensures !DateTimeBefore(d2, t2, d1, t1)
  {
    LexLessIrreflexive(d1);
    if LexLess(d1, d2) {
      LexLessAsymmetric(d1, d2);
    } else {
      LexLessAsymmetric(t1, t2);
    }
  }

  lemma DateTimeBeforeTransitive(d1: string, t1: string, d2: string, t2: string, d3: string, t3: string)
    requires DateTimeBefore(d1, t1, d2, t2) && DateTimeBefore(d2, t2, d3, t3)
    ensures DateTimeBefore(d1, t1, d3, t3)
  {
    if LexLess(d1, d2) && LexLess(d2, d3) {
      LexLessTransitive(d1, d2, d3);
    } else if d1 == d2 && d2 == d3 {
      LexLessTransitive(t1, t2, t3);
    }
  }

  // ---------------------------------------------------------------------------
  // Grids and sums

  /** `t` is `m`, `m + d`, `m + 2d`, … */
  ghost predicate OnGrid(t: int, m: int, d: int) {
    exists j: nat :: t == m + j * d
  }

  /** The grid from `m` is `m` followed by the grid from `m + d`. */
  lemma OnGridStep(t: int, m: int, d: int)
    ensures OnGrid(t, m, d) <==> t == m || OnGrid(t, m + d, d)
  {
    if t == m {
      assert t == m + 0 * d;
    }
    if OnGrid(t, m + d, d) {
      var j: nat :| t == m + d + j * d;
      assert t == m + (j + 1) * d;
    }
    if OnGrid(t, m, d) && t != m {
      var j: nat :| t == m + j * d;
      assert j != 0;
      assert t == m + d + (j - 1) * d;
    }
  }

  /** `xs.reduce((s, x) => s + f(x), 0)`. */
  function SumOf<T>(xs: seq<T>, f: T -> int): int {
    if |xs| == 0 then 0 else SumOf(xs[..|xs| - 1], f) + f(xs[|xs| - 1])
  }

  lemma {:induction false} SumOfAppend<T>(xs: seq<T>, ys: seq<T>, f: T -> int)
    ensures SumOf(xs + ys, f) == SumOf(xs, f) + SumOf(ys, f)
  {
    if |ys| > 0 {
      assert (xs + ys)[..|xs + ys| - 1] == xs + ys[..|ys| - 1];
      SumOfAppend(xs, ys[..|ys| - 1], f);
    } else {
      assert xs + ys == xs;
    }
  }

  // ---------------------------------------------------------------------------
  // Substrings

  lemma ContainsMiddle(a: string, q: string, b: string)
    ensures Contains(a + q + b, q)
  {
    assert MatchAt(a + q + b, q, |a|);
  }

  lemma ContainsPrefix(q: string, b: string)
    ensures Contains(q + b, q)
  {
    assert MatchAt(q + b, q, 0);
  }

  lemma ContainsSuffix(a: string, q: string)
    ensures Contains(a + q, q)
  {
    assert MatchAt(a + q, q, |a|);
  }

  lemma ContainsTransitive(s: string, t: string, q: string)
    requires Contains(s, t) && Contains(t, q)
    ensures Contains(s, q)
  {
    var i :| 0 <= i <= |s| - |t| && MatchAt(s, t, i);
    var j :| 0 <= j <= |t| - |q| && MatchAt(t, q, j);
    assert t == s[i..i + |t|];
    var x, y := s[i + j..i + j + |q|], t[j..j + |q|];
    forall k | 0 <= k < |q|
      ensures x[k] == y[k]
    {
      assert t[j + k] == s[i..i + |t|][j + k];
    }
    assert x == y;
    assert MatchAt(s, q, i + j);
  }

  lemma ContainsExtend(a: string, b: string, q: string)
    requires Contains(a, q)
    ensures Contains(a + b, q) && Contains(b + a, q)
  {
    var i :| 0 <= i <= |a| - |q| && MatchAt(a, q, i);
    assert (a + b)[i..i + |q|] == a[i..i + |q|];
    assert MatchAt(a + b, q, i);
    assert (b + a)[|b| + i..|b| + i + |q|] == a[i..i + |q|];
    assert MatchAt(b + a, q, |b| + i);
  }
}
