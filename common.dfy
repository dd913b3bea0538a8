/** Shared vocabulary of the model: optional values and results, JavaScript's
    rounding of a ratio, and the handful of JavaScript string operations the
    application relies on (whitespace, trim, lower-casing, `includes`, `join`,
    number-to-string and `parseInt`). */
module Common {

  datatype Option<+T> = None | Some(value: T)

  /** A call that either yields a value or fails with one of the source's error messages. */
  datatype Result<+T, +E> = Success(value: T) | Failure(error: E)

  // ------------------------------------------------------------------
  // Arithmetic
  // ------------------------------------------------------------------

  lemma MulMono(w: int, x: int, y: int)
    requires w > 0
    ensures x >= y ==> w * x >= w * y
  {
    if x >= y {
      assert w * x - w * y == w * (x - y);
    }
  }

  /** `Math.round(a / b)` for a positive divisor: the nearest integer to a/b,
      a half rounded towards +infinity. */
  function RoundDiv(a: int, b: int): (r: int)
    requires b > 0
    ensures 2 * b * r <= 2 * a + b < 2 * b * (r + 1)
  {
    var x, d := 2 * a + b, 2 * b;
    assert x == d * (x / d) + x % d;
    x / d
  }

  /** An average of values in 0..hi, rounded, stays in 0..hi. */
  lemma RoundDivWithin(a: int, b: int, hi: int)
    requires b > 0 && 0 <= a <= hi * b
    ensures 0 <= RoundDiv(a, b) <= hi
  {
    var r := RoundDiv(a, b);
    MulMono(2 * b, r, hi + 1);
    MulMono(2 * b, 0, r + 1);
    assert 2 * b * (hi + 1) == 2 * hi * b + 2 * b;
  }

  lemma PercentBounds(part: int, whole: int, r: int)
    requires whole > 0
    requires 2 * whole * r <= 200 * part + whole < 2 * whole * (r + 1)
    ensures 0 <= part <= whole ==> 0 <= r <= 100
    ensures part == 0 ==> r == 0
    ensures part == whole ==> r == 100
  {
    if 0 <= part <= whole {
      MulMono(2 * whole, r, 101);
      MulMono(2 * whole, -1, r + 1);
    }
    if part == 0 {
      MulMono(2 * whole, r, 1);
    }
    if part == whole {
      MulMono(2 * whole, 99, r + 1);
    }
  }

  /** `Math.round((part / whole) * 100)`, a percentage rounded to an integer. */
  function Percent(part: int, whole: int): (r: int)
    requires whole > 0
    ensures 0 <= part <= whole ==> 0 <= r <= 100
    ensures part == 0 ==> r == 0
    ensures part == whole ==> r == 100
  {
    var r := RoundDiv(100 * part, whole);
    PercentBounds(part, whole, r);
    r
  }

  /** The same percentage when the divisor may be zero: JavaScript then
      computes NaN, shown here as None. */
  function PercentOrNaN(part: int, whole: int): (r: Option<int>)
    requires whole >= 0
    ensures r.None? <==> whole == 0
    ensures whole > 0 && 0 <= part <= whole ==> 0 <= r.value <= 100
  {
    if whole == 0 then None else Some(Percent(part, whole))
  }

  // ------------------------------------------------------------------
  // Characters and strings
  // ------------------------------------------------------------------

  /** The characters of JavaScript's `\s` class, which are also the ones
      `String.prototype.trim` and `parseInt` skip (white space and line
      terminators of ECMAScript). */
  predicate IsJsSpace(c: char) {
    c == ' ' || c == '\t' || c == '\n' || c == '\r' || c == '\U{000B}' || c == '\U{000C}'
    || c == '\U{00A0}' || c == '\U{1680}' || ('\U{2000}' <= c <= '\U{200A}')
    || c == '\U{2028}' || c == '\U{2029}' || c == '\U{202F}' || c == '\U{205F}'
    || c == '\U{3000}' || c == '\U{FEFF}'
  }

  /** Every character of `s` from `lo` up to `hi` is white space. */
  predicate SpaceBetween(s: string, lo: int, hi: int)
    requires 0 <= lo <= hi <= |s|
  {
    forall i :: lo <= i < hi ==> IsJsSpace(s[i])
  }

  /** Drops leading white space. */
  function TrimStart(s: string): (r: string)
    ensures |r| <= |s| && r == s[|s| - |r|..]
    ensures SpaceBetween(s, 0, |s| - |r|)
    ensures r == [] || !IsJsSpace(r[0])
    decreases |s|
  {
    if |s| > 0 && IsJsSpace(s[0]) then
      var r := TrimStart(s[1..]);
      assert s[1..][|s| - 1 - |r|..] == s[|s| - |r|..];
      r
    else s
  }

  /** Drops trailing white space. */
  function TrimEnd(s: string): (r: string)
    ensures |r| <= |s| && r == s[..|r|]
    ensures SpaceBetween(s, |r|, |s|)
    ensures r == [] || !IsJsSpace(r[|r| - 1])
    decreases |s|
  {
    if |s| > 0 && IsJsSpace(s[|s| - 1]) then
      var r := TrimEnd(s[..|s| - 1]);
      assert s[..|s| - 1][..|r|] == s[..|r|];
      r
    else s
  }

  /** `String.prototype.trim`: white space removed at both ends. */
  function Trim(s: string): (r: string)
    ensures |r| <= |s|
    ensures r == [] || (!IsJsSpace(r[0]) && !IsJsSpace(r[|r| - 1]))
  {
    TrimEnd(TrimStart(s))
  }

  /** The trimmed text is the infix of `s` starting at `i`, with only white
      space before and after it. */
  lemma TrimIsInfix(s: string) returns (i: int)
    ensures 0 <= i <= |s| - |Trim(s)| && s[i..i + |Trim(s)|] == Trim(s)
    ensures SpaceBetween(s, 0, i) && SpaceBetween(s, i + |Trim(s)|, |s|)
  {
    var t := TrimStart(s);
    var r := TrimEnd(t);
    i := |s| - |t|;
    assert r == Trim(s);
    assert t == s[i..] && r == t[..|r|];
    assert s[i..][..|r|] == s[i..i + |r|];
    forall j | i + |r| <= j < |s|
      ensures IsJsSpace(s[j])
    {
      assert s[j] == t[j - i];
    }
  }

  lemma TrimOfNonSpaceEnds(s: string)
    requires s != [] && !IsJsSpace(s[0]) && !IsJsSpace(s[|s| - 1])
    ensures Trim(s) == s
  {
  }

  /** Lower-cases one character (ASCII letters only). */
  function LowerChar(c: char): (r: char)
    ensures !('A' <= r <= 'Z')
  {
    if 'A' <= c <= 'Z' then (c as int + 32) as char else c
  }

  /** Upper-cases one character (ASCII letters only). */
  function UpperChar(c: char): (r: char)
    ensures !('a' <= r <= 'z')
  {
    if 'a' <= c <= 'z' then (c as int - 32) as char else c
  }

  /** `String.prototype.toLowerCase`, on ASCII letters. */
  function Lower(s: string): (r: string)
    ensures |r| == |s|
    ensures forall i :: 0 <= i < |s| ==> r[i] == LowerChar(s[i])
  {
    seq(|s|, i requires 0 <= i < |s| => LowerChar(s[i]))
  }

  /** Lower-casing twice is lower-casing once. */
  lemma LowerIdempotent(s: string)
    ensures Lower(Lower(s)) == Lower(s)
  {
  }

  /** Lower-casing distributes over concatenation. */
  lemma LowerConcat(a: string, b: string)
    ensures Lower(a + b) == Lower(a) + Lower(b)
  {
    assert forall i :: 0 <= i < |a + b| ==> Lower(a + b)[i] == (Lower(a) + Lower(b))[i];
  }

  /** `String.prototype.length`: the number of UTF-16 code units, in which
      a character outside the Basic Multilingual Plane takes two. */
  function Utf16Length(s: string): (n: nat)
    ensures |s| <= n <= 2 * |s|
    ensures n == 0 <==> s == ""
    ensures (forall i :: 0 <= i < |s| ==> (s[i] as int) < 0x1_0000) ==> n == |s|
  {
    if |s| == 0 then 0
    else Utf16Length(s[..|s| - 1]) + (if s[|s| - 1] as int >= 0x1_0000 then 2 else 1)
  }

  /** Code units add up over concatenation. */
  lemma {:induction false} Utf16LengthConcat(a: string, b: string)
    ensures Utf16Length(a + b) == Utf16Length(a) + Utf16Length(b)
    decreases |b|
  {
    if |b| > 0 {
      assert (a + b)[..|a + b| - 1] == a + b[..|b| - 1];
      Utf16LengthConcat(a, b[..|b| - 1]);
    } else {
      assert a + b == a;
    }
  }

  /** One emoji is two code units. */
  lemma AstralCharIsTwoUnits()
    ensures Utf16Length("\U{1F600}") == 2
  {
  }

  predicate OccursAt(hay: string, needle: string, i: int) {
    0 <= i && i + |needle| <= |hay| && hay[i..i + |needle|] == needle
  }

  /** `String.prototype.includes`: `needle` occurs somewhere in `hay`; the
      empty string occurs in every string. */
  predicate Contains(hay: string, needle: string) {
    exists i | 0 <= i <= |hay| - |needle| :: OccursAt(hay, needle, i)
  }

  lemma ContainsEmpty(hay: string)
    ensures Contains(hay, "")
  {
    assert OccursAt(hay, "", 0);
  }

  /** An occurrence inside one part of a concatenation is an occurrence in the whole. */
  lemma ContainsConcat(a: string, b: string, needle: string)
    ensures Contains(a, needle) ==> Contains(a + b, needle)
    ensures Contains(b, needle) ==> Contains(a + b, needle)
  {
    if Contains(a, needle) {
      var i :| 0 <= i <= |a| - |needle| && OccursAt(a, needle, i);
      assert (a + b)[i..i + |needle|] == a[i..i + |needle|];
      assert OccursAt(a + b, needle, i);
    }
    if Contains(b, needle) {
      var i :| 0 <= i <= |b| - |needle| && OccursAt(b, needle, i);
      assert (a + b)[|a| + i..|a| + i + |needle|] == b[i..i + |needle|];
      assert OccursAt(a + b, needle, |a| + i);
    }
  }

  /** `Array.prototype.join(sep)` on a list of strings. */
  function Join(parts: seq<string>, sep: string): (r: string)
  {
    if |parts| == 0 then ""
    else if |parts| == 1 then parts[0]
    else parts[0] + sep + Join(parts[1..], sep)
  }

  /** Appending one more part adds the separator and the part at the end. */
  lemma {:induction false} JoinSnoc(parts: seq<string>, last: string, sep: string)
    requires |parts| > 0
    ensures Join(parts + [last], sep) == Join(parts, sep) + sep + last
  {
    if |parts| == 1 {
      assert parts + [last] == [parts[0], last];
      assert [parts[0], last][1..] == [last];
    } else {
      assert (parts + [last])[1..] == parts[1..] + [last];
      JoinSnoc(parts[1..], last, sep);
    }
  }

  /** Every part of a joined list occurs in the result. */
  lemma {:induction false} JoinContainsParts(parts: seq<string>, sep: string, k: nat)
    requires k < |parts|
    ensures Contains(Join(parts, sep), parts[k])
  {
    if |parts| == 1 {
      assert OccursAt(parts[0], parts[0], 0);
    } else if k == 0 {
      ContainsConcat(parts[0], sep + Join(parts[1..], sep), parts[0]);
      assert OccursAt(parts[0], parts[0], 0);
      assert parts[0] + sep + Join(parts[1..], sep) == parts[0] + (sep + Join(parts[1..], sep));
    } else {
      JoinContainsParts(parts[1..], sep, k - 1);
      ContainsConcat(parts[0] + sep, Join(parts[1..], sep), parts[k]);
    }
  }

  // ------------------------------------------------------------------
  // Numbers as text
  // ------------------------------------------------------------------

  predicate IsDigit(c: char) {
    '0' <= c <= '9'
  }

  predicate AllDigits(s: string) {
    forall i :: 0 <= i < |s| ==> IsDigit(s[i])
  }

  function DigitChar(d: int): (c: char)
    requires 0 <= d < 10
    ensures IsDigit(c)
  {
    ('0' as int + d) as char
  }

  /** The decimal digits of a natural number, as `String(n)` prints them. */
  function NatString(n: nat): (r: string)
    ensures |r| > 0 && AllDigits(r)
    ensures |r| > 1 ==> r[0] != '0'
  {
    if n < 10 then [DigitChar(n)] else NatString(n / 10) + [DigitChar(n % 10)]
  }

  /** `String(n)` for an integer: a minus sign before the digits of a negative number. */
  function IntString(n: int): (r: string)
    ensures |r| > 0
    ensures n >= 0 ==> AllDigits(r)
    ensures n < 0 ==> r[0] == '-' && AllDigits(r[1..])
  {
    if n < 0 then "-" + NatString(-n) else NatString(n)
  }

  /** The value of a run of decimal digits, most significant first. */
  function DigitsValue(s: string): nat
    requires AllDigits(s)
  {
    if |s| == 0 then 0 else DigitsValue(s[..|s| - 1]) * 10 + (s[|s| - 1] as int - '0' as int)
  }

  /** The longest prefix of `s` made of decimal digits. */
  function DigitRun(s: string): (r: string)
    ensures |r| <= |s| && AllDigits(r) && r == s[..|r|]
    ensures |r| < |s| ==> !IsDigit(s[|r|])
  {
    if |s| > 0 && IsDigit(s[0]) then [s[0]] + DigitRun(s[1..]) else ""
  }

  /** The text after one optional leading sign. */
  function Unsigned(t: string): (r: string)
    ensures r == t || (|t| > 0 && (t[0] == '-' || t[0] == '+') && r == t[1..])
  {
    if |t| > 0 && (t[0] == '-' || t[0] == '+') then t[1..] else t
  }

  /** `parseInt(s)` with the default radix on decimal text: leading white
      space skipped, an optional sign, then the longest run of digits; None
      (JavaScript's NaN) when no digit follows. Only decimal is read: a
      `0x` prefix, which `parseInt` takes as hexadecimal, reads here as the
      digit 0 (so "0x10" is 0 where JavaScript gives 16). */
  function ParseInt(s: string): (r: Option<int>)
    ensures r.None? <==> DigitRun(Unsigned(TrimStart(s))) == ""
    ensures r.Some? ==>
      var v: int := DigitsValue(DigitRun(Unsigned(TrimStart(s))));
      r.value == v || (r.value == -v && TrimStart(s)[0] == '-')
    ensures s == "" ==> r.None?
  {
    var t := TrimStart(s);
    var negative := |t| > 0 && t[0] == '-';
    var body := Unsigned(t);
    var digits := DigitRun(body);
    var v: int := if digits == "" then 0 else DigitsValue(digits);
    if digits == "" then None else Some(if negative then -v else v)
  }

  lemma {:induction false} DigitRunOfDigits(s: string)
    requires AllDigits(s)
    ensures DigitRun(s) == s
  {
    if |s| > 0 {
      DigitRunOfDigits(s[1..]);
    }
  }

  lemma {:induction false} NatStringValue(n: nat)
    ensures DigitsValue(NatString(n)) == n
  {
    if n >= 10 {
      NatStringValue(n / 10);
      var s := NatString(n / 10) + [DigitChar(n % 10)];
      assert s[..|s| - 1] == NatString(n / 10);
    }
  }

  lemma TrimStartOfNonSpace(s: string)
    requires s != [] && !IsJsSpace(s[0])
    ensures TrimStart(s) == s
  {
  }

  /** Reading back with `parseInt` what `String(n)` wrote yields `n`. */
  lemma ParseIntString(n: int)
    ensures ParseInt(IntString(n)) == Some(n)
  {
    var s := IntString(n);
    TrimStartOfNonSpace(s);
    if n < 0 {
      var m := NatString(-n);
      assert s == "-" + m;
      assert s[1..] == m && Unsigned(s) == m;
      DigitRunOfDigits(m);
      NatStringValue(-n);
    } else {
      assert s[0] != '-' && s[0] != '+';
      assert Unsigned(s) == s;
      DigitRunOfDigits(s);
      NatStringValue(n);
    }
  }

  /** `table[key] || fallback` over a lookup table of strings. */
  function Lookup(table: map<string, string>, key: string, fallback: string): string
  {
    if key in table && table[key] != "" then table[key] else fallback
  }

  // ------------------------------------------------------------------
  // Lists: filter and findIndex
  // ------------------------------------------------------------------

  /** `xs` is what remains of `ys` after deleting some elements, in the same order. */
  predicate IsSubsequence<T(==)>(xs: seq<T>, ys: seq<T>)
    decreases |ys|
  {
    |xs| == 0 || (|ys| > 0 && ((xs[0] == ys[0] && IsSubsequence(xs[1..], ys[1..])) || IsSubsequence(xs, ys[1..])))
  }

  /** `Array.prototype.filter`: the elements that satisfy `keep`, in list order. */
  function Filter<T(==)>(xs: seq<T>, keep: T -> bool): (r: seq<T>)
    ensures |r| <= |xs|
    ensures forall x :: x in r ==> x in xs && keep(x)
    ensures forall x :: x in xs && keep(x) ==> x in r
  {
    if |xs| == 0 then []
    else
      var rest := Filter(xs[1..], keep);
      assert forall x :: x in xs ==> x == xs[0] || x in xs[1..];
      if keep(xs[0]) then [xs[0]] + rest
      else rest
  }

  /** Filtering keeps the survivors in their original order. */
  lemma {:induction false} FilterIsSubsequence<T>(xs: seq<T>, keep: T -> bool)
    ensures IsSubsequence(Filter(xs, keep), xs)
  {
    if |xs| > 0 {
      FilterIsSubsequence(xs[1..], keep);
      var rest := Filter(xs[1..], keep);
      if keep(xs[0]) {
        assert ([xs[0]] + rest)[1..] == rest;
      }
    }
  }

  /** Nothing is dropped when every element satisfies the test. */
  lemma {:induction false} FilterAll<T>(xs: seq<T>, keep: T -> bool)
    requires forall i :: 0 <= i < |xs| ==> keep(xs[i])
    ensures Filter(xs, keep) == xs
  {
    if |xs| > 0 {
      FilterAll(xs[1..], keep);
      assert [xs[0]] + xs[1..] == xs;
    }
  }

  /** Everything is dropped when no element satisfies the test. */
  lemma {:induction false} FilterNone<T>(xs: seq<T>, keep: T -> bool)
    requires forall i :: 0 <= i < |xs| ==> !keep(xs[i])
    ensures Filter(xs, keep) == []
  {
    if |xs| > 0 {
      FilterNone(xs[1..], keep);
    }
  }

  /** Filtering a list extended at the end extends the result at the end. */
  lemma {:induction false} FilterSnoc<T>(xs: seq<T>, x: T, keep: T -> bool)
    ensures Filter(xs + [x], keep) == Filter(xs, keep) + (if keep(x) then [x] else [])
  {
    if |xs| == 0 {
      assert [x][1..] == [];
    } else {
      assert (xs + [x])[1..] == xs[1..] + [x];
      FilterSnoc(xs[1..], x, keep);
    }
  }

  /** The same, for one more element of a prefix. */
  lemma FilterPrefix<T>(xs: seq<T>, i: int, keep: T -> bool)
    requires 0 <= i < |xs|
    ensures Filter(xs[..i + 1], keep) == Filter(xs[..i], keep) + (if keep(xs[i]) then [xs[i]] else [])
  {
    assert xs[..i + 1] == xs[..i] + [xs[i]];
    FilterSnoc(xs[..i], xs[i], keep);
  }

  /** Each element that passes occurs as often as before; each one that
      fails does not occur at all. */
  lemma {:induction false} FilterMultiplicity<T>(xs: seq<T>, keep: T -> bool)
    ensures forall t :: multiset(Filter(xs, keep))[t] == if keep(t) then multiset(xs)[t] else 0
  {
    if |xs| > 0 {
      FilterMultiplicity(xs[1..], keep);
      assert xs == [xs[0]] + xs[1..];
      assert multiset(xs) == multiset{xs[0]} + multiset(xs[1..]);
      if keep(xs[0]) {
        assert multiset(Filter(xs, keep)) == multiset{xs[0]} + multiset(Filter(xs[1..], keep));
      }
    }
  }

  /** The result around one position: the survivors before it, the element
      itself if it passes, and the survivors after it. */
  lemma FilterAround<T>(xs: seq<T>, k: nat, keep: T -> bool)
    requires k < |xs|
    ensures Filter(xs, keep) ==
      Filter(xs[..k], keep) + (if keep(xs[k]) then [xs[k]] else []) + Filter(xs[k + 1..], keep)
  {
    assert xs == xs[..k + 1] + xs[k + 1..];
    FilterAppend(xs[..k + 1], xs[k + 1..], keep);
    FilterPrefix(xs, k, keep);
  }

  /** Replacing one element by another that the test treats alike: if it
      passes, its copy in the result (which follows exactly the survivors
      of the elements before it) is replaced too; if it fails, the result
      stays as it was. */
  lemma FilterUpdate<T>(xs: seq<T>, k: nat, y: T, keep: T -> bool)
    requires k < |xs| && keep(y) == keep(xs[k])
    ensures var j := |Filter(xs[..k], keep)|;
      keep(xs[k]) ==>
        (&& j < |Filter(xs, keep)| && Filter(xs, keep)[j] == xs[k]
         && Filter(xs, keep)[..j] == Filter(xs[..k], keep)
         && Filter(xs[k := y], keep) == Filter(xs, keep)[j := y])
    ensures !keep(xs[k]) ==> Filter(xs[k := y], keep) == Filter(xs, keep)
  {
    var ys := xs[k := y];
    assert ys[..k] == xs[..k] && ys[k + 1..] == xs[k + 1..] && ys[k] == y;
    FilterAround(xs, k, keep);
    FilterAround(ys, k, keep);
    var a, b := Filter(xs[..k], keep), Filter(xs[k + 1..], keep);
    if keep(xs[k]) {
      SpliceOne(a, xs[k], y, b);
    }
  }

  /** Replacing the one element between two pieces. */
  lemma SpliceOne<T>(a: seq<T>, x: T, y: T, b: seq<T>)
    ensures (a + [x] + b)[|a|] == x && (a + [x] + b)[..|a|] == a
    ensures (a + [x] + b)[|a| := y] == a + [y] + b
  {
    assert (a + [x] + b)[..|a|] == a;
  }

  /** Filtering distributes over concatenation. */
  lemma {:induction false} FilterAppend<T>(a: seq<T>, b: seq<T>, keep: T -> bool)
    ensures Filter(a + b, keep) == Filter(a, keep) + Filter(b, keep)
  {
    if |a| > 0 {
      assert (a + b)[0] == a[0] && (a + b)[1..] == a[1..] + b;
      FilterAppend(a[1..], b, keep);
    } else {
      assert a + b == b;
    }
  }

  /** The result is shorter than the input exactly when some element fails the test. */
  lemma {:induction false} FilterShrinks<T>(xs: seq<T>, keep: T -> bool)
    ensures |Filter(xs, keep)| < |xs| <==> exists i :: 0 <= i < |xs| && !keep(xs[i])
  {
    if |xs| > 0 {
      FilterShrinks(xs[1..], keep);
      if exists i :: 0 <= i < |xs| - 1 && !keep(xs[1..][i]) {
        var i :| 0 <= i < |xs| - 1 && !keep(xs[1..][i]);
        assert !keep(xs[i + 1]);
      }
      if exists i :: 0 <= i < |xs| && !keep(xs[i]) {
        var i :| 0 <= i < |xs| && !keep(xs[i]);
        if i > 0 {
          assert !keep(xs[1..][i - 1]);
        }
      }
    }
  }

  /** A weaker test keeps at least as many elements. */
  lemma {:induction false} FilterMono<T>(xs: seq<T>, keep1: T -> bool, keep2: T -> bool)
    requires forall i :: 0 <= i < |xs| && keep1(xs[i]) ==> keep2(xs[i])
    ensures |Filter(xs, keep1)| <= |Filter(xs, keep2)|
  {
    if |xs| > 0 {
      FilterMono(xs[1..], keep1, keep2);
    }
  }

  /** Two lists whose elements pass their tests at the same positions
      keep the same number of elements. */
  lemma {:induction false} FilterCountsAgree<T, U>(xs: seq<T>, keep1: T -> bool, ys: seq<U>, keep2: U -> bool)
    requires |xs| == |ys|
    requires forall i :: 0 <= i < |xs| ==> keep1(xs[i]) == keep2(ys[i])
    ensures |Filter(xs, keep1)| == |Filter(ys, keep2)|
  {
    if |xs| > 0 {
      FilterCountsAgree(xs[1..], keep1, ys[1..], keep2);
    }
  }

  /** Passing one more element, which occurs once, keeps exactly one more. */
  lemma {:induction false} FilterOneMore<T>(xs: seq<T>, y: T, keep1: T -> bool, keep2: T -> bool)
    requires forall i, j :: 0 <= i < j < |xs| ==> xs[i] != xs[j]
    requires y in xs && !keep1(y) && keep2(y)
    requires forall i :: 0 <= i < |xs| && xs[i] != y ==> keep1(xs[i]) == keep2(xs[i])
    ensures |Filter(xs, keep2)| == |Filter(xs, keep1)| + 1
  {
    if xs[0] == y {
      assert y !in xs[1..];
      FilterCountsAgree(xs[1..], keep1, xs[1..], keep2);
    } else {
      FilterOneMore(xs[1..], y, keep1, keep2);
    }
  }

  /** `Array.prototype.findIndex`, with None for JavaScript's -1. */
  function FindIndex<T>(xs: seq<T>, found: T -> bool): (r: Option<nat>)
    ensures r.Some? ==> r.value < |xs| && found(xs[r.value])
    ensures r.Some? ==> forall j :: 0 <= j < r.value ==> !found(xs[j])
    ensures r.None? ==> forall j :: 0 <= j < |xs| ==> !found(xs[j])
  {
    if |xs| == 0 then None
    else if found(xs[0]) then Some(0)
    else match FindIndex(xs[1..], found) {
      case None => None
      case Some(k) => Some(k + 1)
    }
  }

  /** Two searches whose tests agree position by position find the same index. */
  lemma {:induction false} FindIndexAgree<T, U>(xs: seq<T>, f: T -> bool, ys: seq<U>, g: U -> bool)
    requires |xs| == |ys| && forall i :: 0 <= i < |xs| ==> f(xs[i]) == g(ys[i])
    ensures FindIndex(xs, f) == FindIndex(ys, g)
  {
    if |xs| > 0 && !f(xs[0]) {
      assert g(ys[0]) == f(xs[0]);
      FindIndexAgree(xs[1..], f, ys[1..], g);
    }
  }

  /** Both tests at once. */
  function Both<T>(f: T -> bool, g: T -> bool): T -> bool
  {
    (x: T) => f(x) && g(x)
  }

  /** Two filters in a row keep what one filter on both tests keeps. */
  lemma {:induction false} FilterCompose<T>(xs: seq<T>, f: T -> bool, g: T -> bool)
    ensures Filter(Filter(xs, f), g) == Filter(xs, Both(f, g))
  {
    if |xs| > 0 {
      FilterCompose(xs[1..], f, g);
      var rest := Filter(xs[1..], f);
      if f(xs[0]) {
        assert Filter(xs, f) == [xs[0]] + rest;
        assert ([xs[0]] + rest)[1..] == rest;
      }
    }
  }
}
