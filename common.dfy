/**
 * Shared vocabulary for the model: an Option type for the JavaScript nulls the
 * program tests with `||` and `?.`, and the handful of JavaScript string
 * primitives the core leans on (`trim`, `split` on one character, `join`,
 * `includes`, and the first-occurrence de-duplication of `new Set(list)`).
 * Strings are sequences of Unicode scalar values.
 */
module Common {

  datatype Option<+T> = None | Some(value: T) {
    /** `a || b` for an optional value: the value when present, else the default */
    function GetOr(default: T): T {
      match this
      case Some(v) => v
      case None => default
    }
  }

  /** JavaScript truthiness of a string held in an optional slot: null and '' are falsy */
  predicate TruthyStr(o: Option<string>) {
    o.Some? && o.value != ""
  }

  /** `s || ''` for an optional string */
  function OrEmpty(o: Option<string>): (r: string)
    ensures o.Some? ==> r == o.value
    ensures o.None? ==> r == ""
  {
    o.GetOr("")
  }

  /** `a || b` on strings: `a` unless it is the empty string */
  function OrStr(a: string, b: string): (r: string)
    ensures a != "" ==> r == a
    ensures a == "" ==> r == b
  {
    if a != "" then a else b
  }

  // ---------------------------------------------------------------------
  // String.prototype.trim
  // ---------------------------------------------------------------------

  /** The ECMAScript WhiteSpace and LineTerminator code points that `trim` strips */
  predicate IsWs(c: char) {
    var n := c as int;
    n == 0x09 || n == 0x0A || n == 0x0B || n == 0x0C || n == 0x0D || n == 0x20
    || n == 0xA0 || n == 0x1680 || (0x2000 <= n <= 0x200A)
    || n == 0x2028 || n == 0x2029 || n == 0x202F || n == 0x205F
    || n == 0x3000 || n == 0xFEFF
  }

  predicate AllWs(s: string) {
    forall i :: 0 <= i < |s| ==> IsWs(s[i])
  }

  /** Number of whitespace characters at the front of `s` */
  function LeadingWs(s: string): (n: nat)
    ensures n <= |s|
    ensures AllWs(s[..n])
    ensures n < |s| ==> !IsWs(s[n])
  {
    if |s| == 0 || !IsWs(s[0]) then 0
    else
      var k := LeadingWs(s[1..]);
      assert s[1..][..k] == s[1..k + 1];
      1 + k
  }

  /** Number of whitespace characters at the back of `s` */
  function TrailingWs(s: string): (n: nat)
    ensures n <= |s|
    ensures AllWs(s[|s| - n..])
    ensures n < |s| ==> !IsWs(s[|s| - n - 1])
  {
    if |s| == 0 || !IsWs(s[|s| - 1]) then 0
    else
      var k := TrailingWs(s[..|s| - 1]);
      assert s[..|s| - 1][|s| - 1 - k..] == s[|s| - 1 - k..|s| - 1];
      1 + k
  }

  /**
   * String.prototype.trim: `s` less its leading whitespace (LeadingWs(s) characters,
   * all whitespace) and a trailing run of whitespace; what is left neither starts
   * nor ends with whitespace.
   */
  function Trim(s: string): (r: string)
    ensures LeadingWs(s) + |r| <= |s|
    ensures r == s[LeadingWs(s)..LeadingWs(s) + |r|]
    ensures AllWs(s[LeadingWs(s) + |r|..])
    ensures r == [] || (!IsWs(r[0]) && !IsWs(r[|r| - 1]))
  {
    var a := LeadingWs(s);
    var t := s[a..];
    var b := TrailingWs(t);
    var r := t[..|t| - b];
    TrimParts(s, a, b, r);
    r
  }

  /** The pieces of Trim: front whitespace, the kept middle, back whitespace */
  lemma TrimParts(s: string, a: nat, b: nat, r: string)
    requires a <= |s| && b <= |s| - a && r == s[a..][..|s| - a - b]
    requires AllWs(s[a..][|s| - a - b..])
    requires a < |s| ==> !IsWs(s[a])
    requires b < |s| - a ==> !IsWs(s[a..][|s| - a - b - 1])
    ensures a + |r| <= |s| && r == s[a..a + |r|] && AllWs(s[a + |r|..])
    ensures r == [] || (!IsWs(r[0]) && !IsWs(r[|r| - 1]))
  {
    var t := s[a..];
    assert s[a + |r|..] == t[|t| - b..];
    if r != [] {
      assert r[0] == s[a];
      assert r[|r| - 1] == t[|t| - b - 1];
    }
  }

  /** A string made only of whitespace trims to the empty string */
  lemma TrimAllWs(s: string)
    requires AllWs(s)
    ensures Trim(s) == []
  {
    assert LeadingWs(s) == |s|;
  }

  /** Trimming twice is trimming once */
  lemma {:induction false} TrimIdempotent(s: string)
    ensures Trim(Trim(s)) == Trim(s)
  {
    var r := Trim(s);
    assert LeadingWs(r) == 0;
    assert TrailingWs(r[LeadingWs(r)..]) == 0 by {
      assert r[LeadingWs(r)..] == r;
    }
    assert r[0..] == r;
  }

  // ---------------------------------------------------------------------
  // Decimal numerals
  // ---------------------------------------------------------------------

  predicate IsDigit(c: char) {
    '0' as int <= c as int <= '9' as int
  }

  function DigitChar(d: nat): (c: char)
    requires d < 10
    ensures IsDigit(c) && (c as int) - ('0' as int) == d
  {
    "0123456789"[d]
  }

  /** `String(n)` for a natural number: its decimal spelling, no leading zeros */
  function Decimal(n: nat): (r: string)
    ensures |r| >= 1 && forall i :: 0 <= i < |r| ==> IsDigit(r[i])
    ensures |r| > 1 ==> r[0] != '0'
  {
    if n < 10 then [DigitChar(n)] else Decimal(n / 10) + [DigitChar(n % 10)]
  }

  /** The number a string of digits spells */
  function DecimalValue(s: string): nat
    requires forall i :: 0 <= i < |s| ==> IsDigit(s[i])
  {
    if |s| == 0 then 0
    else
      assert IsDigit(s[|s| - 1]);
      var d: nat := (s[|s| - 1] as int) - ('0' as int);
      10 * DecimalValue(s[..|s| - 1]) + d
  }

  /** Reading a decimal spelling back gives the number */
  lemma {:induction false} DecimalRoundTrip(n: nat)
    ensures DecimalValue(Decimal(n)) == n
  {
    if n >= 10 {
      DecimalRoundTrip(n / 10);
      var d := Decimal(n);
      assert d[..|d| - 1] == Decimal(n / 10);
    }
  }

  // ---------------------------------------------------------------------
  // String.prototype.split(c) and Array.prototype.join(sep)
  // ---------------------------------------------------------------------

  /** Index of the first occurrence of `c` in `s`, when there is one */
  function FirstIndexOf(s: string, c: char): (i: nat)
    requires c in s
    ensures i < |s| && s[i] == c && c !in s[..i]
  {
    if s[0] == c then 0
    else
      assert c in s[1..] by { var k :| 0 <= k < |s| && s[k] == c; assert s[1..][k - 1] == c; }
      var k := FirstIndexOf(s[1..], c);
      assert s[..k + 1] == [s[0]] + s[1..][..k];
      k + 1
  }

  /** `s.split(c)` for a one-character separator: never empty, pieces free of `c` */
  function Split(s: string, c: char): (r: seq<string>)
    ensures |r| >= 1
    ensures forall i :: 0 <= i < |r| ==> c !in r[i]
    decreases |s|
  {
    if c !in s then [s]
    else
      var i := FirstIndexOf(s, c);
      [s[..i]] + Split(s[i + 1..], c)
  }

  /** `parts.join(sep)` */
  function Join(parts: seq<string>, sep: string): (r: string)
  {
    if |parts| == 0 then ""
    else if |parts| == 1 then parts[0]
    else parts[0] + sep + Join(parts[1..], sep)
  }

  /** Joining the pieces of a split with the separator restores the string */
  lemma {:induction false} JoinSplit(s: string, c: char)
    ensures Join(Split(s, c), [c]) == s
    decreases |s|
  {
    if c in s {
      var i := FirstIndexOf(s, c);
      var rest := Split(s[i + 1..], c);
      var parts := [s[..i]] + rest;
      assert Split(s, c) == parts;
      assert parts[0] == s[..i] && parts[1..] == rest;
      assert Join(parts, [c]) == s[..i] + [c] + Join(rest, [c]);
      JoinSplit(s[i + 1..], c);
      assert s == s[..i] + [c] + s[i + 1..];
    }
  }

  /** Splitting a join of separator-free pieces yields those pieces */
  lemma {:induction false} SplitJoin(parts: seq<string>, c: char)
    requires |parts| >= 1
    requires forall i :: 0 <= i < |parts| ==> c !in parts[i]
    ensures Split(Join(parts, [c]), c) == parts
  {
    if |parts| == 1 {
    } else {
      var s := Join(parts, [c]);
      var rest := Join(parts[1..], [c]);
      assert s == parts[0] + [c] + rest;
      assert s[|parts[0]|] == c;
      assert s[..|parts[0]|] == parts[0];
      var i := FirstIndexOf(s, c);
      assert i == |parts[0]|;
      assert s[i + 1..] == rest;
      SplitJoin(parts[1..], c);
    }
  }

  // ---------------------------------------------------------------------
  // String.prototype.includes
  // ---------------------------------------------------------------------

  /** `hay.includes(needle)`: `needle` occurs as a contiguous block of `hay` */
  predicate Includes(hay: string, needle: string) {
    exists i :: 0 <= i <= |hay| && IsPrefixOf(needle, hay[i..])
  }

  predicate IsPrefixOf(p: string, s: string) {
    |p| <= |s| && s[..|p|] == p
  }

  // ---------------------------------------------------------------------
  // Array.prototype.filter(Boolean) and Array.from(new Set(list))
  // ---------------------------------------------------------------------

  /** `list.filter(Boolean)` on strings: drops the empty ones, keeps the order */
  function NonEmpty(s: seq<string>): (r: seq<string>)
    ensures forall x :: x in r <==> x in s && x != ""
    ensures |r| <= |s|
  {
    if |s| == 0 then []
    else if s[0] == "" then NonEmpty(s[1..])
    else [s[0]] + NonEmpty(s[1..])
  }

  /** `list.filter(p)`: the elements satisfying p, in their order */
  function Filter<T(!new)>(s: seq<T>, p: T -> bool): (r: seq<T>)
    ensures forall x :: x in r <==> x in s && p(x)
    ensures |r| <= |s|
  {
    if |s| == 0 then []
    else if p(s[0]) then [s[0]] + Filter(s[1..], p)
    else Filter(s[1..], p)
  }

  /**
   * Filtering works piece by piece: a filtered concatenation is the concatenation
   * of the filtered pieces, and one element is kept exactly when it passes. Together
   * these fix the order of the result.
   */
  lemma {:induction false} FilterAppend<T(!new)>(a: seq<T>, b: seq<T>, p: T -> bool)
    ensures Filter(a + b, p) == Filter(a, p) + Filter(b, p)
    ensures |a| == 1 ==> Filter(a, p) == if p(a[0]) then a else []
  {
    if |a| == 0 {
      assert a + b == b;
    } else {
      var s := a + b;
      assert s[0] == a[0] && s[1..] == a[1..] + b;
      FilterAppend(a[1..], b, p);
      if |a| == 1 {
        assert a[1..] == [];
      }
    }
  }

  /** Filtering keeps every passing element as often as it occurs and drops the rest */
  lemma {:induction false} FilterCount<T(!new)>(s: seq<T>, p: T -> bool, x: T)
    ensures multiset(Filter(s, p))[x] == if p(x) then multiset(s)[x] else 0
  {
    if |s| > 0 {
      assert s == [s[0]] + s[1..];
      FilterCount(s[1..], p, x);
    }
  }

  /** A filter every element passes keeps the whole sequence */
  lemma {:induction false} FilterAll<T(!new)>(s: seq<T>, p: T -> bool)
    requires forall x :: x in s ==> p(x)
    ensures Filter(s, p) == s
  {
    if |s| > 0 {
      FilterAll(s[1..], p);
      assert s == [s[0]] + s[1..];
    }
  }

  /** `filter(Boolean)` is the filter that keeps the non-empty strings */
  lemma {:induction false} NonEmptyIsFilter(s: seq<string>)
    ensures NonEmpty(s) == Filter(s, (x: string) => x != "")
  {
    if |s| > 0 {
      NonEmptyIsFilter(s[1..]);
    }
  }

  /** No element occurs twice */
  predicate Distinct<T(==)>(s: seq<T>) {
    forall i, j :: 0 <= i < j < |s| ==> s[i] != s[j]
  }

  /** A non-empty sequence is its front followed by its last element */
  lemma SplitLast<T>(s: seq<T>)
    requires |s| > 0
    ensures s == s[..|s| - 1] + [s[|s| - 1]]
  {
  }

  /** The last part of a right-nested concatenation is its suffix */
  lemma NestedSuffix<T>(a: seq<T>, b: seq<T>, c: seq<T>, d: seq<T>, e: seq<T>)
    ensures var s := a + (b + (c + (d + e))); |s| >= |e| && s[|s| - |e|..] == e
  {
    var s := a + (b + (c + (d + e)));
    assert s == (a + b + c + d) + e;
  }

  /** Dropping the last element of a sequence with no repeats leaves one, without that element */
  lemma DistinctSnoc<T>(init: seq<T>, last: T)
    requires Distinct(init + [last])
    ensures Distinct(init) && last !in init
  {
    var s := init + [last];
    forall i, j | 0 <= i < j < |init| ensures init[i] != init[j] {
      assert init[i] == s[i] && init[j] == s[j];
    }
    forall i | 0 <= i < |init| ensures init[i] != last {
      assert init[i] == s[i] && last == s[|init|];
    }
  }

  /** Position of the first occurrence of `x` in `s` */
  function IndexOf<T(==)>(s: seq<T>, x: T): (i: nat)
    requires x in s
    ensures i < |s| && s[i] == x
    ensures forall j :: 0 <= j < i ==> s[j] != x
  {
    if s[0] == x then 0 else 1 + IndexOf(s[1..], x)
  }

  lemma IndexOfPrefix<T>(s: seq<T>, t: seq<T>, x: T)
    requires x in s
    ensures IndexOf(s + t, x) == IndexOf(s, x)
  {
    var i := IndexOf(s, x);
    assert (s + t)[i] == x;
  }

  /** Positions in a sequence extended by a new element */
  lemma IndexOfSnoc<T>(init: seq<T>, last: T, x: T)
    requires last !in init && x in init + [last]
    ensures x in init ==> IndexOf(init + [last], x) == IndexOf(init, x) < |init|
    ensures x !in init ==> x == last && IndexOf(init + [last], x) == |init|
  {
    if x in init {
      IndexOfPrefix(init, [last], x);
    } else {
      var s := init + [last];
      assert s[|init|] == last;
      assert forall j :: 0 <= j < |init| ==> s[j] == init[j];
    }
  }

  /**
   * `Array.from(new Set(s))`: every element once, at the place it first occurs.
   */
  function Dedupe<T(==, !new)>(s: seq<T>): (r: seq<T>)
    ensures Distinct(r)
    ensures forall x :: x in r <==> x in s
    ensures forall i, j :: 0 <= i < j < |r| ==> IndexOf(s, r[i]) < IndexOf(s, r[j])
    ensures |r| <= |s|
  {
    if |s| == 0 then []
    else
      var init := s[..|s| - 1];
      var last := s[|s| - 1];
      var d := Dedupe(init);
      assert s == init + [last];
      forall x | x in init ensures IndexOf(s, x) == IndexOf(init, x) {
        IndexOfPrefix(init, [last], x);
      }
      if last in d then d
      else
        assert last !in init;
        assert IndexOf(s, last) == |s| - 1;
        d + [last]
  }
}
