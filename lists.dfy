/**
 * The small list utilities behind the pickers: HTML escaping of names, the
 * reading-based kana tabs of the person picker, a stable sort under the
 * collation order (an abstract rank), and the filter-and-cap steps of the
 * person and victim lists.
 */
module Lists {
  import opened Common
  import opened Records

  // ---------------------------------------------------------------------
  // escapeHtml
  // ---------------------------------------------------------------------

  /** The entity `escapeHtml` writes for one character, or the character itself */
  function EscapeChar(c: char): string {
    if c == '&' then "&amp;"
    else if c == '<' then "&lt;"
    else if c == '>' then "&gt;"
    else if c == '\'' then "&#39;"
    else if c == '"' then "&quot;"
    else [c]
  }

  /** escapeHtml: each of `& < > ' "` replaced by its entity */
  function EscapeHtml(s: string): (r: string)
    ensures '<' !in r && '>' !in r && '\'' !in r && '"' !in r
    ensures |r| >= |s|
  {
    if |s| == 0 then "" else EscapeChar(s[0]) + EscapeHtml(s[1..])
  }

  /** The character an entity at the front of t stands for, and the entity's length */
  function DecodeAt(t: string): (r: (char, nat))
    requires |t| > 0
    ensures 1 <= r.1 <= |t|
  {
    if t[0] == '&' && |t| >= 5 && t[1] == 'a' && t[2] == 'm' && t[3] == 'p' && t[4] == ';' then ('&', 5)
    else if t[0] == '&' && |t| >= 4 && t[1] == 'l' && t[2] == 't' && t[3] == ';' then ('<', 4)
    else if t[0] == '&' && |t| >= 4 && t[1] == 'g' && t[2] == 't' && t[3] == ';' then ('>', 4)
    else if t[0] == '&' && |t| >= 5 && t[1] == '#' && t[2] == '3' && t[3] == '9' && t[4] == ';' then ('\'', 5)
    else if t[0] == '&' && |t| >= 6 && t[1] == 'q' && t[2] == 'u' && t[3] == 'o' && t[4] == 't' && t[5] == ';'
    then ('"', 6)
    else (t[0], 1)
  }

  /** Reading escaped text back: each entity `escapeHtml` writes becomes its character */
  function UnescapeHtml(t: string): string
    decreases |t|
  {
    if |t| == 0 then "" else [DecodeAt(t).0] + UnescapeHtml(t[DecodeAt(t).1..])
  }

  lemma UnescapeChar(c: char, rest: string)
    ensures UnescapeHtml(EscapeChar(c) + rest) == [c] + UnescapeHtml(rest)
  {
    var e := EscapeChar(c);
    var t := e + rest;
    assert forall i :: 0 <= i < |e| ==> t[i] == e[i];
    assert t[|e|..] == rest;
    assert DecodeAt(t) == (c, |e|);
  }

  /** Escaping loses nothing: the text reads back as it was */
  lemma {:induction false} EscapeHtmlRoundTrip(s: string)
    ensures UnescapeHtml(EscapeHtml(s)) == s
  {
    if |s| > 0 {
      var rest := EscapeHtml(s[1..]);
      UnescapeChar(s[0], rest);
      EscapeHtmlRoundTrip(s[1..]);
      calc {
        UnescapeHtml(EscapeHtml(s));
        UnescapeHtml(EscapeChar(s[0]) + rest);
        [s[0]] + UnescapeHtml(rest);
        [s[0]] + s[1..];
        s;
      }
    }
  }

  /** Text without any of the five special characters is left as it is */
  lemma {:induction false} EscapeHtmlPlain(s: string)
    requires forall i :: 0 <= i < |s| ==> s[i] !in "&<>'\""
    ensures EscapeHtml(s) == s
  {
    if |s| > 0 {
      EscapeHtmlPlain(s[1..]);
      assert s == [s[0]] + s[1..];
    }
  }

  // ---------------------------------------------------------------------
  // toHiragana and kanaGroupFromKana
  // ---------------------------------------------------------------------

  predicate IsKatakana(c: char) {
    0x30A1 <= c as int <= 0x30F6
  }

  /** A katakana character (U+30A1 to U+30F6) shifted down by 0x60 to its hiragana; any other unchanged */
  function ToHiragana(c: char): (r: char)
    ensures IsKatakana(c) ==> 0x3041 <= r as int <= 0x3096 && r as int == c as int - 0x60
    ensures !IsKatakana(c) ==> r == c
  {
    if IsKatakana(c) then (c as int - 0x60) as char else c
  }

  /** Converting twice is converting once */
  lemma ToHiraganaIdempotent(c: char)
    ensures ToHiragana(ToHiragana(c)) == ToHiragana(c)
  {
  }

  datatype KanaGroup = KanaGroup(labelText: string, chars: string)

  /** The tabs `kanaGroupFromKana` tries, in order */
  const KanaGroups: seq<KanaGroup> := [
    KanaGroup("あ", "あいうえお"),
    KanaGroup("か", "かきくけこがぎぐげご"),
    KanaGroup("さ", "さしすせそざじずぜぞ"),
    KanaGroup("た", "たちつてとだぢづでど"),
    KanaGroup("な", "なにぬねの"),
    KanaGroup("は", "はひふへほばびぶべぼぱぴぷぺぽ"),
    KanaGroup("ま", "まみむめも"),
    KanaGroup("や", "やゆよ"),
    KanaGroup("ら", "らりるれろ"),
    KanaGroup("わ", "わをん")
  ]

  const OtherGroup := "他"

  /** The person picker's tab bar */
  const KanaBar: seq<string> := ["あ", "か", "さ", "た", "な", "は", "ま", "や", "ら", "わ", "他"]

  /** The label of the first group holding h, or '他' when none does */
  function GroupOf(groups: seq<KanaGroup>, h: char): (r: string)
    ensures (forall i :: 0 <= i < |groups| ==> h !in groups[i].chars) ==> r == OtherGroup
    ensures (exists i :: 0 <= i < |groups| && h in groups[i].chars) ==>
      exists i :: 0 <= i < |groups| && h in groups[i].chars && r == groups[i].labelText
        && forall j :: 0 <= j < i ==> h !in groups[j].chars
  {
    if |groups| == 0 then OtherGroup
    else if h in groups[0].chars then groups[0].labelText
    else
      var r := GroupOf(groups[1..], h);
      assert forall i :: 1 <= i < |groups| ==> groups[i] == groups[1..][i - 1];
      r
  }

  /** kanaGroupFromKana: the tab of the reading's first character, in hiragana */
  function KanaGroupFromKana(kana: string): string {
    var s := Trim(kana);
    if s == "" then OtherGroup else GroupOf(KanaGroups, ToHiragana(s[0]))
  }

  /** Every reading files under exactly one of the tab bar's labels */
  lemma KanaGroupOnBar(kana: string)
    ensures KanaGroupFromKana(kana) in KanaBar
  {
    var s := Trim(kana);
    if s != "" {
      var h := ToHiragana(s[0]);
      if exists i :: 0 <= i < |KanaGroups| && h in KanaGroups[i].chars {
        var i :| 0 <= i < |KanaGroups| && h in KanaGroups[i].chars && GroupOf(KanaGroups, h) == KanaGroups[i].labelText;
        TableOnBar(i);
      }
    }
  }

  lemma TableOnBar(i: nat)
    requires i < |KanaGroups|
    ensures KanaGroups[i].labelText in KanaBar
  {
    assert KanaGroups[i].labelText == KanaBar[i];
  }

  /** A reading with nothing but whitespace goes under '他' */
  lemma BlankKanaIsOther(kana: string)
    requires AllWs(kana)
    ensures KanaGroupFromKana(kana) == OtherGroup
  {
    TrimAllWs(kana);
  }

  /** A reading in katakana files where the same reading in hiragana does */
  lemma KatakanaLikeHiragana(c: char, rest: string)
    requires IsKatakana(c)
    ensures KanaGroupFromKana([c] + rest) == KanaGroupFromKana([ToHiragana(c)] + rest)
  {
    var h := ToHiragana(c);
    assert !IsWs(c) && !IsWs(h);
    assert LeadingWs([c] + rest) == 0 && LeadingWs([h] + rest) == 0;
    TrimStartsWith([c] + rest);
    TrimStartsWith([h] + rest);
    ToHiraganaIdempotent(c);
  }

  lemma TrimStartsWith(s: string)
    requires |s| > 0 && !IsWs(s[0])
    ensures |Trim(s)| > 0 && Trim(s)[0] == s[0]
  {
    assert LeadingWs(s) == 0;
    var r := Trim(s);
    if |r| == 0 {
      assert false;
    }
  }

  // ---------------------------------------------------------------------
  // Sorting under the collation order
  // ---------------------------------------------------------------------

  // `a.kana.localeCompare(b.kana, 'ja')` is abstracted as an integer rank of the
  // reading: the sort orders by rank, and Array.prototype.sort is stable.

  predicate SortedBy<T>(s: seq<T>, key: T -> int) {
    forall i, j :: 0 <= i < j < |s| ==> key(s[i]) <= key(s[j])
  }

  /** x placed before the first element whose key is not smaller */
  function Insert<T>(x: T, s: seq<T>, key: T -> int): (r: seq<T>)
    ensures |r| == |s| + 1
    ensures multiset(r) == multiset(s) + multiset{x}
  {
    if |s| == 0 || key(x) <= key(s[0]) then [x] + s
    else
      assert s == [s[0]] + s[1..];
      [s[0]] + Insert(x, s[1..], key)
  }

  /** An element put in front of a sorted sequence whose keys are all at least its own */
  lemma SortedCons<T>(h: T, t: seq<T>, key: T -> int)
    requires SortedBy(t, key)
    requires forall i :: 0 <= i < |t| ==> key(h) <= key(t[i])
    ensures SortedBy([h] + t, key)
  {
    var r := [h] + t;
    forall i, j | 0 <= i < j < |r| ensures key(r[i]) <= key(r[j]) {
      assert r[j] == t[j - 1];
      if i > 0 {
        assert r[i] == t[i - 1];
      }
    }
  }

  lemma SortedTail<T>(s: seq<T>, key: T -> int)
    requires |s| > 0 && SortedBy(s, key)
    ensures SortedBy(s[1..], key)
    ensures forall i :: 0 <= i < |s[1..]| ==> key(s[0]) <= key(s[1..][i])
  {
    var tail := s[1..];
    forall i, j | 0 <= i < j < |tail| ensures key(tail[i]) <= key(tail[j]) {
      assert tail[i] == s[i + 1] && tail[j] == s[j + 1];
    }
    forall i | 0 <= i < |tail| ensures key(s[0]) <= key(tail[i]) {
      assert tail[i] == s[i + 1];
    }
  }

  /** A bound below every key of s and below x's key stays below every key after the insertion */
  lemma InsertBound<T>(x: T, s: seq<T>, key: T -> int, b: int)
    requires key(x) >= b
    requires forall i :: 0 <= i < |s| ==> b <= key(s[i])
    ensures forall i :: 0 <= i < |Insert(x, s, key)| ==> b <= key(Insert(x, s, key)[i])
  {
    var t := Insert(x, s, key);
    forall i | 0 <= i < |t| ensures b <= key(t[i]) {
      assert t[i] in multiset(t);
      if t[i] in multiset(s) {
        var j :| 0 <= j < |s| && s[j] == t[i];
      }
    }
  }

  /** Inserting into a sorted sequence keeps it sorted */
  lemma {:induction false} InsertSorted<T>(x: T, s: seq<T>, key: T -> int)
    requires SortedBy(s, key)
    ensures SortedBy(Insert(x, s, key), key)
  {
    if |s| > 0 && key(x) > key(s[0]) {
      SortedTail(s, key);
      InsertSorted(x, s[1..], key);
      InsertBound(x, s[1..], key, key(s[0]));
      SortedCons(s[0], Insert(x, s[1..], key), key);
    } else if |s| > 0 {
      SortedCons(x, s, key);
    }
  }

  /** A stable insertion sort by key */
  function SortBy<T(!new)>(s: seq<T>, key: T -> int): (r: seq<T>)
    ensures SortedBy(r, key)
    ensures multiset(r) == multiset(s)
    ensures |r| == |s| && forall x :: x in r <==> x in s
  {
    if |s| == 0 then []
    else
      assert s == [s[0]] + s[1..];
      var t := SortBy(s[1..], key);
      InsertSorted(s[0], t, key);
      var r := Insert(s[0], t, key);
      assert forall x :: x in r <==> x in multiset(r);
      r
  }

  /**
   * Insertion puts x ahead of every element with the same key: among the elements
   * of one key, x comes first and the others keep their order.
   */
  lemma {:induction false} InsertSameKey<T(!new)>(x: T, s: seq<T>, key: T -> int, p: T -> bool, k: int)
    requires forall y :: p(y) <==> key(y) == k
    ensures Filter(Insert(x, s, key), p) == Filter([x], p) + Filter(s, p)
  {
    if |s| == 0 || key(x) <= key(s[0]) {
      FilterAppend([x], s, p);
    } else {
      var t := Insert(x, s[1..], key);
      assert Insert(x, s, key) == [s[0]] + t;
      InsertSameKey(x, s[1..], key, p, k);
      FilterAppend([s[0]], t, p);
      FilterAppend([s[0]], s[1..], p);
      FilterAppend([x], [], p);
      assert s == [s[0]] + s[1..];
    }
  }

  /** The elements of s whose key is k, in the order s has them */
  function KeyClass<T(!new)>(s: seq<T>, key: T -> int, k: int): (r: seq<T>)
    ensures forall x :: x in r <==> x in s && key(x) == k
  {
    Filter(s, (y: T) => key(y) == k)
  }

  /** Sorting keeps the elements of every key in their order */
  lemma SortByKeepsClasses<T(!new)>(s: seq<T>, key: T -> int)
    ensures forall k :: KeyClass(SortBy(s, key), key, k) == KeyClass(s, key, k)
  {
    forall k ensures KeyClass(SortBy(s, key), key, k) == KeyClass(s, key, k) {
      SortByStable(s, key, (y: T) => key(y) == k, k);
    }
  }

  /** The sort is stable: the elements of each key keep the order they had */
  lemma {:induction false} SortByStable<T(!new)>(s: seq<T>, key: T -> int, p: T -> bool, k: int)
    requires forall y :: p(y) <==> key(y) == k
    ensures Filter(SortBy(s, key), p) == Filter(s, p)
  {
    if |s| > 0 {
      var t := SortBy(s[1..], key);
      SortByStable(s[1..], key, p, k);
      InsertSameKey(s[0], t, key, p, k);
      assert s == [s[0]] + s[1..];
      FilterAppend([s[0]], s[1..], p);
    }
  }

  /** `list.slice(0, n)` */
  function Take<T(!new)>(s: seq<T>, n: nat): (r: seq<T>)
    ensures |r| == if |s| < n then |s| else n
    ensures r == s[..|r|]
    ensures forall x :: x in r ==> x in s
    ensures |s| <= n ==> r == s
  {
    if |s| <= n then s else s[..n]
  }

  // ---------------------------------------------------------------------
  // Person picker and victim search
  // ---------------------------------------------------------------------

  /** The person picker keeps a staff member of the chosen company filed under the chosen tab */
  predicate ShowsInTab(p: Staff, companyId: Option<string>, groupLabel: string) {
    companyId == Some(p.companyId) && (groupLabel == "" || KanaGroupFromKana(p.kana) == groupLabel)
  }

  /** renderPersonList's list: the company's staff under the tab, by reading */
  function PersonList(m: Master, companyId: Option<string>, groupLabel: string, rank: string -> int)
    : (r: seq<Staff>)
    ensures forall p :: p in r <==> p in m.staff && ShowsInTab(p, companyId, groupLabel)
    ensures SortedBy(r, (p: Staff) => rank(p.kana))
    ensures multiset(r) == multiset(Filter(m.staff, (p: Staff) => ShowsInTab(p, companyId, groupLabel)))
    ensures var kept := Filter(m.staff, (p: Staff) => ShowsInTab(p, companyId, groupLabel));
      var key := (p: Staff) => rank(p.kana);
      forall k :: KeyClass(r, key, k) == KeyClass(kept, key, k)
  {
    var kept := Filter(m.staff, (p: Staff) => ShowsInTab(p, companyId, groupLabel));
    var key := (p: Staff) => rank(p.kana);
    assert forall p :: p in kept <==> p in m.staff && ShowsInTab(p, companyId, groupLabel);
    SortByKeepsClasses(kept, key);
    SortBy(kept, key)
  }

  /**
   * Every staff member of a company shows under one tab of the bar, and under no
   * other tab: a non-empty tab label shows only the readings filed under it.
   */
  lemma PersonUnderOneTab(m: Master, p: Staff, rank: string -> int)
    requires p in m.staff
    ensures KanaGroupFromKana(p.kana) in KanaBar && p in PersonList(m, Some(p.companyId), KanaGroupFromKana(p.kana), rank)
    ensures forall g :: g != "" && p in PersonList(m, Some(p.companyId), g, rank) ==> g == KanaGroupFromKana(p.kana)
  {
    KanaGroupOnBar(p.kana);
    assert ShowsInTab(p, Some(p.companyId), KanaGroupFromKana(p.kana));
  }

  /** The victim search's haystack: name, reading and company name, space-separated */
  function Haystack(m: Master, p: Staff): string {
    var company := GetCompany(m, Some(p.companyId));
    p.name + " " + p.kana + " " + (if company.Some? then company.value.name else "")
  }

  predicate VictimMatches(m: Master, q: string, p: Staff) {
    q == "" || Includes(Haystack(m, p), q)
  }

  const VictimCap := 60

  /**
   * renderVictimSearchList's list: matches of the trimmed query, by reading, at
   * most 60; the cap drops matches that sort after every listed one, and of the
   * matches of one reading it keeps the first, in the staff table's order.
   */
  function VictimList(m: Master, query: string, rank: string -> int): (r: seq<Staff>)
    ensures var matches := (p: Staff) => VictimMatches(m, Trim(query), p);
      var key := (p: Staff) => rank(p.kana);
      var n := |Filter(m.staff, matches)|;
      && |r| == (if n < VictimCap then n else VictimCap)
      && (forall p :: p in r ==> p in m.staff && matches(p))
      && SortedBy(r, key)
      && (forall p, q :: p in r && q in m.staff && matches(q) && q !in r ==> key(p) <= key(q))
      && (n <= VictimCap ==> forall p :: p in m.staff && matches(p) ==> p in r)
      && (forall k :: KeyClass(r, key, k) <= KeyClass(Filter(m.staff, matches), key, k))
  {
    var matches := (p: Staff) => VictimMatches(m, Trim(query), p);
    var key := (p: Staff) => rank(p.kana);
    FirstByKey(m.staff, matches, key, VictimCap);
    Take(SortBy(Filter(m.staff, matches), key), VictimCap)
  }

  /** The first `n` matches by key: as many as the cap allows, only matches, ordered, none beaten by one left out */
  lemma FirstByKey<T(!new)>(s: seq<T>, p: T -> bool, key: T -> int, n: nat)
    ensures var kept := Filter(s, p);
      var r := Take(SortBy(kept, key), n);
      && |r| == (if |kept| < n then |kept| else n)
      && (forall x :: x in r ==> x in s && p(x))
      && SortedBy(r, key)
      && (forall x, y :: x in r && y in s && p(y) && y !in r ==> key(x) <= key(y))
      && (|kept| <= n ==> forall x :: x in s && p(x) ==> x in r)
      && (forall k :: KeyClass(r, key, k) <= KeyClass(kept, key, k))
  {
    var kept := Filter(s, p);
    var sorted := SortBy(kept, key);
    TakeSortedBound(sorted, key, n);
    TakeSorted(sorted, key, n);
    SortByKeepsClasses(kept, key);
    TakeKeepsFirstOfClass(sorted, key, n);
  }

  /** Of each key, a prefix keeps the first elements */
  lemma TakeKeepsFirstOfClass<T(!new)>(s: seq<T>, key: T -> int, n: nat)
    ensures forall k :: KeyClass(Take(s, n), key, k) <= KeyClass(s, key, k)
  {
    var r := Take(s, n);
    assert s == r + s[|r|..];
    forall k ensures KeyClass(r, key, k) <= KeyClass(s, key, k) {
      FilterAppend(r, s[|r|..], (y: T) => key(y) == k);
    }
  }

  /** A prefix of an ordered list is ordered */
  lemma TakeSorted<T(!new)>(s: seq<T>, key: T -> int, n: nat)
    requires SortedBy(s, key)
    ensures SortedBy(Take(s, n), key)
  {
    var r := Take(s, n);
    assert forall t :: 0 <= t < |r| ==> r[t] == s[t];
  }

  /** The first n of a sorted sequence have keys no larger than any element left out */
  lemma TakeSortedBound<T(!new)>(s: seq<T>, key: T -> int, n: nat)
    requires SortedBy(s, key)
    ensures forall x, y :: x in Take(s, n) && y in s && y !in Take(s, n) ==> key(x) <= key(y)
  {
    var r := Take(s, n);
    forall x, y | x in r && y in s && y !in r ensures key(x) <= key(y) {
      var i :| 0 <= i < |r| && r[i] == x;
      var j :| 0 <= j < |s| && s[j] == y;
      assert forall t :: 0 <= t < |r| ==> s[t] == r[t];
      assert s[i] == x;
    }
  }

  /** A blank query lists everyone, up to the cap */
  lemma BlankQueryListsAll(m: Master, query: string, rank: string -> int)
    requires AllWs(query) && |m.staff| <= VictimCap
    ensures forall p :: p in m.staff ==> p in VictimList(m, query, rank)
  {
    TrimAllWs(query);
    assert forall p :: p in m.staff ==> VictimMatches(m, Trim(query), p);
    assert |Filter(m.staff, (p: Staff) => VictimMatches(m, Trim(query), p))| <= VictimCap;
  }
}
