/**
 * Composing the notification: `{token}` templates, the local time stamp,
 * recipient resolution for the quick flow and the guided flow, the quick-flow
 * mail, the guided flow's fixed-layout preview, and the text handed to the
 * clipboard and the mailto link.
 */
module Compose {
  import opened Common
  import opened Records
  import opened Session

  // ---------------------------------------------------------------------
  // interpolate: the regular expression /\{(\w+)\}/g
  // ---------------------------------------------------------------------

  /** `\w`: an ASCII letter, digit or underscore */
  predicate IsWordChar(c: char) {
    ('a' <= c <= 'z') || ('A' <= c <= 'Z') || ('0' <= c <= '9') || c == '_'
  }

  predicate IsWord(k: string) {
    |k| > 0 && forall i :: 0 <= i < |k| ==> IsWordChar(k[i])
  }

  /** Length of the run of word characters at the front of s */
  function WordRun(s: string): (n: nat)
    ensures n <= |s|
    ensures forall i :: 0 <= i < n ==> IsWordChar(s[i])
    ensures n < |s| ==> !IsWordChar(s[n])
  {
    if |s| == 0 || !IsWordChar(s[0]) then 0
    else
      var k := WordRun(s[1..]);
      assert forall i :: 1 <= i < k + 1 ==> s[i] == s[1..][i - 1];
      1 + k
  }

  /**
   * s starts with a match of the pattern: `{`, the longest run of word characters
   * (at least one), `}`. Backtracking to a shorter run cannot help, since the
   * character after it is a word character and not `}`.
   */
  predicate TokenAt(s: string) {
    |s| >= 3 && s[0] == '{' && WordRun(s[1..]) > 0
    && 1 + WordRun(s[1..]) < |s| && s[1 + WordRun(s[1..])] == '}'
  }

  /** The token name of a match at the front of s */
  function TokenName(s: string): (k: string)
    requires TokenAt(s)
    ensures |k| == WordRun(s[1..])
    ensures IsWord(k) && s[..|k| + 2] == "{" + k + "}"
  {
    var k := s[1..1 + WordRun(s[1..])];
    assert forall i :: 0 <= i < |k| ==> k[i] == s[1..][i];
    k
  }

  /** Each match replaced by `lookup(name)`, every other character copied */
  function Substitute(tpl: string, lookup: string -> string): string
    decreases |tpl|
  {
    if |tpl| == 0 then ""
    else if TokenAt(tpl) then
      var k := TokenName(tpl);
      lookup(k) + Substitute(tpl[|k| + 2..], lookup)
    else [tpl[0]] + Substitute(tpl[1..], lookup)
  }

  /** Literal text without `{` is copied, and the rest is substituted on its own */
  lemma {:induction false} SubstituteLiteralPrefix(a: string, b: string, lookup: string -> string)
    requires '{' !in a
    ensures Substitute(a + b, lookup) == a + Substitute(b, lookup)
    decreases |a|
  {
    if |a| > 0 {
      var s := a + b;
      assert s[0] == a[0] && a[0] != '{';
      assert !TokenAt(s);
      assert s[1..] == a[1..] + b;
      assert '{' !in a[1..];
      SubstituteLiteralPrefix(a[1..], b, lookup);
      assert a == [a[0]] + a[1..];
    } else {
      assert a + b == b;
    }
  }

  lemma {:induction false} WordRunOfWord(k: string, rest: string)
    requires IsWord(k) && |rest| > 0 && !IsWordChar(rest[0])
    ensures WordRun(k + rest) == |k|
  {
    assert (k + rest)[0] == k[0];
    assert (k + rest)[1..] == k[1..] + rest;
    if |k| == 1 {
      assert k[1..] + rest == rest;
    } else {
      WordRunOfWord(k[1..], rest);
    }
  }

  /** A `{name}` token is replaced by the lookup's text for the name */
  lemma SubstituteToken(k: string, rest: string, lookup: string -> string)
    requires IsWord(k)
    ensures Substitute("{" + k + "}" + rest, lookup) == lookup(k) + Substitute(rest, lookup)
  {
    var s := "{" + k + "}" + rest;
    assert s[1..] == k + ("}" + rest);
    WordRunOfWord(k, "}" + rest);
    assert s[1 + |k|] == '}';
    assert TokenAt(s);
    assert s[1..1 + |k|] == k;
    assert TokenName(s) == k;
    assert s[|k| + 2..] == rest;
  }

  /** `vars[k] != null ? String(vars[k]) : ''` over the variables' own keys */
  function VarText(vars: map<string, string>, k: string): string {
    if k in vars then vars[k] else ""
  }

  /** interpolate, where only the variables themselves are looked up */
  function Interpolate(tpl: string, vars: map<string, string>): string {
    Substitute(tpl, k => VarText(vars, k))
  }

  /** A template without `{` comes out unchanged */
  lemma InterpolateNoBrace(tpl: string, vars: map<string, string>)
    requires '{' !in tpl
    ensures Interpolate(tpl, vars) == tpl
  {
    SubstituteLiteralPrefix(tpl, "", k => VarText(vars, k));
    assert tpl + "" == tpl;
  }

  /** Literal text without `{` is copied and the rest is interpolated on its own */
  lemma InterpolateLiteralPrefix(a: string, b: string, vars: map<string, string>)
    requires '{' !in a
    ensures Interpolate(a + b, vars) == a + Interpolate(b, vars)
  {
    SubstituteLiteralPrefix(a, b, k => VarText(vars, k));
  }

  /** A `{name}` token is replaced by the variable's text, or by `''` when there is none */
  lemma InterpolateToken(k: string, rest: string, vars: map<string, string>)
    requires IsWord(k)
    ensures Interpolate("{" + k + "}" + rest, vars) == VarText(vars, k) + Interpolate(rest, vars)
  {
    SubstituteToken(k, rest, k => VarText(vars, k));
  }

  /** Names of the tokens a template holds */
  function TokenNames(tpl: string): set<string>
    decreases |tpl|
  {
    if |tpl| == 0 then {}
    else if TokenAt(tpl) then {TokenName(tpl)} + TokenNames(tpl[|TokenName(tpl)| + 2..])
    else TokenNames(tpl[1..])
  }

  /**
   * Interpolation puts back exactly what it reads: when every token's variable is
   * the token's own text, the template comes out unchanged.
   */
  lemma {:induction false} InterpolateSelf(tpl: string, vars: map<string, string>)
    requires forall k :: k in TokenNames(tpl) ==> k in vars && vars[k] == "{" + k + "}"
    ensures Interpolate(tpl, vars) == tpl
    decreases |tpl|
  {
    if |tpl| > 0 {
      if TokenAt(tpl) {
        var k := TokenName(tpl);
        InterpolateSelf(tpl[|k| + 2..], vars);
        assert tpl == tpl[..|k| + 2] + tpl[|k| + 2..];
      } else {
        InterpolateSelf(tpl[1..], vars);
        assert tpl == [tpl[0]] + tpl[1..];
      }
    }
  }

  // The program's lookup `vars[k]` also sees the members every object inherits
  // from Object.prototype; `String()` of each is what a token with that name yields.

  /** Names of the members an object literal inherits from Object.prototype */
  const InheritedNames: seq<string> :=
    ["constructor", "__proto__", "toString", "toLocaleString", "valueOf", "hasOwnProperty",
     "isPrototypeOf", "propertyIsEnumerable", "__defineGetter__", "__defineSetter__",
     "__lookupGetter__", "__lookupSetter__"]

  /** `String(Object.prototype[k])` for an inherited name */
  function InheritedText(k: string): Option<string> {
    if k !in InheritedNames then None
    else if k == "constructor" then Some("function Object() { [native code] }")
    else if k == "__proto__" then Some("[object Object]")
    else Some("function " + k + "() { [native code] }")
  }

  /** What `vars[k]` reads as written: an own key, else an inherited member, else nothing */
  function ProtoText(vars: map<string, string>, k: string): string {
    if k in vars then vars[k] else InheritedText(k).GetOr("")
  }

  /** interpolate as written: inherited members count as present */
  function InterpolateAsWritten(tpl: string, vars: map<string, string>): string {
    Substitute(tpl, k => ProtoText(vars, k))
  }

  /** The two agree on every template whose tokens name variables or nothing inherited */
  lemma {:induction false} AsWrittenAgrees(tpl: string, vars: map<string, string>)
    requires forall k :: k in TokenNames(tpl) ==> k in vars || k !in InheritedNames
    ensures InterpolateAsWritten(tpl, vars) == Interpolate(tpl, vars)
    decreases |tpl|
  {
    if |tpl| > 0 {
      if TokenAt(tpl) {
        AsWrittenAgrees(tpl[|TokenName(tpl)| + 2..], vars);
      } else {
        AsWrittenAgrees(tpl[1..], vars);
      }
    }
  }

  /** A `{constructor}` token renders the Object constructor's source text instead of `''` */
  lemma ConstructorTokenLeaks(vars: map<string, string>)
    requires "constructor" !in vars
    ensures InterpolateAsWritten("{constructor}", vars) == "function Object() { [native code] }"
    ensures Interpolate("{constructor}", vars) == ""
  {
    var k := "constructor";
    assert IsWord(k);
    assert "{constructor}" == "{" + k + "}" + "";
    SubstituteToken(k, "", k => ProtoText(vars, k));
    SubstituteToken(k, "", k => VarText(vars, k));
    assert k in InheritedNames;
  }

  // ---------------------------------------------------------------------
  // nowIsoLocal, over the clock's fields
  // ---------------------------------------------------------------------

  /** `String(n).padStart(2, '0')` for a two-digit field */
  function Pad2(n: nat): (r: string)
    requires n < 100
    ensures |r| == 2 && IsDigit(r[0]) && IsDigit(r[1]) && DecimalValue(r) == n
  {
    var r := [DigitChar(n / 10), DigitChar(n % 10)];
    assert r[..1] == [DigitChar(n / 10)];
    assert r[..1][..0] == [];
    assert DecimalValue(r[..1]) == n / 10;
    r
  }

  /** `YYYY-MM-DD hh:mm` from the local date fields (month counted from 0, as getMonth does) */
  function FormatLocalTime(year: nat, month0: nat, day: nat, hour: nat, minute: nat): string
    requires month0 < 12 && 1 <= day <= 31 && hour < 24 && minute < 60
  {
    Decimal(year) + ("-" + Pad2(month0 + 1) + "-" + Pad2(day) + " " + Pad2(hour) + ":" + Pad2(minute))
  }

  datatype LocalTime = LocalTime(year: nat, month: nat, day: nat, hour: nat, minute: nat)

  predicate AllDigits(s: string) {
    forall i :: 0 <= i < |s| ==> IsDigit(s[i])
  }

  /** Read a time stamp back: the year, then twelve fixed-width characters */
  function ParseLocalTime(s: string): Option<LocalTime> {
    if |s| < 13 then None
    else
      var n := |s| - 12;
      var y := s[..n];
      var t := s[n..];
      if AllDigits(y) && t[0] == '-' && t[3] == '-' && t[6] == ' ' && t[9] == ':'
         && AllDigits(t[1..3]) && AllDigits(t[4..6]) && AllDigits(t[7..9]) && AllDigits(t[10..12])
      then Some(LocalTime(DecimalValue(y), DecimalValue(t[1..3]), DecimalValue(t[4..6]),
                          DecimalValue(t[7..9]), DecimalValue(t[10..12])))
      else None
  }

  /** A time stamp reads back as the fields it was made from, with the month counted from 1 */
  lemma FormatLocalTimeRoundTrip(year: nat, month0: nat, day: nat, hour: nat, minute: nat)
    requires month0 < 12 && 1 <= day <= 31 && hour < 24 && minute < 60
    ensures ParseLocalTime(FormatLocalTime(year, month0, day, hour, minute))
      == Some(LocalTime(year, month0 + 1, day, hour, minute))
  {
    var a, b, c, d := Pad2(month0 + 1), Pad2(day), Pad2(hour), Pad2(minute);
    var t := "-" + a + "-" + b + " " + c + ":" + d;
    StampFields(a, b, c, d);
    assert AllDigits(a) && AllDigits(b) && AllDigits(c) && AllDigits(d);
    ParseStamp(Decimal(year), t);
    DecimalRoundTrip(year);
  }

  /** Where the four two-character fields sit in the twelve characters after the year */
  lemma StampFields(a: string, b: string, c: string, d: string)
    requires |a| == 2 && |b| == 2 && |c| == 2 && |d| == 2
    ensures var t := "-" + a + "-" + b + " " + c + ":" + d;
      && |t| == 12 && t[0] == '-' && t[3] == '-' && t[6] == ' ' && t[9] == ':'
      && t[1..3] == a && t[4..6] == b && t[7..9] == c && t[10..12] == d
  {
    var t := "-" + a + "-" + b + " " + c + ":" + d;
    assert t == ['-', a[0], a[1], '-', b[0], b[1], ' ', c[0], c[1], ':', d[0], d[1]];
  }

  /** The fixed-width layout splits back into its fields, whatever digits fill them */
  lemma ParseStamp(y: string, t: string)
    requires |y| >= 1 && AllDigits(y) && |t| == 12
    requires t[0] == '-' && t[3] == '-' && t[6] == ' ' && t[9] == ':'
    requires AllDigits(t[1..3]) && AllDigits(t[4..6]) && AllDigits(t[7..9]) && AllDigits(t[10..12])
    ensures ParseLocalTime(y + t)
      == Some(LocalTime(DecimalValue(y), DecimalValue(t[1..3]), DecimalValue(t[4..6]),
                        DecimalValue(t[7..9]), DecimalValue(t[10..12])))
  {
    SplitAt(y, t);
  }

  lemma SplitAt<T>(a: seq<T>, b: seq<T>)
    ensures (a + b)[..|a + b| - |b|] == a && (a + b)[|a + b| - |b|..] == b
  {
  }

  // ---------------------------------------------------------------------
  // normalizeEmails
  // ---------------------------------------------------------------------

  function TrimAll(parts: seq<string>): (r: seq<string>)
    ensures |r| == |parts| && forall i :: 0 <= i < |parts| ==> r[i] == Trim(parts[i])
  {
    seq(|parts|, i requires 0 <= i < |parts| => Trim(parts[i]))
  }

  /** A string with no whitespace at either end */
  predicate Trimmed(s: string) {
    s == [] || (!IsWs(s[0]) && !IsWs(s[|s| - 1]))
  }

  /** A comma-separated address list: comma-split, each piece trimmed, empty pieces dropped */
  function NormalizeEmails(s: string): (r: seq<string>)
    ensures forall e :: e in r ==> e != "" && ',' !in e && Trimmed(e)
    ensures forall e :: e in r <==> e != "" && exists i :: 0 <= i < |Split(s, ',')| && Trim(Split(s, ',')[i]) == e
  {
    var pieces := Split(s, ',');
    CleanPieces(pieces);
    NonEmpty(TrimAll(pieces))
  }

  /** Trimmed comma-free pieces with the empty ones dropped */
  lemma CleanPieces(pieces: seq<string>)
    requires forall i :: 0 <= i < |pieces| ==> ',' !in pieces[i]
    ensures var r := NonEmpty(TrimAll(pieces));
      && (forall e :: e in r ==> e != "" && ',' !in e && Trimmed(e))
      && (forall e :: e in r <==> e != "" && exists i :: 0 <= i < |pieces| && Trim(pieces[i]) == e)
  {
    var t := TrimAll(pieces);
    var r := NonEmpty(t);
    forall e ensures e in r <==> e != "" && exists i :: 0 <= i < |pieces| && Trim(pieces[i]) == e {
      if e in r {
        var i :| 0 <= i < |t| && t[i] == e;
        assert Trim(pieces[i]) == e;
      }
      if e != "" && exists i :: 0 <= i < |pieces| && Trim(pieces[i]) == e {
        var i :| 0 <= i < |pieces| && Trim(pieces[i]) == e;
        assert t[i] == e;
      }
    }
    forall e | e in r ensures e != "" && ',' !in e && Trimmed(e) {
      var i :| 0 <= i < |t| && t[i] == e;
      TrimIsSlice(pieces[i]);
    }
  }

  /** An empty address field holds no address */
  lemma NormalizeEmpty()
    ensures NormalizeEmails("") == []
  {
    var pieces := Split("", ',');
    assert pieces == [""];
    var trimmed := TrimAll(pieces);
    assert |trimmed| == 1 && trimmed[0] == Trim("") == "";
    assert trimmed == [""];
    assert NonEmpty(trimmed) == [];
  }

  lemma TrimIsSlice(s: string)
    ensures forall c :: c in Trim(s) ==> c in s
  {
    var a := LeadingWs(s);
    var r := Trim(s);
    forall c | c in r ensures c in s {
      var i :| 0 <= i < |r| && r[i] == c;
      assert s[a + i] == c;
    }
  }

  lemma TrimmedFixed(s: string)
    requires Trimmed(s)
    ensures Trim(s) == s
  {
    assert LeadingWs(s) == 0;
    assert s[0..] == s;
    assert TrailingWs(s) == 0;
  }

  /** Normalising a comma-joined list of clean addresses gives the list back */
  lemma NormalizeJoined(list: seq<string>)
    requires |list| >= 1
    requires forall i :: 0 <= i < |list| ==> list[i] != "" && ',' !in list[i] && Trimmed(list[i])
    ensures NormalizeEmails(Join(list, ",")) == list
  {
    SplitJoin(list, ',');
    assert Split(Join(list, [',']), ',') == list;
    forall i | 0 <= i < |list| ensures Trim(list[i]) == list[i] {
      TrimmedFixed(list[i]);
    }
    assert TrimAll(list) == list;
    NonEmptyKeeps(list);
  }

  lemma {:induction false} NonEmptyKeeps(s: seq<string>)
    requires forall i :: 0 <= i < |s| ==> s[i] != ""
    ensures NonEmpty(s) == s
  {
    if |s| > 0 {
      NonEmptyKeeps(s[1..]);
      assert s == [s[0]] + s[1..];
    }
  }

  // ---------------------------------------------------------------------
  // buildRecipientsForAction
  // ---------------------------------------------------------------------

  /** `master.sendScope || {every flag on}` */
  function QuickScope(m: Master): SendScope {
    m.sendScope.GetOr(SendScope(true, true, true, true))
  }

  /** The situation's group tokens for an action: emergency groups only for `'emergency'` */
  function ActionGroups(s: Option<Situation>, action: string): seq<string> {
    if s.None? then []
    else if action == "emergency" then s.value.includeEmergency
    else s.value.includeObserve
  }

  /** Group token g brings in address x: a known group, its flag on, its contact non-empty */
  predicate GroupReaches(g: string, scope: SendScope, gc: GlobalContacts, x: string) {
    || (g == "safetyHQ" && scope.safetyHQ && gc.safetyHQ != "" && x == gc.safetyHQ)
    || (g == "rescueTeam" && scope.rescueTeam && gc.rescueTeam != "" && x == gc.rescueTeam)
    || (g == "ambulanceCenter" && scope.ambulanceCenter && gc.ambulanceCenter != "" && x == gc.ambulanceCenter)
  }

  /** What one group token pushes */
  function GroupContact(g: string, scope: SendScope, gc: GlobalContacts): (r: seq<string>)
    ensures forall x :: x in r <==> GroupReaches(g, scope, gc, x)
  {
    (if g == "safetyHQ" && scope.safetyHQ && gc.safetyHQ != "" then [gc.safetyHQ] else [])
    + (if g == "rescueTeam" && scope.rescueTeam && gc.rescueTeam != "" then [gc.rescueTeam] else [])
    + (if g == "ambulanceCenter" && scope.ambulanceCenter && gc.ambulanceCenter != "" then [gc.ambulanceCenter] else [])
  }

  /** The addresses the group loop pushes, in push order */
  function GroupContacts(groups: seq<string>, scope: SendScope, gc: GlobalContacts): (r: seq<string>)
    ensures forall x :: x in r <==> exists i :: 0 <= i < |groups| && GroupReaches(groups[i], scope, gc, x)
  {
    if |groups| == 0 then []
    else
      var init := groups[..|groups| - 1];
      var r0 := GroupContacts(init, scope, gc);
      assert forall i :: 0 <= i < |init| ==> init[i] == groups[i];
      r0 + GroupContact(groups[|groups| - 1], scope, gc)
  }

  /** `scope.companyEmails && c && c.emails ? c.emails : []` */
  function CompanyPart(scope: SendScope, c: Option<Company>): seq<string> {
    if scope.companyEmails && c.Some? then c.value.emails else []
  }

  method BuildRecipientsForAction(m: Master, s: Option<Situation>, c: Option<Company>, action: string)
    returns (r: seq<string>)
    ensures var scope := QuickScope(m);
      r == Dedupe(NonEmpty(GroupContacts(ActionGroups(s, action), scope, m.globalContacts) + CompanyPart(scope, c)))
    ensures Distinct(r) && "" !in r
    ensures forall x :: x in r <==>
      x != "" && (
        || (exists i :: 0 <= i < |ActionGroups(s, action)|
              && GroupReaches(ActionGroups(s, action)[i], QuickScope(m), m.globalContacts, x))
        || x in CompanyPart(QuickScope(m), c))
  {
    var scope := QuickScope(m);
    var gc := m.globalContacts;
    var groups := ActionGroups(s, action);
    var to: seq<string> := [];
    var i := 0;
    while i < |groups|
      invariant i <= |groups|
      invariant to == GroupContacts(groups[..i], scope, gc)
    {
      to := PushGroup(to, groups[i], scope, gc);
      GroupContactsSnoc(groups, i, scope, gc);
      i := i + 1;
    }
    assert groups[..i] == groups;
    to := to + CompanyPart(scope, c);
    r := Dedupe(NonEmpty(to));
    RecipientsReach(groups, scope, gc, CompanyPart(scope, c));
  }

  /** One pass of the group loop: push the contact the token reaches, if any */
  method PushGroup(to: seq<string>, g: string, scope: SendScope, gc: GlobalContacts) returns (r: seq<string>)
    ensures r == to + GroupContact(g, scope, gc)
  {
    r := to;
    if g == "safetyHQ" && scope.safetyHQ && gc.safetyHQ != "" {
      r := r + [gc.safetyHQ];
    }
    if g == "rescueTeam" && scope.rescueTeam && gc.rescueTeam != "" {
      r := r + [gc.rescueTeam];
    }
    if g == "ambulanceCenter" && scope.ambulanceCenter && gc.ambulanceCenter != "" {
      r := r + [gc.ambulanceCenter];
    }
  }

  lemma GroupContactsSnoc(groups: seq<string>, i: nat, scope: SendScope, gc: GlobalContacts)
    requires i < |groups|
    ensures GroupContacts(groups[..i + 1], scope, gc) == GroupContacts(groups[..i], scope, gc) + GroupContact(groups[i], scope, gc)
  {
    assert groups[..i + 1][..i] == groups[..i];
  }

  /** Who the de-duplicated, non-empty recipient list holds */
  lemma RecipientsReach(groups: seq<string>, scope: SendScope, gc: GlobalContacts, cp: seq<string>)
    ensures var r := Dedupe(NonEmpty(GroupContacts(groups, scope, gc) + cp));
      Distinct(r) && "" !in r
      && forall x :: x in r <==>
        x != "" && ((exists i :: 0 <= i < |groups| && GroupReaches(groups[i], scope, gc, x)) || x in cp)
  {
    var t := GroupContacts(groups, scope, gc) + cp;
    var n := NonEmpty(t);
    var r := Dedupe(n);
    forall x ensures x in r <==> x in t && x != "" {
      assert x in r <==> x in n;
    }
  }

  lemma {:induction false} NonEmptyAppend(a: seq<string>, b: seq<string>)
    ensures NonEmpty(a + b) == NonEmpty(a) + NonEmpty(b)
  {
    if |a| > 0 {
      assert (a + b)[1..] == a[1..] + b;
      NonEmptyAppend(a[1..], b);
    } else {
      assert a + b == b;
    }
  }

  /** In a first-occurrence list, the earlier first occurrence comes first */
  lemma DedupeKeepsOrder<T(!new)>(s: seq<T>, x: T, y: T)
    requires x in s && y in s && IndexOf(s, x) < IndexOf(s, y)
    ensures IndexOf(Dedupe(s), x) < IndexOf(Dedupe(s), y)
  {
    var r := Dedupe(s);
  }

  /** Every group contact precedes every address only the company brings */
  lemma GroupContactsFirst(m: Master, s: Option<Situation>, c: Option<Company>, action: string, x: string, y: string)
    requires var scope := QuickScope(m);
      var g := GroupContacts(ActionGroups(s, action), scope, m.globalContacts);
      && x in g && x != ""
      && y in CompanyPart(scope, c) && y !in g && y != ""
    ensures var scope := QuickScope(m);
      var r := Dedupe(NonEmpty(GroupContacts(ActionGroups(s, action), scope, m.globalContacts) + CompanyPart(scope, c)));
      x in r && y in r && IndexOf(r, x) < IndexOf(r, y)
  {
    var scope := QuickScope(m);
    var g := GroupContacts(ActionGroups(s, action), scope, m.globalContacts);
    var cp := CompanyPart(scope, c);
    NonEmptyAppend(g, cp);
    var ng := NonEmpty(g);
    var nc := NonEmpty(cp);
    assert x in ng && y in nc && y !in ng;
    var all := ng + nc;
    assert all[IndexOf(ng, x)] == x;
    DedupeKeepsOrder(all, x, y);
  }

  // ---------------------------------------------------------------------
  // buildMail
  // ---------------------------------------------------------------------

  const NoNoteMarker := "（追記なし）"
  const FallbackSubject := "[命をツナグ] 連絡"
  const FallbackBody := "{person} {company} {time}"

  /** The variables a quick-flow mail template sees */
  function MailVars(c: Option<Company>, p: Option<Staff>, bp: Option<BodyPart>, detailNote: string, time: string)
    : (vars: map<string, string>)
    ensures vars.Keys == {"company", "person", "time", "part", "detail"}
    ensures vars["company"] == (if c.Some? then c.value.name else "")
    ensures vars["person"] == (if p.Some? then p.value.name else "")
    ensures vars["part"] == (if bp.Some? then bp.value.labelText else "")
    ensures vars["time"] == time
    ensures vars["detail"] != "" && (detailNote != "" ==> vars["detail"] == detailNote)
    ensures detailNote == "" ==> vars["detail"] == NoNoteMarker
  {
    map["company" := if c.Some? then c.value.name else "",
        "person" := if p.Some? then p.value.name else "",
        "time" := time,
        "part" := if bp.Some? then bp.value.labelText else "",
        "detail" := OrStr(detailNote, NoNoteMarker)]
  }

  /** `s?.subjectTpl || '[命をツナグ] 連絡'` */
  function SubjectTemplate(s: Option<Situation>): string {
    if s.Some? then OrStr(s.value.subjectTpl, FallbackSubject) else FallbackSubject
  }

  /** The action's body template, or `'{person} {company} {time}'` */
  function BodyTemplate(s: Option<Situation>, action: string): string {
    if s.None? then FallbackBody
    else OrStr(if action == "emergency" then s.value.bodyTplEmergency else s.value.bodyTplObserve, FallbackBody)
  }

  /** The notification buildMail composes from the selected records, the note and the clock reading */
  function QuickMail(m: Master, s: Option<Situation>, c: Option<Company>, p: Option<Staff>, bp: Option<BodyPart>,
                     detailNote: string, time: string, action: string): (mail: Mail)
    ensures Distinct(mail.to) && "" !in mail.to
  {
    var scope := QuickScope(m);
    var vars := MailVars(c, p, bp, detailNote, time);
    Mail(Dedupe(NonEmpty(GroupContacts(ActionGroups(s, action), scope, m.globalContacts) + CompanyPart(scope, c))),
         InterpolateAsWritten(SubjectTemplate(s), vars),
         InterpolateAsWritten(BodyTemplate(s, action), vars))
  }

  /** buildMail, given the selected records, the note and the clock reading */
  method BuildMail(m: Master, s: Option<Situation>, c: Option<Company>, p: Option<Staff>, bp: Option<BodyPart>,
                   detailNote: string, time: string, action: string)
    returns (mail: Mail)
    ensures var scope := QuickScope(m);
      mail.to == Dedupe(NonEmpty(GroupContacts(ActionGroups(s, action), scope, m.globalContacts) + CompanyPart(scope, c)))
    ensures mail.subject == InterpolateAsWritten(SubjectTemplate(s), MailVars(c, p, bp, detailNote, time))
    ensures mail.body == InterpolateAsWritten(BodyTemplate(s, action), MailVars(c, p, bp, detailNote, time))
    ensures mail == QuickMail(m, s, c, p, bp, detailNote, time, action)
  {
    var vars := MailVars(c, p, bp, detailNote, time);
    var subject := InterpolateAsWritten(SubjectTemplate(s), vars);
    var body := InterpolateAsWritten(BodyTemplate(s, action), vars);
    var to := BuildRecipientsForAction(m, s, c, action);
    mail := Mail(to, subject, body);
  }

  /** Without a situation template the subject is the fixed fallback, in both readings of `vars[k]` */
  lemma SubjectFallback(vars: map<string, string>)
    ensures InterpolateAsWritten(FallbackSubject, vars) == FallbackSubject
    ensures Interpolate(FallbackSubject, vars) == FallbackSubject
  {
    InterpolateNoBrace(FallbackSubject, vars);
    SubstituteLiteralPrefix(FallbackSubject, "", k => ProtoText(vars, k));
    assert FallbackSubject + "" == FallbackSubject;
  }

  lemma SpaceToken(k: string, rest: string, lookup: string -> string)
    requires IsWord(k)
    ensures Substitute(" " + ("{" + k + "}" + rest), lookup) == " " + (lookup(k) + Substitute(rest, lookup))
  {
    SubstituteLiteralPrefix(" ", "{" + k + "}" + rest, lookup);
    SubstituteToken(k, rest, lookup);
  }

  /** A template of three space-separated tokens */
  lemma ThreeTokens(a: string, b: string, c: string, lookup: string -> string)
    requires IsWord(a) && IsWord(b) && IsWord(c)
    ensures Substitute("{" + a + "}" + (" " + ("{" + b + "}" + (" " + ("{" + c + "}" + "")))), lookup)
      == lookup(a) + (" " + (lookup(b) + (" " + lookup(c))))
  {
    var s2 := " " + ("{" + c + "}" + "");
    var s1 := " " + ("{" + b + "}" + s2);
    SubstituteToken(a, s1, lookup);
    SpaceToken(b, s2, lookup);
    SpaceToken(c, "", lookup);
    SubstituteEmpty(lookup);
    assert lookup(c) + "" == lookup(c);
  }

  lemma SubstituteEmpty(lookup: string -> string)
    ensures Substitute("", lookup) == ""
  {
  }

  /**
   * Without a body template the body names the person, the company and the time,
   * space-separated; none of the three names is inherited, so both readings agree.
   */
  lemma BodyFallback(vars: map<string, string>)
    ensures InterpolateAsWritten(FallbackBody, vars)
      == VarText(vars, "person") + (" " + (VarText(vars, "company") + (" " + VarText(vars, "time"))))
    ensures Interpolate(FallbackBody, vars) == InterpolateAsWritten(FallbackBody, vars)
  {
    FallbackBodyTokens();
    var own := k => VarText(vars, k);
    var proto := k => ProtoText(vars, k);
    ThreeTokens("person", "company", "time", own);
    ThreeTokens("person", "company", "time", proto);
    OwnName(vars, "person");
    OwnName(vars, "company");
    OwnName(vars, "time");
  }

  /** A name nothing inherits reads the same either way */
  lemma OwnName(vars: map<string, string>, k: string)
    requires k == "person" || k == "company" || k == "time"
    ensures ProtoText(vars, k) == VarText(vars, k)
  {
    assert k !in InheritedNames;
  }

  lemma FallbackBodyTokens()
    ensures IsWord("person") && IsWord("company") && IsWord("time")
    ensures FallbackBody == "{" + "person" + "}" + (" " + ("{" + "company" + "}" + (" " + ("{" + "time" + "}" + ""))))
  {
  }

  /** A `{detail}` token shows the note, or the no-note marker when the note is empty */
  lemma DetailTokenMarksEmptyNote(c: Option<Company>, p: Option<Staff>, bp: Option<BodyPart>, detailNote: string, time: string)
    ensures InterpolateAsWritten("{detail}", MailVars(c, p, bp, detailNote, time))
      == if detailNote == "" then NoNoteMarker else detailNote
  {
    var vars := MailVars(c, p, bp, detailNote, time);
    assert "{detail}" == "{" + "detail" + "}" + "";
    SubstituteToken("detail", "", k => ProtoText(vars, k));
  }

  // ---------------------------------------------------------------------
  // The guided flow's preview
  // ---------------------------------------------------------------------

  /** yesNoUnknownLabel */
  function YesNoUnknownLabel(v: Option<string>): string {
    if v == Some("yes") then "あり"
    else if v == Some("no") then "なし"
    else if v == Some("unknown") then "不明"
    else "未選択"
  }

  predicate IsAnswer(v: Option<string>) {
    v == Some("yes") || v == Some("no") || v == Some("unknown")
  }

  /** The label tells the three answers apart and shows '未選択' exactly for anything else */
  lemma YesNoUnknownLabelFaithful(a: Option<string>, b: Option<string>)
    ensures YesNoUnknownLabel(a) == "未選択" <==> !IsAnswer(a)
    ensures IsAnswer(a) && YesNoUnknownLabel(a) == YesNoUnknownLabel(b) ==> a == b
  {
  }

  /** The accident step's chips: `master.accidentTypes`, or six built-in types when it is missing */
  const DefaultAccidentTypes: seq<AccidentType> :=
    [AccidentType("bleeding_major", "大量出血"), AccidentType("fall", "転落"), AccidentType("electric", "感電"),
     AccidentType("crush", "挟まれ"), AccidentType("burn", "熱傷"), AccidentType("other", "その他")]

  function ChipTypes(defs: Option<seq<AccidentType>>): seq<AccidentType> {
    defs.GetOr(DefaultAccidentTypes)
  }

  /**
   * getAccidentLabel as written: the key is looked up in `master.accidentTypes || []`;
   * the first type with that key gives its label (or the key when the label is empty),
   * and a key no type has is shown as it is.
   */
  function GetAccidentLabel(defs: Option<seq<AccidentType>>, key: string): (r: string)
    ensures key != "" ==> r != ""
    ensures forall i ::
      (0 <= i < |defs.GetOr([])| && defs.GetOr([])[i].key == key
       && forall j :: 0 <= j < i ==> defs.GetOr([])[j].key != key) ==>
      r == OrStr(defs.GetOr([])[i].labelText, key)
    ensures (forall d :: d in defs.GetOr([]) ==> d.key != key) ==> r == key
  {
    var p := (d: AccidentType) => d.key == key;
    FindFirst(defs.GetOr([]), p);
    var hit := Find(defs.GetOr([]), p);
    if hit.Some? then OrStr(hit.value.labelText, key) else key
  }

  /** Without `accidentTypes`, the as-written label of every key is the key itself */
  lemma AccidentLabelsWithoutDefs(key: string)
    ensures GetAccidentLabel(None, key) == key
  {
  }

  /** With the built-in chips, the as-written preview names the 転落 chip by its key */
  lemma ChipLabelLost()
    ensures ChipTypes(None)[1] == AccidentType("fall", "転落")
    ensures GetAccidentLabel(None, "fall") == "fall"
    ensures AccidentLine(None, WizAccident(["fall"], "")) == "【事故区分】fall"
    ensures AccidentLabel(None, "fall") == "転落"
  {
    assert DefaultAccidentTypes[0].key != "fall";
    assert AccidentLabels(None, ["fall"]) == ["fall"];
    assert NonEmpty(["fall"]) == ["fall"];
  }

  /** getAccidentLabel as intended: the key is looked up among the chips the step showed */
  function AccidentLabel(defs: Option<seq<AccidentType>>, key: string): (r: string)
    ensures key != "" ==> r != ""
    ensures defs.Some? ==> r == GetAccidentLabel(defs, key)
  {
    GetAccidentLabel(Some(ChipTypes(defs)), key)
  }

  /** A chosen chip is named in the preview by the label it carries on screen */
  lemma AccidentLabelMatchesChip(defs: Option<seq<AccidentType>>, i: nat)
    requires i < |ChipTypes(defs)| && ChipTypes(defs)[i].labelText != ""
    requires forall j :: 0 <= j < i ==> ChipTypes(defs)[j].key != ChipTypes(defs)[i].key
    ensures AccidentLabel(defs, ChipTypes(defs)[i].key) == ChipTypes(defs)[i].labelText
  {
    var chips := ChipTypes(defs);
    assert Some(chips).GetOr([]) == chips;
  }

  /** The preview's labels, through getAccidentLabel as written */
  function AccidentLabels(defs: Option<seq<AccidentType>>, types: seq<string>): (r: seq<string>)
    ensures |r| == |types| && forall i :: 0 <= i < |types| ==> r[i] == GetAccidentLabel(defs, types[i])
  {
    seq(|types|, i requires 0 <= i < |types| => GetAccidentLabel(defs, types[i]))
  }

  /** `loc.unknown ? '（場所不明）' : (loc.name || '（場所未設定）')` */
  function LocationLabel(loc: WizLocation): (r: string)
    ensures r != ""
    ensures loc.unknown ==> r == "（場所不明）"
    ensures !loc.unknown && loc.name != "" ==> r == loc.name
    ensures !loc.unknown && loc.name == "" ==> r == "（場所未設定）"
  {
    if loc.unknown then "（場所不明）" else OrStr(loc.name, "（場所未設定）")
  }

  /** `staff?.name || v.name || (unknown ? '（被災者不明）' : '（被災者未設定）')` */
  function VictimLabel(v: WizVictim, staff: Option<Staff>): (r: string)
    ensures r != ""
    ensures staff.Some? && staff.value.name != "" ==> r == staff.value.name
    ensures (staff.None? || staff.value.name == "") && v.name != "" ==> r == v.name
    ensures (staff.None? || staff.value.name == "") && v.name == "" ==>
      r == if v.unknown then "（被災者不明）" else "（被災者未設定）"
  {
    var staffName := if staff.Some? then staff.value.name else "";
    OrStr(staffName, OrStr(v.name, if v.unknown then "（被災者不明）" else "（被災者未設定）"))
  }

  function OptLine(present: bool, line: string): seq<string> {
    if present then [line] else []
  }

  const Footer := "※このメールは「命をツナグ」から作成されました（未確定項目を含む場合があります）。"

  /** The discovery time and the two triage answers, then a blank line */
  function TriageSection(w: Wizard): (r: seq<string>)
    ensures |r| == 4
  {
    ["【発見時刻】" + w.startedAt,
     "【意識】" + YesNoUnknownLabel(w.triage.conscious),
     "【呼吸】" + YesNoUnknownLabel(w.triage.breathing),
     ""]
  }

  function LocationSection(loc: WizLocation): (r: seq<string>)
    ensures |r| == (if loc.qr != "" then 3 else 2)
  {
    ["【場所】" + LocationLabel(loc)] + OptLine(loc.qr != "", "場所QR: " + loc.qr) + [""]
  }

  /** The accident line: the labels joined by ' / ', or '未選択' when none is left */
  function AccidentLine(defs: Option<seq<AccidentType>>, acc: WizAccident): string {
    var labels := NonEmpty(AccidentLabels(defs, acc.types));
    "【事故区分】" + (if |labels| > 0 then Join(labels, " / ") else "未選択")
  }

  function AccidentSection(defs: Option<seq<AccidentType>>, acc: WizAccident): (r: seq<string>)
    ensures |r| == (if Trim(acc.note) != "" then 3 else 2)
  {
    [AccidentLine(defs, acc)] + OptLine(Trim(acc.note) != "", "補足: " + Trim(acc.note)) + [""]
  }

  function VictimSection(v: WizVictim, staff: Option<Staff>, company: Option<Company>): (r: seq<string>)
    ensures |r| == 1 + (if company.Some? && company.value.name != "" then 1 else 0)
      + (if staff.Some? && staff.value.id != "" then 1 else 0) + (if v.qr != "" then 1 else 0)
  {
    ["【被災者】" + VictimLabel(v, staff)]
    + OptLine(company.Some? && company.value.name != "", "所属: " + (if company.Some? then company.value.name else ""))
    + OptLine(staff.Some? && staff.value.id != "", "職員ID: " + (if staff.Some? then staff.value.id else ""))
    + OptLine(v.qr != "", "ヘルメットQR: " + v.qr)
  }

  const FooterSection: seq<string> := ["", "—", Footer]

  /** The preview's lines, in their fixed order */
  function WizardLines(w: Wizard, staff: Option<Staff>, company: Option<Company>, defs: Option<seq<AccidentType>>)
    : seq<string>
  {
    TriageSection(w) + (LocationSection(w.location) + (AccidentSection(defs, w.accident)
    + (VictimSection(w.victim, staff, company) + FooterSection)))
  }

  /** `if (flag && contact) list.push(...normalizeEmails(contact))` */
  function ContactPart(flag: bool, contact: string): (r: seq<string>)
    ensures forall x :: x in r <==> flag && x in NormalizeEmails(contact)
  {
    NormalizeEmpty();
    if flag && contact != "" then NormalizeEmails(contact) else []
  }

  /** `if (scope.companyEmails && company?.emails?.length) list.push(...company.emails)` */
  function CompanyEmailsPart(flag: bool, company: Option<Company>): (r: seq<string>)
    ensures forall x :: x in r <==> flag && company.Some? && x in company.value.emails
  {
    if flag && company.Some? && |company.value.emails| > 0 then company.value.emails else []
  }

  /** The scope the guided flow reads: `master.sendScope || {}`, so a missing scope sends to no one */
  function WizardScope(m: Master): SendScope {
    m.sendScope.GetOr(SendScope(false, false, false, false))
  }

  /** buildWizardRecipients */
  function BuildWizardRecipients(m: Master, company: Option<Company>): (r: seq<string>)
    ensures Distinct(r) && "" !in r
    ensures forall x :: x in r <==>
      || (WizardScope(m).safetyHQ && x in NormalizeEmails(m.globalContacts.safetyHQ))
      || (WizardScope(m).rescueTeam && x in NormalizeEmails(m.globalContacts.rescueTeam))
      || (WizardScope(m).ambulanceCenter && x in NormalizeEmails(m.globalContacts.ambulanceCenter))
      || (WizardScope(m).companyEmails && company.Some? && x in company.value.emails && x != "")
  {
    var scope := WizardScope(m);
    var gc := m.globalContacts;
    var list := ContactPart(scope.safetyHQ, gc.safetyHQ) + ContactPart(scope.rescueTeam, gc.rescueTeam)
      + ContactPart(scope.ambulanceCenter, gc.ambulanceCenter) + CompanyEmailsPart(scope.companyEmails, company);
    Dedupe(NonEmpty(list))
  }

  /** The victim's staff record (when a staff id is set) and that member's company */
  function WizardStaff(m: Master, w: Wizard): Option<Staff> {
    if TruthyStr(w.victim.staffId) then GetPerson(m, w.victim.staffId) else None
  }

  function WizardCompany(m: Master, staff: Option<Staff>): Option<Company> {
    if staff.Some? then GetCompany(m, Some(staff.value.companyId)) else None
  }

  /**
   * buildWizardPreview: the victim's company's recipients, a subject naming the
   * place and the victim, and a body of the preview's lines.
   */
  function BuildWizardPreview(m: Master, w: Wizard): (mail: Mail)
    ensures var staff := WizardStaff(m, w);
      mail.subject == "[命をツナグ] 緊急 " + LocationLabel(w.location) + " / " + VictimLabel(w.victim, staff)
    ensures mail.to == BuildWizardRecipients(m, WizardCompany(m, WizardStaff(m, w)))
    ensures mail.body == Join(WizardLines(w, WizardStaff(m, w), WizardCompany(m, WizardStaff(m, w)), m.accidentTypes), "\n")
  {
    var staff := WizardStaff(m, w);
    var company := WizardCompany(m, staff);
    Mail(BuildWizardRecipients(m, company),
         "[命をツナグ] 緊急 " + LocationLabel(w.location) + " / " + VictimLabel(w.victim, staff),
         Join(WizardLines(w, staff, company, m.accidentTypes), "\n"))
  }

  /** Twelve fixed lines, plus one for each optional field that is set */
  lemma WizardLinesCount(w: Wizard, staff: Option<Staff>, company: Option<Company>, defs: Option<seq<AccidentType>>)
    ensures |WizardLines(w, staff, company, defs)|
      == 12 + (if w.location.qr != "" then 1 else 0) + (if Trim(w.accident.note) != "" then 1 else 0)
         + (if company.Some? && company.value.name != "" then 1 else 0)
         + (if staff.Some? && staff.value.id != "" then 1 else 0) + (if w.victim.qr != "" then 1 else 0)
  {
  }

  /** The discovery time and the triage answers open the preview */
  lemma WizardLinesTriage(w: Wizard, staff: Option<Staff>, company: Option<Company>, defs: Option<seq<AccidentType>>)
    ensures var lines := WizardLines(w, staff, company, defs);
      |lines| >= 4 && lines[..4] == TriageSection(w)
  {
    var rest := LocationSection(w.location) + (AccidentSection(defs, w.accident)
      + (VictimSection(w.victim, staff, company) + FooterSection));
    AppendParts(TriageSection(w), rest);
  }

  /**
   * The location line follows the blank line after the triage answers, with the
   * location-QR line right below it exactly when the location has a QR.
   */
  lemma WizardLinesLocation(w: Wizard, staff: Option<Staff>, company: Option<Company>, defs: Option<seq<AccidentType>>)
    ensures var lines := WizardLines(w, staff, company, defs);
      && |lines| >= 6
      && lines[4] == "【場所】" + LocationLabel(w.location)
      && lines[5] == (if w.location.qr != "" then "場所QR: " + w.location.qr else "")
  {
    var t := TriageSection(w);
    var loc := LocationSection(w.location);
    var rest := AccidentSection(defs, w.accident) + (VictimSection(w.victim, staff, company) + FooterSection);
    LocationSectionLines(w.location);
    AfterPrefix(t, loc, rest);
  }

  lemma LocationSectionLines(loc: WizLocation)
    ensures |LocationSection(loc)| >= 2
    ensures LocationSection(loc)[0] == "【場所】" + LocationLabel(loc)
    ensures LocationSection(loc)[1] == (if loc.qr != "" then "場所QR: " + loc.qr else "")
  {
  }

  /** After a four-element prefix come the next part's first two elements */
  lemma AfterPrefix<T>(t: seq<T>, b: seq<T>, rest: seq<T>)
    requires |t| == 4 && |b| >= 2
    ensures |t + (b + rest)| >= 6 && (t + (b + rest))[4] == b[0] && (t + (b + rest))[5] == b[1]
  {
  }

  /**
   * After the location part comes the accident line: the chosen types' labels that
   * are not empty, joined by ' / ', or '未選択' when none is left; then the trimmed
   * note when there is one, else the blank line.
   */
  lemma WizardLinesAccident(w: Wizard, staff: Option<Staff>, company: Option<Company>, defs: Option<seq<AccidentType>>)
    ensures var lines := WizardLines(w, staff, company, defs);
      var k := 6 + (if w.location.qr != "" then 1 else 0);
      var labels := NonEmpty(AccidentLabels(defs, w.accident.types));
      && |lines| > k + 1
      && lines[k] == "【事故区分】" + (if |labels| > 0 then Join(labels, " / ") else "未選択")
      && lines[k + 1] == (if Trim(w.accident.note) != "" then "補足: " + Trim(w.accident.note) else "")
  {
    var t, loc, acc := TriageSection(w), LocationSection(w.location), AccidentSection(defs, w.accident);
    var rest := VictimSection(w.victim, staff, company) + FooterSection;
    var lines := WizardLines(w, staff, company, defs);
    assert lines == t + (loc + (acc + rest));
    AccidentSectionLines(defs, w.accident);
    ThirdPartHead(lines, t, loc, acc, rest);
    var k := |t| + |loc|;
    assert k == 6 + (if w.location.qr != "" then 1 else 0);
    assert lines[k] == acc[0] && lines[k + 1] == acc[1];
  }

  /** The first two elements of the third part of a right-nested concatenation, at their place */
  lemma ThirdPartHead<T>(lines: seq<T>, a: seq<T>, b: seq<T>, c: seq<T>, d: seq<T>)
    requires lines == a + (b + (c + d)) && |c| >= 2
    ensures |lines| > |a| + |b| + 1
    ensures lines[|a| + |b|] == c[0] && lines[|a| + |b| + 1] == c[1]
  {
    Shifted(lines, a + b, c, d);
  }

  lemma AccidentSectionLines(defs: Option<seq<AccidentType>>, acc: WizAccident)
    ensures var s := AccidentSection(defs, acc);
      var labels := NonEmpty(AccidentLabels(defs, acc.types));
      && |s| >= 2
      && s[0] == "【事故区分】" + (if |labels| > 0 then Join(labels, " / ") else "未選択")
      && s[1] == (if Trim(acc.note) != "" then "補足: " + Trim(acc.note) else "")
  {
  }

  /**
   * The victim part follows the accident part and precedes the footer; its lines
   * are given by VictimSectionLines.
   */
  lemma WizardLinesVictim(w: Wizard, staff: Option<Staff>, company: Option<Company>, defs: Option<seq<AccidentType>>)
    ensures var lines := WizardLines(w, staff, company, defs);
      var k := 8 + (if w.location.qr != "" then 1 else 0) + (if Trim(w.accident.note) != "" then 1 else 0);
      var vs := VictimSection(w.victim, staff, company);
      |lines| == k + |vs| + 3 && lines[k..k + |vs|] == vs
  {
    var t, loc, acc := TriageSection(w), LocationSection(w.location), AccidentSection(defs, w.accident);
    var v := VictimSection(w.victim, staff, company);
    var lines := WizardLines(w, staff, company, defs);
    assert lines == t + (loc + (acc + (v + FooterSection)));
    FourthPart(lines, t, loc, acc, v, FooterSection);
    var k := |t| + |loc| + |acc|;
    assert k == 8 + (if w.location.qr != "" then 1 else 0) + (if Trim(w.accident.note) != "" then 1 else 0);
    assert |lines| == k + |v| + 3 && lines[k..k + |v|] == v;
  }

  /** The fourth part of a right-nested concatenation, at its place */
  lemma FourthPart<T>(lines: seq<T>, a: seq<T>, b: seq<T>, c: seq<T>, d: seq<T>, e: seq<T>)
    requires lines == a + (b + (c + (d + e)))
    ensures |lines| == |a| + |b| + |c| + |d| + |e|
    ensures lines[|a| + |b| + |c|..|a| + |b| + |c| + |d|] == d
  {
    Shifted(lines, a + b + c, d, e);
  }

  /**
   * The victim part: the victim line, then the company line, the staff-id line and
   * the helmet-QR line, each only when its value is set.
   */
  lemma VictimSectionLines(v: WizVictim, staff: Option<Staff>, company: Option<Company>)
    ensures var vs := VictimSection(v, staff, company);
      var a := if company.Some? && company.value.name != "" then 1 else 0;
      var b := if staff.Some? && staff.value.id != "" then 1 else 0;
      var c := if v.qr != "" then 1 else 0;
      && |vs| == 1 + a + b + c
      && vs[0] == "【被災者】" + VictimLabel(v, staff)
      && (a == 1 ==> vs[1] == "所属: " + company.value.name)
      && (b == 1 ==> vs[1 + a] == "職員ID: " + staff.value.id)
      && (c == 1 ==> vs[1 + a + b] == "ヘルメットQR: " + v.qr)
  {
  }

  /** The elements of the middle part of a concatenation, at their positions in it */
  lemma Shifted<T>(lines: seq<T>, pre: seq<T>, mid: seq<T>, rest: seq<T>)
    requires lines == pre + (mid + rest)
    ensures |lines| == |pre| + |mid| + |rest|
    ensures forall i :: 0 <= i < |mid| ==> lines[|pre| + i] == mid[i]
    ensures lines[|pre|..|pre| + |mid|] == mid
  {
    assert lines[|pre|..] == mid + rest;
  }

  lemma AppendParts<T>(a: seq<T>, b: seq<T>)
    ensures (a + b)[..|a|] == a
    ensures forall i :: 0 <= i < |b| ==> (a + b)[|a| + i] == b[i]
    ensures forall i :: 0 <= i < |a| ==> (a + b)[i] == a[i]
  {
  }

  /** The footer closes the preview */
  lemma WizardLinesFooter(w: Wizard, staff: Option<Staff>, company: Option<Company>, defs: Option<seq<AccidentType>>)
    ensures var lines := WizardLines(w, staff, company, defs);
      |lines| >= 3 && lines[|lines| - 3..] == FooterSection
  {
    var lines := WizardLines(w, staff, company, defs);
    var a, b, c, d := TriageSection(w), LocationSection(w.location), AccidentSection(defs, w.accident),
                      VictimSection(w.victim, staff, company);
    var f := FooterSection;
    assert |f| == 3;
    assert lines == a + (b + (c + (d + f)));
    NestedSuffix(a, b, c, d, f);
  }

  /** When no field holds a line break, the body splits back into exactly its lines */
  lemma WizardBodySplits(m: Master, w: Wizard)
    requires var staff := WizardStaff(m, w);
      forall l :: l in WizardLines(w, staff, WizardCompany(m, staff), m.accidentTypes) ==> '\n' !in l
    ensures var staff := WizardStaff(m, w);
      Split(BuildWizardPreview(m, w).body, '\n') == WizardLines(w, staff, WizardCompany(m, staff), m.accidentTypes)
  {
    var staff := WizardStaff(m, w);
    var lines := WizardLines(w, staff, WizardCompany(m, staff), m.accidentTypes);
    assert BuildWizardPreview(m, w).body == Join(lines, "\n");
    assert "\n" == ['\n'];
    SplitJoin(lines, '\n');
  }

  // ---------------------------------------------------------------------
  // Copy text and the mailto recipient list
  // ---------------------------------------------------------------------

  const ToHead := "宛先: "
  const SubjectHead := "件名: "
  const BodyHead := "本文:\n"

  /** The text put on the clipboard: recipients, subject and body under their headings */
  function CopyText(mail: Mail): string {
    ToHead + (Join(mail.to, ", ") + ("\n" + (SubjectHead + (mail.subject + ("\n" + (BodyHead + mail.body))))))
  }

  /** `(to || []).filter(Boolean).join(',')` */
  function MailtoRecipients(to: seq<string>): (r: string)
    ensures forall x :: x in to && x != "" ==> Includes(r, x)
  {
    var list := NonEmpty(to);
    JoinIncludes(list, ",");
    Join(list, ",")
  }

  lemma {:induction false} JoinIncludes(parts: seq<string>, sep: string)
    ensures forall x :: x in parts ==> Includes(Join(parts, sep), x)
  {
    if |parts| == 1 {
      assert IsPrefixOf(parts[0], Join(parts, sep)[0..]);
    } else if |parts| > 1 {
      JoinIncludes(parts[1..], sep);
      var j := Join(parts, sep);
      var rest := Join(parts[1..], sep);
      assert j == parts[0] + sep + rest;
      assert IsPrefixOf(parts[0], j[0..]);
      forall x | x in parts[1..] ensures Includes(j, x) {
        var i :| 0 <= i <= |rest| && IsPrefixOf(x, rest[i..]);
        var off := |parts[0]| + |sep|;
        assert j[off + i..] == rest[i..];
      }
    }
  }

  /** The mailto recipient list splits back, on commas, into the non-empty recipients */
  lemma MailtoRecipientsRoundTrip(to: seq<string>)
    requires forall x :: x in to ==> ',' !in x
    requires exists x :: x in to && x != ""
    ensures Split(MailtoRecipients(to), ',') == NonEmpty(to)
  {
    var list := NonEmpty(to);
    assert |list| >= 1;
    SplitJoin(list, ',');
    assert "," == [','];
  }

  /** The text after a heading, when t starts with it */
  function AfterHead(t: string, head: string): Option<string> {
    if |t| >= |head| && t[..|head|] == head then Some(t[|head|..]) else None
  }

  /** The first line of t and the text after its line break, when t has one */
  function FirstLine(t: string): Option<(string, string)> {
    if '\n' in t then
      var i := FirstIndexOf(t, '\n');
      Some((t[..i], t[i + 1..]))
    else None
  }

  /** Read a copied text back */
  function ParseCopyText(t: string): Option<Mail> {
    var r1 := AfterHead(t, ToHead);
    if r1.None? then None
    else
      var l1 := FirstLine(r1.value);
      if l1.None? then None
      else
        var r2 := AfterHead(l1.value.1, SubjectHead);
        if r2.None? then None
        else
          var l2 := FirstLine(r2.value);
          if l2.None? then None
          else
            var body := AfterHead(l2.value.1, BodyHead);
            if body.None? then None
            else Some(Mail(ParseRecipients(l1.value.0), l2.value.0, body.value))
  }

  lemma AfterHeadOf(head: string, x: string)
    ensures AfterHead(head + x, head) == Some(x)
  {
    assert (head + x)[..|head|] == head;
    assert (head + x)[|head|..] == x;
  }

  lemma FirstLineOf(a: string, b: string)
    requires '\n' !in a
    ensures FirstLine(a + ("\n" + b)) == Some((a, b))
  {
    var t := a + ("\n" + b);
    assert t[|a|] == '\n';
    assert t[..|a|] == a;
    var i := FirstIndexOf(t, '\n');
    assert i == |a|;
    assert t[|a| + 1..] == b;
  }

  /**
   * The copied text reads back as the mail it was made from, as long as no
   * recipient is empty or holds a comma or line break and the subject is one line.
   */
  lemma CopyTextRoundTrip(mail: Mail)
    requires forall x :: x in mail.to ==> x != "" && ',' !in x && '\n' !in x
    requires '\n' !in mail.subject
    ensures ParseCopyText(CopyText(mail)) == Some(mail)
  {
    var toText := Join(mail.to, ", ");
    JoinNoChar(mail.to, ", ", '\n');
    var tail := SubjectHead + (mail.subject + ("\n" + (BodyHead + mail.body)));
    AfterHeadOf(ToHead, toText + ("\n" + tail));
    FirstLineOf(toText, tail);
    AfterHeadOf(SubjectHead, mail.subject + ("\n" + (BodyHead + mail.body)));
    FirstLineOf(mail.subject, BodyHead + mail.body);
    AfterHeadOf(BodyHead, mail.body);
    RecipientsRoundTrip(mail.to);
  }

  /** `to.join(', ')` read back */
  function ParseRecipients(s: string): seq<string> {
    if s == "" then [] else DropLeadingSpaces(Split(s, ','))
  }

  function DropLeadingSpaces(parts: seq<string>): (r: seq<string>)
    requires |parts| >= 1
    ensures |r| == |parts|
  {
    [parts[0]] + seq(|parts| - 1, i requires 0 <= i < |parts| - 1 =>
      if |parts[i + 1]| > 0 && parts[i + 1][0] == ' ' then parts[i + 1][1..] else parts[i + 1])
  }

  lemma {:induction false} JoinNoChar(parts: seq<string>, sep: string, c: char)
    requires c !in sep
    requires forall x :: x in parts ==> c !in x
    ensures c !in Join(parts, sep)
  {
    if |parts| > 1 {
      JoinNoChar(parts[1..], sep, c);
    }
  }

  lemma RecipientsRoundTrip(to: seq<string>)
    requires forall x :: x in to ==> x != "" && ',' !in x
    ensures ParseRecipients(Join(to, ", ")) == to
  {
    if |to| > 0 {
      var spaced := [to[0]] + seq(|to| - 1, i requires 0 <= i < |to| - 1 => " " + to[i + 1]);
      var text := Join(to, ", ");
      JoinSpaced(to);
      assert text == Join(spaced, [',']);
      SplitSpaced(to, spaced);
      DropSpaced(to, spaced);
      assert text != "" by {
        assert |to[0]| > 0;
        JoinStarts(to, ", ");
      }
    }
  }

  /** The spaced pieces split back apart at the commas */
  lemma SplitSpaced(to: seq<string>, spaced: seq<string>)
    requires |to| >= 1 && forall x :: x in to ==> ',' !in x
    requires spaced == [to[0]] + seq(|to| - 1, i requires 0 <= i < |to| - 1 => " " + to[i + 1])
    ensures Split(Join(spaced, [',']), ',') == spaced
  {
    forall i | 0 <= i < |spaced|
      ensures ',' !in spaced[i]
    {
      if i > 0 {
        assert spaced[i] == " " + to[i];
      }
    }
    SplitJoin(spaced, ',');
  }

  /** Dropping the added spaces gives the recipients back */
  lemma DropSpaced(to: seq<string>, spaced: seq<string>)
    requires |to| >= 1
    requires spaced == [to[0]] + seq(|to| - 1, i requires 0 <= i < |to| - 1 => " " + to[i + 1])
    ensures DropLeadingSpaces(spaced) == to
  {
    var r := DropLeadingSpaces(spaced);
    forall i | 0 <= i < |to|
      ensures r[i] == to[i]
    {
      if i > 0 {
        assert spaced[i] == " " + to[i];
        assert spaced[i][1..] == to[i];
      }
    }
  }

  lemma {:induction false} JoinStarts(parts: seq<string>, sep: string)
    requires |parts| >= 1
    ensures |Join(parts, sep)| >= |parts[0]|
  {
  }

  /** Joining with `', '` is joining, with `','`, the pieces after the first prefixed by a space */
  lemma {:induction false} JoinSpaced(to: seq<string>)
    requires |to| >= 1
    ensures Join(to, ", ") == Join([to[0]] + seq(|to| - 1, i requires 0 <= i < |to| - 1 => " " + to[i + 1]), ",")
  {
    var spaced := [to[0]] + seq(|to| - 1, i requires 0 <= i < |to| - 1 => " " + to[i + 1]);
    if |to| > 1 {
      var tail := to[1..];
      JoinSpaced(tail);
      var spacedTail := [tail[0]] + seq(|tail| - 1, i requires 0 <= i < |tail| - 1 => " " + tail[i + 1]);
      assert spaced[1..] == [" " + tail[0]] + spacedTail[1..];
      JoinSpacedHead(tail[0], spacedTail);
      assert Join(spaced, ",") == to[0] + "," + Join(spaced[1..], ",");
    }
  }

  lemma JoinSpacedHead(first: string, spacedTail: seq<string>)
    requires |spacedTail| >= 1 && spacedTail[0] == first
    ensures Join([" " + first] + spacedTail[1..], ",") == " " + Join(spacedTail, ",")
  {
    var l := [" " + first] + spacedTail[1..];
    if |spacedTail| > 1 {
      assert l[1..] == spacedTail[1..];
    }
  }
}
