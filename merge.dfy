/**
 * Loading the master record: the persisted document is merged over the built-in
 * defaults. Records are JSON values, as the program handles them; every
 * collection (companies, staff, locations, situations, bodyParts) goes through
 * `mergeById`, `sendScope` through a shallow spread, and every other top-level
 * field of the persisted document replaces the default one.
 *
 * `mergeById` is a method with the program's four loops (fill a JavaScript Map
 * from the defaults, overlay the saved entries, emit the defaults in their order,
 * emit the remaining Map entries in insertion order). `MergeSpec` states the
 * result declaratively; the lemmas below it state what the merge promises.
 */
module MasterMerge {
  import opened Common

  /** A parsed JSON value (NaN and the infinities cannot come out of JSON.parse) */
  datatype Json = JNull | JBool(b: bool) | JNum(n: real) | JStr(s: string)
                | JArr(items: seq<Json>) | JObj(fields: map<string, Json>)

  /** A JSON object: its own enumerable properties */
  type Obj = map<string, Json>

  /** JavaScript truthiness of a JSON value */
  predicate Truthy(j: Json) {
    match j
    case JNull => false
    case JBool(b) => b
    case JNum(n) => n != 0.0
    case JStr(s) => s != ""
    case JArr(_) => true
    case JObj(_) => true
  }

  /** `o.k` on an object; None stands for undefined */
  function Get(o: Obj, k: string): Option<Json> {
    if k in o then Some(o[k]) else None
  }

  /** `v.k` for the record field names read here: only objects carry them */
  function Prop(v: Json, k: string): Option<Json> {
    if v.JObj? then Get(v.fields, k) else None
  }

  // ---------------------------------------------------------------------
  // Object spread `{...v}`
  // ---------------------------------------------------------------------

  function SpreadIndexed(items: seq<Json>): Obj {
    if |items| == 0 then map[]
    else SpreadIndexed(items[..|items| - 1])[Decimal(|items| - 1) := items[|items| - 1]]
  }

  /**
   * The own enumerable properties `{...v}` copies: an object's fields, an array's
   * or a string's indices, and nothing for null, booleans and numbers.
   */
  function Spread(v: Json): Obj {
    match v
    case JObj(f) => f
    case JArr(items) => SpreadIndexed(items)
    case JStr(s) => SpreadIndexed(seq(|s|, i requires 0 <= i < |s| => JStr([s[i]])))
    case _ => map[]
  }

  // ---------------------------------------------------------------------
  // Keys of the JavaScript Map inside mergeById
  // ---------------------------------------------------------------------

  datatype Origin = FromDefaults | FromSaved

  /**
   * A Map key: primitive ids (and undefined) compare by value; an id that is an
   * object or an array compares by identity, so it is told apart by the array
   * and the position it came from.
   */
  datatype Key = Prim(id: Option<Json>) | Ref(origin: Origin, index: nat)

  predicate IsRefValue(v: Json) {
    v.JArr? || v.JObj?
  }

  /** An id read that compares by value: undefined or a primitive */
  predicate IsPrimId(o: Option<Json>) {
    o.None? || !IsRefValue(o.value)
  }

  function KeyOf(id: Option<Json>, origin: Origin, index: nat): Key {
    if id.Some? && IsRefValue(id.value) then Ref(origin, index) else Prim(id)
  }

  /** Key of the default entry at position i */
  function DKey(d: Obj, i: nat): Key {
    KeyOf(Get(d, "id"), FromDefaults, i)
  }

  /** `x && x.id`: the saved entries mergeById does not skip */
  predicate ValidSaved(x: Json) {
    x.JObj? && "id" in x.fields && Truthy(x.fields["id"])
  }

  /** Key of the saved entry at position t */
  function SKey(x: Json, t: nat): Key
    requires ValidSaved(x)
  {
    KeyOf(Some(x.fields["id"]), FromSaved, t)
  }

  function DefKeys(defArr: seq<Obj>): (ks: seq<Key>)
    ensures |ks| == |defArr|
  {
    seq(|defArr|, i requires 0 <= i < |defArr| => DKey(defArr[i], i))
  }

  /** Keys of the valid saved entries among the first n, in array order */
  function SavedKeys(items: seq<Json>, n: nat): seq<Key>
    requires n <= |items|
  {
    if n == 0 then []
    else if ValidSaved(items[n - 1]) then SavedKeys(items, n - 1) + [SKey(items[n - 1], n - 1)]
    else SavedKeys(items, n - 1)
  }

  /** `Array.isArray(savedArr) ? savedArr : []` as far as mergeById is concerned */
  function SavedItems(saved: Option<Json>): seq<Json> {
    if saved.Some? && saved.value.JArr? then saved.value.items else []
  }

  function KeySet(s: seq<Key>): set<Key> {
    set k | k in s
  }

  // ---------------------------------------------------------------------
  // The declarative result
  // ---------------------------------------------------------------------

  /** What the Map holds for k once the defaults are in: the last default with key k, or `{}` */
  function Base(defArr: seq<Obj>, k: Key): Obj {
    if |defArr| == 0 then map[]
    else if DKey(defArr[|defArr| - 1], |defArr| - 1) == k then defArr[|defArr| - 1]
    else Base(defArr[..|defArr| - 1], k)
  }

  predicate Matches(items: seq<Json>, t: nat, k: Key)
    requires t < |items|
  {
    ValidSaved(items[t]) && SKey(items[t], t) == k
  }

  /** The entry for k after the first n saved entries: each matching one spread over it */
  function Overlay(defArr: seq<Obj>, items: seq<Json>, k: Key, n: nat): Obj
    requires n <= |items|
  {
    if n == 0 then Base(defArr, k)
    else if Matches(items, n - 1, k) then Overlay(defArr, items, k, n - 1) + items[n - 1].fields
    else Overlay(defArr, items, k, n - 1)
  }

  /** s without the elements of ex, order kept */
  function Without(s: seq<Key>, ex: set<Key>): (r: seq<Key>)
    ensures forall x :: x in r <==> x in s && x !in ex
    ensures Distinct(s) ==> Distinct(r)
    ensures Distinct(s) ==> forall a, b :: 0 <= a < b < |r| ==> IndexOf(s, r[a]) < IndexOf(s, r[b])
  {
    if |s| == 0 then []
    else
      var init := s[..|s| - 1];
      var last := s[|s| - 1];
      var w := Without(init, ex);
      assert s == init + [last];
      forall x | x in init ensures IndexOf(s, x) == IndexOf(init, x) {
        IndexOfPrefix(init, [last], x);
      }
      if last in ex then w
      else
        assert Distinct(s) ==> last !in init && IndexOf(s, last) == |s| - 1;
        w + [last]
  }

  /** Keys of saved entries whose id no default has, each once, in first-seen order */
  function NewKeys(defArr: seq<Obj>, items: seq<Json>): seq<Key> {
    Without(Dedupe(SavedKeys(items, |items|)), KeySet(DefKeys(defArr)))
  }

  /** One key per result entry: every default position, then the new ids */
  function MergedKeys(defArr: seq<Obj>, items: seq<Json>): seq<Key> {
    DefKeys(defArr) + NewKeys(defArr, items)
  }

  function Finals(defArr: seq<Obj>, items: seq<Json>, ks: seq<Key>): (r: seq<Obj>)
    ensures |r| == |ks|
  {
    seq(|ks|, j requires 0 <= j < |ks| => Overlay(defArr, items, ks[j], |items|))
  }

  /** The merged collection, stated without the Map */
  function MergeSpec(defArr: seq<Obj>, saved: Option<Json>): seq<Obj> {
    var items := SavedItems(saved);
    Finals(defArr, items, MergedKeys(defArr, items))
  }

  // ---------------------------------------------------------------------
  // mergeById
  // ---------------------------------------------------------------------

  method MergeById(defArr: seq<Obj>, saved: Option<Json>) returns (r: seq<Obj>)
    ensures r == MergeSpec(defArr, saved)
  {
    var items := SavedItems(saved);
    var dk := DefKeys(defArr);
    // the JavaScript Map: its entries and its insertion order
    var m, order := FillFromDefaults(defArr);
    FillDone(defArr, items, m, order);
    m, order := OverlaySaved(defArr, items, m, order);
    OverlayDone(defArr, items, m, order);
    r := EmitDefaults(defArr, items, m, order);
    var rest := EmitNew(defArr, items, m, order, KeySet(dk));
    r := r + rest;
    var sk := SavedKeys(items, |items|);
    UnseenOrderAppend(dk, sk);
    InsertionOrderIsDedupe(sk);
    UnseenIsWithout(InsertionOrder(sk), KeySet(dk));
    FinalsAppend(defArr, items, dk, NewKeys(defArr, items));
  }

  /** `for (const x of defArr) map.set(x.id, x)` */
  method FillFromDefaults(defArr: seq<Obj>) returns (m: map<Key, Obj>, order: seq<Key>)
    ensures FillInv(defArr, |defArr|, m, order)
  {
    var dk := DefKeys(defArr);
    m := map[];
    order := [];
    var i := 0;
    assert defArr[..0] == [] && dk[..0] == [];
    while i < |defArr|
      invariant i <= |defArr|
      invariant FillInv(defArr, i, m, order)
    {
      var k := DKey(defArr[i], i);
      var order' := if k in m then order else order + [k];
      var m' := m[k := defArr[i]];
      FillStep(defArr, i, m, order, m', order');
      m, order := m', order';
      i := i + 1;
    }
  }

  /** `for (const x of savedArr) if (x && x.id) map.set(x.id, { ...(map.get(x.id) || {}), ...x })` */
  method OverlaySaved(defArr: seq<Obj>, items: seq<Json>, m0: map<Key, Obj>, order0: seq<Key>)
    returns (m: map<Key, Obj>, order: seq<Key>)
    requires OverlayInv(defArr, items, 0, m0, order0)
    ensures OverlayInv(defArr, items, |items|, m, order)
  {
    m, order := m0, order0;
    var t := 0;
    while t < |items|
      invariant t <= |items|
      invariant OverlayInv(defArr, items, t, m, order)
    {
      m, order := OverlayOne(defArr, items, t, m, order);
      t := t + 1;
    }
  }

  /** One round of the loop above: the saved entry at position t, when it has an id */
  method OverlayOne(defArr: seq<Obj>, items: seq<Json>, t: nat, m: map<Key, Obj>, order: seq<Key>)
    returns (m': map<Key, Obj>, order': seq<Key>)
    requires t < |items| && OverlayInv(defArr, items, t, m, order)
    ensures OverlayInv(defArr, items, t + 1, m', order')
  {
    var x := items[t];
    m', order' := m, order;
    if ValidSaved(x) {
      var k := SKey(x, t);
      var base := if k in m then m[k] else map[];
      if k !in m {
        order' := order + [k];
      }
      m' := m[k := base + x.fields];
    }
    OverlayStep(defArr, items, t, m, order, m', order');
  }

  /** `for (const x of defArr) { out.push(map.get(x.id)); seen.add(x.id) }` */
  method EmitDefaults(defArr: seq<Obj>, items: seq<Json>, m: map<Key, Obj>, order: seq<Key>)
    returns (r: seq<Obj>)
    requires DefaultsSettled(defArr, items, m)
    ensures r == Finals(defArr, items, DefKeys(defArr))
  {
    var dk := DefKeys(defArr);
    r := [];
    var i := 0;
    while i < |defArr|
      invariant i <= |defArr|
      invariant r == Finals(defArr, items, dk[..i])
    {
      var k := DKey(defArr[i], i);
      FinalsSnoc(defArr, items, dk[..i], k);
      assert dk[..i + 1] == dk[..i] + [k];
      r := r + [m[k]];
      i := i + 1;
    }
    assert dk[..i] == dk;
  }

  /** `for (const [id, v] of map.entries()) if (!seen.has(id)) out.push(v)` */
  method EmitNew(defArr: seq<Obj>, items: seq<Json>, m: map<Key, Obj>, order: seq<Key>, seen: set<Key>)
    returns (r: seq<Obj>)
    requires OrderSettled(defArr, items, m, order)
    ensures r == Finals(defArr, items, Unseen(order, seen))
  {
    r := [];
    var u := 0;
    assert order[..0] == [];
    while u < |order|
      invariant u <= |order|
      invariant r == Finals(defArr, items, Unseen(order[..u], seen))
    {
      var k := order[u];
      assert order[..u + 1] == order[..u] + [k];
      UnseenSnoc(order[..u], k, seen);
      if k !in seen {
        FinalsSnoc(defArr, items, Unseen(order[..u], seen), k);
        r := r + [m[k]];
      }
      u := u + 1;
    }
    assert order[..u] == order;
  }

  /** Every default's key holds its final entry */
  ghost predicate DefaultsSettled(defArr: seq<Obj>, items: seq<Json>, m: map<Key, Obj>) {
    forall i :: 0 <= i < |defArr| ==>
      DKey(defArr[i], i) in m && m[DKey(defArr[i], i)] == Overlay(defArr, items, DKey(defArr[i], i), |items|)
  }

  /** Every key of the insertion order holds its final entry */
  ghost predicate OrderSettled(defArr: seq<Obj>, items: seq<Json>, m: map<Key, Obj>, order: seq<Key>) {
    forall u :: 0 <= u < |order| ==> order[u] in m && m[order[u]] == Overlay(defArr, items, order[u], |items|)
  }

  /** Once all saved entries are overlaid, both emit loops find their entries */
  lemma OverlayDone(defArr: seq<Obj>, items: seq<Json>, m: map<Key, Obj>, order: seq<Key>)
    requires OverlayInv(defArr, items, |items|, m, order)
    ensures DefaultsSettled(defArr, items, m)
    ensures OrderSettled(defArr, items, m, order)
  {
    forall i | 0 <= i < |defArr|
      ensures DKey(defArr[i], i) in m && m[DKey(defArr[i], i)] == Overlay(defArr, items, DKey(defArr[i], i), |items|)
    {
      DefaultKeyInMap(defArr, items, m, order, i);
    }
    forall u | 0 <= u < |order| ensures order[u] in m {
      assert order[u] in order;
    }
  }

  /** The insertion order of a Map after setting the keys of s in turn */
  function InsertionOrder(s: seq<Key>): (r: seq<Key>)
    ensures forall x :: x in r <==> x in s
  {
    if |s| == 0 then []
    else if s[|s| - 1] in s[..|s| - 1] then InsertionOrder(s[..|s| - 1])
    else InsertionOrder(s[..|s| - 1]) + [s[|s| - 1]]
  }

  /** The insertion order is the first-occurrence list */
  lemma {:induction false} InsertionOrderIsDedupe(s: seq<Key>)
    ensures InsertionOrder(s) == Dedupe(s)
  {
    if |s| > 0 {
      InsertionOrderIsDedupe(s[..|s| - 1]);
    }
  }

  lemma InsertionOrderSnoc(s: seq<Key>, x: Key)
    ensures InsertionOrder(s + [x]) == if x in s then InsertionOrder(s) else InsertionOrder(s) + [x]
  {
    assert (s + [x])[..|s + [x]| - 1] == s;
  }

  /** The Map's insertion order once the first i defaults are in */
  ghost predicate FillOrder(defArr: seq<Obj>, i: nat, order: seq<Key>)
    requires i <= |defArr|
  {
    order == InsertionOrder(DefKeys(defArr)[..i])
  }

  /** The Map holds exactly the keys of its insertion order */
  ghost predicate KeysIn(m: map<Key, Obj>, order: seq<Key>) {
    forall k :: k in m <==> k in order
  }

  /** The Map's entries once the first i defaults are in */
  ghost predicate FillValues(defArr: seq<Obj>, i: nat, m: map<Key, Obj>)
    requires i <= |defArr|
  {
    && (forall k :: k in m ==> m[k] == Base(defArr[..i], k))
    && (forall k :: k !in m ==> Base(defArr[..i], k) == map[])
  }

  ghost predicate FillInv(defArr: seq<Obj>, i: nat, m: map<Key, Obj>, order: seq<Key>)
    requires i <= |defArr|
  {
    FillOrder(defArr, i, order) && KeysIn(m, order) && FillValues(defArr, i, m)
  }

  /** The Map's insertion order once the first t saved entries are overlaid */
  ghost predicate OverlayOrder(defArr: seq<Obj>, items: seq<Json>, t: nat, order: seq<Key>)
    requires t <= |items|
  {
    order == InsertionOrder(DefKeys(defArr) + SavedKeys(items, t))
  }

  /** The Map's entries once the first t saved entries are overlaid */
  ghost predicate OverlayValues(defArr: seq<Obj>, items: seq<Json>, t: nat, m: map<Key, Obj>)
    requires t <= |items|
  {
    && (forall k :: k in m ==> m[k] == Overlay(defArr, items, k, t))
    && (forall k :: k !in m ==> Overlay(defArr, items, k, t) == map[])
  }

  ghost predicate OverlayInv(defArr: seq<Obj>, items: seq<Json>, t: nat, m: map<Key, Obj>, order: seq<Key>)
    requires t <= |items|
  {
    OverlayOrder(defArr, items, t, order) && KeysIn(m, order) && OverlayValues(defArr, items, t, m)
  }

  lemma BaseSnoc(defArr: seq<Obj>, i: nat, k: Key)
    requires i < |defArr|
    ensures Base(defArr[..i + 1], k)
      == if DKey(defArr[i], i) == k then defArr[i] else Base(defArr[..i], k)
  {
    assert defArr[..i + 1][..i] == defArr[..i];
  }

  lemma KeysInSnoc(m: map<Key, Obj>, order: seq<Key>, k: Key, v: Obj)
    requires KeysIn(m, order)
    ensures KeysIn(m[k := v], if k in m then order else order + [k])
  {
    assert forall k' :: k' in order + [k] <==> k' in order || k' == k;
  }

  lemma FillStep(defArr: seq<Obj>, i: nat, m: map<Key, Obj>, order: seq<Key>,
                 m': map<Key, Obj>, order': seq<Key>)
    requires i < |defArr| && FillInv(defArr, i, m, order)
    requires var k := DKey(defArr[i], i);
      m' == m[k := defArr[i]] && order' == if k in m then order else order + [k]
    ensures FillInv(defArr, i + 1, m', order')
  {
    var k := DKey(defArr[i], i);
    FillOrderStep(defArr, i, m, order);
    KeysInSnoc(m, order, k, defArr[i]);
    FillValuesStep(defArr, i, m);
  }

  lemma FillOrderStep(defArr: seq<Obj>, i: nat, m: map<Key, Obj>, order: seq<Key>)
    requires i < |defArr| && FillOrder(defArr, i, order) && KeysIn(m, order)
    ensures var k := DKey(defArr[i], i);
      FillOrder(defArr, i + 1, if k in m then order else order + [k])
  {
    var dk := DefKeys(defArr);
    var k := DKey(defArr[i], i);
    assert dk[..i + 1] == dk[..i] + [k];
    InsertionOrderSnoc(dk[..i], k);
  }

  lemma FillValuesStep(defArr: seq<Obj>, i: nat, m: map<Key, Obj>)
    requires i < |defArr| && FillValues(defArr, i, m)
    ensures FillValues(defArr, i + 1, m[DKey(defArr[i], i) := defArr[i]])
  {
    forall k' ensures Base(defArr[..i + 1], k') == if DKey(defArr[i], i) == k' then defArr[i] else Base(defArr[..i], k') {
      BaseSnoc(defArr, i, k');
    }
  }

  lemma FillDone(defArr: seq<Obj>, items: seq<Json>, m: map<Key, Obj>, order: seq<Key>)
    requires FillInv(defArr, |defArr|, m, order)
    ensures OverlayInv(defArr, items, 0, m, order)
  {
    assert defArr[..|defArr|] == defArr;
    assert DefKeys(defArr)[..|defArr|] == DefKeys(defArr) + SavedKeys(items, 0);
  }

  lemma OverlayStep(defArr: seq<Obj>, items: seq<Json>, t: nat, m: map<Key, Obj>, order: seq<Key>,
                    m': map<Key, Obj>, order': seq<Key>)
    requires t < |items| && OverlayInv(defArr, items, t, m, order)
    requires ValidSaved(items[t]) ==>
      var k := SKey(items[t], t);
      && m' == m[k := (if k in m then m[k] else map[]) + items[t].fields]
      && order' == if k in m then order else order + [k]
    requires !ValidSaved(items[t]) ==> m' == m && order' == order
    ensures OverlayInv(defArr, items, t + 1, m', order')
  {
    if ValidSaved(items[t]) {
      var k := SKey(items[t], t);
      OverlayOrderStep(defArr, items, t, m, order);
      KeysInSnoc(m, order, k, (if k in m then m[k] else map[]) + items[t].fields);
      OverlayValuesStep(defArr, items, t, m);
    } else {
      assert SavedKeys(items, t + 1) == SavedKeys(items, t);
      forall k' ensures Overlay(defArr, items, k', t + 1) == Overlay(defArr, items, k', t) {
        assert !Matches(items, t, k');
      }
    }
  }

  lemma OverlayOrderStep(defArr: seq<Obj>, items: seq<Json>, t: nat, m: map<Key, Obj>, order: seq<Key>)
    requires t < |items| && ValidSaved(items[t])
    requires OverlayOrder(defArr, items, t, order) && KeysIn(m, order)
    ensures var k := SKey(items[t], t);
      OverlayOrder(defArr, items, t + 1, if k in m then order else order + [k])
  {
    var dk := DefKeys(defArr);
    var k := SKey(items[t], t);
    assert dk + SavedKeys(items, t + 1) == (dk + SavedKeys(items, t)) + [k];
    InsertionOrderSnoc(dk + SavedKeys(items, t), k);
  }

  lemma OverlayValuesStep(defArr: seq<Obj>, items: seq<Json>, t: nat, m: map<Key, Obj>)
    requires t < |items| && ValidSaved(items[t])
    requires OverlayValues(defArr, items, t, m)
    ensures var k := SKey(items[t], t);
      OverlayValues(defArr, items, t + 1, m[k := (if k in m then m[k] else map[]) + items[t].fields])
  {
    var k := SKey(items[t], t);
    forall k' ensures Overlay(defArr, items, k', t + 1)
        == if k' == k then Overlay(defArr, items, k', t) + items[t].fields else Overlay(defArr, items, k', t) {
      assert Matches(items, t, k') <==> k' == k;
    }
  }

  lemma DefaultKeyInMap(defArr: seq<Obj>, items: seq<Json>, m: map<Key, Obj>, order: seq<Key>, i: nat)
    requires i < |defArr| && OverlayInv(defArr, items, |items|, m, order)
    ensures DKey(defArr[i], i) in m
    ensures m[DKey(defArr[i], i)] == Overlay(defArr, items, DKey(defArr[i], i), |items|)
  {
    var dk := DefKeys(defArr);
    InsertionOrderIsDedupe(dk + SavedKeys(items, |items|));
    assert (dk + SavedKeys(items, |items|))[i] == DKey(defArr[i], i);
  }

  lemma FinalsSnoc(defArr: seq<Obj>, items: seq<Json>, ks: seq<Key>, k: Key)
    ensures Finals(defArr, items, ks + [k]) == Finals(defArr, items, ks) + [Overlay(defArr, items, k, |items|)]
  {
  }

  lemma FinalsAppend(defArr: seq<Obj>, items: seq<Json>, a: seq<Key>, b: seq<Key>)
    ensures Finals(defArr, items, a + b) == Finals(defArr, items, a) + Finals(defArr, items, b)
  {
  }

  /** The keys of s outside ex, order kept: the entries loop skipping `seen` */
  function Unseen(s: seq<Key>, ex: set<Key>): seq<Key> {
    if |s| == 0 then []
    else if s[|s| - 1] in ex then Unseen(s[..|s| - 1], ex)
    else Unseen(s[..|s| - 1], ex) + [s[|s| - 1]]
  }

  lemma {:induction false} UnseenIsWithout(s: seq<Key>, ex: set<Key>)
    ensures Unseen(s, ex) == Without(s, ex)
  {
    if |s| > 0 {
      UnseenIsWithout(s[..|s| - 1], ex);
    }
  }

  lemma UnseenSnoc(s: seq<Key>, x: Key, ex: set<Key>)
    ensures Unseen(s + [x], ex) == if x in ex then Unseen(s, ex) else Unseen(s, ex) + [x]
  {
    assert (s + [x])[..|s + [x]| - 1] == s;
  }

  /** Dropping the keys of A from the insertion order of A + B leaves that of B without them */
  lemma {:induction false} UnseenOrderAppend(a: seq<Key>, b: seq<Key>)
    ensures Unseen(InsertionOrder(a + b), KeySet(a)) == Unseen(InsertionOrder(b), KeySet(a))
    decreases |b|
  {
    if |b| == 0 {
      assert a + b == a;
      UnseenAllExcluded(InsertionOrder(a), KeySet(a));
    } else {
      var b' := b[..|b| - 1];
      var x := b[|b| - 1];
      assert b == b' + [x];
      assert a + b == (a + b') + [x];
      UnseenOrderAppend(a, b');
      var ex := KeySet(a);
      InsertionOrderSnoc(a + b', x);
      InsertionOrderSnoc(b', x);
      UnseenSnoc(InsertionOrder(a + b'), x, ex);
      UnseenSnoc(InsertionOrder(b'), x, ex);
      assert x in ex <==> x in a;
      assert x in a + b' <==> x in a || x in b';
    }
  }

  lemma {:induction false} UnseenAllExcluded(s: seq<Key>, ex: set<Key>)
    requires forall x :: x in s ==> x in ex
    ensures Unseen(s, ex) == []
  {
    if |s| > 0 {
      assert forall x :: x in s[..|s| - 1] ==> x in s;
      UnseenAllExcluded(s[..|s| - 1], ex);
    }
  }

  // ---------------------------------------------------------------------
  // What the merge promises
  // ---------------------------------------------------------------------

  /** With distinct default keys, the default at position i is the Map's base for its key */
  lemma {:induction false} BaseOfDefault(defArr: seq<Obj>, i: nat)
    requires i < |defArr|
    requires Distinct(DefKeys(defArr))
    ensures Base(defArr, DKey(defArr[i], i)) == defArr[i]
  {
    var n := |defArr| - 1;
    if i < n {
      var init := defArr[..n];
      assert DefKeys(defArr)[n] != DefKeys(defArr)[i];
      assert DefKeys(init) == DefKeys(defArr)[..n];
      assert init[i] == defArr[i];
      BaseOfDefault(init, i);
    }
  }

  /** A key no default has starts from `{}` */
  lemma {:induction false} BaseOfNonDefault(defArr: seq<Obj>, k: Key)
    requires k !in DefKeys(defArr)
    ensures Base(defArr, k) == map[]
  {
    if |defArr| > 0 {
      var n := |defArr| - 1;
      assert DefKeys(defArr)[n] == DKey(defArr[n], n);
      assert DefKeys(defArr[..n]) == DefKeys(defArr)[..n];
      BaseOfNonDefault(defArr[..n], k);
    }
  }

  /** The entry of a default key keeps the default's id, whatever is overlaid */
  lemma {:induction false} OverlayKeepsDefaultId(defArr: seq<Obj>, items: seq<Json>, i: nat, n: nat)
    requires i < |defArr| && n <= |items|
    requires Distinct(DefKeys(defArr))
    ensures Get(Overlay(defArr, items, DKey(defArr[i], i), n), "id") == Get(defArr[i], "id")
  {
    if n == 0 {
      BaseOfDefault(defArr, i);
    } else {
      OverlayKeepsDefaultId(defArr, items, i, n - 1);
    }
  }

  /** The entry of a primitive-id key that some saved entry carries has that id */
  lemma {:induction false} OverlayPrimId(defArr: seq<Obj>, items: seq<Json>, v: Json, n: nat, t: nat)
    requires t < n <= |items|
    requires Matches(items, t, Prim(Some(v)))
    ensures Get(Overlay(defArr, items, Prim(Some(v)), n), "id") == Some(v)
  {
    if !Matches(items, n - 1, Prim(Some(v))) {
      OverlayPrimId(defArr, items, v, n - 1, t);
    }
  }

  /** A saved entry whose id is an object or array stands alone under its own key */
  lemma {:induction false} OverlaySavedRef(defArr: seq<Obj>, items: seq<Json>, t: nat, n: nat)
    requires t < n <= |items|
    requires ValidSaved(items[t]) && SKey(items[t], t) == Ref(FromSaved, t)
    ensures Overlay(defArr, items, Ref(FromSaved, t), n) == items[t].fields
  {
    if n - 1 == t {
      assert Ref(FromSaved, t) !in DefKeys(defArr);
      BaseOfNonDefault(defArr, Ref(FromSaved, t));
      OverlayNoMatch(defArr, items, Ref(FromSaved, t), t);
      assert map[] + items[t].fields == items[t].fields;
    } else {
      OverlaySavedRef(defArr, items, t, n - 1);
    }
  }

  lemma {:induction false} OverlayNoMatch(defArr: seq<Obj>, items: seq<Json>, k: Key, n: nat)
    requires n <= |items|
    requires forall t :: 0 <= t < n ==> !Matches(items, t, k)
    ensures Overlay(defArr, items, k, n) == Base(defArr, k)
  {
    if n > 0 {
      OverlayNoMatch(defArr, items, k, n - 1);
    }
  }

  /** A field no matching saved entry carries keeps its base value, or stays absent */
  lemma {:induction false} OverlayUncarried(defArr: seq<Obj>, items: seq<Json>, k: Key, n: nat, f: string)
    requires n <= |items|
    requires forall t :: 0 <= t < n && Matches(items, t, k) ==> f !in items[t].fields
    ensures Get(Overlay(defArr, items, k, n), f) == Get(Base(defArr, k), f)
  {
    if n > 0 {
      OverlayUncarried(defArr, items, k, n - 1, f);
    }
  }

  /** A field takes the value of the last matching saved entry that carries it */
  lemma {:induction false} OverlayLastCarried(defArr: seq<Obj>, items: seq<Json>, k: Key, n: nat, t: nat, f: string)
    requires t < n <= |items|
    requires Matches(items, t, k) && f in items[t].fields
    requires forall t' :: t < t' < n && Matches(items, t', k) ==> f !in items[t'].fields
    ensures Get(Overlay(defArr, items, k, n), f) == Some(items[t].fields[f])
  {
    if n - 1 > t {
      OverlayLastCarried(defArr, items, k, n - 1, t, f);
    }
  }

  lemma {:induction false} SavedKeysNone(items: seq<Json>, n: nat)
    requires n <= |items|
    requires forall t :: 0 <= t < n ==> !ValidSaved(items[t])
    ensures SavedKeys(items, n) == []
  {
    if n > 0 {
      SavedKeysNone(items, n - 1);
    }
  }

  /**
   * Falsy and id-less saved entries are skipped: when the saved value is not an
   * array, or holds no entry with a truthy id, the result is exactly the defaults.
   */
  lemma MergeWithoutValidSaved(defArr: seq<Obj>, saved: Option<Json>)
    requires forall x :: x in SavedItems(saved) ==> !ValidSaved(x)
    requires Distinct(DefKeys(defArr))
    ensures MergeSpec(defArr, saved) == defArr
  {
    var items := SavedItems(saved);
    SavedKeysNone(items, |items|);
    assert Dedupe(SavedKeys(items, |items|)) == [];
    assert NewKeys(defArr, items) == [];
    assert MergedKeys(defArr, items) == DefKeys(defArr);
    forall i | 0 <= i < |defArr|
      ensures MergeSpec(defArr, saved)[i] == defArr[i]
    {
      BaseOfDefault(defArr, i);
      OverlayNoMatch(defArr, items, DKey(defArr[i], i), |items|);
    }
  }

  /** A saved value that is not an array yields exactly the defaults */
  lemma MergeNonArray(defArr: seq<Obj>, saved: Option<Json>)
    requires !(saved.Some? && saved.value.JArr?)
    requires Distinct(DefKeys(defArr))
    ensures MergeSpec(defArr, saved) == defArr
  {
    MergeWithoutValidSaved(defArr, saved);
  }

  /**
   * The result starts with one entry per default, in default order and with the
   * default's id; the new ids follow.
   */
  lemma MergeDefaultsFirst(defArr: seq<Obj>, saved: Option<Json>)
    requires Distinct(DefKeys(defArr))
    ensures var r := MergeSpec(defArr, saved);
      && |r| == |defArr| + |NewKeys(defArr, SavedItems(saved))|
      && forall i :: 0 <= i < |defArr| ==> Get(r[i], "id") == Get(defArr[i], "id")
  {
    var items := SavedItems(saved);
    forall i | 0 <= i < |defArr|
      ensures Get(MergeSpec(defArr, saved)[i], "id") == Get(defArr[i], "id")
    {
      assert MergedKeys(defArr, items)[i] == DKey(defArr[i], i);
      OverlayKeepsDefaultId(defArr, items, i, |items|);
    }
  }

  /**
   * Shallow override: a field that no saved entry with the default's id carries
   * keeps the default's value (or stays absent); a carried field takes the value
   * of the last such entry that carries it.
   */
  lemma MergeOverridesShallowly(defArr: seq<Obj>, saved: Option<Json>, i: nat, f: string)
    requires Distinct(DefKeys(defArr))
    requires i < |defArr|
    ensures var items := SavedItems(saved);
      var k := DKey(defArr[i], i);
      var r := MergeSpec(defArr, saved);
      && ((forall t :: 0 <= t < |items| && Matches(items, t, k) ==> f !in items[t].fields)
          ==> Get(r[i], f) == Get(defArr[i], f))
      && (forall t ::
            (0 <= t < |items| && Matches(items, t, k) && f in items[t].fields
             && (forall t' :: t < t' < |items| && Matches(items, t', k) ==> f !in items[t'].fields))
            ==> Get(r[i], f) == Some(items[t].fields[f]))
  {
    var items := SavedItems(saved);
    var k := DKey(defArr[i], i);
    assert MergedKeys(defArr, items)[i] == k;
    assert MergeSpec(defArr, saved)[i] == Overlay(defArr, items, k, |items|);
    BaseOfDefault(defArr, i);
    if forall t :: 0 <= t < |items| && Matches(items, t, k) ==> f !in items[t].fields {
      OverlayUncarried(defArr, items, k, |items|, f);
    }
    forall t | 0 <= t < |items| && Matches(items, t, k) && f in items[t].fields
        && (forall t' :: t < t' < |items| && Matches(items, t', k) ==> f !in items[t'].fields)
      ensures Get(MergeSpec(defArr, saved)[i], f) == Some(items[t].fields[f])
    {
      OverlayLastCarried(defArr, items, k, |items|, t, f);
    }
  }

  lemma {:induction false} SavedKeysMatch(items: seq<Json>, n: nat, k: Key)
    requires n <= |items|
    ensures k in SavedKeys(items, n) <==> exists t :: 0 <= t < n && Matches(items, t, k)
  {
    if n > 0 {
      SavedKeysMatch(items, n - 1, k);
      if Matches(items, n - 1, k) {
        assert SavedKeys(items, n) == SavedKeys(items, n - 1) + [k];
      } else {
        assert k in SavedKeys(items, n) <==> k in SavedKeys(items, n - 1);
        assert (exists t :: 0 <= t < n && Matches(items, t, k))
          ==> (exists t :: 0 <= t < n - 1 && Matches(items, t, k));
      }
    }
  }

  /**
   * The entries after the defaults are the saved ids no default has, each once,
   * in the order their first saved entry appears.
   */
  lemma MergeAppendsNewIds(defArr: seq<Obj>, saved: Option<Json>)
    ensures var items := SavedItems(saved);
      var nk := NewKeys(defArr, items);
      var sk := SavedKeys(items, |items|);
      && Distinct(nk)
      && (forall k :: k in nk <==> k !in DefKeys(defArr) && exists t :: 0 <= t < |items| && Matches(items, t, k))
      && (forall a, b :: 0 <= a < b < |nk| ==> IndexOf(sk, nk[a]) < IndexOf(sk, nk[b]))
      && (forall j :: 0 <= j < |nk| ==> MergeSpec(defArr, saved)[|defArr| + j] == Overlay(defArr, items, nk[j], |items|))
  {
    var items := SavedItems(saved);
    var sk := SavedKeys(items, |items|);
    var d := Dedupe(sk);
    var nk := NewKeys(defArr, items);
    forall k ensures k in nk <==> k !in DefKeys(defArr) && exists t :: 0 <= t < |items| && Matches(items, t, k) {
      SavedKeysMatch(items, |items|, k);
    }
    forall a, b | 0 <= a < b < |nk| ensures IndexOf(sk, nk[a]) < IndexOf(sk, nk[b]) {
      var ia := IndexOf(d, nk[a]);
      var ib := IndexOf(d, nk[b]);
      assert d[ia] == nk[a] && d[ib] == nk[b];
      assert ia < ib;
    }
  }

  /** The id read off a result entry, given the Map key it was emitted under */
  lemma MergedIdOfKey(defArr: seq<Obj>, saved: Option<Json>, p: nat)
    requires Distinct(DefKeys(defArr))
    requires p < |MergeSpec(defArr, saved)|
    ensures var items := SavedItems(saved);
      var k := MergedKeys(defArr, items)[p];
      var id := Get(MergeSpec(defArr, saved)[p], "id");
      && (k.Prim? ==> id == k.id)
      && (k.Ref? ==> id.Some? && IsRefValue(id.value))
  {
    var items := SavedItems(saved);
    var ks := MergedKeys(defArr, items);
    var k := ks[p];
    var r := MergeSpec(defArr, saved);
    assert r[p] == Overlay(defArr, items, k, |items|);
    if p < |defArr| {
      assert k == DKey(defArr[p], p);
      OverlayKeepsDefaultId(defArr, items, p, |items|);
    } else {
      var nk := NewKeys(defArr, items);
      assert k == nk[p - |defArr|];
      MergeAppendsNewIds(defArr, saved);
      assert k in nk;
      SavedKeysMatch(items, |items|, k);
      var t :| 0 <= t < |items| && Matches(items, t, k);
      if k.Prim? {
        assert k.id.Some?;
        OverlayPrimId(defArr, items, k.id.value, |items|, t);
      } else {
        assert k == Ref(FromSaved, t);
        OverlaySavedRef(defArr, items, t, |items|);
      }
    }
  }

  /** No primitive id occurs twice in the result */
  lemma MergeIdsUnique(defArr: seq<Obj>, saved: Option<Json>)
    requires Distinct(DefKeys(defArr))
    ensures var r := MergeSpec(defArr, saved);
      forall a, b :: 0 <= a < b < |r| && IsPrimId(Get(r[a], "id")) ==> Get(r[a], "id") != Get(r[b], "id")
  {
    var items := SavedItems(saved);
    var ks := MergedKeys(defArr, items);
    var r := MergeSpec(defArr, saved);
    MergeAppendsNewIds(defArr, saved);
    var dk := DefKeys(defArr);
    var nk := NewKeys(defArr, items);
    assert Distinct(ks) by {
      forall a, b | 0 <= a < b < |ks| ensures ks[a] != ks[b] {
        if b >= |dk| && a < |dk| {
          assert ks[b] in nk && ks[a] in dk;
        }
      }
    }
    forall a, b | 0 <= a < b < |r| && IsPrimId(Get(r[a], "id"))
      ensures Get(r[a], "id") != Get(r[b], "id")
    {
      MergedIdOfKey(defArr, saved, a);
      MergedIdOfKey(defArr, saved, b);
    }
  }

  // ---------------------------------------------------------------------
  // loadMaster
  // ---------------------------------------------------------------------

  /** `{ ...def.sendScope, ...(parsed.sendScope || {}) }` */
  function MergeScope(defScope: Obj, parsedScope: Option<Json>): (r: Obj)
    ensures parsedScope.None? ==> r == defScope
    ensures parsedScope.Some? && parsedScope.value.JObj? ==>
      forall k :: (k in r <==> k in defScope || k in parsedScope.value.fields)
        && (k in parsedScope.value.fields ==> r[k] == parsedScope.value.fields[k])
        && (k in defScope && k !in parsedScope.value.fields ==> r[k] == defScope[k])
  {
    var over := if parsedScope.Some? && Truthy(parsedScope.value) then Spread(parsedScope.value) else map[];
    defScope + over
  }

  const Collections: seq<string> := ["companies", "staff", "locations", "situations", "bodyParts"]

  /** The built-in defaults carry every collection as an array of objects and sendScope as an object */
  predicate DefaultShaped(def: Obj) {
    && (forall c :: c in Collections ==> c in def && def[c].JArr? && forall x :: x in def[c].items ==> x.JObj?)
    && "sendScope" in def && def["sendScope"].JObj?
  }

  function Objects(js: seq<Json>): (os: seq<Obj>)
    requires forall x :: x in js ==> x.JObj?
    ensures |os| == |js| && forall i :: 0 <= i < |js| ==> os[i] == js[i].fields
  {
    seq(|js|, i requires 0 <= i < |js| => js[i].fields)
  }

  function ToJson(os: seq<Obj>): Json {
    JArr(seq(|os|, i requires 0 <= i < |os| => JObj(os[i])))
  }

  function MergeCollection(def: Obj, parsed: Json, c: string): Json
    requires DefaultShaped(def) && c in Collections
  {
    ToJson(MergeSpec(Objects(def[c].items), Prop(parsed, c)))
  }

  /**
   * loadMaster. `stored` is the parsed persisted document; None stands for an
   * absent or empty item and for a document JSON.parse rejects, which all fall
   * back to the defaults.
   */
  function LoadMaster(def: Obj, stored: Option<Json>): Obj
    requires DefaultShaped(def)
  {
    if stored.None? then def
    else
      var parsed := if Truthy(stored.value) then stored.value else JObj(map[]);
      var merged := def + Spread(parsed);
      merged["sendScope" := JObj(MergeScope(def["sendScope"].fields, Prop(parsed, "sendScope")))]
            ["companies" := MergeCollection(def, parsed, "companies")]
            ["staff" := MergeCollection(def, parsed, "staff")]
            ["locations" := MergeCollection(def, parsed, "locations")]
            ["situations" := MergeCollection(def, parsed, "situations")]
            ["bodyParts" := MergeCollection(def, parsed, "bodyParts")]
  }

  /** Without a stored document the defaults are used as they are */
  lemma LoadMasterDefaults(def: Obj)
    requires DefaultShaped(def)
    ensures LoadMaster(def, None) == def
  {
  }

  /** After loading, every collection is the merge of its defaults with the saved one */
  lemma LoadMasterCollections(def: Obj, stored: Json)
    requires DefaultShaped(def)
    ensures var m := LoadMaster(def, Some(stored));
      forall c :: c in Collections ==> c in m && m[c] == MergeCollection(def, stored, c)
  {
    var parsed := if Truthy(stored) then stored else JObj(map[]);
    assert Prop(parsed, "companies") == Prop(stored, "companies");
    assert Prop(parsed, "staff") == Prop(stored, "staff");
    assert Prop(parsed, "locations") == Prop(stored, "locations");
    assert Prop(parsed, "situations") == Prop(stored, "situations");
    assert Prop(parsed, "bodyParts") == Prop(stored, "bodyParts");
  }

  /** After loading, sendScope is an object that keeps every default flag the saved one does not set */
  lemma LoadMasterScope(def: Obj, stored: Json)
    requires DefaultShaped(def)
    ensures var m := LoadMaster(def, Some(stored));
      && "sendScope" in m && m["sendScope"].JObj?
      && m["sendScope"].fields == MergeScope(def["sendScope"].fields, Prop(stored, "sendScope"))
  {
    var parsed := if Truthy(stored) then stored else JObj(map[]);
    assert Prop(parsed, "sendScope") == Prop(stored, "sendScope");
  }

  /** Any other field of a saved object replaces the default one (a shallow spread) */
  lemma LoadMasterOtherFields(def: Obj, stored: Json, k: string)
    requires DefaultShaped(def)
    requires stored.JObj? && k in stored.fields
    requires k !in Collections && k != "sendScope"
    ensures var m := LoadMaster(def, Some(stored));
      k in m && m[k] == stored.fields[k]
  {
    assert k != "companies" && k != "staff" && k != "locations" && k != "situations" && k != "bodyParts";
  }
}
