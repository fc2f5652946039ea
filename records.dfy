/**
 * The master record the screens read, as typed records. A field the stored
 * document lacks is read by the program through `||` and `?.`; here it is the
 * value that test yields (`''`, `false` or `[]`), since the program treats the
 * two alike. Lookups are `Array.prototype.find` by id; the status grid's preset
 * lists and the admin's company deletion live here too.
 */
module Records {
  import opened Common

  datatype Company = Company(id: string, name: string, emails: seq<string>)

  datatype Staff = Staff(id: string, companyId: string, name: string, kana: string, qr: string)

  datatype Location = Location(id: string, name: string, qr: string)

  datatype Situation = Situation(
    id: string,
    labelText: string,
    requiresBody: bool,
    defaultAction: string,
    includeEmergency: seq<string>,
    includeObserve: seq<string>,
    subjectTpl: string,
    bodyTplEmergency: string,
    bodyTplObserve: string)

  datatype BodyPart = BodyPart(id: string, labelText: string)

  datatype GlobalContacts = GlobalContacts(safetyHQ: string, rescueTeam: string, ambulanceCenter: string)

  datatype SendScope = SendScope(safetyHQ: bool, rescueTeam: bool, ambulanceCenter: bool, companyEmails: bool)

  datatype AccidentType = AccidentType(key: string, labelText: string)

  /** `sendScope` and `accidentTypes` may be missing from a stored record */
  datatype Master = Master(
    globalContacts: GlobalContacts,
    sendScope: Option<SendScope>,
    companies: seq<Company>,
    staff: seq<Staff>,
    locations: seq<Location>,
    situations: seq<Situation>,
    bodyParts: seq<BodyPart>,
    accidentTypes: Option<seq<AccidentType>>)

  /** The default send scope: safety HQ and the company's addresses on, the rest off */
  const DefaultScope := SendScope(true, false, false, true)

  const DefaultContacts := GlobalContacts("safety@example.com", "rescue@example.com", "dispatch@example.com")

  /** Ids of the built-in situations, in their declared order */
  const DefaultSituationIds: seq<string> :=
    ["unconscious", "bleeding_major", "bleeding", "fall", "electric", "pinched",
     "pain", "dizzy", "vomit", "cant_stand", "other"]

  // ---------------------------------------------------------------------
  // Array.prototype.find
  // ---------------------------------------------------------------------

  /** Index of the first element satisfying p, if any */
  function FindIndex<T>(s: seq<T>, p: T -> bool): (r: Option<nat>)
    ensures r.None? <==> forall i :: 0 <= i < |s| ==> !p(s[i])
    ensures r.Some? ==> r.value < |s| && p(s[r.value]) && forall j :: 0 <= j < r.value ==> !p(s[j])
  {
    if |s| == 0 then None
    else if p(s[0]) then Some(0)
    else
      var r := FindIndex(s[1..], p);
      assert forall i :: 1 <= i < |s| ==> s[1..][i - 1] == s[i];
      if r.None? then None else Some(r.value + 1)
  }

  /** `list.find(p) || null` for a list of records (a record is never falsy) */
  function Find<T>(s: seq<T>, p: T -> bool): (r: Option<T>)
    ensures r.None? <==> forall i :: 0 <= i < |s| ==> !p(s[i])
    ensures r.Some? ==> r.value in s && p(r.value)
    ensures r.Some? ==> exists i :: 0 <= i < |s| && s[i] == r.value && forall j :: 0 <= j < i ==> !p(s[j])
  {
    var i := FindIndex(s, p);
    if i.None? then None else Some(s[i.value])
  }

  /** find returns the element at the first index where p holds */
  lemma FindFirst<T>(s: seq<T>, p: T -> bool)
    ensures forall i :: 0 <= i < |s| && p(s[i]) && (forall j :: 0 <= j < i ==> !p(s[j])) ==> Find(s, p) == Some(s[i])
  {
    var k := FindIndex(s, p);
    forall i | 0 <= i < |s| && p(s[i]) && (forall j :: 0 <= j < i ==> !p(s[j]))
      ensures Find(s, p) == Some(s[i])
    {
      assert k.Some?;
    }
  }

  /** getSituation: `id` is null when nothing is selected, and null matches no string id */
  function GetSituation(m: Master, id: Option<string>): Option<Situation> {
    Find(m.situations, (s: Situation) => id == Some(s.id))
  }

  function GetCompany(m: Master, id: Option<string>): Option<Company> {
    Find(m.companies, (c: Company) => id == Some(c.id))
  }

  function GetPerson(m: Master, id: Option<string>): Option<Staff> {
    Find(m.staff, (p: Staff) => id == Some(p.id))
  }

  function GetBodyPart(m: Master, id: Option<string>): Option<BodyPart> {
    Find(m.bodyParts, (b: BodyPart) => id == Some(b.id))
  }

  /**
   * Looking up nothing finds nothing; each lookup finds a record exactly when one
   * with that id exists, and a found record carries the id asked for.
   */
  lemma LookupById(m: Master, id: Option<string>)
    ensures id.None? ==>
      GetSituation(m, id).None? && GetCompany(m, id).None? && GetPerson(m, id).None? && GetBodyPart(m, id).None?
    ensures GetSituation(m, id).Some? ==> id == Some(GetSituation(m, id).value.id) && GetSituation(m, id).value in m.situations
    ensures GetCompany(m, id).Some? ==> id == Some(GetCompany(m, id).value.id) && GetCompany(m, id).value in m.companies
    ensures GetPerson(m, id).Some? ==> id == Some(GetPerson(m, id).value.id) && GetPerson(m, id).value in m.staff
    ensures GetBodyPart(m, id).Some? ==> id == Some(GetBodyPart(m, id).value.id) && GetBodyPart(m, id).value in m.bodyParts
    ensures id.Some? ==>
      (GetSituation(m, id).Some? <==> exists i :: 0 <= i < |m.situations| && m.situations[i].id == id.value)
    ensures id.Some? ==>
      (GetCompany(m, id).Some? <==> exists i :: 0 <= i < |m.companies| && m.companies[i].id == id.value)
    ensures id.Some? ==>
      (GetPerson(m, id).Some? <==> exists i :: 0 <= i < |m.staff| && m.staff[i].id == id.value)
    ensures id.Some? ==>
      (GetBodyPart(m, id).Some? <==> exists i :: 0 <= i < |m.bodyParts| && m.bodyParts[i].id == id.value)
  {
    SituationById(m, id);
    CompanyById(m, id);
    PersonById(m, id);
    BodyPartById(m, id);
  }

  lemma SituationById(m: Master, id: Option<string>)
    ensures id.Some? ==>
      (GetSituation(m, id).Some? <==> exists i :: 0 <= i < |m.situations| && m.situations[i].id == id.value)
  {
    if id.Some? && exists i :: 0 <= i < |m.situations| && m.situations[i].id == id.value {
      var i :| 0 <= i < |m.situations| && m.situations[i].id == id.value;
      assert ((s: Situation) => id == Some(s.id))(m.situations[i]);
    }
  }

  lemma CompanyById(m: Master, id: Option<string>)
    ensures id.Some? ==>
      (GetCompany(m, id).Some? <==> exists i :: 0 <= i < |m.companies| && m.companies[i].id == id.value)
  {
    if id.Some? && exists i :: 0 <= i < |m.companies| && m.companies[i].id == id.value {
      var i :| 0 <= i < |m.companies| && m.companies[i].id == id.value;
      assert ((c: Company) => id == Some(c.id))(m.companies[i]);
    }
  }

  lemma PersonById(m: Master, id: Option<string>)
    ensures id.Some? ==>
      (GetPerson(m, id).Some? <==> exists i :: 0 <= i < |m.staff| && m.staff[i].id == id.value)
  {
    if id.Some? && exists i :: 0 <= i < |m.staff| && m.staff[i].id == id.value {
      var i :| 0 <= i < |m.staff| && m.staff[i].id == id.value;
      assert ((p: Staff) => id == Some(p.id))(m.staff[i]);
    }
  }

  lemma BodyPartById(m: Master, id: Option<string>)
    ensures id.Some? ==>
      (GetBodyPart(m, id).Some? <==> exists i :: 0 <= i < |m.bodyParts| && m.bodyParts[i].id == id.value)
  {
    if id.Some? && exists i :: 0 <= i < |m.bodyParts| && m.bodyParts[i].id == id.value {
      var i :| 0 <= i < |m.bodyParts| && m.bodyParts[i].id == id.value;
      assert ((b: BodyPart) => id == Some(b.id))(m.bodyParts[i]);
    }
  }

  // ---------------------------------------------------------------------
  // Status presets
  // ---------------------------------------------------------------------

  const EmergencyPreset: seq<string> := ["unconscious", "bleeding_major", "fall", "electric", "pinched", "other"]
  const UnsurePreset: seq<string> := ["bleeding", "dizzy", "pain", "vomit", "cant_stand", "other"]

  /** `STATUS_PRESET[mode]`, for the two modes it defines */
  function PresetIds(mode: string): Option<seq<string>> {
    if mode == "emergency" then Some(EmergencyPreset)
    else if mode == "unsure" then Some(UnsurePreset)
    else None
  }

  /** A found situation carries the id asked for */
  lemma SituationFound(m: Master, id: string)
    ensures GetSituation(m, Some(id)).Some? ==>
      GetSituation(m, Some(id)).value.id == id && GetSituation(m, Some(id)).value in m.situations
  {
  }

  /** The situations a preset names, in preset order, skipping ids the master lacks */
  function PresetList(m: Master, ids: seq<string>): (r: seq<Situation>)
    ensures |r| <= |ids|
    ensures forall k :: 0 <= k < |r| ==> r[k].id in ids
  {
    if |ids| == 0 then []
    else
      var s := GetSituation(m, Some(ids[|ids| - 1]));
      SituationFound(m, ids[|ids| - 1]);
      assert forall x :: x in ids[..|ids| - 1] ==> x in ids;
      if s.Some? then PresetList(m, ids[..|ids| - 1]) + [s.value] else PresetList(m, ids[..|ids| - 1])
  }

  /** One step of PresetList: the last id contributes its situation when the master has one */
  lemma PresetListSnoc(m: Master, ids: seq<string>, id: string)
    ensures GetSituation(m, Some(id)).Some? ==>
      PresetList(m, ids + [id]) == PresetList(m, ids) + [GetSituation(m, Some(id)).value]
    ensures GetSituation(m, Some(id)).None? ==> PresetList(m, ids + [id]) == PresetList(m, ids)
  {
    assert (ids + [id])[..|ids|] == ids;
  }

  /** Every listed situation belongs to the master, is named by the preset and is what getSituation finds for its id */
  lemma {:induction false} PresetListMembers(m: Master, ids: seq<string>)
    ensures forall k :: 0 <= k < |PresetList(m, ids)| ==>
      PresetList(m, ids)[k].id in ids && PresetList(m, ids)[k] in m.situations
      && GetSituation(m, Some(PresetList(m, ids)[k].id)) == Some(PresetList(m, ids)[k])
  {
    if |ids| > 0 {
      var init := ids[..|ids| - 1];
      var last := ids[|ids| - 1];
      assert ids == init + [last];
      PresetListMembers(m, init);
      PresetListSnoc(m, init, last);
      SituationFound(m, last);
      var p := PresetList(m, init);
      var q := PresetList(m, ids);
      forall k | 0 <= k < |q|
        ensures q[k].id in ids && q[k] in m.situations && GetSituation(m, Some(q[k].id)) == Some(q[k])
      {
        if k < |p| {
          assert q[k] == p[k];
          assert p[k].id in init;
        }
      }
    }
  }

  /** getPresetSituations: null for a mode without a preset */
  method GetPresetSituations(m: Master, mode: string) returns (r: Option<seq<Situation>>)
    ensures PresetIds(mode).None? ==> r.None?
    ensures PresetIds(mode).Some? ==> r == Some(PresetList(m, PresetIds(mode).value))
  {
    var ids := PresetIds(mode);
    if ids.None? {
      return None;
    }
    var list := CollectPreset(m, ids.value);
    return Some(list);
  }

  /** The loop of getPresetSituations: looks each id up in turn and keeps the ones found */
  method CollectPreset(m: Master, ids: seq<string>) returns (list: seq<Situation>)
    ensures list == PresetList(m, ids)
  {
    list := [];
    var i := 0;
    while i < |ids|
      invariant i <= |ids|
      invariant list == PresetList(m, ids[..i])
    {
      var s := GetSituation(m, Some(ids[i]));
      assert ids[..i + 1] == ids[..i] + [ids[i]];
      PresetListSnoc(m, ids[..i], ids[i]);
      if s.Some? {
        list := list + [s.value];
      }
      i := i + 1;
    }
    assert ids[..i] == ids;
  }

  /** The list follows preset order */
  lemma {:induction false} PresetListOrder(m: Master, ids: seq<string>)
    requires Distinct(ids)
    ensures forall a, b :: 0 <= a < b < |PresetList(m, ids)| ==>
      IndexOf(ids, PresetList(m, ids)[a].id) < IndexOf(ids, PresetList(m, ids)[b].id)
  {
    if |ids| > 0 {
      var init := ids[..|ids| - 1];
      var last := ids[|ids| - 1];
      assert ids == init + [last];
      DistinctSnoc(init, last);
      PresetListOrder(m, init);
      PresetListSnoc(m, init, last);
      SituationFound(m, last);
      var p := PresetList(m, init);
      var q := PresetList(m, ids);
      var found := GetSituation(m, Some(last));
      if found.Some? {
        assert q == p + [found.value];
        OrderSnoc(init, last, p, q);
      } else {
        assert q == p;
        OrderSnoc(init, last, p, q);
      }
    }
  }

  /** Appending a situation for an id after all of init keeps the list in order */
  lemma OrderSnoc(init: seq<string>, last: string, p: seq<Situation>, q: seq<Situation>)
    requires last !in init
    requires forall k :: 0 <= k < |p| ==> p[k].id in init
    requires forall a, b :: 0 <= a < b < |p| ==> IndexOf(init, p[a].id) < IndexOf(init, p[b].id)
    requires q == p || (|q| == |p| + 1 && q[..|p|] == p && q[|p|].id == last)
    ensures forall a, b :: 0 <= a < b < |q| ==> IndexOf(init + [last], q[a].id) < IndexOf(init + [last], q[b].id)
  {
    forall a, b | 0 <= a < b < |q| ensures IndexOf(init + [last], q[a].id) < IndexOf(init + [last], q[b].id) {
      assert q[a] == p[a];
      IndexOfSnoc(init, last, p[a].id);
      if b < |p| {
        assert q[b] == p[b];
        IndexOfSnoc(init, last, p[b].id);
      } else {
        IndexOfSnoc(init, last, last);
      }
    }
  }

  /** When the master has a situation for every preset id, the list has one per id, in order */
  lemma {:induction false} PresetListComplete(m: Master, ids: seq<string>)
    requires forall id :: id in ids ==> GetSituation(m, Some(id)).Some?
    ensures |PresetList(m, ids)| == |ids|
    ensures forall k :: 0 <= k < |ids| ==> PresetList(m, ids)[k].id == ids[k]
  {
    if |ids| > 0 {
      var init := ids[..|ids| - 1];
      var last := ids[|ids| - 1];
      assert ids == init + [last];
      assert last in ids;
      forall x | x in init ensures GetSituation(m, Some(x)).Some? {
        assert x in ids;
      }
      PresetListComplete(m, init);
      PresetListSnoc(m, init, last);
      SituationFound(m, last);
      var p := PresetList(m, init);
      var q := PresetList(m, ids);
      assert q == p + [GetSituation(m, Some(last)).value];
      forall k | 0 <= k < |ids| ensures q[k].id == ids[k] {
        if k < |init| {
          assert q[k] == p[k];
          assert ids[k] == init[k];
        }
      }
    }
  }

  /** Both presets name only built-in situations, with no id twice */
  lemma PresetsAreBuiltIn()
    ensures forall id :: id in EmergencyPreset ==> id in DefaultSituationIds
    ensures forall id :: id in UnsurePreset ==> id in DefaultSituationIds
    ensures Distinct(EmergencyPreset) && Distinct(UnsurePreset)
  {
  }

  // ---------------------------------------------------------------------
  // Company deletion
  // ---------------------------------------------------------------------

  /** `companies.filter(c => c.id !== id)` */
  function CompaniesWithout(cs: seq<Company>, id: string): (r: seq<Company>)
    ensures forall c :: c in r <==> c in cs && c.id != id
    ensures |r| <= |cs|
  {
    if |cs| == 0 then []
    else if cs[0].id == id then CompaniesWithout(cs[1..], id)
    else [cs[0]] + CompaniesWithout(cs[1..], id)
  }

  /** The removal is the order-keeping filter on the id */
  lemma {:induction false} CompaniesWithoutIsFilter(cs: seq<Company>, id: string)
    ensures CompaniesWithout(cs, id) == Filter(cs, (c: Company) => c.id != id)
  {
    if |cs| > 0 {
      CompaniesWithoutIsFilter(cs[1..], id);
    }
  }

  function Detach(st: seq<Staff>, id: string): (r: seq<Staff>)
    ensures |r| == |st|
    ensures forall i :: 0 <= i < |st| ==>
      r[i] == if st[i].companyId == id then st[i].(companyId := "") else st[i]
  {
    seq(|st|, i requires 0 <= i < |st| => if st[i].companyId == id then st[i].(companyId := "") else st[i])
  }

  /**
   * Deleting a company drops every company with that id and detaches its staff:
   * no staff member still points at it (unless the id is `''` itself), staff keep
   * their order and every other field, and nothing else in the record changes.
   */
  function DeleteCompany(m: Master, id: string): (r: Master)
    ensures forall c :: c in r.companies <==> c in m.companies && c.id != id
    ensures r.companies == Filter(m.companies, (c: Company) => c.id != id)
    ensures |r.staff| == |m.staff|
    ensures forall i :: 0 <= i < |r.staff| ==>
      && r.staff[i].(companyId := m.staff[i].companyId) == m.staff[i]
      && r.staff[i].companyId == (if m.staff[i].companyId == id then "" else m.staff[i].companyId)
      && (id != "" ==> r.staff[i].companyId != id)
    ensures forall i :: 0 <= i < |m.staff| && m.staff[i].companyId != id ==> r.staff[i] == m.staff[i]
    ensures r.(companies := m.companies, staff := m.staff) == m
  {
    CompaniesWithoutIsFilter(m.companies, id);
    m.(companies := CompaniesWithout(m.companies, id), staff := Detach(m.staff, id))
  }
}
