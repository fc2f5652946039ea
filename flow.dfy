/**
 * The page's navigation and flow state: the `nav` view stack, the global
 * `state` record and the click handlers that update them, for the quick flow
 * (situation → body part → company → person → result or emergency call) and
 * the guided emergency flow (triage → location → accident → victim → review),
 * plus the session restore at boot. Clock readings are parameters.
 */
module Flow {
  import opened Common
  import opened Records
  import opened Session
  import opened Compose
  import opened YardMap

  // ---------------------------------------------------------------------
  // The view stack
  // ---------------------------------------------------------------------

  /** No screen follows itself on the stack */
  predicate NoAdjacentDup(s: seq<View>) {
    forall i :: 0 <= i < |s| - 1 ==> s[i] != s[i + 1]
  }

  /** The stack after `nav.show(v, {push})`: a push adds v unless it is already on top */
  function ShowStack(stack: seq<View>, v: View, push: bool): (r: seq<View>)
    ensures |stack| <= |r| <= |stack| + 1
    ensures r[..|stack|] == stack
    ensures push ==> |r| > 0 && r[|r| - 1] == v
    ensures !push ==> r == stack
  {
    if push && (|stack| == 0 || stack[|stack| - 1] != v) then stack + [v] else stack
  }

  /** The stack after `nav.back()`: home alone when at most one entry, else one entry popped */
  function BackStack(stack: seq<View>): (r: seq<View>)
    ensures |r| >= 1
    ensures |stack| <= 1 ==> r == [Home]
    ensures |stack| > 1 ==> |r| == |stack| - 1 && stack == r + [stack[|stack| - 1]]
  {
    if |stack| <= 1 then [Home] else stack[..|stack| - 1]
  }

  /** Showing a screen keeps the stack free of adjacent repeats */
  lemma ShowKeepsNoAdjacentDup(stack: seq<View>, v: View, push: bool)
    requires NoAdjacentDup(stack)
    ensures NoAdjacentDup(ShowStack(stack, v, push))
    ensures |stack| >= 1 ==> |ShowStack(stack, v, push)| >= 1
  {
  }

  /** Going back keeps the stack free of adjacent repeats */
  lemma BackKeepsNoAdjacentDup(stack: seq<View>)
    requires NoAdjacentDup(stack)
    ensures NoAdjacentDup(BackStack(stack))
  {
  }

  /** Back undoes a show that pushed a new screen */
  lemma BackUndoesShow(stack: seq<View>, v: View)
    requires |stack| >= 1 && stack[|stack| - 1] != v
    ensures BackStack(ShowStack(stack, v, true)) == stack
  {
    assert (stack + [v])[..|stack|] == stack;
  }

  /** Showing the screen already on top changes nothing */
  lemma ShowTopIsIdempotent(stack: seq<View>, push: bool)
    requires |stack| >= 1
    ensures ShowStack(stack, stack[|stack| - 1], push) == stack
  {
  }

  /** `nav`: the history of screens and the screen on display */
  class Nav {
    var stack: seq<View>
    var current: View

    constructor()
      ensures stack == [Home] && current == Home
    {
      stack := [Home];
      current := Home;
    }

    /** nav.show: every view in the datatype has its element, so the guard never returns early */
    method Show(v: View, push: bool)
      modifies this
      ensures stack == ShowStack(old(stack), v, push)
      ensures current == v
    {
      current := v;
      if push {
        if |stack| == 0 || stack[|stack| - 1] != v {
          stack := stack + [v];
        }
      }
    }

    /** nav.back: pop one entry and show the new top, without pushing */
    method Back()
      modifies this
      ensures stack == BackStack(old(stack))
      ensures current == stack[|stack| - 1]
    {
      if |stack| <= 1 {
        Show(Home, false);
        stack := [Home];
        return;
      }
      stack := stack[..|stack| - 1];
      Show(stack[|stack| - 1], false);
    }
  }

  // ---------------------------------------------------------------------
  // The state record and its pure transitions
  // ---------------------------------------------------------------------

  /** The fields of `state` */
  datatype FlowState = FlowState(
    mode: string,
    situationId: Option<string>,
    companyId: Option<string>,
    personId: Option<string>,
    bodyPartId: Option<string>,
    detailNote: string,
    action: Option<string>,
    preview: Mail,
    wiz: Wizard)

  /** resetFlow's effect on the state: every selection cleared, a fresh wizard, the mode kept */
  function Cleared(st: FlowState, time: string): (r: FlowState)
    ensures r.mode == st.mode
    ensures r.situationId.None? && r.companyId.None? && r.personId.None? && r.bodyPartId.None?
    ensures r.detailNote == "" && r.action.None? && r.preview == EmptyMail
    ensures r.wiz == DefaultWizard(time)
  {
    FlowState(st.mode, None, None, None, None, "", None, EmptyMail, DefaultWizard(time))
  }

  /** buildMail with the records the state's ids select */
  function SelectedMail(m: Master, st: FlowState, time: string, action: string): Mail {
    QuickMail(m, GetSituation(m, st.situationId), GetCompany(m, st.companyId), GetPerson(m, st.personId),
              GetBodyPart(m, st.bodyPartId), st.detailNote, time, action)
  }

  /** `state.action || s?.defaultAction || 'observe'` */
  function ResultAction(action: Option<string>, s: Option<Situation>): (r: string)
    ensures r != ""
    ensures TruthyStr(action) ==> r == action.value
    ensures !TruthyStr(action) && s.Some? && s.value.defaultAction != "" ==> r == s.value.defaultAction
    ensures !TruthyStr(action) && (s.None? || s.value.defaultAction == "") ==> r == "observe"
  {
    if TruthyStr(action) then action.value
    else if s.Some? && s.value.defaultAction != "" then s.value.defaultAction
    else "observe"
  }

  /** showEmergencyCallView's effect on the state */
  function EmergencyCall(m: Master, st: FlowState, time: string): (r: FlowState)
    ensures r.action == Some("emergency")
    ensures r.preview == SelectedMail(m, st, time, "emergency")
    ensures r.(action := st.action, preview := st.preview) == st
  {
    st.(action := Some("emergency"), preview := SelectedMail(m, st, time, "emergency"))
  }

  /** buildResultPreview's effect on the state */
  function ResultPreview(m: Master, st: FlowState, time: string): (r: FlowState)
    ensures r.action == Some(ResultAction(st.action, GetSituation(m, st.situationId)))
    ensures r.preview == SelectedMail(m, st, time, r.action.value)
    ensures r.(action := st.action, preview := st.preview) == st
  {
    var a := ResultAction(st.action, GetSituation(m, st.situationId));
    st.(action := Some(a), preview := SelectedMail(m, st, time, a))
  }

  /** Re-rendering the result screen with the same clock reading changes nothing */
  lemma ResultPreviewIdempotent(m: Master, st: FlowState, time: string)
    ensures ResultPreview(m, ResultPreview(m, st, time), time) == ResultPreview(m, st, time)
  {
    var r := ResultPreview(m, st, time);
    assert SelectedMail(m, r, time, r.action.value) == SelectedMail(m, st, time, r.action.value);
  }

  /** The result screen's mail never repeats an address and never holds an empty one */
  lemma ResultMailRecipients(m: Master, st: FlowState, time: string)
    ensures Distinct(ResultPreview(m, st, time).preview.to)
    ensures "" !in ResultPreview(m, st, time).preview.to
  {
  }

  /** A chosen action survives the result screen; otherwise the situation's default or 'observe' is used */
  lemma ResultActionChoices(action: Option<string>, s: Option<Situation>)
    ensures var r := ResultAction(action, s);
      (r == OrEmpty(action)) || (s.Some? && r == s.value.defaultAction) || r == "observe"
  {
  }

  // ---------------------------------------------------------------------
  // Triage
  // ---------------------------------------------------------------------

  /** `state.wiz.triage[field] = val` for the two answers the page has */
  function SetAnswer(t: TriageAnswers, field: string, val: string): (r: TriageAnswers)
    ensures val == "" ==> r == t
    ensures field != "conscious" && field != "breathing" ==> r == t
    ensures val != "" && field == "conscious" ==> r == t.(conscious := Some(val))
    ensures val != "" && field == "breathing" ==> r == t.(breathing := Some(val))
  {
    if val == "" then t
    else if field == "conscious" then t.(conscious := Some(val))
    else if field == "breathing" then t.(breathing := Some(val))
    else t
  }

  /** The triage Next button is enabled when both answers are given */
  predicate TriageReady(t: TriageAnswers) {
    TruthyStr(t.conscious) && TruthyStr(t.breathing)
  }

  /** After tapping one answer in each group, Next is enabled exactly when each group holds an answer */
  lemma TriageReadyAfterAnswers(t: TriageAnswers, a: string, b: string)
    ensures TriageReady(SetAnswer(SetAnswer(t, "conscious", a), "breathing", b))
      <==> (a != "" || TruthyStr(t.conscious)) && (b != "" || TruthyStr(t.breathing))
  {
  }

  /** A fresh wizard does not let triage proceed */
  lemma FreshTriageNotReady(time: string)
    ensures !TriageReady(DefaultWizard(time).triage)
  {
  }

  // ---------------------------------------------------------------------
  // Accident chips
  // ---------------------------------------------------------------------

  /** The chip toggle: remove the first occurrence of t, or put t at the end */
  function Toggle(types: seq<string>, t: string): (r: seq<string>)
    ensures t !in types ==> r == types + [t]
    ensures t in types ==> |r| == |types| - 1 && multiset(r) == multiset(types) - multiset{t}
    ensures t in types ==> r == types[..IndexOf(types, t)] + types[IndexOf(types, t) + 1..]
    ensures forall x :: x != t ==> (x in r <==> x in types)
  {
    if t in types then
      var i := IndexOf(types, t);
      assert types == types[..i] + [t] + types[i + 1..];
      types[..i] + types[i + 1..]
    else types + [t]
  }

  /** Toggling never introduces a repeat, and on a repeat-free list flips membership */
  lemma ToggleKeepsDistinct(types: seq<string>, t: string)
    requires Distinct(types)
    ensures Distinct(Toggle(types, t))
    ensures t in Toggle(types, t) <==> t !in types
  {
    var r := Toggle(types, t);
    if t in types {
      var i := IndexOf(types, t);
      assert r == types[..i] + types[i + 1..];
      forall a, b | 0 <= a < b < |r| ensures r[a] != r[b] {
        var a' := if a < i then a else a + 1;
        var b' := if b < i then b else b + 1;
        assert r[a] == types[a'] && r[b] == types[b'];
      }
    }
  }

  /** On a repeat-free list, unticking a chip keeps the other chips in the order they were ticked */
  lemma ToggleRemovesInOrder(types: seq<string>, t: string)
    requires Distinct(types) && t in types
    ensures Toggle(types, t) == Filter(types, (x: string) => x != t)
  {
    var i := IndexOf(types, t);
    var a, b := types[..i], types[i + 1..];
    assert types == a + ([t] + b);
    DistinctSplit(types, i);
    FilterDropsOne(a, t, b, (x: string) => x != t);
  }

  /** In a repeat-free list, an element occurs neither before nor after its own position */
  lemma DistinctSplit<T>(s: seq<T>, i: nat)
    requires Distinct(s) && i < |s|
    ensures s[i] !in s[..i] && s[i] !in s[i + 1..]
  {
    var a, b := s[..i], s[i + 1..];
    assert forall j :: 0 <= j < |a| ==> a[j] == s[j];
    assert forall j :: 0 <= j < |b| ==> b[j] == s[i + 1 + j];
  }

  /** Filtering out the one element that fails removes it and keeps the rest in place */
  lemma FilterDropsOne<T(!new)>(a: seq<T>, t: T, b: seq<T>, p: T -> bool)
    requires !p(t) && (forall x :: x in a ==> p(x)) && (forall x :: x in b ==> p(x))
    ensures Filter(a + ([t] + b), p) == a + b
  {
    FilterAll(a, p);
    FilterAll(b, p);
    FilterAppend(a, [t] + b, p);
    FilterAppend([t], b, p);
  }

  /** Toggling an absent chip twice restores the list */
  lemma ToggleTwiceAbsent(types: seq<string>, t: string)
    requires t !in types
    ensures Toggle(Toggle(types, t), t) == types
  {
    var r := types + [t];
    assert IndexOf(r, t) == |types|;
    assert r[..|types|] == types;
  }

  /** On a repeat-free list, toggling twice keeps the same chips; a present chip moves to the end */
  lemma ToggleTwiceSameChips(types: seq<string>, t: string)
    requires Distinct(types)
    ensures multiset(Toggle(Toggle(types, t), t)) == multiset(types)
  {
    if t !in types {
      ToggleTwiceAbsent(types, t);
    } else {
      ToggleKeepsDistinct(types, t);
      assert t in multiset(types);
    }
  }

  // ---------------------------------------------------------------------
  // Session restore
  // ---------------------------------------------------------------------

  /** A parsed wizard record: each field may be missing */
  datatype SavedWizard = SavedWizard(
    startedAt: Option<string>,
    triage: Option<TriageAnswers>,
    location: Option<WizLocation>,
    accident: Option<WizAccident>,
    victim: Option<WizVictim>)

  /** A parsed session record: each field may be missing; `nav` holds its string entries */
  datatype SavedSession = SavedSession(
    situationId: Option<string>,
    companyId: Option<string>,
    personId: Option<string>,
    bodyPartId: Option<string>,
    action: Option<string>,
    detailNote: Option<string>,
    preview: Option<Mail>,
    wiz: Option<SavedWizard>,
    nav: Option<seq<string>>)

  /** `x || null` for a restored id: the empty string becomes null */
  function OrNull(o: Option<string>): (r: Option<string>)
    ensures r.None? || TruthyStr(r)
    ensures TruthyStr(o) ==> r == o
  {
    if TruthyStr(o) then o else None
  }

  /** `{...defaultWizardState(), ...saved}`: the saved fields over the defaults */
  function MergeWizard(def: Wizard, s: SavedWizard): (w: Wizard)
    ensures w.startedAt == s.startedAt.GetOr(def.startedAt)
    ensures w.triage == s.triage.GetOr(def.triage) && w.location == s.location.GetOr(def.location)
    ensures w.accident == s.accident.GetOr(def.accident) && w.victim == s.victim.GetOr(def.victim)
  {
    Wizard(s.startedAt.GetOr(def.startedAt), s.triage.GetOr(def.triage), s.location.GetOr(def.location),
           s.accident.GetOr(def.accident), s.victim.GetOr(def.victim))
  }

  /** restoreIfPossible's field copy */
  function Restored(st: FlowState, ses: SavedSession, time: string): (r: FlowState)
    ensures r.mode == "emergency"
    ensures r.situationId == OrNull(ses.situationId) && r.companyId == OrNull(ses.companyId)
    ensures r.personId == OrNull(ses.personId) && r.bodyPartId == OrNull(ses.bodyPartId)
    ensures r.action == OrNull(ses.action) && r.detailNote == OrEmpty(ses.detailNote)
    ensures r.preview == ses.preview.GetOr(st.preview)
    ensures r.wiz == if ses.wiz.Some? then MergeWizard(DefaultWizard(time), ses.wiz.value) else st.wiz
  {
    FlowState("emergency", OrNull(ses.situationId), OrNull(ses.companyId), OrNull(ses.personId),
              OrNull(ses.bodyPartId), OrEmpty(ses.detailNote), OrNull(ses.action),
              ses.preview.GetOr(st.preview),
              if ses.wiz.Some? then MergeWizard(DefaultWizard(time), ses.wiz.value) else st.wiz)
  }

  /** The ids saveSession writes for a stack */
  function StackIds(stack: seq<View>): (ids: seq<string>)
    ensures |ids| == |stack|
  {
    if |stack| == 0 then [] else StackIds(stack[..|stack| - 1]) + [ViewId(stack[|stack| - 1])]
  }

  /** `ids.filter(id => document.getElementById(id))`, as screens */
  function RestoredViews(ids: seq<string>): (r: seq<View>)
    ensures |r| <= |ids|
  {
    if |ids| == 0 then []
    else
      var init := RestoredViews(ids[..|ids| - 1]);
      var v := ViewOf(ids[|ids| - 1]);
      if v.Some? then init + [v.value] else init
  }

  /** Every restored screen is one whose element id was saved */
  lemma {:induction false} RestoredViewsNamed(ids: seq<string>)
    ensures forall v :: v in RestoredViews(ids) ==> ViewId(v) in ids
  {
    if |ids| > 0 {
      var init := ids[..|ids| - 1];
      RestoredViewsNamed(init);
      assert forall x :: x in init ==> x in ids;
    }
  }

  lemma RestoredViewsSnoc(ids: seq<string>, v: View)
    ensures RestoredViews(ids + [ViewId(v)]) == RestoredViews(ids) + [v]
  {
    var s := ids + [ViewId(v)];
    assert s[..|s| - 1] == ids;
    ViewIdRoundTrip(v);
  }

  /** A saved stack restores to itself */
  lemma {:induction false} RestoredViewsOfStack(stack: seq<View>)
    ensures RestoredViews(StackIds(stack)) == stack
  {
    if |stack| > 0 {
      var init := stack[..|stack| - 1];
      var last := stack[|stack| - 1];
      SplitLast(stack);
      var ids := StackIds(init);
      assert StackIds(stack) == ids + [ViewId(last)];
      RestoredViewsOfStack(init);
      RestoredViewsSnoc(ids, last);
      calc {
        RestoredViews(StackIds(stack));
        RestoredViews(ids + [ViewId(last)]);
        RestoredViews(ids) + [last];
        init + [last];
      }
    }
  }

  /** The restored stack: the named screens, or home alone when none is left */
  function RestoredStack(old_stack: seq<View>, saved: Option<seq<string>>): (r: seq<View>)
    ensures |old_stack| >= 1 ==> |r| >= 1
    ensures saved.Some? && |saved.value| > 0 ==> |r| >= 1
  {
    if saved.Some? && |saved.value| > 0 then
      var vs := RestoredViews(saved.value);
      if |vs| == 0 then [Home] else vs
    else old_stack
  }

  /** What saveSession stores for a state and a stack */
  function Saved(st: FlowState, stack: seq<View>): SavedSession {
    SavedSession(st.situationId, st.companyId, st.personId, st.bodyPartId, st.action, Some(st.detailNote),
                 Some(st.preview),
                 Some(SavedWizard(Some(st.wiz.startedAt), Some(st.wiz.triage), Some(st.wiz.location),
                                  Some(st.wiz.accident), Some(st.wiz.victim))),
                 Some(StackIds(stack)))
  }

  /** Ids that are null or non-empty, as the handlers leave them */
  predicate NormalIds(st: FlowState) {
    (st.situationId.None? || TruthyStr(st.situationId)) && (st.companyId.None? || TruthyStr(st.companyId))
    && (st.personId.None? || TruthyStr(st.personId)) && (st.bodyPartId.None? || TruthyStr(st.bodyPartId))
    && (st.action.None? || TruthyStr(st.action))
  }

  /** Saving and restoring gives back the state (in emergency mode) and a non-empty stack */
  lemma SaveRestoreRoundTrip(st: FlowState, stack: seq<View>, any: FlowState, time: string)
    requires NormalIds(st) && |stack| >= 1
    ensures Restored(any, Saved(st, stack), time) == st.(mode := "emergency")
    ensures RestoredStack([Home], Saved(st, stack).nav) == stack
  {
    RestoredViewsOfStack(stack);
  }

  // ---------------------------------------------------------------------
  // The page: `state` with `nav`
  // ---------------------------------------------------------------------

  const UnregisteredLocation := "未登録の場所（管理で登録してください）"
  const UnregisteredVictim := "未登録（管理で職員QRを登録してください）"
  const UnknownPlaceName := "不明"

  /** What onViewShown does to `state`: of the screens' renderers only the review's writes a field, the preview */
  function Rendered(m: Master, st: FlowState, v: View): (r: FlowState)
    ensures r.(preview := st.preview) == st
    ensures v == Review ==> r == st.(preview := BuildWizardPreview(m, st.wiz))
    ensures v != Review ==> r == st
  {
    if v == Review then st.(preview := BuildWizardPreview(m, st.wiz)) else st
  }

  class App {
    const nav: Nav
    var mode: string
    var situationId: Option<string>
    var companyId: Option<string>
    var personId: Option<string>
    var bodyPartId: Option<string>
    var detailNote: string
    var action: Option<string>
    var preview: Mail
    var wiz: Wizard

    function State(): FlowState
      reads this
    {
      FlowState(mode, situationId, companyId, personId, bodyPartId, detailNote, action, preview, wiz)
    }

    method SetState(st: FlowState)
      modifies this
      ensures State() == st
    {
      mode, situationId, companyId, personId, bodyPartId := st.mode, st.situationId, st.companyId, st.personId, st.bodyPartId;
      detailNote, action, preview, wiz := st.detailNote, st.action, st.preview, st.wiz;
    }

    /** The initial `state` and `nav`, with the clock reading for the wizard's start */
    constructor(time: string)
      ensures State() == FlowState("emergency", None, None, None, None, "", None, EmptyMail, DefaultWizard(time))
      ensures fresh(nav) && nav.stack == [Home] && nav.current == Home
    {
      nav := new Nav();
      mode := "emergency";
      situationId, companyId, personId, bodyPartId := None, None, None, None;
      detailNote := "";
      action := None;
      preview := EmptyMail;
      wiz := DefaultWizard(time);
    }

    /** resetFlow */
    method ResetFlow(time: string)
      modifies this
      ensures State() == Cleared(old(State()), time)
    {
      situationId, companyId, personId, bodyPartId := None, None, None, None;
      detailNote := "";
      action := None;
      preview := EmptyMail;
      wiz := DefaultWizard(time);
    }

    /** nav.restartAll: home alone on the stack, everything cleared */
    method RestartAll(time: string)
      modifies this, nav
      ensures nav.stack == [Home] && nav.current == Home
      ensures State() == Cleared(old(State()), time)
    {
      nav.stack := [Home];
      ResetFlow(time);
      nav.Show(Home, false);
    }

    /** Picking a situation clears the later choices; body part first when the situation needs one */
    method PickSituation(s: Situation)
      modifies this, nav
      ensures State() == old(State()).(situationId := Some(s.id), companyId := None, personId := None,
                                        bodyPartId := None, action := None)
      ensures var next := if s.requiresBody then Body else CompanyView;
        nav.current == next && nav.stack == ShowStack(old(nav.stack), next, true)
    {
      situationId := Some(s.id);
      companyId := None;
      personId := None;
      bodyPartId := None;
      action := None;
      if s.requiresBody {
        nav.Show(Body, true);
        return;
      }
      nav.Show(CompanyView, true);
    }

    /** Picking a company clears only the person */
    method PickCompany(c: Company)
      modifies this, nav
      ensures State() == old(State()).(companyId := Some(c.id), personId := None)
      ensures nav.current == PersonView && nav.stack == ShowStack(old(nav.stack), PersonView, true)
    {
      companyId := Some(c.id);
      personId := None;
      nav.Show(PersonView, true);
    }

    /** Tapping a body part selects it */
    method PickBodyPart(partId: string)
      modifies this
      ensures State() == old(State()).(bodyPartId := Some(partId))
    {
      bodyPartId := Some(partId);
    }

    /** showEmergencyCallView */
    method ShowEmergencyCallView(m: Master, time: string)
      modifies this, nav
      ensures State() == EmergencyCall(m, old(State()), time)
      ensures nav.current == EmergencyView && nav.stack == ShowStack(old(nav.stack), EmergencyView, true)
    {
      action, preview := Some("emergency"), SelectedMail(m, State(), time, "emergency");
      assert State() == EmergencyCall(m, old(State()), time);
      nav.Show(EmergencyView, true);
    }

    /** buildResultPreview */
    method BuildResultPreview(m: Master, time: string)
      modifies this
      ensures State() == ResultPreview(m, old(State()), time)
    {
      var s := GetSituation(m, situationId);
      var a := ResultAction(action, s);
      action := Some(a);
      preview := SelectedMail(m, State(), time, a);
    }

    /** The final screen for the mode: the emergency call, or the result with its preview */
    method Finish(m: Master, time: string)
      modifies this, nav
      ensures old(mode) == "emergency" ==>
        State() == EmergencyCall(m, old(State()), time)
        && nav.current == EmergencyView && nav.stack == ShowStack(old(nav.stack), EmergencyView, true)
      ensures old(mode) != "emergency" ==>
        State() == ResultPreview(m, old(State()), time)
        && nav.current == Result && nav.stack == ShowStack(old(nav.stack), Result, true)
    {
      if mode == "emergency" {
        ShowEmergencyCallView(m, time);
        return;
      }
      BuildResultPreview(m, time);
      nav.Show(Result, true);
    }

    /** Picking a person: the body part first when still needed, else the final screen */
    method PickPerson(m: Master, p: Staff, time: string)
      modifies this, nav
      ensures var st := old(State()).(personId := Some(p.id));
        var s := GetSituation(m, st.situationId);
        if s.Some? && s.value.requiresBody && !TruthyStr(st.bodyPartId) then
          State() == st && nav.current == Body && nav.stack == ShowStack(old(nav.stack), Body, true)
        else if st.mode == "emergency" then
          State() == EmergencyCall(m, st, time) && nav.current == EmergencyView
          && nav.stack == ShowStack(old(nav.stack), EmergencyView, true)
        else
          State() == ResultPreview(m, st, time) && nav.current == Result
          && nav.stack == ShowStack(old(nav.stack), Result, true)
    {
      personId := Some(p.id);
      var s := GetSituation(m, situationId);
      if s.Some? && s.value.requiresBody && !TruthyStr(bodyPartId) {
        nav.Show(Body, true);
        return;
      }
      Finish(m, time);
    }

    /** The body screen's Next: nothing without a part; the final screen when company and person are known */
    method BodyNext(m: Master, time: string)
      modifies this, nav
      ensures !TruthyStr(old(bodyPartId)) ==>
        State() == old(State()) && nav.stack == old(nav.stack) && nav.current == old(nav.current)
      ensures TruthyStr(old(bodyPartId)) && !(TruthyStr(old(companyId)) && TruthyStr(old(personId))) ==>
        State() == old(State()) && nav.current == CompanyView && nav.stack == ShowStack(old(nav.stack), CompanyView, true)
      ensures TruthyStr(old(bodyPartId)) && TruthyStr(old(companyId)) && TruthyStr(old(personId)) ==>
        if old(mode) == "emergency" then
          State() == EmergencyCall(m, old(State()), time) && nav.current == EmergencyView
          && nav.stack == ShowStack(old(nav.stack), EmergencyView, true)
        else
          State() == ResultPreview(m, old(State()), time) && nav.current == Result
          && nav.stack == ShowStack(old(nav.stack), Result, true)
    {
      if !TruthyStr(bodyPartId) {
        return;
      }
      if TruthyStr(companyId) && TruthyStr(personId) {
        Finish(m, time);
        return;
      }
      nav.Show(CompanyView, true);
    }

    /** The result screen's action buttons */
    method SetAction(m: Master, emergency: bool, time: string)
      modifies this
      ensures var a := if emergency then "emergency" else "observe";
        State() == ResultPreview(m, old(State()).(action := Some(a)), time)
        && action == Some(a) && preview == SelectedMail(m, old(State()), time, a)
    {
      action := Some(if emergency then "emergency" else "observe");
      BuildResultPreview(m, time);
    }

    /** onViewShown for the screen on show */
    method Render(m: Master)
      modifies this
      ensures State() == Rendered(m, old(State()), nav.current)
    {
      if nav.current == Review {
        ghost var st := State();
        preview := BuildWizardPreview(m, wiz);
        assert State() == st.(preview := BuildWizardPreview(m, st.wiz));
      }
    }

    /** nav.show followed by onViewShown */
    method ShowView(m: Master, v: View, push: bool)
      modifies this, nav
      ensures nav.current == v && nav.stack == ShowStack(old(nav.stack), v, push)
      ensures State() == Rendered(m, old(State()), v)
    {
      ghost var st := State();
      nav.Show(v, push);
      assert State() == st;
      Render(m);
    }

    /** The back button: nav.back, whose new top is rendered like any shown screen */
    method Back(m: Master)
      modifies this, nav
      ensures nav.stack == BackStack(old(nav.stack)) && nav.current == nav.stack[|nav.stack| - 1]
      ensures State() == Rendered(m, old(State()), nav.current)
    {
      ghost var st := State();
      nav.Back();
      assert State() == st;
      Render(m);
    }

    /** goWizardStep: a step key that names no step does nothing; the review step composes the preview */
    method GoWizardStep(m: Master, step: string, push: bool)
      modifies this, nav
      ensures WizardView(step).None? ==>
        State() == old(State()) && nav.stack == old(nav.stack) && nav.current == old(nav.current)
      ensures WizardView(step).Some? ==>
        nav.current == WizardView(step).value && nav.stack == ShowStack(old(nav.stack), WizardView(step).value, push)
      ensures WizardView(step).Some? ==> State() == Rendered(m, old(State()), WizardView(step).value)
    {
      var v := WizardView(step);
      if v.None? {
        return;
      }
      ShowView(m, v.value, push);
    }

    /** The guided flow's start button: emergency mode, a fresh flow started now, then triage */
    method StartEmergency(m: Master, resetTime: string, startTime: string)
      modifies this, nav
      ensures State() == Cleared(old(State()), startTime).(mode := "emergency")
      ensures nav.current == Triage && nav.stack == ShowStack(old(nav.stack), Triage, true)
    {
      mode := "emergency";
      ResetFlow(resetTime);
      wiz := wiz.(startedAt := startTime);
      GoWizardStep(m, "triage", true);
    }

    /** A triage answer button: nothing without a field or a value */
    method SetTriage(field: string, val: string)
      modifies this
      ensures State() == old(State()).(wiz := old(wiz).(triage := SetAnswer(old(wiz).triage, field, val)))
    {
      if field == "" || val == "" {
        return;
      }
      wiz := wiz.(triage := SetAnswer(wiz.triage, field, val));
    }

    /** The location step's "unknown" button */
    method LocationUnknown()
      modifies this
      ensures State() == old(State()).(wiz := old(wiz).(location := WizLocation("", UnknownPlaceName, true)))
    {
      wiz := wiz.(location := WizLocation("", UnknownPlaceName, true));
    }

    /** The manual location button: the trimmed name, keeping any QR already read */
    method SetManualLocation(input: string)
      modifies this
      ensures Trim(input) == "" ==> State() == old(State())
      ensures Trim(input) != "" ==>
        State() == old(State()).(wiz := old(wiz).(location := WizLocation(old(wiz).location.qr, Trim(input), false)))
    {
      var v := Trim(input);
      if v == "" {
        return;
      }
      wiz := wiz.(location := WizLocation(wiz.location.qr, v, false));
    }

    /** Typing in the manual location field: a non-blank name marks the location known */
    method ManualLocationInput(input: string)
      modifies this
      ensures Trim(input) == "" ==> State() == old(State())
      ensures Trim(input) != "" ==>
        State() == old(State()).(wiz := old(wiz).(location := old(wiz).location.(name := Trim(input), unknown := false)))
    {
      var v := Trim(input);
      if v != "" {
        wiz := wiz.(location := wiz.location.(name := v, unknown := false));
      }
    }

    /** Picking a registered location from the list */
    method PickListedLocation(m: Master, id: string)
      modifies this
      ensures var loc := Find(m.locations, (x: Location) => x.id == id);
        if id == "" || loc.None? then State() == old(State())
        else State() == old(State()).(wiz := old(wiz).(location := WizLocation(loc.value.qr, loc.value.name, false)))
    {
      if id == "" {
        return;
      }
      var loc := Find(m.locations, (x: Location) => x.id == id);
      if loc.None? {
        return;
      }
      wiz := wiz.(location := WizLocation(loc.value.qr, loc.value.name, false));
    }

    /** applyMapSelectionToLocation: the selected area's name, with the QR cleared */
    method ApplyMapSelectionToLocation(sel: MapSelector)
      modifies this
      ensures sel.selected.None? ==> State() == old(State())
      ensures sel.selected.Some? ==>
        State() == old(State()).(wiz := old(wiz).(location := WizLocation("", sel.selected.value.name, false)))
    {
      if sel.selected.None? {
        return;
      }
      wiz := wiz.(location := WizLocation("", sel.selected.value.name, false));
    }

    /** applyLocationQr: the QR is kept; the first location whose trimmed QR matches names the place */
    method ApplyLocationQr(m: Master, qr: string)
      modifies this
      ensures var hit := Find(m.locations, (l: Location) => Trim(l.qr) == qr);
        State() == old(State()).(wiz := old(wiz).(location :=
          WizLocation(qr, if hit.Some? then hit.value.name else UnregisteredLocation, false)))
    {
      var hit := Find(m.locations, (l: Location) => Trim(l.qr) == qr);
      wiz := wiz.(location := WizLocation(qr, if hit.Some? then hit.value.name else UnregisteredLocation, false));
    }

    /** An accident chip: toggled only while the accident step is on display */
    method ToggleAccident(t: string)
      modifies this
      ensures nav.current != Accident || t == "" ==> State() == old(State())
      ensures nav.current == Accident && t != "" ==>
        State() == old(State()).(wiz := old(wiz).(accident := old(wiz).accident.(types := Toggle(old(wiz).accident.types, t))))
    {
      if nav.current != Accident || t == "" {
        return;
      }
      wiz := wiz.(accident := wiz.accident.(types := Toggle(wiz.accident.types, t)));
    }

    /** The "none" button clears the chips */
    method AccidentNone()
      modifies this
      ensures State() == old(State()).(wiz := old(wiz).(accident := old(wiz).accident.(types := [])))
    {
      wiz := wiz.(accident := wiz.accident.(types := []));
    }

    method SetAccidentNote(v: string)
      modifies this
      ensures State() == old(State()).(wiz := old(wiz).(accident := old(wiz).accident.(note := v)))
    {
      wiz := wiz.(accident := wiz.accident.(note := v));
    }

    /** The victim step's "unknown" button */
    method VictimUnknown()
      modifies this
      ensures State() == old(State()).(wiz := old(wiz).(victim := UnknownVictim))
    {
      wiz := wiz.(victim := UnknownVictim);
    }

    /** Picking a staff member from the victim list */
    method PickVictim(m: Master, staffId: string)
      modifies this
      ensures var p := GetPerson(m, Some(staffId));
        if staffId == "" || p.None? then State() == old(State())
        else State() == old(State()).(wiz := old(wiz).(victim := WizVictim(Some(p.value.id), p.value.name, p.value.qr, false)))
    {
      if staffId == "" {
        return;
      }
      var p := GetPerson(m, Some(staffId));
      if p.None? {
        return;
      }
      wiz := wiz.(victim := WizVictim(Some(p.value.id), p.value.name, p.value.qr, false));
    }

    /** applyVictimQr: the QR is kept and the victim is known either way; a match fixes the staff id */
    method ApplyVictimQr(m: Master, qr: string)
      modifies this
      ensures var hit := Find(m.staff, (s: Staff) => Trim(s.qr) == qr);
        State() == old(State()).(wiz := old(wiz).(victim :=
          if hit.Some? then WizVictim(Some(hit.value.id), "", qr, false)
          else WizVictim(None, UnregisteredVictim, qr, false)))
    {
      var hit := Find(m.staff, (s: Staff) => Trim(s.qr) == qr);
      if hit.Some? {
        wiz := wiz.(victim := WizVictim(Some(hit.value.id), "", qr, false));
      } else {
        wiz := wiz.(victim := WizVictim(None, UnregisteredVictim, qr, false));
      }
    }

    /** handleQrValue: the trimmed, non-blank value goes to the step that opened the scanner */
    method HandleQrValue(m: Master, purpose: string, value: string)
      modifies this
      ensures var v := Trim(value);
        if v == "" || (purpose != "location" && purpose != "victim") then State() == old(State())
        else if purpose == "location" then
          State() == old(State()).(wiz := old(wiz).(location := WizLocation(v,
            var hit := Find(m.locations, (l: Location) => Trim(l.qr) == v);
            if hit.Some? then hit.value.name else UnregisteredLocation, false)))
        else
          State() == old(State()).(wiz := old(wiz).(victim :=
            var hit := Find(m.staff, (s: Staff) => Trim(s.qr) == v);
            if hit.Some? then WizVictim(Some(hit.value.id), "", v, false)
            else WizVictim(None, UnregisteredVictim, v, false)))
    {
      var v := Trim(value);
      if v == "" {
        return;
      }
      if purpose == "location" {
        ApplyLocationQr(m, v);
      } else if purpose == "victim" {
        ApplyVictimQr(m, v);
      }
    }

    /** The review step's copy and mail buttons compose the guided notification */
    method WizardPreview(m: Master)
      modifies this
      ensures State() == old(State()).(preview := BuildWizardPreview(m, old(wiz)))
    {
      preview := BuildWizardPreview(m, wiz);
    }

    /** restoreIfPossible: the field copy and the stack, without showing any screen */
    method Restore(ses: Option<SavedSession>, time: string)
      modifies this, nav
      ensures ses.None? ==> State() == old(State()) && nav.stack == old(nav.stack)
      ensures ses.Some? ==>
        State() == Restored(old(State()), ses.value, time) && nav.stack == RestoredStack(old(nav.stack), ses.value.nav)
      ensures nav.current == old(nav.current)
    {
      if ses.None? {
        return;
      }
      SetState(Restored(State(), ses.value, time));
      var saved := ses.value.nav;
      if saved.Some? && |saved.value| > 0 {
        var vs := RestoredViews(saved.value);
        nav.stack := if |vs| == 0 then [Home] else vs;
      }
    }

    /** Boot: restore, then show home with home alone on the stack */
    method Boot(ses: Option<SavedSession>, time: string)
      modifies this, nav
      ensures ses.None? ==> State() == old(State())
      ensures ses.Some? ==> State() == Restored(old(State()), ses.value, time)
      ensures nav.stack == [Home] && nav.current == Home
    {
      Restore(ses, time);
      nav.Show(Home, false);
      nav.stack := [Home];
    }
  }
}
