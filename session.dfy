/**
 * Values the session holds: the screens (`view-*` element ids), the mail
 * preview, and the guided emergency flow's wizard record with its defaults.
 */
module Session {
  import opened Common

  /** The screens of the page, one per `view-*` section */
  datatype View =
    | Home | Body | CompanyView | PersonView | Result | EmergencyView | Admin
    | Triage | LocationView | Accident | Victim | Review

  /** The element id of a screen */
  function ViewId(v: View): string {
    match v
    case Home => "view-home"
    case Body => "view-body"
    case CompanyView => "view-company"
    case PersonView => "view-person"
    case Result => "view-result"
    case EmergencyView => "view-emergency"
    case Admin => "view-admin"
    case Triage => "view-triage"
    case LocationView => "view-location"
    case Accident => "view-accident"
    case Victim => "view-victim"
    case Review => "view-review"
  }

  const AllViews: seq<View> :=
    [Home, Body, CompanyView, PersonView, Result, EmergencyView, Admin,
     Triage, LocationView, Accident, Victim, Review]

  /** `document.getElementById(id)`: the screen with that element id, if the page has one */
  function ViewOf(id: string): (r: Option<View>)
    ensures r.Some? ==> ViewId(r.value) == id
  {
    if id == "view-home" then Some(Home)
    else if id == "view-body" then Some(Body)
    else if id == "view-company" then Some(CompanyView)
    else if id == "view-person" then Some(PersonView)
    else if id == "view-result" then Some(Result)
    else if id == "view-emergency" then Some(EmergencyView)
    else if id == "view-admin" then Some(Admin)
    else if id == "view-triage" then Some(Triage)
    else if id == "view-location" then Some(LocationView)
    else if id == "view-accident" then Some(Accident)
    else if id == "view-victim" then Some(Victim)
    else if id == "view-review" then Some(Review)
    else None
  }

  /** Element ids and screens are in one-to-one correspondence */
  lemma ViewIdRoundTrip(v: View)
    ensures ViewOf(ViewId(v)) == Some(v)
  {
  }

  /** `WIZ[stepKey]`: the guided flow's five steps; any other key names no screen */
  function WizardView(stepKey: string): (r: Option<View>)
    ensures r == Some(Triage) <==> stepKey == "triage"
    ensures r == Some(LocationView) <==> stepKey == "location"
    ensures r == Some(Accident) <==> stepKey == "accident"
    ensures r == Some(Victim) <==> stepKey == "victim"
    ensures r == Some(Review) <==> stepKey == "review"
    ensures r.Some? ==> r.value in {Triage, LocationView, Accident, Victim, Review}
  {
    if stepKey == "triage" then Some(Triage)
    else if stepKey == "location" then Some(LocationView)
    else if stepKey == "accident" then Some(Accident)
    else if stepKey == "victim" then Some(Victim)
    else if stepKey == "review" then Some(Review)
    else None
  }

  /** A composed notification */
  datatype Mail = Mail(to: seq<string>, subject: string, body: string)

  const EmptyMail := Mail([], "", "")

  /** Triage answers: null until tapped, then the button's value ('yes', 'no', 'unknown') */
  datatype TriageAnswers = TriageAnswers(conscious: Option<string>, breathing: Option<string>)

  datatype WizLocation = WizLocation(qr: string, name: string, unknown: bool)

  datatype WizAccident = WizAccident(types: seq<string>, note: string)

  datatype WizVictim = WizVictim(staffId: Option<string>, name: string, qr: string, unknown: bool)

  datatype Wizard = Wizard(
    startedAt: string,
    triage: TriageAnswers,
    location: WizLocation,
    accident: WizAccident,
    victim: WizVictim)

  const UnknownLocation := WizLocation("", "", true)
  const UnknownVictim := WizVictim(None, "", "", true)

  /** defaultWizardState, with the clock reading passed in */
  function DefaultWizard(startedAt: string): (w: Wizard)
    ensures w.startedAt == startedAt
    ensures w.triage.conscious.None? && w.triage.breathing.None?
    ensures w.location.unknown && w.location.qr == "" && w.location.name == ""
    ensures w.accident.types == [] && w.accident.note == ""
    ensures w.victim.unknown && w.victim.staffId.None? && w.victim.name == "" && w.victim.qr == ""
  {
    Wizard(startedAt, TriageAnswers(None, None), UnknownLocation, WizAccident([], ""), UnknownVictim)
  }
}
