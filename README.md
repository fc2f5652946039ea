# 命をツナグ — a verified model of the notification core

命をツナグ is a single-page web application for reporting accidents in a shipyard.
It offers two ways to report.

- **Quick flow.** The reporter picks a situation card, a body part when the situation
  needs one, a company and a person. The app then either starts the emergency call
  (emergency mode) or shows a result screen with a mail preview (unsure mode).
- **Guided flow.** Five steps: triage, location, accident, victim and review. The
  location can come from a QR code, from the registered list, from typed input, or
  from a tap on the yard map. The victim can come from a helmet QR code or from the
  staff list.

Either flow ends in a notification mail (to, subject, body), which the user copies
or opens as a `mailto:` link. Master data (companies, staff, locations, situations,
body parts, contacts and the send scope) is merged with the built-in defaults when
it loads. The app saves the session after each step and restores it when the page
boots.

All of the application is in `script.js`. The model follows its structure, one
Dafny module per concern:

| module | file | what it holds |
|---|---|---|
| `Common` | common.dfy | JavaScript string primitives the core relies on: `trim`, `split`/`join` on one character, `includes`, `filter(Boolean)`, `Array.from(new Set(..))` |
| `MasterMerge` | merge.dfy | `loadMaster` and its `mergeById`, on a JSON value model; `mergeById` is an imperative method over a map and an insertion order |
| `Records` | records.dfy | the master-data records, the `getX` lookups, the status presets, deleting a company |
| `Session` | session.dfy | screens and their element ids, the wizard state, the mail triple |
| `Compose` | compose.dfy | `interpolate`, `nowIsoLocal`, `normalizeEmails`, recipients, `buildMail`, `buildWizardPreview`, the copy text and the `mailto:` list |
| `Lists` | lists.dfy | `escapeHtml`, kana grouping, the person list and the victim search list |
| `YardMap` | yardmap.dfy | the yard map: area table, centroids, view boxes, point-in-polygon, nearest area, the map list, and the map selection as a class |
| `Flow` | flow.dfy | the navigation stack (class `Nav`), the application state and every event handler of both flows (class `App`), and save/restore |

Several things in the code become parameters of the model:
- Clock readings (`nowIsoLocal()`) are the `time` parameters. `FormatLocalTime` models the formatting itself.
- The saved session is an `Option<SavedSession>`. The stored master data is an `Option<Json>`.
- The collation of `localeCompare` on readings is a ranking function `rank`.
- Tap coordinates are given after their conversion into map coordinates.

Three behaviours of the code worth noting:
- The "location unknown" button stores the name `不明` (script.js:2358). The default wizard state uses `''` (script.js:494).
- Restoring a session always sets the mode to `emergency` (script.js:2533).
- Default locations and staff get a fresh `uuid()` id on every load (script.js:140-176). A stored master keeps its copies under their old ids, so `mergeById` appends them after the new defaults (script.js:431-433, `MasterMerge.MergeAppendsNewIds`), and the default records are listed again under new ids.

The quick-flow mail and the guided preview follow the code as written in the two places listed under "## Findings": `interpolate`'s lookup and `getAccidentLabel`'s list. The corrected definitions are proved beside them and are not used by the flows.

## Model

| member | source | states |
|---|---|---|
| Common.Trim | script.js:48-53 | `String.prototype.trim`: the result is a slice of the input that starts after the leading whitespace, is followed only by whitespace, and neither starts nor ends with whitespace |
| Common.TrimIdempotent | script.js:48-53 | trimming an already trimmed string changes nothing |
| Common.TrimAllWs | script.js:59-62 | a blank reading trims to the empty string |
| Common.Decimal | script.js:19-33 | `String(n)`: digits only, no leading zero |
| Common.DecimalRoundTrip | script.js:19-33 | reading a decimal spelling back gives the number |
| Common.Split | script.js:48-51 | `split(',')`: at least one piece, and no piece contains the separator |
| Common.JoinSplit | script.js:48-51 | joining the pieces of a split with the separator restores the string |
| Common.SplitJoin | script.js:96-97 | splitting a join of separator-free pieces gives back the pieces |
| Common.NonEmpty | script.js:1647 | `filter(Boolean)`: keeps exactly the non-empty elements; by `NonEmptyIsFilter` it is `Filter` by non-emptiness, so order and multiplicity are kept |
| Common.NonEmptyIsFilter | script.js:1647 | `filter(Boolean)` on strings is the filter by the non-empty test |
| Common.Filter | script.js:1556-1562 | `Array.prototype.filter`: keeps exactly the members satisfying the predicate and gets no longer |
| Common.FilterAppend | script.js:1556-1562 | filtering distributes over concatenation, and a one-element list is kept or dropped whole, so the kept elements stay in their order |
| Common.FilterCount | script.js:1556-1562 | each kept value occurs as often as in the input; a dropped one not at all |
| Common.Dedupe | script.js:1647 | `Array.from(new Set(..))`: every element once, in order of first occurrence, same members |
| MasterMerge.MergeById | script.js:410-435 | the imperative merge (fill a map from the defaults, overlay the saved entries, emit the defaults in order, then the new ids) equals `MergeSpec` |
| MasterMerge.MergeNonArray | script.js:414 | a saved value that is not an array leaves the defaults as they are |
| MasterMerge.MergeWithoutValidSaved | script.js:414-420 | saved entries that are not objects with an `id` are all skipped, so the result is the defaults |
| MasterMerge.MergeDefaultsFirst | script.js:422-430 | the defaults come first, in their order and with their ids; the length is the defaults plus the new ids |
| MasterMerge.MergeOverridesShallowly | script.js:417-418 | a field no matching saved entry carries keeps the default's value; a carried field takes the value of the last saved entry carrying it |
| MasterMerge.MergeAppendsNewIds | script.js:431-433 | the appended ids are exactly the saved ids that are not defaults, each once, in first-seen order, each with its merged value |
| MasterMerge.MergeIdsUnique | script.js:410-435 | no primitive id appears twice in the merged list |
| MasterMerge.MergeScope | script.js:445 | the stored `sendScope` fields override the default's fields; the others keep the default |
| MasterMerge.LoadMasterDefaults | script.js:438-439 | with nothing stored, the master is the default |
| MasterMerge.LoadMasterCollections | script.js:447-451 | each of the five collections is the merge of the default list with the stored one |
| MasterMerge.LoadMasterScope | script.js:445 | the loaded `sendScope` is the spread of the stored scope over the default's |
| MasterMerge.LoadMasterOtherFields | script.js:442 | any other stored top-level field is taken as stored |
| MasterMerge.LoadMaster | script.js:436-452 | the loaded master; stated by `LoadMasterDefaults`, `LoadMasterCollections`, `LoadMasterScope` and `LoadMasterOtherFields` |
| Records.FindIndex | script.js:580-591 | `Array.prototype.find`'s position: none exactly when no element matches, otherwise the first match |
| Records.Find | script.js:580-591 | `find`: none exactly when no element matches, otherwise the first matching element |
| Records.FindFirst | script.js:580-591 | `find` returns the element at the first matching position |
| Records.LookupById | script.js:580-591 | `getSituation`, `getCompany`, `getPerson` and `getBodyPart`: null for a null id; a found record belongs to its collection and has the requested id; and for each of the four, a record is found exactly when its collection holds one with that id |
| Records.GetPresetSituations | script.js:598-607 | a mode without a preset gives null; otherwise the listed situations that exist, looked up one id at a time |
| Records.PresetList | script.js:601-606 | no more situations than ids, each named by the preset; with `PresetListMembers`, `PresetListOrder` and `PresetListComplete` the found ones in preset order |
| Records.CollectPreset | script.js:601-606 | the loop's list is exactly the preset's situations that the master has, in preset order |
| Records.PresetListMembers | script.js:602-605 | every listed situation belongs to the master, is named by the preset and is what the lookup finds for its id |
| Records.PresetListOrder | script.js:602-605 | with distinct ids, the found situations keep the preset's order |
| Records.PresetListComplete | script.js:602-605 | when every preset id exists, the list has one situation per id in preset order |
| Records.PresetsAreBuiltIn | script.js:593-596 | both presets name only built-in situations, each once |
| Records.DeleteCompany | script.js:1865-1867 | the companies are the old list filtered by `c.id !== id`, in order; every staff member keeps all fields but the company id, which is `''` for the deleted company and unchanged otherwise; nothing else changes |
| Records.CompaniesWithoutIsFilter | script.js:1865 | the recursive removal is the filter keeping the other ids |
| Session.ViewOf | script.js:516-517 | `getElementById` over the twelve screen ids: a screen found has exactly that id, and no other id finds a screen |
| Session.ViewIdRoundTrip | script.js:516-517 | every screen is found by its own element id |
| Session.WizardView | script.js:481-487 | `WIZ[stepKey]`: each of the five step keys names its own guided screen, and every other key names none |
| Session.DefaultWizard | script.js:490-498 | a fresh wizard state: no triage answers, unknown location and victim, no accident types |
| Compose.WordRun | script.js:1624 | the length of the longest run of `\w` characters at the front |
| Compose.TokenName | script.js:1624 | a `{name}` token: its name is a non-empty word, and the token is the name between braces |
| Compose.InterpolateNoBrace | script.js:1623-1625 | a template without `{` is returned unchanged |
| Compose.Interpolate | script.js:1623-1625 | corrected `interpolate`; stated by `InterpolateNoBrace`, `InterpolateLiteralPrefix`, `InterpolateToken` and `InterpolateSelf` |
| Compose.InterpolateLiteralPrefix | script.js:1623-1625 | text without `{` passes through before the rest is interpolated |
| Compose.InterpolateToken | script.js:1623-1625 | a `{k}` token is replaced by the value of `k`, or by `''` when the key is absent |
| Compose.InterpolateSelf | script.js:1623-1625 | when each token's value spells the token itself, interpolation changes nothing |
| Compose.AsWrittenAgrees | script.js:1623-1625 | the code as written agrees with the corrected lookup unless a token names an absent key inherited from `Object.prototype` |
| Compose.InterpolateAsWritten | script.js:1623-1625 | `interpolate` as written; stated by `AsWrittenAgrees` and `ConstructorTokenLeaks` |
| Compose.ConstructorTokenLeaks | script.js:1623-1625 | `{constructor}` with no such key: as written, the source text of `Object`; corrected, `''` |
| Compose.Pad2 | script.js:21 | `padStart(2, '0')` on a number below 100: two digits that spell it |
| Compose.FormatLocalTimeRoundTrip | script.js:19-33 | the `YYYY-MM-DD HH:MM` stamp parses back to the year, the one-based month, the day, the hour and the minute |
| Compose.FormatLocalTime | script.js:19-33 | the `YYYY-MM-DD HH:MM` stamp; stated by `FormatLocalTimeRoundTrip` |
| Compose.TrimAll | script.js:50 | `map(s => s.trim())`: same length, each piece trimmed |
| Compose.NormalizeEmails | script.js:48-53 | the addresses are exactly the non-empty trimmed comma pieces of the field; each is trimmed and free of commas |
| Compose.NormalizeEmpty | script.js:49 | an empty contact field gives no address |
| Compose.NormalizeJoined | script.js:48-53 | normalizing a comma-join of clean addresses gives them back |
| Compose.GroupContact | script.js:1637-1641 | one group adds its contact exactly when the group is named, enabled in the scope and has a contact |
| Compose.GroupContacts | script.js:1636-1641 | the global part reaches exactly the contacts of the groups listed |
| Compose.BuildRecipientsForAction | script.js:1627-1648 | the recipients are distinct and non-empty: the reachable group contacts, then the company's emails when the scope allows |
| Compose.RecipientsReach | script.js:1636-1647 | de-duplicating the non-empty pushes leaves distinct addresses, exactly the contacts some group token reaches plus the listed company addresses |
| Compose.GroupContactsFirst | script.js:1636-1647 | a group contact comes before a company address that is not also a group contact |
| Compose.DedupeKeepsOrder | script.js:1647 | de-duplication keeps the order of first occurrences |
| Compose.MailVars | script.js:1670-1676 | company, person and part names, or `''`; the time given; the detail note, or `（追記なし）` when empty |
| Compose.QuickMail | script.js:1663-1685 | the quick-flow mail's recipients are distinct and non-empty; subject and body are interpolated as written, so inherited names such as `{constructor}` leak |
| Compose.BuildMail | script.js:1663-1685 | the mail has the recipients for the action, the subject template (fallback `[命をツナグ] 連絡`) and the body template for the action (fallback `{person} {company} {time}`), both interpolated as written |
| Compose.SubjectFallback | script.js:1678 | the fallback subject has no tokens and is sent as it is, as written and corrected |
| Compose.BodyFallback | script.js:1680 | the fallback body is the person, the company and the time, separated by spaces; the as-written and corrected lookups agree on it |
| Compose.DetailTokenMarksEmptyNote | script.js:1676 | as written, `{detail}` never expands to nothing: the note, or `（追記なし）` |
| Compose.YesNoUnknownLabelFaithful | script.js:693-698 | `未選択` exactly when no yes/no/unknown answer is given; different answers get different labels |
| Compose.YesNoUnknownLabel | script.js:693-698 | the triage answer labels; stated by `YesNoUnknownLabelFaithful` |
| Compose.GetAccidentLabel | script.js:843-847 | the first accident type with the key gives its label, or the key when the label is empty; no type with the key gives the key; a non-empty key never gets an empty label |
| Compose.AccidentLabelsWithoutDefs | script.js:844 | as written: with no accident types stored, every key is its own label |
| Compose.ChipLabelLost | script.js:767-782 | as written: with no accident types stored the chip `転落` has the key `fall`, yet the preview's accident line is `【事故区分】fall`; the corrected label says `転落` |
| Compose.AccidentLabel | script.js:843-847 | corrected: the label is looked up in the same list the chips are drawn from; equal to the as-written label whenever accident types are stored; the preview keeps the as-written label |
| Compose.AccidentLabelMatchesChip | script.js:767-782 | every chip whose key occurs first at it and whose label is set is named in the preview by the label shown on the chip |
| Compose.LocationLabel | script.js:858 | `（場所不明）` for an unknown location, else the name when there is one, else `（場所未設定）` |
| Compose.VictimLabel | script.js:859 | the staff member's name when there is one, else the victim's own name, else `（被災者不明）` for an unknown victim and `（被災者未設定）` otherwise |
| Compose.ContactPart | script.js:890-892 | a contact field adds its normalized addresses exactly when its scope flag is on |
| Compose.CompanyEmailsPart | script.js:893 | the company's emails are added exactly when the company-emails flag is on and a company is known |
| Compose.BuildWizardRecipients | script.js:887-897 | distinct, non-empty, and exactly the normalized addresses of the enabled global contacts plus the enabled company emails |
| Compose.BuildWizardPreview | script.js:849-885 | the recipients of the victim's company; the subject `[命をツナグ] 緊急 ` + location label + ` / ` + victim label; the body is the preview lines joined by line breaks |
| Compose.WizardLinesCount | script.js:865-882 | twelve fixed lines, plus one for each optional field that is set |
| Compose.WizardLines | script.js:864-884 | the preview lines, with the accident labels of `getAccidentLabel` as written; stated by `WizardLinesCount`, `WizardLinesTriage`, `WizardLinesLocation`, `WizardLinesAccident`, `WizardLinesVictim` and `WizardLinesFooter` |
| Compose.WizardLinesTriage | script.js:866-869 | the preview opens with the discovery time, the two triage answers and a blank line |
| Compose.WizardLinesLocation | script.js:870-871 | the location line, followed by the location QR line exactly when there is a QR |
| Compose.WizardLinesAccident | script.js:873-875 | after the location part: the accident line with the non-empty as-written labels (`GetAccidentLabel` over the stored types) of the chosen keys joined by ` / ` or `未選択`, then the trimmed note line or the blank line |
| Compose.AccidentSectionLines | script.js:873-875 | the accident part opens with the accident line, built from the as-written labels of the chosen keys, and the note or blank line |
| Compose.WizardLinesVictim | script.js:876-880 | the victim part sits right after the accident part and is followed by the three footer lines |
| Compose.VictimSectionLines | script.js:877-880 | the victim line, then the company line, the staff id line and the helmet QR line, each exactly when its field is set |
| Compose.WizardLinesFooter | script.js:880-882 | the preview ends with a blank line, the rule and the footer notice |
| Compose.WizardBodySplits | script.js:884 | when no field holds a line break, the body splits back into its lines |
| Compose.MailtoRecipients | script.js:97 | the `mailto:` list contains every non-empty recipient |
| Compose.MailtoRecipientsRoundTrip | script.js:97 | splitting the `mailto:` list on commas gives the non-empty recipients in order |
| Compose.CopyTextRoundTrip | script.js:1730-1733 | the copied text parses back to the mail's recipients, subject and body |
| Compose.CopyText | script.js:1730-1733 | the copied mail text; stated by `CopyTextRoundTrip` |
| Compose.RecipientsRoundTrip | script.js:1731 | the `, `-joined recipient line splits back into the recipients |
| Lists.EscapeHtml | script.js:55-57 | no `<`, `>`, `'` or `"` survives, and nothing gets shorter |
| Lists.EscapeHtmlRoundTrip | script.js:55-57 | decoding the five entities restores the original text |
| Lists.EscapeHtmlPlain | script.js:55-57 | text without the five special characters is unchanged |
| Lists.ToHiragana | script.js:86-94 | katakana U+30A1..U+30F6 maps 0x60 down into hiragana; anything else is kept |
| Lists.ToHiraganaIdempotent | script.js:86-94 | converting twice is converting once |
| Lists.GroupOf | script.js:80-83 | the label of the first group that holds the character, else `他` |
| Lists.KanaGroupFromKana | script.js:59-84 | the kana tab of a reading; stated by `KanaGroupOnBar`, `BlankKanaIsOther` and `KatakanaLikeHiragana` |
| Lists.KanaGroupOnBar | script.js:59-84 | every reading falls under one of the eleven tabs of the kana bar |
| Lists.BlankKanaIsOther | script.js:61-62 | a blank reading goes under `他` |
| Lists.KatakanaLikeHiragana | script.js:64-65 | a katakana reading is grouped like its hiragana form |
| Lists.InsertSorted | script.js:1564 | inserting into a list ordered by the key keeps it ordered |
| Lists.InsertSameKey | script.js:1564 | inserting puts the new element before the elements with its key |
| Lists.SortBy | script.js:1564 | the sort's result is ordered by the key and is a permutation of its input; by `SortByStable` it is stable |
| Lists.SortByStable | script.js:1564 | elements with equal keys keep their relative order |
| Lists.Take | script.js:822 | `slice(0, n)`: a prefix of length min(n, length) |
| Lists.PersonList | script.js:1555-1564 | exactly the company's staff under the selected tab, ordered by reading, a permutation of the filtered list; staff with the same reading keep the staff table's order |
| Lists.PersonUnderOneTab | script.js:1555-1564 | each staff member is listed under their company and exactly one non-empty tab |
| Lists.VictimList | script.js:809-822 | the first 60 matches by reading: min(60, matches) staff members, all matching the trimmed query, ordered by reading, none ranked after a match left out; of each reading, the first matches in the staff table's order; all matches when there are at most 60 |
| Lists.TakeSortedBound | script.js:822 | cutting an ordered list keeps the smallest keys: nothing kept ranks after something cut |
| Lists.FirstByKey | script.js:809-822 | filter, sort and cut: min(n, matches) elements, only matches, ordered, no match left out ranks before one kept, and of each key the kept ones are the first matches in input order |
| Lists.TakeKeepsFirstOfClass | script.js:822 | of each key, a cut list keeps a prefix of that key's elements |
| Lists.SortByKeepsClasses | script.js:1564 | the elements of each key are in the same order before and after the sort |
| Lists.BlankQueryListsAll | script.js:809-822 | a blank query lists every staff member when there are at most 60 |
| YardMap.CentroidOf | script.js:1214-1224 | the loop's averages are the centroid function's mean of the vertices |
| YardMap.Centroid | script.js:1214-1224 | the mean of the vertices; stated by `CentroidOf` and `CentroidInBox` |
| YardMap.CentroidInBox | script.js:1214-1224 | the centroid of a polygon lies in any box holding all its vertices |
| YardMap.MapAreas | script.js:1226-1229 | one area per raw entry, the same name and polygon with its centroid |
| YardMap.Clamp | script.js:1244-1246 | inside the bounds when they are ordered; the value itself when already inside; `hi` above ordered bounds; `lo` below them, and `lo` whenever `hi < lo` |
| YardMap.AreaInViewBox | script.js:1270-1277 | an area is in view when its centroid lies in the box widened by the margin on every side; used by `SetMapSelection` |
| YardMap.ComputeViewBox | script.js:1248-1259 | the box stays inside the map; `all` or empty is the whole map; any zone is the map scaled down by 2.25, centred on the zone's centre and clamped into the map |
| YardMap.ZoneCenter | script.js:1234-1241 | the centres: horizontally in the middle; north at 720, south at 1780, everything else at the central 1180 |
| YardMap.UnknownZoneIsCentral | script.js:1254 | a zone name without a centre of its own is shown as the central zone |
| YardMap.GuessZoneByArea | script.js:1279-1284 | north above 950, central below 1550, south otherwise |
| YardMap.GuessedZoneHoldsHeight | script.js:1279-1284 | for a centroid between 200 and 2300, the guessed zone's box covers it vertically with the 40 margin |
| YardMap.DockOutsideItsZone | script.js:1279-1284 | DOCK's centroid (265, 1040) is outside the box of the zone guessed for it, so selecting DOCK in a zoomed view re-zooms away from it |
| YardMap.DenominatorGuardUnused | script.js:1444 | the `|| 1e-9` guard only matters on a horizontal edge, which the crossing test never reaches |
| YardMap.PointInPoly | script.js:1438-1448 | the ray-casting loop computes `InPoly`: an odd number of edge crossings |
| YardMap.InPoly | script.js:1438-1448 | an odd number of edge crossings; stated by `PointInPoly`, `RectContains` and `DenominatorGuardUnused` |
| YardMap.RectContains | script.js:1438-1448 | a point is inside an axis-aligned rectangle exactly when it lies in the half-open box |
| YardMap.FindAreaAtPoint | script.js:1450-1455 | the first area whose polygon contains the point, or none |
| YardMap.NearestIn | script.js:1457-1470 | the earliest area at minimal squared distance from the point |
| YardMap.FindNearestArea | script.js:1457-1470 | the loop returns the area `NearestIn` picks |
| YardMap.NearestExists | script.js:1457-1470 | a non-empty list always has a nearest area |
| YardMap.BuildingCShadowsFittingStore | script.js:1450-1455 | a tap inside C棟 is always resolved to C棟 or an area listed before it, never to 艤装品置場 |
| YardMap.BuildingCOverlapsFittingStore | script.js:1209-1210 | C棟 and 艤装品置場 overlap, at (900, 1850) for instance |
| YardMap.MapList | script.js:1383-1404 | the first 120 areas the view and the filter list, in table order: a prefix of the filtered table of length min(120, matches) |
| YardMap.MapSelector.constructor | script.js:1231-1233 | nothing selected, view `all`, the whole map |
| YardMap.MapSelector.SetMapView | script.js:1286-1292 | the view (empty becomes `all`) and its view box; the selection is kept |
| YardMap.MapSelector.SetMapSelection | script.js:1406-1424 | the area is selected; the view re-zooms to the guessed zone exactly when a zoomed view does not show the area |
| YardMap.MapSelector.ClearMapSelection | script.js:1426-1436 | the selection is cleared and the view is kept |
| YardMap.MapSelector.OpenMapModal | script.js:1355-1375 | the modal opens on the whole map with nothing selected |
| YardMap.MapSelector.HandleMapTap | script.js:1489-1496 | a tap selects the first area holding the point, else the nearest area; the view re-zooms to the guessed zone exactly when a zoomed view does not show the selected area; no point changes nothing |
| Flow.ShowStack | script.js:531-534 | pushing adds the screen on top unless it is on top already; otherwise the stack is unchanged |
| Flow.BackStack | script.js:539-546 | back pops one screen, or resets to home alone when one screen or fewer is left |
| Flow.ShowKeepsNoAdjacentDup | script.js:531-534 | the stack never holds the same screen twice in a row |
| Flow.BackKeepsNoAdjacentDup | script.js:539-546 | popping keeps that invariant |
| Flow.BackUndoesShow | script.js:514-546 | back after showing a new screen restores the stack |
| Flow.ShowTopIsIdempotent | script.js:531-534 | showing the screen on top leaves the stack unchanged |
| Flow.Nav.constructor | script.js:512-513 | home alone on the stack |
| Flow.Nav.Show | script.js:514-537 | the stack per `ShowStack` and the screen shown |
| Flow.Nav.Back | script.js:538-546 | the stack per `BackStack`; its top is shown |
| Flow.Rendered | script.js:683-690 | showing a screen changes no field but the preview, and that only on the review screen, where it becomes the guided notification |
| Flow.Cleared | script.js:554-576 | `resetFlow`: all selections null, no note, no action, an empty preview and a fresh wizard; the mode is kept |
| Flow.ResultAction | script.js:1694 | the chosen action, else the situation's default, else `observe`; never empty |
| Flow.ResultActionChoices | script.js:1694 | the result action is one of the chosen action, the situation's default or `observe` |
| Flow.EmergencyCall | script.js:1650-1660 | action `emergency` and the emergency mail; nothing else changes |
| Flow.ResultPreview | script.js:1692-1697 | the resolved action and its mail; nothing else changes |
| Flow.ResultPreviewIdempotent | script.js:1692-1697 | building the result preview twice is building it once |
| Flow.ResultMailRecipients | script.js:1692-1697 | the result mail's recipients are distinct and non-empty |
| Flow.SelectedMail | script.js:1694-1695 | the quick-flow mail for the state's selections; stated by `ResultMailRecipients` and `App.SetAction` |
| Flow.SetAnswer | script.js:2313-2329 | a triage button records its non-empty value in its own field and nowhere else |
| Flow.TriageReadyAfterAnswers | script.js:725 | answering both questions enables the next button |
| Flow.TriageReady | script.js:725 | the triage Next button is enabled when both answers are given; stated by `TriageReadyAfterAnswers` and `FreshTriageNotReady` |
| Flow.FreshTriageNotReady | script.js:725 | a fresh wizard's next button is disabled |
| Flow.Toggle | script.js:2403-2406 | an absent chip is appended; a present one loses its first occurrence, the chips before and after it keeping their order; other chips are unaffected |
| Flow.ToggleRemovesInOrder | script.js:2403-2406 | on distinct chips, unticking one leaves the others in the order they were ticked |
| Flow.ToggleKeepsDistinct | script.js:2403-2406 | toggling keeps the chips distinct, and the chip is selected exactly when it was not |
| Flow.ToggleTwiceAbsent | script.js:2403-2406 | selecting and deselecting a chip restores the list |
| Flow.ToggleTwiceSameChips | script.js:2403-2406 | toggling a chip twice restores the same chips |
| Flow.MergeWizard | script.js:2541 | each saved wizard part replaces the default's part |
| Flow.Restored | script.js:2528-2541 | emergency mode; saved ids and action when truthy, else null; the note or `''`; the saved preview and wizard when present |
| Flow.RestoredViewsOfStack | script.js:2544-2545 | the saved ids of a stack filter back to the same stack |
| Flow.RestoredViewsNamed | script.js:2544-2545 | every restored screen is one whose element id was saved |
| Flow.RestoredStack | script.js:2543-2547 | the restored stack is never empty |
| Flow.SaveRestoreRoundTrip | script.js:2528-2547 | restoring a saved session gives back the state (in emergency mode) and the stack |
| Flow.App.constructor | script.js:500-513 | the initial state and home alone on the stack |
| Flow.App.ResetFlow | script.js:554-576 | the state becomes `Cleared` |
| Flow.App.RestartAll | script.js:547-551 | home alone on the stack, the flow cleared, home shown |
| Flow.App.PickSituation | script.js:630-651 | the situation is set, later selections are cleared, then the body screen or the company screen |
| Flow.App.PickCompany | script.js:1519-1528 | the company is set, the person cleared, the person screen shown |
| Flow.App.PickBodyPart | script.js:1608-1616 | the body part is set |
| Flow.App.ShowEmergencyCallView | script.js:1650-1660 | the state becomes `EmergencyCall` and the emergency screen is pushed |
| Flow.App.BuildResultPreview | script.js:1692-1727 | the state becomes `ResultPreview` |
| Flow.App.Finish | script.js:1590-1599 | emergency mode leads to the emergency call; any other mode to the result screen with its preview |
| Flow.App.PickPerson | script.js:1580-1601 | the person is set; the body screen first when the situation needs a part not chosen yet; otherwise the final screen for the mode |
| Flow.App.BodyNext | script.js:2158-2175 | nothing without a part; the final screen for the mode, pushed, when company and person are known; otherwise the company screen |
| Flow.App.SetAction | script.js:2177-2184 | the chosen action and its mail |
| Flow.App.Render | script.js:683-690 | `onViewShown` for the screen on show: the state per `Rendered`, so only the review screen changes a field, the preview |
| Flow.App.ShowView | script.js:683-690 | the stack per `ShowStack`, the screen shown and the state per `Rendered` |
| Flow.App.Back | script.js:538-546 | the stack per `BackStack`, its top shown and the state per `Rendered` for that screen |
| Flow.App.GoWizardStep | script.js:661-666 | a known step key shows its screen and renders it per `Rendered` (the review step composes the preview); any other key does nothing |
| Flow.App.StartEmergency | script.js:2149-2156 | emergency mode, a cleared flow started at the given time, the triage screen |
| Flow.App.SetTriage | script.js:2313-2329 | the triage answer per `SetAnswer`; nothing else changes |
| Flow.App.LocationUnknown | script.js:2357-2362 | the location becomes unknown, with no QR and the name `不明` |
| Flow.App.SetManualLocation | script.js:2364-2370 | a non-blank name becomes the known location, any QR already read is kept; a blank name changes nothing |
| Flow.App.ManualLocationInput | script.js:2372-2381 | typing a non-blank name sets the name and marks the location known |
| Flow.App.PickListedLocation | script.js:2383-2394 | a registered location replaces the wizard's location; an unknown id changes nothing |
| Flow.App.ApplyMapSelectionToLocation | script.js:1498-1505 | the selected area's name becomes the location, with no QR; no selection changes nothing |
| Flow.App.ApplyLocationQr | script.js:1135-1146 | the QR is stored; the first location with that trimmed QR names the place, else the unregistered label |
| Flow.App.ToggleAccident | script.js:2397-2409 | a chip toggles per `Toggle` only while the accident screen is shown |
| Flow.App.AccidentNone | script.js:2410-2414 | the chips are cleared |
| Flow.App.SetAccidentNote | script.js:2415-2418 | the note is stored |
| Flow.App.VictimUnknown | script.js:2426-2431 | the victim becomes unknown |
| Flow.App.PickVictim | script.js:2436-2448 | a staff member becomes the known victim with their id, name and QR; an unknown id changes nothing |
| Flow.App.ApplyVictimQr | script.js:1148-1162 | the QR is stored and the victim is known; a matching staff QR gives the staff id, else the unregistered label |
| Flow.App.HandleQrValue | script.js:1123-1133 | a blank value or an unknown purpose changes nothing; otherwise the trimmed value goes to the location or victim step |
| Flow.App.WizardPreview | script.js:2451-2460 | the preview becomes the guided notification |
| Flow.App.Restore | script.js:2528-2547 | the state per `Restored` and the stack per `RestoredStack`; nothing is shown |
| Flow.App.Boot | script.js:2561-2572 | the restored state, home shown and home alone on the stack |

## Left out

- Rendering, the DOM, CSS classes, toasts and the topbar buttons are not modelled. Of the screens' renderers only the review's writes state, the preview; `Flow.Rendered` models that write.
- `localStorage` is not modelled. Saving is the function `Saved`; loading is the `Option` parameter. JSON parse failures count as nothing stored.
- A saved session key that is present with the value `null` is not distinguished from an absent key. `Option.None` stands for both.
- A saved navigation entry that is not a string is not modelled. Saved stacks are lists of strings.
- The clock (`new Date()`) and `uuid()` are parameters. `Math.random` is not modelled.
- Camera and QR decoding, `sha256Hex` and the administrator password gate, clipboard access, and the URL encoding of `mailto:` subject and body are foreign calls and are not modelled.
- The administrator screens' editing forms and master export/import are not modelled. The exception is deleting a company (`Records.DeleteCompany`), because it changes the staff records the flows read.
- The Admin screen's navigation is not modelled.
- `svgPointFromEvent`'s screen-to-map transform is not modelled. It is browser geometry, so taps arrive already in map coordinates.
- Arithmetic is over exact reals, not IEEE doubles. This matters only for points lying exactly on an area's edge.
- `localeCompare` collation is not modelled. It is the `rank` parameter.
- Lists.PersonList and Lists.VictimList: they state the order by a rank and not the Japanese collation order.
- Records.Master: the master is typed, so the model does not cover stored shapes that `{...def, ...parsed}` passes through unchanged: `globalContacts: null` or a non-object, where `buildRecipientsForAction` throws reading `master.globalContacts.safetyHQ` while `buildWizardRecipients` guards with `|| {}`; non-string names, ids, labels and templates; a non-array `emails`, preset list or collection entry fields of other types. `MasterMerge.LoadMaster` works on the JSON value model and its result is not converted into `Master`.
- Flow.RestoredViews: `document.getElementById(id)` keeps any saved id that names an element of the page (script.js:2544); the model keeps only the twelve screen ids. Saved stacks only ever hold screen ids, and Boot replaces the stack with `['view-home']` (script.js:2572).
- Flow.App.GoWizardStep: `WIZ[stepKey]` is also truthy for names inherited from `Object.prototype` such as `constructor`; the source then deactivates every screen in `nav.show` (script.js:515) before returning early (script.js:517). The model treats such a key as unknown and changes nothing. Only a `data-step` attribute can pass such a key (script.js:2306-2308).
- `MAP_VIEW_CFG.centers[zone]` is not modelled for zone names that are properties of `Object.prototype`. The zone buttons only pass the fixed zone names; every other name gets the central zone.
- Flow.App.SetTriage: only the `conscious` and `breathing` fields are modelled. A button naming another field would add that field in the source.
- Flow.Nav.Show: the early return for a screen id with no element is not modelled. Every `View` has its element.
- In the dead `if (!state.wiz.location)` branch of the manual input handler, the location is never null in the model.

## Findings

| source | as written | input that shows it | evidently intended | confidence | as-written member | corrected member |
|---|---|---|---|---|---|---|
| script.js:1623-1625 | `vars[k] != null` also finds keys inherited from `Object.prototype`, so an unknown `{constructor}` token expands to the text of the `Object` function; `BuildMail` keeps this behaviour | a subject template `{constructor}` with the usual five variables | unknown tokens expand to `''` | not executed | Compose.InterpolateAsWritten, Compose.ConstructorTokenLeaks | Compose.Interpolate, Compose.InterpolateToken |
| script.js:843-847 | `getAccidentLabel` looks keys up in `master.accidentTypes \|\| []`, while the chips are drawn from a built-in list of six types when `accidentTypes` is missing (script.js:767-774) | a master without `accidentTypes` and the chip `転落` (key `fall`) selected: the preview's accident line says `fall`; `BuildWizardPreview` keeps this behaviour | the preview names each chosen type by the label shown on its chip | not executed | Compose.AccidentLabelsWithoutDefs, Compose.ChipLabelLost | Compose.AccidentLabel, Compose.AccidentLabelMatchesChip |
