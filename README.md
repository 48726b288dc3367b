# Tour catalog editor and its save routes, modelled in Dafny

This project models the tour-definition part of an agency's tour program.
The front end is a React page. An agency user builds tours on it: a tour has
a name, an operator, prices, weekdays, pickup times with a region, an area
and a period, and priced options. The page keeps the created tours in a list
and shows them filtered and sorted in a table. Each table row can be
expanded to show the tour's days, pickup times and options. The back end
has two Express routes over MySQL:

- the tour-list route saves and reads a company's catalog of tour names,
  zoning areas ("Bölgelendirme") and regions with their areas;
- the bulk save route replaces all of a company's tours.

The model has five modules, one per source file, plus shared values:

- `Common` (common.dfy): the shared data types, JavaScript's `find`,
  `filter`, `x || d` and `list || []`, and the TIME_PERIODS table.
- `TourEditor` (tour_editor.dfy): the page component. It is a class,
  `Editor`, whose fields are the page's state. Each event handler is a
  method with the state update as its contract. The pure parts of the
  handlers are functions, and lemmas are proved about them: day toggling,
  operator resolution, row edits, delete by object identity, the status
  flip, and the filtered and sorted view.
- `PickupForm` (pickup_form.dfy): the pickup-time form. The form has no
  state of its own, so its event pairs are replayed through the editor's
  row update.
- `ExpandedRow` (expanded_row.dfy): the expanded table row. It is a pure
  rendering with a default for every missing field.
- `TourList` (tour_list.dfy): the tour-list routes. The three tables are the
  fields of a class, `CatalogDb`, and each SQL statement changes them in
  place. The read route's `reduce` is a loop proved against a fold. The
  lemmas prove:
  - what the save route leaves in the tables;
  - that the other companies' rows are untouched;
  - that the read route gives back exactly what was saved.
- `AllTourSave` (all_tour_save.dfy): the bulk save route. It is a class,
  `ToursDb`, over the `tours` table, with transaction semantics.

Object identity matters on the page: `handleEdit`, `handleDelete` and
`handleStatusChange` compare tours with `===`. So each element of the
created-tours list carries a `ref` number. The editor issues a fresh one
for every object it creates.

A query that throws is a parameter of the route methods. It is the number of
the failing query, so every failure point of the `try` block is covered.
`localeCompare`, `toLowerCase` and `window.confirm` are parameters too.

## Model

| member | source | states |
|---|---|---|
| Common.ListOrEmpty | backend/routes/alltoursave.js:52-55 | `list \|\| []`: the list when present, the empty list otherwise |
| Common.FindIndex | frontend/src/components/companyCreate/agency/Tours/Tours.js:192 | the index found satisfies the test, and no earlier element does; None means that no element does |
| Common.Filter | backend/routes/tourlist.js:20 | the kept elements are exactly the elements of the input that pass the test, and there are no more of them than in the input |
| TourEditor.RemoveAll | frontend/src/components/companyCreate/agency/Tours/Tours.js:142 | `filter(d => d !== day)` keeps every other day with its count and drops every occurrence of `day` |
| TourEditor.RemoveAllAppended | frontend/src/components/companyCreate/agency/Tours/Tours.js:141-143 | removing a day ignores a copy of it appended at the end |
| TourEditor.ToggleDay | frontend/src/components/companyCreate/agency/Tours/Tours.js:139-146 | the day is selected afterwards iff it was not before; a selected day is removed everywhere, an unselected one is appended at the end; other days keep their counts |
| TourEditor.ToggleDayTwice | frontend/src/components/companyCreate/agency/Tours/Tours.js:139-146 | toggling an unselected day twice gives back the selection |
| TourEditor.ToggleDayNoRepeats | frontend/src/components/companyCreate/agency/Tours/Tours.js:139-146 | toggling never lists a day twice in a selection that had no repeats |
| TourEditor.DayIds | frontend/src/components/companyCreate/agency/Tours/Tours.js:151 | `DAYS.map(day => day.id)`, position by position |
| TourEditor.SelectAll | frontend/src/components/companyCreate/agency/Tours/Tours.js:148-153 | a selection as long as DAYS is cleared; any other becomes every DAYS id in order |
| TourEditor.SelectAllTwice | frontend/src/components/companyCreate/agency/Tours/Tours.js:148-153 | pressing select-all twice from a partial selection clears it |
| TourEditor.ResolveOperator | frontend/src/components/companyCreate/agency/Tours/Tours.js:168-174 | only `operator` and `operatorId` change; with a company whose id is the draft's operator, they become that company's name and id; without one, both are the draft's operator |
| TourEditor.EditDraft | frontend/src/components/companyCreate/agency/Tours/Tours.js:194-201 | only `operator` changes; it becomes the stored `operatorId` when one is set; otherwise, when the first company with the tour's operator as its name has an id, it becomes that id; with no such company or id it stays the operator text |
| TourEditor.EditThenSubmitRestores | frontend/src/components/companyCreate/agency/Tours/Tours.js:168-201 | editing a submitted tour and submitting it unchanged stores the same tour |
| TourEditor.ApplyTimeEdit | frontend/src/components/companyCreate/agency/Tours/Tours.js:221 | `{ ...t, [field]: value }`: the edited field holds the value and every other field is unchanged |
| TourEditor.TimeEditsCommute | frontend/src/components/companyCreate/agency/Tours/Tours.js:221 | edits of two different fields give the same row in either order |
| TourEditor.SetTimeField | frontend/src/components/companyCreate/agency/Tours/Tours.js:218-224 | only row `index` changes, and only in the edited field; a negative index changes nothing |
| TourEditor.RemoveAt | frontend/src/components/companyCreate/agency/Tours/Tours.js:241 | `filter((_, i) => i !== index)` drops exactly the element at an index in range, keeps the rest in order, and changes nothing for any other index |
| TourEditor.AddThenRemoveLast | frontend/src/components/companyCreate/agency/Tours/Tours.js:226-243 | adding a pickup row and then removing the last row gives back the rows |
| TourEditor.ApplyOptionEdit | frontend/src/components/companyCreate/agency/Tours/Tours.js:134 | the edited field of the option takes the value and the other field keeps its own |
| TourEditor.Without | frontend/src/components/companyCreate/agency/Tours/Tours.js:211 | the elements left are exactly the elements other than the deleted object; distinct identities stay distinct |
| TourEditor.WithoutRemovesOne | frontend/src/components/companyCreate/agency/Tours/Tours.js:211 | deleting an object of the list removes exactly its one position and keeps the rest in order |
| TourEditor.WithoutAbsent | frontend/src/components/companyCreate/agency/Tours/Tours.js:211 | deleting an object that is not in the list changes nothing |
| TourEditor.FlipStatus | frontend/src/components/companyCreate/agency/Tours/Tours.js:296-300 | the object's entry is replaced by a new object with `isActive` negated; every other entry stays the same object |
| TourEditor.FlipStatusTwice | frontend/src/components/companyCreate/agency/Tours/Tours.js:296-300 | changing a status twice, the second time on the new object, gives back the original tours |
| TourEditor.Select | frontend/src/components/companyCreate/agency/Tours/Tours.js:273-287 | every selected tour passes both filters, and each passing tour is kept as often as it occurs |
| TourEditor.MatchesSearch | frontend/src/components/companyCreate/agency/Tours/Tours.js:275-282 | an empty query keeps every tour; any other query keeps a tour iff its folded text occurs in the folded name or operator |
| TourEditor.SearchFindsOwnName | frontend/src/components/companyCreate/agency/Tours/Tours.js:275-282 | searching for a tour's own name or its own operator always finds it |
| TourEditor.MatchesStatus | frontend/src/components/companyCreate/agency/Tours/Tours.js:284-287 | "all" keeps every tour, "active" exactly the active ones, any other value exactly the inactive ones |
| TourEditor.StatusFiltersPartition | frontend/src/components/companyCreate/agency/Tours/Tours.js:284-287 | "all" keeps every tour, and each tour passes exactly one of the "active" and "inactive" options |
| TourEditor.SelectedMembers | frontend/src/components/companyCreate/agency/Tours/Tours.js:275-287 | a tour is selected iff it is in the list and passes the search and status filters |
| TourEditor.InsertByName | frontend/src/components/companyCreate/agency/Tours/Tours.js:289-293 | the result holds the list plus the new entry, as a multiset, and starts with one of them |
| TourEditor.InsertKeepsSorted | frontend/src/components/companyCreate/agency/Tours/Tours.js:289-293 | insertion under a total comparison keeps the list sorted by folded name |
| TourEditor.SortByName | frontend/src/components/companyCreate/agency/Tours/Tours.js:289-293 | the sort is a permutation, sorted by folded name |
| TourEditor.FilteredAndSorted | frontend/src/components/companyCreate/agency/Tours/Tours.js:272-294 | the view holds each created tour that passes both filters exactly as often as the list does, and no other tour; it is a reordering of Select's result, sorted by folded name |
| TourEditor.ViewOfEverything | frontend/src/components/companyCreate/agency/Tours/Tours.js:272-294 | with no search text and the "all" filter, the view is a reordering of all created tours |
| TourEditor.MaxId | frontend/src/components/companyCreate/agency/Tours/Tours.js:78 | `Math.max(...ids, 0)` is at least 0, at least every id, and is 0 or one of the ids |
| TourEditor.NextCounter | frontend/src/components/companyCreate/agency/Tours/Tours.js:78-79 | the counter is above every loaded id, and it is 1 or one more than a loaded id |
| TourEditor.Editor.constructor | frontend/src/components/companyCreate/agency/Tours/Tours.js:29-47 | the page mounts with the initial draft, the stored tours, nothing being edited, the form open and no companies |
| TourEditor.Editor.LoadCompanies | frontend/src/components/companyCreate/agency/Tours/Tours.js:62-70 | the loaded operator list replaces the saved companies |
| TourEditor.Editor.Change | frontend/src/components/companyCreate/agency/Tours/Tours.js:123-129 | exactly the named text field of the draft takes the value |
| TourEditor.Editor.DaySelect | frontend/src/components/companyCreate/agency/Tours/Tours.js:139-146 | only the draft's selected days change, to their toggle |
| TourEditor.Editor.SelectAllDays | frontend/src/components/companyCreate/agency/Tours/Tours.js:148-153 | only the draft's selected days change, to the select-all result |
| TourEditor.Editor.ResetForm | frontend/src/components/companyCreate/agency/Tours/Tours.js:155-159 | initial draft, nothing being edited, form collapsed; the invariant holds |
| TourEditor.Editor.Submit | frontend/src/components/companyCreate/agency/Tours/Tours.js:161-189 | a draft without name or operator is refused and nothing changes; otherwise the resolved tour, as a new object, replaces the edited entry or is appended, and the form resets |
| TourEditor.Editor.Edit | frontend/src/components/companyCreate/agency/Tours/Tours.js:191-207 | the object's index becomes the edited one and the draft its edit draft, with the form open; an object not in the list changes nothing |
| TourEditor.Editor.Delete | frontend/src/components/companyCreate/agency/Tours/Tours.js:209-216 | nothing changes unless confirmed; once confirmed the object leaves the list, and the form resets when a tour was being edited |
| TourEditor.Editor.TimeChange | frontend/src/components/companyCreate/agency/Tours/Tours.js:218-224 | only the draft's pickup rows change, by the row edit |
| TourEditor.Editor.AddPickupTime | frontend/src/components/companyCreate/agency/Tours/Tours.js:226-236 | one blank pickup row is appended |
| TourEditor.Editor.RemovePickupTime | frontend/src/components/companyCreate/agency/Tours/Tours.js:238-243 | the pickup row at the index is removed |
| TourEditor.Editor.OptionChange | frontend/src/components/companyCreate/agency/Tours/Tours.js:131-137 | option row `index` gets the edit; a negative index changes nothing |
| TourEditor.Editor.AddOption | frontend/src/components/companyCreate/agency/Tours/Tours.js:323-326 | one empty option is appended |
| TourEditor.Editor.RemoveOption | frontend/src/components/companyCreate/agency/Tours/Tours.js:327-330 | the option at the index is removed |
| TourEditor.Editor.Copy | frontend/src/components/companyCreate/agency/Tours/Tours.js:245-248 | a new object with the same fields is appended; the tours are the old ones plus the copy |
| TourEditor.Editor.StatusChange | frontend/src/components/companyCreate/agency/Tours/Tours.js:296-300 | the list becomes its status flip, with a fresh identity for the new object |
| PickupForm.AreasForRegion | frontend/src/components/companyCreate/agency/Tours/components/form_inputs/PickupTimeForm.js:47-50 | the areas of the first saved region with that name; none when no region has it or that region has no area list |
| PickupForm.FirstRegionShadows | frontend/src/components/companyCreate/agency/Tours/components/form_inputs/PickupTimeForm.js:47-50 | a later region with the same name is never consulted, even when the first has no areas |
| PickupForm.NewEntry | frontend/src/components/companyCreate/agency/Tours/components/form_inputs/PickupTimeForm.js:68 | the new-entry panel shows the last row, and nothing for an empty list |
| PickupForm.Listed | frontend/src/components/companyCreate/agency/Tours/components/form_inputs/PickupTimeForm.js:148 | every row but the last, in order, with its own index |
| PickupForm.EachRowShownOnce | frontend/src/components/companyCreate/agency/Tours/components/form_inputs/PickupTimeForm.js:148 | every row is shown exactly once: as the new entry or in the list |
| PickupForm.ShownPeriod | frontend/src/components/companyCreate/agency/Tours/components/form_inputs/PickupTimeForm.js:83 | the row's own period, or "1" when it is missing or empty |
| PickupForm.PeriodChoices | frontend/src/components/companyCreate/agency/Tours/components/form_inputs/PickupTimeForm.js:86-90 | the period selector offers exactly "1" to "10", in order |
| PickupForm.DefaultPeriodOffered | frontend/src/components/companyCreate/agency/Tours/components/form_inputs/PickupTimeForm.js:83-90 | a row without a period shows "1", a value the selector offers |
| PickupForm.RegionChangeClearsArea | frontend/src/components/companyCreate/agency/Tours/components/form_inputs/PickupTimeForm.js:188-191 | choosing a region sets that row's region and clears its area; other fields and rows are unchanged; a chosen region enables the area picker |
| PickupForm.ActiveChecked | frontend/src/components/companyCreate/agency/Tours/components/form_inputs/PickupTimeForm.js:233 | the switch of a listed row is on for a row that never set `isActive`, otherwise it shows the row's flag |
| PickupForm.AreaDisabled | frontend/src/components/companyCreate/agency/Tours/components/form_inputs/PickupTimeForm.js:124 | the area picker is disabled iff there is no row or the row has no region |
| PickupForm.RegionChange | frontend/src/components/companyCreate/agency/Tours/components/form_inputs/PickupTimeForm.js:101-105 | a region change sends two events for the same row: the new region, then an empty area |
| PickupForm.ActiveSwitch | frontend/src/components/companyCreate/agency/Tours/components/form_inputs/PickupTimeForm.js:229-235 | setting the switch of a row to on or off checks or unchecks that row and leaves every other row's switch as it was; a fresh row is checked |
| PickupForm.ActiveSwitchToggles | frontend/src/components/companyCreate/agency/Tours/components/form_inputs/PickupTimeForm.js:233-234 | clicking a row's switch flips it |
| PickupForm.NewEntryOnEmptyListIsInert | frontend/src/components/companyCreate/agency/Tours/components/form_inputs/PickupTimeForm.js:101-105 | on an empty list, the new-entry panel's events at index -1 change nothing |
| ExpandedRow.DayLabel | frontend/src/components/companyCreate/agency/Tours/components/table/TourTableExpandedRow.js:29-32 | a label iff DAYS lists the id, and then the first such entry's label; otherwise the raw id |
| ExpandedRow.PeriodLabel | frontend/src/components/companyCreate/agency/Tours/components/table/TourTableExpandedRow.js:34-37 | "v. PERIYOT" for v from "1" to "10"; any other value, a missing one included, unchanged |
| ExpandedRow.PeriodLookup | frontend/src/components/companyCreate/agency/Tours/components/table/TourTableExpandedRow.js:4-15 | TIME_PERIODS has an entry for exactly the periods "1" to "10", each with caption "v. PERIYOT" |
| ExpandedRow.PasifLabel | frontend/src/components/companyCreate/agency/Tours/components/table/TourTableExpandedRow.js:84 | a period label reads "PASIF" iff the period itself is "PASIF" |
| ExpandedRow.TimeText | frontend/src/components/companyCreate/agency/Tours/components/table/TourTableExpandedRow.js:79 | the hour, or "00" when missing or empty, a colon, then the minute likewise |
| ExpandedRow.TimeTextOfSetRow | frontend/src/components/companyCreate/agency/Tours/components/table/TourTableExpandedRow.js:79 | a row with both set shows "hour:minute" |
| ExpandedRow.PeriodBadgeAsWritten | frontend/src/components/companyCreate/agency/Tours/components/table/TourTableExpandedRow.js:83-84 | the badge as written throws iff the pickup element is null; otherwise it is green iff the row is not marked inactive, and an inactive row reads "PASIF" |
| ExpandedRow.NullPickupRowThrows | frontend/src/components/companyCreate/agency/Tours/components/table/TourTableExpandedRow.js:84 | as written, a null pickup-time element makes the row throw |
| ExpandedRow.PeriodBadgeOf | frontend/src/components/companyCreate/agency/Tours/components/table/TourTableExpandedRow.js:83-84 | the badge is green iff the row is not marked inactive; it reads "PASIF" iff the row is inactive or its period is "PASIF"; otherwise it shows the period label |
| ExpandedRow.PeriodBadgeAgrees | frontend/src/components/companyCreate/agency/Tours/components/table/TourTableExpandedRow.js:83-84 | on every non-null row the corrected badge is the one the code shows |
| ExpandedRow.TimeLineOf | frontend/src/components/companyCreate/agency/Tours/components/table/TourTableExpandedRow.js:79-86 | region and area are the row's own when set, and "-" when the row is null or the field is missing or empty; time and corrected badge as above, so a null row shows a line where the code throws |
| ExpandedRow.OptionLineOf | frontend/src/components/companyCreate/agency/Tours/components/table/TourTableExpandedRow.js:114-115 | the name is `name`, else `option_name`, and "-" when both are missing or empty; the price is the price, and "0" when missing or empty; a null option shows "-" and "0" |
| ExpandedRow.Render | frontend/src/components/companyCreate/agency/Tours/components/table/TourTableExpandedRow.js:19-27 | nothing iff the tour is missing or not an object; one badge, line or option line per element, each list empty when missing or not an array; the pickup lines use the corrected badge, so a null pickup element gives a line where the code throws |
| TourList.WfCleared | backend/routes/tourlist.js:20-44 | the deletes keep the database invariant: ids positive, below the next id and distinct |
| TourList.WfCommitted | backend/routes/tourlist.js:20-101 | a committed save keeps the database invariant |
| TourList.ClearedLeavesNothing | backend/routes/tourlist.js:20-44 | after the five deletes the company has no tour and no region |
| TourList.ClearedKeepsOthers | backend/routes/tourlist.js:20-44 | the deletes leave every other company's tours, regions and areas, in order |
| TourList.ClearedOrphans | backend/routes/tourlist.js:23-44 | an area of the company that survives the deletes points at no surviving region |
| TourList.CompanyToursAdded | backend/routes/tourlist.js:47-53 | the tours insert appends one row per tour, with its name, to the company's tours |
| TourList.SaveReplacesTours | backend/routes/tourlist.js:20-53 | after a committed save the company's tour names are exactly the submitted ones, in order |
| TourList.CatalogOfAddedRegion | backend/routes/tourlist.js:83-100 | inserting a region and its areas appends one catalog entry: the name and its area names |
| TourList.CatalogOfAddedRegions | backend/routes/tourlist.js:77-102 | the loop appends one entry per region not named "Bölgelendirme", in order |
| TourList.ExpectedRegions | backend/routes/tourlist.js:78-80 | the regions the loop creates: at most one per input, none named "Bölgelendirme" |
| TourList.SaveRebuildsCatalog | backend/routes/tourlist.js:19-102 | after a committed save the company's catalog is the zoning region (when `bolgeler` is non-empty) and then the submitted regions, each with its areas |
| TourList.InsertsAppend | backend/routes/tourlist.js:46-102 | the inserts only append rows, all of them the company's |
| TourList.SaveKeepsOtherCompanies | backend/routes/tourlist.js:19-102 | a committed save leaves every other company's tours, regions and areas as they were, in order |
| TourList.InsertsGrow | backend/routes/tourlist.js:46-102 | every inserted region and every inserted area's region has an id not issued before |
| TourList.CommittedLayout | backend/routes/tourlist.js:19-102 | each row after a save survived the deletes and points below the old next id, or is a new row of the company pointing at or above it |
| TourList.CommittedZoningRegion | backend/routes/tourlist.js:56-74 | the company has a region named "Bölgelendirme" iff `bolgeler` was non-empty; it is the company's first region and holds one area per entry |
| TourList.SurvivorJoinsNothing | backend/routes/tourlist.js:34-44 | after a save, a surviving old area of the company joins no region |
| TourList.ZoningAreasOfCommitted | backend/routes/tourlist.js:138-143 | after a save the zoning query selects nothing for empty `bolgeler`, and otherwise exactly the areas of the new zoning region |
| TourList.GroupRegions | backend/routes/tourlist.js:155-173 | the in-place loop computes the reduce |
| TourList.GroupOnePerRegion | backend/routes/tourlist.js:155-173 | the groups are one per region id, in order of first appearance |
| TourList.GroupAreasDistinct | backend/routes/tourlist.js:166 | no group holds two areas with the same id |
| TourList.GroupInventsNoArea | backend/routes/tourlist.js:155-173 | every area of a group comes from a row of that region |
| TourList.GroupLosesNoArea | backend/routes/tourlist.js:155-173 | every row with an area has that area in its region's group |
| TourList.GroupedJoinRows | backend/routes/tourlist.js:146-173 | on a well-formed database the reduce over the LEFT JOIN gives each listed region with all its areas |
| TourList.Load | backend/routes/tourlist.js:118-186 | 400 iff the company id is empty; the read itself never fails |
| TourList.SaveThenLoadTours | backend/routes/tourlist.js:47-180 | after a save, reading gives back the submitted tour names, in order |
| TourList.SaveThenLoadZoning | backend/routes/tourlist.js:56-184 | after a save, reading gives back the submitted `bolgeler` names, in order |
| TourList.SaveThenLoadRegions | backend/routes/tourlist.js:77-185 | after a save, reading gives back the submitted regions (except "Bölgelendirme") with their area names, in order |
| TourList.CatalogDb.Rollback | backend/routes/tourlist.js:111 | the rows return to the snapshot and the invariant holds |
| TourList.CatalogDb.DeleteCompany | backend/routes/tourlist.js:20-44 | the deletes fail iff one of queries q to q+4 throws; otherwise the tables are cleared of the company |
| TourList.CatalogDb.InsertTours | backend/routes/tourlist.js:47-53 | the insert is issued only for a non-empty list, fails iff it throws, and otherwise appends the tour rows |
| TourList.CatalogDb.InsertRegion | backend/routes/tourlist.js:83-100 | a region insert and, when there are areas, the area insert under the new id; fails iff one of them throws |
| TourList.CatalogDb.InsertRegions | backend/routes/tourlist.js:77-102 | the loop fails iff one of its queries throws, and otherwise adds every region not named "Bölgelendirme" |
| TourList.CatalogDb.InsertAll | backend/routes/tourlist.js:46-102 | the inserts fail iff one of their queries throws, and otherwise are the tours, zoning and region inserts in order |
| TourList.CatalogDb.Transaction | backend/routes/tourlist.js:19-102 | the statements between BEGIN and COMMIT fail iff one throws, and otherwise leave the committed tables |
| TourList.CatalogDb.RunQueries | backend/routes/tourlist.js:16-104 | the body of the `try` fails iff one of its queries throws |
| TourList.CatalogDb.Save | backend/routes/tourlist.js:9-115 | 400 iff no company id, with nothing changed; 200 iff no query throws, with the committed tables; otherwise every row is rolled back; the invariant holds |
| TourList.CatalogDb.Get | backend/routes/tourlist.js:118-195 | 400 without a company id, 500 when one of the three queries throws, and otherwise the listing of the current tables |
| AllTourSave.TextOrNull | backend/routes/alltoursave.js:50-51 | NULL iff the text is missing or empty; otherwise the text |
| AllTourSave.BuildRow | backend/routes/alltoursave.js:45-57 | each column of the inserted row, from the tour and the company id |
| AllTourSave.BuildRows | backend/routes/alltoursave.js:45-57 | one row per tour, in order |
| AllTourSave.BuiltRowsOfCompany | backend/routes/alltoursave.js:46 | every built row belongs to the company |
| AllTourSave.SaveReplacesCompanyRows | backend/routes/alltoursave.js:20-60 | after a save, the company's rows are exactly the rows built from the submitted tours, in order |
| AllTourSave.SaveKeepsOtherCompanies | backend/routes/alltoursave.js:20-60 | every other company's rows are unchanged, in order |
| AllTourSave.SaveTwiceIsSaveOnce | backend/routes/alltoursave.js:20-60 | saving the same tours twice leaves the table as saving them once |
| AllTourSave.ToursDb.SaveAll | backend/routes/alltoursave.js:5-85 | 400 iff no company id or no tours array; 200 iff no issued query throws (no insert is issued for an empty list), with the replaced rows and the tour count; otherwise the table is unchanged |

## Left out

- Fetching from the API and `localStorage` are left out. The page's load effect is reduced to `LoadCompanies` and `NextCounter`. The constructor takes the stored tours as a parameter.
- The operator list's `id: Date.now() + Math.random()` is left out. Nothing in the modelled handlers reads it.
- `window.confirm` is an input, the `confirmed` parameter of `Delete`. The `alert` on a refused submit is only the `false` result of `Submit`.
- `toLowerCase` and `localeCompare` are the parameters `fold` and `atMost`. The view is proved for any total comparison. The stability of `Array.prototype.sort` is modelled by a stable insertion sort.
- JSX layout, CSS classes, the collapse button, the search and filter inputs and the redux toggle of the pickup list are not modelled. They hold no logic beyond the values listed above.
- The unused `PERIODS` and `STATUS_FILTERS` tables are not modelled. Nor is the INITIAL_TOUR_STATE of hooks/constants.js, which the page does not import: it declares its own.
- TourEditor.Editor.TimeChange: an index at or past the end of the rows is excluded by its requires. In JavaScript it would grow the array with a partial row.
- TourEditor.Editor.OptionChange: an index at or past the end is excluded in the same way.
- TourEditor.Editor.Change: only the four text inputs are modelled. A `name` outside them would add an arbitrary field to the draft.
- The `editingIndex: null` field of INITIAL_TOUR_STATE is not modelled. The draft type has no such field, and the page keeps the index separately.
- A tour whose `isActive` is not a boolean is not modelled. The status filter and the status flip take it as a boolean.
- TourList: SQL row order is modelled as table order, and the LEFT JOIN as region-major (each region's rows together, in table order). MySQL does not promise either order without ORDER BY.
- TourList: string comparison in SQL is exact. Collation, such as case-insensitive matching of "Bölgelendirme", and NULL names are not modelled.
- TourList.CatalogDb.Rollback: AUTO_INCREMENT counters are not rolled back, as in MySQL. Ids issued by a failed save stay used.
- TourList and AllTourSave.ToursDb.SaveAll: concurrency between requests, and a rollback that itself fails, are not modelled. In both routes a failing rollback would reach the outer catch and answer 500 with the rollback's error.
- TourList.CatalogDb.Get, TourList.CatalogDb.Save and AllTourSave.ToursDb.SaveAll: the console logging and the error details in the 500 body are not modelled.
- TourList: a region input with a missing `name`, or an item without `name` (stored as NULL), is not modelled. Names are always strings.
- AllTourSave: the four JSON columns hold the lists themselves. `JSON.stringify` is taken as one text per list.
- AllTourSave: a `tourName`, `operator` or `operatorId` that `mysql` would write as NULL or as text is carried as an optional string.
- AllTourSave.BuildRow: `tour.isActive ? 1 : 0` is modelled on a boolean or a missing field. Other truthy values are not modelled.
- TourList.CatalogDb.Save and AllTourSave.ToursDb.SaveAll: a null element of the request lists is not modelled, and neither is a `tours`, `bolgeler` or `regions` value that is truthy but not an array. In the source, reading `.name` or `.tourName` of such an element throws after the deletes, so the save is rolled back and answers 500. The model's inputs cannot be null, so it answers with a successful save where the source would answer 500.
- ExpandedRow.Render and ExpandedRow.TimeLineOf render the corrected badge, ExpandedRow.PeriodBadgeOf. For a null pickup element they give a line where the source throws; the as-written badge is ExpandedRow.PeriodBadgeAsWritten (see Findings).
- Common.TimePeriods is built from its ten values by a comprehension rather than listed entry by entry.

## Findings

| source | as written | input that shows it | evidently intended | confidence | as-written member | corrected member |
|---|---|---|---|---|---|---|
| frontend/src/components/companyCreate/agency/Tours/components/table/TourTableExpandedRow.js:84 | the active test uses `time?.isActive`, but the period is then read as `time.period` without optional chaining | a tour whose `relatedData.pickupTimes` is `[null]`: `time?.isActive !== false` holds, and `time.period` throws a TypeError while rendering | treat a null row like every other cell of it: an active badge with no period text | medium, not executed | ExpandedRow.PeriodBadgeAsWritten, ExpandedRow.NullPickupRowThrows | ExpandedRow.PeriodBadgeOf, ExpandedRow.PeriodBadgeAgrees |
