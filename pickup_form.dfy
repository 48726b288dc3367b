/** The pickup-time form: a "new entry" panel that edits the last row, the
    list of the other rows, and the region and area pickers. The form keeps no
    state of its own; it sends `onTimeChange(index, field, value)` events to
    the editor, modelled here as lists of edits applied with the editor's
    `SetTimeField`. */
module PickupForm {
  import opened Common
  import TourEditor

  /** An area of a saved region, as the region catalog lists it. */
  datatype Area = Area(id: int, name: string)

  /** A saved region; its `areas` may be absent. */
  datatype SavedRegion = SavedRegion(id: int, name: string, areas: Option<seq<Area>>)

  /** getAreasForRegion: the areas of the first saved region with that name;
      no areas when no region has it (an absent name matches none) or when
      that region has no area list. */
  function AreasForRegion(savedRegions: seq<SavedRegion>, regionName: Option<string>): (r: seq<Area>)
    ensures (forall i :: 0 <= i < |savedRegions| ==> Some(savedRegions[i].name) != regionName) ==> r == []
    ensures forall i :: 0 <= i < |savedRegions| && Some(savedRegions[i].name) == regionName
                        && (forall j :: 0 <= j < i ==> Some(savedRegions[j].name) != regionName)
                        ==> r == if savedRegions[i].areas.Some? then savedRegions[i].areas.value else []
  {
    var k := FindIndex(savedRegions, (g: SavedRegion) => Some(g.name) == regionName);
    if k.Some? && savedRegions[k.value].areas.Some? then savedRegions[k.value].areas.value else []
  }

  /** A later region with the same name is never consulted, even when the
      first one has no areas. */
  lemma FirstRegionShadows(savedRegions: seq<SavedRegion>, name: string, later: seq<Area>)
    requires |savedRegions| >= 2 && savedRegions[0].name == name && savedRegions[0].areas.None?
    requires savedRegions[1] == SavedRegion(savedRegions[1].id, name, Some(later))
    ensures AreasForRegion(savedRegions, Some(name)) == []
  {
  }

  /** The index the "new entry" panel edits: the last row, or -1 for an empty
      list. */
  function NewEntryIndex(times: seq<PickupTime>): int
  {
    |times| - 1
  }

  /** The row the "new entry" panel shows, absent for an empty list. */
  function NewEntry(times: seq<PickupTime>): (r: Option<PickupTime>)
    ensures r.Some? <==> |times| > 0
    ensures r.Some? ==> r.value == times[NewEntryIndex(times)]
  {
    if |times| > 0 then Some(times[|times| - 1]) else None
  }

  /** `pickupTimes.slice(0, -1)` with each row's index: every row but the
      last, in order. */
  function Listed(times: seq<PickupTime>): (r: seq<(nat, PickupTime)>)
    ensures |r| == if |times| == 0 then 0 else |times| - 1
    ensures forall i :: 0 <= i < |r| ==> r[i].0 == i && r[i].1 == times[i]
  {
    if |times| == 0 then []
    else seq(|times| - 1, i requires 0 <= i < |times| - 1 => (i, times[i]))
  }

  /** Every row appears exactly once on the form: either as the new entry or
      in the list, never both. */
  lemma EachRowShownOnce(times: seq<PickupTime>, k: int)
    requires 0 <= k < |times|
    ensures (k == NewEntryIndex(times)) != (exists i :: 0 <= i < |Listed(times)| && Listed(times)[i].0 == k)
  {
    var l := Listed(times);
    if k < |times| - 1 {
      assert l[k].0 == k;
    }
  }

  /** The period the selector shows for a row: its own, or "1" when absent
      or empty. */
  function ShownPeriod(row: Option<PickupTime>): (p: string)
    ensures p != ""
    ensures row.Some? && row.value.period.Some? && row.value.period.value != "" ==> p == row.value.period.value
    ensures !(row.Some? && row.value.period.Some? && row.value.period.value != "") ==> p == "1"
  {
    if row.Some? then OrText(row.value.period, "1") else "1"
  }

  /** The values the period selector offers: exactly "1" to "10", in order. */
  function PeriodChoices(): (vs: seq<string>)
    ensures vs == PeriodValues
  {
    seq(|TimePeriods|, i requires 0 <= i < |TimePeriods| => TimePeriods[i].value)
  }

  /** A row whose period was never set shows "1", a value the selector offers. */
  lemma DefaultPeriodOffered(row: Option<PickupTime>)
    requires row.None? || row.value.period.None?
    ensures ShownPeriod(row) == "1" && ShownPeriod(row) in PeriodChoices()
  {
  }

  /** The active switch of a listed row: on for a row that never set
      `isActive`, otherwise the row's flag. */
  function ActiveChecked(time: PickupTime): (checked: bool)
    ensures time.isActive.None? ==> checked
    ensures time.isActive.Some? ==> checked == time.isActive.value
  {
    time.isActive != Some(false)
  }

  /** The area picker is disabled exactly while the row has no region (or,
      for the new entry, there is no row). */
  function AreaDisabled(row: Option<PickupTime>): (disabled: bool)
    ensures row.None? ==> disabled
    ensures row.Some? ==> (disabled <==> row.value.region == "")
  {
    row.None? || row.value.region == ""
  }

  /** The events one change of the region picker of row `index` sends: both
      address that row, the new region first and an empty area last. */
  function RegionChange(index: int, region: string): (events: seq<(int, TourEditor.TimeEdit)>)
    ensures |events| == 2
    ensures forall i :: 0 <= i < |events| ==> events[i].0 == index
    ensures events[0].1 == TourEditor.SetRegion(region) && events[|events| - 1].1 == TourEditor.SetArea("")
  {
    [(index, TourEditor.SetRegion(region)), (index, TourEditor.SetArea(""))]
  }

  /** The editor's rows after it handles `events` in order. */
  function ApplyEvents(times: seq<PickupTime>, events: seq<(int, TourEditor.TimeEdit)>): (r: seq<PickupTime>)
    requires forall i :: 0 <= i < |events| ==> events[i].0 < |times|
    ensures |r| == |times|
    decreases |events|
  {
    if events == [] then times
    else ApplyEvents(TourEditor.SetTimeField(times, events[0].0, events[0].1), events[1..])
  }

  /** Choosing a region for row `index` sets that row's region, clears its
      area and leaves every other field and every other row alone; a chosen
      region enables the area picker. */
  lemma RegionChangeClearsArea(times: seq<PickupTime>, index: int, region: string)
    requires 0 <= index < |times|
    ensures var r := ApplyEvents(times, RegionChange(index, region));
            && r[index] == times[index].(region := region, area := "")
            && (forall i :: 0 <= i < |times| && i != index ==> r[i] == times[i])
            && (region != "" ==> !AreaDisabled(Some(r[index])))
  {
    var events := RegionChange(index, region);
    var r1 := TourEditor.SetTimeField(times, index, TourEditor.SetRegion(region));
    var r2 := TourEditor.SetTimeField(r1, index, TourEditor.SetArea(""));
    assert events[1..] == [(index, TourEditor.SetArea(""))];
    assert ApplyEvents(times, events) == ApplyEvents(r1, events[1..]) == r2;
    assert r1[index] == times[index].(region := region);
    assert r2[index] == r1[index].(area := "");
  }

  /** On an empty list the new-entry panel's edits (at index -1) change
      nothing. */
  lemma NewEntryOnEmptyListIsInert(region: string)
    ensures ApplyEvents([], RegionChange(NewEntryIndex([]), region)) == []
  {
  }

  /** The switch of a listed row: a row the editor set to `false` is
      unchecked, one set to `true` is checked, and every other row keeps the
      switch it had; a fresh row is checked. */
  lemma {:induction false} ActiveSwitch(times: seq<PickupTime>, index: int, on: bool)
    requires 0 <= index < |times|
    ensures var r := ApplyEvents(times, [(index, TourEditor.SetActive(on))]);
            && ActiveChecked(r[index]) == on
            && (forall i :: 0 <= i < |times| && i != index ==> ActiveChecked(r[i]) == ActiveChecked(times[i]))
    ensures ActiveChecked(BlankPickupTime)
  {
    var events := [(index, TourEditor.SetActive(on))];
    var r1 := TourEditor.SetTimeField(times, index, TourEditor.SetActive(on));
    assert events[1..] == [];
    assert ApplyEvents(times, events) == ApplyEvents(r1, events[1..]) == r1;
    assert r1[index] == times[index].(isActive := Some(on));
  }

  /** Clicking a listed row's switch (it sends the opposite of what it
      shows) flips it. */
  lemma {:induction false} ActiveSwitchToggles(times: seq<PickupTime>, index: int)
    requires 0 <= index < |times|
    ensures var r := ApplyEvents(times, [(index, TourEditor.SetActive(!ActiveChecked(times[index])))]);
            ActiveChecked(r[index]) == !ActiveChecked(times[index])
  {
    ActiveSwitch(times, index, !ActiveChecked(times[index]));
  }
}
