/** The tour-list editor: a form draft, the list of created tours, the index of
    the tour being edited and whether the form is collapsed, changed by one
    handler per user action; and the filtered, sorted view of the list that
    the table shows. */
module TourEditor {
  import opened Common

  /** INITIAL_TOUR_STATE: an empty draft with one blank pickup row, active. */
  const InitialTour := Tour("", "", None, [], [], [BlankPickupTime], "", "", [], true)

  /** An element of the created-tours list. The handlers find tours by object
      identity, not by value, so every object the editor creates gets a `ref`
      of its own: two entries holding equal tours are still two objects. */
  datatype Entry = Entry(ref: nat, tour: Tour)

  /** The tours of a list of entries, without their identities. */
  function Tours(es: seq<Entry>): (ts: seq<Tour>)
    ensures |ts| == |es| && forall i :: 0 <= i < |es| ==> ts[i] == es[i].tour
  {
    seq(|es|, i requires 0 <= i < |es| => es[i].tour)
  }

  /** No two entries are the same object. */
  ghost predicate RefsDistinct(es: seq<Entry>)
  {
    forall i, j :: 0 <= i < j < |es| ==> es[i].ref != es[j].ref
  }

  // ---------------------------------------------------------------------
  // Day selection

  /** `days.filter(d => d !== day)`. */
  function RemoveAll(days: seq<DayId>, day: DayId): (r: seq<DayId>)
    ensures forall x :: x in r <==> x in days && x != day
    ensures forall x :: x != day ==> multiset(r)[x] == multiset(days)[x]
    ensures day !in days ==> r == days
    ensures day in days ==> |r| < |days|
  {
    if days == [] then []
    else
      assert days == [days[0]] + days[1..];
      if days[0] == day then RemoveAll(days[1..], day)
      else [days[0]] + RemoveAll(days[1..], day)
  }

  /** Removing every occurrence of `day` ignores a `day` appended at the end. */
  lemma {:induction false} RemoveAllAppended(days: seq<DayId>, day: DayId)
    ensures RemoveAll(days + [day], day) == RemoveAll(days, day)
  {
    if days != [] {
      assert (days + [day])[1..] == days[1..] + [day];
      RemoveAllAppended(days[1..], day);
    }
  }

  /** handleDaySelect's update of the selected days: a selected day is removed
      everywhere it occurs, an unselected one is appended at the end. */
  function ToggleDay(days: seq<DayId>, day: DayId): (r: seq<DayId>)
    ensures day in r <==> day !in days
    ensures forall x :: x != day ==> multiset(r)[x] == multiset(days)[x]
    ensures day in days ==> |r| < |days| && r == RemoveAll(days, day)
    ensures day !in days ==> |r| == |days| + 1 && r[..|days|] == days && r[|days|] == day
  {
    if day in days then
      assert multiset(days)[day] > 0;
      RemoveAll(days, day)
    else days + [day]
  }

  /** Toggling an unselected day twice gives back the original selection. */
  lemma ToggleDayTwice(days: seq<DayId>, day: DayId)
    requires day !in days
    ensures ToggleDay(ToggleDay(days, day), day) == days
  {
    RemoveAllAppended(days, day);
  }

  /** A selection with no day listed twice. */
  ghost predicate NoRepeats(days: seq<DayId>)
  {
    forall x :: multiset(days)[x] <= 1
  }

  /** Toggling keeps a selection free of repeats. */
  lemma ToggleDayNoRepeats(days: seq<DayId>, day: DayId)
    requires NoRepeats(days)
    ensures NoRepeats(ToggleDay(days, day))
  {
    var r := ToggleDay(days, day);
    forall x ensures multiset(r)[x] <= 1 {
      if x == day {
        if day in days {
          assert x !in r;
        } else {
          assert multiset(days)[x] == 0;
          assert r == days + [day];
        }
      }
    }
  }

  /** `DAYS.map(day => day.id)`. */
  function DayIds(days: seq<DayInfo>): (r: seq<DayId>)
    ensures |r| == |days| && forall i :: 0 <= i < |days| ==> r[i] == days[i].id
  {
    seq(|days|, i requires 0 <= i < |days| => days[i].id)
  }

  /** handleSelectAllDays's update: clears the selection when it is as long as
      DAYS, otherwise selects every day of DAYS in order. */
  function SelectAll(selected: seq<DayId>, days: seq<DayInfo>): (r: seq<DayId>)
    ensures |selected| == |days| ==> r == []
    ensures |selected| != |days| ==> |r| == |days| && forall i :: 0 <= i < |days| ==> r[i] == days[i].id
  {
    if |selected| == |days| then [] else DayIds(days)
  }

  /** Pressing select-all twice from a partial selection clears it. */
  lemma SelectAllTwice(selected: seq<DayId>, days: seq<DayInfo>)
    requires |selected| != |days|
    ensures SelectAll(SelectAll(selected, days), days) == []
  {
  }

  // ---------------------------------------------------------------------
  // Operator resolution on submit and on edit

  /** The tour handleSubmit stores: the draft with `operator` replaced by the
      name of the first saved company whose id is the draft's operator, and
      `operatorId` set to that id; when no company has that id, both are the
      draft's operator text. */
  function ResolveOperator(draft: Tour, companies: seq<Company>): (t: Tour)
    ensures t == draft.(operator := t.operator, operatorId := t.operatorId)
    ensures t.operatorId == Some(draft.operator)
    ensures forall i :: 0 <= i < |companies| && companies[i].alphanumericId == draft.operator
                        && (forall j :: 0 <= j < i ==> companies[j].alphanumericId != draft.operator)
                        ==> t.operator == companies[i].companyName
    ensures (forall i :: 0 <= i < |companies| ==> companies[i].alphanumericId != draft.operator)
            ==> t.operator == draft.operator
  {
    var k := FindIndex(companies, (c: Company) => c.alphanumericId == draft.operator);
    draft.(operator := if k.Some? then companies[k.value].companyName else draft.operator,
           operatorId := Some(if k.Some? then companies[k.value].alphanumericId else draft.operator))
  }

  /** The draft handleEdit loads for a stored tour: the tour with `operator`
      set to its operator id; a tour without one falls back to the id of the
      first company named like its operator, then to the operator text. */
  function EditDraft(tour: Tour, companies: seq<Company>): (d: Tour)
    ensures d == tour.(operator := d.operator)
    ensures tour.operatorId.Some? && tour.operatorId.value != "" ==> d.operator == tour.operatorId.value
    ensures (tour.operatorId.None? || tour.operatorId.value == "")
            && (forall i :: 0 <= i < |companies| ==> companies[i].companyName != tour.operator)
            ==> d.operator == tour.operator
    ensures forall i :: 0 <= i < |companies| && companies[i].companyName == tour.operator
              && (tour.operatorId.None? || tour.operatorId.value == "")
              && (forall j :: 0 <= j < i ==> companies[j].companyName != tour.operator)
              ==> d.operator == (if companies[i].alphanumericId != "" then companies[i].alphanumericId else tour.operator)
  {
    var byName := FindIndex(companies, (c: Company) => c.companyName == tour.operator);
    var fallback := if byName.Some? && companies[byName.value].alphanumericId != ""
                    then companies[byName.value].alphanumericId else tour.operator;
    tour.(operator := OrText(tour.operatorId, fallback))
  }

  /** Opening a submitted tour for editing and submitting it unchanged stores
      the same tour again. */
  lemma EditThenSubmitRestores(draft: Tour, companies: seq<Company>)
    requires draft.operator != ""
    ensures ResolveOperator(EditDraft(ResolveOperator(draft, companies), companies), companies)
            == ResolveOperator(draft, companies)
  {
    var t := ResolveOperator(draft, companies);
    var d := EditDraft(t, companies);
    assert d.operator == draft.operator;
    assert d == draft.(operator := draft.operator, operatorId := t.operatorId);
  }

  // ---------------------------------------------------------------------
  // Pickup-time and option rows

  /** A field of a pickup-time row. */
  datatype TimeField = HourField | MinuteField | RegionField | AreaField | PeriodField | ActiveField

  /** What a field of a pickup-time row holds; `Unset` for a field the row
      does not have yet. */
  datatype FieldValue = Text(text: string) | Flag(on: bool) | Unset

  /** One `onTimeChange(index, field, value)` payload: the field and its new value. */
  datatype TimeEdit =
    | SetHour(text: string)
    | SetMinute(text: string)
    | SetRegion(text: string)
    | SetArea(text: string)
    | SetPeriod(text: string)
    | SetActive(on: bool)
  {
    function Field(): TimeField
    {
      match this
      case SetHour(_) => HourField
      case SetMinute(_) => MinuteField
      case SetRegion(_) => RegionField
      case SetArea(_) => AreaField
      case SetPeriod(_) => PeriodField
      case SetActive(_) => ActiveField
    }

    function Value(): FieldValue
    {
      match this
      case SetActive(on) => Flag(on)
      case _ => Text(text)
    }
  }

  /** The value of field `f` of row `t`. */
  function Get(t: PickupTime, f: TimeField): FieldValue
  {
    match f
    case HourField => Text(t.hour)
    case MinuteField => Text(t.minute)
    case RegionField => Text(t.region)
    case AreaField => Text(t.area)
    case PeriodField => if t.period.Some? then Text(t.period.value) else Unset
    case ActiveField => if t.isActive.Some? then Flag(t.isActive.value) else Unset
  }

  /** `{ ...t, [field]: value }`: the named field takes the new value and
      every other field keeps its own. */
  function ApplyTimeEdit(t: PickupTime, e: TimeEdit): (r: PickupTime)
    ensures Get(r, e.Field()) == e.Value()
    ensures forall f :: f != e.Field() ==> Get(r, f) == Get(t, f)
  {
    match e
    case SetHour(s) => t.(hour := s)
    case SetMinute(s) => t.(minute := s)
    case SetRegion(s) => t.(region := s)
    case SetArea(s) => t.(area := s)
    case SetPeriod(s) => t.(period := Some(s))
    case SetActive(b) => t.(isActive := Some(b))
  }

  /** Two rows agreeing on every field are the same row. */
  lemma RowsByFields(a: PickupTime, b: PickupTime)
    requires forall f :: Get(a, f) == Get(b, f)
    ensures a == b
  {
    assert Get(a, HourField) == Get(b, HourField);
    assert Get(a, MinuteField) == Get(b, MinuteField);
    assert Get(a, RegionField) == Get(b, RegionField);
    assert Get(a, AreaField) == Get(b, AreaField);
    assert Get(a, PeriodField) == Get(b, PeriodField);
    assert Get(a, ActiveField) == Get(b, ActiveField);
  }

  /** Edits of two different fields give the same row in either order. */
  lemma TimeEditsCommute(t: PickupTime, e1: TimeEdit, e2: TimeEdit)
    requires e1.Field() != e2.Field()
    ensures ApplyTimeEdit(ApplyTimeEdit(t, e1), e2) == ApplyTimeEdit(ApplyTimeEdit(t, e2), e1)
  {
    RowsByFields(ApplyTimeEdit(ApplyTimeEdit(t, e1), e2), ApplyTimeEdit(ApplyTimeEdit(t, e2), e1));
  }

  /** handleTimeChange's update of the pickup rows: row `index` gets the edit
      and no other row changes. A negative index (the form's "new entry" of an
      empty list) names no element, so nothing changes. */
  function SetTimeField(times: seq<PickupTime>, index: int, e: TimeEdit): (r: seq<PickupTime>)
    requires index < |times|
    ensures |r| == |times|
    ensures forall i :: 0 <= i < |times| && i != index ==> r[i] == times[i]
    ensures 0 <= index ==> Get(r[index], e.Field()) == e.Value()
    ensures 0 <= index ==> forall f :: f != e.Field() ==> Get(r[index], f) == Get(times[index], f)
  {
    if index < 0 then times else times[index := ApplyTimeEdit(times[index], e)]
  }

  /** `list.filter((_, i) => i !== index)`: drops the element at `index`, if
      there is one, keeping the others in order. */
  function RemoveAt<T>(s: seq<T>, index: int): (r: seq<T>)
    ensures 0 <= index < |s| ==> |r| == |s| - 1
    ensures 0 <= index < |s| ==> forall i :: 0 <= i < |r| ==> r[i] == if i < index then s[i] else s[i + 1]
    ensures !(0 <= index < |s|) ==> r == s
  {
    if 0 <= index < |s| then s[..index] + s[index + 1..] else s
  }

  /** Adding a row and removing the last row gives back the original rows. */
  lemma AddThenRemoveLast<T>(s: seq<T>, x: T)
    ensures RemoveAt(s + [x], |s|) == s
  {
  }

  /** One `onOptionChange(index, field, value)` payload. */
  datatype OptionEdit = SetOptionName(text: string) | SetOptionPrice(text: string)

  /** `{ ...option, [field]: value }` on an option row. */
  function ApplyOptionEdit(o: TourOption, e: OptionEdit): (r: TourOption)
    ensures e.SetOptionName? ==> r.name == e.text && r.price == o.price
    ensures e.SetOptionPrice? ==> r.price == e.text && r.name == o.name
  {
    match e
    case SetOptionName(s) => o.(name := s)
    case SetOptionPrice(s) => o.(price := s)
  }

  // ---------------------------------------------------------------------
  // Created-tours list updates

  /** `tours.filter(tour => tour !== target)`: drops the object `ref`. */
  function Without(es: seq<Entry>, ref: nat): (r: seq<Entry>)
    ensures forall e :: e in r <==> e in es && e.ref != ref
    ensures |r| <= |es|
    ensures RefsDistinct(es) ==> RefsDistinct(r)
  {
    if es == [] then []
    else
      var rest := Without(es[1..], ref);
      assert es == [es[0]] + es[1..];
      if es[0].ref == ref then rest
      else
        assert RefsDistinct(es) ==> RefsDistinct(es[1..]) && forall e :: e in es[1..] ==> e.ref != es[0].ref;
        [es[0]] + rest
  }

  /** Deleting an object of the list removes exactly its one position and
      keeps the others in order. */
  lemma {:induction false} WithoutRemovesOne(es: seq<Entry>, k: nat)
    requires RefsDistinct(es) && k < |es|
    ensures Without(es, es[k].ref) == es[..k] + es[k + 1..]
  {
    var ref, tail := es[k].ref, es[1..];
    if k == 0 {
      forall i | 0 <= i < |tail| ensures tail[i].ref != ref {
        assert tail[i] == es[i + 1];
      }
      WithoutAbsent(tail, ref);
    } else {
      forall i, j | 0 <= i < j < |tail| ensures tail[i].ref != tail[j].ref {
        assert tail[i] == es[i + 1] && tail[j] == es[j + 1];
      }
      assert tail[k - 1] == es[k];
      WithoutRemovesOne(tail, k - 1);
      WithoutKeepsHead(es, ref);
      DropAfterHead(es, k);
    }
  }

  /** Deleting an object other than the first keeps the first in front. */
  lemma WithoutKeepsHead(es: seq<Entry>, ref: nat)
    requires es != [] && es[0].ref != ref
    ensures Without(es, ref) == [es[0]] + Without(es[1..], ref)
  {
  }

  /** Dropping position `k > 0` is keeping the head and dropping position
      `k - 1` of the tail. */
  lemma DropAfterHead<T>(s: seq<T>, k: nat)
    requires 0 < k < |s|
    ensures s[..k] + s[k + 1..] == [s[0]] + (s[1..][..k - 1] + s[1..][k..])
  {
    assert s[..k] == [s[0]] + s[1..][..k - 1];
  }

  /** Deleting an object that is not in the list changes nothing. */
  lemma {:induction false} WithoutAbsent(es: seq<Entry>, ref: nat)
    requires forall i :: 0 <= i < |es| ==> es[i].ref != ref
    ensures Without(es, ref) == es
  {
    if es != [] {
      WithoutAbsent(es[1..], ref);
    }
  }

  /** handleStatusChange's update: the object `ref` is replaced by a new
      object `newRef` with `isActive` negated; every other entry is untouched. */
  function FlipStatus(es: seq<Entry>, ref: nat, newRef: nat): (r: seq<Entry>)
    ensures |r| == |es|
    ensures forall i :: 0 <= i < |es| && es[i].ref != ref ==> r[i] == es[i]
    ensures forall i :: 0 <= i < |es| && es[i].ref == ref ==>
              r[i].ref == newRef && r[i].tour == es[i].tour.(isActive := !es[i].tour.isActive)
  {
    seq(|es|, i requires 0 <= i < |es| =>
      if es[i].ref == ref then Entry(newRef, es[i].tour.(isActive := !es[i].tour.isActive)) else es[i])
  }

  /** Changing a tour's status twice, the second time on the new object, gives
      back the original tours. */
  lemma FlipStatusTwice(es: seq<Entry>, ref: nat, newRef: nat, newRef2: nat)
    requires forall i :: 0 <= i < |es| ==> es[i].ref != newRef
    ensures Tours(FlipStatus(FlipStatus(es, ref, newRef), newRef, newRef2)) == Tours(es)
  {
  }

  // ---------------------------------------------------------------------
  // The table's view: filteredAndSortedTours

  /** `text.includes(part)`. */
  predicate Contains(text: string, part: string)
  {
    exists i :: 0 <= i <= |text| && part <= text[i..]
  }

  /** The search filter: an empty query keeps everything; otherwise the
      case-folded query must occur in the folded tour name or operator. */
  function MatchesSearch(t: Tour, query: string, fold: string -> string): (m: bool)
    ensures query == "" ==> m
    ensures query != "" ==> (m <==> Contains(fold(t.tourName), fold(query)) || Contains(fold(t.operator), fold(query)))
  {
    query == "" || Contains(fold(t.tourName), fold(query)) || Contains(fold(t.operator), fold(query))
  }

  /** Searching for a tour's own name, or its own operator, always finds it. */
  lemma {:induction false} SearchFindsOwnName(t: Tour, fold: string -> string)
    ensures MatchesSearch(t, t.tourName, fold) && MatchesSearch(t, t.operator, fold)
  {
    assert fold(t.tourName) <= fold(t.tourName)[0..];
    assert fold(t.operator) <= fold(t.operator)[0..];
  }

  /** The status filter: "all" keeps everything, "active" keeps active tours,
      any other value keeps inactive ones. */
  function MatchesStatus(t: Tour, showActive: string): (m: bool)
    ensures showActive == "all" ==> m
    ensures showActive == "active" ==> (m <==> t.isActive)
    ensures showActive != "all" && showActive != "active" ==> (m <==> !t.isActive)
  {
    showActive == "all" || (if showActive == "active" then t.isActive else !t.isActive)
  }

  /** The filter's "active" and "inactive" options split the tours: each
      tour passes exactly one. */
  lemma StatusFiltersPartition(t: Tour)
    ensures MatchesStatus(t, "all")
    ensures MatchesStatus(t, "active") != MatchesStatus(t, "inactive")
  {
  }

  predicate Shown(e: Entry, query: string, showActive: string, fold: string -> string)
  {
    MatchesSearch(e.tour, query, fold) && MatchesStatus(e.tour, showActive)
  }

  /** The two filters, keeping list order. */
  function Select(es: seq<Entry>, query: string, showActive: string, fold: string -> string): (r: seq<Entry>)
    ensures forall e :: e in r ==> Shown(e, query, showActive, fold)
    ensures forall e :: multiset(r)[e] == if Shown(e, query, showActive, fold) then multiset(es)[e] else 0
  {
    if es == [] then []
    else
      assert es == [es[0]] + es[1..];
      var rest := Select(es[1..], query, showActive, fold);
      if Shown(es[0], query, showActive, fold) then [es[0]] + rest else rest
  }

  /** `atMost(a, b)` stands for `a.localeCompare(b) <= 0`; every two names
      compare one way or the other. */
  ghost predicate Total(atMost: (string, string) -> bool)
  {
    forall a, b :: atMost(a, b) || atMost(b, a)
  }

  /** Each tour's folded name is at most the next one's. */
  ghost predicate SortedByName(es: seq<Entry>, fold: string -> string, atMost: (string, string) -> bool)
  {
    forall i :: 0 <= i < |es| - 1 ==> atMost(fold(es[i].tour.tourName), fold(es[i + 1].tour.tourName))
  }

  /** Places `e` before the first entry whose name it does not follow. */
  function InsertByName(e: Entry, es: seq<Entry>, fold: string -> string, atMost: (string, string) -> bool): (r: seq<Entry>)
    ensures multiset(r) == multiset(es) + multiset{e}
    ensures |r| == |es| + 1 && (r[0] == e || (es != [] && r[0] == es[0]))
  {
    if es == [] || atMost(fold(e.tour.tourName), fold(es[0].tour.tourName)) then [e] + es
    else
      assert es == [es[0]] + es[1..];
      [es[0]] + InsertByName(e, es[1..], fold, atMost)
  }

  /** Inserting into a list sorted by a total order keeps it sorted. */
  lemma {:induction false} InsertKeepsSorted(e: Entry, es: seq<Entry>, fold: string -> string, atMost: (string, string) -> bool)
    requires Total(atMost) && SortedByName(es, fold, atMost)
    ensures SortedByName(InsertByName(e, es, fold, atMost), fold, atMost)
  {
    if es != [] && !atMost(fold(e.tour.tourName), fold(es[0].tour.tourName)) {
      var rest := InsertByName(e, es[1..], fold, atMost);
      InsertKeepsSorted(e, es[1..], fold, atMost);
      assert atMost(fold(es[0].tour.tourName), fold(e.tour.tourName));
      assert InsertByName(e, es, fold, atMost) == [es[0]] + rest;
    }
  }

  /** The `sort` by folded tour name (an insertion sort, stable like the
      engine's). */
  function SortByName(es: seq<Entry>, fold: string -> string, atMost: (string, string) -> bool): (r: seq<Entry>)
    requires Total(atMost)
    ensures multiset(r) == multiset(es)
    ensures SortedByName(r, fold, atMost)
  {
    if es == [] then []
    else
      var rest := SortByName(es[1..], fold, atMost);
      InsertKeepsSorted(es[0], rest, fold, atMost);
      assert es == [es[0]] + es[1..];
      InsertByName(es[0], rest, fold, atMost)
  }

  /** filteredAndSortedTours: the created tours that pass the search and
      status filters, every one of them once per occurrence, ordered by
      folded name. */
  function FilteredAndSorted(createdTours: seq<Entry>, query: string, showActive: string,
                             fold: string -> string, atMost: (string, string) -> bool): (r: seq<Entry>)
    requires Total(atMost)
    ensures multiset(r) <= multiset(createdTours)
    ensures forall e :: e in r ==> MatchesSearch(e.tour, query, fold) && MatchesStatus(e.tour, showActive)
    ensures forall e :: e in createdTours && Shown(e, query, showActive, fold) ==> e in r
    ensures SortedByName(r, fold, atMost)
    ensures multiset(r) == multiset(Select(createdTours, query, showActive, fold))
    ensures forall e :: multiset(r)[e] == if Shown(e, query, showActive, fold) then multiset(createdTours)[e] else 0
  {
    var selected := Select(createdTours, query, showActive, fold);
    var r := SortByName(selected, fold, atMost);
    SameMembers(r, selected);
    SelectedMembers(createdTours, query, showActive, fold);
    r
  }

  /** Two lists holding the same elements, counted, have the same members. */
  lemma SameMembers(a: seq<Entry>, b: seq<Entry>)
    requires multiset(a) == multiset(b)
    ensures forall e :: e in a <==> e in b
  {
    forall e ensures e in a <==> e in b {
      assert e in a <==> e in multiset(a);
    }
  }

  /** The selection keeps exactly the shown tours of the list. */
  lemma SelectedMembers(es: seq<Entry>, query: string, showActive: string, fold: string -> string)
    ensures forall e :: e in Select(es, query, showActive, fold) <==> e in es && Shown(e, query, showActive, fold)
  {
    var r := Select(es, query, showActive, fold);
    forall e ensures e in r <==> e in es && Shown(e, query, showActive, fold) {
      assert e in r <==> multiset(r)[e] > 0;
      assert e in es <==> multiset(es)[e] > 0;
    }
  }

  /** With no search text and the "all" filter, the view holds every created
      tour, reordered. */
  lemma ViewOfEverything(createdTours: seq<Entry>, fold: string -> string, atMost: (string, string) -> bool)
    requires Total(atMost)
    ensures multiset(FilteredAndSorted(createdTours, "", "all", fold, atMost)) == multiset(createdTours)
  {
    var selected := Select(createdTours, "", "all", fold);
    assert multiset(selected) == multiset(createdTours);
  }

  // ---------------------------------------------------------------------
  // Next-id counters

  /** `Math.max(...ids, 0)`. */
  function MaxId(ids: seq<int>): (m: int)
    ensures m >= 0
    ensures forall i :: 0 <= i < |ids| ==> ids[i] <= m
    ensures m == 0 || m in ids
  {
    if ids == [] then 0
    else
      var rest := MaxId(ids[1..]);
      assert forall x :: x in ids[1..] ==> x in ids;
      if ids[0] > rest then ids[0] else rest
  }

  /** The counter the page starts from after loading ids: the largest id
      (or 0) plus one, so it is above every loaded id. */
  function NextCounter(ids: seq<int>): (n: int)
    ensures n >= 1
    ensures forall i :: 0 <= i < |ids| ==> ids[i] < n
    ensures n == 1 || n - 1 in ids
  {
    MaxId(ids) + 1
  }

  // ---------------------------------------------------------------------
  // The editor

  /** Storing an entry with a new identity, above every other one in the
      list, at position `k` keeps the identities distinct. */
  lemma PutFresh(es: seq<Entry>, k: nat, e: Entry)
    requires k < |es|
    requires forall i, j :: 0 <= i < j < |es| && i != k && j != k ==> es[i].ref != es[j].ref
    requires forall i :: 0 <= i < |es| && i != k ==> es[i].ref < e.ref
    ensures RefsDistinct(es[k := e])
  {
  }

  /** Which text field of the draft `handleChange` sets, by its input name. */
  datatype DraftField = TourNameField | OperatorField | AdultPriceField | ChildPriceField

  class Editor {
    /** DAYS, the day selector's table. */
    const days: seq<DayInfo>
    var tourData: Tour
    var createdTours: seq<Entry>
    var editingIndex: Option<nat>
    var isCollapsed: bool
    var savedCompanies: seq<Company>
    /** The identity the next created object receives. */
    var nextRef: nat

    ghost predicate Valid()
      reads this
    {
      && (editingIndex.Some? ==> editingIndex.value < |createdTours|)
      && (forall i :: 0 <= i < |createdTours| ==> createdTours[i].ref < nextRef)
      && RefsDistinct(createdTours)
    }

    /** The editor as it mounts: an empty draft, the tours kept from the
        previous session, nothing being edited, no companies loaded yet. */
    constructor (days: seq<DayInfo>, stored: seq<Tour>)
      ensures Valid()
      ensures this.days == days && tourData == InitialTour && Tours(createdTours) == stored
      ensures editingIndex == None && !isCollapsed && savedCompanies == []
    {
      this.days := days;
      tourData := InitialTour;
      createdTours := seq(|stored|, i requires 0 <= i < |stored| => Entry(i, stored[i]));
      editingIndex := None;
      isCollapsed := false;
      savedCompanies := [];
      nextRef := |stored|;
    }

    /** Takes in the operator list the providers request produced. */
    method LoadCompanies(companies: seq<Company>)
      requires Valid()
      modifies this`savedCompanies
      ensures Valid()
      ensures savedCompanies == companies
    {
      savedCompanies := companies;
    }

    /** handleChange: sets one text field of the draft. */
    method Change(field: DraftField, value: string)
      requires Valid()
      modifies this`tourData
      ensures Valid()
      ensures tourData == match field
        case TourNameField => old(tourData).(tourName := value)
        case OperatorField => old(tourData).(operator := value)
        case AdultPriceField => old(tourData).(adultPrice := value)
        case ChildPriceField => old(tourData).(childPrice := value)
    {
      match field
      case TourNameField => tourData := tourData.(tourName := value);
      case OperatorField => tourData := tourData.(operator := value);
      case AdultPriceField => tourData := tourData.(adultPrice := value);
      case ChildPriceField => tourData := tourData.(childPrice := value);
    }

    /** handleDaySelect. */
    method DaySelect(day: DayId)
      requires Valid()
      modifies this`tourData
      ensures Valid()
      ensures tourData == old(tourData).(selectedDays := ToggleDay(old(tourData.selectedDays), day))
    {
      var selected := ToggleDay(tourData.selectedDays, day);
      tourData := tourData.(selectedDays := selected);
    }

    /** handleSelectAllDays. */
    method SelectAllDays()
      requires Valid()
      modifies this`tourData
      ensures Valid()
      ensures tourData == old(tourData).(selectedDays := SelectAll(old(tourData.selectedDays), days))
    {
      tourData := tourData.(selectedDays := SelectAll(tourData.selectedDays, days));
    }

    /** resetForm: back to the initial draft, editing nothing, form collapsed. */
    method ResetForm()
      requires Valid()
      modifies this`tourData, this`editingIndex, this`isCollapsed
      ensures Valid()
      ensures tourData == InitialTour && editingIndex == None && isCollapsed
    {
      tourData := InitialTour;
      editingIndex := None;
      isCollapsed := true;
    }

    /** handleSubmit. A draft without a tour name or operator is refused and
        nothing changes. Otherwise the resolved tour replaces the one being
        edited, or is appended when none is, and the form is reset. */
    method Submit() returns (saved: bool)
      requires Valid()
      modifies this
      ensures Valid() && savedCompanies == old(savedCompanies)
      ensures saved <==> old(tourData.tourName) != "" && old(tourData.operator) != ""
      ensures !saved ==> createdTours == old(createdTours) && tourData == old(tourData)
                         && editingIndex == old(editingIndex) && isCollapsed == old(isCollapsed)
      ensures saved ==> tourData == InitialTour && editingIndex == None && isCollapsed
      ensures saved && old(editingIndex).Some? ==>
                createdTours == old(createdTours)[old(editingIndex).value :=
                                  Entry(old(nextRef), ResolveOperator(old(tourData), savedCompanies))]
      ensures saved && old(editingIndex).None? ==>
                createdTours == old(createdTours) + [Entry(old(nextRef), ResolveOperator(old(tourData), savedCompanies))]
    {
      if tourData.tourName == "" || tourData.operator == "" {
        return false;
      }
      var stored := Entry(nextRef, ResolveOperator(tourData, savedCompanies));
      nextRef := nextRef + 1;
      if editingIndex.Some? {
        PutFresh(createdTours, editingIndex.value, stored);
        createdTours := createdTours[editingIndex.value := stored];
      } else {
        PutFresh(createdTours + [stored], |createdTours|, stored);
        createdTours := createdTours + [stored];
      }
      ResetForm();
      saved := true;
    }

    /** handleEdit: loads the object `ref` into the draft and marks its index
        as the one being edited; an object not in the list changes nothing. */
    method Edit(ref: nat)
      requires Valid()
      modifies this`tourData, this`editingIndex, this`isCollapsed
      ensures Valid()
      ensures (forall i :: 0 <= i < |createdTours| ==> createdTours[i].ref != ref) ==>
                tourData == old(tourData) && editingIndex == old(editingIndex) && isCollapsed == old(isCollapsed)
      ensures forall k :: 0 <= k < |createdTours| && createdTours[k].ref == ref ==>
                editingIndex == Some(k) && !isCollapsed
                && tourData == EditDraft(createdTours[k].tour, savedCompanies)
    {
      var k := FindIndex(createdTours, (e: Entry) => e.ref == ref);
      if k.Some? {
        tourData := EditDraft(createdTours[k.value].tour, savedCompanies);
        editingIndex := k;
        isCollapsed := false;
      }
    }

    /** handleDelete: once confirmed, removes the object `ref` from the list
        and, when a tour was being edited, resets the form. */
    method Delete(ref: nat, confirmed: bool)
      requires Valid()
      modifies this`createdTours, this`tourData, this`editingIndex, this`isCollapsed
      ensures Valid()
      ensures !confirmed ==> createdTours == old(createdTours) && tourData == old(tourData)
                             && editingIndex == old(editingIndex) && isCollapsed == old(isCollapsed)
      ensures confirmed ==> createdTours == Without(old(createdTours), ref)
      ensures confirmed && old(editingIndex).Some? ==> tourData == InitialTour && editingIndex == None && isCollapsed
      ensures confirmed && old(editingIndex).None? ==>
                tourData == old(tourData) && editingIndex == None && isCollapsed == old(isCollapsed)
    {
      if confirmed {
        createdTours := Without(createdTours, ref);
        if editingIndex.Some? {
          tourData, editingIndex, isCollapsed := InitialTour, None, true;
        }
      }
    }

    /** handleTimeChange. */
    method TimeChange(index: int, e: TimeEdit)
      requires Valid() && index < |tourData.pickupTimes|
      modifies this`tourData
      ensures Valid()
      ensures tourData == old(tourData).(pickupTimes := SetTimeField(old(tourData.pickupTimes), index, e))
    {
      tourData := tourData.(pickupTimes := SetTimeField(tourData.pickupTimes, index, e));
    }

    /** addPickupTime: appends one blank row. */
    method AddPickupTime()
      requires Valid()
      modifies this`tourData
      ensures Valid()
      ensures tourData == old(tourData).(pickupTimes := old(tourData.pickupTimes) + [BlankPickupTime])
    {
      tourData := tourData.(pickupTimes := tourData.pickupTimes + [BlankPickupTime]);
    }

    /** removePickupTime. */
    method RemovePickupTime(index: int)
      requires Valid()
      modifies this`tourData
      ensures Valid()
      ensures tourData == old(tourData).(pickupTimes := RemoveAt(old(tourData.pickupTimes), index))
    {
      tourData := tourData.(pickupTimes := RemoveAt(tourData.pickupTimes, index));
    }

    /** handleOptionChange: option row `index` gets the edit; a negative
        index names no element and changes no row. */
    method OptionChange(index: int, e: OptionEdit)
      requires Valid() && index < |tourData.options|
      modifies this`tourData
      ensures Valid()
      ensures 0 <= index ==>
                tourData == old(tourData).(options := old(tourData.options)[index := ApplyOptionEdit(old(tourData.options)[index], e)])
      ensures index < 0 ==> tourData == old(tourData)
    {
      if 0 <= index {
        var options := tourData.options[index := ApplyOptionEdit(tourData.options[index], e)];
        tourData := tourData.(options := options);
      }
    }

    /** The add-option handler: appends `{ name: '', price: '' }`. */
    method AddOption()
      requires Valid()
      modifies this`tourData
      ensures Valid()
      ensures tourData == old(tourData).(options := old(tourData.options) + [TourOption("", "")])
    {
      tourData := tourData.(options := tourData.options + [TourOption("", "")]);
    }

    /** The remove-option handler. */
    method RemoveOption(index: int)
      requires Valid()
      modifies this`tourData
      ensures Valid()
      ensures tourData == old(tourData).(options := RemoveAt(old(tourData.options), index))
    {
      tourData := tourData.(options := RemoveAt(tourData.options, index));
    }

    /** handleCopy: appends a new object with the same fields as `source`. */
    method Copy(source: Tour)
      requires Valid()
      modifies this`createdTours, this`nextRef
      ensures Valid()
      ensures createdTours == old(createdTours) + [Entry(old(nextRef), source)]
      ensures Tours(createdTours) == Tours(old(createdTours)) + [source]
    {
      createdTours := createdTours + [Entry(nextRef, source)];
      nextRef := nextRef + 1;
    }

    /** handleStatusChange. */
    method StatusChange(ref: nat)
      requires Valid()
      modifies this`createdTours, this`nextRef
      ensures Valid()
      ensures createdTours == FlipStatus(old(createdTours), ref, old(nextRef))
    {
      createdTours := FlipStatus(createdTours, ref, nextRef);
      nextRef := nextRef + 1;
    }
  }
}
