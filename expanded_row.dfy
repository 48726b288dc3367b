/** The expanded row of the tours table: the tour's days, pickup times and
    options as the table shows them, with a default for every missing or
    empty field. The tour comes from the server, so any part of it may be
    missing, and an element of the pickup-time or option list may be null. */
module ExpandedRow {
  import opened Common

  /** A pickup time as the server sends it; every field may be missing. */
  datatype TimeRecord = TimeRecord(
    hour: Option<string>,
    minute: Option<string>,
    region: Option<string>,
    area: Option<string>,
    period: Option<string>,
    isActive: Option<bool>)

  /** An option as the server sends it: named `name` or `option_name`. */
  datatype OptionRecord = OptionRecord(name: Option<string>, optionName: Option<string>, price: Option<string>)

  /** `tour.relatedData`; a list is None when it is missing or not an array.
      A None element of `pickupTimes` or `options` is a null element. */
  datatype RelatedData = RelatedData(
    days: Option<seq<DayId>>,
    pickupTimes: Option<seq<Option<TimeRecord>>>,
    options: Option<seq<Option<OptionRecord>>>)

  /** The `tour` prop: missing (or null), not an object, or a tour object. */
  datatype TourProp = Missing | NotObject | TourObject(relatedData: Option<RelatedData>)

  /** What a day badge shows: a DAYS label, or the raw id when DAYS has none. */
  datatype DayBadge = Label(text: string) | RawId(id: DayId)

  /** The period badge: green when active, grey otherwise; its text (None
      renders nothing). */
  datatype PeriodBadge = PeriodBadge(active: bool, text: Option<string>)

  /** One row of the pickup-times table. */
  datatype TimeLine = TimeLine(time: string, region: string, area: string, badge: PeriodBadge)

  /** One row of the options table. */
  datatype OptionLine = OptionLine(name: string, price: string)

  /** What the expanded row shows. */
  datatype View = View(days: seq<DayBadge>, times: seq<TimeLine>, options: seq<OptionLine>)

  /** The outcome of rendering: the view, or a TypeError thrown while rendering. */
  datatype Rendered<T> = Shows(value: T) | Throws

  /** getDayLabel: the label of the first DAYS entry with that id, else the id. */
  function DayLabel(catalog: seq<DayInfo>, day: DayId): (b: DayBadge)
    ensures b.Label? <==> exists i :: 0 <= i < |catalog| && catalog[i].id == day
    ensures b.RawId? ==> b.id == day
    ensures forall i :: 0 <= i < |catalog| && catalog[i].id == day && (forall j :: 0 <= j < i ==> catalog[j].id != day)
                        ==> b == Label(catalog[i].caption)
  {
    var k := FindIndex(catalog, (d: DayInfo) => d.id == day);
    if k.Some? then Label(catalog[k.value].caption) else RawId(day)
  }

  /** getPeriodLabel: "<v>. PERIYOT" for a value v from "1" to "10";
      anything else (a missing period included) is returned unchanged. */
  function PeriodLabel(period: Option<string>): (r: Option<string>)
    ensures period.Some? && period.value in PeriodValues ==> r == Some(period.value + ". PERIYOT")
    ensures !(period.Some? && period.value in PeriodValues) ==> r == period
  {
    PeriodLookup(period);
    var k := FindIndex(TimePeriods, PeriodIs(period));
    if k.Some? then Some(TimePeriods[k.value].caption) else period
  }

  /** The test of `p.value === period`. */
  function PeriodIs(period: Option<string>): PeriodChoice -> bool
  {
    (p: PeriodChoice) => Some(p.value) == period
  }

  /** TIME_PERIODS has an entry for exactly the periods "1" to "10". */
  lemma PeriodLookup(period: Option<string>)
    ensures var k := FindIndex(TimePeriods, PeriodIs(period));
            && (k.Some? <==> period.Some? && period.value in PeriodValues)
            && (k.Some? ==> TimePeriods[k.value].caption == period.value + ". PERIYOT")
  {
    var k := FindIndex(TimePeriods, PeriodIs(period));
    if k.Some? {
      assert PeriodValues[k.value] == period.value;
    } else if period.Some? {
      forall j | 0 <= j < |PeriodValues| ensures PeriodValues[j] != period.value {
        assert !PeriodIs(period)(TimePeriods[j]);
      }
    }
  }

  /** The text `${time?.hour || '00'}:${time?.minute || '00'}`: the hour, or
      "00" when it is missing or empty, a colon, then the minute likewise. */
  function TimeText(time: Option<TimeRecord>): (s: string)
    ensures var h := if time.Some? then time.value.hour else None;
            var m := if time.Some? then time.value.minute else None;
            && |s| == |OrText(h, "00")| + 1 + |OrText(m, "00")| >= 3
            && (h.None? || h.value == "" ==> s[..3] == "00:")
            && (h.Some? && h.value != "" ==> s[..|h.value|] == h.value && s[|h.value|] == ':')
            && (m.None? || m.value == "" ==> s[|s| - 2..] == "00")
            && (m.Some? && m.value != "" ==> s[|s| - |m.value|..] == m.value)
  {
    var h := if time.Some? then time.value.hour else None;
    var m := if time.Some? then time.value.minute else None;
    OrText(h, "00") + ":" + OrText(m, "00")
  }

  /** A row with hour and minute both set shows them around a colon. */
  lemma TimeTextOfSetRow(hour: string, minute: string, rest: TimeRecord)
    requires hour != "" && minute != ""
    ensures TimeText(Some(rest.(hour := Some(hour), minute := Some(minute)))) == hour + ":" + minute
  {
  }

  /** `time?.isActive !== false`: only an explicit false is inactive. */
  predicate IsActive(time: Option<TimeRecord>)
  {
    !(time.Some? && time.value.isActive == Some(false))
  }

  /** Only the period "PASIF" itself is labelled "PASIF": every labelled
      period is longer. */
  lemma PasifLabel(period: Option<string>)
    ensures PeriodLabel(period) == Some("PASIF") <==> period == Some("PASIF")
  {
    if period.Some? && period.value in PeriodValues {
      assert |PeriodLabel(period).value| == |period.value| + 9;
    }
  }

  /** The period badge as written: on an active row it reads `time.period`
      without optional chaining, which throws on a null row. */
  function PeriodBadgeAsWritten(time: Option<TimeRecord>): (b: Rendered<PeriodBadge>)
    ensures b.Throws? <==> time.None?
    ensures b.Shows? ==> (b.value.active <==> IsActive(time))
    ensures b.Shows? && !IsActive(time) ==> b.value.text == Some("PASIF")
  {
    if IsActive(time) then
      if time.None? then Throws
      else Shows(PeriodBadge(true, PeriodLabel(time.value.period)))
    else Shows(PeriodBadge(false, Some("PASIF")))
  }

  /** A null element of the pickup-time list makes the row throw. */
  lemma NullPickupRowThrows()
    ensures PeriodBadgeAsWritten(None) == Throws
  {
  }

  /** The period badge with the null row treated like every other field of it:
      'PASIF' exactly when the row is marked inactive, otherwise the period
      label (nothing for a null row or a row without a period). */
  function PeriodBadgeOf(time: Option<TimeRecord>): (b: PeriodBadge)
    ensures b.active <==> IsActive(time)
    ensures b.text == Some("PASIF") <==> !IsActive(time) || (time.Some? && time.value.period == Some("PASIF"))
    ensures IsActive(time) ==> b.text == PeriodLabel(if time.Some? then time.value.period else None)
  {
    var period := if time.Some? then time.value.period else None;
    PasifLabel(period);
    if IsActive(time) then PeriodBadge(true, PeriodLabel(period))
    else PeriodBadge(false, Some("PASIF"))
  }

  /** On every non-null row the corrected badge is the one the code shows. */
  lemma PeriodBadgeAgrees(time: TimeRecord)
    ensures PeriodBadgeAsWritten(Some(time)) == Shows(PeriodBadgeOf(Some(time)))
  {
  }

  /** One row of the pickup-times table; region and area fall back to '-'. */
  function TimeLineOf(time: Option<TimeRecord>): (l: TimeLine)
    ensures l.time == TimeText(time) && l.badge == PeriodBadgeOf(time)
    ensures l.region != "" && l.area != ""
    ensures time.None? ==> l.region == "-" && l.area == "-"
    ensures time.Some? && time.value.region.Some? && time.value.region.value != "" ==> l.region == time.value.region.value
    ensures time.Some? && time.value.area.Some? && time.value.area.value != "" ==> l.area == time.value.area.value
    ensures time.Some? && OrText(time.value.region, "") == "" ==> l.region == "-"
    ensures time.Some? && OrText(time.value.area, "") == "" ==> l.area == "-"
  {
    var region := if time.Some? then time.value.region else None;
    var area := if time.Some? then time.value.area else None;
    TimeLine(TimeText(time), OrText(region, "-"), OrText(area, "-"), PeriodBadgeOf(time))
  }

  /** One row of the options table: `name`, else `option_name`, else '-';
      the price, else '0'. */
  function OptionLineOf(option: Option<OptionRecord>): (l: OptionLine)
    ensures l.name != "" && l.price != ""
    ensures option.Some? && option.value.name.Some? && option.value.name.value != "" ==> l.name == option.value.name.value
    ensures (option.Some? && (option.value.name.None? || option.value.name.value == "")
             && option.value.optionName.Some? && option.value.optionName.value != "")
            ==> l.name == option.value.optionName.value
    ensures option.None? ==> l == OptionLine("-", "0")
    ensures option.Some? && option.value.price.Some? && option.value.price.value != "" ==> l.price == option.value.price.value
    ensures option.Some? && OrText(option.value.name, "") == "" && OrText(option.value.optionName, "") == "" ==> l.name == "-"
    ensures option.Some? && OrText(option.value.price, "") == "" ==> l.price == "0"
  {
    if option.None? then OptionLine("-", "0")
    else OptionLine(OrText(option.value.name, OrText(option.value.optionName, "-")), OrText(option.value.price, "0"))
  }

  /** The expanded row: nothing for a missing or non-object tour; otherwise one
      badge per day, one line per pickup time and one per option, each list
      empty when the tour's list is missing or not an array. */
  function Render(tour: TourProp, catalog: seq<DayInfo>): (v: Option<View>)
    ensures v.None? <==> tour.Missing? || tour.NotObject?
    ensures v.Some? && tour.relatedData.None? ==> v.value == View([], [], [])
    ensures v.Some? && tour.relatedData.Some? ==>
              var rd := tour.relatedData.value;
              && (rd.days.None? ==> v.value.days == [])
              && (rd.pickupTimes.None? ==> v.value.times == [])
              && (rd.options.None? ==> v.value.options == [])
              && |v.value.days| == |ListOrEmpty(rd.days)|
              && |v.value.times| == |ListOrEmpty(rd.pickupTimes)|
              && |v.value.options| == |ListOrEmpty(rd.options)|
              && (forall i :: 0 <= i < |v.value.days| ==> v.value.days[i] == DayLabel(catalog, rd.days.value[i]))
              && (forall i :: 0 <= i < |v.value.times| ==> v.value.times[i] == TimeLineOf(rd.pickupTimes.value[i]))
              && (forall i :: 0 <= i < |v.value.options| ==> v.value.options[i] == OptionLineOf(rd.options.value[i]))
  {
    match tour
    case Missing => None
    case NotObject => None
    case TourObject(related) =>
      var rd := if related.Some? then related.value else RelatedData(None, None, None);
      var days := ListOrEmpty(rd.days);
      var times := ListOrEmpty(rd.pickupTimes);
      var options := ListOrEmpty(rd.options);
      Some(View(
        seq(|days|, i requires 0 <= i < |days| => DayLabel(catalog, days[i])),
        seq(|times|, i requires 0 <= i < |times| => TimeLineOf(times[i])),
        seq(|options|, i requires 0 <= i < |options| => OptionLineOf(options[i]))))
  }
}
