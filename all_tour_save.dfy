/** The bulk save route for a company's tours: it replaces every row of the
    `tours` table that belongs to the company with one row per submitted
    tour, inside one transaction. The database is the `rows` field of a
    `ToursDb` object; a failing query is a parameter naming which query
    fails. */
module AllTourSave {
  import opened Common

  /** A tour as the request body carries it: any field may be missing. */
  datatype TourInput = TourInput(
    tourName: Option<string>,
    operator: Option<string>,
    operatorId: Option<string>,
    adultPrice: Option<string>,
    childPrice: Option<string>,
    selectedDays: Option<seq<DayId>>,
    pickupTimes: Option<seq<PickupTime>>,
    bolgeId: Option<seq<string>>,
    options: Option<seq<TourOption>>,
    isActive: Option<bool>)

  /** The `tours` member of the body: missing, present but not an array, or
      an array. */
  datatype ToursField = Absent | NotAnArray | List(items: seq<TourInput>)

  /** The request body. A missing or empty `companyId` is "". */
  datatype SaveRequest = SaveRequest(companyId: string, tours: ToursField)

  /** One row of the `tours` table. A None column is SQL NULL. The four
      list columns hold the JSON text of a list; the model keeps the list
      itself, one list per text. */
  datatype ToursRow = ToursRow(
    companyRef: string,
    tourName: Option<string>,
    operator: Option<string>,
    operatorId: Option<string>,
    adultPrice: Option<string>,
    childPrice: Option<string>,
    selectedDays: seq<DayId>,
    pickupTimes: seq<PickupTime>,
    bolgeId: seq<string>,
    options: seq<TourOption>,
    isActive: int)

  /** The queries of a save, in the order they are issued. */
  datatype Query = BeginQuery | DeleteQuery | InsertQuery | CommitQuery

  /** The route's answers: 400, 200 with the number of saved tours, 500. */
  datatype Response = BadRequest | Saved(savedCount: nat) | ServerError

  /** `value || null` on an optional text: NULL for a missing or empty text. */
  function TextOrNull(value: Option<string>): (r: Option<string>)
    ensures r.None? <==> value.None? || value.value == ""
    ensures r.Some? ==> r == value
  {
    if value.Some? && value.value != "" then value else None
  }

  /** The row inserted for one submitted tour. */
  function BuildRow(companyId: string, tour: TourInput): (row: ToursRow)
    ensures row.companyRef == companyId
    ensures row.tourName == tour.tourName && row.operator == tour.operator && row.operatorId == tour.operatorId
    ensures row.adultPrice == TextOrNull(tour.adultPrice) && row.childPrice == TextOrNull(tour.childPrice)
    ensures row.selectedDays == ListOrEmpty(tour.selectedDays) && row.pickupTimes == ListOrEmpty(tour.pickupTimes)
    ensures row.bolgeId == ListOrEmpty(tour.bolgeId) && row.options == ListOrEmpty(tour.options)
    ensures row.isActive == (if tour.isActive == Some(true) then 1 else 0)
  {
    ToursRow(
      companyId,
      tour.tourName,
      tour.operator,
      tour.operatorId,
      TextOrNull(tour.adultPrice),
      TextOrNull(tour.childPrice),
      ListOrEmpty(tour.selectedDays),
      ListOrEmpty(tour.pickupTimes),
      ListOrEmpty(tour.bolgeId),
      ListOrEmpty(tour.options),
      if tour.isActive == Some(true) then 1 else 0)
  }

  /** The rows of one multi-row insert: one per tour, in the tours' order. */
  function BuildRows(companyId: string, tours: seq<TourInput>): (rows: seq<ToursRow>)
    ensures |rows| == |tours|
    ensures forall i :: 0 <= i < |rows| ==> rows[i] == BuildRow(companyId, tours[i])
  {
    seq(|tours|, i requires 0 <= i < |tours| => BuildRow(companyId, tours[i]))
  }

  /** The test of `WHERE company_ref = ?`. */
  function OfCompany(companyId: string): ToursRow -> bool
  {
    (row: ToursRow) => row.companyRef == companyId
  }

  /** The rows `DELETE FROM tours WHERE company_ref = ?` leaves. */
  function OfOtherCompanies(companyId: string): ToursRow -> bool
  {
    (row: ToursRow) => row.companyRef != companyId
  }

  /** The table a committed save leaves: the other companies' rows, then the
      company's new rows. */
  function Replaced(rows: seq<ToursRow>, companyId: string, tours: seq<TourInput>): seq<ToursRow>
  {
    Filter(rows, OfOtherCompanies(companyId)) + BuildRows(companyId, tours)
  }

  /** After a committed save the company's rows are exactly the rows built
      from the submitted tours, in order; an empty list leaves it none. */
  lemma {:induction false} SaveReplacesCompanyRows(rows: seq<ToursRow>, companyId: string, tours: seq<TourInput>)
    ensures Filter(Replaced(rows, companyId, tours), OfCompany(companyId)) == BuildRows(companyId, tours)
  {
    var others := Filter(rows, OfOtherCompanies(companyId));
    var built := BuildRows(companyId, tours);
    FilterConcat(others, built, OfCompany(companyId));
    forall i | 0 <= i < |others| ensures !OfCompany(companyId)(others[i]) {
      assert others[i] in others;
    }
    FilterKeepsNone(others, OfCompany(companyId));
    BuiltRowsOfCompany(companyId, tours);
    FilterKeepsAll(built, OfCompany(companyId));
  }

  /** Every other company's rows are left as they were, in order. */
  lemma {:induction false} SaveKeepsOtherCompanies(rows: seq<ToursRow>, companyId: string, tours: seq<TourInput>, other: string)
    requires other != companyId
    ensures Filter(Replaced(rows, companyId, tours), OfCompany(other)) == Filter(rows, OfCompany(other))
  {
    var built := BuildRows(companyId, tours);
    FilterConcat(Filter(rows, OfOtherCompanies(companyId)), built, OfCompany(other));
    BuiltRowsOfCompany(companyId, tours);
    FilterKeepsNone(built, OfCompany(other));
    FilterNarrower(rows, OfOtherCompanies(companyId), OfCompany(other));
  }

  /** Saving the same tours twice leaves the table as saving them once. */
  lemma {:induction false} SaveTwiceIsSaveOnce(rows: seq<ToursRow>, companyId: string, tours: seq<TourInput>)
    ensures Replaced(Replaced(rows, companyId, tours), companyId, tours) == Replaced(rows, companyId, tours)
  {
    var others := Filter(rows, OfOtherCompanies(companyId));
    var built := BuildRows(companyId, tours);
    FilterConcat(others, built, OfOtherCompanies(companyId));
    FilterTwice(rows, OfOtherCompanies(companyId));
    BuiltRowsOfCompany(companyId, tours);
    FilterKeepsNone(built, OfOtherCompanies(companyId));
    assert others + [] == others;
  }

  /** Every built row belongs to the company. */
  lemma BuiltRowsOfCompany(companyId: string, tours: seq<TourInput>)
    ensures forall i :: 0 <= i < |BuildRows(companyId, tours)| ==> BuildRows(companyId, tours)[i].companyRef == companyId
  {
  }

  /** The `tours` table, updated in place by the save route. */
  class ToursDb {
    var rows: seq<ToursRow>

    constructor(rows: seq<ToursRow>)
      ensures this.rows == rows
    {
      this.rows := rows;
    }

    /** POST /: 400 unless the body has a company id and a tours array;
        otherwise delete the company's rows, insert one row per tour (no
        insert for an empty list) and commit. `fault` names the query that
        fails, if any: a failing begin answers 500 with nothing done, any
        later failure rolls the table back and answers 500. */
    method SaveAll(request: SaveRequest, fault: Option<Query>) returns (response: Response)
      modifies this`rows
      ensures response == BadRequest <==> request.companyId == "" || !request.tours.List?
      ensures response.Saved? <==>
                request.companyId != "" && request.tours.List?
                && (fault.None? || (fault == Some(InsertQuery) && request.tours.items == []))
      ensures response.Saved? ==>
                response.savedCount == |request.tours.items|
                && rows == Replaced(old(rows), request.companyId, request.tours.items)
      ensures !response.Saved? ==> rows == old(rows)
    {
      if request.companyId == "" || !request.tours.List? {
        return BadRequest;
      }
      var companyId, tours := request.companyId, request.tours.items;
      if fault == Some(BeginQuery) {
        return ServerError;
      }
      var snapshot := rows;
      if fault == Some(DeleteQuery) {
        rows := snapshot;
        return ServerError;
      }
      rows := Filter(rows, OfOtherCompanies(companyId));
      if |tours| > 0 {
        if fault == Some(InsertQuery) {
          rows := snapshot;
          return ServerError;
        }
        rows := rows + BuildRows(companyId, tours);
      } else {
        assert BuildRows(companyId, tours) == [];
        rows := rows + [];
      }
      if fault == Some(CommitQuery) {
        rows := snapshot;
        return ServerError;
      }
      assert fault.Some? ==> fault.value.InsertQuery? && tours == [];
      response := Saved(|tours|);
    }
  }
}
