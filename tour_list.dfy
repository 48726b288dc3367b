/** The tour-list routes of the backend. A company's catalog is kept in three
    tables: `tourlist` (tour names), `regionslist` (regions) and `areaslist`
    (areas, each pointing at a region). The zoning areas (`bolgeler`) sit
    under one region named "Bölgelendirme". The save route replaces the
    company's catalog inside a transaction; the read route returns it, with
    the flat region-area join folded into one entry per region. */
module TourList {
  import opened Common

  /** The name of the region that holds a company's zoning areas. */
  const Zoning: string := "Bölgelendirme"

  datatype TourRow = TourRow(id: nat, name: string, companyId: string)
  datatype RegionRow = RegionRow(id: nat, name: string, companyId: string)
  datatype AreaRow = AreaRow(id: nat, name: string, regionId: nat, companyId: string)

  /** The three tables, in insertion order, and each table's next
      AUTO_INCREMENT id. */
  datatype Tables = Tables(
    tours: seq<TourRow>,
    regions: seq<RegionRow>,
    areas: seq<AreaRow>,
    nextTourId: nat,
    nextRegionId: nat,
    nextAreaId: nat)

  function RegionIdOf(r: RegionRow): nat { r.id }
  function AreaIdOf(a: AreaRow): nat { a.id }

  /** What the database guarantees: ids are positive, below their table's
      next id and distinct (primary keys), and an area's region id was
      issued by the regions table. */
  predicate Wf(t: Tables)
  {
    && 0 < t.nextTourId && 0 < t.nextRegionId && 0 < t.nextAreaId
    && (forall r :: r in t.tours ==> 0 < r.id < t.nextTourId)
    && (forall r :: r in t.regions ==> 0 < r.id < t.nextRegionId)
    && (forall a :: a in t.areas ==> 0 < a.id < t.nextAreaId && a.regionId < t.nextRegionId)
    && KeysDistinct(t.regions, RegionIdOf)
    && KeysDistinct(t.areas, AreaIdOf)
  }

  // ---------------------------------------------------------------------
  // POST /save
  // ---------------------------------------------------------------------

  /** An element of `tours` or `bolgeler` in the body: `{ name }`. */
  datatype Named = Named(name: string)

  /** An element of `regions` in the body; `areas` may be missing. */
  datatype RegionInput = RegionInput(name: string, areas: Option<seq<Named>>)

  /** The body of a save. A missing or empty `companyId` is ""; a missing
      list is None. */
  datatype SaveRequest = SaveRequest(
    companyId: string,
    tours: Option<seq<Named>>,
    bolgeler: Option<seq<Named>>,
    regions: Option<seq<RegionInput>>)

  /** 400, 200, or 500 after a rollback. */
  datatype SaveResponse = SaveBadRequest | SaveOk | SaveFailed

  function TourOf(companyId: string): TourRow -> bool
  {
    (r: TourRow) => r.companyId == companyId
  }

  function RegionOf(companyId: string): RegionRow -> bool
  {
    (r: RegionRow) => r.companyId == companyId
  }

  function AreaOf(companyId: string): AreaRow -> bool
  {
    (a: AreaRow) => a.companyId == companyId
  }

  /** The areas of one region. */
  function InRegion(regionId: nat): AreaRow -> bool
  {
    (a: AreaRow) => a.regionId == regionId
  }

  /** The tour rows `DELETE FROM tourlist WHERE company_id = ?` leaves. */
  function TourKept(companyId: string): TourRow -> bool
  {
    (r: TourRow) => r.companyId != companyId
  }

  /** `DELETE FROM tourlist WHERE company_id = ?`. */
  function DeleteTours(t: Tables, companyId: string): Tables
  {
    t.(tours := Filter(t.tours, TourKept(companyId)))
  }

  /** Whether the inner join finds a region with that id whose name is
      (`zoning`) or is not (`!zoning`) "Bölgelendirme". */
  predicate JoinsRegion(regions: seq<RegionRow>, regionId: nat, zoning: bool)
  {
    exists r :: r in regions && r.id == regionId && (r.name == Zoning) == zoning
  }

  /** The area rows `DELETE a FROM areaslist a INNER JOIN regionslist r ON
      a.region_id = r.id WHERE a.company_id = ? AND r.name = ?` leaves (with
      `!=` when `!zoning`). */
  function AreaKept(regions: seq<RegionRow>, companyId: string, zoning: bool): AreaRow -> bool
  {
    (a: AreaRow) => !(a.companyId == companyId && JoinsRegion(regions, a.regionId, zoning))
  }

  function DeleteAreas(t: Tables, companyId: string, zoning: bool): Tables
  {
    t.(areas := Filter(t.areas, AreaKept(t.regions, companyId, zoning)))
  }

  /** The region rows `DELETE FROM regionslist WHERE company_id = ? AND name
      = ?` leaves (with `!=` when `!zoning`). */
  function RegionKept(companyId: string, zoning: bool): RegionRow -> bool
  {
    (r: RegionRow) => !(r.companyId == companyId && (r.name == Zoning) == zoning)
  }

  function DeleteRegions(t: Tables, companyId: string, zoning: bool): Tables
  {
    t.(regions := Filter(t.regions, RegionKept(companyId, zoning)))
  }

  /** The five deletes, in the order the route issues them. */
  function Cleared(t: Tables, companyId: string): Tables
  {
    var t1 := DeleteTours(t, companyId);
    var t2 := DeleteAreas(t1, companyId, true);
    var t3 := DeleteRegions(t2, companyId, true);
    var t4 := DeleteAreas(t3, companyId, false);
    DeleteRegions(t4, companyId, false)
  }

  /** The rows of a multi-row insert into `tourlist`, with the ids it issues. */
  function TourRows(firstId: nat, items: seq<Named>, companyId: string): seq<TourRow>
  {
    seq(|items|, i requires 0 <= i < |items| => TourRow(firstId + i, items[i].name, companyId))
  }

  /** The rows of a multi-row insert into `areaslist` under one region. */
  function AreaRows(firstId: nat, items: seq<Named>, regionId: nat, companyId: string): seq<AreaRow>
  {
    seq(|items|, i requires 0 <= i < |items| => AreaRow(firstId + i, items[i].name, regionId, companyId))
  }

  /** The tours insert, issued only for a non-empty list. */
  function AddTours(t: Tables, companyId: string, items: seq<Named>): Tables
  {
    if |items| > 0 then
      t.(tours := t.tours + TourRows(t.nextTourId, items, companyId), nextTourId := t.nextTourId + |items|)
    else t
  }

  /** Insert one region, then (for a non-empty list) its areas under the id
      the region insert returned. */
  function AddRegionWithAreas(t: Tables, companyId: string, name: string, items: seq<Named>): Tables
  {
    var regionId := t.nextRegionId;
    var t1 := t.(regions := t.regions + [RegionRow(regionId, name, companyId)], nextRegionId := regionId + 1);
    if |items| > 0 then
      t1.(areas := t1.areas + AreaRows(t1.nextAreaId, items, regionId, companyId), nextAreaId := t1.nextAreaId + |items|)
    else t1
  }

  /** The zoning region and its areas, created only for a non-empty list. */
  function AddZoning(t: Tables, companyId: string, items: seq<Named>): Tables
  {
    if |items| > 0 then AddRegionWithAreas(t, companyId, Zoning, items) else t
  }

  /** One pass of the loop over `regions`: a region named "Bölgelendirme" is
      skipped. */
  function AddRegion(t: Tables, companyId: string, input: RegionInput): Tables
  {
    if input.name == Zoning then t
    else AddRegionWithAreas(t, companyId, input.name, ListOrEmpty(input.areas))
  }

  /** The loop over `regions`, as far as the given prefix. */
  function AddRegions(t: Tables, companyId: string, inputs: seq<RegionInput>): Tables
    decreases |inputs|
  {
    if inputs == [] then t
    else AddRegion(AddRegions(t, companyId, inputs[..|inputs| - 1]), companyId, inputs[|inputs| - 1])
  }

  /** The tables a committed save leaves. */
  function Committed(t: Tables, request: SaveRequest): Tables
  {
    var c := request.companyId;
    var t1 := AddTours(Cleared(t, c), c, ListOrEmpty(request.tours));
    AddRegions(AddZoning(t1, c, ListOrEmpty(request.bolgeler)), c, ListOrEmpty(request.regions))
  }

  /** The number of queries the loop over `regions` issues. */
  function RegionQueries(inputs: seq<RegionInput>): nat
    decreases |inputs|
  {
    if inputs == [] then 0
    else
      var last := inputs[|inputs| - 1];
      RegionQueries(inputs[..|inputs| - 1])
      + if last.name == Zoning then 0 else RegionCost(ListOrEmpty(last.areas))
  }

  /** The queries one region costs: its insert, and its areas' insert when
      it has areas. */
  function RegionCost(items: seq<Named>): nat
  {
    if |items| > 0 then 2 else 1
  }

  /** The query numbered `fault` is one of those numbered `lo` to `hi - 1`. */
  predicate FaultIn(fault: Option<nat>, lo: nat, hi: nat)
  {
    fault.Some? && lo <= fault.value < hi
  }

  /** The number of queries a save issues: begin, five deletes, the inserts
      and commit. A fault numbered at least this high never happens. */
  function QueryCount(request: SaveRequest): nat
  {
    1 + 5
    + (if |ListOrEmpty(request.tours)| > 0 then 1 else 0)
    + (if |ListOrEmpty(request.bolgeler)| > 0 then 2 else 0)
    + RegionQueries(ListOrEmpty(request.regions))
    + 1
  }

  /** A prefix of the loop issues no more queries than the whole loop. */
  lemma {:induction false} RegionQueriesOfPrefix(inputs: seq<RegionInput>, n: nat)
    requires n <= |inputs|
    ensures RegionQueries(inputs[..n]) <= RegionQueries(inputs)
    decreases |inputs|
  {
    if n < |inputs| {
      assert inputs[..|inputs| - 1][..n] == inputs[..n];
      RegionQueriesOfPrefix(inputs[..|inputs| - 1], n);
    } else {
      assert inputs[..n] == inputs;
    }
  }

  /** One more pass of the loop over `regions`: its tables and its query
      count. */
  lemma LoopPass(t: Tables, companyId: string, inputs: seq<RegionInput>, i: nat)
    requires i < |inputs|
    ensures AddRegions(t, companyId, inputs[..i + 1]) == AddRegion(AddRegions(t, companyId, inputs[..i]), companyId, inputs[i])
    ensures RegionQueries(inputs[..i + 1])
            == RegionQueries(inputs[..i]) + if inputs[i].name == Zoning then 0 else RegionCost(ListOrEmpty(inputs[i].areas))
    ensures RegionQueries(inputs[..i + 1]) <= RegionQueries(inputs)
  {
    assert inputs[..i + 1][..i] == inputs[..i];
    RegionQueriesOfPrefix(inputs, i + 1);
  }

  // ---------------------------------------------------------------------
  // What a committed save leaves
  // ---------------------------------------------------------------------

  /** Deleting rows keeps the tables well formed. */
  lemma WfCleared(t: Tables, companyId: string)
    requires Wf(t)
    ensures Wf(Cleared(t, companyId))
  {
    var t1 := DeleteTours(t, companyId);
    var t2 := DeleteAreas(t1, companyId, true);
    var t3 := DeleteRegions(t2, companyId, true);
    var t4 := DeleteAreas(t3, companyId, false);
    FilterKeepsKeysDistinct(t1.areas, AreaKept(t1.regions, companyId, true), AreaIdOf);
    FilterKeepsKeysDistinct(t2.regions, RegionKept(companyId, true), RegionIdOf);
    FilterKeepsKeysDistinct(t3.areas, AreaKept(t3.regions, companyId, false), AreaIdOf);
    FilterKeepsKeysDistinct(t4.regions, RegionKept(companyId, false), RegionIdOf);
  }

  /** Inserting tours keeps the tables well formed. */
  lemma WfAddTours(t: Tables, companyId: string, items: seq<Named>)
    requires Wf(t)
    ensures Wf(AddTours(t, companyId, items))
  {
  }

  /** Inserting a region and its areas keeps the tables well formed. */
  lemma WfAddRegionWithAreas(t: Tables, companyId: string, name: string, items: seq<Named>)
    requires Wf(t)
    ensures Wf(AddRegionWithAreas(t, companyId, name, items))
  {
    var regionId := t.nextRegionId;
    var added := [RegionRow(regionId, name, companyId)];
    forall i, j | 0 <= i < |t.regions| && 0 <= j < |added| ensures RegionIdOf(t.regions[i]) != RegionIdOf(added[j]) {
      assert t.regions[i] in t.regions;
    }
    KeysDistinctConcat(t.regions, added, RegionIdOf);
    var rows := AreaRows(t.nextAreaId, items, regionId, companyId);
    forall i, j | 0 <= i < |t.areas| && 0 <= j < |rows| ensures AreaIdOf(t.areas[i]) != AreaIdOf(rows[j]) {
      assert t.areas[i] in t.areas;
    }
    KeysDistinctConcat(t.areas, rows, AreaIdOf);
  }

  /** The loop over `regions` keeps the tables well formed. */
  lemma {:induction false} WfAddRegions(t: Tables, companyId: string, inputs: seq<RegionInput>)
    requires Wf(t)
    ensures Wf(AddRegions(t, companyId, inputs))
    decreases |inputs|
  {
    if inputs != [] {
      var before := AddRegions(t, companyId, inputs[..|inputs| - 1]);
      WfAddRegions(t, companyId, inputs[..|inputs| - 1]);
      var last := inputs[|inputs| - 1];
      if last.name != Zoning {
        WfAddRegionWithAreas(before, companyId, last.name, ListOrEmpty(last.areas));
      }
    }
  }

  /** A committed save keeps the tables well formed. */
  lemma WfCommitted(t: Tables, request: SaveRequest)
    requires Wf(t)
    ensures Wf(Committed(t, request))
  {
    var c := request.companyId;
    WfCleared(t, c);
    var t1 := AddTours(Cleared(t, c), c, ListOrEmpty(request.tours));
    WfAddTours(Cleared(t, c), c, ListOrEmpty(request.tours));
    var bolgeler := ListOrEmpty(request.bolgeler);
    if |bolgeler| > 0 {
      WfAddRegionWithAreas(t1, c, Zoning, bolgeler);
    }
    WfAddRegions(AddZoning(t1, c, bolgeler), c, ListOrEmpty(request.regions));
  }

  function TourNames(rows: seq<TourRow>): seq<string>
  {
    seq(|rows|, i requires 0 <= i < |rows| => rows[i].name)
  }

  function ItemNames(items: seq<Named>): seq<string>
  {
    seq(|items|, i requires 0 <= i < |items| => items[i].name)
  }

  function AreaNames(areas: seq<AreaRow>): seq<string>
  {
    seq(|areas|, i requires 0 <= i < |areas| => areas[i].name)
  }

  /** A company's regions in table order, each with the names of its areas. */
  function Catalog(t: Tables, companyId: string): seq<(string, seq<string>)>
  {
    Entries(Filter(t.regions, RegionOf(companyId)), t.areas)
  }

  /** Each region of `rs` with the names of its areas in `areas`. */
  function Entries(rs: seq<RegionRow>, areas: seq<AreaRow>): seq<(string, seq<string>)>
  {
    seq(|rs|, i requires 0 <= i < |rs| => (rs[i].name, AreaNames(Filter(areas, InRegion(rs[i].id)))))
  }

  /** Appending a region, and areas that all belong to it, to tables where
      its id is new appends one entry. */
  lemma EntriesOfAppended(rs: seq<RegionRow>, areas: seq<AreaRow>, r: RegionRow, rows: seq<AreaRow>)
    requires forall x :: x in rs ==> x.id != r.id
    requires forall a :: a in areas ==> a.regionId != r.id
    requires forall a :: a in rows ==> a.regionId == r.id
    ensures Entries(rs + [r], areas + rows) == Entries(rs, areas) + [(r.name, AreaNames(rows))]
  {
    forall i | 0 <= i < |rs| ensures Filter(areas + rows, InRegion(rs[i].id)) == Filter(areas, InRegion(rs[i].id)) {
      assert rs[i] in rs;
      OtherRegionAreas(areas, rows, rs[i].id, r.id);
    }
    NewRegionAreas(areas, rows, r.id);
    var lhs := Entries(rs + [r], areas + rows);
    var rhs := Entries(rs, areas) + [(r.name, AreaNames(rows))];
    forall i | 0 <= i < |lhs| ensures lhs[i] == rhs[i] {
      if i < |rs| {
        assert (rs + [r])[i] == rs[i];
      } else {
        assert (rs + [r])[i] == r;
      }
    }
  }

  /** Areas appended to another region leave a region's areas as they were. */
  lemma OtherRegionAreas(areas: seq<AreaRow>, rows: seq<AreaRow>, regionId: nat, newId: nat)
    requires regionId != newId
    requires forall a :: a in rows ==> a.regionId == newId
    ensures Filter(areas + rows, InRegion(regionId)) == Filter(areas, InRegion(regionId))
  {
    FilterIgnoresRejected(areas, areas + rows, InRegion(regionId));
  }

  /** A region no earlier area points at has exactly the areas appended to it. */
  lemma NewRegionAreas(areas: seq<AreaRow>, rows: seq<AreaRow>, regionId: nat)
    requires forall a :: a in areas ==> a.regionId != regionId
    requires forall a :: a in rows ==> a.regionId == regionId
    ensures Filter(areas + rows, InRegion(regionId)) == rows
  {
    forall i | 0 <= i < |areas| ensures !InRegion(regionId)(areas[i]) {
      assert areas[i] in areas;
    }
    FilterKeepsNone(areas, InRegion(regionId));
    FilterConcat(areas, rows, InRegion(regionId));
    forall i | 0 <= i < |rows| ensures InRegion(regionId)(rows[i]) {
      assert rows[i] in rows;
    }
    FilterKeepsAll(rows, InRegion(regionId));
    assert [] + rows == rows;
  }

  /** The regions the loop over `regions` creates, each with its area names.
      None of them is named "Bölgelendirme". */
  function ExpectedRegions(inputs: seq<RegionInput>): (r: seq<(string, seq<string>)>)
    ensures |r| <= |inputs|
    ensures forall i :: 0 <= i < |r| ==> r[i].0 != Zoning
    decreases |inputs|
  {
    if inputs == [] then []
    else
      var before := ExpectedRegions(inputs[..|inputs| - 1]);
      var last := inputs[|inputs| - 1];
      if last.name == Zoning then before
      else before + [(last.name, ItemNames(ListOrEmpty(last.areas)))]
  }

  /** The catalog a save asks for: the zoning region with one area per
      `bolgeler` entry when that list is not empty, then the non-skipped
      regions of `regions` with their areas. */
  function ExpectedCatalog(request: SaveRequest): seq<(string, seq<string>)>
  {
    var bolgeler := ListOrEmpty(request.bolgeler);
    (if |bolgeler| > 0 then [(Zoning, ItemNames(bolgeler))] else [])
    + ExpectedRegions(ListOrEmpty(request.regions))
  }

  /** The deletes leave the company no tour and no region. */
  lemma ClearedLeavesNothing(t: Tables, companyId: string)
    ensures Filter(Cleared(t, companyId).tours, TourOf(companyId)) == []
    ensures Filter(Cleared(t, companyId).regions, RegionOf(companyId)) == []
  {
    var t1 := DeleteTours(t, companyId);
    var t2 := DeleteAreas(t1, companyId, true);
    var t3 := DeleteRegions(t2, companyId, true);
    var t4 := DeleteAreas(t3, companyId, false);
    var t5 := DeleteRegions(t4, companyId, false);
    forall i | 0 <= i < |t1.tours| ensures !TourOf(companyId)(t1.tours[i]) {
      assert t1.tours[i] in t1.tours;
    }
    FilterKeepsNone(t1.tours, TourOf(companyId));
    forall i | 0 <= i < |t5.regions| ensures !RegionOf(companyId)(t5.regions[i]) {
      assert t5.regions[i] in t5.regions;
      assert t5.regions[i] in t3.regions;
    }
    FilterKeepsNone(t5.regions, RegionOf(companyId));
  }

  /** A region row of the company appended to the table is the company's
      last region. */
  lemma CompanyRegionAppended(regions: seq<RegionRow>, added: RegionRow, companyId: string)
    requires added.companyId == companyId
    ensures Filter(regions + [added], RegionOf(companyId)) == Filter(regions, RegionOf(companyId)) + [added]
  {
    FilterConcat(regions, [added], RegionOf(companyId));
    assert Filter([added], RegionOf(companyId)) == [added];
  }

  /** The area rows of one insert belong to its region and carry its names. */
  lemma AreaRowsOfRegion(firstId: nat, items: seq<Named>, regionId: nat, companyId: string)
    ensures forall a :: a in AreaRows(firstId, items, regionId, companyId) ==> a.regionId == regionId
    ensures AreaNames(AreaRows(firstId, items, regionId, companyId)) == ItemNames(items)
  {
  }

  /** Inserting one region with its areas adds exactly that region, with
      exactly those areas, at the end of the company's catalog. */
  lemma CatalogOfAddedRegion(t: Tables, companyId: string, name: string, items: seq<Named>)
    requires forall r :: r in t.regions ==> r.id < t.nextRegionId
    requires forall a :: a in t.areas ==> a.regionId < t.nextRegionId
    ensures Catalog(AddRegionWithAreas(t, companyId, name, items), companyId)
            == Catalog(t, companyId) + [(name, ItemNames(items))]
  {
    var k := t.nextRegionId;
    var added := RegionRow(k, name, companyId);
    var rows := if |items| > 0 then AreaRows(t.nextAreaId, items, k, companyId) else [];
    var t2 := AddRegionWithAreas(t, companyId, name, items);
    assert t2.regions == t.regions + [added];
    assert t2.areas == t.areas + rows;
    CompanyRegionAppended(t.regions, added, companyId);
    AreaRowsOfRegion(t.nextAreaId, items, k, companyId);
    EntriesOfAppended(Filter(t.regions, RegionOf(companyId)), t.areas, added, rows);
  }

  /** The loop over `regions` appends, in order, one catalog entry per
      region not named "Bölgelendirme", with that region's areas. */
  lemma {:induction false} CatalogOfAddedRegions(t: Tables, companyId: string, inputs: seq<RegionInput>)
    requires Wf(t)
    ensures Catalog(AddRegions(t, companyId, inputs), companyId) == Catalog(t, companyId) + ExpectedRegions(inputs)
    decreases |inputs|
  {
    if inputs == [] {
      assert Catalog(t, companyId) + [] == Catalog(t, companyId);
    } else {
      var front := inputs[..|inputs| - 1];
      var last := inputs[|inputs| - 1];
      CatalogOfAddedRegions(t, companyId, front);
      if last.name != Zoning {
        WfAddRegions(t, companyId, front);
        CatalogOfAddedRegion(AddRegions(t, companyId, front), companyId, last.name, ListOrEmpty(last.areas));
      }
    }
  }

  /** After a committed save the company's tour rows carry exactly the
      submitted names, in order, and no earlier row survives. */
  lemma SaveReplacesTours(t: Tables, request: SaveRequest)
    ensures TourNames(Filter(Committed(t, request).tours, TourOf(request.companyId)))
            == ItemNames(ListOrEmpty(request.tours))
  {
    var c := request.companyId;
    var items := ListOrEmpty(request.tours);
    var t0 := Cleared(t, c);
    ClearedLeavesNothing(t, c);
    var t1 := AddTours(t0, c, items);
    CompanyToursAdded(t0, c, items);
    CommittedTours(t, request, t1);
  }

  /** The tours insert gives the company one row per name, after its
      existing rows. */
  lemma CompanyToursAdded(t: Tables, companyId: string, items: seq<Named>)
    ensures TourNames(Filter(AddTours(t, companyId, items).tours, TourOf(companyId)))
            == TourNames(Filter(t.tours, TourOf(companyId))) + ItemNames(items)
  {
    var before := Filter(t.tours, TourOf(companyId));
    if |items| > 0 {
      var rows := TourRows(t.nextTourId, items, companyId);
      assert AddTours(t, companyId, items).tours == t.tours + rows;
      FilterConcat(t.tours, rows, TourOf(companyId));
      FilterKeepsAll(rows, TourOf(companyId));
      TourNamesOfConcat(before, rows);
      assert TourNames(rows) == ItemNames(items);
    } else {
      assert ItemNames(items) == [];
      assert TourNames(before) + [] == TourNames(before);
    }
  }

  lemma TourNamesOfConcat(a: seq<TourRow>, b: seq<TourRow>)
    ensures TourNames(a + b) == TourNames(a) + TourNames(b)
  {
  }

  /** Only the tours insert changes `tourlist` after the deletes. */
  lemma CommittedTours(t: Tables, request: SaveRequest, t1: Tables)
    requires t1 == AddTours(Cleared(t, request.companyId), request.companyId, ListOrEmpty(request.tours))
    ensures Committed(t, request).tours == t1.tours
  {
    var c := request.companyId;
    AddRegionsKeepTours(AddZoning(t1, c, ListOrEmpty(request.bolgeler)), c, ListOrEmpty(request.regions));
  }

  /** The loop over `regions` does not touch `tourlist`. */
  lemma {:induction false} AddRegionsKeepTours(t: Tables, companyId: string, inputs: seq<RegionInput>)
    ensures AddRegions(t, companyId, inputs).tours == t.tours
    decreases |inputs|
  {
    if inputs != [] {
      AddRegionsKeepTours(t, companyId, inputs[..|inputs| - 1]);
    }
  }

  /** After a committed save the company's regions are, in order, the zoning
      region (only when `bolgeler` is not empty, holding one area per entry)
      and then each submitted region not named "Bölgelendirme", each with
      exactly its submitted areas: every region is inserted once, with its
      areas under its own new id. */
  lemma SaveRebuildsCatalog(t: Tables, request: SaveRequest)
    requires Wf(t)
    ensures Catalog(Committed(t, request), request.companyId) == ExpectedCatalog(request)
  {
    var c := request.companyId;
    var t0 := Cleared(t, c);
    ClearedLeavesNothing(t, c);
    WfCleared(t, c);
    var t1 := AddTours(t0, c, ListOrEmpty(request.tours));
    WfAddTours(t0, c, ListOrEmpty(request.tours));
    assert Catalog(t1, c) == [];
    var bolgeler := ListOrEmpty(request.bolgeler);
    var t2 := AddZoning(t1, c, bolgeler);
    if |bolgeler| > 0 {
      CatalogOfAddedRegion(t1, c, Zoning, bolgeler);
      WfAddRegionWithAreas(t1, c, Zoning, bolgeler);
    }
    assert Catalog(t2, c) == if |bolgeler| > 0 then [(Zoning, ItemNames(bolgeler))] else [];
    CatalogOfAddedRegions(t2, c, ListOrEmpty(request.regions));
  }

  /** `v` is `u` with rows of `companyId` appended to each table. */
  predicate AppendsFor(u: Tables, v: Tables, companyId: string)
  {
    && |u.tours| <= |v.tours| && v.tours[..|u.tours|] == u.tours
    && (forall r :: r in v.tours[|u.tours|..] ==> r.companyId == companyId)
    && |u.regions| <= |v.regions| && v.regions[..|u.regions|] == u.regions
    && (forall r :: r in v.regions[|u.regions|..] ==> r.companyId == companyId)
    && |u.areas| <= |v.areas| && v.areas[..|u.areas|] == u.areas
    && (forall a :: a in v.areas[|u.areas|..] ==> a.companyId == companyId)
  }

  lemma AppendsForTransitive(u: Tables, v: Tables, w: Tables, companyId: string)
    requires AppendsFor(u, v, companyId) && AppendsFor(v, w, companyId)
    ensures AppendsFor(u, w, companyId)
  {
    assert w.tours[|u.tours|..] == v.tours[|u.tours|..] + w.tours[|v.tours|..];
    assert w.regions[|u.regions|..] == v.regions[|u.regions|..] + w.regions[|v.regions|..];
    assert w.areas[|u.areas|..] == v.areas[|u.areas|..] + w.areas[|v.areas|..];
  }

  /** The inserts after the deletes only append rows of the company. */
  lemma InsertsAppend(t: Tables, request: SaveRequest)
    ensures AppendsFor(Cleared(t, request.companyId), Committed(t, request), request.companyId)
  {
    InsertsAppendTo(Cleared(t, request.companyId), request);
  }

  lemma InsertsAppendTo(t0: Tables, request: SaveRequest)
    ensures var c := request.companyId;
            AppendsFor(t0, AddRegions(AddZoning(AddTours(t0, c, ListOrEmpty(request.tours)), c, ListOrEmpty(request.bolgeler)),
                                      c, ListOrEmpty(request.regions)), c)
  {
    var c := request.companyId;
    var t1 := AddTours(t0, c, ListOrEmpty(request.tours));
    var t2 := AddZoning(t1, c, ListOrEmpty(request.bolgeler));
    assert AppendsFor(t0, t1, c);
    if |ListOrEmpty(request.bolgeler)| > 0 {
      AddRegionWithAreasAppends(t1, c, Zoning, ListOrEmpty(request.bolgeler));
    }
    AppendsForTransitive(t0, t1, t2, c);
    AddRegionsAppend(t2, c, ListOrEmpty(request.regions));
    AppendsForTransitive(t0, t2, AddRegions(t2, c, ListOrEmpty(request.regions)), c);
  }

  lemma AddRegionWithAreasAppends(t: Tables, companyId: string, name: string, items: seq<Named>)
    ensures AppendsFor(t, AddRegionWithAreas(t, companyId, name, items), companyId)
  {
  }

  lemma {:induction false} AddRegionsAppend(t: Tables, companyId: string, inputs: seq<RegionInput>)
    ensures AppendsFor(t, AddRegions(t, companyId, inputs), companyId)
    decreases |inputs|
  {
    if inputs == [] {
      assert AppendsFor(t, t, companyId);
    } else {
      var before := AddRegions(t, companyId, inputs[..|inputs| - 1]);
      AddRegionsAppend(t, companyId, inputs[..|inputs| - 1]);
      var last := inputs[|inputs| - 1];
      if last.name != Zoning {
        AddRegionWithAreasAppends(before, companyId, last.name, ListOrEmpty(last.areas));
        AppendsForTransitive(t, before, AddRegions(t, companyId, inputs), companyId);
      }
    }
  }

  /** Rows of one company appended to the tables leave every other
      company's rows as they were. */
  lemma AppendKeepsOthers(u: Tables, v: Tables, companyId: string, other: string)
    requires AppendsFor(u, v, companyId) && other != companyId
    ensures Filter(v.tours, TourOf(other)) == Filter(u.tours, TourOf(other))
    ensures Filter(v.regions, RegionOf(other)) == Filter(u.regions, RegionOf(other))
    ensures Filter(v.areas, AreaOf(other)) == Filter(u.areas, AreaOf(other))
  {
    FilterIgnoresRejected(u.tours, v.tours, TourOf(other));
    FilterIgnoresRejected(u.regions, v.regions, RegionOf(other));
    FilterIgnoresRejected(u.areas, v.areas, AreaOf(other));
  }

  /** The deletes only remove rows of the company. */
  lemma ClearedKeepsOthers(t: Tables, companyId: string, other: string)
    requires other != companyId
    ensures Filter(Cleared(t, companyId).tours, TourOf(other)) == Filter(t.tours, TourOf(other))
    ensures Filter(Cleared(t, companyId).regions, RegionOf(other)) == Filter(t.regions, RegionOf(other))
    ensures Filter(Cleared(t, companyId).areas, AreaOf(other)) == Filter(t.areas, AreaOf(other))
  {
    var t1 := DeleteTours(t, companyId);
    var t2 := DeleteAreas(t1, companyId, true);
    var t3 := DeleteRegions(t2, companyId, true);
    var t4 := DeleteAreas(t3, companyId, false);
    FilterNarrower(t.tours, TourKept(companyId), TourOf(other));
    FilterNarrower(t1.areas, AreaKept(t1.regions, companyId, true), AreaOf(other));
    FilterNarrower(t3.areas, AreaKept(t3.regions, companyId, false), AreaOf(other));
    FilterNarrower(t2.regions, RegionKept(companyId, true), RegionOf(other));
    FilterNarrower(t4.regions, RegionKept(companyId, false), RegionOf(other));
  }

  /** A save touches no other company's tours, regions or areas. */
  lemma SaveKeepsOtherCompanies(t: Tables, request: SaveRequest, other: string)
    requires other != request.companyId
    ensures Filter(Committed(t, request).tours, TourOf(other)) == Filter(t.tours, TourOf(other))
    ensures Filter(Committed(t, request).regions, RegionOf(other)) == Filter(t.regions, RegionOf(other))
    ensures Filter(Committed(t, request).areas, AreaOf(other)) == Filter(t.areas, AreaOf(other))
  {
    InsertsAppend(t, request);
    AppendKeepsOthers(Cleared(t, request.companyId), Committed(t, request), request.companyId, other);
    ClearedKeepsOthers(t, request.companyId, other);
  }

  // ---------------------------------------------------------------------
  // GET /:companyId
  // ---------------------------------------------------------------------

  /** `{ id, name }`: a tour, a zoning area, or an area of a region. */
  datatype Item = Item(id: nat, name: string)

  /** A row of the regions query: the region's id and name, and the joined
      area's id and name, None where the LEFT JOIN found no area. */
  datatype JoinRow = JoinRow(id: nat, name: string, area: Option<Item>)

  /** An entry of the grouped regions: `{ id, name, areas }`. */
  datatype RegionGroup = RegionGroup(id: nat, name: string, areas: seq<Item>)

  /** `curr.area_id` is truthy: the row has an area, and its id is not 0. */
  predicate HasArea(row: JoinRow)
  {
    row.area.Some? && row.area.value.id != 0
  }

  function SameRegion(id: nat): RegionGroup -> bool
  {
    (g: RegionGroup) => g.id == id
  }

  function SameArea(id: nat): Item -> bool
  {
    (a: Item) => a.id == id
  }

  /** The group a row opens: its region, with its area when it has one. */
  function Opened(row: JoinRow): RegionGroup
  {
    RegionGroup(row.id, row.name, if HasArea(row) then [row.area.value] else [])
  }

  /** One call of the reducer: a row of a region not seen yet opens a group;
      otherwise its area is added to that region's group unless it has no
      area or the group already holds an area with that id. */
  function Step(acc: seq<RegionGroup>, row: JoinRow): seq<RegionGroup>
  {
    var k := FindIndex(acc, SameRegion(row.id));
    if k.None? then acc + [Opened(row)]
    else if HasArea(row) && FindIndex(acc[k.value].areas, SameArea(row.area.value.id)).None? then
      acc[k.value := acc[k.value].(areas := acc[k.value].areas + [row.area.value])]
    else acc
  }

  /** `rows.reduce(step, acc)`. */
  function GroupFrom(acc: seq<RegionGroup>, rows: seq<JoinRow>): seq<RegionGroup>
    decreases |rows|
  {
    if rows == [] then acc else GroupFrom(Step(acc, rows[0]), rows[1..])
  }

  /** `rows.reduce(step, [])`. */
  function Group(rows: seq<JoinRow>): seq<RegionGroup>
  {
    GroupFrom([], rows)
  }

  /** The reduce at the heart of the read route, as the loop it runs: the
      accumulator is updated in place, by push or by adding an area. */
  method GroupRegions(rows: seq<JoinRow>) returns (groups: seq<RegionGroup>)
    ensures groups == Group(rows)
  {
    groups := [];
    var i := 0;
    while i < |rows|
      invariant 0 <= i <= |rows|
      invariant GroupFrom(groups, rows[i..]) == Group(rows)
    {
      var row := rows[i];
      var k := FindIndex(groups, SameRegion(row.id));
      if k.None? {
        groups := groups + [Opened(row)];
      } else if HasArea(row) && FindIndex(groups[k.value].areas, SameArea(row.area.value.id)).None? {
        var region := groups[k.value];
        groups := groups[k.value := region.(areas := region.areas + [row.area.value])];
      }
      assert rows[i..][1..] == rows[i + 1..];
      i := i + 1;
    }
  }

  function GroupIds(groups: seq<RegionGroup>): seq<nat>
  {
    seq(|groups|, i requires 0 <= i < |groups| => groups[i].id)
  }

  function RowIds(rows: seq<JoinRow>): seq<nat>
  {
    seq(|rows|, i requires 0 <= i < |rows| => rows[i].id)
  }

  predicate Distinct(s: seq<nat>)
  {
    forall i, j :: 0 <= i < j < |s| ==> s[i] != s[j]
  }

  /** `seen` followed by the elements of `s` not seen before, each at its
      first appearance. */
  function DedupOnto(seen: seq<nat>, s: seq<nat>): (r: seq<nat>)
    requires Distinct(seen)
    ensures Distinct(r)
    ensures |seen| <= |r| && r[..|seen|] == seen
    ensures forall x :: x in r <==> x in seen || x in s
    decreases |s|
  {
    if s == [] then seen
    else if s[0] in seen then DedupOnto(seen, s[1..])
    else DedupOnto(seen + [s[0]], s[1..])
  }

  /** The distinct elements of `s` in order of first appearance. */
  function Dedup(s: seq<nat>): (r: seq<nat>)
    ensures Distinct(r)
    ensures forall x :: x in r <==> x in s
  {
    DedupOnto([], s)
  }

  /** A step leaves the ids of the groups as they were, adding the row's
      region id at the end when it is new. */
  lemma StepIds(acc: seq<RegionGroup>, row: JoinRow)
    ensures GroupIds(Step(acc, row)) == if row.id in GroupIds(acc) then GroupIds(acc) else GroupIds(acc) + [row.id]
  {
    var k := FindIndex(acc, SameRegion(row.id));
    if k.None? {
      assert row.id !in GroupIds(acc);
    } else {
      assert GroupIds(acc)[k.value] == row.id;
    }
  }

  lemma {:induction false} GroupFromIds(acc: seq<RegionGroup>, rows: seq<JoinRow>)
    requires Distinct(GroupIds(acc))
    ensures GroupIds(GroupFrom(acc, rows)) == DedupOnto(GroupIds(acc), RowIds(rows))
    decreases |rows|
  {
    if rows != [] {
      StepIds(acc, rows[0]);
      assert RowIds(rows)[0] == rows[0].id;
      assert RowIds(rows)[1..] == RowIds(rows[1..]);
      GroupFromIds(Step(acc, rows[0]), rows[1..]);
    }
  }

  /** The reduce yields one group per distinct region id of the rows, in
      order of first appearance. */
  lemma GroupOnePerRegion(rows: seq<JoinRow>)
    ensures GroupIds(Group(rows)) == Dedup(RowIds(rows))
  {
    GroupFromIds([], rows);
  }

  function ItemIdOf(a: Item): nat { a.id }

  /** Every group's areas have distinct ids. */
  predicate AreasDistinct(groups: seq<RegionGroup>)
  {
    forall k :: 0 <= k < |groups| ==> KeysDistinct(groups[k].areas, ItemIdOf)
  }

  lemma StepAreasDistinct(acc: seq<RegionGroup>, row: JoinRow)
    requires AreasDistinct(acc)
    ensures AreasDistinct(Step(acc, row))
  {
    var k := FindIndex(acc, SameRegion(row.id));
    if k.Some? && HasArea(row) && FindIndex(acc[k.value].areas, SameArea(row.area.value.id)).None? {
      KeysDistinctConcat(acc[k.value].areas, [row.area.value], ItemIdOf);
    }
  }

  lemma {:induction false} GroupFromAreasDistinct(acc: seq<RegionGroup>, rows: seq<JoinRow>)
    requires AreasDistinct(acc)
    ensures AreasDistinct(GroupFrom(acc, rows))
    decreases |rows|
  {
    if rows != [] {
      StepAreasDistinct(acc, rows[0]);
      GroupFromAreasDistinct(Step(acc, rows[0]), rows[1..]);
    }
  }

  /** Within a grouped region, area ids are distinct. */
  lemma GroupAreasDistinct(rows: seq<JoinRow>)
    ensures AreasDistinct(Group(rows))
  {
    GroupFromAreasDistinct([], rows);
  }

  /** Every area of every group comes from a row of that region with a
      truthy area id. */
  predicate AreasFromRows(groups: seq<RegionGroup>, rows: seq<JoinRow>)
  {
    forall k, j :: 0 <= k < |groups| && 0 <= j < |groups[k].areas| ==> AreaFromRows(groups[k].id, groups[k].areas[j], rows)
  }

  /** Some row of region `id` has a truthy area id and carries area `a`. */
  predicate AreaFromRows(id: nat, a: Item, rows: seq<JoinRow>)
  {
    exists row :: row in rows && row.id == id && HasArea(row) && row.area == Some(a)
  }

  lemma StepAreasFromRows(acc: seq<RegionGroup>, done: seq<JoinRow>, row: JoinRow)
    requires AreasFromRows(acc, done)
    ensures AreasFromRows(Step(acc, row), done + [row])
  {
    var r := Step(acc, row);
    var k := FindIndex(acc, SameRegion(row.id));
    assert row in done + [row];
    forall g, j | 0 <= g < |r| && 0 <= j < |r[g].areas| ensures AreaFromRows(r[g].id, r[g].areas[j], done + [row]) {
      if g < |acc| && j < |acc[g].areas| && r[g].id == acc[g].id && r[g].areas[j] == acc[g].areas[j] {
        assert AreaFromRows(acc[g].id, acc[g].areas[j], done);
        var x :| x in done && x.id == acc[g].id && HasArea(x) && x.area == Some(acc[g].areas[j]);
        assert x in done + [row];
      } else if k.None? {
        assert g == |acc| && r[g] == Opened(row);
      } else {
        assert g == k.value && r[g].areas[j] == row.area.value;
      }
    }
  }

  lemma {:induction false} GroupFromAreasFromRows(acc: seq<RegionGroup>, done: seq<JoinRow>, rows: seq<JoinRow>)
    requires AreasFromRows(acc, done)
    ensures AreasFromRows(GroupFrom(acc, rows), done + rows)
    decreases |rows|
  {
    if rows == [] {
      assert done + rows == done;
    } else {
      StepAreasFromRows(acc, done, rows[0]);
      assert (done + [rows[0]]) + rows[1..] == done + rows;
      GroupFromAreasFromRows(Step(acc, rows[0]), done + [rows[0]], rows[1..]);
    }
  }

  /** Nothing is invented: every area in a grouped region is the area of a
      row of that region with a truthy area id, so a row without one adds
      no area. */
  lemma GroupInventsNoArea(rows: seq<JoinRow>)
    ensures AreasFromRows(Group(rows), rows)
  {
    GroupFromAreasFromRows([], [], rows);
    assert [] + rows == rows;
  }

  /** The row's region has a group holding an area with the row's area id. */
  predicate Covered(groups: seq<RegionGroup>, row: JoinRow)
    requires HasArea(row)
  {
    exists k, a :: 0 <= k < |groups| && a in groups[k].areas && groups[k].id == row.id && a.id == row.area.value.id
  }

  lemma StepKeepsCovered(acc: seq<RegionGroup>, row: JoinRow, old_row: JoinRow)
    requires HasArea(old_row) && Covered(acc, old_row)
    ensures Covered(Step(acc, row), old_row)
  {
    var k, a :| 0 <= k < |acc| && a in acc[k].areas && acc[k].id == old_row.id && a.id == old_row.area.value.id;
    var r := Step(acc, row);
    assert k < |r| && r[k].id == acc[k].id;
    assert a in r[k].areas;
  }

  lemma StepCovers(acc: seq<RegionGroup>, row: JoinRow)
    requires HasArea(row)
    ensures Covered(Step(acc, row), row)
  {
    var r := Step(acc, row);
    var k := FindIndex(acc, SameRegion(row.id));
    if k.None? {
      assert row.area.value in r[|acc|].areas;
    } else {
      var j := FindIndex(acc[k.value].areas, SameArea(row.area.value.id));
      if j.Some? {
        assert acc[k.value].areas[j.value] in r[k.value].areas;
      } else {
        assert row.area.value in r[k.value].areas;
      }
    }
  }

  lemma {:induction false} GroupFromCovers(acc: seq<RegionGroup>, done: seq<JoinRow>, rows: seq<JoinRow>)
    requires forall i :: 0 <= i < |done| && HasArea(done[i]) ==> Covered(acc, done[i])
    ensures forall i :: 0 <= i < |done + rows| && HasArea((done + rows)[i]) ==> Covered(GroupFrom(acc, rows), (done + rows)[i])
    decreases |rows|
  {
    if rows == [] {
      assert done + rows == done;
    } else {
      var next := Step(acc, rows[0]);
      var done2 := done + [rows[0]];
      forall i | 0 <= i < |done2| && HasArea(done2[i]) ensures Covered(next, done2[i]) {
        if i < |done| {
          StepKeepsCovered(acc, rows[0], done[i]);
        } else {
          StepCovers(acc, rows[0]);
        }
      }
      assert done2 + rows[1..] == done + rows;
      GroupFromCovers(next, done2, rows[1..]);
    }
  }

  /** Nothing is lost: every row with a truthy area id has its area (by id)
      in its region's group. */
  lemma GroupLosesNoArea(rows: seq<JoinRow>)
    ensures forall i :: 0 <= i < |rows| && HasArea(rows[i]) ==> Covered(Group(rows), rows[i])
  {
    GroupFromCovers([], [], rows);
    assert [] + rows == rows;
  }

  /** The region rows the regions query selects: the company's, except a
      region named "Bölgelendirme". */
  function ListedRegion(companyId: string): RegionRow -> bool
  {
    (r: RegionRow) => r.companyId == companyId && r.name != Zoning
  }

  function AreaItems(areas: seq<AreaRow>): seq<Item>
  {
    seq(|areas|, i requires 0 <= i < |areas| => Item(areas[i].id, areas[i].name))
  }

  function TourItems(rows: seq<TourRow>): seq<Item>
  {
    seq(|rows|, i requires 0 <= i < |rows| => Item(rows[i].id, rows[i].name))
  }

  /** The rows the LEFT JOIN yields for one region: one per area of the
      region, or a single row without an area. */
  function RegionJoin(r: RegionRow, areas: seq<AreaRow>): seq<JoinRow>
  {
    var own := Filter(areas, InRegion(r.id));
    if own == [] then [JoinRow(r.id, r.name, None)]
    else BlockRows(r.id, r.name, AreaItems(own))
  }

  /** Rows of region `id` carrying the given areas. */
  function BlockRows(id: nat, name: string, items: seq<Item>): seq<JoinRow>
  {
    seq(|items|, i requires 0 <= i < |items| => JoinRow(id, name, Some(items[i])))
  }

  /** The rows of the regions query, region by region. */
  function JoinOf(rs: seq<RegionRow>, areas: seq<AreaRow>): seq<JoinRow>
    decreases |rs|
  {
    if rs == [] then [] else RegionJoin(rs[0], areas) + JoinOf(rs[1..], areas)
  }

  function JoinRows(t: Tables, companyId: string): seq<JoinRow>
  {
    JoinOf(Filter(t.regions, ListedRegion(companyId)), t.areas)
  }

  /** The area rows the zoning query selects: the company's areas whose
      region is named "Bölgelendirme". */
  function ZoningAreaOf(regions: seq<RegionRow>, companyId: string): AreaRow -> bool
  {
    (a: AreaRow) => a.companyId == companyId && JoinsRegion(regions, a.regionId, true)
  }

  /** The body of the read route's answer. */
  datatype Listing = Listing(tours: seq<Item>, bolgeler: seq<Item>, regions: seq<RegionGroup>)

  /** 400, 200 with the listing, or 500. */
  datatype LoadResponse = LoadBadRequest | Loaded(listing: Listing) | LoadFailed

  /** GET /:companyId: the company's tours, its zoning areas, and its other
      regions grouped with their areas; 400 for an empty company id. */
  function Load(t: Tables, companyId: string): (r: LoadResponse)
    ensures r.LoadBadRequest? <==> companyId == ""
    ensures !r.LoadFailed?
  {
    if companyId == "" then LoadBadRequest
    else Loaded(Listing(
      TourItems(Filter(t.tours, TourOf(companyId))),
      AreaItems(Filter(t.areas, ZoningAreaOf(t.regions, companyId))),
      Group(JoinRows(t, companyId))))
  }

  /** The regions of a catalog entry by entry: a group's name and the
      names of its areas. */
  function Shape(groups: seq<RegionGroup>): seq<(string, seq<string>)>
  {
    seq(|groups|, i requires 0 <= i < |groups| => (groups[i].name, ItemNamesOf(groups[i].areas)))
  }

  function ItemNamesOf(items: seq<Item>): seq<string>
  {
    seq(|items|, i requires 0 <= i < |items| => items[i].name)
  }

  /** Each region with all of its areas, as one group. */
  function BlocksOf(rs: seq<RegionRow>, areas: seq<AreaRow>): seq<RegionGroup>
  {
    seq(|rs|, i requires 0 <= i < |rs| => RegionGroup(rs[i].id, rs[i].name, AreaItems(Filter(areas, InRegion(rs[i].id)))))
  }

  lemma {:induction false} GroupFromConcat(acc: seq<RegionGroup>, a: seq<JoinRow>, b: seq<JoinRow>)
    ensures GroupFrom(acc, a + b) == GroupFrom(GroupFrom(acc, a), b)
    decreases |a|
  {
    if a == [] {
      assert a + b == b;
    } else {
      assert (a + b)[0] == a[0] && (a + b)[1..] == a[1..] + b;
      GroupFromConcat(Step(acc, a[0]), a[1..], b);
    }
  }

  /** A region id no group holds is not found. */
  lemma NewRegionNotFound(acc: seq<RegionGroup>, id: nat)
    requires id !in GroupIds(acc)
    ensures FindIndex(acc, SameRegion(id)).None?
  {
    forall j | 0 <= j < |acc| ensures !SameRegion(id)(acc[j]) {
      assert GroupIds(acc)[j] == acc[j].id;
    }
  }

  /** The group just appended for a new region id is the one found for it. */
  lemma {:induction false} AppendedGroupFound(acc: seq<RegionGroup>, g: RegionGroup)
    requires g.id !in GroupIds(acc)
    ensures FindIndex(acc + [g], SameRegion(g.id)) == Some(|acc|)
    decreases |acc|
  {
    if acc != [] {
      assert GroupIds(acc)[0] == acc[0].id;
      assert (acc + [g])[1..] == acc[1..] + [g];
      assert GroupIds(acc[1..]) == GroupIds(acc)[1..];
      AppendedGroupFound(acc[1..], g);
    }
  }

  /** An area id no item of `done` has is not found there. */
  lemma NewAreaNotFound(done: seq<Item>, id: nat)
    requires forall i :: 0 <= i < |done| ==> done[i].id != id
    ensures FindIndex(done, SameArea(id)).None?
  {
  }

  /** The rows of one region, arriving after its group was opened, add their
      areas to it in order when their ids are new and not 0. */
  lemma {:induction false} GroupBlockTail(acc: seq<RegionGroup>, id: nat, name: string, done: seq<Item>, items: seq<Item>)
    requires id !in GroupIds(acc)
    requires KeysDistinct(done + items, ItemIdOf)
    requires forall x :: x in items ==> x.id != 0
    ensures GroupFrom(acc + [RegionGroup(id, name, done)], BlockRows(id, name, items))
            == acc + [RegionGroup(id, name, done + items)]
    decreases |items|
  {
    var rows := BlockRows(id, name, items);
    if items == [] {
      assert done + items == done;
    } else {
      var g := acc + [RegionGroup(id, name, done)];
      AppendedGroupFound(acc, RegionGroup(id, name, done));
      forall i | 0 <= i < |done| ensures done[i].id != items[0].id {
        assert ItemIdOf((done + items)[i]) != ItemIdOf((done + items)[|done|]);
      }
      NewAreaNotFound(done, items[0].id);
      assert items[0] in items;
      assert Step(g, rows[0]) == acc + [RegionGroup(id, name, done + [items[0]])];
      assert rows[1..] == BlockRows(id, name, items[1..]);
      assert (done + [items[0]]) + items[1..] == done + items;
      GroupBlockTail(acc, id, name, done + [items[0]], items[1..]);
    }
  }

  /** The items of a region's areas have distinct ids, none of them 0. */
  lemma OwnItems(areas: seq<AreaRow>, regionId: nat)
    requires KeysDistinct(areas, AreaIdOf)
    requires forall a :: a in areas ==> a.id != 0
    ensures KeysDistinct(AreaItems(Filter(areas, InRegion(regionId))), ItemIdOf)
    ensures forall x :: x in AreaItems(Filter(areas, InRegion(regionId))) ==> x.id != 0
  {
    var own := Filter(areas, InRegion(regionId));
    var items := AreaItems(own);
    FilterKeepsKeysDistinct(areas, InRegion(regionId), AreaIdOf);
    forall i, j | 0 <= i < j < |items| ensures ItemIdOf(items[i]) != ItemIdOf(items[j]) {
      assert AreaIdOf(own[i]) != AreaIdOf(own[j]);
    }
    forall x | x in items ensures x.id != 0 {
      var i :| 0 <= i < |items| && items[i] == x;
      assert own[i] in own;
    }
  }

  /** A row of a region no group holds opens a new group. */
  lemma StepOpens(acc: seq<RegionGroup>, row: JoinRow)
    requires row.id !in GroupIds(acc)
    ensures Step(acc, row) == acc + [Opened(row)]
  {
    NewRegionNotFound(acc, row.id);
  }

  /** The join rows of one region open its group, holding all its areas. */
  lemma GroupRegionJoin(acc: seq<RegionGroup>, r: RegionRow, areas: seq<AreaRow>)
    requires r.id !in GroupIds(acc)
    requires KeysDistinct(areas, AreaIdOf)
    requires forall a :: a in areas ==> a.id != 0
    ensures GroupFrom(acc, RegionJoin(r, areas)) == acc + [RegionGroup(r.id, r.name, AreaItems(Filter(areas, InRegion(r.id))))]
  {
    var own := Filter(areas, InRegion(r.id));
    var rows := RegionJoin(r, areas);
    if own == [] {
      assert rows == [JoinRow(r.id, r.name, None)];
      StepOpens(acc, rows[0]);
      assert GroupFrom(acc, rows) == GroupFrom(Step(acc, rows[0]), []);
    } else {
      OwnItems(areas, r.id);
      GroupAreasOfRegion(acc, r.id, r.name, AreaItems(own));
    }
  }

  /** The rows of a region with areas, arriving before its group exists,
      open it and fill it with those areas. */
  lemma GroupAreasOfRegion(acc: seq<RegionGroup>, id: nat, name: string, items: seq<Item>)
    requires items != []
    requires id !in GroupIds(acc)
    requires KeysDistinct(items, ItemIdOf)
    requires forall x :: x in items ==> x.id != 0
    ensures GroupFrom(acc, BlockRows(id, name, items)) == acc + [RegionGroup(id, name, items)]
  {
    var rows := BlockRows(id, name, items);
    assert items[0] in items;
    StepOpens(acc, rows[0]);
    assert rows[1..] == BlockRows(id, name, items[1..]);
    assert [items[0]] + items[1..] == items;
    GroupBlockTail(acc, id, name, [items[0]], items[1..]);
  }

  /** Grouping the join of regions with distinct ids yields one group per
      region, in order, each holding exactly that region's areas. */
  lemma {:induction false} GroupJoinOf(acc: seq<RegionGroup>, rs: seq<RegionRow>, areas: seq<AreaRow>)
    requires KeysDistinct(rs, RegionIdOf)
    requires forall i :: 0 <= i < |rs| ==> rs[i].id !in GroupIds(acc)
    requires KeysDistinct(areas, AreaIdOf)
    requires forall a :: a in areas ==> a.id != 0
    ensures GroupFrom(acc, JoinOf(rs, areas)) == acc + BlocksOf(rs, areas)
    decreases |rs|
  {
    if rs == [] {
      assert acc + [] == acc;
    } else {
      var head := RegionJoin(rs[0], areas);
      var blocks := BlocksOf(rs, areas);
      GroupFromConcat(acc, head, JoinOf(rs[1..], areas));
      GroupRegionJoin(acc, rs[0], areas);
      var acc2 := acc + [blocks[0]];
      assert GroupFrom(acc, head) == acc2;
      NextBlockFresh(acc, rs, blocks[0]);
      GroupJoinOf(acc2, rs[1..], areas);
      AppendBlocks(acc, rs, areas);
    }
  }

  lemma AppendBlocks(acc: seq<RegionGroup>, rs: seq<RegionRow>, areas: seq<AreaRow>)
    requires rs != []
    ensures (acc + [BlocksOf(rs, areas)[0]]) + BlocksOf(rs[1..], areas) == acc + BlocksOf(rs, areas)
  {
    assert BlocksOf(rs, areas) == [BlocksOf(rs, areas)[0]] + BlocksOf(rs[1..], areas);
  }

  /** After the first region's group is added, the remaining regions are
      still new, and still have distinct ids. */
  lemma NextBlockFresh(acc: seq<RegionGroup>, rs: seq<RegionRow>, g: RegionGroup)
    requires rs != [] && g.id == rs[0].id
    requires KeysDistinct(rs, RegionIdOf)
    requires forall i :: 0 <= i < |rs| ==> rs[i].id !in GroupIds(acc)
    ensures forall i :: 0 <= i < |rs[1..]| ==> rs[1..][i].id !in GroupIds(acc + [g])
    ensures KeysDistinct(rs[1..], RegionIdOf)
  {
    assert GroupIds(acc + [g]) == GroupIds(acc) + [g.id];
    forall i | 0 <= i < |rs[1..]| ensures rs[1..][i].id !in GroupIds(acc + [g]) {
      assert RegionIdOf(rs[0]) != RegionIdOf(rs[i + 1]);
    }
    forall i, j | 0 <= i < j < |rs[1..]| ensures RegionIdOf(rs[1..][i]) != RegionIdOf(rs[1..][j]) {
      assert RegionIdOf(rs[i + 1]) != RegionIdOf(rs[j + 1]);
    }
  }


  /** On well-formed tables the reduce rebuilds each listed region with all
      of its areas. */
  lemma GroupedJoinRows(t: Tables, companyId: string)
    requires Wf(t)
    ensures Group(JoinRows(t, companyId)) == BlocksOf(Filter(t.regions, ListedRegion(companyId)), t.areas)
  {
    var rs := Filter(t.regions, ListedRegion(companyId));
    FilterKeepsKeysDistinct(t.regions, ListedRegion(companyId), RegionIdOf);
    GroupJoinOf([], rs, t.areas);
    assert [] + BlocksOf(rs, t.areas) == BlocksOf(rs, t.areas);
  }

  function NotZoningRegion(): RegionRow -> bool
  {
    (r: RegionRow) => r.name != Zoning
  }

  function NotZoningEntry(): ((string, seq<string>)) -> bool
  {
    (e: (string, seq<string>)) => e.0 != Zoning
  }

  lemma AreaItemNames(areas: seq<AreaRow>)
    ensures ItemNamesOf(AreaItems(areas)) == AreaNames(areas)
  {
  }

  /** A group's shape is its region's catalog entry. */
  lemma ShapeOfBlocks(rs: seq<RegionRow>, areas: seq<AreaRow>)
    ensures Shape(BlocksOf(rs, areas)) == Entries(rs, areas)
  {
    var b := BlocksOf(rs, areas);
    forall i | 0 <= i < |rs| ensures Shape(b)[i] == Entries(rs, areas)[i] {
      AreaItemNames(Filter(areas, InRegion(rs[i].id)));
    }
  }

  /** Leaving out the zoning region leaves out its catalog entry. */
  lemma {:induction false} EntriesWithoutZoning(rs: seq<RegionRow>, areas: seq<AreaRow>)
    ensures Entries(Filter(rs, NotZoningRegion()), areas) == Filter(Entries(rs, areas), NotZoningEntry())
    decreases |rs|
  {
    if rs != [] {
      var head: seq<RegionRow> := if rs[0].name != Zoning then [rs[0]] else [];
      EntriesWithoutZoning(rs[1..], areas);
      EntriesConcat([rs[0]], rs[1..], areas);
      assert [rs[0]] + rs[1..] == rs;
      FilterCons(Entries(rs, areas), NotZoningEntry());
      FilterCons(rs, NotZoningRegion());
      EntriesConcat(head, Filter(rs[1..], NotZoningRegion()), areas);
    }
  }

  lemma EntriesConcat(a: seq<RegionRow>, b: seq<RegionRow>, areas: seq<AreaRow>)
    ensures Entries(a + b, areas) == Entries(a, areas) + Entries(b, areas)
  {
    var lhs := Entries(a + b, areas);
    var rhs := Entries(a, areas) + Entries(b, areas);
    forall i | 0 <= i < |lhs| ensures lhs[i] == rhs[i] {
      if i < |a| {
        assert (a + b)[i] == a[i];
      } else {
        assert (a + b)[i] == b[i - |a|];
      }
    }
  }

  /** The non-zoning entries a save asks for are its expected regions. */
  lemma ExpectedWithoutZoning(request: SaveRequest)
    ensures Filter(ExpectedCatalog(request), NotZoningEntry()) == ExpectedRegions(ListOrEmpty(request.regions))
  {
    var bolgeler := ListOrEmpty(request.bolgeler);
    var head: seq<(string, seq<string>)> := if |bolgeler| > 0 then [(Zoning, ItemNames(bolgeler))] else [];
    var rest := ExpectedRegions(ListOrEmpty(request.regions));
    FilterConcat(head, rest, NotZoningEntry());
    FilterKeepsNone(head, NotZoningEntry());
    FilterKeepsAll(rest, NotZoningEntry());
    assert [] + rest == rest;
  }

  /** After a save the read route lists, apart from the zoning region, the
      submitted regions that were not skipped, in order, each with its
      areas' names in order. */
  lemma SaveThenLoadRegions(t: Tables, request: SaveRequest)
    requires Wf(t) && request.companyId != ""
    ensures Shape(Load(Committed(t, request), request.companyId).listing.regions)
            == ExpectedRegions(ListOrEmpty(request.regions))
  {
    var c := request.companyId;
    var t' := Committed(t, request);
    WfCommitted(t, request);
    GroupedJoinRows(t', c);
    FilterBoth(t'.regions, RegionOf(c), NotZoningRegion(), ListedRegion(c));
    var mine := Filter(t'.regions, RegionOf(c));
    ShapeOfBlocks(Filter(mine, NotZoningRegion()), t'.areas);
    EntriesWithoutZoning(mine, t'.areas);
    SaveRebuildsCatalog(t, request);
    ExpectedWithoutZoning(request);
  }

  /** After a save the read route lists the submitted tour names, in order. */
  lemma SaveThenLoadTours(t: Tables, request: SaveRequest)
    requires request.companyId != ""
    ensures ItemNamesOf(Load(Committed(t, request), request.companyId).listing.tours)
            == ItemNames(ListOrEmpty(request.tours))
  {
    var rows := Filter(Committed(t, request).tours, TourOf(request.companyId));
    SaveReplacesTours(t, request);
    assert ItemNamesOf(TourItems(rows)) == TourNames(rows);
  }

  /** `v` appends rows of the company to `u`, and every appended region and
      every appended area's region has an id `u` had not yet issued. */
  predicate GrowsFor(u: Tables, v: Tables, companyId: string)
  {
    && AppendsFor(u, v, companyId)
    && u.nextRegionId <= v.nextRegionId
    && (forall r :: r in v.regions[|u.regions|..] ==> r.id >= u.nextRegionId)
    && (forall a :: a in v.areas[|u.areas|..] ==> a.regionId >= u.nextRegionId)
  }

  lemma GrowsForTransitive(u: Tables, v: Tables, w: Tables, companyId: string)
    requires GrowsFor(u, v, companyId) && GrowsFor(v, w, companyId)
    ensures GrowsFor(u, w, companyId)
  {
    AppendsForTransitive(u, v, w, companyId);
    assert w.regions[|u.regions|..] == v.regions[|u.regions|..] + w.regions[|v.regions|..];
    assert w.areas[|u.areas|..] == v.areas[|u.areas|..] + w.areas[|v.areas|..];
  }

  lemma AddRegionWithAreasGrows(t: Tables, companyId: string, name: string, items: seq<Named>)
    ensures GrowsFor(t, AddRegionWithAreas(t, companyId, name, items), companyId)
  {
    AddRegionWithAreasAppends(t, companyId, name, items);
  }

  lemma {:induction false} AddRegionsGrow(t: Tables, companyId: string, inputs: seq<RegionInput>)
    ensures GrowsFor(t, AddRegions(t, companyId, inputs), companyId)
    decreases |inputs|
  {
    if inputs == [] {
      assert GrowsFor(t, t, companyId);
    } else {
      var before := AddRegions(t, companyId, inputs[..|inputs| - 1]);
      AddRegionsGrow(t, companyId, inputs[..|inputs| - 1]);
      var last := inputs[|inputs| - 1];
      if last.name != Zoning {
        AddRegionWithAreasGrows(before, companyId, last.name, ListOrEmpty(last.areas));
        GrowsForTransitive(t, before, AddRegions(t, companyId, inputs), companyId);
      }
    }
  }

  /** The inserts of a save only add regions, and areas of regions, with
      new ids. */
  lemma InsertsGrow(t: Tables, request: SaveRequest)
    ensures GrowsFor(Cleared(t, request.companyId), Committed(t, request), request.companyId)
  {
    InsertsGrowFrom(Cleared(t, request.companyId), request);
  }

  lemma InsertsGrowFrom(t0: Tables, request: SaveRequest)
    ensures var c := request.companyId;
            GrowsFor(t0, AddRegions(AddZoning(AddTours(t0, c, ListOrEmpty(request.tours)), c, ListOrEmpty(request.bolgeler)),
                                    c, ListOrEmpty(request.regions)), c)
  {
    var c := request.companyId;
    var t1 := AddTours(t0, c, ListOrEmpty(request.tours));
    var t2 := AddZoning(t1, c, ListOrEmpty(request.bolgeler));
    assert GrowsFor(t0, t1, c);
    if |ListOrEmpty(request.bolgeler)| > 0 {
      AddRegionWithAreasGrows(t1, c, Zoning, ListOrEmpty(request.bolgeler));
    } else {
      assert GrowsFor(t1, t2, c);
    }
    GrowsForTransitive(t0, t1, t2, c);
    AddRegionsGrow(t2, c, ListOrEmpty(request.regions));
    GrowsForTransitive(t0, t2, AddRegions(t2, c, ListOrEmpty(request.regions)), c);
  }

  /** The deletes leave no area of the company pointing at a region that
      is still there: each surviving area of it had no region to join. */
  lemma ClearedOrphans(t: Tables, companyId: string)
    ensures forall a, r :: a in Cleared(t, companyId).areas && a.companyId == companyId && r in Cleared(t, companyId).regions
                           ==> r.id != a.regionId
  {
    var t1 := DeleteTours(t, companyId);
    var t2 := DeleteAreas(t1, companyId, true);
    var t3 := DeleteRegions(t2, companyId, true);
    var t4 := DeleteAreas(t3, companyId, false);
    var t5 := DeleteRegions(t4, companyId, false);
    forall a, r | a in t5.areas && a.companyId == companyId && r in t5.regions ensures r.id != a.regionId {
      assert a in t2.areas && r in t3.regions && r in t1.regions;
      assert !JoinsRegion(t1.regions, a.regionId, true);
      assert !JoinsRegion(t3.regions, a.regionId, false);
    }
  }

  /** Where the rows of a committed save come from: a region is left from
      the deletes with an id below `t.nextRegionId`, or is a new region of the
      company; an area likewise points below `t.nextRegionId`, or is a new
      area of the company pointing at or above it. */
  lemma CommittedLayout(t: Tables, request: SaveRequest)
    requires Wf(t)
    ensures var t0 := Cleared(t, request.companyId);
            var t' := Committed(t, request);
            && (forall r :: r in t'.regions ==>
                  (r in t0.regions && r.id < t.nextRegionId) || (r.id >= t.nextRegionId && r.companyId == request.companyId))
            && (forall a :: a in t'.areas ==>
                  (a in t0.areas && a.regionId < t.nextRegionId) || (a.regionId >= t.nextRegionId && a.companyId == request.companyId))
  {
    var c := request.companyId;
    WfCleared(t, c);
    InsertsGrow(t, request);
    LayoutOfGrowth(Cleared(t, c), Committed(t, request), c);
  }

  /** Rows appended with ids at or above `u.nextRegionId` are the company's
      and above every id `u` holds; the others are `u`'s own. */
  lemma LayoutOfGrowth(u: Tables, v: Tables, companyId: string)
    requires Wf(u) && GrowsFor(u, v, companyId)
    ensures forall r :: r in v.regions ==>
              (r in u.regions && r.id < u.nextRegionId) || (r.id >= u.nextRegionId && r.companyId == companyId)
    ensures forall a :: a in v.areas ==>
              (a in u.areas && a.regionId < u.nextRegionId) || (a.regionId >= u.nextRegionId && a.companyId == companyId)
  {
    forall r | r in v.regions
      ensures (r in u.regions && r.id < u.nextRegionId) || (r.id >= u.nextRegionId && r.companyId == companyId)
    {
      var k :| 0 <= k < |v.regions| && v.regions[k] == r;
      if k < |u.regions| {
        assert u.regions[k] == r;
      } else {
        assert r in v.regions[|u.regions|..];
      }
    }
    forall a | a in v.areas
      ensures (a in u.areas && a.regionId < u.nextRegionId) || (a.regionId >= u.nextRegionId && a.companyId == companyId)
    {
      var k :| 0 <= k < |v.areas| && v.areas[k] == a;
      if k < |u.areas| {
        assert u.areas[k] == a;
      } else {
        assert a in v.areas[|u.areas|..];
      }
    }
  }

  /** After a save the company has a region named "Bölgelendirme" exactly
      when `bolgeler` was not empty: its first region, holding one area per
      entry. */
  lemma CommittedZoningRegion(t: Tables, request: SaveRequest)
    requires Wf(t)
    ensures var t' := Committed(t, request);
            var mine := Filter(t'.regions, RegionOf(request.companyId));
            var bolgeler := ListOrEmpty(request.bolgeler);
            && (forall r :: r in t'.regions && r.companyId == request.companyId && r.name == Zoning
                  ==> |bolgeler| > 0 && |mine| > 0 && r == mine[0])
            && (|bolgeler| > 0 ==>
                  && |mine| > 0 && mine[0].name == Zoning
                  && AreaNames(Filter(t'.areas, InRegion(mine[0].id))) == ItemNames(bolgeler))
  {
    SaveRebuildsCatalog(t, request);
    ZoningRegionOfCatalog(Committed(t, request), request);
  }

  /** Tables whose catalog for the company is the one a request describes
      have a zoning region exactly as CommittedZoningRegion states. */
  lemma ZoningRegionOfCatalog(t': Tables, request: SaveRequest)
    requires Catalog(t', request.companyId) == ExpectedCatalog(request)
    ensures var mine := Filter(t'.regions, RegionOf(request.companyId));
            var bolgeler := ListOrEmpty(request.bolgeler);
            && (forall r :: r in t'.regions && r.companyId == request.companyId && r.name == Zoning
                  ==> |bolgeler| > 0 && |mine| > 0 && r == mine[0])
            && (|bolgeler| > 0 ==>
                  && |mine| > 0 && mine[0].name == Zoning
                  && AreaNames(Filter(t'.areas, InRegion(mine[0].id))) == ItemNames(bolgeler))
  {
    var c := request.companyId;
    var mine := Filter(t'.regions, RegionOf(c));
    var bolgeler := ListOrEmpty(request.bolgeler);
    var e := Catalog(t', c);
    forall r | r in t'.regions && r.companyId == c && r.name == Zoning
      ensures |bolgeler| > 0 && |mine| > 0 && r == mine[0]
    {
      assert r in mine;
      var k :| 0 <= k < |mine| && mine[k] == r;
      assert e[k].0 == Zoning;
    }
    if |bolgeler| > 0 {
      assert e[0] == (Zoning, ItemNames(bolgeler));
    }
  }

  /** After a save an area of the company that survived the deletes joins
      no region. */
  lemma SurvivorJoinsNothing(t: Tables, request: SaveRequest, a: AreaRow)
    requires Wf(t)
    requires a in Cleared(t, request.companyId).areas && a.regionId < t.nextRegionId
    requires a.companyId == request.companyId
    ensures forall r :: r in Committed(t, request).regions ==> r.id != a.regionId
  {
    CommittedLayout(t, request);
    ClearedOrphans(t, request.companyId);
  }

  /** After a save the zoning query selects nothing when `bolgeler` was
      empty, and otherwise exactly the areas of the company's zoning region. */
  lemma ZoningAreasOfCommitted(t: Tables, request: SaveRequest)
    requires Wf(t)
    ensures var t' := Committed(t, request);
            var mine := Filter(t'.regions, RegionOf(request.companyId));
            var selected := Filter(t'.areas, ZoningAreaOf(t'.regions, request.companyId));
            && (|ListOrEmpty(request.bolgeler)| == 0 ==> selected == [])
            && (|ListOrEmpty(request.bolgeler)| > 0 ==> |mine| > 0 && selected == Filter(t'.areas, InRegion(mine[0].id)))
  {
    var c := request.companyId;
    var t0 := Cleared(t, c);
    var t' := Committed(t, request);
    var mine := Filter(t'.regions, RegionOf(c));
    var bolgeler := ListOrEmpty(request.bolgeler);
    var N := t.nextRegionId;
    CommittedLayout(t, request);
    CommittedZoningRegion(t, request);
    ClearedLeavesNothing(t, c);
    var zoning := ZoningAreaOf(t'.regions, c);
    // The company's regions with an id at or above N are all new, so one
    // named "Bölgelendirme" is the zoning region.
    forall a | a in t'.areas && a.regionId >= N && zoning(a)
      ensures |bolgeler| > 0 && |mine| > 0 && a.regionId == mine[0].id
    {
      var r :| r in t'.regions && r.id == a.regionId && r.name == Zoning;
    }
    forall a | a in t'.areas && a.regionId < N
      ensures !zoning(a)
    {
      if a.companyId == c {
        SurvivorJoinsNothing(t, request, a);
      }
    }
    if |bolgeler| > 0 {
      var z := mine[0];
      assert z in mine;
      assert z !in t0.regions by {
        assert z !in Filter(t0.regions, RegionOf(c));
      }
      forall a | a in t'.areas ensures zoning(a) == InRegion(z.id)(a) {
        if a.regionId >= N && a.companyId == c && a.regionId == z.id {
          assert z in t'.regions;
        }
      }
      FilterSameTest(t'.areas, zoning, InRegion(z.id));
    } else {
      forall i | 0 <= i < |t'.areas| ensures !zoning(t'.areas[i]) {
        assert t'.areas[i] in t'.areas;
      }
      FilterKeepsNone(t'.areas, zoning);
    }
  }

  /** After a save the read route lists one zoning area per `bolgeler`
      entry, with its name, in order. */
  lemma SaveThenLoadZoning(t: Tables, request: SaveRequest)
    requires Wf(t) && request.companyId != ""
    ensures ItemNamesOf(Load(Committed(t, request), request.companyId).listing.bolgeler)
            == ItemNames(ListOrEmpty(request.bolgeler))
  {
    var c := request.companyId;
    var t' := Committed(t, request);
    var selected := Filter(t'.areas, ZoningAreaOf(t'.regions, c));
    assert Load(t', c).listing.bolgeler == AreaItems(selected);
    ZoningAreasOfCommitted(t, request);
    CommittedZoningRegion(t, request);
    AreaItemNames(selected);
  }

  /** The three tables, updated in place by the save route. */
  class CatalogDb {
    var tours: seq<TourRow>
    var regions: seq<RegionRow>
    var areas: seq<AreaRow>
    var nextTourId: nat
    var nextRegionId: nat
    var nextAreaId: nat

    function State(): Tables
      reads this
    {
      Tables(tours, regions, areas, nextTourId, nextRegionId, nextAreaId)
    }

    ghost predicate Valid()
      reads this
    {
      Wf(State())
    }

    constructor(t: Tables)
      requires Wf(t)
      ensures Valid() && State() == t
    {
      tours, regions, areas := t.tours, t.regions, t.areas;
      nextTourId, nextRegionId, nextAreaId := t.nextTourId, t.nextRegionId, t.nextAreaId;
    }

    /** ROLLBACK: the rows return to what they were when the transaction
        began; ids already issued stay used. */
    method Rollback(saved: Tables)
      requires Wf(saved)
      requires saved.nextTourId <= nextTourId && saved.nextRegionId <= nextRegionId && saved.nextAreaId <= nextAreaId
      modifies this`tours, this`regions, this`areas
      ensures tours == saved.tours && regions == saved.regions && areas == saved.areas
      ensures Valid()
    {
      tours, regions, areas := saved.tours, saved.regions, saved.areas;
    }

    /** The five deletes, numbered `q` to `q + 4`; the first one that
        throws ends the sequence. */
    method DeleteCompany(companyId: string, fault: Option<nat>, q: nat) returns (failed: bool)
      modifies this`tours, this`regions, this`areas
      ensures failed <==> FaultIn(fault, q, q + 5)
      ensures !failed ==> State() == Cleared(old(State()), companyId)
    {
      if fault == Some(q) { return true; }
      tours := Filter(tours, TourKept(companyId));
      if fault == Some(q + 1) { return true; }
      areas := Filter(areas, AreaKept(regions, companyId, true));
      if fault == Some(q + 2) { return true; }
      regions := Filter(regions, RegionKept(companyId, true));
      if fault == Some(q + 3) { return true; }
      areas := Filter(areas, AreaKept(regions, companyId, false));
      if fault == Some(q + 4) { return true; }
      regions := Filter(regions, RegionKept(companyId, false));
      failed := false;
    }

    /** The tours insert (query `q`), issued only for a non-empty list. */
    method InsertTours(companyId: string, items: seq<Named>, fault: Option<nat>, q: nat) returns (failed: bool)
      modifies this`tours, this`nextTourId
      ensures failed <==> |items| > 0 && fault == Some(q)
      ensures !failed ==> State() == AddTours(old(State()), companyId, items)
      ensures old(nextTourId) <= nextTourId
    {
      if |items| > 0 {
        if fault == Some(q) { return true; }
        tours := tours + TourRows(nextTourId, items, companyId);
        nextTourId := nextTourId + |items|;
      }
      failed := false;
    }

    /** Insert one region (query `q`), then, for a non-empty list, its areas
        under the returned id (query `q + 1`). */
    method InsertRegion(companyId: string, name: string, items: seq<Named>, fault: Option<nat>, q: nat) returns (failed: bool)
      modifies this`regions, this`areas, this`nextRegionId, this`nextAreaId
      ensures failed <==> FaultIn(fault, q, q + RegionCost(items))
      ensures !failed ==> State() == AddRegionWithAreas(old(State()), companyId, name, items)
      ensures old(nextRegionId) <= nextRegionId && old(nextAreaId) <= nextAreaId
    {
      if fault == Some(q) { return true; }
      var regionId := nextRegionId;
      regions := regions + [RegionRow(regionId, name, companyId)];
      nextRegionId := nextRegionId + 1;
      if |items| > 0 {
        if fault == Some(q + 1) { return true; }
        areas := areas + AreaRows(nextAreaId, items, regionId, companyId);
        nextAreaId := nextAreaId + |items|;
      }
      failed := false;
    }

    /** The loop over `regions`, its queries numbered from `q`. */
    method InsertRegions(companyId: string, inputs: seq<RegionInput>, fault: Option<nat>, q: nat) returns (failed: bool)
      modifies this`regions, this`areas, this`nextRegionId, this`nextAreaId
      ensures failed <==> FaultIn(fault, q, q + RegionQueries(inputs))
      ensures !failed ==> State() == AddRegions(old(State()), companyId, inputs)
      ensures old(nextRegionId) <= nextRegionId && old(nextAreaId) <= nextAreaId
    {
      ghost var start := State();
      var next := q;
      var i := 0;
      while i < |inputs|
        invariant 0 <= i <= |inputs|
        invariant State() == AddRegions(start, companyId, inputs[..i])
        invariant next == q + RegionQueries(inputs[..i])
        invariant !FaultIn(fault, q, next)
        invariant start.nextRegionId <= nextRegionId && start.nextAreaId <= nextAreaId
      {
        var input := inputs[i];
        LoopPass(start, companyId, inputs, i);
        if input.name != Zoning {
          var items := ListOrEmpty(input.areas);
          failed := InsertRegion(companyId, input.name, items, fault, next);
          if failed { return; }
          next := next + RegionCost(items);
        }
        i := i + 1;
      }
      assert inputs[..i] == inputs;
      failed := false;
    }

    /** The inserts after the deletes, their queries numbered from `q`:
        the tours, the zoning region and its areas, then the loop. */
    method InsertAll(request: SaveRequest, fault: Option<nat>, q: nat) returns (failed: bool)
      modifies this
      ensures failed <==> FaultIn(fault, q, q + QueryCount(request) - 7)
      ensures !failed ==> State() == AddRegions(AddZoning(AddTours(old(State()), request.companyId, ListOrEmpty(request.tours)),
                                                          request.companyId, ListOrEmpty(request.bolgeler)),
                                                request.companyId, ListOrEmpty(request.regions))
      ensures old(nextTourId) <= nextTourId && old(nextRegionId) <= nextRegionId && old(nextAreaId) <= nextAreaId
    {
      var c := request.companyId;
      var tourItems := ListOrEmpty(request.tours);
      var zoningItems := ListOrEmpty(request.bolgeler);
      failed := InsertTours(c, tourItems, fault, q);
      if failed { return; }
      var next := q + if |tourItems| > 0 then 1 else 0;
      if |zoningItems| > 0 {
        failed := InsertRegion(c, Zoning, zoningItems, fault, next);
        if failed { return; }
        next := next + 2;
      }
      failed := InsertRegions(c, ListOrEmpty(request.regions), fault, next);
    }

    /** The queries between BEGIN and COMMIT, numbered from 1: the five
        deletes, then the inserts. */
    method Transaction(request: SaveRequest, fault: Option<nat>) returns (failed: bool)
      modifies this
      ensures failed <==> FaultIn(fault, 1, QueryCount(request) - 1)
      ensures !failed ==> State() == Committed(old(State()), request)
      ensures old(nextTourId) <= nextTourId && old(nextRegionId) <= nextRegionId && old(nextAreaId) <= nextAreaId
    {
      failed := DeleteCompany(request.companyId, fault, 1);
      if failed { return; }
      failed := InsertAll(request, fault, 6);
    }

    /** The body of the `try`: BEGIN (query 0), the queries of the
        transaction and COMMIT, stopping at the query numbered `fault`. */
    method RunQueries(request: SaveRequest, fault: Option<nat>) returns (failed: bool)
      modifies this
      ensures failed <==> FaultIn(fault, 0, QueryCount(request))
      ensures !failed ==> State() == Committed(old(State()), request)
      ensures old(nextTourId) <= nextTourId && old(nextRegionId) <= nextRegionId && old(nextAreaId) <= nextAreaId
    {
      // BEGIN
      if fault == Some(0) { return true; }
      failed := Transaction(request, fault);
      if failed { return; }
      // COMMIT
      failed := fault == Some(QueryCount(request) - 1);
    }

    /** POST /save: 400 without a company id; otherwise the queries of
        `RunQueries` in one transaction. `fault` is the number of the query
        that throws, if any; a failure rolls back and answers 500. */
    method Save(request: SaveRequest, fault: Option<nat>) returns (response: SaveResponse)
      requires Valid()
      modifies this
      ensures Valid()
      ensures response == SaveBadRequest <==> request.companyId == ""
      ensures response == SaveBadRequest ==> State() == old(State())
      ensures response == SaveOk <==> request.companyId != "" && (fault.None? || fault.value >= QueryCount(request))
      ensures response == SaveOk ==> State() == Committed(old(State()), request)
      ensures response != SaveOk ==> tours == old(tours) && regions == old(regions) && areas == old(areas)
    {
      if request.companyId == "" {
        return SaveBadRequest;
      }
      var saved := State();
      var failed := RunQueries(request, fault);
      if failed {
        Rollback(saved);
        return SaveFailed;
      }
      WfCommitted(saved, request);
      response := SaveOk;
    }

    /** GET /:companyId: 400 without a company id; otherwise the three
        queries, numbered 0 to 2, and the reduce over the rows of the last.
        `fault` is the number of the query that throws, if any; a failure
        answers 500. */
    method Get(companyId: string, fault: Option<nat>) returns (response: LoadResponse)
      ensures companyId == "" ==> response == LoadBadRequest
      ensures companyId != "" && fault.Some? && fault.value < 3 ==> response == LoadFailed
      ensures companyId != "" && (fault.None? || fault.value >= 3) ==> response == Load(State(), companyId)
    {
      if companyId == "" {
        return LoadBadRequest;
      }
      if fault.Some? && fault.value < 3 {
        return LoadFailed;
      }
      var tourRows := Filter(tours, TourOf(companyId));
      var zoningRows := Filter(areas, ZoningAreaOf(regions, companyId));
      var joined := JoinRows(State(), companyId);
      var groups := GroupRegions(joined);
      response := Loaded(Listing(TourItems(tourRows), AreaItems(zoningRows), groups));
    }
  }
}
