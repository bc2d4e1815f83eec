/** Dumping all records of a kind, and loading a dump. */
module Archive {
  import opened Basics
  import opened Text
  import opened Dump
  import opened Records

  /** What was stored while a dump was loaded, in order. */
  datatype Stored =
    | Nothing
    | Nations(nations: seq<Nation>) | Sectors(sectors: seq<SectorRecord>) | Ships(ships: seq<Ship>)
    | Planes(planes: seq<Plane>) | LandUnits(landUnits: seq<LandUnit>) | Nukes(nukes: seq<Nuke>)

  function Mapped<T, U>(ts: seq<T>, f: T -> U): (r: seq<U>)
    ensures |r| == |ts| && forall i :: 0 <= i < |ts| ==> r[i] == f(ts[i])
  {
    seq(|ts|, i requires 0 <= i < |ts| => f(ts[i]))
  }

  // ---------------------------------------------------------------------------------------------
  // Loading
  // ---------------------------------------------------------------------------------------------

  /** All rows converted, up to the first bad one and its error. */
  function LoadAll<T>(rows: seq<Row>, from: Row -> Result<T>): (r: (seq<T>, Option<Error>))
    ensures |r.0| <= |rows| && (r.1 == None <==> |r.0| == |rows|)
    ensures forall i :: 0 <= i < |r.0| ==> from(rows[i]) == Ok(r.0[i])
    ensures r.1.Some? ==> from(rows[|r.0|]) == Err(r.1.value)
  {
    if rows == [] then ([], None)
    else
      match from(rows[0])
      case Err(e) => ([], Some(e))
      case Ok(t) =>
        var rest := LoadAll(rows[1..], from);
        ([t] + rest.0, rest.1)
  }

  /** The rows before the first bad one, and its error, are all there is to say. */
  lemma {:induction false} LoadAllIs<T>(rows: seq<Row>, from: Row -> Result<T>, ts: seq<T>, e: Option<Error>)
    requires |ts| <= |rows| && (e == None <==> |ts| == |rows|)
    requires forall i :: 0 <= i < |ts| ==> from(rows[i]) == Ok(ts[i])
    requires e.Some? ==> from(rows[|ts|]) == Err(e.value)
    ensures LoadAll(rows, from) == (ts, e)
  {
    if ts != [] {
      LoadAllIs(rows[1..], from, ts[1..], e);
      assert ts == [ts[0]] + ts[1..];
    }
  }

  /** Loads rows one by one until one of them is bad; those before it stay stored. */
  method LoadRows<T>(rows: seq<Row>, from: Row -> Result<T>) returns (ts: seq<T>, e: Option<Error>)
    ensures (ts, e) == LoadAll(rows, from)
  {
    ts, e := [], None;
    for i := 0 to |rows|
      invariant |ts| == i && forall k :: 0 <= k < i ==> from(rows[k]) == Ok(ts[k])
    {
      var t := from(rows[i]);
      if t.Err? {
        e := Some(t.error);
        LoadAllIs(rows, from, ts, e);
        return;
      }
      ts := ts + [t.value];
    }
    LoadAllIs(rows, from, ts, None);
  }

  function Counted(n: nat, e: Option<Error>): Result<int> {
    if e.Some? then Err(e.value) else Ok(n)
  }

  /** What loading a text stores, and its answer: the number of rows, or the first error. */
  function Load(input: string): (Stored, Result<int>) {
    match Parse(input)
    case Err(e) => (Nothing, Err(e))
    case Ok(p) => LoadKind(p.kind, p.rows)
  }

  function LoadKind(kind: string, rows: seq<Row>): (Stored, Result<int>) {
    if kind == "nation" then var (rs, e) := LoadAll(rows, NationFrom); (Nations(rs), Counted(|rows|, e))
    else if kind == "sector" then var (rs, e) := LoadAll(rows, SectorRecordFrom); (Sectors(rs), Counted(|rows|, e))
    else if kind == "ship" then var (rs, e) := LoadAll(rows, ShipFrom); (Ships(rs), Counted(|rows|, e))
    else if kind == "plane" then var (rs, e) := LoadAll(rows, PlaneFrom); (Planes(rs), Counted(|rows|, e))
    else if kind == "land" then var (rs, e) := LoadAll(rows, LandUnitFrom); (LandUnits(rs), Counted(|rows|, e))
    else if kind == "nuke" then var (rs, e) := LoadAll(rows, NukeFrom); (Nukes(rs), Counted(|rows|, e))
    else (Nothing, Err(UnknownType(kind)))
  }

  method LoadKindRows(kind: string, rows: seq<Row>) returns (stored: Stored, r: Result<int>)
    ensures (stored, r) == LoadKind(kind, rows)
  {
    hide LoadAll, NationFrom, SectorRecordFrom, ShipFrom, PlaneFrom, LandUnitFrom, NukeFrom;
    var e: Option<Error>;
    if kind == "nation" {
      var records;
      records, e := LoadRows(rows, NationFrom);
      stored := Nations(records);
    } else if kind == "sector" {
      var records;
      records, e := LoadRows(rows, SectorRecordFrom);
      stored := Sectors(records);
    } else if kind == "ship" {
      var records;
      records, e := LoadRows(rows, ShipFrom);
      stored := Ships(records);
    } else if kind == "plane" {
      var records;
      records, e := LoadRows(rows, PlaneFrom);
      stored := Planes(records);
    } else if kind == "land" {
      var records;
      records, e := LoadRows(rows, LandUnitFrom);
      stored := LandUnits(records);
    } else if kind == "nuke" {
      var records;
      records, e := LoadRows(rows, NukeFrom);
      stored := Nukes(records);
    } else {
      return Nothing, Err(UnknownType(kind));
    }
    r := Counted(|rows|, e);
  }

  /** Reads a dump of any kind. */
  method LoadDump(input: string) returns (stored: Stored, r: Result<int>)
    ensures (stored, r) == Load(input)
  {
    hide Lines, ParseHeader, Words, RowsOf, LoadKind;
    var lines := Lines(input);
    if lines == [] {
      return Nothing, Err(EmptyInput);
    }
    var head := ParseHeader(lines[0]);
    if head.Err? {
      return Nothing, Err(head.error);
    }
    if |lines| < 2 {
      return Nothing, Err(NoFields);
    }
    var rows := ParseRows(lines[2..], Words(lines[1]));
    if rows.Err? {
      return Nothing, Err(rows.error);
    }
    stored, r := LoadKindRows(head.value.0, rows.value);
  }

  // ---------------------------------------------------------------------------------------------
  // Any kind of record
  // ---------------------------------------------------------------------------------------------

  /** Records whose rows fit and are converted back load, each of them restored. */
  lemma {:induction false} AnyRoundTrip<T>(kind: string, ts: int, fields: seq<string>, records: seq<T>,
                                           cells: T -> seq<Cell>, from: Row -> Result<T>, restored: T -> T)
    requires IsI64(ts) && IsKind(kind) && FieldsOk(fields)
    requires forall i :: 0 <= i < |records| ==>
               RowFits(cells(records[i]), fields)
                 && from(Reading(fields, cells(records[i]))) == Ok(restored(records[i]))
    ensures var p := Parse(DumpText(kind, ts, fields, Mapped(records, cells)));
            p.Ok? && p.value.kind == kind && |p.value.rows| == |records|
            && LoadAll(p.value.rows, from) == (Mapped(records, restored), None)
  {
    hide Parse, DumpText, IsKind, FieldsOk, RowFits;
    var all := Mapped(records, cells);
    forall i | 0 <= i < |all|
      ensures |all[i]| == |fields| && RowFits(all[i], fields)
    {
      FitsLong(all[i], fields);
    }
    ParseDump(kind, ts, fields, all);
    LoadAllIs(Readings(fields, all), from, Mapped(records, restored), None);
  }

  lemma {:induction false} FitsLong(cells: seq<Cell>, fields: seq<string>)
    requires RowFits(cells, fields)
    ensures |cells| == |fields|
  {}

  /** Records that are written as they were give the same text. */
  lemma {:induction false} AnyDumpAgain<T>(kind: string, ts: int, fields: seq<string>, records: seq<T>,
                                           cells: T -> seq<Cell>, restored: T -> T)
    requires forall i :: 0 <= i < |records| ==> Tokens(cells(restored(records[i]))) == Tokens(cells(records[i]))
    ensures DumpText(kind, ts, fields, Mapped(Mapped(records, restored), cells))
            == DumpText(kind, ts, fields, Mapped(records, cells))
  {
    hide Tokens, Join, Unlines, Header;
    assert RowLines(Mapped(Mapped(records, restored), cells)) == RowLines(Mapped(records, cells));
  }

  lemma {:induction false} KindsAreWords()
    ensures IsKind("nation") && IsKind("sector") && IsKind("ship") && IsKind("plane") && IsKind("land")
    ensures IsKind("nuke")
  {}

  // ---------------------------------------------------------------------------------------------
  // Each kind
  // ---------------------------------------------------------------------------------------------

  function DumpNations(records: seq<Nation>, ts: int): string {
    DumpText("nation", ts, NATION_FIELDS, Mapped(records, NationCells))
  }

  /** A dump of any nations loads, with every one of them restored. */
  lemma {:induction false} NationsRoundTrip(records: seq<Nation>, ts: int)
    requires IsI64(ts) && forall i :: 0 <= i < |records| ==> NationOk(records[i])
    ensures Load(DumpNations(records, ts)) == (Nations(Mapped(records, NationRestored)), Ok(|records|))
  {
    hide Parse, DumpText, NationFrom, NationRestored, NationCells, NationOk, IsKind, FieldsOk, RowFits, LoadAll;
    KindsAreWords();
    NationFieldsOk();
    forall i | 0 <= i < |records|
      ensures RowFits(NationCells(records[i]), NATION_FIELDS)
      ensures NationFrom(Reading(NATION_FIELDS, NationCells(records[i]))) == Ok(NationRestored(records[i]))
    {
      NationRowFits(records[i]);
      NationIsRestored(records[i]);
    }
    AnyRoundTrip("nation", ts, NATION_FIELDS, records, NationCells, NationFrom, NationRestored);
  }

  /** Dumping what was loaded gives the same text again. */
  lemma {:induction false} NationsDumpAgain(records: seq<Nation>, ts: int)
    requires forall i :: 0 <= i < |records| ==> NationOk(records[i])
    ensures DumpNations(Mapped(records, NationRestored), ts) == DumpNations(records, ts)
  {
    hide NationRestored, NationCells, NationOk, Tokens;
    forall i | 0 <= i < |records|
      ensures Tokens(NationCells(NationRestored(records[i]))) == Tokens(NationCells(records[i]))
    {
      NationDumpsSame(records[i]);
    }
    AnyDumpAgain("nation", ts, NATION_FIELDS, records, NationCells, NationRestored);
  }

  function DumpSectors(records: seq<SectorRecord>, ts: int): string {
    DumpText("sector", ts, SECTOR_FIELDS, Mapped(records, SectorRecordCells))
  }

  /** A dump of any sectors loads, with every one of them restored. */
  lemma {:induction false} SectorsRoundTrip(records: seq<SectorRecord>, ts: int)
    requires IsI64(ts) && forall i :: 0 <= i < |records| ==> SectorRecordOk(records[i])
    ensures Load(DumpSectors(records, ts)) == (Sectors(Mapped(records, SectorRecordRestored)), Ok(|records|))
  {
    hide Parse, DumpText, SectorRecordFrom, SectorRecordRestored, SectorRecordCells, SectorRecordOk, IsKind, FieldsOk,
      RowFits, LoadAll;
    KindsAreWords();
    SectorRecordFieldsOk();
    forall i | 0 <= i < |records|
      ensures RowFits(SectorRecordCells(records[i]), SECTOR_FIELDS)
      ensures SectorRecordFrom(Reading(SECTOR_FIELDS, SectorRecordCells(records[i]))) ==
                Ok(SectorRecordRestored(records[i]))
    {
      SectorRecordRowFits(records[i]);
      SectorRecordIsRestored(records[i]);
    }
    AnyRoundTrip("sector", ts, SECTOR_FIELDS, records, SectorRecordCells, SectorRecordFrom, SectorRecordRestored);
  }

  /** Dumping what was loaded gives the same text again. */
  lemma {:induction false} SectorsDumpAgain(records: seq<SectorRecord>, ts: int)
    requires forall i :: 0 <= i < |records| ==> SectorRecordOk(records[i])
    ensures DumpSectors(Mapped(records, SectorRecordRestored), ts) == DumpSectors(records, ts)
  {
    hide SectorRecordRestored, SectorRecordCells, SectorRecordOk, Tokens;
    forall i | 0 <= i < |records|
      ensures Tokens(SectorRecordCells(SectorRecordRestored(records[i]))) == Tokens(SectorRecordCells(records[i]))
    {
      SectorRecordDumpsSame(records[i]);
    }
    AnyDumpAgain("sector", ts, SECTOR_FIELDS, records, SectorRecordCells, SectorRecordRestored);
  }

  function DumpShips(records: seq<Ship>, ts: int): string {
    DumpText("ship", ts, SHIP_FIELDS, Mapped(records, ShipCells))
  }

  /** A dump of any ships loads, with every one of them restored. */
  lemma {:induction false} ShipsRoundTrip(records: seq<Ship>, ts: int)
    requires IsI64(ts) && forall i :: 0 <= i < |records| ==> ShipOk(records[i])
    ensures Load(DumpShips(records, ts)) == (Ships(Mapped(records, ShipRestored)), Ok(|records|))
  {
    hide Parse, DumpText, ShipFrom, ShipRestored, ShipCells, ShipOk, IsKind, FieldsOk, RowFits, LoadAll;
    KindsAreWords();
    ShipFieldsOk();
    forall i | 0 <= i < |records|
      ensures RowFits(ShipCells(records[i]), SHIP_FIELDS)
      ensures ShipFrom(Reading(SHIP_FIELDS, ShipCells(records[i]))) == Ok(ShipRestored(records[i]))
    {
      ShipRowFits(records[i]);
      ShipIsRestored(records[i]);
    }
    AnyRoundTrip("ship", ts, SHIP_FIELDS, records, ShipCells, ShipFrom, ShipRestored);
  }

  /** Dumping what was loaded gives the same text again. */
  lemma {:induction false} ShipsDumpAgain(records: seq<Ship>, ts: int)
    requires forall i :: 0 <= i < |records| ==> ShipOk(records[i])
    ensures DumpShips(Mapped(records, ShipRestored), ts) == DumpShips(records, ts)
  {
    hide ShipRestored, ShipCells, ShipOk, Tokens;
    forall i | 0 <= i < |records|
      ensures Tokens(ShipCells(ShipRestored(records[i]))) == Tokens(ShipCells(records[i]))
    {
      ShipDumpsSame(records[i]);
    }
    AnyDumpAgain("ship", ts, SHIP_FIELDS, records, ShipCells, ShipRestored);
  }

  function DumpPlanes(records: seq<Plane>, ts: int): string {
    DumpText("plane", ts, PLANE_FIELDS, Mapped(records, PlaneCells))
  }

  /** A dump of any planes loads, with every one of them restored. */
  lemma {:induction false} PlanesRoundTrip(records: seq<Plane>, ts: int)
    requires IsI64(ts) && forall i :: 0 <= i < |records| ==> PlaneOk(records[i])
    ensures Load(DumpPlanes(records, ts)) == (Planes(Mapped(records, PlaneRestored)), Ok(|records|))
  {
    hide Parse, DumpText, PlaneFrom, PlaneRestored, PlaneCells, PlaneOk, IsKind, FieldsOk, RowFits, LoadAll;
    KindsAreWords();
    PlaneFieldsOk();
    forall i | 0 <= i < |records|
      ensures RowFits(PlaneCells(records[i]), PLANE_FIELDS)
      ensures PlaneFrom(Reading(PLANE_FIELDS, PlaneCells(records[i]))) == Ok(PlaneRestored(records[i]))
    {
      PlaneRowFits(records[i]);
      PlaneIsRestored(records[i]);
    }
    AnyRoundTrip("plane", ts, PLANE_FIELDS, records, PlaneCells, PlaneFrom, PlaneRestored);
  }

  /** Dumping what was loaded gives the same text again. */
  lemma {:induction false} PlanesDumpAgain(records: seq<Plane>, ts: int)
    requires forall i :: 0 <= i < |records| ==> PlaneOk(records[i])
    ensures DumpPlanes(Mapped(records, PlaneRestored), ts) == DumpPlanes(records, ts)
  {
    hide PlaneRestored, PlaneCells, PlaneOk, Tokens;
    forall i | 0 <= i < |records|
      ensures Tokens(PlaneCells(PlaneRestored(records[i]))) == Tokens(PlaneCells(records[i]))
    {
      PlaneDumpsSame(records[i]);
    }
    AnyDumpAgain("plane", ts, PLANE_FIELDS, records, PlaneCells, PlaneRestored);
  }

  function DumpLandUnits(records: seq<LandUnit>, ts: int): string {
    DumpText("land", ts, LAND_FIELDS, Mapped(records, LandUnitCells))
  }

  /** A dump of any land units loads, with every one of them restored. */
  lemma {:induction false} LandUnitsRoundTrip(records: seq<LandUnit>, ts: int)
    requires IsI64(ts) && forall i :: 0 <= i < |records| ==> LandUnitOk(records[i])
    ensures Load(DumpLandUnits(records, ts)) == (LandUnits(Mapped(records, LandUnitRestored)), Ok(|records|))
  {
    hide Parse, DumpText, LandUnitFrom, LandUnitRestored, LandUnitCells, LandUnitOk, IsKind, FieldsOk, RowFits, LoadAll;
    KindsAreWords();
    LandUnitFieldsOk();
    forall i | 0 <= i < |records|
      ensures RowFits(LandUnitCells(records[i]), LAND_FIELDS)
      ensures LandUnitFrom(Reading(LAND_FIELDS, LandUnitCells(records[i]))) == Ok(LandUnitRestored(records[i]))
    {
      LandUnitRowFits(records[i]);
      LandUnitIsRestored(records[i]);
    }
    AnyRoundTrip("land", ts, LAND_FIELDS, records, LandUnitCells, LandUnitFrom, LandUnitRestored);
  }

  /** Dumping what was loaded gives the same text again. */
  lemma {:induction false} LandUnitsDumpAgain(records: seq<LandUnit>, ts: int)
    requires forall i :: 0 <= i < |records| ==> LandUnitOk(records[i])
    ensures DumpLandUnits(Mapped(records, LandUnitRestored), ts) == DumpLandUnits(records, ts)
  {
    hide LandUnitRestored, LandUnitCells, LandUnitOk, Tokens;
    forall i | 0 <= i < |records|
      ensures Tokens(LandUnitCells(LandUnitRestored(records[i]))) == Tokens(LandUnitCells(records[i]))
    {
      LandUnitDumpsSame(records[i]);
    }
    AnyDumpAgain("land", ts, LAND_FIELDS, records, LandUnitCells, LandUnitRestored);
  }

  function DumpNukes(records: seq<Nuke>, ts: int): string {
    DumpText("nuke", ts, NUKE_FIELDS, Mapped(records, NukeCells))
  }

  /** A dump of any nukes loads, with every one of them restored. */
  lemma {:induction false} NukesRoundTrip(records: seq<Nuke>, ts: int)
    requires IsI64(ts) && forall i :: 0 <= i < |records| ==> NukeOk(records[i])
    ensures Load(DumpNukes(records, ts)) == (Nukes(Mapped(records, NukeRestored)), Ok(|records|))
  {
    hide Parse, DumpText, NukeFrom, NukeRestored, NukeCells, NukeOk, IsKind, FieldsOk, RowFits, LoadAll;
    KindsAreWords();
    NukeFieldsOk();
    forall i | 0 <= i < |records|
      ensures RowFits(NukeCells(records[i]), NUKE_FIELDS)
      ensures NukeFrom(Reading(NUKE_FIELDS, NukeCells(records[i]))) == Ok(NukeRestored(records[i]))
    {
      NukeRowFits(records[i]);
      NukeIsRestored(records[i]);
    }
    AnyRoundTrip("nuke", ts, NUKE_FIELDS, records, NukeCells, NukeFrom, NukeRestored);
  }

  /** Dumping what was loaded gives the same text again. */
  lemma {:induction false} NukesDumpAgain(records: seq<Nuke>, ts: int)
    requires forall i :: 0 <= i < |records| ==> NukeOk(records[i])
    ensures DumpNukes(Mapped(records, NukeRestored), ts) == DumpNukes(records, ts)
  {
    hide NukeRestored, NukeCells, NukeOk, Tokens;
    forall i | 0 <= i < |records|
      ensures Tokens(NukeCells(NukeRestored(records[i]))) == Tokens(NukeCells(records[i]))
    {
      NukeDumpsSame(records[i]);
    }
    AnyDumpAgain("nuke", ts, NUKE_FIELDS, records, NukeCells, NukeRestored);
  }
}
