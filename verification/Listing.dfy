/** Supported tables, resource listings and dry-run plans:
    internal/dokploydb/postgres.go. */
module Listing {
  import opened Wrappers
  import opened Text
  import opened Model
  import opened Sorting
  import opened Tables
  import opened Rendering
  import opened Retarget

  const NAME_COLUMN := "name"

  datatype SupportedTable = SupportedTable(name: string, idColumn: string, hasName: bool)

  // -------------------------------------------------------------- the reads

  /** One iteration of the loop over the required tables. A table without columns does
      not appear in the information schema at all. */
  function Describe(db: Dokploy, table: string): Option<SupportedTable> {
    if table !in db.tables || db.tables[table].columns == {} then None
    else
      var columns := db.tables[table].columns;
      match ResourceIDColumn(table, columns)
      case None => None
      case Some(idColumn) =>
        if SERVER_COLUMN !in columns then None
        else Some(SupportedTable(table, idColumn, NAME_COLUMN in columns))
  }

  function Supported(db: Dokploy, required: seq<string>): seq<SupportedTable> {
    if required == [] then []
    else
      var n := |required| - 1;
      Supported(db, required[..n]) +
      (match Describe(db, required[n]) case None => [] case Some(table) => [table])
  }

  function SupportedTables(db: Dokploy): seq<SupportedTable> {
    StableSort((a: SupportedTable, b: SupportedTable) => Precedes(a.name, b.name), Supported(db, RETARGET_TABLES))
  }

  function Filter(p: Row -> bool, rows: seq<Row>): seq<Row> {
    if rows == [] then []
    else
      var n := |rows| - 1;
      Filter(p, rows[..n]) + if p(rows[n]) then [rows[n]] else []
  }

  function OnSlot(slot: Option<string>): Row -> bool {
    row => Cell(row, SERVER_COLUMN) == slot
  }

  /** ORDER BY the id column's text, NULL last. */
  function ByID(idColumn: string): (Row, Row) -> bool {
    (a: Row, b: Row) =>
      match (Cell(a, idColumn), Cell(b, idColumn))
      case (Some(x), Some(y)) => Precedes(x, y)
      case (Some(_), None) => true
      case (None, _) => false
  }

  /** The rows that the listing query of one table returns. */
  function QueryRows(db: Dokploy, table: SupportedTable, serverID: string): seq<Row> {
    StableSort(ByID(table.idColumn), Filter(OnSlot(Slot(serverID)), RowsOf(db, table.name)))
  }

  function Render(table: SupportedTable, row: Row, serverID: string): Resource {
    Resource(
      Cell(row, table.idColumn).GetOr(""),
      table.idColumn,
      if table.hasName then Cell(row, NAME_COLUMN).GetOr("") else "",
      table.name,
      serverID)
  }

  /** Scanning fails on a NULL id. */
  function ScanResources(table: SupportedTable, rows: seq<Row>, serverID: string): Option<seq<Resource>> {
    if exists row <- rows :: Cell(row, table.idColumn).None? then None
    else Some(seq(|rows|, i requires 0 <= i < |rows| => Render(table, rows[i], serverID)))
  }

  function ListTables(db: Dokploy, tables: seq<SupportedTable>, serverID: string): Option<seq<Resource>> {
    if tables == [] then Some([])
    else
      var n := |tables| - 1;
      match ListTables(db, tables[..n], serverID)
      case None => None
      case Some(front) =>
        match ScanResources(tables[n], QueryRows(db, tables[n], serverID), serverID)
        case None => None
        case Some(last) => Some(front + last)
  }

  /** All resources attached to one server; None when a read fails. */
  function ListServerResources(db: Dokploy, serverID: string): Option<seq<Resource>> {
    ListTables(db, SupportedTables(db), serverID)
  }

  datatype PlanError = MissingServers | SameServers | NoTables | SchemaNotAllowed | ListingFailed

  function PlanRowFor(resource: Resource, source: string, target: string): PlanRow {
    PlanRow(resource.kind, resource.idColumn, resource.id, resource.name, source, target)
  }

  function PlanRows(resources: seq<Resource>, source: string, target: string): seq<PlanRow> {
    seq(|resources|, i requires 0 <= i < |resources| => PlanRowFor(resources[i], source, target))
  }

  /** A dry-run: `planID` and `now` come from the clock. */
  function BuildRetargetPlan(
    db: Dokploy, allowed: set<string>, rawSource: string, rawTarget: string, planID: string, now: string)
    : Result<MigrationPlan, PlanError>
  {
    var source, target := TrimSpace(rawSource), TrimSpace(rawTarget);
    if source == "" || target == "" then Failure(MissingServers)
    else if source == target then Failure(SameServers)
    else if !HasSupportedTables(db) then Failure(NoTables)
    else if allowed != {} && db.fingerprint !in allowed then Failure(SchemaNotAllowed)
    else
      match ListServerResources(db, source)
      case None => Failure(ListingFailed)
      case Some(resources) =>
        Success(MigrationPlan(planID, source, target, now, db.fingerprint, PlanRows(resources, source, target)))
  }

  // -------------------------------------------------------------- which tables

  lemma {:induction false} SupportedMeaning(db: Dokploy, required: seq<string>)
    ensures forall t: SupportedTable :: t in Supported(db, required) <==> t.name in required && Describe(db, t.name) == Some(t)
    ensures (forall i, j | 0 <= i < j < |required| :: required[i] != required[j]) ==>
      DistinctNames(Supported(db, required))
  {
    if required != [] {
      var n := |required| - 1;
      assert required == required[..n] + [required[n]];
      SupportedMeaning(db, required[..n]);
    }
  }

  predicate DistinctNames(tables: seq<SupportedTable>) {
    forall i, j | 0 <= i < j < |tables| :: tables[i].name != tables[j].name
  }

  lemma RetargetTablesDistinct()
    ensures forall i, j | 0 <= i < j < |RETARGET_TABLES| :: RETARGET_TABLES[i] != RETARGET_TABLES[j]
  {
  }

  /** The supported tables: exactly the allowlisted tables that have a usable id column
      and a server column, each once, in name order. */
  lemma SupportedTablesExact(db: Dokploy)
    ensures forall t: SupportedTable :: t in SupportedTables(db) <==> IsRetargetTable(t.name) && Describe(db, t.name) == Some(t)
    ensures DistinctNames(SupportedTables(db))
    ensures forall i, j | 0 <= i < j < |SupportedTables(db)| ::
      Precedes(SupportedTables(db)[i].name, SupportedTables(db)[j].name)
  {
    var raw, byName := Supported(db, RETARGET_TABLES), (a: SupportedTable, b: SupportedTable) => Precedes(a.name, b.name);
    SupportedMeaning(db, RETARGET_TABLES);
    RetargetTablesDistinct();
    StableSortKeeps(byName, raw);
    SameElements(raw, SupportedTables(db));
    forall i, j | 0 <= i < j < |SupportedTables(db)| ensures SupportedTables(db)[i].name != SupportedTables(db)[j].name {
      if SupportedTables(db)[i].name == SupportedTables(db)[j].name {
        assert SupportedTables(db)[i] in raw && SupportedTables(db)[j] in raw;
        TwoPlacesMeanTwice(SupportedTables(db), i, j);
        var a, b := TwiceMeansTwoPlaces(raw, SupportedTables(db)[i]);
      }
    }
    NameOrderIsWeak(byName);
    StableSortSorts(byName, _ => true, raw);
    forall i, j | 0 <= i < j < |SupportedTables(db)|
      ensures Precedes(SupportedTables(db)[i].name, SupportedTables(db)[j].name)
    {
      PrecedesTotal(SupportedTables(db)[i].name, SupportedTables(db)[j].name);
    }
  }

  lemma NameOrderIsWeak(byName: (SupportedTable, SupportedTable) -> bool)
    requires forall a, b :: byName(a, b) == Precedes(a.name, b.name)
    ensures WeakOrder(byName, _ => true)
  {
    forall a, b | byName(a, b) ensures !byName(b, a) {
      PrecedesAsymmetric(a.name, b.name);
    }
    forall a, b, c | byName(a, c) ensures byName(a, b) || byName(b, c) {
      if a.name != b.name && !Precedes(a.name, b.name) {
        PrecedesTotal(a.name, b.name);
        PrecedesTransitive(b.name, a.name, c.name);
      }
    }
  }
}
