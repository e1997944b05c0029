/**
 The decoded catalog read model: lookup tables built once from snapshot rows, and the
 lookups on them, which must agree with plain scans of the rows.
 */
module ReadModel {
  import opened ObjectStore
  import opened RowScans

  datatype Catalog = Catalog(id: string, name: string)
  datatype Namespace = Namespace(id: string, catalogId: Option<string>, name: string)
  datatype Table = Table(id: string, namespaceId: string, name: string)
  datatype Column = Column(tableId: string, name: string, ordinal: int)

  function CatalogName(c: Catalog): string { c.name }
  function NamespaceName(n: Namespace): string { n.name }
  function TableId(t: Table): string { t.id }
  function TableName(t: Table): string { t.name }
  function TableNamespace(t: Table): string { t.namespaceId }
  function ColumnTable(c: Column): string { c.tableId }
  function Ordinal(c: Column): int { c.ordinal }

  /** The decoded rows of one snapshot. */
  datatype Rows = Rows(
    version: nat, catalogs: seq<Catalog>, namespaces: seq<Namespace>, tables: seq<Table>, columns: seq<Column>)

  datatype CatalogReadModel = CatalogReadModel(
    snapshotVersion: nat, catalogs: seq<Catalog>, namespaces: seq<Namespace>,
    catalogsByName: map<string, Catalog>, namespacesByName: map<string, Namespace>, tablesById: map<string, Table>,
    tablesByNamespaceId: map<string, seq<Table>>, columnsByTableId: map<string, seq<Column>>)

  /** The lookup tables say what scans of the rows say. */
  ghost predicate Refines(m: CatalogReadModel, rows: Rows) {
    && m.snapshotVersion == rows.version && m.catalogs == rows.catalogs && m.namespaces == rows.namespaces
    && (forall k :: Lookup(m.catalogsByName, k) == Last(rows.catalogs, CatalogName, k))
    && (forall k :: Lookup(m.namespacesByName, k) == First(rows.namespaces, NamespaceName, k))
    && (forall k :: Lookup(m.tablesById, k) == Last(rows.tables, TableId, k))
    && (forall k :: Group(m.tablesByNamespaceId, k) == Matching(rows.tables, TableNamespace, k))
    && (forall k :: StablySorted(Matching(rows.columns, ColumnTable, k), Group(m.columnsByTableId, k), Ordinal))
  }

  // ------------------------------------------------------------------
  // Construction
  // ------------------------------------------------------------------

  /** Sorts every group of columns by ordinal, keeping ties in row order. */
  method SortGroups(groups: map<string, seq<Column>>) returns (sorted: map<string, seq<Column>>)
    ensures forall k :: StablySorted(Group(groups, k), Group(sorted, k), Ordinal)
  {
    sorted := map[];
    var keys := groups.Keys;
    while keys != {}
      invariant sorted.Keys == groups.Keys - keys && keys <= groups.Keys
      invariant forall k :: k in sorted ==> StablySorted(groups[k], sorted[k], Ordinal)
      decreases keys
    {
      var k :| k in keys;
      var columns := SortStably(groups[k], Ordinal);
      sorted := sorted[k := columns];
      keys := keys - {k};
    }
  }

  method FromParts(version: nat, catalogs: seq<Catalog>, namespaces: seq<Namespace>, tables: seq<Table>,
                   columns: seq<Column>)
    returns (m: CatalogReadModel)
    ensures Refines(m, Rows(version, catalogs, namespaces, tables, columns))
  {
    var catalogsByName := IndexLast(catalogs, CatalogName);
    var namespacesByName := IndexFirst(namespaces, NamespaceName);
    var tablesById := IndexLast(tables, TableId);
    var tablesByNamespaceId := GroupRows(tables, TableNamespace);
    var groups := GroupRows(columns, ColumnTable);
    var columnsByTableId := SortGroups(groups);
    m := CatalogReadModel(version, catalogs, namespaces, catalogsByName, namespacesByName, tablesById,
                          tablesByNamespaceId, columnsByTableId);
    forall k ensures StablySorted(Matching(columns, ColumnTable, k), Group(columnsByTableId, k), Ordinal) {
      assert Group(groups, k) == Matching(columns, ColumnTable, k);
    }
  }

  // ------------------------------------------------------------------
  // Lookups
  // ------------------------------------------------------------------

  datatype Result<+T> = Ok(value: T) | NotFound(entity: string, name: string)

  const DEFAULT_CATALOG: string := "default"

  function IdOf(c: Option<Catalog>): Option<string> { if c.Some? then Some(c.value.id) else None }

  /** Whether a namespace belongs to the requested catalog, given the default catalog's id. */
  predicate BelongsTo(n: Namespace, requested: Option<string>, default: Option<string>) {
    if requested.None? then n.catalogId.None?
    else (if n.catalogId.Some? then n.catalogId else default) == requested
  }

  function FilterNamespaces(ns: seq<Namespace>, requested: Option<string>, default: Option<string>): seq<Namespace> {
    if ns == [] then []
    else
      var last := ns[|ns| - 1];
      FilterNamespaces(ns[..|ns| - 1], requested, default)
      + (if BelongsTo(last, requested, default) then [last] else [])
  }

  function ListSchemas(m: CatalogReadModel, catalog: string): Result<seq<Namespace>> {
    var default := IdOf(Lookup(m.catalogsByName, DEFAULT_CATALOG));
    var requested := IdOf(Lookup(m.catalogsByName, catalog));
    if m.snapshotVersion == 0 then NotFound("catalog", catalog)
    else if requested.Some? then Ok(FilterNamespaces(m.namespaces, requested, default))
    else if catalog == DEFAULT_CATALOG then Ok(FilterNamespaces(m.namespaces, default, default))
    else NotFound("catalog", catalog)
  }

  function ListTablesForNamespaceId(m: CatalogReadModel, id: string): seq<Table> { Group(m.tablesByNamespaceId, id) }

  function ListTables(m: CatalogReadModel, namespace: string): Result<seq<Table>> {
    if m.snapshotVersion == 0 || namespace !in m.namespacesByName then NotFound("namespace", namespace)
    else Ok(ListTablesForNamespaceId(m, m.namespacesByName[namespace].id))
  }

  function ListTablesInSchema(m: CatalogReadModel, catalog: string, schema: string): Result<seq<Table>> {
    match ListSchemas(m, catalog)
    case NotFound(entity, name) => NotFound(entity, name)
    case Ok(schemas) =>
      match First(schemas, NamespaceName, schema)
      case None => NotFound("schema", catalog + "." + schema)
      case Some(n) => Ok(ListTablesForNamespaceId(m, n.id))
  }

  function FindTable(tables: Result<seq<Table>>, name: string): Result<Option<Table>> {
    match tables
    case NotFound(entity, n) => NotFound(entity, n)
    case Ok(ts) => Ok(First(ts, TableName, name))
  }

  function GetTable(m: CatalogReadModel, namespace: string, name: string): Result<Option<Table>> {
    FindTable(ListTables(m, namespace), name)
  }

  function GetTableInSchema(m: CatalogReadModel, catalog: string, schema: string, name: string): Result<Option<Table>> {
    FindTable(ListTablesInSchema(m, catalog, schema), name)
  }

  function GetTableById(m: CatalogReadModel, id: string): Option<Table> { Lookup(m.tablesById, id) }

  function GetColumns(m: CatalogReadModel, tableId: string): seq<Column> { Group(m.columnsByTableId, tableId) }

  // ------------------------------------------------------------------
  // Lookups agree with scans
  // ------------------------------------------------------------------

  /** The first table row of a namespace with a name. */
  ghost function ScanTable(tables: seq<Table>, namespaceId: string, name: string): Option<Table> {
    if tables == [] then None
    else
      var (init, last) := (tables[..|tables| - 1], tables[|tables| - 1]);
      var first := ScanTable(init, namespaceId, name);
      if first.Some? then first
      else if last.namespaceId == namespaceId && last.name == name then Some(last)
      else None
  }

  lemma {:induction false} FirstOfMatching(tables: seq<Table>, namespaceId: string, name: string)
    ensures First(Matching(tables, TableNamespace, namespaceId), TableName, name)
            == ScanTable(tables, namespaceId, name)
    decreases |tables|
  {
    if tables != [] {
      var (init, last) := (tables[..|tables| - 1], tables[|tables| - 1]);
      FirstOfMatching(init, namespaceId, name);
      var matching := Matching(init, TableNamespace, namespaceId);
      if last.namespaceId == namespaceId {
        assert (matching + [last])[..|matching|] == matching;
      } else {
        assert matching + [] == matching;
      }
    }
  }

  /** By legacy namespace name: the first table row so named under the first namespace row so named. */
  lemma GetTableScans(m: CatalogReadModel, rows: Rows, namespace: string, name: string)
    requires Refines(m, rows)
    ensures GetTable(m, namespace, name) ==
            match First(rows.namespaces, NamespaceName, namespace)
            case Some(n) =>
              if rows.version == 0 then NotFound("namespace", namespace)
              else Ok(ScanTable(rows.tables, n.id, name))
            case None => NotFound("namespace", namespace)
  {
    assert Lookup(m.namespacesByName, namespace) == First(rows.namespaces, NamespaceName, namespace);
    if namespace in m.namespacesByName {
      FirstOfMatching(rows.tables, m.namespacesByName[namespace].id, name);
    }
  }

  // ------------------------------------------------------------------
  // Listings are the wanted rows, once each and in row order
  // ------------------------------------------------------------------

  lemma {:induction false} FilterPicks(ns: seq<Namespace>, requested: Option<string>, default: Option<string>,
                                       wanted: Namespace -> bool)
    requires forall n :: wanted(n) <==> BelongsTo(n, requested, default)
    ensures Picks(ns, FilterNamespaces(ns, requested, default), wanted)
    decreases |ns|
  {
    if ns != [] {
      var n := |ns| - 1;
      FilterPicks(ns[..n], requested, default, wanted);
      assert ns[..n] + [ns[n]] == ns;
      PicksGrow(ns[..n], FilterNamespaces(ns[..n], requested, default), wanted, ns[n],
                FilterNamespaces(ns, requested, default));
    }
  }

  /** Row `i` is the first namespace row with the name. */
  ghost predicate FirstNamespace(rows: Rows, name: string, i: int) {
    && 0 <= i < |rows.namespaces| && rows.namespaces[i].name == name
    && forall j :: 0 <= j < i ==> rows.namespaces[j].name != name
  }

  /** Row `i` is the last catalog row with the name. */
  ghost predicate LastCatalog(rows: Rows, name: string, i: int) {
    && 0 <= i < |rows.catalogs| && rows.catalogs[i].name == name
    && forall j :: i < j < |rows.catalogs| ==> rows.catalogs[j].name != name
  }

  ghost predicate NoCatalog(rows: Rows, name: string) {
    forall i :: 0 <= i < |rows.catalogs| ==> rows.catalogs[i].name != name
  }

  lemma CatalogIs(m: CatalogReadModel, rows: Rows, name: string, i: int)
    requires Refines(m, rows)
    ensures LastCatalog(rows, name, i) ==> Lookup(m.catalogsByName, name) == Some(rows.catalogs[i])
    ensures NoCatalog(rows, name) <==> Lookup(m.catalogsByName, name).None?
  {
    LastIs(rows.catalogs, CatalogName, name);
    assert Lookup(m.catalogsByName, name) == Last(rows.catalogs, CatalogName, name);
  }

  /**
   Whether a namespace row is listed under a catalog name, in terms of the rows: it names the
   id of the last catalog row so named, or names none while that id is also the id of the last
   row named `default`; and without any such row `default` lists the rows that name none.
   */
  ghost predicate ListedIn(rows: Rows, catalog: string, n: Namespace) {
    || (exists i :: LastCatalog(rows, catalog, i) && n.catalogId == Some(rows.catalogs[i].id))
    || (exists i, j :: LastCatalog(rows, catalog, i) && LastCatalog(rows, DEFAULT_CATALOG, j)
                       && n.catalogId.None? && rows.catalogs[i].id == rows.catalogs[j].id)
    || (NoCatalog(rows, catalog) && n.catalogId.None?)
  }

  lemma CatalogNamed(m: CatalogReadModel, rows: Rows, name: string) returns (i: int)
    requires Refines(m, rows)
    ensures if NoCatalog(rows, name) then Lookup(m.catalogsByName, name).None?
            else LastCatalog(rows, name, i) && Lookup(m.catalogsByName, name) == Some(rows.catalogs[i])
  {
    CatalogIs(m, rows, name, 0);
    LastIs(rows.catalogs, CatalogName, name);
    i := 0;
    if !NoCatalog(rows, name) {
      assert Lookup(m.catalogsByName, name) == Last(rows.catalogs, CatalogName, name);
      i :| 0 <= i < |rows.catalogs| && rows.catalogs[i] == Last(rows.catalogs, CatalogName, name).value
           && CatalogName(rows.catalogs[i]) == name
           && forall j :: i < j < |rows.catalogs| ==> CatalogName(rows.catalogs[j]) != name;
    }
  }

  lemma LastCatalogIsUnique(rows: Rows, name: string, i: int, j: int)
    requires LastCatalog(rows, name, i) && LastCatalog(rows, name, j)
    ensures i == j
  {
  }

  lemma ListedInIs(m: CatalogReadModel, rows: Rows, catalog: string, n: Namespace)
    requires Refines(m, rows) && (catalog == DEFAULT_CATALOG || !NoCatalog(rows, catalog))
    ensures var default := IdOf(Lookup(m.catalogsByName, DEFAULT_CATALOG));
            ListedIn(rows, catalog, n) <==> BelongsTo(n, IdOf(Lookup(m.catalogsByName, catalog)), default)
  {
    var i := CatalogNamed(m, rows, catalog);
    var j := CatalogNamed(m, rows, DEFAULT_CATALOG);
    forall k | LastCatalog(rows, catalog, k) && !NoCatalog(rows, catalog) ensures k == i {
      LastCatalogIsUnique(rows, catalog, k, i);
    }
    forall k | LastCatalog(rows, DEFAULT_CATALOG, k) && !NoCatalog(rows, DEFAULT_CATALOG) ensures k == j {
      LastCatalogIsUnique(rows, DEFAULT_CATALOG, k, j);
    }
  }

  /**
   For all rows, the schemas of a catalog are its namespace rows, once each and in row order,
   or the catalog is missing.
   */
  lemma ListSchemasScans(m: CatalogReadModel, rows: Rows, catalog: string, wanted: Namespace -> bool)
    requires Refines(m, rows) && forall n :: wanted(n) <==> ListedIn(rows, catalog, n)
    ensures ListSchemas(m, catalog).Ok? <==>
            rows.version > 0 && (catalog == DEFAULT_CATALOG || !NoCatalog(rows, catalog))
    ensures ListSchemas(m, catalog).Ok? ==> Picks(rows.namespaces, ListSchemas(m, catalog).value, wanted)
    ensures !ListSchemas(m, catalog).Ok? ==> ListSchemas(m, catalog) == NotFound("catalog", catalog)
  {
    CatalogIs(m, rows, catalog, 0);
    if ListSchemas(m, catalog).Ok? {
      var default := IdOf(Lookup(m.catalogsByName, DEFAULT_CATALOG));
      var requested := IdOf(Lookup(m.catalogsByName, catalog));
      forall n ensures wanted(n) <==> BelongsTo(n, requested, default) {
        ListedInIs(m, rows, catalog, n);
      }
      FilterPicks(rows.namespaces, requested, default, wanted);
    }
  }

  lemma NamespaceNamed(m: CatalogReadModel, rows: Rows, name: string, i: int)
    requires Refines(m, rows)
    ensures FirstNamespace(rows, name, i) ==> Lookup(m.namespacesByName, name) == Some(rows.namespaces[i])
    ensures (forall j :: !FirstNamespace(rows, name, j)) ==> Lookup(m.namespacesByName, name).None?
  {
    FirstIs(rows.namespaces, NamespaceName, name);
    assert Lookup(m.namespacesByName, name) == First(rows.namespaces, NamespaceName, name);
    if First(rows.namespaces, NamespaceName, name).Some? {
      var k :| 0 <= k < |rows.namespaces| && rows.namespaces[k] == First(rows.namespaces, NamespaceName, name).value
               && NamespaceName(rows.namespaces[k]) == name
               && forall j :: 0 <= j < k ==> NamespaceName(rows.namespaces[j]) != name;
      assert FirstNamespace(rows, name, k);
      assert FirstNamespace(rows, name, i) ==> i == k;
    } else {
      assert FirstNamespace(rows, name, i) ==> NamespaceName(rows.namespaces[i]) == name;
    }
  }

  /**
   For all rows, the tables of a namespace name are the table rows under the first namespace
   row so named, once each and in row order, or the namespace is missing.
   */
  lemma ListTablesScans(m: CatalogReadModel, rows: Rows, namespace: string, i: int, wanted: Table -> bool)
    requires Refines(m, rows)
    ensures rows.version > 0 && FirstNamespace(rows, namespace, i)
            && (forall t :: wanted(t) <==> t.namespaceId == rows.namespaces[i].id) ==>
              ListTables(m, namespace).Ok? && Picks(rows.tables, ListTables(m, namespace).value, wanted)
    ensures rows.version == 0 || (forall j :: !FirstNamespace(rows, namespace, j)) ==>
              ListTables(m, namespace) == NotFound("namespace", namespace)
  {
    NamespaceNamed(m, rows, namespace, i);
    if FirstNamespace(rows, namespace, i) && forall t :: wanted(t) <==> t.namespaceId == rows.namespaces[i].id {
      MatchingPicks(rows.tables, TableNamespace, rows.namespaces[i].id, wanted);
    }
  }

  /**
   The columns of a table come in ascending ordinal order, and those of one ordinal are the
   table's rows of that ordinal, once each and in row order.
   */
  lemma GetColumnsPicks(m: CatalogReadModel, rows: Rows, tableId: string, o: int, has: Column -> bool,
                        owns: Column -> bool)
    returns (tied: seq<Column>)
    requires Refines(m, rows)
    requires forall c :: has(c) <==> c.ordinal == o
    requires forall c :: owns(c) <==> c.tableId == tableId && c.ordinal == o
    ensures forall i, j :: 0 <= i < j < |GetColumns(m, tableId)| ==>
              GetColumns(m, tableId)[i].ordinal <= GetColumns(m, tableId)[j].ordinal
    ensures Picks(GetColumns(m, tableId), tied, has) && Picks(rows.columns, tied, owns)
  {
    var got := GetColumns(m, tableId);
    tied := AtOrdinal(got, Ordinal, o);
    assert StablySorted(Matching(rows.columns, ColumnTable, tableId), got, Ordinal);
    AtOrdinalPicks(got, Ordinal, o, has);
    TiedPicks(rows.columns, ColumnTable, tableId, Ordinal, o, owns);
  }

  /** By id: the last table row with that id. */
  lemma GetTableByIdScans(m: CatalogReadModel, rows: Rows, id: string)
    requires Refines(m, rows)
    ensures match GetTableById(m, id)
            case Some(t) =>
              exists i :: 0 <= i < |rows.tables| && rows.tables[i] == t && t.id == id
                          && forall j :: i < j < |rows.tables| ==> rows.tables[j].id != id
            case None => forall i :: 0 <= i < |rows.tables| ==> rows.tables[i].id != id
  {
    LastIs(rows.tables, TableId, id);
    assert Lookup(m.tablesById, id) == Last(rows.tables, TableId, id);
  }

  /** Columns come out as the stable ordinal sort of the table's rows, which is unique. */
  lemma GetColumnsScans(m: CatalogReadModel, rows: Rows, tableId: string, sorted: seq<Column>)
    requires Refines(m, rows)
    ensures StablySorted(Matching(rows.columns, ColumnTable, tableId), sorted, Ordinal) <==>
            sorted == GetColumns(m, tableId)
  {
    var got := GetColumns(m, tableId);
    if StablySorted(Matching(rows.columns, ColumnTable, tableId), sorted, Ordinal) {
      forall o ensures AtOrdinal(sorted, Ordinal, o) == AtOrdinal(got, Ordinal, o) {
        assert AtOrdinal(got, Ordinal, o) == AtOrdinal(Matching(rows.columns, ColumnTable, tableId), Ordinal, o);
      }
      StableSortIsUnique(sorted, got, Ordinal);
    }
  }

  // ------------------------------------------------------------------
  // Schemas and their catalogs
  // ------------------------------------------------------------------

  /** Catalog names and ids are unique, and every catalog reference resolves. */
  ghost predicate ReferencesOk(rows: Rows) {
    && (forall i, j :: 0 <= i < j < |rows.catalogs| ==>
          rows.catalogs[i].name != rows.catalogs[j].name && rows.catalogs[i].id != rows.catalogs[j].id)
    && (forall n :: n in rows.namespaces && n.catalogId.Some? ==>
          exists i :: 0 <= i < |rows.catalogs| && rows.catalogs[i].id == n.catalogId.value)
  }

  lemma {:induction false} FilterMembers(ns: seq<Namespace>, requested: Option<string>, default: Option<string>,
                                         n: Namespace)
    ensures n in FilterNamespaces(ns, requested, default) <==> n in ns && BelongsTo(n, requested, default)
    decreases |ns|
  {
    if ns != [] {
      FilterMembers(ns[..|ns| - 1], requested, default, n);
      assert ns == ns[..|ns| - 1] + [ns[|ns| - 1]];
    }
  }

  /** The catalog a namespace belongs to: its own, or `default` for a legacy null id. */
  ghost predicate IsHome(rows: Rows, n: Namespace, catalog: string) {
    match n.catalogId
    case None => catalog == DEFAULT_CATALOG
    case Some(id) => exists i :: 0 <= i < |rows.catalogs| && rows.catalogs[i] == Catalog(id, catalog)
  }

  ghost predicate ListedUnder(m: CatalogReadModel, n: Namespace, catalog: string) {
    ListSchemas(m, catalog).Ok? && n in ListSchemas(m, catalog).value
  }

  /** The id the lookup finds for a catalog name is the id of the one row so named. */
  lemma NameResolves(m: CatalogReadModel, rows: Rows, name: string)
    requires Refines(m, rows) && ReferencesOk(rows)
    ensures match IdOf(Lookup(m.catalogsByName, name))
            case Some(id) => exists i :: 0 <= i < |rows.catalogs| && rows.catalogs[i] == Catalog(id, name)
            case None => forall i :: 0 <= i < |rows.catalogs| ==> rows.catalogs[i].name != name
  {
    LastIs(rows.catalogs, CatalogName, name);
    assert Lookup(m.catalogsByName, name) == Last(rows.catalogs, CatalogName, name);
  }

  /** The catalog id a listing filters by, and the default catalog's id. */
  ghost function Default(m: CatalogReadModel): Option<string> { IdOf(Lookup(m.catalogsByName, DEFAULT_CATALOG)) }

  ghost function Requested(m: CatalogReadModel, catalog: string): Option<string> {
    IdOf(Lookup(m.catalogsByName, catalog))
  }

  /** A listing succeeds for the catalogs of the snapshot and for `default`, and selects by home. */
  lemma ListingSelectsByHome(m: CatalogReadModel, rows: Rows, n: Namespace, catalog: string)
    requires Refines(m, rows) && ReferencesOk(rows) && rows.version > 0 && n in rows.namespaces
    ensures ListSchemas(m, catalog).Ok? ==>
              (BelongsTo(n, Requested(m, catalog), Default(m)) <==> IsHome(rows, n, catalog))
    ensures ListSchemas(m, catalog).Ok? ==>
              ListSchemas(m, catalog).value == FilterNamespaces(rows.namespaces, Requested(m, catalog), Default(m))
    ensures IsHome(rows, n, catalog) ==> ListSchemas(m, catalog).Ok?
  {
    NameResolves(m, rows, DEFAULT_CATALOG);
    NameResolves(m, rows, catalog);
  }

  lemma ListedUnderIffHome(m: CatalogReadModel, rows: Rows, n: Namespace, catalog: string)
    requires Refines(m, rows) && ReferencesOk(rows) && rows.version > 0 && n in rows.namespaces
    ensures ListedUnder(m, n, catalog) <==> IsHome(rows, n, catalog)
  {
    ListingSelectsByHome(m, rows, n, catalog);
    FilterMembers(rows.namespaces, Requested(m, catalog), Default(m), n);
  }

  lemma HomeIsUnique(rows: Rows, n: Namespace, a: string, b: string)
    requires ReferencesOk(rows) && IsHome(rows, n, a) && IsHome(rows, n, b)
    ensures a == b
  {
  }

  /** Every namespace is listed under exactly one catalog name. */
  lemma ListedUnderExactlyOneCatalog(m: CatalogReadModel, rows: Rows, n: Namespace) returns (home: string)
    requires Refines(m, rows) && ReferencesOk(rows) && rows.version > 0 && n in rows.namespaces
    ensures IsHome(rows, n, home)
    ensures forall catalog :: ListedUnder(m, n, catalog) <==> catalog == home
  {
    if n.catalogId.None? {
      home := DEFAULT_CATALOG;
    } else {
      var i :| 0 <= i < |rows.catalogs| && rows.catalogs[i].id == n.catalogId.value;
      home := rows.catalogs[i].name;
      assert rows.catalogs[i] == Catalog(n.catalogId.value, home);
    }
    forall catalog ensures ListedUnder(m, n, catalog) <==> catalog == home {
      ListedUnderIffHome(m, rows, n, catalog);
      if ListedUnder(m, n, catalog) {
        HomeIsUnique(rows, n, catalog, home);
      }
    }
  }

  /** Row `i` is the first namespace row that `selects`. */
  ghost predicate IsFirst(ns: seq<Namespace>, selects: Namespace -> bool, i: int) {
    0 <= i < |ns| && selects(ns[i]) && forall j :: 0 <= j < i ==> !selects(ns[j])
  }

  lemma {:induction false} FirstFiltered(ns: seq<Namespace>, requested: Option<string>, default: Option<string>,
                                         schema: string)
    ensures match First(FilterNamespaces(ns, requested, default), NamespaceName, schema)
            case Some(n) =>
              exists i ::
                && IsFirst(ns, (x: Namespace) => BelongsTo(x, requested, default) && x.name == schema, i)
                && ns[i] == n
            case None => forall i :: 0 <= i < |ns| ==> !(BelongsTo(ns[i], requested, default) && ns[i].name == schema)
    decreases |ns|
  {
    if ns != [] {
      var (init, last) := (ns[..|ns| - 1], ns[|ns| - 1]);
      FirstFiltered(init, requested, default, schema);
      var filtered := FilterNamespaces(init, requested, default);
      assert (filtered + [last])[..|filtered|] == filtered && filtered + [] == filtered;
      assert forall i :: 0 <= i < |init| ==> init[i] == ns[i];
      var selects := (x: Namespace) => BelongsTo(x, requested, default) && x.name == schema;
      var first := First(filtered, NamespaceName, schema);
      if first.Some? {
        var i :| IsFirst(init, selects, i) && init[i] == first.value;
        assert IsFirst(ns, selects, i);
      } else if BelongsTo(last, requested, default) && last.name == schema {
        assert IsFirst(ns, selects, |init|);
      }
    }
  }

  /** With valid references: the table rows of the first namespace row so named whose home is the catalog. */
  lemma ListTablesInSchemaByHome(m: CatalogReadModel, rows: Rows, catalog: string, schema: string)
    requires Refines(m, rows) && ReferencesOk(rows) && rows.version > 0
    ensures match ListTablesInSchema(m, catalog, schema)
            case Ok(tables) =>
              exists i :: IsFirst(rows.namespaces, (n: Namespace) => IsHome(rows, n, catalog) && n.name == schema, i)
                          && tables == Matching(rows.tables, TableNamespace, rows.namespaces[i].id)
            case NotFound(_, _) =>
              forall i :: 0 <= i < |rows.namespaces| ==>
                !(IsHome(rows, rows.namespaces[i], catalog) && rows.namespaces[i].name == schema)
  {
    var ns := rows.namespaces;
    var (requested, default) := (Requested(m, catalog), Default(m));
    FirstFiltered(ns, requested, default, schema);
    forall i | 0 <= i < |ns|
      ensures ListSchemas(m, catalog).Ok? ==> (BelongsTo(ns[i], requested, default) <==> IsHome(rows, ns[i], catalog))
      ensures IsHome(rows, ns[i], catalog) ==> ListSchemas(m, catalog).Ok?
    {
      ListingSelectsByHome(m, rows, ns[i], catalog);
    }
    if ListTablesInSchema(m, catalog, schema).Ok? {
      var i :| IsFirst(ns, (x: Namespace) => BelongsTo(x, requested, default) && x.name == schema, i)
               && ns[i] == First(FilterNamespaces(ns, requested, default), NamespaceName, schema).value;
      assert IsFirst(ns, (n: Namespace) => IsHome(rows, n, catalog) && n.name == schema, i);
    }
  }

  // ------------------------------------------------------------------
  // Schema lookups agree with scans, whatever the rows
  // ------------------------------------------------------------------

  /** The id of the last catalog row with a name. */
  ghost function CatalogId(rows: Rows, name: string): Option<string> { IdOf(Last(rows.catalogs, CatalogName, name)) }

  /** The first namespace row of a catalog with a name. */
  ghost function ScanNamespace(ns: seq<Namespace>, requested: Option<string>, default: Option<string>,
                               schema: string): Option<Namespace> {
    if ns == [] then None
    else
      var (init, last) := (ns[..|ns| - 1], ns[|ns| - 1]);
      var first := ScanNamespace(init, requested, default, schema);
      if first.Some? then first
      else if BelongsTo(last, requested, default) && last.name == schema then Some(last)
      else None
  }

  lemma {:induction false} FirstOfFilter(ns: seq<Namespace>, requested: Option<string>, default: Option<string>,
                                         schema: string)
    ensures First(FilterNamespaces(ns, requested, default), NamespaceName, schema)
            == ScanNamespace(ns, requested, default, schema)
    decreases |ns|
  {
    if ns != [] {
      var (init, last) := (ns[..|ns| - 1], ns[|ns| - 1]);
      FirstOfFilter(init, requested, default, schema);
      var filtered := FilterNamespaces(init, requested, default);
      assert (filtered + [last])[..|filtered|] == filtered && filtered + [] == filtered;
    }
  }

  /** A scan for a schema: the catalog must be known or `default`, and must have a namespace row so named. */
  ghost function ScanSchema(rows: Rows, catalog: string, schema: string): Result<Namespace> {
    var (requested, default) := (CatalogId(rows, catalog), CatalogId(rows, DEFAULT_CATALOG));
    if rows.version == 0 || (requested.None? && catalog != DEFAULT_CATALOG) then NotFound("catalog", catalog)
    else
      match ScanNamespace(rows.namespaces, requested, default, schema)
      case None => NotFound("schema", catalog + "." + schema)
      case Some(n) => Ok(n)
  }

  ghost function ScanTablesInSchema(rows: Rows, catalog: string, schema: string): Result<seq<Table>> {
    match ScanSchema(rows, catalog, schema)
    case Ok(n) => Ok(Matching(rows.tables, TableNamespace, n.id))
    case NotFound(entity, missing) => NotFound(entity, missing)
  }

  ghost function ScanTableInSchema(rows: Rows, catalog: string, schema: string, name: string): Result<Option<Table>> {
    match ScanSchema(rows, catalog, schema)
    case Ok(n) => Ok(ScanTable(rows.tables, n.id, name))
    case NotFound(entity, missing) => NotFound(entity, missing)
  }

  /** By catalog and schema: the table rows of the namespace a scan finds, or the scan's error. */
  lemma ListTablesInSchemaScans(m: CatalogReadModel, rows: Rows, catalog: string, schema: string)
    requires Refines(m, rows)
    ensures ListTablesInSchema(m, catalog, schema) == ScanTablesInSchema(rows, catalog, schema)
  {
    assert Lookup(m.catalogsByName, catalog) == Last(rows.catalogs, CatalogName, catalog);
    assert Lookup(m.catalogsByName, DEFAULT_CATALOG) == Last(rows.catalogs, CatalogName, DEFAULT_CATALOG);
    FirstOfFilter(rows.namespaces, CatalogId(rows, catalog), CatalogId(rows, DEFAULT_CATALOG), schema);
  }

  /** By catalog, schema and table name: the first table row so named under that namespace, or the scan's error. */
  lemma GetTableInSchemaScans(m: CatalogReadModel, rows: Rows, catalog: string, schema: string, name: string)
    requires Refines(m, rows)
    ensures GetTableInSchema(m, catalog, schema, name) == ScanTableInSchema(rows, catalog, schema, name)
  {
    ListTablesInSchemaScans(m, rows, catalog, schema);
    if ScanSchema(rows, catalog, schema).Ok? {
      FirstOfMatching(rows.tables, ScanSchema(rows, catalog, schema).value.id, name);
    }
  }
}
