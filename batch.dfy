/** The DataFrame batch runners of the two-provider module: `geocode` and
    `reverse_geocode`, the column initialisation they share, and the names
    of the per-row debug dumps. A table is a sequence of rows with integer
    index labels; a row maps column names to cell values. */
module Batch {
  import opened Python
  import opened Schema
  import opened Dispatch

  datatype Row = Row(index: nat, cells: map<string, Value>)
  datatype Table = Table(columns: seq<string>, rows: seq<Row>)

  /** Every row has a cell for exactly the table's columns. */
  ghost predicate WellFormed(t: Table) {
    forall i, c :: 0 <= i < |t.rows| ==> (c in t.rows[i].cells <==> c in t.columns)
  }

  /** `row[column]`; the column checks of the runners make sure it exists. */
  function Cell(row: Row, column: string): Value {
    if column in row.cells then row.cells[column] else Null
  }

  /** `df[column] = None`: a new column is appended, an existing one keeps
      its place, and every cell of the column becomes None. */
  function AddColumn(t: Table, column: string): (r: Table)
    ensures forall c :: c in r.columns <==> c in t.columns || c == column
    ensures t.columns <= r.columns
    ensures |r.rows| == |t.rows|
    ensures forall i :: 0 <= i < |r.rows| ==> r.rows[i].index == t.rows[i].index
    ensures forall i, c :: 0 <= i < |r.rows| ==>
              (c in r.rows[i].cells <==> c in t.rows[i].cells || c == column)
    ensures forall i, c :: 0 <= i < |r.rows| && c in r.rows[i].cells ==>
              r.rows[i].cells[c] == if c == column then Null else t.rows[i].cells[c]
    ensures WellFormed(t) ==> WellFormed(r)
  {
    Table(if column in t.columns then t.columns else t.columns + [column],
          seq(|t.rows|, i requires 0 <= i < |t.rows| => Row(t.rows[i].index, t.rows[i].cells[column := Null])))
  }

  /** `for col in columns: df[col] = None` */
  function AddColumns(t: Table, columns: seq<string>): Table
    decreases |columns|
  {
    if columns == [] then t else AddColumn(AddColumns(t, columns[..|columns| - 1]), columns[|columns| - 1])
  }

  /** Adding a list of columns keeps the row order and the index labels,
      and the table's columns become the old ones plus the listed ones. */
  lemma {:induction false} AddColumnsShape(t: Table, columns: seq<string>)
    ensures var r := AddColumns(t, columns);
            && t.columns <= r.columns
            && (forall c :: c in r.columns <==> c in t.columns || c in columns)
            && |r.rows| == |t.rows|
            && (forall i :: 0 <= i < |r.rows| ==> r.rows[i].index == t.rows[i].index)
    decreases |columns|
  {
    if columns != [] {
      var init := columns[..|columns| - 1];
      AddColumnsShape(t, init);
      assert forall c :: c in columns <==> c in init || c == columns[|columns| - 1];
    }
  }

  /** In each row every listed column is set to None and every other cell
      is kept. */
  lemma {:induction false} AddColumnsCells(t: Table, columns: seq<string>, i: nat)
    requires i < |t.rows|
    ensures |AddColumns(t, columns).rows| == |t.rows|
    ensures var cells := AddColumns(t, columns).rows[i].cells;
            && (forall c :: c in cells <==> c in t.rows[i].cells || c in columns)
            && (forall c :: c in cells ==> cells[c] == if c in columns then Null else t.rows[i].cells[c])
    decreases |columns|
  {
    AddColumnsShape(t, columns);
    if columns != [] {
      var init := columns[..|columns| - 1];
      AddColumnsCells(t, init, i);
      assert forall c :: c in columns <==> c in init || c == columns[|columns| - 1];
    }
  }

  /** Adding columns keeps a table well formed. */
  lemma AddColumnsWellFormed(t: Table, columns: seq<string>)
    requires WellFormed(t)
    ensures WellFormed(AddColumns(t, columns))
  {
    AddColumnsShape(t, columns);
    forall i | 0 <= i < |t.rows|
      ensures forall c :: c in AddColumns(t, columns).rows[i].cells <==> c in AddColumns(t, columns).columns
    {
      AddColumnsCells(t, columns, i);
    }
  }

  /** The loop that initialises the detail columns. */
  method InitColumns(t: Table, columns: seq<string>) returns (r: Table)
    ensures r == AddColumns(t, columns)
  {
    r := t;
    for j := 0 to |columns|
      invariant r == AddColumns(t, columns[..j])
    {
      assert columns[..j + 1][..j] == columns[..j];
      r := AddColumn(r, columns[j]);
    }
    assert columns[..|columns|] == columns;
  }

  /** `if result:` — a result that is neither None nor an empty dict. */
  predicate Found(result: Option<Record>) {
    result.Some? && result.value != map[]
  }

  /** `result.get(name, default)` */
  function Fetch(result: Record, k: Key, default: Value): Value {
    if k in result then result[k] else default
  }

  // ---------------------------------------------------------------- geocode

  /** One row of `geocode`: the result of looking up the row's address,
      written into the two coordinate columns when it is found. */
  function ForwardRow(row: Row, addressColumn: string, lonColumn: string, latColumn: string,
                      lookup: Value -> Option<Record>): Row {
    var result := lookup(Cell(row, addressColumn));
    if Found(result) then
      Row(row.index, row.cells[lonColumn := Fetch(result.value, Longitude, Null)]
                              [latColumn := Fetch(result.value, Latitude, Null)])
    else row
  }

  /** Every row of a table processed by ForwardRow. */
  function ForwardTable(t: Table, addressColumn: string, lonColumn: string, latColumn: string,
                        lookup: Value -> Option<Record>): Table {
    Table(t.columns, seq(|t.rows|, i requires 0 <= i < |t.rows| => ForwardRow(t.rows[i], addressColumn, lonColumn, latColumn, lookup)))
  }

  /** Forward geocoding writes the two coordinate cells of a row whose
      lookup is found and touches no other cell, row, index or column. */
  lemma ForwardTableSpec(t: Table, addressColumn: string, lonColumn: string, latColumn: string,
                         lookup: Value -> Option<Record>)
    requires WellFormed(t) && lonColumn in t.columns && latColumn in t.columns
    ensures var r := ForwardTable(t, addressColumn, lonColumn, latColumn, lookup);
            && r.columns == t.columns && |r.rows| == |t.rows| && WellFormed(r)
            && (forall i :: 0 <= i < |t.rows| ==> r.rows[i].index == t.rows[i].index)
            && (forall i, c :: 0 <= i < |t.rows| && c in t.rows[i].cells && c != lonColumn && c != latColumn ==>
                  r.rows[i].cells[c] == t.rows[i].cells[c])
            && (forall i :: 0 <= i < |t.rows| && !Found(lookup(Cell(t.rows[i], addressColumn))) ==>
                  r.rows[i] == t.rows[i])
            && (forall i :: 0 <= i < |t.rows| && Found(lookup(Cell(t.rows[i], addressColumn))) ==>
                  var result := lookup(Cell(t.rows[i], addressColumn)).value;
                  && r.rows[i].cells[latColumn] == Fetch(result, Latitude, Null)
                  && (lonColumn != latColumn ==> r.rows[i].cells[lonColumn] == Fetch(result, Longitude, Null)))
  {
  }

  /** The row loop of `geocode`. */
  method ForwardRows(t: Table, addressColumn: string, lonColumn: string, latColumn: string,
                     lookup: Value -> Option<Record>) returns (out: Table)
    ensures out == ForwardTable(t, addressColumn, lonColumn, latColumn, lookup)
  {
    var rows: seq<Row> := [];
    for i := 0 to |t.rows|
      invariant |rows| == i
      invariant forall j :: 0 <= j < i ==> rows[j] == ForwardRow(t.rows[j], addressColumn, lonColumn, latColumn, lookup)
    {
      var row := t.rows[i];
      var address := Cell(row, addressColumn);
      var result := lookup(address);
      var cells := row.cells;
      if result.Some? && result.value != map[] {
        cells := cells[lonColumn := Fetch(result.value, Longitude, Null)];
        cells := cells[latColumn := Fetch(result.value, Latitude, Null)];
      }
      rows := rows + [Row(row.index, cells)];
    }
    out := Table(t.columns, rows);
  }

  /** The table `geocode` hands back in terms of its input, after the two
      output columns are initialised. */
  function GeocodedTable(t: Table, addressColumn: string, lonColumn: string, latColumn: string,
                         lookup: Value -> Option<Record>): Table {
    ForwardTable(AddColumn(AddColumn(t, lonColumn), latColumn), addressColumn, lonColumn, latColumn, lookup)
  }

  /** Whether `_get_provider` builds a new adapter: the name is supported,
      not cached yet, and construction finds its credentials. */
  predicate BuildsAdapter(provider: Option<string>, instances: map<string, GeocodingApi>, credentialsFound: bool) {
    VendorOf(NormalizeProvider(provider)).Some? && NormalizeProvider(provider) !in instances && credentialsFound
  }

  /** `geocode(df, address_column, ..., provider)`. `adapter` is what each
      vendor's `geocode_address` returns for an address. */
  method Geocode(t: Table, addressColumn: string, lonColumn: string, latColumn: string,
                 provider: Option<string>, registry: ProviderRegistry, credentialsFound: bool,
                 adapter: Vendor -> (Value -> Option<Record>)) returns (r: Result<Table>)
    requires registry.Valid()
    modifies registry
    ensures registry.Valid()
    // the column check comes before the provider is looked up
    ensures addressColumn !in t.columns ==>
              r == Failure(MissingColumn(addressColumn)) && registry.instances == old(registry.instances)
    ensures addressColumn in t.columns && VendorOf(NormalizeProvider(provider)).None? ==>
              r == Failure(UnsupportedProvider(NormalizeProvider(provider)))
    // a supported provider runs unless its adapter must be built and finds no credentials
    ensures addressColumn in t.columns && VendorOf(NormalizeProvider(provider)).Some? ==>
              if credentialsFound || NormalizeProvider(provider) in old(registry.instances) then r.Success?
              else r == Failure(MissingCredentials)
    // the cache gains an entry only when a new adapter is built, and changes in no other way
    ensures addressColumn in t.columns && BuildsAdapter(provider, old(registry.instances), credentialsFound) ==>
              && NormalizeProvider(provider) in registry.instances && fresh(registry.instances[NormalizeProvider(provider)])
              && registry.instances == old(registry.instances)[NormalizeProvider(provider) := registry.instances[NormalizeProvider(provider)]]
    ensures !(addressColumn in t.columns && BuildsAdapter(provider, old(registry.instances), credentialsFound)) ==>
              registry.instances == old(registry.instances)
    ensures r.Success? ==>
              && addressColumn in t.columns && VendorOf(NormalizeProvider(provider)).Some?
              && r.value == GeocodedTable(t, addressColumn, lonColumn, latColumn,
                                          adapter(VendorOf(NormalizeProvider(provider)).value))
  {
    if addressColumn !in t.columns {
      return Failure(MissingColumn(addressColumn));
    }
    var got := registry.GetProvider(provider, credentialsFound);
    if got.Failure? {
      return Failure(got.error);
    }
    var prepared := AddColumn(AddColumn(t, lonColumn), latColumn);
    var out := ForwardRows(prepared, addressColumn, lonColumn, latColumn, adapter(got.value.vendor));
    return Success(out);
  }

  // -------------------------------------------------------- reverse_geocode

  /** The detail column names, in the order the runner writes them. */
  function DetailNames(): (r: seq<string>)
    ensures |r| == |DetailColumns|
    ensures forall i :: 0 <= i < |r| ==> r[i] == Name(DetailColumns[i])
  {
    seq(|DetailColumns|, i requires 0 <= i < |DetailColumns| => Name(DetailColumns[i]))
  }

  /** Whether `c` is the name of a detail column. */
  predicate IsDetailName(c: string) {
    exists k :: k in DetailColumns && Name(k) == c
  }

  /** `for col in detail_columns: df.at[idx, col] = result.get(col, "")`
      over the first `|columns|` detail columns. */
  function DetailWrites(cells: map<string, Value>, result: Record, columns: seq<Key>): map<string, Value>
    decreases |columns|
  {
    if columns == [] then cells
    else
      var last := columns[|columns| - 1];
      DetailWrites(cells, result, columns[..|columns| - 1])[Name(last) := Fetch(result, last, Str(""))]
  }

  /** After the detail writes each listed column holds its result value,
      "" when the result lacks it, and every other cell is as before. */
  lemma {:induction false} DetailWritesSpec(cells: map<string, Value>, result: Record, columns: seq<Key>)
    ensures forall c :: c in DetailWrites(cells, result, columns) <==> c in cells || exists k :: k in columns && Name(k) == c
    ensures forall k :: k in columns ==> Name(k) in DetailWrites(cells, result, columns)
                                         && DetailWrites(cells, result, columns)[Name(k)] == Fetch(result, k, Str(""))
    ensures forall c :: c in cells && (forall k :: k in columns ==> Name(k) != c) ==>
              DetailWrites(cells, result, columns)[c] == cells[c]
    decreases |columns|
  {
    if columns != [] {
      var init := columns[..|columns| - 1];
      var last := columns[|columns| - 1];
      DetailWritesSpec(cells, result, init);
      assert forall k :: k in columns <==> k in init || k == last;
      forall k | k in columns
        ensures DetailWrites(cells, result, columns)[Name(k)] == Fetch(result, k, Str(""))
      {
        NameInjective(k, last);
      }
    }
  }

  /** The detail-write loop of one row. */
  method WriteDetails(cells: map<string, Value>, result: Record) returns (out: map<string, Value>)
    ensures out == DetailWrites(cells, result, DetailColumns)
  {
    out := cells;
    for j := 0 to |DetailColumns|
      invariant out == DetailWrites(cells, result, DetailColumns[..j])
    {
      assert DetailColumns[..j + 1][..j] == DetailColumns[..j];
      var col := DetailColumns[j];
      out := out[Name(col) := Fetch(result, col, Str(""))];
    }
    assert DetailColumns[..|DetailColumns|] == DetailColumns;
  }

  /** What `save_json` can be: None, a bool, or a path text. */
  datatype SaveJson = NoDump | Flag(on: bool) | PathText(path: string)

  /** `f"{provider}"` */
  function ProviderText(provider: Option<string>): string {
    if provider.None? then "None" else provider.value
  }

  /** The dump base name: none for a falsy `save_json`, a name made of the
      provider and the timestamp for `True` or `"auto"`, else the text given. */
  function JsonBase(saveJson: SaveJson, provider: Option<string>, timestamp: string): Option<string> {
    match saveJson
    case NoDump => None
    case Flag(on) => if on then Some("reverse_geocode_" + ProviderText(provider) + "_" + timestamp) else None
    case PathText(s) =>
      if s == "" then None
      else if s == "auto" then Some("reverse_geocode_" + ProviderText(provider) + "_" + timestamp)
      else Some(s)
  }

  /** A dump is asked for exactly when `save_json` is truthy, and then its
      base name is never empty. */
  lemma JsonBaseSpec(saveJson: SaveJson, provider: Option<string>, timestamp: string)
    ensures JsonBase(saveJson, provider, timestamp).Some? <==> saveJson == Flag(true) || (saveJson.PathText? && saveJson.path != "")
    ensures JsonBase(saveJson, provider, timestamp).Some? ==> JsonBase(saveJson, provider, timestamp).value != ""
    ensures saveJson == Flag(true) || saveJson == PathText("auto") ==>
              JsonBase(saveJson, provider, timestamp) == Some("reverse_geocode_" + ProviderText(provider) + "_" + timestamp)
    ensures saveJson.PathText? && saveJson.path != "" && saveJson.path != "auto" ==>
              JsonBase(saveJson, provider, timestamp) == Some(saveJson.path)
  {
  }

  /** The dump path of one row: `<base>.json` for a one-row table,
      `<base>_<index>.json` otherwise, and none without a base. */
  function RowJsonPath(base: Option<string>, rowCount: nat, index: nat): Option<string> {
    if base.None? || base.value == "" then None
    else if rowCount == 1 then Some(base.value + ".json")
    else Some(base.value + "_" + NatToString(index) + ".json")
  }

  /** In a table of several rows, rows with different indexes dump to
      different files. */
  lemma {:induction false} RowJsonPathsDistinct(base: Option<string>, rowCount: nat, a: nat, b: nat)
    requires rowCount != 1 && a != b
    requires RowJsonPath(base, rowCount, a).Some?
    ensures RowJsonPath(base, rowCount, b).Some?
    ensures RowJsonPath(base, rowCount, a) != RowJsonPath(base, rowCount, b)
  {
    var pa := base.value + "_" + NatToString(a) + ".json";
    var pb := base.value + "_" + NatToString(b) + ".json";
    if pa == pb {
      var n := |base.value| + 1;
      assert |NatToString(a)| == |NatToString(b)|;
      assert NatToString(a) == pa[n..|pa| - 5];
      assert NatToString(b) == pb[n..|pb| - 5];
      NatToStringInjective(a, b);
    }
  }

  /** One row of `reverse_geocode`. `reverse` is the adapter's
      `reverse_geocode_coords(lon, lat, include_details, save_json)`. */
  function ReverseRow(row: Row, lonColumn: string, latColumn: string, addressColumn: string, roadColumn: string,
                      details: bool, base: Option<string>, rowCount: nat,
                      reverse: (Value, Value, bool, Option<string>) -> Option<Record>): Row {
    var result := reverse(Cell(row, lonColumn), Cell(row, latColumn), details, RowJsonPath(base, rowCount, row.index));
    if !Found(result) then row
    else
      var cells := row.cells[addressColumn := Fetch(result.value, Address, Str(""))]
                            [roadColumn := Fetch(result.value, RoadAddress, Str(""))];
      Row(row.index, if details then DetailWrites(cells, result.value, DetailColumns) else cells)
  }

  /** Every row of a table processed by ReverseRow. */
  function ReverseTable(t: Table, lonColumn: string, latColumn: string, addressColumn: string, roadColumn: string,
                        details: bool, base: Option<string>,
                        reverse: (Value, Value, bool, Option<string>) -> Option<Record>): Table {
    Table(t.columns, seq(|t.rows|, i requires 0 <= i < |t.rows| =>
      ReverseRow(t.rows[i], lonColumn, latColumn, addressColumn, roadColumn, details, base, |t.rows|, reverse)))
  }

  /** The row loop of `reverse_geocode`. */
  method ReverseRows(t: Table, lonColumn: string, latColumn: string, addressColumn: string, roadColumn: string,
                     details: bool, base: Option<string>,
                     reverse: (Value, Value, bool, Option<string>) -> Option<Record>) returns (out: Table)
    ensures out == ReverseTable(t, lonColumn, latColumn, addressColumn, roadColumn, details, base, reverse)
  {
    var rows: seq<Row> := [];
    for i := 0 to |t.rows|
      invariant |rows| == i
      invariant forall j :: 0 <= j < i ==>
                  rows[j] == ReverseRow(t.rows[j], lonColumn, latColumn, addressColumn, roadColumn, details, base, |t.rows|, reverse)
    {
      var row := t.rows[i];
      var path := RowJsonPath(base, |t.rows|, row.index);
      var result := reverse(Cell(row, lonColumn), Cell(row, latColumn), details, path);
      var cells := row.cells;
      if result.Some? && result.value != map[] {
        cells := cells[addressColumn := Fetch(result.value, Address, Str(""))];
        cells := cells[roadColumn := Fetch(result.value, RoadAddress, Str(""))];
        if details {
          cells := WriteDetails(cells, result.value);
        }
      }
      rows := rows + [Row(row.index, cells)];
    }
    out := Table(t.columns, rows);
  }

  /** A reverse pass keeps rows, indexes and columns, leaves a row without a
      result as it was, and otherwise writes the two address cells and, in
      detail mode, every detail column; no other cell changes. */
  lemma ReverseTableSpec(t: Table, lonColumn: string, latColumn: string, addressColumn: string, roadColumn: string,
                         details: bool, base: Option<string>,
                         reverse: (Value, Value, bool, Option<string>) -> Option<Record>, i: nat)
    requires i < |t.rows|
    ensures var r := ReverseTable(t, lonColumn, latColumn, addressColumn, roadColumn, details, base, reverse);
            var result := reverse(Cell(t.rows[i], lonColumn), Cell(t.rows[i], latColumn), details,
                                  RowJsonPath(base, |t.rows|, t.rows[i].index));
            && r.columns == t.columns && |r.rows| == |t.rows| && r.rows[i].index == t.rows[i].index
            && (!Found(result) ==> r.rows[i] == t.rows[i])
            && (Found(result) ==>
                  && (forall c :: c in r.rows[i].cells <==>
                        c in t.rows[i].cells || c == addressColumn || c == roadColumn || (details && IsDetailName(c)))
                  // the two address lines, unless a later write shares their column
                  && (!(details && IsDetailName(roadColumn)) ==>
                        r.rows[i].cells[roadColumn] == Fetch(result.value, RoadAddress, Str("")))
                  && (addressColumn != roadColumn && !(details && IsDetailName(addressColumn)) ==>
                        r.rows[i].cells[addressColumn] == Fetch(result.value, Address, Str("")))
                  && (details ==> forall k :: k in DetailColumns ==> r.rows[i].cells[Name(k)] == Fetch(result.value, k, Str("")))
                  && (forall c :: c in t.rows[i].cells && c != addressColumn && c != roadColumn && !(details && IsDetailName(c)) ==>
                        r.rows[i].cells[c] == t.rows[i].cells[c]))
  {
    var result := reverse(Cell(t.rows[i], lonColumn), Cell(t.rows[i], latColumn), details,
                          RowJsonPath(base, |t.rows|, t.rows[i].index));
    if Found(result) {
      var cells := t.rows[i].cells[addressColumn := Fetch(result.value, Address, Str(""))]
                                  [roadColumn := Fetch(result.value, RoadAddress, Str(""))];
      DetailWritesSpec(cells, result.value, DetailColumns);
    }
  }

  /** The table after the output columns of `reverse_geocode` are
      initialised: the two address columns, then the detail columns. */
  function ReversePrepared(t: Table, addressColumn: string, roadColumn: string, details: bool): Table {
    var withAddresses := AddColumn(AddColumn(t, addressColumn), roadColumn);
    if details then AddColumns(withAddresses, DetailNames()) else withAddresses
  }

  /** A row the adapter finds nothing for keeps None in the two address
      columns and, in detail mode, in every detail column. */
  lemma ReverseNoResultLeavesNone(t: Table, lonColumn: string, latColumn: string, addressColumn: string, roadColumn: string,
                                  details: bool, base: Option<string>,
                                  reverse: (Value, Value, bool, Option<string>) -> Option<Record>, i: nat)
    requires i < |t.rows|
    ensures var p := ReversePrepared(t, addressColumn, roadColumn, details);
            |p.rows| == |t.rows| &&
            var out := ReverseTable(p, lonColumn, latColumn, addressColumn, roadColumn, details, base, reverse);
            !Found(reverse(Cell(p.rows[i], lonColumn), Cell(p.rows[i], latColumn), details,
                           RowJsonPath(base, |p.rows|, p.rows[i].index))) ==>
              && addressColumn in out.rows[i].cells && out.rows[i].cells[addressColumn] == Null
              && roadColumn in out.rows[i].cells && out.rows[i].cells[roadColumn] == Null
              && (details ==> forall c :: c in DetailNames() ==> c in out.rows[i].cells && out.rows[i].cells[c] == Null)
  {
    var withAddresses := AddColumn(AddColumn(t, addressColumn), roadColumn);
    if details {
      AddColumnsCells(withAddresses, DetailNames(), i);
    }
  }

  /** A row whose address is not found keeps None in both coordinate
      columns. */
  lemma GeocodeNoResultLeavesNone(t: Table, addressColumn: string, lonColumn: string, latColumn: string,
                                  lookup: Value -> Option<Record>, i: nat)
    requires i < |t.rows|
    ensures var p := AddColumn(AddColumn(t, lonColumn), latColumn);
            var out := GeocodedTable(t, addressColumn, lonColumn, latColumn, lookup);
            |out.rows| == |t.rows| &&
            (!Found(lookup(Cell(p.rows[i], addressColumn))) ==>
              && lonColumn in out.rows[i].cells && out.rows[i].cells[lonColumn] == Null
              && latColumn in out.rows[i].cells && out.rows[i].cells[latColumn] == Null)
  {
  }

  /** `reverse_geocode(df, longitude_column, latitude_column, ...)`.
      `timestamp` is the formatted clock reading used for an automatic dump
      name; `adapter` is each vendor's `reverse_geocode_coords`. */
  method ReverseGeocode(t: Table, lonColumn: string, latColumn: string, addressColumn: string, roadColumn: string,
                        details: bool, saveJson: SaveJson, timestamp: string,
                        provider: Option<string>, registry: ProviderRegistry, credentialsFound: bool,
                        adapter: Vendor -> ((Value, Value, bool, Option<string>) -> Option<Record>))
    returns (r: Result<Table>)
    requires registry.Valid()
    modifies registry
    ensures registry.Valid()
    ensures lonColumn !in t.columns ==>
              r == Failure(MissingColumn(lonColumn)) && registry.instances == old(registry.instances)
    ensures lonColumn in t.columns && latColumn !in t.columns ==>
              r == Failure(MissingColumn(latColumn)) && registry.instances == old(registry.instances)
    ensures lonColumn in t.columns && latColumn in t.columns && VendorOf(NormalizeProvider(provider)).None? ==>
              r == Failure(UnsupportedProvider(NormalizeProvider(provider)))
    // a supported provider runs unless its adapter must be built and finds no credentials
    ensures lonColumn in t.columns && latColumn in t.columns && VendorOf(NormalizeProvider(provider)).Some? ==>
              if credentialsFound || NormalizeProvider(provider) in old(registry.instances) then r.Success?
              else r == Failure(MissingCredentials)
    // the cache gains an entry only when a new adapter is built, and changes in no other way
    ensures lonColumn in t.columns && latColumn in t.columns && BuildsAdapter(provider, old(registry.instances), credentialsFound) ==>
              && NormalizeProvider(provider) in registry.instances && fresh(registry.instances[NormalizeProvider(provider)])
              && registry.instances == old(registry.instances)[NormalizeProvider(provider) := registry.instances[NormalizeProvider(provider)]]
    ensures !(lonColumn in t.columns && latColumn in t.columns && BuildsAdapter(provider, old(registry.instances), credentialsFound)) ==>
              registry.instances == old(registry.instances)
    ensures r.Success? ==>
              && lonColumn in t.columns && latColumn in t.columns && VendorOf(NormalizeProvider(provider)).Some?
              && r.value == ReverseTable(ReversePrepared(t, addressColumn, roadColumn, details),
                                         lonColumn, latColumn, addressColumn, roadColumn, details,
                                         JsonBase(saveJson, provider, timestamp),
                                         adapter(VendorOf(NormalizeProvider(provider)).value))
  {
    if lonColumn !in t.columns {
      return Failure(MissingColumn(lonColumn));
    }
    if latColumn !in t.columns {
      return Failure(MissingColumn(latColumn));
    }
    var got := registry.GetProvider(provider, credentialsFound);
    if got.Failure? {
      return Failure(got.error);
    }
    var prepared := AddColumn(AddColumn(t, addressColumn), roadColumn);
    if details {
      prepared := InitColumns(prepared, DetailNames());
    }
    var base := JsonBase(saveJson, provider, timestamp);
    var out := ReverseRows(prepared, lonColumn, latColumn, addressColumn, roadColumn, details, base, adapter(got.value.vendor));
    return Success(out);
  }
}
