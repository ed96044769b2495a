/**
  The transform step of the country ETL script (`transform_data` in
  main.py): every raw country record becomes one flat row of eleven cells,
  each read along a fixed source path with a fixed default; the rows become
  a table, and every null cell of the table is then replaced by "Unknown".
 */
module Transform {
  import opened JsonValues
  import opened Joining

  /** The sentinel that replaces missing values. */
  const Unknown: string := "Unknown"

  /** The eleven columns of a country row, in table order. */
  datatype Column =
    | Country | OfficialName | Region | Subregion | Capital | Population
    | Latitude | Longitude | Area | Timezones | Flag

  /** The column's heading in the table. */
  function Name(col: Column): string
  {
    match col
    case Country => "Country"
    case OfficialName => "Official Name"
    case Region => "Region"
    case Subregion => "Subregion"
    case Capital => "Capital"
    case Population => "Population"
    case Latitude => "Latitude"
    case Longitude => "Longitude"
    case Area => "Area (sq km)"
    case Timezones => "Timezones"
    case Flag => "Flag"
  }

  const Columns: seq<Column> :=
    [Country, OfficialName, Region, Subregion, Capital, Population,
     Latitude, Longitude, Area, Timezones, Flag]

  /** The table's header: the keys of the row dictionary, in insertion order. */
  const Header: seq<string> :=
    seq(|Columns|, i requires 0 <= i < |Columns| => Name(Columns[i]))

  /** The header names every column exactly once, in column order. */
  lemma HeaderNamesColumns()
    ensures |Header| == |Columns| == 11
    ensures forall i | 0 <= i < |Columns| :: Header[i] == Name(Columns[i])
    ensures forall i, j | 0 <= i < j < |Header| :: Header[i] != Header[j]
  {
  }

  /** One flat row: a cell per column. A cell holds whatever JSON value was
      found for it, or its default. */
  datatype Row = Row(
    country: Json, officialName: Json, region: Json, subregion: Json,
    capital: Json, population: Json, latitude: Json, longitude: Json,
    area: Json, timezones: Json, flag: Json)
  {
    function At(col: Column): Json
    {
      match col
      case Country => country
      case OfficialName => officialName
      case Region => region
      case Subregion => subregion
      case Capital => capital
      case Population => population
      case Latitude => latitude
      case Longitude => longitude
      case Area => area
      case Timezones => timezones
      case Flag => flag
    }
  }

  // ---------------------------------------------------------------------
  // The field table: where each column comes from and what it falls back to.
  // ---------------------------------------------------------------------

  /** How a column's value is reached from the record. */
  datatype Path =
    | Field(key: string)                   // the value under `key`
    | Member(outer: string, inner: string) // the value under `inner` of the object under `outer`
    | Joined(key: string)                  // the strings under `key`, joined with ", "
    | Element(key: string, index: nat)     // item `index` of the array under `key`

  function PathOf(col: Column): Path
  {
    match col
    case Country => Member("name", "common")
    case OfficialName => Member("name", "official")
    case Region => Field("region")
    case Subregion => Field("subregion")
    case Capital => Joined("capital")
    case Population => Field("population")
    case Latitude => Element("latlng", 0)
    case Longitude => Element("latlng", 1)
    case Area => Field("area")
    case Timezones => Joined("timezones")
    case Flag => Member("flags", "png")
  }

  /** The value a column takes when its source path leads nowhere. Latitude
      and Longitude have none: they are left null. */
  function DefaultOf(col: Column): Json
  {
    match col
    case Population => Num("0")
    case Area => Num("0")
    case Latitude => Null
    case Longitude => Null
    case Flag => Str("No flag available")
    case _ => Str(Unknown)
  }

  /** The path can be followed without an error: an object where an object
      is looked into, an array of strings where strings are joined, an array
      long enough where an item is taken. An absent key is always fine. */
  predicate Resolvable(m: map<string, Json>, p: Path)
  {
    match p
    case Field(_) => true
    case Member(outer, _) => outer !in m || m[outer].Obj?
    case Joined(key) => key !in m || (m[key].Arr? && AllStrings(m[key].items))
    case Element(key, index) => key !in m || (m[key].Arr? && index < |m[key].items|)
  }

  /** True when the path leads to a stored value (possibly a stored null). */
  predicate Found(m: map<string, Json>, p: Path)
    requires Resolvable(m, p)
  {
    match p
    case Member(outer, inner) => outer in m && inner in m[outer].fields
    case _ => p.key in m
  }

  /** The value at the end of the path, or the default when the path leads
      nowhere. */
  function Resolve(m: map<string, Json>, p: Path, default: Json): Json
    requires Resolvable(m, p)
  {
    if !Found(m, p) then default
    else match p
      case Field(key) => m[key]
      case Member(outer, inner) => m[outer].fields[inner]
      case Joined(key) => Str(Join(Texts(m[key].items), Sep))
      case Element(key, index) => m[key].items[index]
  }

  /** A raw record the transformation accepts without raising: an object
      each of whose column paths can be followed. */
  predicate Transformable(record: Json)
  {
    record.Obj? && forall col: Column :: Resolvable(record.fields, PathOf(col))
  }

  predicate AllTransformable(data: seq<Json>)
  {
    forall i | 0 <= i < |data| :: Transformable(data[i])
  }

  // ---------------------------------------------------------------------
  // Per-record mapping
  // ---------------------------------------------------------------------

  /** The row dictionary built for one country, written the way the script
      writes it: nested lookups with defaults, joins and indexing. Each cell
      is what the field table prescribes for its column. */
  function MapRecord(country: Json): (r: Row)
    requires Transformable(country)
    ensures forall col: Column ::
      r.At(col) == Resolve(country.fields, PathOf(col), DefaultOf(col))
  {
    var c := country.fields;
    assert Resolvable(c, PathOf(Country)) && Resolvable(c, PathOf(Flag));
    assert Resolvable(c, PathOf(Capital)) && Resolvable(c, PathOf(Timezones));
    assert Resolvable(c, PathOf(Latitude)) && Resolvable(c, PathOf(Longitude));
    Row(
      country := Get(Get(c, "name", Obj(map[])).fields, "common", Str(Unknown)),
      officialName := Get(Get(c, "name", Obj(map[])).fields, "official", Str(Unknown)),
      region := Get(c, "region", Str(Unknown)),
      subregion := Get(c, "subregion", Str(Unknown)),
      capital := Str(Join(Texts(Get(c, "capital", Arr([Str(Unknown)])).items), Sep)),
      population := Get(c, "population", Num("0")),
      latitude := Get(c, "latlng", Arr([Null, Null])).items[0],
      longitude := Get(c, "latlng", Arr([Null, Null])).items[1],
      area := Get(c, "area", Num("0")),
      timezones := Str(Join(Texts(Get(c, "timezones", Arr([Str(Unknown)])).items), Sep)),
      flag := Get(Get(c, "flags", Obj(map[])).fields, "png", Str("No flag available")))
  }

  /** One row per record, in record order. */
  function MapRecords(data: seq<Json>): (rows: seq<Row>)
    requires AllTransformable(data)
    ensures |rows| == |data|
    ensures forall i | 0 <= i < |data| :: rows[i] == MapRecord(data[i])
  {
    if data == [] then [] else [MapRecord(data[0])] + MapRecords(data[1..])
  }

  /** The loop that appends one row dictionary per country. */
  method ExtractRows(data: seq<Json>) returns (extracted: seq<Row>)
    requires AllTransformable(data)
    ensures |extracted| == |data|
    ensures forall i | 0 <= i < |data| :: extracted[i] == MapRecord(data[i])
  {
    extracted := [];
    for i := 0 to |data|
      invariant |extracted| == i
      invariant forall k | 0 <= k < i :: extracted[k] == MapRecord(data[k])
    {
      var country := data[i];
      extracted := extracted + [MapRecord(country)];
    }
  }

  // ---------------------------------------------------------------------
  // Normalisation: fillna
  // ---------------------------------------------------------------------

  /** fillna's rule for one cell: a null becomes the text `value`, any
      other cell stays as it is. */
  function FillCell(cell: Json, value: string): (r: Json)
    ensures !r.Null?
    ensures cell.Null? ==> r == Str(value)
    ensures !cell.Null? ==> r == cell
  {
    if cell.Null? then Str(value) else cell
  }

  /** The row with every null cell replaced by the text `value`. */
  function FillRow(row: Row, value: string): (r: Row)
    ensures forall col: Column :: !r.At(col).Null?
    ensures forall col: Column :: row.At(col).Null? ==> r.At(col) == Str(value)
    ensures forall col: Column :: !row.At(col).Null? ==> r.At(col) == row.At(col)
  {
    Row(FillCell(row.country, value), FillCell(row.officialName, value),
        FillCell(row.region, value), FillCell(row.subregion, value),
        FillCell(row.capital, value), FillCell(row.population, value),
        FillCell(row.latitude, value), FillCell(row.longitude, value),
        FillCell(row.area, value), FillCell(row.timezones, value),
        FillCell(row.flag, value))
  }

  /** The table with every null cell replaced by the text `value`; no other
      cell changes and no row is added, dropped or moved. */
  function FillRows(rows: seq<Row>, value: string): (r: seq<Row>)
    ensures |r| == |rows|
    ensures forall i, col: Column | 0 <= i < |r| :: !r[i].At(col).Null?
    ensures forall i, col: Column | 0 <= i < |r| ::
      rows[i].At(col).Null? ==> r[i].At(col) == Str(value)
    ensures forall i, col: Column | 0 <= i < |r| ::
      !rows[i].At(col).Null? ==> r[i].At(col) == rows[i].At(col)
  {
    seq(|rows|, i requires 0 <= i < |rows| => FillRow(rows[i], value))
  }

  /** Filling twice is filling once. */
  lemma FillRowsIdempotent(rows: seq<Row>, value: string)
    ensures FillRows(FillRows(rows, value), value) == FillRows(rows, value)
  {
  }

  /** The table the transform step returns, as a value. */
  function Transformed(data: seq<Json>): seq<Row>
    requires AllTransformable(data)
  {
    FillRows(MapRecords(data), Unknown)
  }

  /** A pandas DataFrame built from the row dictionaries, updated in place by
      `fillna`. */
  class Frame {
    var columns: seq<string>
    var rows: seq<Row>

    ghost predicate Valid()
      reads this
    {
      (columns == [] || columns == Header) && ((columns == []) == (rows == []))
    }

    /** `pd.DataFrame(records)`: the columns are the dictionaries' keys; a
        frame built from no dictionaries has no columns at all. */
    constructor (records: seq<Row>)
      ensures Valid()
      ensures columns == (if records == [] then [] else Header)
      ensures rows == records
    {
      columns := if records == [] then [] else Header;
      rows := records;
    }

    /** `fillna(value, inplace=True)`: every null cell becomes `value`. */
    method FillNa(value: string)
      requires Valid()
      modifies this
      ensures Valid()
      ensures columns == old(columns)
      ensures rows == FillRows(old(rows), value)
    {
      var i := 0;
      while i < |rows|
        invariant 0 <= i <= |rows| == |old(rows)|
        invariant columns == old(columns)
        invariant forall k | 0 <= k < i :: rows[k] == FillRow(old(rows)[k], value)
        invariant forall k | i <= k < |rows| :: rows[k] == old(rows)[k]
      {
        rows := rows[i := FillRow(rows[i], value)];
        i := i + 1;
      }
    }
  }

  /** `transform_data`: map every record to a row, build the frame, fill
      its nulls with "Unknown". */
  method TransformData(data: seq<Json>) returns (df: Frame)
    requires AllTransformable(data)
    ensures fresh(df) && df.Valid()
    ensures df.columns == (if data == [] then [] else Header)
    ensures df.rows == Transformed(data)
  {
    var extracted := ExtractRows(data);
    assert extracted == MapRecords(data);
    df := new Frame(extracted);
    df.FillNa(Unknown);
  }

  // ---------------------------------------------------------------------
  // What the transform promises
  // ---------------------------------------------------------------------

  /** The whole table: one row per record in record order, and each cell is
      the value the field table gives for it, with a null turned into
      "Unknown". */
  lemma TransformedCells(data: seq<Json>, i: nat, col: Column)
    requires AllTransformable(data)
    requires i < |data|
    ensures |Transformed(data)| == |data|
    ensures Transformable(data[i])
    ensures var v := Resolve(data[i].fields, PathOf(col), DefaultOf(col));
      Transformed(data)[i].At(col) == if v.Null? then Str(Unknown) else v
  {
    var v := Resolve(data[i].fields, PathOf(col), DefaultOf(col));
    assert MapRecords(data)[i].At(col) == v;
  }

  /** Mapping two batches together maps each and concatenates the rows. */
  lemma {:induction false} MapRecordsAppend(a: seq<Json>, b: seq<Json>)
    requires AllTransformable(a) && AllTransformable(b)
    ensures AllTransformable(a + b)
    ensures MapRecords(a + b) == MapRecords(a) + MapRecords(b)
    decreases |a|
  {
    AllTransformableAppend(a, b);
    if a == [] {
      assert a + b == b;
    } else {
      var tail := a[1..];
      assert (a + b)[0] == a[0];
      assert (a + b)[1..] == tail + b;
      AllTransformableAppend(tail, b);
      MapRecordsAppend(tail, b);
      calc {
        MapRecords(a + b);
        [MapRecord(a[0])] + MapRecords(tail + b);
        [MapRecord(a[0])] + (MapRecords(tail) + MapRecords(b));
        ([MapRecord(a[0])] + MapRecords(tail)) + MapRecords(b);
      }
    }
  }

  lemma AllTransformableAppend(a: seq<Json>, b: seq<Json>)
    requires AllTransformable(a) && AllTransformable(b)
    ensures AllTransformable(a + b)
  {
    forall i | 0 <= i < |a + b| ensures Transformable((a + b)[i]) {
      if i < |a| { assert (a + b)[i] == a[i]; } else { assert (a + b)[i] == b[i - |a|]; }
    }
  }

  /** Filling two tables together fills each and concatenates them. */
  lemma FillRowsAppend(x: seq<Row>, y: seq<Row>, value: string)
    ensures FillRows(x + y, value) == FillRows(x, value) + FillRows(y, value)
  {
    var whole, left, right := FillRows(x + y, value), FillRows(x, value), FillRows(y, value);
    assert forall i | 0 <= i < |x| :: whole[i] == left[i];
    assert forall i | |x| <= i < |x + y| :: whole[i] == right[i - |x|];
  }

  /** Transforming two batches together gives the rows of the first batch
      followed by those of the second: nothing is filtered, sorted or
      merged. */
  lemma TransformedAppend(a: seq<Json>, b: seq<Json>)
    requires AllTransformable(a) && AllTransformable(b)
    ensures AllTransformable(a + b)
    ensures Transformed(a + b) == Transformed(a) + Transformed(b)
  {
    MapRecordsAppend(a, b);
    FillRowsAppend(MapRecords(a), MapRecords(b), Unknown);
  }

  /** A column whose path leads nowhere takes its default. */
  lemma MissingPathGivesDefault(country: Json, col: Column)
    requires Transformable(country)
    requires !Found(country.fields, PathOf(col))
    ensures MapRecord(country).At(col) == DefaultOf(col)
  {
  }

  /** A key present with a stored null bypasses the column's default: after
      normalisation the cell is "Unknown", even where the default is 0. */
  lemma StoredNullBecomesUnknown(country: Json, col: Column)
    requires Transformable(country)
    requires PathOf(col).Field?
    requires PathOf(col).key in country.fields && country.fields[PathOf(col).key] == Null
    ensures MapRecord(country).At(col) == Null
    ensures FillRow(MapRecord(country), Unknown).At(col) == Str(Unknown)
    ensures col == Population || col == Area ==>
      FillRow(MapRecord(country), Unknown).At(col) != DefaultOf(col)
  {
  }

  /** A capital or time-zone list that is present but empty joins to the
      empty text, not to "Unknown". */
  lemma EmptyListJoinsToEmptyText(country: Json, col: Column)
    requires Transformable(country)
    requires PathOf(col).Joined?
    requires PathOf(col).key in country.fields && country.fields[PathOf(col).key] == Arr([])
    ensures MapRecord(country).At(col) == Str("")
    ensures FillRow(MapRecord(country), Unknown).At(col) == Str("")
  {
    assert Texts([]) == [];
  }

  /** Without `latlng`, Latitude and Longitude are left null by the mapping
      and become "Unknown" in the normalisation pass. */
  lemma MissingCoordinatesBecomeUnknown(country: Json)
    requires Transformable(country)
    requires "latlng" !in country.fields
    ensures MapRecord(country).latitude == Null && MapRecord(country).longitude == Null
    ensures FillRow(MapRecord(country), Unknown).latitude == Str(Unknown)
    ensures FillRow(MapRecord(country), Unknown).longitude == Str(Unknown)
  {
    assert !Found(country.fields, PathOf(Latitude));
  }

  /** A record with every source value except `subregion`. */
  const Testland: Json := Obj(map[
    "name" := Obj(map["common" := Str("Testland"), "official" := Str("Republic of Testland")]),
    "region" := Str("Testia"),
    "capital" := Arr([Str("Test City")]),
    "population" := Num("1000"),
    "latlng" := Arr([Num("1.0"), Num("2.0")]),
    "area" := Num("500"),
    "timezones" := Arr([Str("UTC")]),
    "flags" := Obj(map["png" := Str("http://x/flag.png")])])

  lemma TestlandIsTransformable()
    ensures Transformable(Testland)
  {
    var m := Testland.fields;
    forall col: Column ensures Resolvable(m, PathOf(col)) {
    }
  }

  /** A record with every source value present comes through as given;
      only the absent `subregion` falls back to "Unknown". */
  lemma CompleteRecordPassesThrough()
    ensures AllTransformable([Testland])
    ensures Transformed([Testland]) == [Row(
      Str("Testland"), Str("Republic of Testland"), Str("Testia"), Str(Unknown),
      Str("Test City"), Num("1000"), Num("1.0"), Num("2.0"), Num("500"),
      Str("UTC"), Str("http://x/flag.png"))]
  {
    TestlandIsTransformable();
    var row := Row(
      Str("Testland"), Str("Republic of Testland"), Str("Testia"), Str(Unknown),
      Str("Test City"), Num("1000"), Num("1.0"), Num("2.0"), Num("500"),
      Str("UTC"), Str("http://x/flag.png"));
    var c := Testland.fields;
    var mapped := MapRecord(Testland);
    assert mapped.country == Str("Testland") && mapped.officialName == Str("Republic of Testland");
    assert mapped.region == Str("Testia") && mapped.subregion == Str(Unknown);
    assert Texts(c["capital"].items) == ["Test City"];
    assert mapped.capital == Str("Test City");
    assert mapped.population == Num("1000") && mapped.area == Num("500");
    assert mapped.latitude == Num("1.0") && mapped.longitude == Num("2.0");
    assert Texts(c["timezones"].items) == ["UTC"];
    assert mapped.timezones == Str("UTC");
    assert mapped.flag == Str("http://x/flag.png");
    assert mapped == row;
    assert MapRecords([Testland]) == [row];
    assert FillRow(row, Unknown) == row;
  }

  /** An empty record gets every default, and its missing coordinates are
      normalised to "Unknown". */
  lemma EmptyRecordGetsDefaults()
    ensures AllTransformable([Obj(map[])])
    ensures Transformed([Obj(map[])]) == [Row(
      Str(Unknown), Str(Unknown), Str(Unknown), Str(Unknown), Str(Unknown),
      Num("0"), Str(Unknown), Str(Unknown), Num("0"), Str(Unknown),
      Str("No flag available"))]
  {
  }
}
