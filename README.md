# GeoETL transform step, modelled in Dafny

GeoETL is a small Extract-Transform-Load script. It fetches country metadata from the REST Countries API, reshapes it into a table and writes the table to `data/countries.csv`. This project models the transform step, `transform_data` in `main.py`. That step has two stages.

1. **Per-record mapping.** Each raw country record is a nested JSON object. It becomes one flat row of eleven cells: Country, Official Name, Region, Subregion, Capital, Population, Latitude, Longitude, Area (sq km), Timezones and Flag. Each cell is read with a `get`-with-default lookup. Some lookups go through a nested object. Capital and Timezones are string lists joined with `", "`. Latitude and Longitude are items 0 and 1 of `latlng`.
2. **Normalisation.** The rows become a pandas DataFrame. Then `fillna("Unknown", inplace=True)` replaces every null cell with `"Unknown"`.

Layout:

- `json_values.dfy` (module `JsonValues`): decoded JSON values (`Json`), the lookup `Get`, which behaves like `dict.get`, and `Texts`, which reads the strings out of an array of strings.
- `joining.dfy` (module `Joining`): `Join`, which models `sep.join(parts)`. The lemmas there say where each part and each separator sits in the joined text.
- `transform.dfy` (module `Transform`):
  - the columns and the header;
  - the field table: each column's source path (`PathOf`) and its default (`DefaultOf`), with `Resolve` following a path;
  - `MapRecord`, which is the row dictionary written as the script writes it, and its agreement with the field table;
  - the append loop `ExtractRows`;
  - `FillRow`/`FillRows`, and the `Frame` class whose `FillNa` method updates its rows in place;
  - `TransformData`, and the lemmas about the table it returns.

JSON numbers are kept as their literal text (`Num("1.0")`), because the transform only passes them through. A cell can hold any JSON value. A stored list or object passes through untouched, as it would in a pandas object column.

`main.py` raises on some records and handles others in ways this model does not follow. The model excludes both kinds of record with a precondition (`Transformable`):

- the record is not an object: `country.get` fails (main.py:21);
- `name` or `flags` is present but is not an object, for example JSON null: the inner `.get` fails (main.py:21-22, 31);
- `capital` or `timezones` is present but is not an array of strings. A list holding a non-string, or a null, makes `join` raise. A bare string or an object is not rejected by the code: it is joined character by character or key by key, which the model leaves out (main.py:25, 30);
- `latlng` is present but is not an array with at least two items. A shorter list or a null raises. A string of two or more characters is indexed by character, which the model leaves out (main.py:27-28).

Every record that meets the precondition is handled without raising. A missing key is always fine.

Some behaviours of `main.py` are easy to miss:

- `pd.DataFrame([])` has no columns at all, so an empty input gives a frame with neither rows nor a header (main.py:35). `Frame.constructor` gives an empty column list for no rows.
- A record carrying every field except `subregion` still gets Subregion "Unknown" from the default at main.py:24 (`CompleteRecordPassesThrough`).
- The `fillna` pass rewrites every null cell, not only the coordinates that have no default (main.py:38). A key stored with a JSON null, such as `"population": null`, bypasses its `.get` default (main.py:23, 26). The cell is null after mapping and "Unknown" after the fill, rather than the default 0 (`StoredNullBecomesUnknown`).

## Model

| member | source | states |
|---|---|---|
| `JsonValues.Get` | main.py:21-31 | `dict.get`: defined to return the stored value when the key is present, even a stored null, and the default otherwise. It has no contract of its own; its use is proved through MapRecord's contract against the field table. |
| `Joining.Join` | main.py:25 | `", ".join`. It is pinned down completely by JoinLength, JoinPartAt and JoinSepAfter. |
| `Joining.JoinLength` | main.py:25 | Joining no parts gives the empty text. Otherwise the joined text is as long as all the parts plus one separator between each neighbouring pair. |
| `Joining.JoinPartAt` | main.py:25 | Part `i` stands in the joined text at its offset, which is the lengths of the earlier parts, each followed by one separator. |
| `Joining.JoinSepAfter` | main.py:30 | The separator stands between the end of part `i` and the start of part `i + 1`. With JoinPartAt and JoinLength this pins down the whole joined text. |
| `Transform.HeaderNamesColumns` | main.py:21-31 | The header has eleven distinct names. They name the columns in the dictionary's key order. |
| `Transform.MapRecord` | main.py:20-32 | Every cell of a record's row is what the field table prescribes: the value found along the column's source path (`name.common`, `region`, joined `capital`, `latlng[0]`, `flags.png`, ...), or else the column's default ("Unknown", 0, null, "No flag available"). |
| `Transform.MapRecords` | main.py:19-32 | There is exactly one row per record, and row `i` is the mapping of record `i`. |
| `Transform.ExtractRows` | main.py:17-32 | The append loop returns one row per record, in input order, and each row is that record's mapping. |
| `Transform.FillCell` | main.py:38 | fillna's rule for one cell: the result is never null, a null becomes the fill text, and any other cell is unchanged. |
| `Transform.FillRow` | main.py:38 | No cell of the filled row is null. Every null cell becomes the fill text and every other cell is unchanged. |
| `Transform.FillRows` | main.py:38 | Filling keeps the number and order of rows. Afterwards no cell is null, null cells become the fill text, and all other cells are unchanged. |
| `Transform.FillRowsIdempotent` | main.py:38 | Filling an already filled table changes nothing. |
| `Transform.Frame.constructor` | main.py:35 | A frame built from row dictionaries holds them in order under the eleven headers. A frame built from none has no columns. |
| `Transform.Frame.FillNa` | main.py:38 | The in-place fill keeps the columns and replaces the rows with their filled version. |
| `Transform.TransformData` | main.py:16-40 | Returns a new frame whose columns are the header (none for empty input) and whose rows are the filled mapping of the records. |
| `Transform.TransformedCells` | main.py:19-38 | The result has one row per record. Each cell is the field table's value for its column, with a null turned into "Unknown". |
| `Transform.MapRecordsAppend` | main.py:19-32 | Mapping two batches together gives the first batch's rows followed by the second's. |
| `Transform.FillRowsAppend` | main.py:38 | Filling two tables together fills each one and concatenates the results. |
| `Transform.TransformedAppend` | main.py:19-35 | Transforming two batches together gives the first batch's rows followed by the second's. Nothing is filtered, sorted or merged. |
| `Transform.MissingPathGivesDefault` | main.py:21-31 | A column whose source path leads nowhere takes its default. |
| `Transform.StoredNullBecomesUnknown` | main.py:23-38 | A key stored with a JSON null bypasses the default and maps to null, which the fill turns into "Unknown". For Population and Area this differs from their default 0. |
| `Transform.EmptyListJoinsToEmptyText` | main.py:25-30 | A Capital or Timezones list that is present but empty gives the empty text, both before and after the fill. It does not give "Unknown". |
| `Transform.MissingCoordinatesBecomeUnknown` | main.py:27-38 | Without `latlng`, Latitude and Longitude are null after mapping and "Unknown" after the fill. |
| `Transform.CompleteRecordPassesThrough` | main.py:20-32 | A fully populated record comes through with its values unchanged. Only its absent `subregion` becomes "Unknown". |
| `Transform.EmptyRecordGetsDefaults` | main.py:20-38 | An empty record gets "Unknown" for every text field, 0 for Population and Area, "Unknown" for both coordinates and "No flag available" for Flag. |

## Left out

- `extract_data` (main.py:5-13) is left out. It is one HTTP GET through `requests` and a status-code check, which is network I/O through a library that is not part of this model.
- `load_data` (main.py:43-46) is left out. It creates a directory and writes the CSV through `DataFrame.to_csv`. CSV quoting belongs to pandas, which is not part of this model, and the rest is filesystem I/O.
- The `__main__` driver (main.py:48-66) is left out. It prints progress messages and transforms only when the fetch returned data, which is plumbing around the modelled step.
- pandas column types are not modelled. For example, an integer column that holds a null is stored as floats before `fillna`, so `1000` would be written as `1000.0`. Cells are modelled as plain JSON values.
- Float NaN, which pandas also treats as missing, is not modelled. JSON numbers are opaque literals here and are never NaN.
- `Transform.Transformable`: records that make the source raise are a precondition, not an error result. This covers a non-object record; a non-object `name` or `flags`; a `capital` or `timezones` that is not an array of strings; and a `latlng` with fewer than two items. As a consequence, the model does not capture a bare-string `capital` or `timezones` being joined character by character, an object's keys being joined, or a string `latlng` being indexed by character.
