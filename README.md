# ATAK mission package builder, modelled in Dafny

Two Python scripts, `apdc.py` and `amp.py`, turn geographic points into an
ATAK mission package. Each point becomes a marker (`COT`). Given the list of
markers, `create_package` does the following:

- it removes the staging directory `out/` and makes it afresh;
- it writes `manifest.xml` into a manifest directory, `MANIFEST` for `apdc.py` and `manifest` for `amp.py`;
- it writes one Cursor-on-Target event file `<uid>/<uid>.cot` per marker;
- it zips the tree.

`apdc.py` also reads its markers from a shelter table or a KML document and
has a command-line entry point.

The model has these modules:

- **Lines** is the indented line writer (`_indent_write` / `indent_write`) and its inverse.
- **Tags** is the text of one XML-like tag and an independent reader for it. The reader is the partner of the writers: each emitted line is read back, and the lemmas state what the reader recovers.
- **Files** is the file system the scripts touch.
  - `FileSystem` is a class: a set of directories, plus a map from path to the chunks written into the file.
  - `Handle` is an open file.
  - `mkdir`, `rmtree`, `open` and the closing of a `with` block are methods with their error cases: `FileExistsError`, `FileNotFoundError`, `NotADirectoryError` and `IsADirectoryError`.
- **Staging** covers the staging tree both scripts build:
  - the removal and re-creation of `out/`;
  - the tree expected after `n` markers;
  - the first marker whose directory cannot be made.
- **Markup** holds the tags both scripts fill in, and what reading each one back gives.
- **Apdc** and **Amp** model each script's `COT` constructor, event file, manifest, `create_cot`, `create_manifest` and `create_package`.
  - The file contents are functions (`EventLines`, `ManifestLines`).
  - The writers are methods proved to write exactly those lines.
  - `create_package` is a method proved to leave exactly the tree `PackageResult` describes.
- **ApdcInput** models `_read_shelters`, `_convert_kml` and `main` of `apdc.py`, over the rows and placemarks the parsers yield.
- **ApdcProperties** and **AmpProperties** prove what the written files say when read back, and the exact shape of the finished staging tree.

Identifiers from `uuid4()` and today's date are parameters.

- `Uuid` is the upper-cased text of a UUID.
- `LowerUuid` is the lower-case text that `amp.py` writes for its process-wide `UUID` object.
- In `ApdcInput`, `draw(k)` is the k-th identifier drawn in a run.

Each script's quirks are reproduced as written, and the properties show their consequences:

- `amp.py` leaves its configuration parameters unclosed (`">`). They read back as opening `Parameter` tags, where `apdc.py`'s read back as self-closing ones (`ManifestConfigTags`).
- `amp.py` writes each manifest identifier line with a comma between its attributes. That line never reads back as a tag (`AmpProperties.UidLineUnreadable`).
- `amp.py` never writes remarks.
- The two constructors take longitude and latitude in opposite orders, but both point lines carry the values given (`NewCotReadBack`).
- No value is escaped. A callsign holding a double quote adds an attribute to the contact line (`Markup.QuoteInjectsAttribute`).

A marker's identifier is the text of a UUID, so it never equals the manifest directory's name (`EntryUids`). So a marker's `mkdir` fails only on a repeated identifier. `create_package` can also fail before any marker, when `out` is a regular file (`Staging.ResetOutput`). The staging functions also handle the manifest-name clash for arbitrary names (`Staging.FirstClashNone`).

## Model

| member | source | states |
|---|---|---|
| Lines.IndentLineShape | apdc.py:71-72 | An emitted line is exactly 2·indent spaces, then the text, then one newline. So indent 0 adds no prefix, and an empty text gives just the newline. `amp.py:25-26` is the same writer. |
| Lines.UnindentInverse | apdc.py:71-72 | Stripping 2·indent leading spaces and the final newline gives back the text. Only the line written for that text and indentation reads back as it. |
| Markup.IndentWrite | apdc.py:71-72 | One indented write appends exactly the indented line to what the file has received, and nothing else. |
| Files.FileSystem.Mkdir | apdc.py:77 | Making an existing path fails with `FileExistsError`. A missing parent fails with `FileNotFoundError`, or with `NotADirectoryError` when the parent is a file. Otherwise exactly that directory is added. Files never change, and the tree stays consistent. |
| Files.FileSystem.RmTree | apdc.py:61 | Removing a file fails with `NotADirectoryError`, and a missing path with `FileNotFoundError`. Otherwise the directory and everything below it are gone, and nothing else changes. |
| Files.FileSystem.Open | apdc.py:80 | Opening for writing fails on a directory or a missing parent. Otherwise the file exists, empty, and the handle holds no chunks. |
| Files.FileSystem.Close | apdc.py:80-96 | Leaving the `with` block makes the file hold exactly what was written through the handle. |
| Files.Handle.Write | apdc.py:72 | `f.write` appends its chunk, in order. |
| Staging.ResetOutput | apdc.py:60-62 | When `out` is a file, the removal fails and nothing changes. Otherwise `out/` ends up empty, and everything outside it is as it was. |
| Staging.ZipEntry | apdc.py:92 | A marker's archive entry is its directory and its event file name, joined by a slash. |
| Staging.FirstClashNone | apdc.py:101 | No marker directory fails exactly when the identifiers are distinct and none is the manifest directory's name. |
| Staging.FirstClashSome | apdc.py:101 | The first failing marker repeats an earlier identifier or the manifest directory's name. The markers before it do not clash. |
| Staging.FirstClashRepeats | apdc.py:101 | When no identifier is the manifest directory's name, the first failing marker repeats an earlier identifier, and the identifiers before it are distinct. |
| Staging.StageNext | apdc.py:65-66 | One pass of the marker loop. The next directory exists exactly when its identifier clashes. Without a clash, making it and writing its file extends the tree by that marker. With one, the clash is the first of all. |
| Staging.TreeFilesKeys | apdc.py:64-66 | The staging tree's files are the manifest and the event file of each marker written, and nothing else. |
| Staging.TreeFilesContents | apdc.py:64-66 | Without a clash, the manifest and every marker's event file hold the lines written for them. |
| Staging.TreeFilesCount | apdc.py:64-66 | Without a clash, the tree holds one file more than there are markers. |
| Staging.StagedFilesExact | apdc.py:60-66 | After staging without a clash, `out/` holds exactly the manifest and one event file per marker, with their lines. Every file outside `out/` is unchanged. |
| Staging.StagedDirsExact | apdc.py:60-66 | After staging, `out/` holds exactly itself, the manifest directory and one directory per marker. Directories outside it are unchanged. |
| Tags.ReadTagText | apdc.py:106 | Reading the text of a well-formed tag gives the tag back. |
| Tags.ReadTagSound | apdc.py:106 | Whatever the reader accepts is a well-formed tag whose text is exactly the input. |
| Tags.ReadLineIff | apdc.py:72 | An emitted tag line reads back as its tag exactly when the tag is well formed, meaning its values hold no double quote. |
| Tags.AttrValueFound | apdc.py:106 | An attribute is found exactly when the tag has one of that name, and the value found is one of its values. |
| Tags.Field | apdc.py:106 | No value read back from a line holds a double quote. |
| Tags.FieldOf | apdc.py:106 | A well-formed tag's line reads back, for each attribute, the tag's own value for it. |
| Markup.UuidIsValue | apdc.py:40 | An identifier never holds a double quote. |
| Markup.EventTagWellFormed | apdc.py:106 | The event tag is well formed exactly when its identifier, type, how and time hold no double quote. |
| Markup.PointTagWellFormed | apdc.py:108 | The point tag is well formed exactly when latitude and longitude hold no double quote. |
| Markup.ContactTagWellFormed | apdc.py:110 | The contact tag is well formed exactly when the callsign holds no double quote. |
| Markup.LinkTagWellFormed | apdc.py:115 | The link tag is well formed exactly when the parent identifier and the time hold no double quote. |
| Markup.UserIconTagWellFormed | apdc.py:116 | The icon tag is well formed exactly when the icon path holds no double quote. |
| Markup.ContentTagWellFormed | apdc.py:92 | A manifest entry tag for an identifier without a double quote is well formed. |
| Markup.ParameterTagWellFormed | apdc.py:84 | A parameter tag is well formed exactly when its name and value hold no double quote, however it is closed. |
| Markup.EventTagReadBack | apdc.py:105-106 | The event line gives back its identifier, type and how, and its time as time, start and stale. This holds exactly when the values hold no double quote. The version then reads `2.0`. |
| Markup.PointTagReadBack | apdc.py:107-108 | The point line gives back latitude and longitude exactly when neither holds a double quote. Height and errors then read `0.0`. |
| Markup.ContactTagReadBack | apdc.py:110 | The contact line gives back the callsign exactly when it holds no double quote. |
| Markup.LinkTagReadBack | apdc.py:114-115 | The link line gives back its parent identifier and production time exactly when both hold no double quote. Its fixed type, parent callsign and relation then read back too. |
| Markup.UserIconTagReadBack | apdc.py:116 | The icon line gives back the icon path exactly when it holds no double quote. |
| Markup.ContentTagReadBack | apdc.py:91-92 | A manifest entry names `<uid>/<uid>.cot` and `ignore="false"`. |
| Markup.ParameterTagReadBack | apdc.py:84-87 | A parameter line gives back its name and value exactly when both hold no double quote. |
| Markup.RemarksLineReadBack | apdc.py:120 | The remarks element holds exactly the text inserted, whatever it is. |
| Markup.QuoteInjectsAttribute | apdc.py:110 | The callsign is inserted without escaping. A callsign `v" n="w` makes the contact line read back callsign `v` and a further attribute `n` with value `w`. |
| Apdc.WriteEvent | apdc.py:104-123 | The `with` block of `_create_cot` writes exactly the event file's lines, in order. |
| Apdc.WriteManifestHead | apdc.py:81-89 | The manifest's first eight writes give the head of the manifest. |
| Apdc.WriteContentBlock | apdc.py:90-94 | One pass of the manifest loop appends exactly that marker's entry. |
| Apdc.WriteManifest | apdc.py:80-96 | The `with` block of `_create_manifest` writes exactly the manifest's lines. The loop keeps "written so far = head + entries of the markers so far". |
| Apdc.CreateCot | apdc.py:99-123 | If the marker's directory exists, `mkdir` fails and nothing changes. Otherwise exactly that directory and the event file holding the event lines are added. |
| Apdc.CreateManifest | apdc.py:75-96 | If `out/MANIFEST` exists, `mkdir` fails and nothing changes. Otherwise exactly that directory and `manifest.xml` holding the manifest lines are added. |
| Apdc.CreateCots | apdc.py:65-66 | The marker loop stages every marker before the first clash. The status is the clash's `FileExistsError`, or success when there is none. |
| Apdc.CreatePackage | apdc.py:48-68 | `create_package` up to the archive leaves what `PackageResult` states. When `out` is a file, it fails and nothing changes. Otherwise outside `out/` is unchanged, and `out/` holds the manifest and the event files of the markers before the first clash, which is the error. |
| ApdcProperties.IconPathIsValue | apdc.py:44 | The pushpin icon path holds no double quote. |
| ApdcProperties.EventShape | apdc.py:105-123 | An event file has fifteen lines, all written at indent 0. |
| ApdcProperties.EventHeaderReadBack | apdc.py:105-106 | A marker's event line gives back its identifier, type, how and time, the time also as start and stale, exactly when those hold no double quote. |
| ApdcProperties.PointReadBack | apdc.py:107-108 | The point line gives back the marker's latitude and longitude exactly when neither holds a double quote. |
| ApdcProperties.ContactReadBack | apdc.py:110 | The contact line gives back the marker's callsign exactly when it holds no double quote. |
| ApdcProperties.LinkReadBack | apdc.py:114-115 | The link line gives back the process identifier and the marker's time exactly when the time holds no double quote. The process identifier is the same parameter for every marker of a run. |
| ApdcProperties.UserIconReadBack | apdc.py:116 | The icon line gives back the marker's icon path exactly when it holds no double quote. |
| ApdcProperties.RemarksReadBack | apdc.py:120-121 | The remarks element holds the marker's remarks, whatever they are. An empty line follows it. |
| ApdcProperties.NewCotReadBack | apdc.py:24-45 | A new marker reads back as type `a-u-G`, how `h-g-i-g-o`, with that day's midnight as time, start, stale and production time. It carries its own identifier, the process identifier and the pushpin icon. Its point carries the latitude and longitude given, though passed longitude first, and its contact the callsign. |
| ApdcProperties.NewCotDefaultRemarks | apdc.py:24 | `COT(callsign, lon, lat)` without remarks gives a marker with empty remarks, and its remarks element reads back empty. |
| ApdcProperties.ContentBlocksLength | apdc.py:90-94 | The manifest's entries take three lines per marker. |
| ApdcProperties.ContentBlocksAt | apdc.py:90-94 | The k-th entry of the manifest is the k-th marker's, in input order. |
| ApdcProperties.ManifestShape | apdc.py:80-96 | The manifest has exactly 10 + 3·N lines. It opens with the XML declaration and the root element, and closes the contents and the root. |
| ApdcProperties.ManifestConfigReadBack | apdc.py:83-88 | The configuration names the package exactly when the name holds no double quote. It always carries the package identifier and empty remarks. |
| ApdcProperties.ManifestConfigTags | apdc.py:83-88 | Each configuration parameter line reads back as a self-closing `Parameter` tag with its name and value. For the package name this holds exactly when the name holds no double quote. |
| ApdcProperties.ManifestEntryReadBack | apdc.py:90-94 | The k-th entry names `<uid>/<uid>.cot`, not ignored. It carries a `uid` parameter equal to that marker's identifier and is then closed. |
| ApdcProperties.EntryUids | apdc.py:100-101 | The directories made are named by the markers' identifiers in order. None is `MANIFEST`, because a UUID's text never is. |
| ApdcProperties.StagedAllIff | apdc.py:65-66 | Every marker gets its event file exactly when no two markers share an identifier. |
| ApdcProperties.StagedClash | apdc.py:101 | A marker whose directory cannot be made repeats an earlier marker's identifier. The markers before it are distinct. |
| ApdcProperties.PackageStaged | apdc.py:48-68 | With `out` not a file and distinct identifiers, `create_package` succeeds without a clash. It leaves the untouched part of the old tree plus the whole staging tree. |
| ApdcProperties.PackageFiles | apdc.py:60-66 | That tree holds the manifest and each marker's event file with their lines, no other file under `out/` (1 + N in all), and every file outside `out/` as it was. |
| ApdcProperties.PackageDirs | apdc.py:60-66 | That tree holds `out/`, `out/MANIFEST` and one directory per marker, no other directory under `out/`, and the directories outside `out/` as they were. |
| ApdcProperties.PackageExact | apdc.py:48-68 | With `out` not a file and distinct identifiers, `create_package` succeeds. `out/` then holds exactly the following, with what was written to them: `MANIFEST/manifest.xml`, one `<uid>/<uid>.cot` per marker, and the directories for them. That is 1 + N files. Nothing outside `out/` changes. |
| ApdcInput.ReadShelters | apdc.py:148-163 | The loop of `_read_shelters` returns what `Shelters` describes, including the `KeyError` of a missing column. |
| ApdcInput.ShelterRows | apdc.py:159 | The rows kept are exactly the shelter rows. |
| ApdcInput.SheltersErrorStays | apdc.py:153-161 | Once a row raises an error, the whole read raises that error. |
| ApdcInput.SheltersOk | apdc.py:152-161 | The table reads without error exactly when every row after the first has a kind, and every shelter among them has `x`, `y` and `Adres`. |
| ApdcInput.SheltersMeaning | apdc.py:152-161 | A table that reads gives one marker per shelter row after the first, in order. The marker is `Schron` at `x`, `y`, with `Adres` as remarks. The k-th carries the k-th identifier drawn and the date the clock gave when it was made. |
| ApdcInput.ShelterCotOf | apdc.py:159-161 | A shelter row with its columns gives the marker `Schron` at `x`, `y`, with `Adres` as remarks. |
| ApdcInput.FirstRowUnread | apdc.py:153-157 | The first row the reader yields is skipped whatever it holds. |
| ApdcInput.ConvertKml | apdc.py:130-145 | The loop of `_convert_kml` returns what `Waypoints` describes, including the error of a placemark without geometry or coordinates. |
| ApdcInput.WaypointsErrorStays | apdc.py:134-143 | Once a placemark raises an error, the conversion raises that error. |
| ApdcInput.WaypointsOk | apdc.py:134-135 | The conversion succeeds exactly when every placemark has a first coordinate with two components. |
| ApdcInput.WaypointCotOk | apdc.py:134-135 | A single placemark gives a marker exactly when it has a first coordinate with two components. |
| ApdcInput.WaypointCotOf | apdc.py:136-142 | A placemark's marker takes its longitude and latitude from the first coordinate, in that order. A missing or empty name becomes "Unnamed Waypoint", and a missing or empty description gives no remarks. |
| ApdcInput.WaypointsMeaning | apdc.py:134-145 | A converted document gives one marker per placemark, in order, the k-th made from the k-th placemark. It carries the k-th identifier drawn and the date the clock gave when it was made. |
| ApdcInput.Run | apdc.py:165-197 | `main` raises the reader's error and changes nothing, or builds no package when there are no markers. Otherwise it builds the package of the markers read under the output name. |
| Amp.WriteEvent | amp.py:59-78 | The `with` block of `create_cot` writes exactly the event file's lines, with empty remarks and the lower-case process identifier. |
| Amp.WriteManifestHead | amp.py:36-44 | The manifest's first eight writes give its head, with unclosed parameters. |
| Amp.WriteContentBlock | amp.py:45-49 | One pass of the manifest loop appends exactly that marker's entry, with its comma-separated identifier line. |
| Amp.WriteManifest | amp.py:35-51 | The `with` block of `create_manifest` writes exactly the manifest's lines. |
| Amp.CreateCot | amp.py:54-78 | If the marker's directory exists, `mkdir` fails and nothing changes. Otherwise exactly that directory and its event file are added. |
| Amp.CreateManifest | amp.py:29-51 | If `out/manifest` exists, `mkdir` fails and nothing changes. Otherwise exactly that directory and `manifest.xml` are added. |
| Amp.CreateCots | amp.py:87-88 | The marker loop stages every marker before the first clash. The status names the clash. |
| Amp.CreatePackage | amp.py:81-90 | `create_package` up to the archive leaves what `Amp.PackageResult` states. |
| AmpProperties.UidLineAt | amp.py:48 | An identifier line is `<Parameter`, the attribute `name="uid"`, then text starting with a comma. |
| AmpProperties.UidLineUnreadable | amp.py:48 | A manifest identifier line never reads back as a tag, whatever the identifier, so no attribute of it reads back. |
| AmpProperties.EventShape | amp.py:59-78 | An event file has fifteen lines, all written at indent 0. |
| AmpProperties.EventHeaderReadBack | amp.py:60-61 | The event line gives back identifier, type, how and time, the time also as start and stale, exactly when those hold no double quote. |
| AmpProperties.PointReadBack | amp.py:62-63 | The point line gives back latitude and longitude exactly when neither holds a double quote. |
| AmpProperties.ContactReadBack | amp.py:65 | The contact line gives back the callsign exactly when it holds no double quote. |
| AmpProperties.LinkReadBack | amp.py:69-70 | The link line gives back the lower-case process identifier and the marker's time exactly when the time holds no double quote. |
| AmpProperties.UserIconReadBack | amp.py:71 | The icon line gives back the icon path exactly when it holds no double quote. |
| AmpProperties.RemarksReadBack | amp.py:75-76 | The remarks element is always empty. An empty line follows it. |
| AmpProperties.NewCotReadBack | amp.py:13-22 | A new marker reads back as type `a-u-G`, how `h-g-i-g-o`, with that day's midnight as time, start, stale and production time. It carries its identifier, the lower-case process identifier and the 2525B icon. Its point carries the latitude and longitude given, in that order, and its contact the callsign. |
| AmpProperties.ContentBlocksLength | amp.py:45-49 | The manifest's entries take three lines per marker. |
| AmpProperties.ContentBlocksAt | amp.py:45-49 | The k-th entry of the manifest is the k-th marker's, in input order. |
| AmpProperties.ManifestShape | amp.py:35-51 | The manifest has exactly 10 + 3·N lines, opening with the declaration and the root and closing both lists. |
| AmpProperties.ManifestConfigReadBack | amp.py:38-43 | The unclosed configuration parameters read back. The name reads back exactly when it holds no double quote, and the package identifier and empty remarks always do. |
| AmpProperties.ManifestConfigTags | amp.py:39-42 | Each configuration parameter line reads back as an opening `Parameter` tag that is never closed, with its name and value. For the package name this holds exactly when the name holds no double quote. |
| AmpProperties.ManifestEntryReadBack | amp.py:45-49 | The k-th entry names `<uid>/<uid>.cot`, not ignored. Its identifier line is the comma text carrying the marker's identifier (`Amp.UidLine`), which reads back as no tag. The entry is then closed. |
| AmpProperties.EntryUids | amp.py:55-56 | The directories made are named by the markers' identifiers in order. None is `manifest`. |
| AmpProperties.StagedAllIff | amp.py:87-88 | Every marker gets its event file exactly when no two markers share an identifier. |
| AmpProperties.StagedClash | amp.py:56 | A marker whose directory cannot be made repeats an earlier marker's identifier. The markers before it are distinct. |
| AmpProperties.PackageStaged | amp.py:81-90 | With `out` not a file and distinct identifiers, `create_package` succeeds without a clash. It leaves the untouched part of the old tree plus the whole staging tree. |
| AmpProperties.PackageFiles | amp.py:82-88 | That tree holds the manifest and each marker's event file with their lines, no other file under `out/` (1 + N in all), and every file outside `out/` as it was. |
| AmpProperties.PackageDirs | amp.py:82-88 | That tree holds `out/`, `out/manifest` and one directory per marker, no other directory under `out/`, and the directories outside `out/` as they were. |
| AmpProperties.PackageExact | amp.py:81-90 | With `out` not a file and distinct identifiers, `create_package` succeeds. `out/` then holds exactly `manifest/manifest.xml`, one `<uid>/<uid>.cot` per marker and their directories, with their lines. Nothing outside `out/` changes. |

## Left out

- The ZIP archive (`shutil.make_archive`, `apdc.py:68`, `amp.py:90`) is a library call. The model ends with the staging tree it would archive.
- `uuid4()`, `time()` and `date.fromtimestamp(...).strftime(...)` are parameters:
  - identifiers are given as `Uuid` or `LowerUuid` values, or as `draw(k)`;
  - the day is given as its `YYYY-MM-DD` text, one per marker, since each `COT` reads the clock when it is made (`day(k)` in `ApdcInput`; a run that crosses midnight is covered);
  - the date formatting itself is not modelled.
- Coordinates are kept as the text they are written as. Python's `str` of a float read from KML is not modelled.
- KML parsing (`fastkml`) and CSV tokenising (`csv.DictReader`) are foreign libraries. The model starts from the placemark records and row maps they yield.
- Short CSV rows are not modelled. `csv.DictReader` fills missing trailing cells with `None`, and `apdc.py:160-161` would then write the text `None` into a marker. A `Row` holds text for every column it has. A column the header lacks is absent and raises `KeyError`, as `row["x"]` does in `apdc.py:160`.
- `argparse` is reduced to its outcome. Exactly one source is given, with an output name. Usage errors and help output are not modelled. The CSV path given is ignored, as `apdc.py` ignores it: the rows are those of `schrony-csv.csv`.
- `_export_kml` (`apdc.py:126-128`) is an unused example helper.
- `amp.py`'s statements run at import (`amp.py:93-97`) and its `PACKAGE_NAME` are a fixed script, not part of the builder.
- The `__name__ == "__main__"` guard is not modelled.
- File contents are the sequence of chunks written, not bytes. Text encoding, permissions, symbolic links and I/O errors other than the four named are not modelled.
- XML escaping and well-formedness checks do not exist in the scripts. The model writes exactly what they write and proves the consequences instead of adding escaping.
