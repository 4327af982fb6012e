/**
 * Where `apdc.py` gets its markers: the shelter table (`_read_shelters`), a
 * KML document (`_convert_kml`), and `main`, which picks one of them by its
 * arguments and builds the package. Files are not parsed here: the rows the
 * CSV reader yields and the placemarks the KML parser finds are given, and
 * `draw(k)` is the k-th identifier `uuid4()` hands out in a run, and
 * `day(k)` the date the clock gives when the k-th marker is made.
 */
module ApdcInput {
  import opened Results
  import opened Uuids
  import opened Files
  import opened Apdc

  /** A data row of the CSV reader: column name to cell text. */
  type Row = map<string, string>

  /** The exceptions the readers can raise. */
  datatype Error = KeyError(key: string) | AttributeError | IndexError

  const KindColumn: string := "Rodzaj obi"
  const ShelterKind: string := "[1] - (S) - schron"
  const ShelterCallsign: string := "Schron"
  const UnnamedWaypoint: string := "Unnamed Waypoint"

  predicate IsShelter(row: Row)
  {
    KindColumn in row && row[KindColumn] == ShelterKind
  }

  /**
   * The marker for a shelter row: `COT(callsign="Schron", lon=row["x"],
   * lat=row["y"], remarks=row["Adres"])`, or the first of those columns that
   * is missing. The identifier is drawn only once the columns are read.
   */
  function ShelterCot(row: Row, uuid: Uuid, today: string): Result<Cot, Error>
  {
    if "x" !in row then Err(KeyError("x"))
    else if "y" !in row then Err(KeyError("y"))
    else if "Adres" !in row then Err(KeyError("Adres"))
    else Ok(NewCot(ShelterCallsign, row["x"], row["y"], row["Adres"], uuid, today))
  }

  /**
   * What `_read_shelters` returns for the rows the CSV reader yields. The
   * reader has already taken the header line, and the loop passes over the
   * first data row as well; every later row must have the kind column, and
   * the shelters among them become markers, the k-th with `draw(k)`, dated `day(k)`.
   */
  function Shelters(rows: seq<Row>, draw: nat -> Uuid, day: nat -> string): Result<seq<Cot>, Error>
  {
    if |rows| <= 1 then Ok([])
    else
      match Shelters(rows[..|rows| - 1], draw, day)
      case Err(e) => Err(e)
      case Ok(cots) =>
        var row := rows[|rows| - 1];
        if KindColumn !in row then Err(KeyError(KindColumn))
        else if row[KindColumn] != ShelterKind then Ok(cots)
        else
          match ShelterCot(row, draw(|cots|), day(|cots|))
          case Err(e) => Err(e)
          case Ok(c) => Ok(cots + [c])
  }

  /** `_read_shelters(csv_path)`, given what the CSV reader yields for the file. */
  method ReadShelters(rows: seq<Row>, draw: nat -> Uuid, day: nat -> string) returns (r: Result<seq<Cot>, Error>)
    ensures r == Shelters(rows, draw, day)
  {
    var shelters: seq<Cot> := [];
    var headerRow := true;
    for i := 0 to |rows|
      invariant headerRow <==> i == 0
      invariant Shelters(rows[..i], draw, day) == Ok(shelters)
    {
      var row := rows[i];
      assert rows[..i + 1][..i] == rows[..i];
      if headerRow {
        headerRow := false;
        continue;
      }
      if KindColumn !in row {
        SheltersErrorStays(rows, i + 1, draw, day);
        return Err(KeyError(KindColumn));
      }
      if row[KindColumn] == ShelterKind {
        var c := ShelterCot(row, draw(|shelters|), day(|shelters|));
        if c.Err? {
          SheltersErrorStays(rows, i + 1, draw, day);
          return Err(c.error);
        }
        shelters := shelters + [c.value];
      }
    }
    assert rows[..|rows|] == rows;
    return Ok(shelters);
  }

  /** Once the rows read so far raise an error, reading more rows raises the same one. */
  lemma {:induction false} SheltersErrorStays(rows: seq<Row>, n: nat, draw: nat -> Uuid, day: nat -> string)
    requires n <= |rows| && Shelters(rows[..n], draw, day).Err?
    ensures Shelters(rows, draw, day) == Shelters(rows[..n], draw, day)
    decreases |rows|
  {
    if n < |rows| {
      var init := rows[..|rows| - 1];
      assert init[..n] == rows[..n];
      SheltersErrorStays(init, n, draw, day);
    } else {
      assert rows[..n] == rows;
    }
  }

  /** The rows of `rows` that describe shelters, in order. */
  function ShelterRows(rows: seq<Row>): (kept: seq<Row>)
    ensures forall row :: row in kept <==> row in rows && IsShelter(row)
  {
    if rows == [] then []
    else
      var init, row := rows[..|rows| - 1], rows[|rows| - 1];
      assert forall r :: r in rows <==> r in init || r == row;
      ShelterRows(init) + if IsShelter(row) then [row] else []
  }

  /** The rows after the first. */
  function Later(rows: seq<Row>): seq<Row>
  {
    if rows == [] then [] else rows[1..]
  }

  /** Every row after the first has a kind, and every shelter among them has the three columns a marker needs. */
  predicate Readable(rows: seq<Row>)
  {
    forall i | 1 <= i < |rows| ::
      KindColumn in rows[i] && (IsShelter(rows[i]) ==> "x" in rows[i] && "y" in rows[i] && "Adres" in rows[i])
  }

  /** The marker a shelter row with all its columns gives. */
  predicate ShelterOf(c: Cot, row: Row, uuid: Uuid, today: string)
  {
    && "x" in row && "y" in row && "Adres" in row
    && c == NewCot(ShelterCallsign, row["x"], row["y"], row["Adres"], uuid, today)
  }

  /** The shelter table is read exactly when every row after the first is readable. */
  lemma {:induction false} SheltersOk(rows: seq<Row>, draw: nat -> Uuid, day: nat -> string)
    ensures Shelters(rows, draw, day).Ok? <==> Readable(rows)
    decreases |rows|
  {
    if |rows| > 1 {
      var init, row := rows[..|rows| - 1], rows[|rows| - 1];
      SheltersOk(init, draw, day);
      if Readable(rows) {
        forall i | 1 <= i < |init|
          ensures KindColumn in init[i] && (IsShelter(init[i]) ==> "x" in init[i] && "y" in init[i] && "Adres" in init[i])
        {
          assert init[i] == rows[i];
        }
      }
      if Readable(init) && !Readable(rows) {
        assert !(KindColumn in row && (IsShelter(row) ==> "x" in row && "y" in row && "Adres" in row)) by {
          var i :| 1 <= i < |rows| && !(KindColumn in rows[i] && (IsShelter(rows[i]) ==> "x" in rows[i] && "y" in rows[i] && "Adres" in rows[i]));
          assert i == |init|;
        }
      }
    }
  }

  /**
   * A table that is read gives one marker per shelter row after the first,
   * in order, built from that row's columns.
   */
  lemma {:induction false} SheltersMeaning(rows: seq<Row>, draw: nat -> Uuid, day: nat -> string)
    requires Shelters(rows, draw, day).Ok?
    ensures var cots, kept := Shelters(rows, draw, day).value, ShelterRows(Later(rows));
      && |cots| == |kept|
      && forall k | 0 <= k < |cots| :: ShelterOf(cots[k], kept[k], draw(k), day(k))
    decreases |rows|
  {
    if |rows| > 1 {
      var init, row := rows[..|rows| - 1], rows[|rows| - 1];
      assert Shelters(init, draw, day).Ok?;
      SheltersMeaning(init, draw, day);
      var before, keptBefore := Shelters(init, draw, day).value, ShelterRows(Later(init));
      var cots, kept := Shelters(rows, draw, day).value, ShelterRows(Later(rows));
      assert Later(rows) == Later(init) + [row];
      assert Later(rows)[..|Later(rows)| - 1] == Later(init);
      if IsShelter(row) {
        var c := ShelterCot(row, draw(|before|), day(|before|)).value;
        assert kept == keptBefore + [row];
        assert cots == before + [c];
        ShelterCotOf(row, draw(|before|), day(|before|));
        SheltersAppend(before, keptBefore, c, row, draw, day);
      } else {
        assert kept == keptBefore;
        assert cots == before;
      }
    } else {
      assert Later(rows) == [];
    }
  }

  /** One more shelter row and the marker it gives keep the markers matched to the rows. */
  lemma SheltersAppend(before: seq<Cot>, keptBefore: seq<Row>, c: Cot, row: Row, draw: nat -> Uuid, day: nat -> string)
    requires |before| == |keptBefore|
    requires forall k | 0 <= k < |before| :: ShelterOf(before[k], keptBefore[k], draw(k), day(k))
    requires ShelterOf(c, row, draw(|before|), day(|before|))
    ensures forall k | 0 <= k < |before| + 1 ::
      ShelterOf((before + [c])[k], (keptBefore + [row])[k], draw(k), day(k))
  {
    forall k | 0 <= k < |before| + 1
      ensures ShelterOf((before + [c])[k], (keptBefore + [row])[k], draw(k), day(k))
    {
      if k < |before| {
        assert ShelterOf(before[k], keptBefore[k], draw(k), day(k));
        assert (before + [c])[k] == before[k] && (keptBefore + [row])[k] == keptBefore[k];
      } else {
        assert (before + [c])[k] == c && (keptBefore + [row])[k] == row;
      }
    }
  }

  /** The marker a shelter row gives, when it gives one. */
  lemma ShelterCotOf(row: Row, uuid: Uuid, today: string)
    requires ShelterCot(row, uuid, today).Ok?
    ensures ShelterOf(ShelterCot(row, uuid, today).value, row, uuid, today)
  {
  }

  /** Whatever the first data row holds, it is never looked at. */
  lemma {:induction false} FirstRowUnread(rows: seq<Row>, other: Row, draw: nat -> Uuid, day: nat -> string)
    requires rows != []
    ensures Shelters([other] + rows[1..], draw, day) == Shelters(rows, draw, day)
    decreases |rows|
  {
    var swapped := [other] + rows[1..];
    if |rows| > 1 {
      FirstRowUnread(rows[..|rows| - 1], other, draw, day);
      assert swapped[..|swapped| - 1] == [other] + rows[..|rows| - 1][1..];
    }
  }

  /** A placemark as the KML parser gives it; a part it lacks is `None`. */
  datatype Placemark = Placemark(name: Option<string>, description: Option<string>, coords: Option<seq<seq<string>>>)

  /** Python's truth value of an optional string: present and not empty. */
  predicate Truthy(s: Option<string>)
  {
    s.Some? && s.value != ""
  }

  /**
   * The marker for one placemark: its first coordinate pair gives longitude
   * and latitude, a missing or empty name becomes "Unnamed Waypoint" and a
   * missing or empty description no remarks. Without a geometry the
   * attribute lookup fails; without a first pair of coordinates, the index.
   */
  function WaypointCot(p: Placemark, uuid: Uuid, today: string): Result<Cot, Error>
  {
    if p.coords.None? then Err(AttributeError)
    else if |p.coords.value| == 0 || |p.coords.value[0]| < 2 then Err(IndexError)
    else
      var coords := p.coords.value[0];
      var callsign := if Truthy(p.name) then p.name.value else UnnamedWaypoint;
      var remarks := if Truthy(p.description) then p.description.value else "";
      Ok(NewCot(callsign, coords[0], coords[1], remarks, uuid, today))
  }

  /** What `_convert_kml` returns for the placemarks found, the k-th marker with `draw(k)`, dated `day(k)`. */
  function Waypoints(ps: seq<Placemark>, draw: nat -> Uuid, day: nat -> string): Result<seq<Cot>, Error>
  {
    if ps == [] then Ok([])
    else
      match Waypoints(ps[..|ps| - 1], draw, day)
      case Err(e) => Err(e)
      case Ok(cots) =>
        match WaypointCot(ps[|ps| - 1], draw(|cots|), day(|cots|))
        case Err(e) => Err(e)
        case Ok(c) => Ok(cots + [c])
  }

  /** `_convert_kml(kml_path)`, given the placemarks the parser finds in the file. */
  method ConvertKml(ps: seq<Placemark>, draw: nat -> Uuid, day: nat -> string) returns (r: Result<seq<Cot>, Error>)
    ensures r == Waypoints(ps, draw, day)
  {
    var waypoints: seq<Cot> := [];
    for i := 0 to |ps|
      invariant Waypoints(ps[..i], draw, day) == Ok(waypoints)
    {
      assert ps[..i + 1][..i] == ps[..i];
      var c := WaypointCot(ps[i], draw(|waypoints|), day(|waypoints|));
      if c.Err? {
        WaypointsErrorStays(ps, i + 1, draw, day);
        return Err(c.error);
      }
      waypoints := waypoints + [c.value];
    }
    assert ps[..|ps|] == ps;
    return Ok(waypoints);
  }

  /** Once the placemarks read so far raise an error, reading more raises the same one. */
  lemma {:induction false} WaypointsErrorStays(ps: seq<Placemark>, n: nat, draw: nat -> Uuid, day: nat -> string)
    requires n <= |ps| && Waypoints(ps[..n], draw, day).Err?
    ensures Waypoints(ps, draw, day) == Waypoints(ps[..n], draw, day)
    decreases |ps|
  {
    if n < |ps| {
      var init := ps[..|ps| - 1];
      assert init[..n] == ps[..n];
      WaypointsErrorStays(init, n, draw, day);
    } else {
      assert ps[..n] == ps;
    }
  }

  /** A placemark has a geometry whose first coordinate has a longitude and a latitude. */
  predicate Located(p: Placemark)
  {
    p.coords.Some? && |p.coords.value| > 0 && |p.coords.value[0]| >= 2
  }

  /**
   * The marker a located placemark gives: named by the placemark or "Unnamed
   * Waypoint", placed at its first coordinate, remarked by its description
   * or nothing.
   */
  predicate WaypointOf(c: Cot, p: Placemark, uuid: Uuid, today: string)
  {
    && Located(p)
    && c.callsign == (if Truthy(p.name) then p.name.value else UnnamedWaypoint)
    && c.lon == p.coords.value[0][0]
    && c.lat == p.coords.value[0][1]
    && c.remarks == (if Truthy(p.description) then p.description.value else "")
    && c == NewCot(c.callsign, c.lon, c.lat, c.remarks, uuid, today)
  }

  /** The document converts exactly when every placemark is located. */
  lemma {:induction false} WaypointsOk(ps: seq<Placemark>, draw: nat -> Uuid, day: nat -> string)
    ensures Waypoints(ps, draw, day).Ok? <==> forall i | 0 <= i < |ps| :: Located(ps[i])
    decreases |ps|
  {
    if ps != [] {
      var init, p := ps[..|ps| - 1], ps[|ps| - 1];
      WaypointsOk(init, draw, day);
      var before := Waypoints(init, draw, day);
      if before.Ok? {
        WaypointCotOk(p, draw(|before.value|), day(|before.value|));
      }
      assert ps == init + [p];
      LocatedSplit(ps, init, p);
    }
  }

  /** Every placemark is located exactly when all but the last are and the last is. */
  lemma LocatedSplit(ps: seq<Placemark>, init: seq<Placemark>, p: Placemark)
    requires ps == init + [p]
    ensures (forall i | 0 <= i < |ps| :: Located(ps[i])) <==>
      (forall i | 0 <= i < |init| :: Located(init[i])) && Located(p)
  {
    if forall i | 0 <= i < |ps| :: Located(ps[i]) {
      forall i | 0 <= i < |init|
        ensures Located(init[i])
      {
        assert init[i] == ps[i];
      }
      assert Located(ps[|init|]);
    }
    if (forall i | 0 <= i < |init| :: Located(init[i])) && Located(p) {
      forall i | 0 <= i < |ps|
        ensures Located(ps[i])
      {
        if i < |init| {
          assert ps[i] == init[i];
        }
      }
    }
  }

  /** One placemark gives a marker exactly when it is located. */
  lemma WaypointCotOk(p: Placemark, uuid: Uuid, today: string)
    ensures WaypointCot(p, uuid, today).Ok? <==> Located(p)
  {
  }

  /** A converted document has one marker per placemark, in order, the k-th made from the k-th placemark. */
  lemma {:induction false} WaypointsMeaning(ps: seq<Placemark>, draw: nat -> Uuid, day: nat -> string)
    requires Waypoints(ps, draw, day).Ok?
    ensures var cots := Waypoints(ps, draw, day).value;
      && |cots| == |ps|
      && forall k | 0 <= k < |cots| :: WaypointOf(cots[k], ps[k], draw(k), day(k))
    decreases |ps|
  {
    if ps != [] {
      var init, p := ps[..|ps| - 1], ps[|ps| - 1];
      assert Waypoints(init, draw, day).Ok?;
      WaypointsMeaning(init, draw, day);
      var before := Waypoints(init, draw, day).value;
      var c := WaypointCot(p, draw(|before|), day(|before|)).value;
      var cots := Waypoints(ps, draw, day).value;
      assert cots == before + [c];
      WaypointCotOf(p, draw(|before|), day(|before|));
      WaypointsAppend(before, init, c, p, draw, day);
      assert ps == init + [p];
    }
  }

  /** One more placemark and the marker it gives keep the markers matched to the placemarks. */
  lemma WaypointsAppend(before: seq<Cot>, init: seq<Placemark>, c: Cot, p: Placemark, draw: nat -> Uuid, day: nat -> string)
    requires |before| == |init|
    requires forall k | 0 <= k < |before| :: WaypointOf(before[k], init[k], draw(k), day(k))
    requires WaypointOf(c, p, draw(|before|), day(|before|))
    ensures forall k | 0 <= k < |before| + 1 ::
      WaypointOf((before + [c])[k], (init + [p])[k], draw(k), day(k))
  {
    forall k | 0 <= k < |before| + 1
      ensures WaypointOf((before + [c])[k], (init + [p])[k], draw(k), day(k))
    {
      if k < |before| {
        assert WaypointOf(before[k], init[k], draw(k), day(k));
        assert (before + [c])[k] == before[k] && (init + [p])[k] == init[k];
      } else {
        assert (before + [c])[k] == c && (init + [p])[k] == p;
      }
    }
  }

  /** The marker one placemark gives, when it gives one. */
  lemma WaypointCotOf(p: Placemark, uuid: Uuid, today: string)
    requires WaypointCot(p, uuid, today).Ok?
    ensures WaypointOf(WaypointCot(p, uuid, today).value, p, uuid, today)
  {
  }

  /** Which source `main` was told to read; argument parsing guarantees exactly one. */
  datatype Source = Schrony(csvPath: string) | Kml(kmlPath: string)

  datatype Args = Args(source: Source, output: string)

  /**
   * The markers `main` collects: from the KML document when a KML path is
   * given, from the shelter table when a CSV path is given, none when the
   * path given is empty. The process identifier is the first draw, so the
   * markers' identifiers are numbered from 1; the k-th marker is dated
   * `day(k)`, since each marker reads the clock as it is made.
   */
  function Markers(args: Args, rows: seq<Row>, ps: seq<Placemark>, draw: nat -> Uuid, day: nat -> string): Result<seq<Cot>, Error>
  {
    var markerDraw := (k: nat) => draw(k + 1);
    match args.source
    case Kml(path) => if path != "" then Waypoints(ps, markerDraw, day) else Ok([])
    case Schrony(path) => if path != "" then Shelters(rows, markerDraw, day) else Ok([])
  }

  /** How a run of `main` ends. */
  datatype Outcome =
    | Raised(error: Error)
    | NoMarkers
    | Packaged(cots: seq<Cot>, st: Status)

  /**
   * `main()`. The table is always read from `schrony-csv.csv`, whatever
   * path is given, so `rows` is what the CSV reader yields for that file;
   * `ps` is what the KML parser finds at the KML path. Identifiers are drawn
   * in order: the process identifier, one per marker, then the package's.
   */
  method Run(fs: FileSystem, args: Args, rows: seq<Row>, ps: seq<Placemark>, draw: nat -> Uuid, day: nat -> string)
    returns (r: Outcome)
    requires fs.Valid()
    modifies fs
    ensures fs.Valid()
    ensures match Markers(args, rows, ps, draw, day)
      case Err(e) => r == Raised(e) && fs.dirs == old(fs.dirs) && fs.files == old(fs.files)
      case Ok(cots) =>
        if cots == [] then r == NoMarkers && fs.dirs == old(fs.dirs) && fs.files == old(fs.files)
        else
          && r.Packaged? && r.cots == cots
          && PackageResult(old(fs.dirs), old(fs.files), fs.dirs, fs.files,
                           args.output, cots, draw(|cots| + 1), draw(0), r.st)
  {
    var markerDraw := (k: nat) => draw(k + 1);
    var found: Result<seq<Cot>, Error> := Ok([]);
    match args.source {
      case Kml(path) =>
        if path != "" {
          found := ConvertKml(ps, markerDraw, day);
        }
      case Schrony(path) =>
        if path != "" {
          found := ReadShelters(rows, markerDraw, day);
        }
    }
    if found.Err? {
      return Raised(found.error);
    }
    var cots := found.value;
    if cots == [] {
      return NoMarkers;
    }
    var st := CreatePackage(fs, args.output, cots, draw(|cots| + 1), draw(0));
    return Packaged(cots, st);
  }
}
