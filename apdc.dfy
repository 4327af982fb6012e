/**
 * The package builder of `apdc.py`: markers (`COT`), the mission-package
 * manifest, one event file per marker, and the staging tree under `out/`.
 * The identifiers the script draws from `uuid4()` and today's date are
 * parameters: `processUid` is the one drawn once when the script starts.
 */
module Apdc {
  import opened Results
  import opened Lines
  import opened Tags
  import opened Uuids
  import opened Files
  import opened Staging
  import opened Markup

  /** The manifest directory's name. */
  const ManifestDir: string := "MANIFEST"

  /** The pushpin icon, as a path inside the icon set with the identifier `IconSet`. */
  const IconSet: string := "f7f71666-8b28-4b57-9fbb-e38e61d33b79"
  const IconPath: string := IconSet + "/Google/ltblu-pushpin.png"

  /** A marker. Coordinates are kept as the text they are written as. */
  datatype Cot = Cot(
    lon: string, lat: string, callsign: string, uuid: Uuid, time: string,
    kind: string, how: string, iconPath: string, remarks: string)

  /**
   * `COT(callsign, lon, lat, remarks)`, given the identifier drawn for it and
   * the date the clock gives; remarks default to none.
   */
  function NewCot(callsign: string, lon: string, lat: string, remarks: string := "", uuid: Uuid, today: string): Cot
  {
    Cot(lon, lat, callsign, uuid, Midnight(today), MarkerType, MarkerHow, IconPath, remarks)
  }

  /** What a marker's event file, `<uid>.cot`, holds, line by line. */
  function EventDoc(c: Cot, processUid: Uuid): seq<Line>
  {
    [ Line(Element(EventTag(c.uuid, c.kind, c.how, c.time)), 0),
      Line(Element(PointTag(c.lat, c.lon)), 0),
      Line(Text(DetailOpen), 0),
      Line(Element(ContactTag(c.callsign)), 0),
      Line(Text(PrecisionLine), 0),
      Line(Text(StatusLine), 0),
      Line(Text(ArchiveLine), 0),
      Line(Element(LinkTag(processUid, c.time)), 0),
      Line(Element(UserIconTag(c.iconPath)), 0),
      Line(Text(ColorLine), 0),
      Line(Text(FlowTagsLine), 0),
      Line(Text(RemarksLine(c.remarks)), 0),
      Line(Text(""), 0),
      Line(Text(DetailClose), 0),
      Line(Text(EventClose), 0) ]
  }

  /** The lines of a marker's event file. */
  function EventLines(c: Cot, processUid: Uuid): seq<string>
  {
    Render(EventDoc(c, processUid))
  }

  /** The manifest up to its list of contents. */
  function ManifestHead(name: string, packageUid: Uuid): seq<Line>
  {
    [ Line(Text(XmlDeclaration), 0),
      Line(Text(ManifestOpen), 0),
      Line(Text(ConfigurationOpen), 1),
      Line(Element(ParameterTag("name", name, SelfClosing)), 2),
      Line(Element(ParameterTag("uid", packageUid, SelfClosing)), 2),
      Line(Element(ParameterTag("remarks", "", SelfClosing)), 2),
      Line(Text(ConfigurationClose), 1),
      Line(Text(ContentsOpen), 1) ]
  }

  /** The manifest's entry for one marker. */
  function ContentBlock(c: Cot): seq<Line>
  {
    [ Line(Element(ContentTag(c.uuid)), 2),
      Line(Element(ParameterTag("uid", c.uuid, SelfClosing)), 3),
      Line(Text(ContentClose), 2) ]
  }

  function ContentBlocks(cots: seq<Cot>): seq<Line>
  {
    if cots == [] then [] else ContentBlocks(cots[..|cots| - 1]) + ContentBlock(cots[|cots| - 1])
  }

  const ManifestTail: seq<Line> := [Line(Text(ContentsClose), 1), Line(Text(ManifestClose), 0)]

  /** What `manifest.xml` holds, line by line. */
  function ManifestDoc(name: string, packageUid: Uuid, cots: seq<Cot>): seq<Line>
  {
    ManifestHead(name, packageUid) + ContentBlocks(cots) + ManifestTail
  }

  /** The lines of `manifest.xml`. */
  function ManifestLines(name: string, packageUid: Uuid, cots: seq<Cot>): seq<string>
  {
    Render(ManifestDoc(name, packageUid, cots))
  }

  /** Each marker's identifier with the lines of its event file. */
  function Entries(cots: seq<Cot>, processUid: Uuid): seq<Entry>
  {
    seq(|cots|, i requires 0 <= i < |cots| => Entry(cots[i].uuid, EventLines(cots[i], processUid)))
  }

  /** The markers' identifiers, in order: the names of the directories `create_cot` makes. */
  function CotUids(cots: seq<Cot>): seq<string>
  {
    seq(|cots|, i requires 0 <= i < |cots| => cots[i].uuid)
  }

  /** The staging entries carry the markers' identifiers. */
  lemma EntriesUids(cots: seq<Cot>, processUid: Uuid)
    ensures Uids(Entries(cots, processUid)) == CotUids(cots)
  {
  }

  /** How many markers get their event file: all of them, or those before the first clash. */
  function Staged(cots: seq<Cot>): nat
  {
    match FirstClash(ManifestDir, CotUids(cots))
    case None => |cots|
    case Some(k) => k
  }

  /** The body of `_create_cot`'s `with` block: the event file's lines, written in order. */
  method WriteEvent(f: Handle, c: Cot, processUid: Uuid)
    requires f.chunks == []
    modifies f
    ensures f.chunks == EventLines(c, processUid)
  {
    IndentWrite(f, TagText(EventTag(c.uuid, c.kind, c.how, c.time)), 0);
    IndentWrite(f, TagText(PointTag(c.lat, c.lon)), 0);
    IndentWrite(f, DetailOpen, 0);
    IndentWrite(f, TagText(ContactTag(c.callsign)), 0);
    IndentWrite(f, PrecisionLine, 0);
    IndentWrite(f, StatusLine, 0);
    IndentWrite(f, ArchiveLine, 0);
    IndentWrite(f, TagText(LinkTag(processUid, c.time)), 0);
    IndentWrite(f, TagText(UserIconTag(c.iconPath)), 0);
    IndentWrite(f, ColorLine, 0);
    IndentWrite(f, FlowTagsLine, 0);
    IndentWrite(f, RemarksLine(c.remarks), 0);
    IndentWrite(f, "", 0);
    IndentWrite(f, DetailClose, 0);
    IndentWrite(f, EventClose, 0);
    Written15([], IndentLine(TagText(EventTag(c.uuid, c.kind, c.how, c.time)), 0),
              IndentLine(TagText(PointTag(c.lat, c.lon)), 0), IndentLine(DetailOpen, 0),
              IndentLine(TagText(ContactTag(c.callsign)), 0), IndentLine(PrecisionLine, 0),
              IndentLine(StatusLine, 0), IndentLine(ArchiveLine, 0),
              IndentLine(TagText(LinkTag(processUid, c.time)), 0),
              IndentLine(TagText(UserIconTag(c.iconPath)), 0), IndentLine(ColorLine, 0),
              IndentLine(FlowTagsLine, 0), IndentLine(RemarksLine(c.remarks), 0), IndentLine("", 0),
              IndentLine(DetailClose, 0), IndentLine(EventClose, 0));
    Render15(Line(Element(EventTag(c.uuid, c.kind, c.how, c.time)), 0),
             Line(Element(PointTag(c.lat, c.lon)), 0), Line(Text(DetailOpen), 0),
             Line(Element(ContactTag(c.callsign)), 0), Line(Text(PrecisionLine), 0),
             Line(Text(StatusLine), 0), Line(Text(ArchiveLine), 0),
             Line(Element(LinkTag(processUid, c.time)), 0),
             Line(Element(UserIconTag(c.iconPath)), 0), Line(Text(ColorLine), 0),
             Line(Text(FlowTagsLine), 0), Line(Text(RemarksLine(c.remarks)), 0), Line(Text(""), 0),
             Line(Text(DetailClose), 0), Line(Text(EventClose), 0));
  }

  /** The manifest's opening lines, up to `<Contents>`. */
  method WriteManifestHead(f: Handle, name: string, packageUid: Uuid)
    requires f.chunks == []
    modifies f
    ensures f.chunks == Render(ManifestHead(name, packageUid))
  {
    IndentWrite(f, XmlDeclaration, 0);
    IndentWrite(f, ManifestOpen, 0);
    IndentWrite(f, ConfigurationOpen, 1);
    IndentWrite(f, TagText(ParameterTag("name", name, SelfClosing)), 2);
    IndentWrite(f, TagText(ParameterTag("uid", packageUid, SelfClosing)), 2);
    IndentWrite(f, TagText(ParameterTag("remarks", "", SelfClosing)), 2);
    IndentWrite(f, ConfigurationClose, 1);
    IndentWrite(f, ContentsOpen, 1);
    Written8([], IndentLine(XmlDeclaration, 0), IndentLine(ManifestOpen, 0), IndentLine(ConfigurationOpen, 1),
             IndentLine(TagText(ParameterTag("name", name, SelfClosing)), 2),
             IndentLine(TagText(ParameterTag("uid", packageUid, SelfClosing)), 2),
             IndentLine(TagText(ParameterTag("remarks", "", SelfClosing)), 2),
             IndentLine(ConfigurationClose, 1), IndentLine(ContentsOpen, 1));
  }

  /** One pass of the loop over the markers in `_create_manifest`. */
  method WriteContentBlock(f: Handle, c: Cot)
    modifies f
    ensures f.chunks == old(f.chunks) + Render(ContentBlock(c))
  {
    ghost var before := f.chunks;
    IndentWrite(f, TagText(ContentTag(c.uuid)), 2);
    IndentWrite(f, TagText(ParameterTag("uid", c.uuid, SelfClosing)), 3);
    IndentWrite(f, ContentClose, 2);
    Written3(before, IndentLine(TagText(ContentTag(c.uuid)), 2),
             IndentLine(TagText(ParameterTag("uid", c.uuid, SelfClosing)), 3), IndentLine(ContentClose, 2));
  }

  /** The body of `_create_manifest`'s `with` block. */
  method WriteManifest(f: Handle, name: string, cots: seq<Cot>, packageUid: Uuid)
    requires f.chunks == []
    modifies f
    ensures f.chunks == ManifestLines(name, packageUid, cots)
  {
    WriteManifestHead(f, name, packageUid);
    assert cots[..0] == [];
    for i := 0 to |cots|
      invariant f.chunks == Render(ManifestHead(name, packageUid)) + Render(ContentBlocks(cots[..i]))
    {
      WriteContentBlock(f, cots[i]);
      assert cots[..i + 1][..i] == cots[..i];
      RenderAppend(ContentBlocks(cots[..i]), ContentBlock(cots[i]));
    }
    assert cots[..|cots|] == cots;
    ghost var body := f.chunks;
    IndentWrite(f, ContentsClose, 1);
    IndentWrite(f, ManifestClose, 0);
    Written2(body, IndentLine(ContentsClose, 1), IndentLine(ManifestClose, 0));
    RenderAppend(ManifestHead(name, packageUid), ContentBlocks(cots));
    RenderAppend(ManifestHead(name, packageUid) + ContentBlocks(cots), ManifestTail);
  }

  /** `_create_cot(cot)`: makes `out/<uid>/` and writes `<uid>.cot` in it. */
  method CreateCot(fs: FileSystem, c: Cot, processUid: Uuid) returns (st: Status)
    requires fs.Valid() && [Out] in fs.dirs
    modifies fs
    ensures fs.Valid()
    ensures old(fs.Exists(EventDir(c.uuid))) ==>
              && st == Failed(FileExists(EventDir(c.uuid)))
              && fs.dirs == old(fs.dirs) && fs.files == old(fs.files)
    ensures !old(fs.Exists(EventDir(c.uuid))) ==>
              && st == Done
              && fs.dirs == old(fs.dirs) + {EventDir(c.uuid)}
              && fs.files == old(fs.files)[EventPath(c.uuid) := EventLines(c, processUid)]
  {
    var dir := EventDir(c.uuid);
    assert Parent(dir) == [Out];
    st := fs.Mkdir(dir);
    if st.Failed? {
      return;
    }
    var path := EventPath(c.uuid);
    assert Parent(path) == dir;
    var f;
    st, f := fs.Open(path);
    WriteEvent(f, c, processUid);
    ghost var created := fs.files;
    fs.Close(f);
    assert created == old(fs.files)[path := []];
  }

  /** `_create_manifest(name, cots)`: makes `out/MANIFEST/` and writes `manifest.xml` in it. */
  method CreateManifest(fs: FileSystem, name: string, cots: seq<Cot>, packageUid: Uuid) returns (st: Status)
    requires fs.Valid() && [Out] in fs.dirs
    modifies fs
    ensures fs.Valid()
    ensures old(fs.Exists([Out, ManifestDir])) ==>
              && st == Failed(FileExists([Out, ManifestDir]))
              && fs.dirs == old(fs.dirs) && fs.files == old(fs.files)
    ensures !old(fs.Exists([Out, ManifestDir])) ==>
              && st == Done
              && fs.dirs == old(fs.dirs) + {[Out, ManifestDir]}
              && fs.files == old(fs.files)[ManifestPath(ManifestDir) := ManifestLines(name, packageUid, cots)]
  {
    var dir := [Out, ManifestDir];
    assert Parent(dir) == [Out];
    st := fs.Mkdir(dir);
    if st.Failed? {
      return;
    }
    var path := ManifestPath(ManifestDir);
    assert Parent(path) == dir;
    var f;
    st, f := fs.Open(path);
    ghost var created := fs.files;
    WriteManifest(f, name, cots, packageUid);
    fs.Close(f);
    assert created == old(fs.files)[path := []];
  }

  /**
   * The loop of `create_package` over the markers, once `out/` holds the
   * manifest and whatever was left outside `out/` is `outside`: each marker
   * gets its directory and event file until one directory cannot be made.
   */
  method CreateCots(fs: FileSystem, cots: seq<Cot>, processUid: Uuid,
                    ghost outsideDirs: set<Path>, ghost outsideFiles: map<Path, seq<string>>, ghost manifest: seq<string>)
    returns (st: Status)
    requires fs.Valid()
    requires forall p | p in outsideDirs :: !InOut(p)
    requires forall p | p in outsideFiles :: !InOut(p)
    requires fs.dirs == outsideDirs + TreeDirs(ManifestDir, [])
    requires fs.files == outsideFiles + TreeFiles(ManifestDir, manifest, [])
    modifies fs
    ensures fs.Valid()
    ensures var es, k := Entries(cots, processUid), Staged(cots);
              && fs.dirs == outsideDirs + TreeDirs(ManifestDir, Uids(es[..k]))
              && fs.files == outsideFiles + TreeFiles(ManifestDir, manifest, es[..k])
              && (k == |cots| ==> st == Done)
              && (k < |cots| ==> st == Failed(FileExists(EventDir(cots[k].uuid))))
  {
    ghost var es := Entries(cots, processUid);
    EntriesUids(cots, processUid);
    assert es[..0] == [];
    st := Done;
    for i := 0 to |cots|
      invariant fs.Valid() && [Out] in fs.dirs && st == Done
      invariant FirstClash(ManifestDir, Uids(es)[..i]) == None
      invariant fs.dirs == outsideDirs + TreeDirs(ManifestDir, Uids(es[..i]))
      invariant fs.files == outsideFiles + TreeFiles(ManifestDir, manifest, es[..i])
    {
      assert es[i] == Entry(cots[i].uuid, EventLines(cots[i], processUid));
      StageNext(outsideDirs, outsideFiles, ManifestDir, manifest, es, i, fs.dirs, fs.files);
      st := CreateCot(fs, cots[i], processUid);
      if st.Failed? {
        return;
      }
    }
    assert Uids(es)[..|cots|] == Uids(es);
  }

  /**
   * What `create_package(name, cots)` leaves behind, given the directories and
   * files before it. When `out` is a file, nothing changes and the removal
   * fails. Otherwise everything outside `out/` stays as it was, and `out/`
   * holds exactly the manifest and the event files of the markers before the
   * first clash, if any, which is the error.
   */
  ghost predicate PackageResult(dirs0: set<Path>, files0: map<Path, seq<string>>,
                                dirs: set<Path>, files: map<Path, seq<string>>,
                                name: string, cots: seq<Cot>, packageUid: Uuid, processUid: Uuid, st: Status)
  {
    if [Out] in files0 then
      st == Failed(NotADirectory([Out])) && dirs == dirs0 && files == files0
    else
      var es, k := Entries(cots, processUid), Staged(cots);
      && dirs == PrunedDirs(dirs0) + TreeDirs(ManifestDir, Uids(es[..k]))
      && files == PrunedFiles(files0) + TreeFiles(ManifestDir, ManifestLines(name, packageUid, cots), es[..k])
      && st == (if k == |cots| then Done else Failed(FileExists(EventDir(cots[k].uuid))))
  }

  /**
   * `create_package(name, cots)` up to the archive: clears `out/`, makes it
   * afresh, writes the manifest, then one event file per marker; the first
   * failure ends the run.
   */
  method CreatePackage(fs: FileSystem, name: string, cots: seq<Cot>, packageUid: Uuid, processUid: Uuid)
    returns (st: Status)
    requires fs.Valid()
    modifies fs
    ensures fs.Valid()
    ensures PackageResult(old(fs.dirs), old(fs.files), fs.dirs, fs.files, name, cots, packageUid, processUid, st)
  {
    st := ResetOutput(fs);
    if st.Failed? {
      return;
    }
    ghost var dirs0, files0 := PrunedDirs(old(fs.dirs)), PrunedFiles(old(fs.files));
    ghost var manifest := ManifestLines(name, packageUid, cots);
    st := CreateManifest(fs, name, cots, packageUid);
    assert st == Done;
    assert fs.dirs == dirs0 + TreeDirs(ManifestDir, []);
    assert fs.files == files0 + TreeFiles(ManifestDir, manifest, []);
    st := CreateCots(fs, cots, processUid, dirs0, files0, manifest);
  }
}
